/** Which archive format a platform has, and the entries an archive offers in either. */
module Unpacking {
  import opened Basics
  import opened Packages
  import opened Extraction
  import opened Machine
  import Tar

  /** 512 MiB. */
  const MAX_EXPANDED := 536870912

  /** What the libraries make of an archive: the tar header parser, gzip, and the ZIP directory. */
  datatype Tools = Tools(parse: Tar.Parser, inflate: Bytes -> Tar.Stream, unzip: Bytes -> Option<seq<ZipFile>>)

  function TarEntries(tools: Tools, archive: Bytes): Option<seq<Entry>> {
    var reading := Tar.Contents(tools.parse, tools.inflate(archive));
    if reading.clean && reading.consumed <= MAX_EXPANDED then Some(reading.entries) else None
  }

  function ZipEntries(tools: Tools, archive: Bytes, member: string): Option<seq<Entry>> {
    match tools.unzip(archive)
    case None => None
    case Some(files) =>
      if |files| <= MAX_ZIP_ENTRIES
         && forall i :: 0 <= i < |files| && PathBase(files[i].name) == member ==> FaultFree(files[i])
      then Some(AsEntries(files)) else None
  }

  predicate HasSuffix(s: string, suffix: string) {
    |suffix| <= |s| && s[|s| - |suffix|..] == suffix
  }

  const TAR_SUFFIX := ".tar.gz"
  const ZIP_SUFFIX := ".zip"

  /** The asset name and the member name a platform needs. */
  function ExpectedNames(command: string, goos: string, goarch: string): Option<(string, string)> {
    if goarch != "amd64" && goarch != "arm64" then None
    else if goos == "linux" || goos == "darwin" then
      Some((command + "_" + goos + "_" + goarch + TAR_SUFFIX, command))
    else if goos == "windows" then Some((command + "_windows_" + goarch + ZIP_SUFFIX, command + ".exe"))
    else None
  }

  /** The platforms that releases are built for. */
  predicate Supported(goos: string, goarch: string) {
    (goos == "linux" || goos == "darwin" || goos == "windows") && (goarch == "amd64" || goarch == "arm64")
  }

  predicate AssetFor(command: string, goos: string, goarch: string, name: string) {
    && Supported(goos, goarch)
    && name == if goos == "windows" then command + "_windows_" + goarch + ".zip"
               else command + "_" + goos + "_" + goarch + ".tar.gz"
  }

  predicate ProgramFor(command: string, goos: string, goarch: string, name: string) {
    Supported(goos, goarch) && name == if goos == "windows" then command + ".exe" else command
  }

  /** The names are there exactly for the supported platforms, and each is the one for its platform. */
  lemma ExpectedNamesAreRight(command: string, goos: string, goarch: string)
    ensures match ExpectedNames(command, goos, goarch)
            case None => !Supported(goos, goarch)
            case Some((asset, program)) =>
              AssetFor(command, goos, goarch, asset) && ProgramFor(command, goos, goarch, program)
  {
  }

  predicate Fitting(platform: Platform, assetName: string) {
    if platform == Windows then HasSuffix(assetName, ZIP_SUFFIX) && !HasSuffix(assetName, TAR_SUFFIX)
    else HasSuffix(assetName, TAR_SUFFIX)
  }

  /** Asset names tell the format: .zip on Windows, .tar.gz elsewhere, never both. */
  lemma ExpectedNamesTellTheFormat(command: string, goos: string, goarch: string, asset: string)
    requires AssetFor(command, goos, goarch, asset)
    ensures Fitting(if goos == "windows" then Windows else Unix, asset)
  {
    if goos == "windows" {
      var stem := command + "_windows_" + goarch;
      assert asset[|stem|..] == ZIP_SUFFIX;
      assert asset[|asset| - 7..][6] == asset[|asset| - 1] == 'p';
    } else {
      var stem := command + "_" + goos + "_" + goarch;
      assert asset[|stem|..] == TAR_SUFFIX;
    }
  }

  function Entries(tools: Tools, assetName: string, archive: Bytes, member: string): Option<seq<Entry>> {
    if HasSuffix(assetName, TAR_SUFFIX) then TarEntries(tools, archive)
    else if HasSuffix(assetName, ZIP_SUFFIX) then ZipEntries(tools, archive, member)
    else None
  }

  function Member(tools: Tools, assetName: string, archive: Bytes, member: string): Option<Bytes> {
    match Entries(tools, assetName, archive, member)
    case None => None
    case Some(entries) => UniqueMember(entries, member)
  }

  /** The member of an archive is what the extraction loops accept, in either format. */
  lemma MemberIsWhatTheArchiveHolds(tools: Tools, assetName: string, archive: Bytes, member: string, body: Bytes)
    ensures Member(tools, assetName, archive, member) == Some(body) <==>
      if HasSuffix(assetName, TAR_SUFFIX)
      then TarHolds(tools.parse, tools.inflate(archive), 536870912, member, body)
      else HasSuffix(assetName, ZIP_SUFFIX) && tools.unzip(archive).Some?
           && ZipHolds(tools.unzip(archive).value, member, body)
  {
    BudgetOnlyRefuses(tools.parse, tools.inflate(archive), MAX_EXPANDED, member, body);
  }

  /** The last poll for cancellation that an extraction can come to: one before each entry, and one at the end. */
  function LastPoll(tools: Tools, assetName: string, archive: Bytes): nat {
    if HasSuffix(assetName, TAR_SUFFIX) then
      |Tar.Contents(tools.parse, Tar.Visible(tools.inflate(archive), MAX_EXPANDED + 1)).entries| + 1
    else if Scanned(tools.unzip(archive)) then |tools.unzip(archive).value|
    else 0
  }

  /** How many entries an extraction that succeeds looks at, each after a poll; and one poll more. */
  function EntryCount(tools: Tools, assetName: string, archive: Bytes): nat {
    if HasSuffix(assetName, TAR_SUFFIX)
    then |Tar.Contents(tools.parse, Tar.Visible(tools.inflate(archive), MAX_EXPANDED + 1)).entries|
    else if tools.unzip(archive).Some? then |tools.unzip(archive).value| else 0
  }

  /** What an extraction has come to: the member of the archive, a refusal, or the caller's impatience. */
  ghost predicate ComesTo(
    tools: Tools, assetName: string, archive: Bytes, member: string, cancelled: nat -> bool,
    r: Result<nat, ExtractError>, before: Bytes, content: Bytes)
  {
    match r
    case Ok(n) =>
      && Patient(cancelled, EntryCount(tools, assetName, archive) + 1)
      && exists body ::
           Member(tools, assetName, archive, member) == Some(body) && n == |body| && content == before + body
    case Err(Cancelled) => GaveUp(cancelled, LastPoll(tools, assetName, archive))
    case Err(_) => Member(tools, assetName, archive, member) == None
  }

  method ExtractTarArchive(
    tools: Tools, assetName: string, archive: Bytes, member: string, cancelled: nat -> bool, destination: Writer)
    returns (r: Result<nat, ExtractError>)
    requires HasSuffix(assetName, TAR_SUFFIX)
    modifies destination
    ensures ComesTo(
              tools, assetName, archive, member, cancelled, r, old(destination.content), destination.content)
  {
    r := ExtractTarGz(tools.parse, cancelled, tools.inflate(archive), member, MAX_EXPANDED, destination);
    if r.Ok? {
      ghost var body :|
        && TarHolds(tools.parse, tools.inflate(archive), MAX_EXPANDED, member, body)
        && destination.content == old(destination.content) + body && r.value == |body|;
      MemberIsWhatTheArchiveHolds(tools, assetName, archive, member, body);
    } else if Member(tools, assetName, archive, member).Some? {
      MemberIsWhatTheArchiveHolds(
        tools, assetName, archive, member, Member(tools, assetName, archive, member).value);
    }
  }

  method ExtractZipArchive(
    tools: Tools, assetName: string, archive: Bytes, member: string, cancelled: nat -> bool, destination: Writer)
    returns (r: Result<nat, ExtractError>)
    requires HasSuffix(assetName, ZIP_SUFFIX) && !HasSuffix(assetName, TAR_SUFFIX)
    modifies destination
    ensures ComesTo(
              tools, assetName, archive, member, cancelled, r, old(destination.content), destination.content)
  {
    r := ExtractZip(tools.unzip(archive), cancelled, member, destination);
    if r.Ok? {
      ghost var body :|
        && ZipHolds(tools.unzip(archive).value, member, body)
        && destination.content == old(destination.content) + body && r.value == |body|;
      MemberIsWhatTheArchiveHolds(tools, assetName, archive, member, body);
    } else if Member(tools, assetName, archive, member).Some? {
      MemberIsWhatTheArchiveHolds(
        tools, assetName, archive, member, Member(tools, assetName, archive, member).value);
    }
  }

  /**
   Extraction succeeds exactly when the archive holds the member, and then copies out all of it; a caller that has given
   up gets nothing.
   */
  method ExtractArchive(
    tools: Tools, assetName: string, archive: Bytes, member: string, cancelled: nat -> bool, destination: Writer)
    returns (r: Result<nat, ExtractError>)
    modifies destination
    ensures ComesTo(
              tools, assetName, archive, member, cancelled, r, old(destination.content), destination.content)
  {
    if HasSuffix(assetName, TAR_SUFFIX) {
      r := ExtractTarArchive(tools, assetName, archive, member, cancelled, destination);
    } else if HasSuffix(assetName, ZIP_SUFFIX) {
      r := ExtractZipArchive(tools, assetName, archive, member, cancelled, destination);
    } else {
      return Err(Unsupported);
    }
  }

  /** The installs of c read archives of their platform with these tools. */
  ghost predicate Reads(c: Config, tools: Tools) {
    forall assetName, archive :: Fitting(c.platform, assetName) ==>
      c.decode(archive) == Entries(tools, assetName, archive, c.member)
  }
}
