/** File names as strings: which strings the names of the transition system stand for. */
module Names {
  import opened Basics
  import opened Machine

  /*** Hexadecimal ***/

  predicate IsLowerHexDigit(c: char) { '0' <= c <= '9' || 'a' <= c <= 'f' }

  predicate AllLowerHex(s: string) { forall i :: 0 <= i < |s| ==> IsLowerHexDigit(s[i]) }

  method IsLowerHex(value: string) returns (yes: bool)
    ensures yes <==> AllLowerHex(value)
  {
    for i := 0 to |value|
      invariant AllLowerHex(value[..i])
    {
      if (value[i] < '0' || value[i] > '9') && (value[i] < 'a' || value[i] > 'f') {
        return false;
      }
    }
    assert value[..|value|] == value;
    return true;
  }

  function HexDigit(n: nat): (c: char)
    requires n < 16
    ensures IsLowerHexDigit(c)
  {
    if n < 10 then ('0' as int + n) as char else ('a' as int + (n - 10)) as char
  }

  function HexValue(c: char): (n: nat)
    requires IsLowerHexDigit(c)
    ensures n < 16 && HexDigit(n) == c
  {
    if c <= '9' then c as int - '0' as int else c as int - 'a' as int + 10
  }

  /** hex.EncodeToString */
  function HexEncode(bytes: Bytes): (s: string)
    ensures |s| == 2 * |bytes| && AllLowerHex(s)
  {
    if bytes == [] then ""
    else [HexDigit(bytes[0] / 16), HexDigit(bytes[0] % 16)] + HexEncode(bytes[1..])
  }

  function HexDecode(s: string): (bytes: Bytes)
    requires AllLowerHex(s) && |s| % 2 == 0
    ensures 2 * |bytes| == |s|
  {
    if s == "" then [] else [HexValue(s[0]) * 16 + HexValue(s[1])] + HexDecode(s[2..])
  }

  const DIGITS := "0123456789abcdef"

  /** The high and the low digit of each byte, in this order. */
  lemma {:induction false} HexIsSpelled(bytes: Bytes, i: nat)
    requires i < |bytes|
    ensures HexEncode(bytes)[2 * i] == DIGITS[bytes[i] / 16] && HexEncode(bytes)[2 * i + 1] == DIGITS[bytes[i] % 16]
  {
    if i > 0 {
      HexIsSpelled(bytes[1..], i - 1);
    } else {
      DigitIsSpelled(bytes[0] / 16);
      DigitIsSpelled(bytes[0] % 16);
    }
  }

  lemma DigitIsSpelled(n: nat)
    requires n < 16
    ensures HexDigit(n) == DIGITS[n]
  {
  }

  lemma ByteRoundTrip(b: Byte)
    ensures HexValue(HexDigit(b / 16)) * 16 + HexValue(HexDigit(b % 16)) == b
  {
  }

  lemma {:induction false} DecodeEncode(bytes: Bytes)
    ensures HexDecode(HexEncode(bytes)) == bytes
  {
    if bytes != [] {
      ByteRoundTrip(bytes[0]);
      DecodeEncode(bytes[1..]);
      var s := HexEncode(bytes);
      assert s[2..] == HexEncode(bytes[1..]);
    }
  }

  lemma {:induction false} EncodeDecode(s: string)
    requires AllLowerHex(s) && |s| % 2 == 0
    ensures HexEncode(HexDecode(s)) == s
  {
    if s != "" {
      EncodeDecode(s[2..]);
      var b := HexDecode(s)[0];
      assert b / 16 == HexValue(s[0]) && b % 16 == HexValue(s[1]);
      assert HexDecode(s)[1..] == HexDecode(s[2..]);
      assert s == [s[0], s[1]] + s[2..];
    }
  }

  /*** Owned names ***/

  const RANDOM_BYTES := 16
  const RANDOM_LENGTH := 32

  function InfixText(infix: Infix): string {
    match infix
    case StageFile => "stage"
    case ArchiveFile => "archive"
    case BackupFile => "backup"
  }

  function Prefix(base: string, infix: Infix): string {
    "." + base + ".selfupdate-" + InfixText(infix) + "-"
  }

  /** What the generators make of sixteen random bytes. */
  function Candidate(base: string, infix: Infix, random: Bytes): string
    requires |random| == RANDOM_BYTES
  {
    Prefix(base, infix) + HexEncode(random)
  }

  predicate HasPrefix(s: string, prefix: string) { |prefix| <= |s| && s[..|prefix|] == prefix }

  /** The test of the sweeps. */
  predicate Passes(base: string, infix: Infix, name: string) {
    var prefix := Prefix(base, infix);
    HasPrefix(name, prefix) && |name| == |prefix| + RANDOM_LENGTH && AllLowerHex(name[|prefix|..])
  }

  /** The name of a temporary file as it is written. */
  predicate Worded(base: string, infix: Infix, random: Bytes, name: string) {
    |random| == 16
    && match infix
       case StageFile => name == "." + base + ".selfupdate-stage-" + HexEncode(random)
       case ArchiveFile => name == "." + base + ".selfupdate-archive-" + HexEncode(random)
       case BackupFile => name == "." + base + ".selfupdate-backup-" + HexEncode(random)
  }

  lemma CandidatesAreWorded(base: string, infix: Infix, random: Bytes, name: string)
    requires |random| == RANDOM_BYTES
    ensures Candidate(base, infix, random) == name <==> Worded(base, infix, random, name)
  {
    var word := InfixText(infix);
    assert Prefix(base, infix) == "." + base + (".selfupdate-" + word + "-");
    assert ".selfupdate-" + "stage" + "-" == ".selfupdate-stage-";
    assert ".selfupdate-" + "archive" + "-" == ".selfupdate-archive-";
    assert ".selfupdate-" + "backup" + "-" == ".selfupdate-backup-";
  }

  /** A name passes a sweep's test exactly if the generator of that sweep's files can produce it. */
  lemma FilterIsExact(base: string, infix: Infix, name: string)
    ensures Passes(base, infix, name) <==> exists random: Bytes :: Worded(base, infix, random, name)
  {
    var prefix := Prefix(base, infix);
    if Passes(base, infix, name) {
      var random := HexDecode(name[|prefix|..]);
      EncodeDecode(name[|prefix|..]);
      CandidatesAreWorded(base, infix, random, name);
    }
    if random: Bytes :| Worded(base, infix, random, name) {
      CandidatesAreWorded(base, infix, random, name);
      assert name[|prefix|..] == HexEncode(random);
    }
  }

  /** Different random bytes make different names. */
  lemma CandidatesDiffer(base: string, infix: Infix, x: Bytes, y: Bytes)
    requires |x| == |y| == RANDOM_BYTES && Candidate(base, infix, x) == Candidate(base, infix, y)
    ensures x == y
  {
    var n := |Prefix(base, infix)|;
    assert Candidate(base, infix, x)[n..] == HexEncode(x);
    assert Candidate(base, infix, y)[n..] == HexEncode(y);
    DecodeEncode(x);
    DecodeEncode(y);
  }

  lemma PrefixEnds(base: string, infix: Infix)
    ensures var p := Prefix(base, infix);
            && |p| == |base| + 14 + |InfixText(infix)| && p[1..1 + |base|] == base
            && p[|p| - 2] == (if infix == BackupFile then 'p' else 'e')
            && p[|p| - 3] == (match infix case StageFile => 'g' case ArchiveFile => 'v' case BackupFile => 'u')
  {
  }

  /** Prefixes tell their target and their kind apart. */
  lemma PrefixesDiffer(base: string, infix: Infix, base': string, infix': Infix)
    requires Prefix(base, infix) == Prefix(base', infix')
    ensures base == base' && infix == infix'
  {
    PrefixEnds(base, infix);
    PrefixEnds(base', infix');
  }

  /** No name belongs to two targets, or to two kinds of file. */
  lemma OwnersAreDisjoint(base: string, infix: Infix, base': string, infix': Infix, name: string)
    requires Passes(base, infix, name) && Passes(base', infix', name)
    ensures base == base' && infix == infix'
  {
    assert |Prefix(base, infix)| == |Prefix(base', infix')|;
    PrefixesDiffer(base, infix, base', infix');
  }

  function LockName(base: string): string { base + ".selfupdate.lock" }

  /** The lock file is never swept, for any target; nor is the target by its own sweeps. */
  lemma LockAndTargetAreSafe(base: string, infix: Infix, base': string)
    ensures !Passes(base, infix, base' + ".selfupdate.lock") && LockName(base') == base' + ".selfupdate.lock"
    ensures !Passes(base, infix, base) && LockName(base) != base
  {
    var lock, n := LockName(base'), |Prefix(base, infix)|;
    assert lock[|lock| - 1] == 'k';
    if |lock| == n + RANDOM_LENGTH {
      assert lock[n..][RANDOM_LENGTH - 1] == lock[|lock| - 1];
    }
  }

  /*** The names of the transition system ***/

  function Spelled(base: string, n: Name): string {
    match n
    case Target => base
    case LockFile => LockName(base)
    case Owned(infix, suffix) => Prefix(base, infix) + suffix
    case Other(text) => text
  }

  function Classify(base: string, text: string): Name {
    if text == base then Target
    else if text == LockName(base) then LockFile
    else if Passes(base, StageFile, text) then Owned(StageFile, text[|Prefix(base, StageFile)|..])
    else if Passes(base, ArchiveFile, text) then Owned(ArchiveFile, text[|Prefix(base, ArchiveFile)|..])
    else if Passes(base, BackupFile, text) then Owned(BackupFile, text[|Prefix(base, BackupFile)|..])
    else Other(text)
  }

  /** The names that stand for strings: owned suffixes are 32 lowercase hex digits, other names are not owned. */
  predicate Proper(base: string, n: Name) {
    match n
    case Target => true
    case LockFile => true
    case Owned(infix, suffix) => |suffix| == RANDOM_LENGTH && AllLowerHex(suffix)
    case Other(text) =>
      text != base && text != LockName(base)
      && !Passes(base, StageFile, text) && !Passes(base, ArchiveFile, text) && !Passes(base, BackupFile, text)
  }

  lemma OwnedPasses(base: string, infix: Infix, suffix: string)
    requires |suffix| == RANDOM_LENGTH && AllLowerHex(suffix)
    ensures var text := Prefix(base, infix) + suffix;
            Passes(base, infix, text) && text[|Prefix(base, infix)|..] == suffix
  {
    var text, n := Prefix(base, infix) + suffix, |Prefix(base, infix)|;
    assert text[n..] == suffix && text[..n] == Prefix(base, infix);
  }

  lemma ClassifyOwned(base: string, infix: Infix, text: string)
    requires Passes(base, infix, text)
    ensures Classify(base, text) == Owned(infix, text[|Prefix(base, infix)|..])
  {
    LockAndTargetAreSafe(base, infix, base);
    forall other | Passes(base, other, text) ensures other == infix {
      OwnersAreDisjoint(base, infix, base, other, text);
    }
  }

  /** Proper names and strings are the same thing. */
  lemma NamesAreStrings(base: string, n: Name, text: string)
    ensures Proper(base, n) ==> Classify(base, Spelled(base, n)) == n
    ensures Proper(base, Classify(base, text)) && Spelled(base, Classify(base, text)) == text
  {
    if Proper(base, n) && n.Owned? {
      OwnedPasses(base, n.infix, n.suffix);
      ClassifyOwned(base, n.infix, Spelled(base, n));
    }
    LockAndTargetAreSafe(base, StageFile, base);
    var m := Classify(base, text);
    if m.Owned? {
      var k := |Prefix(base, m.infix)|;
      assert text == text[..k] + text[k..];
    }
  }

  /*** Asset digests ***/

  const DIGEST_PREFIX := "sha256:"
  const DIGEST_BYTES := 32

  predicate IsDigest(value: string) {
    && |value| == |DIGEST_PREFIX| + 2 * DIGEST_BYTES && HasPrefix(value, DIGEST_PREFIX)
    && AllLowerHex(value[|DIGEST_PREFIX|..])
  }

  lemma DecodeOne(s: string)
    requires AllLowerHex(s) && |s| % 2 == 0 && s != ""
    ensures HexDecode(s) == [HexValue(s[0]) * 16 + HexValue(s[1])] + HexDecode(s[2..])
  {
  }

  /** Reads the digits in pairs. */
  method DecodeHex(hex: string) returns (bytes: Bytes)
    requires AllLowerHex(hex) && |hex| % 2 == 0
    ensures bytes == HexDecode(hex)
  {
    bytes := [];
    var rest := hex;
    while rest != ""
      invariant AllLowerHex(rest) && |rest| % 2 == 0
      invariant bytes + HexDecode(rest) == HexDecode(hex)
      decreases |rest|
    {
      DecodeOne(rest);
      bytes, rest := bytes + [HexValue(rest[0]) * 16 + HexValue(rest[1])], rest[2..];
    }
  }

  /** Accepts exactly the digests, each as the bytes that print as it. */
  method ParseAssetDigest(value: string) returns (digest: Option<Bytes>)
    ensures digest.Some? <==> IsDigest(value)
    ensures digest.Some? <==>
      |value| == 71 && value[..7] == "sha256:"
      && forall i :: 7 <= i < 71 ==> '0' <= value[i] <= '9' || 'a' <= value[i] <= 'f'
    ensures digest.Some? ==> |digest.value| == DIGEST_BYTES && DIGEST_PREFIX + HexEncode(digest.value) == value
    ensures digest.Some? ==> forall i :: 0 <= i < 32 ==>
      value[7 + 2 * i] == DIGITS[digest.value[i] / 16] && value[8 + 2 * i] == DIGITS[digest.value[i] % 16]
  {
    if |value| != |DIGEST_PREFIX| + 2 * DIGEST_BYTES || !HasPrefix(value, DIGEST_PREFIX) {
      return None;
    }
    var hex := value[|DIGEST_PREFIX|..];
    var lower := IsLowerHex(hex);
    if !lower {
      return None;
    }
    var bytes := DecodeHex(hex);
    EncodeDecode(hex);
    assert value == DIGEST_PREFIX + hex;
    forall i: nat | i < 32
      ensures value[7 + 2 * i] == DIGITS[bytes[i] / 16] && value[8 + 2 * i] == DIGITS[bytes[i] % 16]
    {
      HexIsSpelled(bytes, i);
    }
    return Some(bytes);
  }
}
