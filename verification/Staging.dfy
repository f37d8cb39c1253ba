/** Temporary files: making them, sweeping them, filling them. */
module Staging {
  import opened Basics
  import opened Machine
  import opened Invariant
  import opened Unpacking
  import opened Worlds
  import Extraction

  const ATTEMPTS := 10

  /*** createRandomFile ***/

  method Random(w: World) returns (suffix: Option<string>)
    modifies w`mishaps
    ensures w.mishaps == if suffix.Some? then old(w.mishaps) else old(w.mishaps) + 1
  {
    var ok := w.Luck();
    var text: string := *;
    suffix := if ok then Some(text) else None;
  }

  /** The install once it has made the file n. */
  function Making(q: Proc, n: Name): Proc {
    if q.pc.CreatingArchive? then q.(pc := Downloading, archive := Some(n)) else q.(pc := Extracting, stage := Some(n))
  }

  /** Makes a new file under a name that nobody had, or gives up. */
  method CreateRandomFile(w: World, p: nat, infix: Infix) returns (file: Option<Name>)
    requires w.Holding(p)
    requires (w.Me(p).pc.CreatingArchive? && infix == ArchiveFile) || (w.Me(p).pc.CreatingStage? && infix == StageFile)
    modifies w
    ensures w.Holding(p) && Continues(old(w.story), w.story)
    ensures file.Some? ==> file.value.Owned? && file.value.infix == infix && file.value !in old(w.disk).dir
                           && w.disk == old(w.disk).Create(file.value, Inode([], 384, Regular, false, false, false))
                           && w.Me(p) == Making(old(w.Me(p)), file.value)
    ensures file.None? ==> w.disk == old(w.disk) && w.Me(p) == Stumble(old(w.Me(p)))
    ensures w.polls == old(w.polls)
    ensures w.mishaps >= old(w.mishaps) && (file.None? ==> w.mishaps > old(w.mishaps))
    ensures file.None? && w.mishaps - old(w.mishaps) == w.clashes - old(w.clashes) ==>
      w.clashes == old(w.clashes) + 10
  {
    for attempts := 0 to ATTEMPTS
      invariant w.Holding(p) && Continues(old(w.story), w.story) && w.disk == old(w.disk) && w.Me(p) == old(w.Me(p))
      invariant w.mishaps == old(w.mishaps) + attempts && w.clashes == old(w.clashes) + attempts
      invariant w.polls == old(w.polls)
    {
      var suffix := Random(w);
      if suffix.None? {
        w.Refuse(p);
        return None;
      }
      var n := Owned(infix, suffix.value);
      var made := w.Create(p, n, Making(w.Me(p), n));
      if made == Made {
        return Some(n);
      }
      if made == Refused {
        return None;
      }
    }
    w.Refuse(p);
    return None;
  }

  /*** The sweeps ***/

  predicate Stale(e: DirEntry, infix: Infix) {
    e.name.Owned? && e.name.infix == infix && e.kind != Symlink && e.kind != Directory
  }

  /** The names among these entries that a sweep has to deal with. */
  function Leftovers(entries: seq<DirEntry>, infix: Infix): set<Name> {
    set i | 0 <= i < |entries| && Stale(entries[i], infix) :: entries[i].name
  }

  lemma LeftoversAreListed(entries: seq<DirEntry>, d: Disk, infix: Infix)
    requires Lists(entries, d)
    ensures Leftovers(entries, infix) == Listed(d, infix)
  {
    forall n | n in Listed(d, infix) ensures n in Leftovers(entries, infix) {
      var i :| 0 <= i < |entries| && entries[i].name == n;
      assert Stale(entries[i], infix);
    }
  }

  lemma OneLess(entries: seq<DirEntry>, infix: Infix, i: nat)
    requires i < |entries| && Distinct(entries)
    ensures Leftovers(entries[i..], infix) ==
            Leftovers(entries[i + 1..], infix) + if Stale(entries[i], infix) then {entries[i].name} else {}
    ensures entries[i].name !in Leftovers(entries[i + 1..], infix)
  {
    var rest, fewer := entries[i..], entries[i + 1..];
    forall n | n in Leftovers(rest, infix) && n != entries[i].name ensures n in Leftovers(fewer, infix) {
      var j :| 0 <= j < |rest| && Stale(rest[j], infix) && rest[j].name == n;
      assert fewer[j - 1] == rest[j];
    }
    forall n | n in Leftovers(fewer, infix) ensures n in Leftovers(rest, infix) {
      var j :| 0 <= j < |fewer| && Stale(fewer[j], infix) && fewer[j].name == n;
      assert rest[j + 1] == fewer[j];
    }
    assert rest[0] == entries[i];
  }

  lemma OneMore(entries: seq<DirEntry>, infix: Infix, i: nat)
    requires i < |entries|
    ensures Leftovers(entries[..i + 1], infix) ==
            Leftovers(entries[..i], infix) + if Stale(entries[i], infix) then {entries[i].name} else {}
    ensures Leftovers(entries[..i], infix) <= Leftovers(entries, infix)
  {
    var done, more := entries[..i], entries[..i + 1];
    assert more == done + [entries[i]];
    forall n | n in Leftovers(more, infix) && n != entries[i].name ensures n in Leftovers(done, infix) {
      var j :| 0 <= j < |more| && Stale(more[j], infix) && more[j].name == n;
      assert done[j] == more[j];
    }
    forall n | n in Leftovers(done, infix) ensures n in Leftovers(more, infix) && n in Leftovers(entries, infix) {
      var j :| 0 <= j < |done| && Stale(done[j], infix) && done[j].name == n;
      assert more[j] == done[j] == entries[j];
    }
    assert more[i] == entries[i];
  }

  predicate Distinct(entries: seq<DirEntry>) {
    forall i, j :: 0 <= i < j < |entries| ==> entries[i].name != entries[j].name
  }

  /** The pcs of a sweep: listing, removing, and what comes next. */
  function Phase(infix: Infix): (Pc, Pc, Pc) {
    match infix
    case StageFile => (ListingStages, SweepingStages, ListingArchives)
    case ArchiveFile => (ListingArchives, SweepingArchives, Fingerprinting)
    case BackupFile => (ListingBackups, SweepingBackups, ListingStages)
  }

  /** All the names are there. */
  predicate AllThere(d: Disk, names: set<Name>) { forall n :: n in names ==> d.Has(n) }

  /** The install after a failure on its way through the sweeps. */
  function Stopped(q: Proc, todo: set<Name>): Proc { q.(pc := Releasing, fault := Failed, todo := todo) }

  predicate BeforeArchive(pc: Pc) { HoldsLock(pc) && Rank(pc) <= 12 }

  lemma StumbleBeforeArchive(q: Proc)
    requires BeforeArchive(q.pc) && q.fault == NoFault
    ensures Stumble(q) == Stopped(q, q.todo)
  {
  }

  /** The directory without these names. */
  function Without(d: Disk, gone: set<Name>): Disk { d.(dir := d.dir - gone) }

  lemma WithoutOneMore(d: Disk, gone: set<Name>, n: Name)
    ensures Without(d, gone).Remove(n) == Without(d, gone + {n})
  {
  }

  lemma WithoutNothing(d: Disk)
    ensures Without(d, {}) == d
  {
  }

  method SweepFile(w: World, p: nat, n: Name) returns (ok: bool)
    requires w.Holding(p) && (w.Me(p).pc.SweepingStages? || w.Me(p).pc.SweepingArchives?)
    requires w.Me(p).fault == NoFault && n in w.Me(p).todo && AllThere(w.disk, w.Me(p).todo) && !IsBackup(n)
    modifies w
    ensures w.Holding(p) && Continues(old(w.story), w.story)
    ensures ok ==> w.Me(p) == old(w.Me(p)).(todo := old(w.Me(p)).todo - {n}) && AllThere(w.disk, w.Me(p).todo)
    ensures !ok ==> w.Me(p) == Stopped(old(w.Me(p)), w.Me(p).todo)
    ensures w.disk == if ok then old(w.disk).Remove(n) else old(w.disk)
    ensures w.mishaps >= old(w.mishaps) && (!ok ==> w.mishaps > old(w.mishaps))
  {
    var removal := w.Unlink(p, n, w.Me(p).(todo := w.Me(p).todo - {n}));
    ok := !removal.Denied?;
    if !ok {
      StumbleBeforeArchive(w.Me(p));
      w.Refuse(p);
    }
  }

  /** How far a sweep has got. */
  ghost predicate Swept(w: World, p: nat, q: Proc, entries: seq<DirEntry>, infix: Infix, i: nat)
    requires i <= |entries|
    reads w
  {
    && w.Holding(p) && Distinct(entries) && q.fault == NoFault
    && w.Me(p) == q.(pc := Phase(infix).1, todo := Leftovers(entries[i..], infix)) && AllThere(w.disk, w.Me(p).todo)
  }

  /** Reads the directory. */
  method List(w: World, p: nat, infix: Infix) returns (entries: Option<seq<DirEntry>>)
    requires w.Holding(p) && w.Me(p).fault == NoFault && w.Me(p).pc == Phase(infix).0
    modifies w
    ensures w.Holding(p) && Continues(old(w.story), w.story)
    ensures if entries.None? then w.Me(p) == Stopped(old(w.Me(p)), w.Me(p).todo)
            else Swept(w, p, old(w.Me(p)), entries.value, infix, 0) && Lists(entries.value, old(w.disk))
    ensures w.disk == old(w.disk)
    ensures if entries.Some? then w.troubles == old(w.troubles)
            else |w.troubles| == |old(w.troubles)| + 1 && w.troubles[|old(w.troubles)|].name == None
    ensures w.mishaps >= old(w.mishaps) && (entries.None? ==> w.mishaps > old(w.mishaps))
  {
    entries := w.ReadDir();
    if entries.None? {
      StumbleBeforeArchive(w.Me(p));
      w.Refuse(p);
      return;
    }
    LeftoversAreListed(entries.value, w.disk, infix);
    w.Step(p, Nothing, w.Me(p).(pc := Phase(infix).1, todo := Listed(w.disk, infix)));
    assert entries.value[0..] == entries.value;
  }

  method SweepEntry(w: World, p: nat, ghost q: Proc, entries: seq<DirEntry>, infix: Infix, i: nat) returns (ok: bool)
    requires i < |entries| && infix != BackupFile && Swept(w, p, q, entries, infix, i)
    modifies w
    ensures w.Holding(p) && Continues(old(w.story), w.story)
    ensures if ok then Swept(w, p, q, entries, infix, i + 1) else w.Me(p) == Stopped(old(w.Me(p)), w.Me(p).todo)
    ensures w.disk == if ok && Stale(entries[i], infix) then old(w.disk).Remove(entries[i].name) else old(w.disk)
    ensures w.mishaps >= old(w.mishaps) && (!ok ==> w.mishaps > old(w.mishaps))
  {
    OneLess(entries, infix, i);
    ok := true;
    if Stale(entries[i], infix) {
      ok := SweepFile(w, p, entries[i].name);
    }
  }

  /** The end of a sweep. */
  ghost method FinishSweep(w: World, p: nat, q: Proc, entries: seq<DirEntry>, infix: Infix)
    requires Swept(w, p, q, entries, infix, |entries|)
    modifies w`story
    ensures w.Holding(p) && Continues(old(w.story), w.story) && w.Me(p) == q.(pc := Phase(infix).2, todo := {})
  {
    assert Leftovers([], infix) == {};
    assert entries[|entries|..] == [];
    w.Step(p, Nothing, w.Me(p).(pc := Phase(infix).2));
  }

  /** The first i of these entries have been dealt with, and nothing else is gone. */
  ghost predicate OnlyGone(d: Disk, d': Disk, entries: seq<DirEntry>, infix: Infix, i: nat)
    requires i <= |entries|
  {
    d' == Without(d, Leftovers(entries[..i], infix))
  }

  lemma NothingGone(d: Disk, entries: seq<DirEntry>, infix: Infix)
    ensures OnlyGone(d, d, entries, infix, 0)
  {
    WithoutNothing(d);
    assert Leftovers(entries[..0], infix) == {};
  }

  lemma OneMoreGone(d: Disk, d': Disk, entries: seq<DirEntry>, infix: Infix, i: nat)
    requires i < |entries| && OnlyGone(d, d', entries, infix, i)
    ensures OnlyGone(d, if Stale(entries[i], infix) then d'.Remove(entries[i].name) else d', entries, infix, i + 1)
  {
    OneMore(entries, infix, i);
    WithoutOneMore(d, Leftovers(entries[..i], infix), entries[i].name);
    assert Leftovers(entries[..i], infix) + {} == Leftovers(entries[..i], infix);
  }

  /** Some of the files that were there at first are gone, and nothing else has changed. */
  ghost predicate SomeGone(d: Disk, d': Disk, infix: Infix) {
    exists gone :: gone <= Listed(d, infix) && d' == Without(d, gone)
  }

  lemma OnlySomeGone(d: Disk, d': Disk, entries: seq<DirEntry>, infix: Infix, i: nat)
    requires i <= |entries| && Lists(entries, d) && OnlyGone(d, d', entries, infix, i)
    ensures SomeGone(d, d', infix)
    ensures i == |entries| ==> SweptAway(d, d', infix)
  {
    ListedAreSweptAway(d, infix);
    LeftoversAreListed(entries, d, infix);
    assert entries[..|entries|] == entries;
    if i < |entries| {
      OneMore(entries, infix, i);
    }
    assert Leftovers(entries[..i], infix) <= Listed(d, infix);
  }

  /** Gone are exactly the files of this kind, symbolic links and directories apart; nothing else has changed. */
  ghost predicate SweptAway(d: Disk, d': Disk, infix: Infix) {
    && d'.inodes == d.inodes && d'.maybe == d.maybe && d'.dir.Keys <= d.dir.Keys
    && forall n :: d.Has(n) ==>
         if n.Owned? && n.infix == infix && (d.At(n).kind == Regular || d.At(n).kind == Special) then n !in d'.dir
         else n in d'.dir && d'.dir[n] == d.dir[n]
  }

  lemma ListedAreSweptAway(d: Disk, infix: Infix)
    ensures SweptAway(d, Without(d, Listed(d, infix)), infix)
  {
  }

  /** Goes through all the entries. */
  method SweepEntries(w: World, p: nat, ghost q: Proc, entries: seq<DirEntry>, infix: Infix) returns (ok: bool)
    requires infix != BackupFile && Swept(w, p, q, entries, infix, 0) && Lists(entries, w.disk)
    modifies w
    ensures w.Holding(p) && Continues(old(w.story), w.story)
    ensures ok ==> w.Me(p) == q.(pc := Phase(infix).2, todo := {}) && SweptAway(old(w.disk), w.disk, infix)
    ensures !ok ==> w.Me(p) == Stopped(q, w.Me(p).todo) && SomeGone(old(w.disk), w.disk, infix)
    ensures w.mishaps >= old(w.mishaps) && (!ok ==> w.mishaps > old(w.mishaps))
  {
    ghost var d := w.disk;
    NothingGone(d, entries, infix);
    for i := 0 to |entries|
      invariant Continues(old(w.story), w.story) && Swept(w, p, q, entries, infix, i) && w.mishaps >= old(w.mishaps)
      invariant OnlyGone(d, w.disk, entries, infix, i)
    {
      OnlySomeGone(d, w.disk, entries, infix, i);
      OneMoreGone(d, w.disk, entries, infix, i);
      ok := SweepEntry(w, p, q, entries, infix, i);
      if !ok {
        return;
      }
    }
    OnlySomeGone(d, w.disk, entries, infix, |entries|);
    FinishSweep(w, p, q, entries, infix);
    ok := true;
  }

  /** Removes every leftover of its kind and nothing else, or stops at the first failure. */
  method CleanupStaleFiles(w: World, p: nat, infix: Infix) returns (ok: bool)
    requires w.Holding(p) && w.Me(p).fault == NoFault && w.Me(p).pc == Phase(infix).0 && infix != BackupFile
    modifies w
    ensures w.Holding(p) && Continues(old(w.story), w.story)
    ensures ok ==> w.Me(p) == old(w.Me(p)).(pc := Phase(infix).2, todo := {})
    ensures ok ==> SweptAway(old(w.disk), w.disk, infix)
    ensures !ok ==> w.Me(p) == Stopped(old(w.Me(p)), w.Me(p).todo) && SomeGone(old(w.disk), w.disk, infix)
    ensures w.mishaps >= old(w.mishaps) && (!ok ==> w.mishaps > old(w.mishaps))
  {
    ghost var q := w.Me(p);
    WithoutNothing(w.disk);
    var listed := List(w, p, infix);
    if listed.None? {
      return false;
    }
    ok := SweepEntries(w, p, q, listed.value, infix);
  }

  /*** stageExecutable ***/

  /** The archive and the stage file of an install, each with an inode of its own. */
  ghost predicate Filling(w: World, p: nat, archive: Name, stage: Name)
    reads w
  {
    && w.Holding(p) && w.Me(p).archive == Some(archive) && w.Me(p).stage == Some(stage)
    && w.disk.Has(archive) && w.disk.Has(stage) && w.disk.dir[archive] != w.disk.dir[stage]
    && w.Me(p).fault == NoFault
  }

  /** The install after a failure while it fills the stage file. */
  function Dropping(q: Proc): Proc { q.(pc := DroppingStage, fault := Failed) }

  lemma StumbleWhileFilling(q: Proc)
    requires q.fault == NoFault
    requires q.pc.Extracting? || q.pc.SyncingStage? || q.pc.Chmodding? || q.pc.SyncingDirectory?
    ensures Stumble(q) == Dropping(q)
  {
  }

  /** The archive holds no member, or the caller gives up while it is being extracted. */
  ghost predicate Barren(c: Config, tools: Tools, assetName: string, archive: Bytes, cancelled: nat -> bool) {
    Unpack(c, archive) == None || Extraction.GaveUp(cancelled, LastPoll(tools, assetName, archive))
  }

  /** A stage file that may be put in place: the archive's member, on stable storage, with the target's bits. */
  predicate Executable(c: Config, inode: Inode, archive: Bytes, perm: nat) {
    Unpack(c, archive) == Some(inode.content) && inode.synced && inode.perm == perm
  }

  /** Extracts the member into the stage file. */
  method ExtractInto(
    w: World, p: nat, tools: Tools, cancelled: nat -> bool, assetName: string, archive: Name, stage: Name,
    ghost content: Bytes)
    returns (ok: bool)
    requires Filling(w, p, archive, stage) && w.Me(p).pc.Extracting? && w.disk.At(stage).content == []
    requires w.disk.At(archive).content == content
    requires Reads(w.c, tools) && Fitting(w.c.platform, assetName)
    modifies w
    ensures w.Holding(p) && Continues(old(w.story), w.story) && w.disk.dir == old(w.disk).dir
    ensures ok ==> Filling(w, p, archive, stage) && w.Me(p) == old(w.Me(p)).(pc := SyncingStage)
                   && Unpack(w.c, content) == Some(w.disk.At(stage).content)
    ensures !ok ==> w.Me(p) == Dropping(old(w.Me(p)))
    ensures w.mishaps >= old(w.mishaps)
    ensures !ok ==> w.mishaps > old(w.mishaps) || Barren(w.c, tools, assetName, content, cancelled)
  {
    StumbleWhileFilling(w.Me(p));
    var inode := w.Read(archive);
    if inode.None? {
      w.Refuse(p);
      return false;
    }
    var r, body := ExtractBody(w.c, tools, assetName, inode.value.content, cancelled);
    ok := WriteMember(w, p, archive, stage, body, r.Ok? && r.value > 0);
  }

  /** Writes what has been extracted; it is the member only if the extraction has succeeded. */
  method WriteMember(w: World, p: nat, archive: Name, stage: Name, body: Bytes, complete: bool) returns (ok: bool)
    requires Filling(w, p, archive, stage) && w.Me(p).pc.Extracting? && w.disk.At(stage).content == []
    requires complete ==> Unpack(w.c, w.disk.At(archive).content) == Some(body)
    modifies w
    ensures w.Holding(p) && Continues(old(w.story), w.story) && w.disk.dir == old(w.disk).dir
    ensures ok ==> complete && Filling(w, p, archive, stage) && w.Me(p) == old(w.Me(p)).(pc := SyncingStage)
                   && w.disk.At(stage).content == body
    ensures !ok ==> w.Me(p) == Dropping(old(w.Me(p)))
    ensures w.mishaps >= old(w.mishaps) && (!ok && complete ==> w.mishaps > old(w.mishaps))
  {
    StumbleWhileFilling(w.Me(p));
    WritingFills(w.disk, archive, stage, body);
    ok := w.Write(p, stage, body);
    if !ok {
      return;
    }
    if !complete {
      w.Refuse(p);
      return false;
    }
    Extracted(w, p, archive, stage);
  }

  /** Writing to the empty stage file touches nothing else. */
  lemma WritingFills(d: Disk, archive: Name, stage: Name, body: Bytes)
    requires d.Has(archive) && d.Has(stage) && d.dir[archive] != d.dir[stage] && d.At(stage).content == []
    ensures var d' := d.Put(stage, d.At(stage).(content := d.At(stage).content + body, synced := false));
            && d'.dir == d.dir && d'.Has(archive) && d'.Has(stage)
            && d'.At(archive) == d.At(archive) && d'.At(stage).content == body
  {
    assert [] + body == body;
  }

  lemma MemberIsUnpacked(c: Config, tools: Tools, assetName: string, archive: Bytes)
    requires Reads(c, tools) && Fitting(c.platform, assetName)
    ensures Unpack(c, archive) == Member(tools, assetName, archive, c.member)
  {
  }

  /** What extraction writes, all of it or up to its failure. */
  method ExtractBody(c: Config, tools: Tools, assetName: string, archive: Bytes, cancelled: nat -> bool)
    returns (r: Result<nat, Extraction.ExtractError>, body: Bytes)
    requires Reads(c, tools) && Fitting(c.platform, assetName)
    ensures r.Ok? ==> Unpack(c, archive) == Some(body) && r.value == |body|
    ensures r.Ok? ==> |body| > 0
    ensures r.Err? ==> Barren(c, tools, assetName, archive, cancelled)
  {
    var writer := new Extraction.Writer();
    r := ExtractArchive(tools, assetName, archive, c.member, cancelled, writer);
    body := writer.content;
    MemberIsUnpacked(c, tools, assetName, archive);
    if r.Ok? {
      ghost var whole :| Member(tools, assetName, archive, c.member) == Some(whole) && body == [] + whole;
      assert [] + whole == whole;
    }
  }

  ghost method Extracted(w: World, p: nat, archive: Name, stage: Name)
    requires Filling(w, p, archive, stage) && w.Me(p).pc.Extracting?
    requires Unpack(w.c, w.disk.At(archive).content) == Some(w.disk.At(stage).content)
    modifies w`story
    ensures Filling(w, p, archive, stage) && Continues(old(w.story), w.story)
    ensures w.Me(p) == old(w.Me(p)).(pc := SyncingStage)
  {
    w.Step(p, Nothing, w.Me(p).(pc := SyncingStage));
  }

  /** Brings the stage file to stable storage, unless the caller has given up. */
  method SyncStage(w: World, p: nat, archive: Name, stage: Name) returns (ok: bool)
    requires Filling(w, p, archive, stage) && w.Me(p).pc.SyncingStage?
    modifies w
    ensures w.Holding(p) && Continues(old(w.story), w.story) && w.disk.dir == old(w.disk).dir
    ensures ok ==> Filling(w, p, archive, stage) && w.Me(p) == old(w.Me(p)).(pc := Chmodding)
                   && w.disk.At(stage) == old(w.disk).At(stage).(synced := true) && w.polls == old(w.polls) + 1
    ensures !ok ==> w.Me(p) == Dropping(old(w.Me(p)))
    ensures w.mishaps >= old(w.mishaps) && (!ok ==> w.mishaps > old(w.mishaps))
  {
    StumbleWhileFilling(w.Me(p));
    ok := w.Poll(p);
    if ok {
      ok := w.Change(p, stage, w.disk.At(stage).(synced := true), w.Me(p).(pc := Chmodding));
    }
  }

  /** Gives the stage file the target's permission bits. */
  method ChmodStage(w: World, p: nat, perm: nat, archive: Name, stage: Name) returns (ok: bool)
    requires Filling(w, p, archive, stage) && w.Me(p).pc.Chmodding? && w.Me(p).perm == perm
    modifies w
    ensures w.Holding(p) && Continues(old(w.story), w.story) && w.disk.dir == old(w.disk).dir
    ensures ok ==> Filling(w, p, archive, stage) && w.Me(p) == old(w.Me(p)).(pc := SyncingDirectory)
                   && w.disk.At(stage) == old(w.disk).At(stage).(perm := perm)
    ensures !ok ==> w.Me(p) == Dropping(old(w.Me(p)))
    ensures w.mishaps >= old(w.mishaps) && (!ok ==> w.mishaps > old(w.mishaps))
  {
    StumbleWhileFilling(w.Me(p));
    ok := w.Change(p, stage, w.disk.At(stage).(perm := perm), w.Me(p).(pc := SyncingDirectory));
  }

  /** Only a file that is on stable storage becomes executable. */
  method FinishStage(w: World, p: nat, perm: nat, archive: Name, stage: Name) returns (ok: bool)
    requires Filling(w, p, archive, stage) && w.Me(p).pc.SyncingStage? && w.Me(p).perm == perm
    modifies w
    ensures w.Holding(p) && Continues(old(w.story), w.story) && w.disk.dir == old(w.disk).dir
    ensures ok ==> Filling(w, p, archive, stage) && w.Me(p) == old(w.Me(p)).(pc := SyncingDirectory)
                   && w.disk.At(stage) == old(w.disk).At(stage).(synced := true, perm := perm)
    ensures !ok ==> w.Me(p) == Dropping(old(w.Me(p)))
    ensures w.mishaps >= old(w.mishaps) && (!ok ==> w.mishaps > old(w.mishaps))
  {
    ok := SyncStage(w, p, archive, stage);
    if ok {
      ok := ChmodStage(w, p, perm, archive, stage);
    }
  }

  /** Closes the stage file and syncs the directory. */
  method CloseStage(w: World, p: nat, archive: Name, stage: Name) returns (ok: bool)
    requires Filling(w, p, archive, stage) && w.Me(p).pc.SyncingDirectory?
    modifies w
    ensures w.Holding(p) && Continues(old(w.story), w.story)
    ensures w.disk.dir == old(w.disk).dir && w.disk.inodes == old(w.disk).inodes
    ensures ok ==> Filling(w, p, archive, stage) && w.Me(p) == old(w.Me(p)).(pc := Refingerprinting)
    ensures !ok ==> w.Me(p) == Dropping(old(w.Me(p)))
    ensures w.mishaps >= old(w.mishaps) && (!ok ==> w.mishaps > old(w.mishaps))
  {
    StumbleWhileFilling(w.Me(p));
    ok := w.Try(p);
    if ok {
      ok := w.SyncDir(p, w.Me(p).(pc := Refingerprinting));
    }
  }

  /** The install after it has given up its stage file without saying so. */
  function Dropped(q: Proc): Proc { q.(pc := RemovingArchive, fault := Failed, stage := None) }

  lemma StumbleWhileDropping(q: Proc)
    requires q.pc.CreatingStage? && q.stage.None? && q.fault == NoFault
    ensures Stumble(q) == Dropped(q)
  {
  }

  /** The deferred removal of the stage file; its own error is not reported, and then the file stays. */
  method DropStage(w: World, p: nat, stage: Name)
    requires w.Holding(p) && w.Me(p).pc.DroppingStage? && w.Me(p).stage == Some(stage) && w.Me(p).fault == Failed
    modifies w
    ensures w.Holding(p) && Continues(old(w.story), w.story) && w.Me(p) == Dropped(old(w.Me(p)))
    ensures w.mishaps >= old(w.mishaps)
    ensures w.disk == old(w.disk).Remove(stage) || (w.disk == old(w.disk) && w.mishaps > old(w.mishaps))
  {
    var removed := w.Remove(p, stage, Nothing, Dropped(w.Me(p)));
  }

  /** Extracts, syncs, gives the bits, closes, and syncs the directory, in this order. */
  method FillStage(
    w: World, p: nat, tools: Tools, cancelled: nat -> bool, assetName: string, perm: nat, archive: Name, stage: Name,
    ghost content: Bytes)
    returns (ok: bool)
    requires Filling(w, p, archive, stage) && w.Me(p).pc.Extracting? && w.disk.At(stage).content == []
    requires w.disk.At(archive).content == content
    requires w.Me(p).perm == perm && Reads(w.c, tools) && Fitting(w.c.platform, assetName)
    modifies w
    ensures w.Holding(p) && Continues(old(w.story), w.story) && w.disk.dir == old(w.disk).dir
    ensures ok ==> Filling(w, p, archive, stage) && w.Me(p) == old(w.Me(p)).(pc := Refingerprinting)
                   && Executable(w.c, w.disk.At(stage), content, perm)
    ensures !ok ==> w.Me(p) == Dropping(old(w.Me(p)))
    ensures w.mishaps >= old(w.mishaps)
    ensures !ok ==> w.mishaps > old(w.mishaps) || Barren(w.c, tools, assetName, content, cancelled)
  {
    ok := ExtractInto(w, p, tools, cancelled, assetName, archive, stage, content);
    if ok {
      ok := CompleteStage(w, p, perm, archive, stage);
    }
  }

  /** What is left to do once the member is in the stage file. */
  method CompleteStage(w: World, p: nat, perm: nat, archive: Name, stage: Name) returns (ok: bool)
    requires Filling(w, p, archive, stage) && w.Me(p).pc.SyncingStage? && w.Me(p).perm == perm
    modifies w
    ensures w.Holding(p) && Continues(old(w.story), w.story) && w.disk.dir == old(w.disk).dir
    ensures ok ==> Filling(w, p, archive, stage) && w.Me(p) == old(w.Me(p)).(pc := Refingerprinting)
                   && w.disk.At(stage) == old(w.disk).At(stage).(synced := true, perm := perm)
    ensures !ok ==> w.Me(p) == Dropping(old(w.Me(p)))
    ensures w.mishaps >= old(w.mishaps) && (!ok ==> w.mishaps > old(w.mishaps))
  {
    ok := FinishStage(w, p, perm, archive, stage);
    if ok {
      ok := CloseStage(w, p, archive, stage);
    }
  }

  /** Makes the stage file, unless the caller has given up. */
  method MakeStage(w: World, p: nat, archive: Name) returns (stage: Option<Name>)
    requires w.Holding(p) && w.Me(p).pc.CreatingStage? && w.Me(p).archive == Some(archive) && w.Me(p).fault == NoFault
    requires w.disk.Has(archive) && w.Me(p).stage.None? && archive.Owned? && archive.infix == ArchiveFile
    modifies w
    ensures w.Holding(p) && Continues(old(w.story), w.story)
    ensures stage.Some? ==>
      && Filling(w, p, archive, stage.value) && stage.value.Owned? && stage.value.infix == StageFile
      && w.Me(p) == old(w.Me(p)).(pc := Extracting, stage := stage)
      && w.disk.At(stage.value).content == [] && w.disk.At(archive).content == old(w.disk.At(archive)).content
      && Extra(old(w.disk), w.disk, stage.value) && w.polls == old(w.polls) + 1
    ensures stage.None? ==> w.Me(p) == Dropped(old(w.Me(p))) && w.disk == old(w.disk)
    ensures w.mishaps >= old(w.mishaps) && (stage.None? ==> w.mishaps > old(w.mishaps))
  {
    StumbleWhileDropping(w.Me(p));
    var ok := w.Poll(p);
    stage := None;
    if ok {
      stage := CreateRandomFile(w, p, StageFile);
    }
  }

  /** The directory has one name more, and binds the others as it did. */
  predicate Extra(d: Disk, d': Disk, n: Name) {
    n !in d.dir && n in d'.dir && d'.dir - {n} == d.dir
  }

  /**
   Extracts the member into a new stage file beside the target. On failure the file is removed again; it stays, and
   nobody is told, only when that removal fails.
   */
  method StageExecutable(
    w: World, p: nat, tools: Tools, cancelled: nat -> bool, assetName: string, perm: nat, archive: Name,
    ghost content: Bytes)
    returns (stage: Option<Name>)
    requires w.Holding(p) && w.Me(p).pc.CreatingStage? && w.Me(p).archive == Some(archive) && w.Me(p).fault == NoFault
    requires w.disk.Has(archive) && w.Me(p).stage.None? && archive.Owned? && archive.infix == ArchiveFile
    requires w.disk.At(archive).content == content
    requires w.Me(p).perm == perm && Reads(w.c, tools) && Fitting(w.c.platform, assetName)
    modifies w
    ensures w.Holding(p) && Continues(old(w.story), w.story)
    ensures stage.Some? ==>
      && Filling(w, p, archive, stage.value) && w.Me(p) == old(w.Me(p)).(pc := Refingerprinting, stage := stage)
      && stage.value.Owned? && stage.value.infix == StageFile && Extra(old(w.disk), w.disk, stage.value)
      && Executable(w.c, w.disk.At(stage.value), content, perm)
    ensures stage.None? ==> w.Me(p) == Dropped(old(w.Me(p)))
    ensures stage.None? && w.disk.dir != old(w.disk).dir ==>
      w.mishaps > old(w.mishaps)
      && exists left: Name :: left.Owned? && left.infix == StageFile && Extra(old(w.disk), w.disk, left)
    ensures w.mishaps >= old(w.mishaps)
    ensures stage.None? ==> w.mishaps > old(w.mishaps) || Barren(w.c, tools, assetName, content, cancelled)
  {
    stage := MakeStage(w, p, archive);
    if stage.Some? {
      ghost var left := stage.value;
      var ok := FillOrDrop(w, p, tools, cancelled, assetName, perm, archive, stage.value, content);
      stage := if ok then stage else None;
      assert ok || w.disk.dir == old(w.disk).dir || Extra(old(w.disk), w.disk, left);
    }
  }

  /** Fills the stage file, or removes it again. */
  method FillOrDrop(
    w: World, p: nat, tools: Tools, cancelled: nat -> bool, assetName: string, perm: nat, archive: Name, stage: Name,
    ghost content: Bytes)
    returns (ok: bool)
    requires Filling(w, p, archive, stage) && w.Me(p).pc.Extracting? && w.disk.At(stage).content == []
    requires w.disk.At(archive).content == content
    requires w.Me(p).perm == perm && Reads(w.c, tools) && Fitting(w.c.platform, assetName)
    modifies w
    ensures w.Holding(p) && Continues(old(w.story), w.story)
    ensures ok ==> Filling(w, p, archive, stage) && w.Me(p) == old(w.Me(p)).(pc := Refingerprinting)
                   && w.disk.dir == old(w.disk).dir && Executable(w.c, w.disk.At(stage), content, perm)
    ensures !ok ==> w.Me(p) == Dropped(old(w.Me(p)))
                    && (w.disk.dir == old(w.disk).dir - {stage}
                        || (w.disk.dir == old(w.disk).dir && w.mishaps > old(w.mishaps)))
    ensures w.mishaps >= old(w.mishaps)
    ensures !ok ==> w.mishaps > old(w.mishaps) || Barren(w.c, tools, assetName, content, cancelled)
  {
    ok := FillStage(w, p, tools, cancelled, assetName, perm, archive, stage, content);
    if !ok {
      DropStage(w, p, stage);
    }
  }
}
