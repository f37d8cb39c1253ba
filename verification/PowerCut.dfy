/**
 Power failures at the wrong moment. Whatever has happened before, an install on Unix that is about to rename another
 program onto the target is two steps away from having that undone; and there are runs that get that far.
 */
module PowerCut {
  import opened Basics
  import opened Plans
  import opened Versions
  import opened Machine
  import opened Invariant
  import opened Preservation
  import opened Others
  import opened Reverts
  import opened Unpacking
  import Packages
  import Tar

  /*** From any run ***/

  /** The install p is about to rename a staged program onto a target that is another program. */
  predicate AboutToReplace(s: State, p: nat) {
    && p in s.procs && s.procs[p].pc.Renaming? && Present(s.disk, s.procs[p].stage) && s.disk.Has(Target)
    && s.disk.At(s.procs[p].stage.value).content != s.disk.At(Target).content
  }

  /** The archive and the target are there, and the directory may still name the target's inode after a rename. */
  ghost predicate AtRisk(c: Config, d: Disk, h: seq<Event>, q: Proc) {
    && d.Sound() && Present(d, q.archive) && q.stage != Some(Target)
    && d.Has(Target) && d.dir[Target] in d.maybe && d.At(Target).content == Last(c, h)
  }

  lemma RenamingIsAtRisk(c: Config, d: Disk, h: seq<Event>, holder: Option<Proc>)
    requires DiskInv(c, d, h, holder) && holder.Some? && holder.value.pc.Renaming? && c.platform == Unix
    ensures AtRisk(c, d, h, holder.value)
  {
  }

  lemma StateIsAtRisk(c: Config, s: State, p: nat)
    requires Inv(c, s) && p in s.procs && s.procs[p].pc.Renaming? && c.platform == Unix
    ensures AtRisk(c, s.disk, s.history, s.procs[p])
  {
    HolderIs(s, p);
    RenamingIsAtRisk(c, s.disk, s.history, HolderOf(s));
  }

  lemma RunIsAtRisk(c: Config, run: seq<State>, i: nat, p: nat)
    requires Run(c, run) && i < |run| && c.platform == Unix && p in run[i].procs && run[i].procs[p].pc.Renaming?
    ensures AtRisk(c, run[i].disk, run[i].history, run[i].procs[p])
  {
    RunInv(c, run, i);
    StateIsAtRisk(c, run[i], p);
  }

  /** What the rename leaves, with the old inode back under the name. */
  function Undone(d: Disk, stage: Name): Disk
    requires d.Has(stage) && Target in d.dir
  {
    Fallback(Install(d, stage), d.dir[Target])
  }

  lemma UndoneSurvives(d: Disk, stage: Name)
    requires d.Sound() && d.Has(stage) && d.Has(Target) && stage != Target && d.dir[Target] in d.maybe
    ensures Survives(Install(d, stage), Undone(d, stage)) && Undone(d, stage).At(Target) == d.At(Target)
  {
  }

  /** The history grows by this commit, and the program is in place. */
  predicate Committed(s: State, s': State, before: Bytes, after: Bytes) {
    var h, h' := s.history, s'.history;
    && |h'| == |h| + 1 && h <= h' && h'[|h|].Commit? && h'[|h|].before == before && h'[|h|].after == after
    && s'.disk.Has(Target) && s'.disk.At(Target).content == after
  }

  /** The install p renames. */
  lemma Replaces(c: Config, s: State, p: nat) returns (s': State)
    requires AboutToReplace(s, p) && Present(s.disk, s.procs[p].archive)
    ensures Next(c, s, Succeed(p, Nothing)) == Some(s') && s'.disk == Install(s.disk, s.procs[p].stage.value)
    ensures Committed(s, s', s.disk.At(Target).content, s.disk.At(s.procs[p].stage.value).content)
  {
    s' := Succeeding(c, s, p, Nothing).value;
  }

  lemma PowerFails(c: Config, s: State, d: Disk) returns (s': State)
    requires c.platform == Unix && Survives(s.disk, d) && |s.history| > 0 && d.At(Target).content != Last(c, s.history)
    ensures Next(c, s, PowerLoss(d)) == Some(s') && s'.disk == d
    ensures s'.history == s.history + [Revert(Last(c, s.history), d.At(Target).content)]
  {
    s' := Reboot(c, s, d);
  }

  /**
   Every run on Unix that has come to the rename of another program goes on, in two steps, to that commit and to its
   undoing: the power fails before the directory is synced, and the old program is back.
   */
  lemma RevertIsTwoStepsAway(c: Config, run: seq<State>, p: nat) returns (committed: State, undone: State)
    requires Run(c, run) && c.platform == Unix && AboutToReplace(run[|run| - 1], p)
    ensures Run(c, run + [committed, undone])
    ensures var s := run[|run| - 1];
            var before, after := s.disk.At(Target).content, s.disk.At(s.procs[p].stage.value).content;
            && Committed(s, committed, before, after)
            && undone.history == committed.history + [Revert(after, before)]
            && undone.disk.Has(Target) && undone.disk.At(Target) == s.disk.At(Target)
  {
    var s := run[|run| - 1];
    var stage := s.procs[p].stage.value;
    RunIsAtRisk(c, run, |run| - 1, p);
    committed := Replaces(c, s, p);
    RunGrows(c, run, Succeed(p, Nothing), committed);
    UndoneSurvives(s.disk, stage);
    undone := PowerFails(c, committed, Undone(s.disk, stage));
    RunGrows(c, run + [committed], PowerLoss(Undone(s.disk, stage)), undone);
    assert run + [committed] + [undone] == run + [committed, undone];
  }

  /*** A run that gets that far ***/

  const OLD: Bytes := [0]
  const NEW: Bytes := [1]
  const ARCHIVE: Bytes := [31, 139]

  function Block(b: Bytes): (block: Bytes)
    ensures |block| == Tar.BLOCK
  {
    seq(Tar.BLOCK, i requires 0 <= i < Tar.BLOCK => if i < |b| then b[i] else 0)
  }

  /** The archive expands to a tar file of one member: its header, its one byte in a block, and two zero blocks. */
  function Tape(): Bytes { Block([109]) + Block(NEW) + Block([]) + Block([]) }

  function TheTools(): Tools {
    Tools(
      (extensions: seq<Bytes>, block: Bytes) =>
        if |block| > 0 && block[0] == 109 then Tar.Header("m", true, 1) else Tar.BadHeader,
      (archive: Bytes) => Tar.Stream(if archive == ARCHIVE then Tape() else [], false),
      (archive: Bytes) => None)
  }

  /** Thirty-two bytes, and of course not injective. */
  function Digest(b: Bytes): (digest: Bytes)
    ensures |digest| == 32
  {
    seq(32, i requires 0 <= i < 32 => if i < |b| then b[i] else 0)
  }

  function Setting(): Config {
    Config(Unix, OLD, (b: Bytes) => Digest(b), (b: Bytes) => TarEntries(TheTools(), b), "m", (t, b, r) => None)
  }

  lemma SettingReadsArchives()
    ensures Reads(Setting(), TheTools())
  {
  }

  lemma TapeBlocks()
    ensures |Tape()| == 2048
    ensures Tape()[0..512] == Block([109]) && Tape()[1024..1536] == Block([]) && Tape()[1536..2048] == Block([])
    ensures Tape()[512..513] == NEW
  {
    assert Block([109])[0] == 109 && Block(NEW)[0] == 1;
  }

  lemma TapeHeaders()
    ensures Tar.NextHeader(TheTools().parse, Tar.Stream(Tape(), false), 0, 0, 0) ==
            Tar.Found(512, Tar.Header("m", true, 1))
    ensures Tar.NextHeader(TheTools().parse, Tar.Stream(Tape(), false), 512, 1, 511) == Tar.End(2048)
  {
    TapeBlocks();
    assert Block([109])[0] == 109;
    assert !Tar.IsZero(Block([109])) && Tar.IsZero(Block([]));
  }

  lemma TapeIsRead()
    ensures Tar.Contents(TheTools().parse, Tar.Stream(Tape(), false)) ==
            Tar.Reading([Packages.Entry("m", true, 1, NEW)], true, 2048)
  {
    TapeBlocks();
    TapeHeaders();
    assert Tar.Padding(1) == 511;
  }

  lemma ArchiveHoldsTheProgram()
    ensures Unpack(Setting(), ARCHIVE) == Some(NEW)
  {
    TapeIsRead();
    var e := Packages.Entry("m", true, 1, NEW);
    assert Packages.LastElement("m") == Packages.LastElement("") + ['m'];
    Packages.SelectHead(e, [], "m");
    assert [e] + [] == [e];
    assert Packages.Select([e], "m") == [e];
  }

  /** What matters of the setting. */
  predicate Suits(c: Config) {
    && c.platform == Unix && c.initial == OLD && c.hash(OLD) == Digest(OLD) && c.hash(ARCHIVE) == Digest(ARCHIVE)
    && Unpack(c, ARCHIVE) == Some(NEW)
  }

  lemma SettingSuits()
    ensures Suits(Setting())
  {
    ArchiveHoldsTheProgram();
  }

  function TheUpdater(): Updater { Updater(0, "o", "r", Render(Triple(1, 0, 0)), false, "") }

  function TheAsset(): Asset { Asset("m_linux_amd64.tar.gz", Digest(ARCHIVE)) }

  function ThePlan(): (plan: Plan) {
    var u := TheUpdater();
    Plan(u, Render(Triple(2, 0, 0)), true, true, false, "m_linux_amd64.tar.gz", Digest(ARCHIVE), None, Digest(OLD))
  }

  /** A release in good order: the plan that a check makes for it passes the gates. */
  lemma ThePlanIsAdmitted()
    ensures IsStable(Render(Triple(2, 0, 0))) && Admits(TheUpdater(), ThePlan())
    ensures BuildPlan(TheUpdater(), Render(Triple(2, 0, 0)), TheAsset(), false, Digest(OLD)) == ThePlan()
  {
    var v, w := Render(Triple(1, 0, 0)), Render(Triple(2, 0, 0));
    StableVersionsAreTriples(Triple(1, 0, 0), v);
    StableVersionsAreTriples(Triple(2, 0, 0), w);
    CompareIsPrecedence(v, w);
  }

  /*** Up to the lock ***/

  /** The install 0 holds the lock and has committed nothing. */
  ghost predicate Here(c: Config, run: seq<State>, d: Disk, q: Proc) {
    && Run(c, run)
    && var s := run[|run| - 1];
    && s.disk == d && s.lock == Some(0) && s.procs == map[0 := q] && s.history == []
  }

  function FirstDisk(): Disk { Disk(map[Target := 0], [Inode(OLD, 0, Regular, false, false, true)], {0}) }

  function FirstState(): State { State(FirstDisk(), None, map[], 0, {}, {}, map[], [], map[]) }

  lemma PlanIsMade(c: Config) returns (run: seq<State>)
    requires Suits(c)
    ensures Run(c, run)
    ensures run[|run| - 1] == FirstState().(plans := {ThePlan()})
  {
    ThePlanIsAdmitted();
    var s := FirstState();
    var a := Checked(TheUpdater(), Render(Triple(2, 0, 0)), TheAsset(), false, None);
    assert AddPlan(c, s, a).plans == {ThePlan()};
    RunGrows(c, [s], a, AddPlan(c, s, a));
    run := [s] + [AddPlan(c, s, a)];
  }

  function Newcomer(pc: Pc): Proc {
    Proc(pc, ThePlan(), None, 0, false, {}, None, None, None, false, false, NoFault)
  }

  function LockedDisk(): Disk { FirstDisk().Create(LockFile, BLANK) }

  lemma InstallBegins(c: Config) returns (run: seq<State>)
    requires Suits(c)
    ensures Run(c, run)
    ensures run[|run| - 1] == With(FirstState(), 0, Newcomer(Resolving)).(plans := {ThePlan()}, born := 1)
  {
    run := PlanIsMade(c);
    ThePlanIsAdmitted();
    var s := Spawn(run[|run| - 1], ThePlan());
    RunGrows(c, run, Begin(ThePlan()), s);
    run := run + [s];
  }

  lemma LockIsTaken(c: Config) returns (run: seq<State>)
    requires Suits(c)
    ensures Here(c, run, LockedDisk(), Newcomer(Reresolving))
  {
    run := InstallBegins(c);
    var s2 := With(run[|run| - 1], 0, Newcomer(OpeningLock));
    RunGrows(c, run, Succeed(0, Nothing), s2);
    run := run + [s2];
    var s3 := With(s2, 0, Newcomer(Locking)).(disk := LockedDisk());
    RunGrows(c, run, Succeed(0, Nothing), s3);
    run := run + [s3];
    var s4 := With(s3, 0, Newcomer(Reresolving)).(lock := Some(0));
    RunGrows(c, run, Succeed(0, Nothing), s4);
    run := run + [s4];
  }

  /*** Under the lock ***/

  lemma Move(c: Config, run: seq<State>, d: Disk, q: Proc, input: Input, d': Disk, q': Proc) returns (run': seq<State>)
    requires Here(c, run, d, q) && HoldsLock(q.pc) && !q.pc.Releasing? && Commits(d, 0, q) == []
    requires Advance(c, d, q, input) == Some((d', q'))
    ensures Here(c, run', d', q')
  {
    var s := run[|run| - 1];
    var s' := Succeeding(c, s, 0, input).value;
    RunGrows(c, run, Succeed(0, input), s');
    run' := run + [s'];
  }

  function Sighted(): Proc { Newcomer(ListingStages).(entry := Some(Sighting(0, true))) }

  lemma TargetIsSighted(c: Config) returns (run: seq<State>)
    requires Suits(c)
    ensures Here(c, run, LockedDisk(), Sighted())
  {
    var d := LockedDisk();
    run := LockIsTaken(c);
    run := Move(c, run, d, Newcomer(Reresolving), Nothing, d, Sighted().(pc := Polling));
    run := Move(c, run, d, Sighted().(pc := Polling), Nothing, d, Sighted());
  }

  lemma StagesAreListed(c: Config) returns (run: seq<State>)
    requires Suits(c)
    ensures Here(c, run, LockedDisk(), Sighted().(pc := SweepingStages))
  {
    var d := LockedDisk();
    run := TargetIsSighted(c);
    assert Listed(d, StageFile) == {};
    run := Move(c, run, d, Sighted(), Nothing, d, Sighted().(pc := SweepingStages));
  }

  lemma NoStagesToSweep(c: Config) returns (run: seq<State>)
    requires Suits(c)
    ensures Here(c, run, LockedDisk(), Sighted().(pc := ListingArchives))
  {
    var d := LockedDisk();
    run := StagesAreListed(c);
    run := Move(c, run, d, Sighted().(pc := SweepingStages), Nothing, d, Sighted().(pc := ListingArchives));
  }

  lemma NoArchivesToSweep(c: Config) returns (run: seq<State>)
    requires Suits(c)
    ensures Here(c, run, LockedDisk(), Sighted().(pc := SweepingArchives))
  {
    var d := LockedDisk();
    run := NoStagesToSweep(c);
    assert Listed(d, ArchiveFile) == {};
    run := Move(c, run, d, Sighted().(pc := ListingArchives), Nothing, d, Sighted().(pc := SweepingArchives));
  }

  lemma NothingToSweep(c: Config) returns (run: seq<State>)
    requires Suits(c)
    ensures Here(c, run, LockedDisk(), Sighted().(pc := Fingerprinting))
  {
    var d := LockedDisk();
    run := NoArchivesToSweep(c);
    run := Move(c, run, d, Sighted().(pc := SweepingArchives), Nothing, d, Sighted().(pc := Fingerprinting));
  }

  function Archive(): Name { Owned(ArchiveFile, "0") }

  function Stage(): Name { Owned(StageFile, "0") }

  function ArchivedDisk(archive: Bytes): Disk { LockedDisk().Create(Archive(), BLANK.(content := archive)) }

  function Archiving(pc: Pc): Proc { Sighted().(pc := pc, archive := Some(Archive())) }

  lemma DownloadBegins(c: Config) returns (run: seq<State>)
    requires Suits(c)
    ensures Here(c, run, ArchivedDisk([]), Archiving(Downloading))
  {
    var d, d' := LockedDisk(), ArchivedDisk([]);
    run := NothingToSweep(c);
    run := Move(c, run, d, Sighted().(pc := Fingerprinting), Nothing, d, Sighted().(pc := CreatingArchive));
    run := Move(c, run, d, Sighted().(pc := CreatingArchive), Suffix("0"), d', Archiving(Downloading));
  }

  lemma BytesArrive(c: Config, run: seq<State>, d: Disk, q: Proc, bytes: Bytes, d': Disk) returns (run': seq<State>)
    requires Here(c, run, d, q) && Receiving(d, q, bytes) == Some(d')
    ensures Here(c, run', d', q)
  {
    var s := run[|run| - 1];
    RunGrows(c, run, Receive(0, bytes), s.(disk := d'));
    run' := run + [s.(disk := d')];
  }

  lemma ArchiveIsReceived()
    ensures Receiving(ArchivedDisk([]), Archiving(Downloading), ARCHIVE) == Some(ArchivedDisk(ARCHIVE))
  {
    var d, d' := ArchivedDisk([]), ArchivedDisk(ARCHIVE);
    assert d.At(Archive()).content + ARCHIVE == ARCHIVE;
    assert d.Put(Archive(), BLANK.(content := ARCHIVE)) == d';
  }

  lemma ArchiveIsVerified(c: Config) returns (run: seq<State>)
    requires Suits(c)
    ensures Here(c, run, ArchivedDisk(ARCHIVE), Archiving(SyncingArchive))
  {
    var d := ArchivedDisk(ARCHIVE);
    run := DownloadBegins(c);
    ArchiveIsReceived();
    run := BytesArrive(c, run, ArchivedDisk([]), Archiving(Downloading), ARCHIVE, d);
    run := Move(c, run, d, Archiving(Downloading), Nothing, d, Archiving(SyncingArchive));
  }

  /** The archive is there, with the digest that the plan pins. */
  lemma ArchiveIsThere(c: Config) returns (run: seq<State>)
    requires Suits(c)
    ensures Here(c, run, ArchivedDisk(ARCHIVE), Archiving(CreatingStage))
  {
    var d := ArchivedDisk(ARCHIVE);
    run := ArchiveIsVerified(c);
    run := Move(c, run, d, Archiving(SyncingArchive), Nothing, d, Archiving(CreatingStage));
  }

  function StagedDisk(stage: Inode): Disk { ArchivedDisk(ARCHIVE).Create(Stage(), stage) }

  function Stager(pc: Pc): Proc { Archiving(pc).(stage := Some(Stage())) }

  lemma StageIsThere(c: Config) returns (run: seq<State>)
    requires Suits(c)
    ensures Here(c, run, StagedDisk(BLANK), Stager(Extracting))
  {
    run := ArchiveIsThere(c);
    var d, d' := ArchivedDisk(ARCHIVE), StagedDisk(BLANK);
    run := Move(c, run, d, Archiving(CreatingStage), Suffix("0"), d', Stager(Extracting));
  }

  lemma ProgramIsReceived()
    ensures Receiving(StagedDisk(BLANK), Stager(Extracting), NEW) == Some(StagedDisk(BLANK.(content := NEW)))
  {
    var d, d' := StagedDisk(BLANK), StagedDisk(BLANK.(content := NEW));
    assert d.At(Stage()) == BLANK && BLANK.content + NEW == NEW;
    assert d.Put(Stage(), BLANK.(content := NEW)) == d';
  }

  lemma StageIsWritten(c: Config) returns (run: seq<State>)
    requires Suits(c)
    ensures Here(c, run, StagedDisk(BLANK.(content := NEW)), Stager(Extracting))
  {
    run := StageIsThere(c);
    ProgramIsReceived();
    run := BytesArrive(c, run, StagedDisk(BLANK), Stager(Extracting), NEW, StagedDisk(BLANK.(content := NEW)));
  }

  lemma StageIsFilled(c: Config) returns (run: seq<State>)
    requires Suits(c)
    ensures Here(c, run, StagedDisk(BLANK.(content := NEW)), Stager(SyncingStage))
  {
    var d := StagedDisk(BLANK.(content := NEW));
    run := StageIsWritten(c);
    run := Move(c, run, d, Stager(Extracting), Nothing, d, Stager(SyncingStage));
  }

  function Program(): Inode { BLANK.(content := NEW, synced := true, perm := 0) }

  lemma StageIsSynced(c: Config) returns (run: seq<State>)
    requires Suits(c)
    ensures Here(c, run, StagedDisk(BLANK.(content := NEW, synced := true)), Stager(Chmodding))
  {
    var d, d' := StagedDisk(BLANK.(content := NEW)), StagedDisk(BLANK.(content := NEW, synced := true));
    run := StageIsFilled(c);
    assert d' == d.Put(Stage(), d.At(Stage()).(synced := true));
    run := Move(c, run, d, Stager(SyncingStage), Nothing, d', Stager(Chmodding));
  }

  lemma StageIsReady(c: Config) returns (run: seq<State>)
    requires Suits(c)
    ensures Here(c, run, StagedDisk(Program()), Stager(SyncingDirectory))
  {
    var d, d' := StagedDisk(BLANK.(content := NEW, synced := true)), StagedDisk(Program());
    run := StageIsSynced(c);
    assert d' == d.Put(Stage(), d.At(Stage()).(perm := 0));
    run := Move(c, run, d, Stager(Chmodding), Nothing, d', Stager(SyncingDirectory));
  }

  lemma DirectoryIsSynced(c: Config) returns (run: seq<State>)
    requires Suits(c)
    ensures Here(c, run, StagedDisk(Program()), Stager(Refingerprinting))
  {
    var d := StagedDisk(Program());
    run := StageIsReady(c);
    run := Move(c, run, d, Stager(SyncingDirectory), Nothing, d, Stager(Refingerprinting));
  }

  lemma TargetIsTheSame(c: Config) returns (run: seq<State>)
    requires Suits(c)
    ensures Here(c, run, StagedDisk(Program()), Stager(LastPolling))
  {
    var d := StagedDisk(Program());
    run := DirectoryIsSynced(c);
    run := Move(c, run, d, Stager(Refingerprinting), Nothing, d, Stager(LastPolling));
  }

  lemma SwapIsNext(c: Config) returns (run: seq<State>)
    requires Suits(c)
    ensures Here(c, run, StagedDisk(Program()), Stager(Renaming))
  {
    var d := StagedDisk(Program());
    run := TargetIsTheSame(c);
    run := Move(c, run, d, Stager(LastPolling), Nothing, d, Stager(Renaming));
  }

  lemma ItGetsThatFar(c: Config) returns (run: seq<State>)
    requires Suits(c)
    ensures Run(c, run) && AboutToReplace(run[|run| - 1], 0)
    ensures var s := run[|run| - 1];
            s.history == [] && s.disk.At(Target).content == OLD
            && s.disk.At(s.procs[0].stage.value).content == NEW
  {
    run := SwapIsNext(c);
    var s := run[|run| - 1];
    assert s.disk.At(Stage()) == Program() && s.disk.At(Target).content == OLD;
  }

  /**
   A run of one install on Unix, from the check on: it commits, the power fails before the directory is synced, and the
   program that had been replaced is back. Archives are read as the extraction reads them, and digests have 32 bytes.
   */
  lemma RevertsHappen() returns (c: Config, run: seq<State>)
    ensures Run(c, run) && c.platform == Unix && Reads(c, TheTools()) && forall b :: |c.hash(b)| == 32
    ensures var s := run[|run| - 1];
            && |s.history| == 2 && s.history[0].Commit? && s.history[1].Revert?
            && s.history[0].after != c.initial && s.disk.Has(Target) && s.disk.At(Target).content == c.initial
  {
    c := Setting();
    SettingReadsArchives();
    SettingSuits();
    run := ItGetsThatFar(c);
    var committed, undone := RevertIsTwoStepsAway(c, run, 0);
    run := run + [committed, undone];
  }
}
