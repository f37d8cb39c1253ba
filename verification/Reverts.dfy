/** Exactly when a power failure on Unix can bring an older program back. */
module Reverts {
  import opened Basics
  import opened Machine
  import opened Invariant
  import opened DiskSteps
  import opened Durability
  import opened Preservation
  import opened Guarantees
  import opened Outcomes
  import opened Afterwards
  import opened Monotonic

  /*** Sure and unsure disks ***/

  /** The directory is settled: a power failure leaves the target as it is. */
  predicate Sure(d: Disk) { Target in d.dir && d.maybe == {d.dir[Target]} }

  /** The last commit is not settled: the target may turn out to be the program that it replaced. */
  ghost predicate Unsure(d: Disk, h: seq<Event>) {
    && Target in d.dir && |h| > 0 && h[|h| - 1].Commit?
    && exists former: nat :: Unsettled(d, former) && d.inodes[former].content == h[|h| - 1].before
  }

  predicate Unsettled(d: Disk, former: nat) {
    Target in d.dir && former < |d.inodes| && former != d.dir[Target] && d.maybe == {former, d.dir[Target]}
  }

  /** Some disk that a power failure may leave shows another program than the one installed last. */
  ghost predicate MayRevert(c: Config, s: State) {
    exists d :: Survives(s.disk, d) && d.At(Target).content != Last(c, s.history)
  }

  lemma SureNeverReverts(c: Config, s: State)
    requires Inv(c, s) && c.platform == Unix && Sure(s.disk)
    ensures !MayRevert(c, s)
  {
  }

  /** What a power failure leaves when the target turns out to be the inode `former`. */
  function Fallback(d: Disk, former: nat): Disk { d.(dir := d.dir[Target := former], maybe := {former}) }

  lemma FallbackSurvives(c: Config, s: State, former: nat)
    requires Inv(c, s) && c.platform == Unix && Target in s.disk.dir
    requires former in s.disk.maybe && former < |s.disk.inodes|
    ensures Survives(s.disk, Fallback(s.disk, former))
  {
  }

  /** The inode now named, and the one it replaced: these are all. */
  lemma OnlyTwoShow(c: Config, s: State, former: nat, d: Disk)
    requires Inv(c, s) && c.platform == Unix && Unsettled(s.disk, former) && Survives(s.disk, d)
    ensures d.At(Target).content in {s.disk.inodes[former].content, Last(c, s.history)}
  {
  }

  lemma UnsureMayRevert(c: Config, s: State)
    requires Inv(c, s) && c.platform == Unix && Unsure(s.disk, s.history)
    ensures MayRevert(c, s) <==> s.history[|s.history| - 1].before != s.history[|s.history| - 1].after
  {
    var last := s.history[|s.history| - 1];
    var former: nat :| Unsettled(s.disk, former) && s.disk.inodes[former].content == last.before;
    if last.before != last.after {
      FallbackSurvives(c, s, former);
    } else {
      forall d | Survives(s.disk, d) ensures d.At(Target).content == Last(c, s.history) {
        OnlyTwoShow(c, s, former, d);
      }
    }
  }

  /** In every state: some surviving disk shows another program exactly if some possible inode has other content. */
  lemma MayRevertMeans(c: Config, run: seq<State>, i: nat)
    requires Run(c, run) && i < |run| && c.platform == Unix
    ensures MayRevert(c, run[i]) <==>
      exists k :: k in run[i].disk.maybe && k < |run[i].disk.inodes|
                  && run[i].disk.inodes[k].content != Last(c, run[i].history)
  {
    RunInv(c, run, i);
    PossibleInodes(c, run[i]);
  }

  lemma PossibleInodes(c: Config, s: State)
    requires Inv(c, s) && c.platform == Unix
    ensures MayRevert(c, s) <==>
      exists k :: k in s.disk.maybe && k < |s.disk.inodes| && s.disk.inodes[k].content != Last(c, s.history)
  {
    if k :| k in s.disk.maybe && k < |s.disk.inodes| && s.disk.inodes[k].content != Last(c, s.history) {
      assert Survives(s.disk, Fallback(s.disk, k));
    }
  }

  /*** Before a rename the directory is settled ***/

  predicate PastDirectorySync(pc: Pc) { pc.Refingerprinting? || pc.LastPolling? || pc.Renaming? }

  /** The lock holder is on its way from the directory sync to the rename. */
  predicate PastSync(s: State) { HolderOf(s).Some? && PastDirectorySync(HolderOf(s).value.pc) }

  /** An install about to rename has synced the directory, and with it whatever was committed before. */
  ghost predicate SyncedBefore(s: State) {
    PastSync(s) ==> Sure(s.disk)
  }

  lemma PrestagePastSync(c: Config, d: Disk, q: Proc, input: Input, d': Disk, q': Proc)
    requires Target in d.dir && c.platform == Unix && Prestage(c, d, q, input) == Some((d', q'))
    requires PastDirectorySync(q.pc) ==> Sure(d)
    requires PastDirectorySync(q'.pc)
    ensures Sure(d')
  {
  }

  lemma ReplaceIsPastThat(c: Config, d: Disk, q: Proc, input: Input, d': Disk, q': Proc)
    requires Replace(c, d, q, input) == Some((d', q'))
    ensures !PastDirectorySync(q'.pc)
  {
  }

  lemma OnlyPrestageGetsThere(c: Config, d: Disk, q: Proc, input: Input, d': Disk, q': Proc)
    requires || Prepare(c, d, q) == Some((d', q')) || Replace(c, d, q, input) == Some((d', q'))
             || Tidy(d, q, input) == Some((d', q'))
    ensures !PastDirectorySync(q'.pc)
  {
    if Replace(c, d, q, input) == Some((d', q')) {
      ReplaceIsPastThat(c, d, q, input, d', q');
    }
  }

  lemma AdvancePastSync(c: Config, d: Disk, q: Proc, input: Input, d': Disk, q': Proc)
    requires Target in d.dir && c.platform == Unix && Advance(c, d, q, input) == Some((d', q'))
    requires PastDirectorySync(q.pc) ==> Sure(d)
    requires PastDirectorySync(q'.pc)
    ensures Sure(d')
  {
    if Prestage(c, d, q, input) == Some((d', q')) {
      PrestagePastSync(c, d, q, input, d', q');
    } else {
      OnlyPrestageGetsThere(c, d, q, input, d', q');
    }
  }

  lemma SureStays(c: Config, d: Disk, d': Disk)
    requires c.platform == Unix && Gentle(c, d, d') && Sure(d)
    ensures Sure(d')
  {
  }

  lemma SucceedingKeepsSynced(c: Config, s: State, p: nat, input: Input, s': State)
    requires Inv(c, s) && c.platform == Unix && p in s.procs && Succeeding(c, s, p, input) == Some(s')
    requires HoldsLock(s.procs[p].pc) && !s.procs[p].pc.Releasing? && SyncedBefore(s)
    ensures SyncedBefore(s')
  {
    HolderIs(s, p);
    var (d', q') := Advance(c, s.disk, s.procs[p], input).value;
    if PastDirectorySync(q'.pc) {
      AdvancePastSync(c, s.disk, s.procs[p], input, d', q');
    }
  }

  lemma StumbleLeaves(q: Proc)
    ensures !PastDirectorySync(Stumble(q).pc)
  {
  }

  lemma SweepLeaves(d: Disk, q: Proc, n: Name, how: Sweep)
    ensures Sweeping(d, q, n, how).Some? ==> !PastDirectorySync(Sweeping(d, q, n, how).value.1.pc)
  {
  }

  lemma LockingElsewhere(s: State, p: nat)
    requires p in s.procs && s.procs[p].pc.Locking? && Approach(s, p).Some?
    ensures !PastSync(Approach(s, p).value)
  {
    assert HolderOf(Approach(s, p).value).value.pc.Reresolving?;
  }

  lemma WaitingElsewhere(s: State, p: nat)
    requires p in s.procs && !s.procs[p].pc.Locking? && Approach(s, p).Some? && s.lock != Some(p)
    ensures HolderOf(s) == HolderOf(Approach(s, p).value)
  {
  }

  lemma OutsideElsewhere(s: State, p: nat, s': State)
    requires Roster(s) && p in s.procs && !HoldsLock(s.procs[p].pc) && Approach(s, p) == Some(s')
    ensures PastSync(s') ==> HolderOf(s) == HolderOf(s')
  {
    HolderIs(s, p);
    if s.procs[p].pc.Locking? {
      LockingElsewhere(s, p);
    } else {
      WaitingElsewhere(s, p);
    }
  }

  lemma FailElsewhere(s: State, p: nat)
    requires Roster(s) && p in s.procs && PastSync(Failing(s, p))
    ensures HolderOf(s) == HolderOf(Failing(s, p))
  {
    HolderIs(s, p);
    StumbleLeaves(s.procs[p]);
  }

  lemma SweepElsewhere(s: State, p: nat, n: Name, how: Sweep, d': Disk, q': Proc)
    requires Roster(s) && p in s.procs && Sweeping(s.disk, s.procs[p], n, how) == Some((d', q'))
    ensures !PastSync(With(s, p, q').(disk := d'))
  {
    HolderIs(s, p);
    SweepLeaves(s.disk, s.procs[p], n, how);
  }

  lemma EndElsewhere(s: State, p: nat, outcome: Outcome)
    requires Roster(s) && p in s.procs
    ensures PastSync(Leave(s, p, outcome)) ==> HolderOf(s) == HolderOf(Leave(s, p, outcome))
    ensures PastSync(Die(s, p)) ==> HolderOf(s) == HolderOf(Die(s, p))
  {
  }

  lemma ReturnElsewhere(c: Config, s: State, p: nat, input: Input, s': State)
    requires Roster(s) && p in s.procs && Succeeding(c, s, p, input) == Some(s')
    requires !HoldsLock(s.procs[p].pc) || s.procs[p].pc.Releasing?
    requires PastSync(s')
    ensures HolderOf(s) == HolderOf(s')
  {
    if HoldsLock(s.procs[p].pc) {
      EndElsewhere(s, p, ResultOf(s.procs[p]));
    } else {
      OutsideElsewhere(s, p, s');
    }
  }

  /** Whatever else happens, nobody gets past the directory sync by it. */
  lemma HolderElsewhere(c: Config, s: State, a: Action, s': State)
    requires Roster(s) && Next(c, s, a) == Some(s') && !a.PowerLoss?
    requires a.Succeed? ==> !HoldsLock(s.procs[a.pid].pc) || s.procs[a.pid].pc.Releasing?
    requires PastSync(s')
    ensures HolderOf(s) == HolderOf(s')
  {
    match a
    case Succeed(p, input) => ReturnElsewhere(c, s, p, input, s');
    case Fail(p) => FailElsewhere(s, p);
    case SweepOne(p, n, how) =>
      var (d', q') := Sweeping(s.disk, s.procs[p], n, how).value;
      SweepElsewhere(s, p, n, how, d', q');
    case Begin(_) => NewcomersDoNotHold(s);
    case Crash(p) => EndElsewhere(s, p, ResultOf(s.procs[p]));
    case _ =>
  }

  lemma NewcomersDoNotHold(s: State)
    requires Roster(s)
    ensures s.lock != Some(s.born)
  {
    assert s.born in s.procs ==> ProcOk(s, s.born);
  }

  lemma ElsewhereKeepsSynced(c: Config, s: State, a: Action, s': State)
    requires Inv(c, s) && c.platform == Unix && Next(c, s, a) == Some(s') && SyncedBefore(s) && !a.PowerLoss?
    requires a.Succeed? ==> !HoldsLock(s.procs[a.pid].pc) || s.procs[a.pid].pc.Releasing?
    requires PastSync(s')
    ensures Sure(s'.disk)
  {
    HolderElsewhere(c, s, a, s');
    if s'.history != s.history {
      HolderMakesHistory(c, s, a, s');
    }
    StepIsGentle(c, s, a, s');
    SureStays(c, s.disk, s'.disk);
  }

  lemma StepKeepsSynced(c: Config, s: State, a: Action, s': State)
    requires Inv(c, s) && c.platform == Unix && Next(c, s, a) == Some(s') && SyncedBefore(s)
    ensures SyncedBefore(s')
  {
    if a.Succeed? && HoldsLock(s.procs[a.pid].pc) && !s.procs[a.pid].pc.Releasing? {
      SucceedingKeepsSynced(c, s, a.pid, a.input, s');
    } else if !a.PowerLoss? && PastSync(s') {
      ElsewhereKeepsSynced(c, s, a, s');
    }
  }

  lemma RunKeepsSynced(c: Config, run: seq<State>, i: nat)
    requires Run(c, run) && i < |run| && c.platform == Unix
    ensures SyncedBefore(run[i])
  {
    for k := 0 to i
      invariant SyncedBefore(run[k])
    {
      SyncedAt(c, run, k);
    }
  }

  lemma SyncedAt(c: Config, run: seq<State>, k: nat)
    requires Run(c, run) && k + 1 < |run| && c.platform == Unix && SyncedBefore(run[k])
    ensures SyncedBefore(run[k + 1])
  {
    RunInv(c, run, k);
    var a := StepAt(c, run, k);
    StepKeepsSynced(c, run[k], a, run[k + 1]);
  }

  /*** Commits and settlings along a run ***/

  /** The successful calls that settle what the target names, and the power failures that do so in their own way. */
  predicate Settles(s: State, a: Action) {
    || a.PowerLoss?
    || (a.Succeed? && a.pid in s.procs
        && (s.procs[a.pid].pc.SyncingDirectory? || s.procs[a.pid].pc.SyncingCommit?))
  }

  ghost predicate SettlesAt(c: Config, run: seq<State>, k: nat) {
    k + 1 < |run| && exists a :: Next(c, run[k], a) == Some(run[k + 1]) && Settles(run[k], a)
  }

  /** A program is renamed onto the target. */
  predicate CommitsAt(run: seq<State>, k: nat) {
    k + 1 < |run| && NewCommit(run[k].history, run[k + 1].history)
  }

  predicate NewCommit(h: seq<Event>, h': seq<Event>) {
    |h'| == |h| + 1 && h'[|h|].Commit?
  }

  /** The last commit before state i happened in step r, and nothing has settled it since. */
  ghost predicate PendingSince(c: Config, run: seq<State>, i: nat, r: nat) {
    && r < i < |run| && CommitsAt(run, r)
    && forall k :: r < k < i ==> !CommitsAt(run, k) && !SettlesAt(c, run, k)
  }

  ghost predicate AnyPending(c: Config, run: seq<State>, i: nat) {
    exists r: nat :: PendingSince(c, run, i, r)
  }

  lemma TargetIsThere(c: Config, s: State)
    requires Inv(c, s) && c.platform == Unix
    ensures Target in s.disk.dir
  {
  }

  lemma SettlingIsSure(c: Config, s: State, a: Action, s': State)
    requires Target in s.disk.dir && c.platform == Unix && Next(c, s, a) == Some(s') && Settles(s, a)
    ensures Sure(s'.disk) && !NewCommit(s.history, s'.history)
  {
    if a.Succeed? {
      assert !IsCommit(s.procs[a.pid].pc);
      CommitsOnlyAtCommit(s.disk, a.pid, s.procs[a.pid]);
    }
  }

  lemma RenamingIsUnsure(c: Config, d: Disk, h: seq<Event>, p: nat, q: Proc, input: Input)
    requires DiskInv(c, d, h, Some(q)) && q.pc.Renaming? && Advance(c, d, q, input).Some? && Sure(d)
    ensures Unsure(Advance(c, d, q, input).value.0, h + Commits(d, p, q))
  {
    var d', h' := Advance(c, d, q, input).value.0, h + Commits(d, p, q);
    assert h'[|h|].Commit? && h'[|h|].before == d.At(Target).content;
    assert Unsettled(d', d.dir[Target]);
  }

  lemma CommitIsUnsure(c: Config, s: State, a: Action, s': State)
    requires Inv(c, s) && c.platform == Unix && SyncedBefore(s)
    requires Next(c, s, a) == Some(s') && !a.PowerLoss? && s'.history != s.history
    ensures Unsure(s'.disk, s'.history)
  {
    HolderMakesHistory(c, s, a, s');
    CommitOnUnix(c, s, s.procs[a.pid], a.input);
    RenamingIsUnsure(c, s.disk, s.history, a.pid, s.procs[a.pid], a.input);
  }

  /** Only the calls that settle something change what the target may name; commits aside. */
  lemma MaybeStays(c: Config, d: Disk, q: Proc, input: Input)
    requires Advance(c, d, q, input).Some? && !IsCommit(q.pc) && !OnlyWindows(q.pc)
    requires !q.pc.SyncingDirectory? && !q.pc.SyncingCommit?
    ensures Advance(c, d, q, input).value.0.maybe == d.maybe
  {
  }

  lemma UnixShape(c: Config, s: State, p: nat)
    requires Inv(c, s) && c.platform == Unix && p in s.procs && HolderOf(s) == Some(s.procs[p])
    ensures !OnlyWindows(s.procs[p].pc)
  {
  }

  lemma QuietCallKeepsMaybe(c: Config, s: State, p: nat, input: Input, s': State)
    requires p in s.procs && Succeeding(c, s, p, input) == Some(s') && HoldsLock(s.procs[p].pc)
    requires !IsCommit(s.procs[p].pc) && !OnlyWindows(s.procs[p].pc) && !Settles(s, Succeed(p, input))
    ensures s'.disk.maybe == s.disk.maybe
  {
    if !s.procs[p].pc.Releasing? {
      MaybeStays(c, s.disk, s.procs[p], input);
    }
  }

  lemma OutsideKeepsMaybe(s: State, p: nat, s': State)
    requires p in s.procs && Approach(s, p) == Some(s')
    ensures s'.disk.maybe == s.disk.maybe
  {
  }

  lemma SucceedingKeepsMaybe(c: Config, s: State, p: nat, input: Input, s': State)
    requires Inv(c, s) && c.platform == Unix && p in s.procs && Succeeding(c, s, p, input) == Some(s')
    requires s'.history == s.history && !Settles(s, Succeed(p, input))
    ensures s'.disk.maybe == s.disk.maybe
  {
    HolderIs(s, p);
    if HoldsLock(s.procs[p].pc) {
      UnixShape(c, s, p);
      NoCommitWithoutHistory(c, s, p, input, s');
      QuietCallKeepsMaybe(c, s, p, input, s');
    } else {
      OutsideKeepsMaybe(s, p, s');
    }
  }

  lemma NoCommitWithoutHistory(c: Config, s: State, p: nat, input: Input, s': State)
    requires p in s.procs && Succeeding(c, s, p, input) == Some(s') && s'.history == s.history
    ensures !IsCommit(s.procs[p].pc)
  {
    if IsCommit(s.procs[p].pc) {
      InstalledContent(c, s.disk, p, s.procs[p], input);
    }
  }

  lemma SweepingKeepsMaybe(d: Disk, q: Proc, n: Name, how: Sweep)
    requires Sweeping(d, q, n, how).Some?
    ensures Sweeping(d, q, n, how).value.0.maybe == d.maybe
  {
  }

  lemma OtherStepsKeepMaybe(c: Config, s: State, a: Action, s': State)
    requires Next(c, s, a) == Some(s') && !a.Succeed? && !a.PowerLoss?
    ensures s'.disk.maybe == s.disk.maybe
  {
    match a
    case SweepOne(p, n, how) => SweepingKeepsMaybe(s.disk, s.procs[p], n, how);
    case Receive(p, bytes) => assert Receiving(s.disk, s.procs[p], bytes) == Some(s'.disk);
    case _ => OthersLeaveTheDisk(c, s, a, s');
  }

  lemma QuietStepKeepsMaybe(c: Config, s: State, a: Action, s': State)
    requires Inv(c, s) && c.platform == Unix && Next(c, s, a) == Some(s') && s'.history == s.history && !Settles(s, a)
    ensures s'.disk.maybe == s.disk.maybe
  {
    if a.Succeed? {
      SucceedingKeepsMaybe(c, s, a.pid, a.input, s');
    } else {
      OtherStepsKeepMaybe(c, s, a, s');
    }
  }

  lemma UnsureStays(c: Config, d: Disk, d': Disk, h: seq<Event>)
    requires c.platform == Unix && d.Sound() && Gentle(c, d, d') && d'.maybe == d.maybe && Unsure(d, h)
    ensures Unsure(d', h)
  {
    var former: nat :| Unsettled(d, former) && d.inodes[former].content == h[|h| - 1].before;
    assert Unsettled(d', former);
  }

  /*** The exact condition ***/

  /** What is known of the disk by looking back along the run. */
  ghost predicate Known(c: Config, run: seq<State>, i: nat)
    requires i < |run|
  {
    if AnyPending(c, run, i) then Unsure(run[i].disk, run[i].history) else Sure(run[i].disk)
  }

  lemma QuietStepKeepsKnown(c: Config, run: seq<State>, k: nat, a: Action)
    requires Run(c, run) && k + 1 < |run| && c.platform == Unix && Inv(c, run[k]) && Known(c, run, k)
    requires Next(c, run[k], a) == Some(run[k + 1]) && !SettlesAt(c, run, k) && run[k + 1].history == run[k].history
    ensures Known(c, run, k + 1)
  {
    var s, s' := run[k], run[k + 1];
    assert !Settles(s, a);
    StepIsGentle(c, s, a, s');
    QuietStepKeepsMaybe(c, s, a, s');
    PendingGoesOn(c, run, k);
    if AnyPending(c, run, k) {
      UnsureStays(c, s.disk, s'.disk, s.history);
    } else {
      SureStays(c, s.disk, s'.disk);
    }
  }

  lemma PendingGoesOn(c: Config, run: seq<State>, k: nat)
    requires k + 1 < |run| && !SettlesAt(c, run, k) && !CommitsAt(run, k)
    ensures AnyPending(c, run, k) <==> AnyPending(c, run, k + 1)
  {
    if AnyPending(c, run, k) {
      var r: nat :| PendingSince(c, run, k, r);
      assert PendingSince(c, run, k + 1, r);
    }
    if AnyPending(c, run, k + 1) {
      var r: nat :| PendingSince(c, run, k + 1, r);
      assert PendingSince(c, run, k, r);
    }
  }

  lemma SettlingStepKeepsKnown(c: Config, run: seq<State>, k: nat)
    requires Run(c, run) && k + 1 < |run| && c.platform == Unix && Inv(c, run[k]) && SettlesAt(c, run, k)
    ensures Known(c, run, k + 1)
  {
    var a :| Next(c, run[k], a) == Some(run[k + 1]) && Settles(run[k], a);
    TargetIsThere(c, run[k]);
    SettlingIsSure(c, run[k], a, run[k + 1]);
    NothingPending(c, run, k);
  }

  lemma NothingPending(c: Config, run: seq<State>, k: nat)
    requires SettlesAt(c, run, k) && !CommitsAt(run, k)
    ensures !AnyPending(c, run, k + 1)
  {
  }

  lemma CommittingStepKeepsKnown(c: Config, run: seq<State>, k: nat, a: Action)
    requires Run(c, run) && k + 1 < |run| && c.platform == Unix && Inv(c, run[k]) && SyncedBefore(run[k])
    requires Next(c, run[k], a) == Some(run[k + 1]) && !a.PowerLoss? && run[k + 1].history != run[k].history
    ensures Known(c, run, k + 1)
  {
    CommitIsUnsure(c, run[k], a, run[k + 1]);
    CommitIsTheRename(c, run[k], a, run[k + 1]);
    assert PendingSince(c, run, k + 1, k);
  }

  lemma KnownAt(c: Config, run: seq<State>, k: nat)
    requires Run(c, run) && k + 1 < |run| && c.platform == Unix && Known(c, run, k)
    ensures Known(c, run, k + 1)
  {
    RunInv(c, run, k);
    RunKeepsSynced(c, run, k);
    if SettlesAt(c, run, k) {
      SettlingStepKeepsKnown(c, run, k);
    } else {
      var a := StepAt(c, run, k);
      assert !Settles(run[k], a);
      if run[k + 1].history == run[k].history {
        QuietStepKeepsKnown(c, run, k, a);
      } else {
        CommittingStepKeepsKnown(c, run, k, a);
      }
    }
  }

  lemma AlwaysKnown(c: Config, run: seq<State>, i: nat)
    requires Run(c, run) && i < |run| && c.platform == Unix
    ensures Known(c, run, i)
  {
    assert Sure(run[0].disk);
    for k := 0 to i
      invariant Known(c, run, k)
    {
      KnownAt(c, run, k);
    }
  }

  lemma KnownDecides(c: Config, s: State, pending: bool)
    requires Inv(c, s) && c.platform == Unix && if pending then Unsure(s.disk, s.history) else Sure(s.disk)
    ensures MayRevert(c, s) <==>
      pending && |s.history| > 0 && s.history[|s.history| - 1].before != s.history[|s.history| - 1].after
  {
    if pending {
      UnsureMayRevert(c, s);
    } else {
      SureNeverReverts(c, s);
    }
  }

  /**
   The exact condition, along every run: a power failure can bring another program back if and only if since the last
   commit no directory sync has succeeded (nor the power failed), and that commit replaced a different program.
   */
  lemma RevertsExactlyWhen(c: Config, run: seq<State>, i: nat)
    requires Run(c, run) && i < |run| && c.platform == Unix
    ensures var h := run[i].history;
            MayRevert(c, run[i]) <==>
              AnyPending(c, run, i) && |h| > 0 && h[|h| - 1].before != h[|h| - 1].after
  {
    AlwaysKnown(c, run, i);
    RunInv(c, run, i);
    KnownDecides(c, run[i], AnyPending(c, run, i));
  }

  /*** What a caller can see of it ***/

  lemma QuietHistoryAt(c: Config, run: seq<State>, k: nat)
    requires Run(c, run) && k + 1 < |run| && !CommitsAt(run, k) && !SettlesAt(c, run, k)
    ensures run[k + 1].history == run[k].history
  {
    RunInv(c, run, k);
    var a := StepAt(c, run, k);
    assert !Settles(run[k], a);
    QuietHistory(c, run[k], a, run[k + 1]);
  }

  /** A pending commit is the last event. */
  lemma PendingIsLast(c: Config, run: seq<State>, i: nat, r: nat)
    requires Run(c, run) && PendingSince(c, run, i, r)
    ensures run[i].history == run[r + 1].history
  {
    for k := r + 1 to i
      invariant run[k].history == run[r + 1].history
    {
      QuietHistoryAt(c, run, k);
    }
  }

  lemma QuietHistory(c: Config, s: State, a: Action, s': State)
    requires Inv(c, s) && Next(c, s, a) == Some(s') && !NewCommit(s.history, s'.history) && !Settles(s, a)
    ensures s'.history == s.history
  {
    if s'.history != s.history {
      CommitIsTheRename(c, s, a, s');
    }
  }

  /** An install that has committed and is not yet at its end without an error has settled its commit. */
  lemma SettledHolder(c: Config, s: State, p: nat)
    requires Inv(c, s) && c.platform == Unix && p in s.procs && s.procs[p].committed
    requires s.procs[p].fault == NoFault && !s.procs[p].pc.SyncingCommit?
    ensures Sure(s.disk)
  {
    assert ProcOk(s, p);
    HolderIs(s, p);
  }

  lemma SureIsNotUnsure(d: Disk, h: seq<Event>)
    requires Sure(d)
    ensures !Unsure(d, h)
  {
  }

  /** The install that made the pending commit, while it still runs. */
  lemma PendingWhileRunning(c: Config, run: seq<State>, i: nat, p: nat)
    requires Run(c, run) && i < |run| && c.platform == Unix && AnyPending(c, run, i)
    requires p in run[i].procs && run[i].procs[p].committed
    ensures run[i].procs[p].pc.SyncingCommit? || run[i].procs[p].fault != NoFault
  {
    RunInv(c, run, i);
    AlwaysKnown(c, run, i);
    if !run[i].procs[p].pc.SyncingCommit? && run[i].procs[p].fault == NoFault {
      SettledHolder(c, run[i], p);
      SureIsNotUnsure(run[i].disk, run[i].history);
    }
  }

  lemma HistoryGrowsAt(c: Config, run: seq<State>, k: nat)
    requires Run(c, run) && k + 1 < |run|
    ensures run[k].history <= run[k + 1].history
  {
    RunInv(c, run, k);
    var a := StepAt(c, run, k);
    HistoryGrowsByStep(c, run[k], a, run[k + 1]);
  }

  lemma HistoryGrowsByStep(c: Config, s: State, a: Action, s': State)
    requires Roster(s) && Next(c, s, a) == Some(s')
    ensures s.history <= s'.history
  {
    if s'.history != s.history && !a.PowerLoss? {
      HolderMakesHistory(c, s, a, s');
    }
  }

  lemma HistoryGrows(c: Config, run: seq<State>, i: nat, j: nat)
    requires Run(c, run) && i <= j < |run|
    ensures run[i].history <= run[j].history
  {
    for k := i to j
      invariant run[i].history <= run[k].history
    {
      HistoryGrowsAt(c, run, k);
    }
  }

  /** The result of one install is on record, and those of the others stay. */
  lemma LeavingAddsResult(s: State, r: nat, outcome: Outcome, s': State, p: nat)
    requires Roster(s) && r in s.procs && s' == Leave(s, r, outcome) && p in s'.results
    ensures Returned(s, s', p) || (p in s.results && s.results[p] == s'.results[p])
  {
    ResultsStay(s, r);
  }

  lemma FailingResults(s: State, r: nat, p: nat)
    requires Roster(s) && r in s.procs && p in Failing(s, r).results
    ensures Returned(s, Failing(s, r), p) || (p in s.results && s.results[p] == Failing(s, r).results[p])
  {
    var q := s.procs[r];
    if !HoldsLock(q.pc) || q.pc == Releasing {
      LeavingAddsResult(s, r, ResultOf(q.(fault := FailWith(q.pc, q.fault))), Failing(s, r), p);
    }
  }

  lemma OthersAddNoResult(c: Config, s: State, a: Action, s': State)
    requires Next(c, s, a) == Some(s') && !a.Succeed? && !a.Fail?
    ensures s'.results == s.results
  {
  }

  lemma ResultStays(c: Config, s: State, a: Action, s': State, p: nat)
    requires Roster(s) && Next(c, s, a) == Some(s') && p in s'.results
    ensures Returned(s, s', p) || (p in s.results && s.results[p] == s'.results[p])
  {
    if a.Fail? {
      FailingResults(s, a.pid, p);
    } else if !a.Succeed? {
      OthersAddNoResult(c, s, a, s');
    } else if s'.results != s.results {
      SucceedingResults(c, s, a.pid, a.input, s');
      LeavingAddsResult(s, a.pid, ResultOf(s.procs[a.pid]), s', p);
    }
  }

  lemma ResultAt(c: Config, run: seq<State>, k: nat, p: nat)
    requires Run(c, run) && k + 1 < |run| && p in run[k + 1].results
    ensures Returned(run[k], run[k + 1], p) || (p in run[k].results && run[k].results[p] == run[k + 1].results[p])
  {
    RunInv(c, run, k);
    var a := StepAt(c, run, k);
    ResultStays(c, run[k], a, run[k + 1], p);
  }

  /** Every result on record was returned at some step. */
  lemma ReturnedAt(c: Config, run: seq<State>, i: nat, p: nat) returns (j: nat)
    requires Run(c, run) && i < |run| && p in run[i].results
    ensures j < i && Returned(run[j], run[j + 1], p) && run[j + 1].results[p] == run[i].results[p]
  {
    j := i;
    while j > 0
      invariant j <= i && p in run[j].results && run[j].results[p] == run[i].results[p]
    {
      j := j - 1;
      ResultAt(c, run, j, p);
      if Returned(run[j], run[j + 1], p) {
        return;
      }
    }
  }

  lemma ReturnIsSure(c: Config, run: seq<State>, j: nat, p: nat)
    requires Run(c, run) && j + 1 < |run| && Returned(run[j], run[j + 1], p) && run[j + 1].results[p].fault == NoFault
    requires c.platform == Unix
    ensures Sure(run[j + 1].disk)
  {
    RunInv(c, run, j);
    var a := StepAt(c, run, j);
    HowItReturned(c, run[j], a, run[j + 1], p);
    HolderIs(run[j], p);
    SettledHolderEnds(c, run[j], p);
  }

  lemma SettledHolderEnds(c: Config, s: State, p: nat)
    requires Inv(c, s) && c.platform == Unix && p in s.procs && HolderOf(s) == Some(s.procs[p])
    requires s.procs[p].pc.Releasing? && s.procs[p].fault == NoFault
    ensures Sure(s.disk)
  {
  }

  /** While the history stays as it is, nothing commits. */
  lemma NoCommitBetween(c: Config, run: seq<State>, j: nat, i: nat, r: nat)
    requires Run(c, run) && j <= r < i < |run| && run[j].history == run[i].history
    ensures !CommitsAt(run, r)
  {
    HistoryGrows(c, run, j, r);
    HistoryGrows(c, run, r + 1, i);
  }

  lemma PendingWhenReturned(c: Config, run: seq<State>, j: nat, p: nat, r: nat)
    requires Run(c, run) && j + 1 < |run| && c.platform == Unix
    requires Returned(run[j], run[j + 1], p) && run[j + 1].results[p].fault == NoFault
    ensures !PendingSince(c, run, j + 1, r)
  {
    AlwaysKnown(c, run, j + 1);
    ReturnIsSure(c, run, j, p);
    SureIsNotUnsure(run[j + 1].disk, run[j + 1].history);
  }

  /** A commit whose install has returned without an error is not pending. */
  lemma ReturnedIsNotPending(c: Config, run: seq<State>, i: nat, p: nat, j: nat)
    requires Run(c, run) && j + 1 <= i < |run| && c.platform == Unix
    requires Returned(run[j], run[j + 1], p) && run[j + 1].results[p].fault == NoFault
    requires var h := run[i].history; |h| > 0 && CommittedBy(h[|h| - 1], p)
    ensures !AnyPending(c, run, i)
  {
    OneCommitOnly(c, run, i, p, j);
    forall r: nat | r < i ensures !PendingSince(c, run, i, r) {
      if r <= j {
        PendingWhenReturned(c, run, j, p, r);
        NotPendingAgain(c, run, j + 1, i, r);
      } else {
        NoCommitBetween(c, run, j + 1, i, r);
      }
    }
  }

  lemma NotPendingAgain(c: Config, run: seq<State>, j: nat, i: nat, r: nat)
    requires r < j <= i && !PendingSince(c, run, j, r)
    ensures !PendingSince(c, run, i, r)
  {
  }

  lemma OneCommitOnly(c: Config, run: seq<State>, i: nat, p: nat, j: nat)
    requires Run(c, run) && j + 1 <= i < |run| && c.platform == Unix
    requires Returned(run[j], run[j + 1], p) && run[j + 1].results[p].fault == NoFault
    requires var h := run[i].history; |h| > 0 && CommittedBy(h[|h| - 1], p)
    ensures run[j + 1].history == run[i].history
  {
    ReturnedCommitIsLast(c, run, j, p);
    HistoryGrows(c, run, j + 1, i);
    EachCommitsOnce(c, run, i);
    LastCommitIsUnique(run[i].history, run[j + 1].history, p);
  }

  lemma ReturnedCommitIsLast(c: Config, run: seq<State>, j: nat, p: nat)
    requires Run(c, run) && j + 1 < |run| && c.platform == Unix
    requires Returned(run[j], run[j + 1], p) && run[j + 1].results[p].fault == NoFault
    ensures var h := run[j + 1].history; |h| > 0 && CommittedBy(h[|h| - 1], p)
  {
    ReturnedIsLast(c, run, j, p);
  }

  lemma EachCommitsOnce(c: Config, run: seq<State>, i: nat)
    requires Run(c, run) && i < |run|
    ensures OneCommitEach(run[i].history)
  {
    RunInv(c, run, i);
  }

  lemma LastCommitIsUnique(h: seq<Event>, before: seq<Event>, p: nat)
    requires OneCommitEach(h) && before <= h && |before| > 0
    requires CommittedBy(before[|before| - 1], p) && CommittedBy(h[|h| - 1], p)
    ensures before == h
  {
    assert before[|before| - 1] == h[|before| - 1];
  }

  /**
   What a caller can see of it: if a power failure can bring another program back, then the last commit is by an
   install that has not yet synced the directory, or has failed or crashed since; in particular never by one that has
   returned without an error.
   */
  lemma OnlyBrokenInstallsRevert(c: Config, run: seq<State>, i: nat)
    requires Run(c, run) && i < |run| && c.platform == Unix && MayRevert(c, run[i])
    ensures var s := run[i];
            && |s.history| > 0 && s.history[|s.history| - 1].Commit?
            && var p := s.history[|s.history| - 1].pid;
            && (p in s.procs ==> s.procs[p].pc.SyncingCommit? || s.procs[p].fault != NoFault)
            && (p in s.results ==> s.results[p].committed && s.results[p].fault != NoFault)
  {
    RevertsExactlyWhen(c, run, i);
    var r: nat :| PendingSince(c, run, i, r);
    PendingIsLast(c, run, i, r);
    var p := run[i].history[|run[i].history| - 1].pid;
    assert CommittedBy(run[i].history[|run[i].history| - 1], p);
    CommittedOnRecord(c, run, i, p);
    if p in run[i].procs {
      PendingWhileRunning(c, run, i, p);
    }
    if p in run[i].results && run[i].results[p].fault == NoFault {
      var j := ReturnedAt(c, run, i, p);
      ReturnedIsNotPending(c, run, i, p, j);
    }
  }

  lemma CommittedOnRecord(c: Config, run: seq<State>, i: nat, p: nat)
    requires Run(c, run) && i < |run| && HasCommit(run[i].history, p)
    ensures p in run[i].procs ==> run[i].procs[p].committed
    ensures p in run[i].results ==> run[i].results[p].committed
  {
    RunInv(c, run, i);
    assert p in run[i].procs ==> ProcOk(run[i], p);
    assert p in run[i].results ==> ResultOk(run[i], p);
  }

  /*** Whole runs ***/

  /** The power fails only while no commit is pending. */
  ghost predicate Sheltered(c: Config, run: seq<State>, i: nat) {
    forall k: nat :: k < i && FailsAt(c, run, k) ==> !AnyPending(c, run, k)
  }

  ghost predicate FailsAt(c: Config, run: seq<State>, k: nat) {
    k + 1 < |run| && exists d :: Next(c, run[k], PowerLoss(d)) == Some(run[k + 1])
  }

  lemma NothingTakenBack(c: Config, s: State, a: Action, s': State)
    requires Inv(c, s) && Next(c, s, a) == Some(s') && OnlyCommits(s.history, 0, |s.history|)
    requires a.PowerLoss? ==> !MayRevert(c, s)
    ensures OnlyCommits(s'.history, 0, |s'.history|)
  {
    if a.PowerLoss? {
      NoRevertWithoutReason(c, s, a.disk, s');
    } else {
      StepAddsCommits(c, s, a, s');
    }
  }

  lemma ShelteredAt(c: Config, run: seq<State>, k: nat)
    requires Run(c, run) && k + 1 < |run| && (FailsAt(c, run, k) ==> !AnyPending(c, run, k)) && c.platform == Unix
    requires OnlyCommits(run[k].history, 0, |run[k].history|)
    ensures OnlyCommits(run[k + 1].history, 0, |run[k + 1].history|)
  {
    RunInv(c, run, k);
    var a := StepAt(c, run, k);
    if a.PowerLoss? {
      assert FailsAt(c, run, k);
      RevertsExactlyWhen(c, run, k);
    }
    NothingTakenBack(c, run[k], a, run[k + 1]);
  }

  lemma NoRevertWithoutReason(c: Config, s: State, d: Disk, s': State)
    requires Next(c, s, PowerLoss(d)) == Some(s') && !MayRevert(c, s)
    ensures s'.history == s.history
  {
  }

  /** On Unix too nothing is ever taken back, if the power fails only while no commit is pending. */
  lemma ShelteredNeverReverts(c: Config, run: seq<State>, i: nat)
    requires Run(c, run) && i < |run| && c.platform == Unix && Sheltered(c, run, i)
    ensures OnlyCommits(run[i].history, 0, |run[i].history|)
  {
    assert run[0].history == [];
    for k := 0 to i
      invariant OnlyCommits(run[k].history, 0, |run[k].history|)
    {
      ShelteredAt(c, run, k);
    }
  }

  /** Then installed versions rise along the whole run. */
  lemma VersionsRiseOnUnix(c: Config, run: seq<State>, i: nat, versionOf: Bytes -> string, j: nat, k: nat)
    requires Run(c, run) && i < |run| && c.platform == Unix && Sheltered(c, run, i)
    requires Truthful(c, run[i].history, versionOf, j, k) && j < k < |run[i].history|
    ensures var h := run[i].history;
            && Older(versionOf(h[j].after), versionOf(h[k].after))
            && h[j].before != h[k].after && h[j].after != h[k].after
            && h[j].Commit? && h[k].Commit? && h[j].plan.fingerprint != h[k].plan.fingerprint
  {
    ShelteredNeverReverts(c, run, i);
    VersionsStrictlyIncrease(c, run, i, versionOf, j, k);
  }
}
