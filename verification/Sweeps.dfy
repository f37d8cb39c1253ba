/** What the sweeps may and may not remove, while other installs run. */
module Sweeps {
  import opened Basics
  import opened Machine
  import opened Invariant
  import opened Preservation
  import opened HolderSteps

  /** At most one install is past the lock at any time. */
  lemma OneHolder(c: Config, run: seq<State>, i: nat, p: nat, r: nat)
    requires Run(c, run) && i < |run| && p in run[i].procs && r in run[i].procs
    requires HoldsLock(run[i].procs[p].pc) && HoldsLock(run[i].procs[r].pc)
    ensures p == r && run[i].lock == Some(p)
  {
    RunInv(c, run, i);
    assert ProcOk(run[i], p);
    assert ProcOk(run[i], r);
  }

  /** A file some running install made or refers to. */
  ghost predicate InUse(s: State, n: Name) {
    || (n in s.creator && s.creator[n] in s.procs)
    || exists p :: p in s.procs && Uses(s.procs[p], n)
  }

  predicate Uses(q: Proc, n: Name) { q.archive == Some(n) || q.stage == Some(n) || q.backup == Some(n) }

  /**
   A sweep removes nothing a running install made or uses, neither the lock file nor the target nor any file that is
   not an install's; and backups are removed only while the last program is in place.
   */
  lemma SweepIsSafe(c: Config, run: seq<State>, i: nat, p: nat, n: Name, how: Sweep)
    requires Run(c, run) && i + 1 < |run| && Next(c, run[i], SweepOne(p, n, how)) == Some(run[i + 1])
    requires p in run[i].procs && IsSweep(run[i].procs[p].pc)
    ensures n.Owned? && !InUse(run[i], n)
    ensures run[i].disk.Has(Target) && run[i].disk.At(Target).content == Last(c, run[i].history)
    ensures run[i + 1].disk.Has(Target) && run[i + 1].disk.dir[Target] == run[i].disk.dir[Target]
    ensures forall m :: m in run[i].disk.dir && m != n ==>
              m in run[i + 1].disk.dir && run[i + 1].disk.dir[m] == run[i].disk.dir[m]
  {
    SweepTouchesOne(c, run, i, p, n, how);
    SweeperIsAlone(c, run, i, p, n);
  }

  lemma SweepTouchesOne(c: Config, run: seq<State>, i: nat, p: nat, n: Name, how: Sweep)
    requires Run(c, run) && i < |run| && p in run[i].procs && IsSweep(run[i].procs[p].pc)
    requires Sweeping(run[i].disk, run[i].procs[p], n, how).Some?
    ensures var d := run[i].disk;
            && n.Owned? && d.Has(Target) && d.At(Target).content == Last(c, run[i].history)
            && var d' := Sweeping(d, run[i].procs[p], n, how).value.0;
            && d'.Has(Target) && d'.dir[Target] == d.dir[Target]
            && forall m :: m in d.dir && m != n ==> m in d'.dir && d'.dir[m] == d.dir[m]
  {
    RunInv(c, run, i);
    HolderIs(run[i], p);
    SweepingTouchesOne(c, run[i].disk, run[i].history, run[i].procs[p], n, how);
  }

  lemma SweeperIsAlone(c: Config, run: seq<State>, i: nat, p: nat, n: Name)
    requires Run(c, run) && i < |run| && p in run[i].procs && IsSweep(run[i].procs[p].pc)
    ensures !InUse(run[i], n)
  {
    RunInv(c, run, i);
    HolderIs(run[i], p);
    SweptIsNotInUse(c, run[i], p, n);
  }

  lemma SweepingTouchesOne(c: Config, d: Disk, h: seq<Event>, q: Proc, n: Name, how: Sweep)
    requires DiskInv(c, d, h, Some(q)) && IsSweep(q.pc) && Sweeping(d, q, n, how).Some?
    ensures n.Owned? && n in q.todo && d.Has(Target) && d.At(Target).content == Last(c, h)
    ensures var d' := Sweeping(d, q, n, how).value.0;
            && d'.Has(Target) && d'.dir[Target] == d.dir[Target]
            && forall m :: m in d.dir && m != n ==> m in d'.dir && d'.dir[m] == d.dir[m]
  {
  }

  lemma SweepersUseNothing(c: Config, q: Proc)
    requires Shape(c, q) && IsSweep(q.pc)
    ensures q.archive.None? && q.stage.None? && q.backup.None?
  {
  }

  lemma SweptIsNotInUse(c: Config, s: State, p: nat, n: Name)
    requires Roster(s) && p in s.procs && s.lock == Some(p) && IsSweep(s.procs[p].pc) && Shape(c, s.procs[p])
    ensures !InUse(s, n)
  {
    if n in s.creator && s.creator[n] in s.procs {
      assert CreatorOk(s, n);
    }
    SweepersUseNothing(c, s.procs[p]);
    forall r | r in s.procs ensures !Uses(s.procs[r], n) {
      assert ProcOk(s, r);
    }
  }

  /** Every stage or archive file an install made belongs to the lock holder, or its maker is no longer running. */
  lemma OwnersHoldTheLock(c: Config, run: seq<State>, i: nat, n: Name)
    requires Run(c, run) && i < |run| && n in run[i].creator
    ensures run[i].creator[n] !in run[i].procs || run[i].lock == Some(run[i].creator[n])
  {
    RunInv(c, run, i);
    assert CreatorOk(run[i], n);
  }

  /*** Everything else in the directory ***/

  predicate Foreign(n: Name) { n.Other? || n.LockFile? }

  /** The same binding and the same file. */
  predicate Same(d: Disk, d': Disk, n: Name) {
    (d.Has(n) ==> d'.Has(n) && d'.dir[n] == d.dir[n]) && (n.Other? && n !in d.dir ==> n !in d'.dir)
  }

  lemma AdvanceLeavesForeign(c: Config, d: Disk, q: Proc, input: Input, d': Disk, q': Proc, n: Name)
    requires Shape(c, q) && d.Sound() && Advance(c, d, q, input) == Some((d', q')) && Foreign(n)
    ensures Same(d, d', n)
  {
    if Rank(q.pc) <= 11 {
    } else if Rank(q.pc) <= 21 {
      PrestageLeavesForeign(c, d, q, input, d', q', n);
    } else if 32 <= Rank(q.pc) {
    } else {
      ReplaceLeavesForeign(c, d, q, input, d', q', n);
    }
  }

  lemma PrestageLeavesForeign(c: Config, d: Disk, q: Proc, input: Input, d': Disk, q': Proc, n: Name)
    requires Shape(c, q) && d.Sound() && Prestage(c, d, q, input) == Some((d', q')) && Foreign(n)
    ensures Same(d, d', n)
  {
  }

  lemma ReplaceLeavesForeign(c: Config, d: Disk, q: Proc, input: Input, d': Disk, q': Proc, n: Name)
    requires Shape(c, q) && d.Sound() && Replace(c, d, q, input) == Some((d', q')) && Foreign(n)
    ensures Same(d, d', n)
  {
  }

  lemma SucceedingLeavesForeign(c: Config, s: State, p: nat, input: Input, s': State, n: Name)
    requires s.disk.Sound() && p in s.procs && (HoldsLock(s.procs[p].pc) ==> Shape(c, s.procs[p]))
    requires Succeeding(c, s, p, input) == Some(s') && Foreign(n)
    ensures Same(s.disk, s'.disk, n)
  {
    var q := s.procs[p];
    if HoldsLock(q.pc) && !q.pc.Releasing? {
      var (d', q') := Advance(c, s.disk, q, input).value;
      AdvanceLeavesForeign(c, s.disk, q, input, d', q', n);
    }
  }

  lemma SweepingLeavesForeign(c: Config, d: Disk, q: Proc, m: Name, how: Sweep, d': Disk, q': Proc, n: Name)
    requires d.Sound() && Shape(c, q) && TodoOk(q) && Sweeping(d, q, m, how) == Some((d', q')) && Foreign(n)
    ensures Same(d, d', n)
  {
  }

  lemma HolderHasShape(c: Config, s: State, p: nat)
    requires Inv(c, s) && p in s.procs
    ensures s.disk.Sound() && (HoldsLock(s.procs[p].pc) ==> Shape(c, s.procs[p]) && TodoOk(s.procs[p]))
  {
    HolderIs(s, p);
  }

  lemma StepLeavesForeign(c: Config, s: State, a: Action, s': State, n: Name)
    requires s.disk.Sound() && Next(c, s, a) == Some(s') && !a.PowerLoss? && Foreign(n)
    requires (a.Succeed? || a.SweepOne?) && a.pid in s.procs && HoldsLock(s.procs[a.pid].pc) ==>
      Shape(c, s.procs[a.pid]) && TodoOk(s.procs[a.pid])
    ensures Same(s.disk, s'.disk, n)
  {
    if a.Succeed? {
      SucceedingLeavesForeign(c, s, a.pid, a.input, s', n);
    } else if a.SweepOne? {
      var (d', q') := Sweeping(s.disk, s.procs[a.pid], a.name, a.how).value;
      SweepingLeavesForeign(c, s.disk, s.procs[a.pid], a.name, a.how, d', q', n);
    }
  }

  /** No step but a power failure binds, unbinds or rebinds any other name, or removes the lock file. */
  lemma OtherFilesStay(c: Config, s: State, a: Action, s': State, n: Name)
    requires Inv(c, s) && Next(c, s, a) == Some(s') && !a.PowerLoss? && Foreign(n)
    ensures Same(s.disk, s'.disk, n)
  {
    if (a.Succeed? || a.SweepOne?) && a.pid in s.procs {
      HolderHasShape(c, s, a.pid);
    }
    StepLeavesForeign(c, s, a, s', n);
  }
}
