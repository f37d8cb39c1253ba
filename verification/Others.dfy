/** What an install may rely on while the other installs run. */
module Others {
  import opened Basics
  import opened Machine
  import opened Invariant
  import opened Preservation
  import opened Tenure
  import opened Sweeps

  /*** What the others do to an install ***/

  /** A step of anybody but p, which p lives through. */
  ghost predicate OthersStep(c: Config, s: State, s': State, p: nat) {
    exists a :: Next(c, s, a) == Some(s') && !Acts(a, p) && !a.PowerLoss?
  }

  ghost predicate OthersAt(c: Config, run: seq<State>, k: nat, p: nat) {
    k + 1 < |run| && OthersStep(c, run[k], run[k + 1], p)
  }

  /** Whoever is past opening the lock file can rely on it. */
  ghost predicate LockFileThere(s: State) {
    forall p :: p in s.procs && !s.procs[p].pc.Resolving? && !s.procs[p].pc.OpeningLock? ==> s.disk.Has(LockFile)
  }

  lemma OwnLockFile(c: Config, s: State, p: nat, input: Input, s': State)
    requires p in s.procs && !HoldsLock(s.procs[p].pc) && Approach(s, p) == Some(s')
    requires LockFileThere(s) && s.disk.Sound()
    ensures LockFileThere(s')
  {
  }

  lemma NobodyJumpsAhead(c: Config, s: State, a: Action, s': State, p: nat)
    requires Next(c, s, a) == Some(s') && p in s'.procs && !s'.procs[p].pc.Resolving? && !s'.procs[p].pc.OpeningLock?
    ensures p in s.procs
    ensures s.procs[p].pc.Resolving? || s.procs[p].pc.OpeningLock? ==> a.Succeed? && a.pid == p
  {
    if a.Succeed? {
      assert Succeeding(c, s, a.pid, a.input) == Some(s');
    }
  }

  lemma StepKeepsLockFile(c: Config, s: State, a: Action, s': State)
    requires Inv(c, s) && Next(c, s, a) == Some(s') && LockFileThere(s)
    ensures LockFileThere(s')
  {
    if a.Succeed? && a.pid in s.procs && !HoldsLock(s.procs[a.pid].pc) {
      OwnLockFile(c, s, a.pid, a.input, s');
    } else if !a.PowerLoss? {
      OtherFilesStay(c, s, a, s', LockFile);
      forall p | p in s'.procs && !s'.procs[p].pc.Resolving? && !s'.procs[p].pc.OpeningLock?
        ensures s'.disk.Has(LockFile)
      {
        NobodyJumpsAhead(c, s, a, s', p);
      }
    }
  }

  lemma RunKeepsLockFile(c: Config, run: seq<State>, i: nat)
    requires Run(c, run) && i < |run|
    ensures LockFileThere(run[i])
  {
    assert run[0].procs == map[];
    for k := 0 to i
      invariant LockFileThere(run[k])
    {
      RunInv(c, run, k);
      var a := StepAt(c, run, k);
      StepKeepsLockFile(c, run[k], a, run[k + 1]);
    }
  }

  lemma SucceedingOutside(c: Config, s: State, r: nat, input: Input, s': State)
    requires r in s.procs && !HoldsLock(s.procs[r].pc) && Succeeding(c, s, r, input) == Some(s')
    requires s.disk.Has(LockFile)
    ensures s'.disk == s.disk && s'.history == s.history
  {
  }

  /** While p holds the lock, the others change neither the disk nor the history. */
  lemma OthersAreHarmless(c: Config, s: State, a: Action, s': State, p: nat)
    requires Next(c, s, a) == Some(s') && !Acts(a, p) && !a.PowerLoss? && s.lock == Some(p)
    requires s.disk.Has(LockFile) && forall r :: r in s.procs && HoldsLock(s.procs[r].pc) ==> r == p
    ensures s'.disk == s.disk && s'.history == s.history
  {
    if a.Succeed? {
      SucceedingOutside(c, s, a.pid, a.input, s');
    }
  }

  /** What p sees of a moment in which only others move. */
  ghost predicate Stays(s: State, s': State, p: nat) {
    && p in s.procs && p in s'.procs && s'.procs[p] == s.procs[p]
    && (s.lock == Some(p) ==> s'.lock == Some(p) && s'.disk == s.disk && s'.history == s.history)
  }

  lemma OnlyOneHolds(c: Config, s: State, p: nat)
    requires Inv(c, s) && s.lock == Some(p)
    ensures p in s.procs && HoldsLock(s.procs[p].pc)
    ensures forall r :: r in s.procs && HoldsLock(s.procs[r].pc) ==> r == p
  {
    forall r | r in s.procs && HoldsLock(s.procs[r].pc) ensures r == p {
      assert ProcOk(s, r);
    }
    assert ProcOk(s, p);
  }

  lemma OthersLeaveMe(c: Config, s: State, s': State, p: nat)
    requires Inv(c, s) && LockFileThere(s) && OthersStep(c, s, s', p) && p in s.procs
    ensures Stays(s, s', p)
  {
    var a :| Next(c, s, a) == Some(s') && !Acts(a, p) && !a.PowerLoss?;
    assert ProcOk(s, p);
    OthersStay(c, s, a, s', p);
    if s.lock == Some(p) {
      OnlyOneHolds(c, s, p);
      OthersLeaveTheLock(c, s, a, s', p);
      OthersAreHarmless(c, s, a, s', p);
    }
  }

  /** From state i on, only others have moved. */
  ghost predicate OthersSince(c: Config, run: seq<State>, i: nat, p: nat) {
    forall k: nat :: i <= k && k + 1 < |run| ==> OthersAt(c, run, k, p)
  }

  lemma OthersKeepMe(c: Config, run: seq<State>, i: nat, p: nat)
    requires Run(c, run) && i < |run| && p in run[i].procs && OthersSince(c, run, i, p)
    ensures Stays(run[i], run[|run| - 1], p)
  {
    for k := i to |run| - 1
      invariant Stays(run[i], run[k], p)
    {
      RunInv(c, run, k);
      RunKeepsLockFile(c, run, k);
      assert OthersAt(c, run, k, p);
      OthersLeaveMe(c, run[k], run[k + 1], p);
    }
  }

  lemma RunGrows(c: Config, run: seq<State>, a: Action, s': State)
    requires Run(c, run) && Next(c, run[|run| - 1], a) == Some(s')
    ensures Run(c, run + [s'])
  {
    var run' := run + [s'];
    assert Step(c, run[|run| - 1], s');
    forall i: nat | i + 1 < |run'| ensures StepsAt(c, run', i) {
      if i + 1 < |run| {
        assert StepsAt(c, run, i);
      }
    }
  }

  /** An install that gives up before it holds the lock returns nothing but a failure. */
  lemma AbandonedAt(c: Config, s: State, p: nat)
    requires Inv(c, s) && p in s.procs && !HoldsLock(s.procs[p].pc)
    ensures ResultOf(s.procs[p].(fault := FailWith(s.procs[p].pc, s.procs[p].fault))) == Outcome(false, false, Failed)
  {
    assert ProcOk(s, p);
  }

  lemma AbandonedOutcome(c: Config, run: seq<State>, i: nat, p: nat)
    requires Run(c, run) && i < |run| && p in run[i].procs && !HoldsLock(run[i].procs[p].pc)
    ensures Failing(run[i], p) == Leave(run[i], p, Outcome(false, false, Failed)) && run[i].lock != Some(p)
  {
    RunInv(c, run, i);
    AbandonedAt(c, run[i], p);
    HolderIs(run[i], p);
  }

  lemma NoResultAt(c: Config, s: State, p: nat)
    requires Inv(c, s) && p in s.procs
    ensures p !in s.results
  {
    ResultsStay(s, p);
  }

  lemma NoResultYet(c: Config, run: seq<State>, i: nat, p: nat)
    requires Run(c, run) && i < |run| && p in run[i].procs
    ensures p !in run[i].results
  {
    RunInv(c, run, i);
    NoResultAt(c, run[i], p);
  }

  lemma PrepareHoldsLock(c: Config, d: Disk, q: Proc, d': Disk, q': Proc)
    requires Prepare(c, d, q) == Some((d', q'))
    ensures HoldsLock(q'.pc)
  {
  }

  lemma PrestageHoldsLock(c: Config, d: Disk, q: Proc, input: Input, d': Disk, q': Proc)
    requires Prestage(c, d, q, input) == Some((d', q'))
    ensures HoldsLock(q'.pc)
  {
  }

  lemma ReplaceHoldsLock(c: Config, d: Disk, q: Proc, input: Input, d': Disk, q': Proc)
    requires Replace(c, d, q, input) == Some((d', q')) || Tidy(d, q, input) == Some((d', q'))
    ensures HoldsLock(q'.pc)
  {
  }

  /** The lock is only given up on leaving. */
  lemma AdvanceHoldsLock(c: Config, d: Disk, q: Proc, input: Input, d': Disk, q': Proc)
    requires Advance(c, d, q, input) == Some((d', q'))
    ensures HoldsLock(q'.pc)
  {
    if Rank(q.pc) <= 11 {
      if Prepare(c, d, q) == Some((d', q')) {
        PrepareHoldsLock(c, d, q, d', q');
      } else {
        ReplaceHoldsLock(c, d, q, input, d', q');
      }
    } else if Rank(q.pc) <= 21 {
      PrestageHoldsLock(c, d, q, input, d', q');
    } else {
      ReplaceHoldsLock(c, d, q, input, d', q');
    }
  }

  lemma StumbleHoldsLock(q: Proc)
    ensures HoldsLock(Stumble(q).pc)
  {
  }

  /** The two ways to return. */
  lemma LeavingSteps(c: Config, s: State, p: nat)
    requires p in s.procs && s.procs[p].pc.Releasing?
    ensures var q := s.procs[p];
            && Next(c, s, Succeed(p, Nothing)) == Some(Leave(s, p, ResultOf(q)))
            && Next(c, s, Fail(p)) == Some(Leave(s, p, ResultOf(q.(fault := Joined(q.fault, Failed)))))
  {
  }
}
