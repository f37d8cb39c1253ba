/** What an install can rely on from the moment it has looked at the target under the lock until it returns. */
module Tenure {
  import opened Basics
  import opened Plans
  import opened Machine
  import opened Invariant
  import opened Bookkeeping
  import opened Preservation
  import opened Guarantees

  /*** One step ***/

  lemma LateCallsKeepEntry(c: Config, d: Disk, q: Proc, input: Input, d': Disk, q': Proc)
    requires Replace(c, d, q, input) == Some((d', q')) || Tidy(d, q, input) == Some((d', q'))
    ensures q'.entry == q.entry
  {
  }

  lemma EarlyCallsKeepEntry(c: Config, d: Disk, q: Proc, input: Input, d': Disk, q': Proc)
    requires Prepare(c, d, q) == Some((d', q')) || Prestage(c, d, q, input) == Some((d', q'))
    requires !q.pc.Reresolving?
    ensures q'.entry == q.entry
  {
  }

  lemma AdvanceKeepsEntry(c: Config, d: Disk, q: Proc, input: Input, d': Disk, q': Proc)
    requires Advance(c, d, q, input) == Some((d', q')) && !q.pc.Reresolving?
    ensures q'.entry == q.entry
  {
    if Rank(q.pc) <= 21 {
      EarlyCallsKeepEntry(c, d, q, input, d', q');
    } else {
      LateCallsKeepEntry(c, d, q, input, d', q');
    }
  }

  lemma SucceedingKeepsEntry(c: Config, s: State, p: nat, input: Input, s': State)
    requires p in s.procs && p in s'.procs && s.procs[p].entry.Some? && Shape(c, s.procs[p])
    requires HoldsLock(s.procs[p].pc) && Succeeding(c, s, p, input) == Some(s')
    ensures s'.procs[p].entry == s.procs[p].entry && s'.procs[p].plan == s.procs[p].plan
    ensures s.procs[p].committed ==> s'.procs[p].committed
    ensures s'.lock == s.lock
  {
    var q := s.procs[p];
    if !q.pc.Releasing? {
      var (d', q') := Advance(c, s.disk, q, input).value;
      AdvanceKeepsEntry(c, s.disk, q, input, d', q');
      AdvanceKeepsPlan(c, s.disk, q, input, d', q');
      AdvanceCommits(c, s.disk, q, input, d', q');
    }
  }

  /** The install a step belongs to. */
  predicate Acts(a: Action, p: nat) {
    match a
    case Succeed(pid, _) => pid == p
    case Fail(pid) => pid == p
    case Receive(pid, _) => pid == p
    case SweepOne(pid, _, _) => pid == p
    case Crash(pid) => pid == p
    case _ => false
  }

  /** A step moves the install it belongs to and no other. */
  lemma OthersStay(c: Config, s: State, a: Action, s': State, p: nat)
    requires Next(c, s, a) == Some(s') && p in s.procs && p < s.born && !Acts(a, p) && !a.PowerLoss?
    ensures p in s'.procs && s'.procs[p] == s.procs[p]
  {
    if a.Succeed? {
      assert Succeeding(c, s, a.pid, a.input) == Some(s');
    }
  }

  lemma OwnStepKeepsEntry(c: Config, s: State, a: Action, s': State, p: nat)
    requires Next(c, s, a) == Some(s') && p in s.procs && p in s'.procs && Acts(a, p)
    requires s.lock == Some(p) && HoldsLock(s.procs[p].pc) && s.procs[p].entry.Some? && Shape(c, s.procs[p])
    ensures s'.lock == s.lock && s'.procs[p].entry == s.procs[p].entry && s'.procs[p].plan == s.procs[p].plan
    ensures s.procs[p].committed ==> s'.procs[p].committed
  {
    if a.Succeed? {
      SucceedingKeepsEntry(c, s, p, a.input, s');
    }
  }

  /** Nobody takes the lock from its holder. */
  lemma OthersLeaveTheLock(c: Config, s: State, a: Action, s': State, p: nat)
    requires Next(c, s, a) == Some(s') && s.lock == Some(p) && !Acts(a, p) && !a.PowerLoss?
    ensures s'.lock == Some(p)
  {
    if a.Succeed? {
      assert Succeeding(c, s, a.pid, a.input) == Some(s');
    }
  }

  /** h' is h and then p's only commit, of that plan. */
  ghost predicate OnTop(h: seq<Event>, h': seq<Event>, p: nat, plan: Plan) {
    |h'| == |h| + 1 && h'[..|h|] == h && CommittedBy(h'[|h|], p) && h'[|h|].plan == plan && !HasCommit(h, p)
  }

  lemma HistoryStays(c: Config, s: State, a: Action, s': State, p: nat)
    requires Inv(c, s) && Next(c, s, a) == Some(s') && p in s.procs && p in s'.procs && s.lock == Some(p)
    ensures s'.history == s.history || OnTop(s.history, s'.history, p, s.procs[p].plan)
  {
    if s'.history != s.history {
      CommitIsTheRename(c, s, a, s');
      HolderMakesHistory(c, s, a, s');
      assert ProcOk(s, a.pid);
      var e :| s'.history == s.history + [e] && CommittedBy(e, a.pid) && e.plan == s.procs[a.pid].plan;
      assert s'.history[|s.history|] == e;
    }
  }

  lemma CommittedMeansOnRecord(c: Config, s: State, p: nat)
    requires Inv(c, s) && p in s.procs
    ensures s.procs[p].committed <==> HasCommit(s.history, p)
  {
    assert ProcOk(s, p);
  }

  /** The holder has looked at the target. */
  predicate Seated(s: State, p: nat) {
    p in s.procs && s.lock == Some(p) && s.procs[p].entry.Some?
  }

  lemma SeatIsKept(c: Config, s: State, a: Action, s': State, p: nat)
    requires Inv(c, s) && Next(c, s, a) == Some(s') && Seated(s, p) && p in s'.procs
    ensures Seated(s', p) && s'.procs[p].entry == s.procs[p].entry && s'.procs[p].plan == s.procs[p].plan
    ensures s.procs[p].committed ==> s'.procs[p].committed
    ensures s'.history == s.history || OnTop(s.history, s'.history, p, s.procs[p].plan)
  {
    assert ProcOk(s, p);
    HolderIs(s, p);
    HistoryStays(c, s, a, s', p);
    if Acts(a, p) {
      OwnStepKeepsEntry(c, s, a, s', p);
    } else {
      OthersStay(c, s, a, s', p);
      OthersLeaveTheLock(c, s, a, s', p);
    }
  }

  /*** Whole runs ***/

  /** The installs after a step: those before it, and perhaps a new one. */
  lemma NoReturn(c: Config, s: State, a: Action, s': State)
    requires Next(c, s, a) == Some(s')
    ensures s.born <= s'.born
    ensures s'.procs.Keys <= s.procs.Keys + {s.born}
    ensures s.born in s'.procs && s.born !in s.procs ==> s.born < s'.born
  {
    if a.Succeed? {
      assert Succeeding(c, s, a.pid, a.input) == Some(s');
    }
  }

  /** An install that is gone does not come back. */
  lemma ThereBefore(c: Config, run: seq<State>, i: nat, p: nat)
    requires Run(c, run) && i + 1 < |run| && p < run[i].born && p in run[i + 1].procs
    ensures p in run[i].procs
  {
    var a := StepAt(c, run, i);
    NoReturn(c, run[i], a, run[i + 1]);
  }

  /** From the look under the lock to the return: one sighting, one plan, and nothing on record but the own commit. */
  ghost predicate Quiet(s: State, s': State, p: nat)
    requires Seated(s, p)
  {
    && Seated(s', p) && s'.procs[p].entry == s.procs[p].entry && s'.procs[p].plan == s.procs[p].plan
    && (s.procs[p].committed ==> s'.procs[p].committed)
    && if s'.procs[p].committed == s.procs[p].committed then s'.history == s.history
       else OnTop(s.history, s'.history, p, s.procs[p].plan)
  }

  lemma QuietStep(c: Config, s0: State, s: State, a: Action, s': State, p: nat)
    requires Seated(s0, p) && Quiet(s0, s, p)
    requires Inv(c, s) && Next(c, s, a) == Some(s') && p in s'.procs
    ensures Quiet(s0, s', p)
  {
    SeatIsKept(c, s, a, s', p);
    StepKeepsInv(c, s, a, s');
    CommittedMeansOnRecord(c, s, p);
    CommittedMeansOnRecord(c, s', p);
    if s'.history != s.history {
      assert CommittedBy(s'.history[|s.history|], p);
    }
  }

  lemma QuietAt(c: Config, run: seq<State>, i: nat, s0: State, p: nat)
    requires Run(c, run) && i + 1 < |run| && Seated(s0, p) && Quiet(s0, run[i], p) && p in run[i + 1].procs
    ensures Quiet(s0, run[i + 1], p)
  {
    RunInv(c, run, i);
    var a := StepAt(c, run, i);
    QuietStep(c, s0, run[i], a, run[i + 1], p);
  }

  lemma {:induction false} TenureIsQuiet(c: Config, run: seq<State>, j: nat, i: nat, p: nat)
    requires Run(c, run) && j <= i < |run| && Seated(run[j], p) && p in run[i].procs
    ensures Quiet(run[j], run[i], p)
  {
    if j < i {
      BornBefore(c, run, j, i - 1, p);
      ThereBefore(c, run, i - 1, p);
      TenureIsQuiet(c, run, j, i - 1, p);
      QuietAt(c, run, i - 1, run[j], p);
    }
  }

  lemma {:induction false} BornBefore(c: Config, run: seq<State>, j: nat, i: nat, p: nat)
    requires Run(c, run) && j <= i < |run| && p in run[j].procs
    ensures p < run[i].born
  {
    if j == i {
      RunInv(c, run, j);
      assert ProcOk(run[j], p);
    } else {
      BornBefore(c, run, j, i - 1, p);
      var a := StepAt(c, run, i - 1);
      NoReturn(c, run[i - 1], a, run[i]);
    }
  }
}
