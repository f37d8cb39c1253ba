/** What an install returns, against what it has done. */
module Outcomes {
  import opened Basics
  import opened Plans
  import opened Machine
  import opened Invariant
  import opened Preservation
  import opened Tenure

  /** Between s and s' the install p returned. */
  predicate Returned(s: State, s': State, p: nat) { p in s.procs && p in s'.results && p !in s.results }

  lemma SucceedingResults(c: Config, s: State, p: nat, input: Input, s': State)
    requires p in s.procs && Succeeding(c, s, p, input) == Some(s') && s'.results != s.results
    ensures s.procs[p].pc.Releasing? && s' == Leave(s, p, ResultOf(s.procs[p]))
  {
  }

  /** An install returns at its last call, or at a failed one before it has the lock. */
  lemma HowItReturned(c: Config, s: State, a: Action, s': State, p: nat)
    requires Next(c, s, a) == Some(s') && Returned(s, s', p)
    ensures Acts(a, p) && s'.disk == s.disk && s'.history == s.history
    ensures HoldsLock(s.procs[p].pc) ==> s.procs[p].pc.Releasing?
    ensures var q := s.procs[p];
            if a.Succeed? then q.pc.Releasing? && s'.results[p] == ResultOf(q)
            else s'.results[p] == ResultOf(q.(fault := Joined(q.fault, Failed)))
  {
    if a.Succeed? {
      SucceedingResults(c, s, a.pid, a.input, s');
    }
  }

  /** At step j the install p looks at the target under the lock. */
  predicate Looks(run: seq<State>, j: nat, p: nat) {
    && j + 1 < |run|
    && p in run[j].procs && run[j].procs[p].pc.Reresolving?
    && p in run[j + 1].procs && run[j + 1].procs[p].entry.Some?
  }

  lemma Sees(c: Config, s: State, p: nat, input: Input, s': State)
    requires p in s.procs && s.procs[p].pc.Reresolving? && !s.procs[p].committed
    requires Succeeding(c, s, p, input) == Some(s')
    ensures s.disk.Has(Target) && s'.disk == s.disk && s'.history == s.history
    ensures s'.procs[p] ==
            s.procs[p].(pc := Polling, entry := Some(Sighting(s.disk.dir[Target], !s.disk.At(Target).hidden)))
  {
    CommitsOnlyAtCommit(s.disk, p, s.procs[p]);
  }

  lemma OwnStep(c: Config, s: State, a: Action, s': State, p: nat)
    requires Next(c, s, a) == Some(s') && p in s.procs && s.procs[p].pc.Reresolving? && Acts(a, p) && p in s'.procs
    ensures a.Succeed? || s'.procs[p].entry == s.procs[p].entry
  {
  }

  lemma WhatItSees(c: Config, s: State, a: Action, s': State, p: nat)
    requires Inv(c, s) && Next(c, s, a) == Some(s') && p in s.procs && s.procs[p].pc.Reresolving?
    requires p in s'.procs && s'.procs[p].entry.Some?
    ensures s.disk.Has(Target) && s'.procs[p].entry.value == Sighting(s.disk.dir[Target], !s.disk.At(Target).hidden)
    ensures s'.disk == s.disk && s'.history == s.history && !s'.procs[p].committed
  {
    NothingSeenYet(c, s, p);
    StaysOutside(c, s, a, s', p);
    OwnStep(c, s, a, s', p);
    assert Succeeding(c, s, p, a.input) == Some(s');
    Sees(c, s, p, a.input, s');
  }

  lemma NothingSeenYet(c: Config, s: State, p: nat)
    requires Inv(c, s) && p in s.procs && s.procs[p].pc.Reresolving?
    ensures s.procs[p].entry.None? && !s.procs[p].committed && p < s.born
  {
    HolderIs(s, p);
    assert ProcOk(s, p);
  }

  lemma StaysOutside(c: Config, s: State, a: Action, s': State, p: nat)
    requires Next(c, s, a) == Some(s') && p in s.procs && p < s.born && p in s'.procs
    requires s'.procs[p] != s.procs[p]
    ensures Acts(a, p)
  {
    if !Acts(a, p) && !a.PowerLoss? {
      OthersStay(c, s, a, s', p);
    }
  }

  /** The target did not change hands: the same inode, not hidden if it was not. */
  predicate Untouched(d: Disk, d': Disk) {
    && d.Has(Target) && d'.Has(Target) && d'.dir[Target] == d.dir[Target]
    && d'.At(Target).content == d.At(Target).content
  }

  /** The old program, under a backup name. */
  ghost predicate MovedAside(d: Disk, d': Disk) {
    && d.Has(Target) && Target !in d'.dir
    && exists n :: n in d'.dir && IsCopy(d', n, d.At(Target).content) && d'.dir[n] == d.dir[Target]
  }

  /** How the outcome describes the way from the disk d and history h to d' and h'. */
  ghost predicate Honest(c: Config, p: nat, plan: Plan, r: Outcome, d: Disk, h: seq<Event>, d': Disk, h': seq<Event>) {
    && (r.fault == NoFault ==> r.committed) && (r.cleanupPending ==> r.committed)
    && (r.committed ==>
          OnTop(h, h', p, plan) && h'[|h|].before == Last(c, h) && d'.Has(Target) && !d'.At(Target).hidden
          && d'.At(Target).content == h'[|h|].after)
    && (!r.committed ==> h' == h)
    && (!r.committed && r.fault == RestoreFailed ==> c.platform == Windows && MovedAside(d, d'))
    && (!r.committed && r.fault == StillHidden ==> c.platform == Windows && Untouched(d, d'))
    && (!r.committed && r.fault == Failed ==>
          Untouched(d, d') && (!d.At(Target).hidden ==> !d'.At(Target).hidden))
    && (r.committed ==> r.fault != RestoreFailed && r.fault != StillHidden)
  }

  lemma HomeIsHonest(
    c: Config, p: nat, plan: Plan, r: Outcome, d: Disk, h: seq<Event>, q: Proc, d': Disk, h': seq<Event>)
    requires Holder(c, d', q, Last(c, h')) && q.pc.Releasing?
    requires q.entry.Some? && d.Has(Target) && q.entry.value == Sighting(d.dir[Target], !d.At(Target).hidden)
    requires d.At(Target).content == Last(c, h)
    requires if q.committed then OnTop(h, h', p, plan) && h'[|h|].before == Last(c, h) else h' == h
    requires r.committed == q.committed && r.fault in {q.fault, Joined(q.fault, Failed)}
    requires r.cleanupPending ==> r.committed
    ensures Honest(c, p, plan, r, d, h, d', h')
  {
    if q.fault == RestoreFailed {
      assert IsCopy(d', q.backup.value, d.At(Target).content);
    }
  }

  lemma BeforeIsLast(c: Config, h: seq<Event>, h': seq<Event>, p: nat, plan: Plan)
    requires Chained(c, h') && OnTop(h, h', p, plan)
    ensures h'[|h|].before == Last(c, h)
  {
  }

  /**
   Whatever fails on the way: committed means that the staged file was renamed onto the target, not committed means
   that the target is the old file. The only exceptions say so: the old program lies under a backup name, or it
   is back but may still be hidden. No error means committed.
   */
  lemma OutcomeIsHonest(c: Config, run: seq<State>, j: nat, i: nat, p: nat)
    requires Run(c, run) && j < i && i + 1 < |run| && Looks(run, j, p) && Returned(run[i], run[i + 1], p)
    ensures Honest(c, p, run[i].procs[p].plan, run[i + 1].results[p],
                   run[j].disk, run[j].history, run[i + 1].disk, run[i + 1].history)
  {
    var s0, s, s' := run[j], run[i], run[i + 1];
    Looking(c, run, j, p);
    TenureIsQuiet(c, run, j + 1, i, p);
    var a := StepAt(c, run, i);
    HowItReturned(c, s, a, s', p);
    RunInv(c, run, i);
    assert ProcOk(s, p);
    ReturnIsHonest(c, p, s'.results[p], s0, s);
  }

  lemma Looking(c: Config, run: seq<State>, j: nat, p: nat)
    requires Run(c, run) && Looks(run, j, p)
    ensures run[j].disk.Has(Target) && Seated(run[j + 1], p) && !run[j + 1].procs[p].committed
    ensures run[j].disk.At(Target).content == Last(c, run[j].history) && run[j + 1].history == run[j].history
    ensures run[j + 1].procs[p].entry.value == Sighting(run[j].disk.dir[Target], !run[j].disk.At(Target).hidden)
  {
    RunInv(c, run, j);
    var a := StepAt(c, run, j);
    WhatItSees(c, run[j], a, run[j + 1], p);
    StepKeepsInv(c, run[j], a, run[j + 1]);
    SeatedByEntry(c, run[j + 1], p);
  }

  lemma SeatedByEntry(c: Config, s: State, p: nat)
    requires Inv(c, s) && p in s.procs && s.procs[p].entry.Some?
    ensures Seated(s, p)
  {
    assert ProcOk(s, p);
  }

  lemma ReturnIsHonest(c: Config, p: nat, r: Outcome, s0: State, s: State)
    requires Inv(c, s) && Seated(s, p) && s.procs[p].pc.Releasing? && s0.disk.Has(Target)
    requires s.procs[p].entry.value == Sighting(s0.disk.dir[Target], !s0.disk.At(Target).hidden)
    requires s0.disk.At(Target).content == Last(c, s0.history)
    requires if s.procs[p].committed then OnTop(s0.history, s.history, p, s.procs[p].plan) else s.history == s0.history
    requires r == ResultOf(s.procs[p]) || r == ResultOf(s.procs[p].(fault := Joined(s.procs[p].fault, Failed)))
    ensures Honest(c, p, s.procs[p].plan, r, s0.disk, s0.history, s.disk, s.history)
  {
    HolderIs(s, p);
    assert ProcOk(s, p);
    if s.procs[p].committed {
      BeforeIsLast(c, s0.history, s.history, p, s.procs[p].plan);
    }
    HomeIsHonest(c, p, s.procs[p].plan, r, s0.disk, s0.history, s.procs[p], s.disk, s.history);
  }

  /** An install that never got the lock, or never found a target under it, has committed nothing. */
  lemma UnlockedInstallsDoNothing(c: Config, s: State, a: Action, s': State, p: nat)
    requires Inv(c, s) && Next(c, s, a) == Some(s') && Returned(s, s', p) && s.procs[p].entry.None?
    ensures s'.results[p] == Outcome(false, false, Failed) && !HasCommit(s'.history, p)
  {
    HowItReturned(c, s, a, s', p);
    HolderIs(s, p);
    assert ProcOk(s, p);
  }

  lemma NoSightingFromNowhere(c: Config, s: State, a: Action, s': State, p: nat)
    requires Inv(c, s) && Next(c, s, a) == Some(s') && p in s'.procs && s'.procs[p].entry.Some?
    ensures p in s.procs && (s.procs[p].entry.Some? || s.procs[p].pc.Reresolving?)
  {
    if p !in s.procs {
      NoReturn(c, s, a, s');
      NewcomersWait(c, s, a, s');
    } else if s.procs[p].entry.None? {
      assert ProcOk(s, p);
      StaysOutside(c, s, a, s', p);
      HolderIs(s, p);
      SightingComesFromLooking(c, s, a, s', p);
    }
  }

  lemma NewcomersWait(c: Config, s: State, a: Action, s': State)
    requires Next(c, s, a) == Some(s') && s.born in s'.procs && s.born !in s.procs
    ensures s'.procs[s.born].entry.None?
  {
    assert a.Begin?;
  }

  lemma SightingComesFromLooking(c: Config, s: State, a: Action, s': State, p: nat)
    requires Next(c, s, a) == Some(s') && Acts(a, p) && p in s.procs && p in s'.procs
    requires s.procs[p].entry.None? && s'.procs[p].entry.Some?
    ensures s.procs[p].pc.Reresolving?
  {
    if a.Succeed? && HoldsLock(s.procs[p].pc) && !s.procs[p].pc.Releasing? && !s.procs[p].pc.Reresolving? {
      var (d', q') := Advance(c, s.disk, s.procs[p], a.input).value;
      AdvanceKeepsEntry(c, s.disk, s.procs[p], a.input, d', q');
    }
  }

  lemma SightingAt(c: Config, run: seq<State>, k: nat, p: nat)
    requires Run(c, run) && k + 1 < |run| && p in run[k + 1].procs && run[k + 1].procs[p].entry.Some?
    ensures Looks(run, k, p) || (p in run[k].procs && run[k].procs[p].entry.Some?)
  {
    RunInv(c, run, k);
    var a := StepAt(c, run, k);
    NoSightingFromNowhere(c, run[k], a, run[k + 1], p);
  }

  /** Every install that has seen the target looked at it at some step. */
  lemma LookedOnce(c: Config, run: seq<State>, i: nat, p: nat) returns (j: nat)
    requires Run(c, run) && i < |run| && p in run[i].procs && run[i].procs[p].entry.Some?
    ensures j < i && Looks(run, j, p)
  {
    j := i;
    while j > 0
      invariant j <= i && p in run[j].procs && run[j].procs[p].entry.Some?
    {
      j := j - 1;
      SightingAt(c, run, j, p);
      if Looks(run, j, p) {
        return;
      }
    }
  }

  /** Every install that returns did nothing at all, or returns an honest account since it looked at the target. */
  lemma EveryOutcomeIsHonest(c: Config, run: seq<State>, i: nat, p: nat)
    requires Run(c, run) && i + 1 < |run| && Returned(run[i], run[i + 1], p)
    ensures var r := run[i + 1].results[p];
            || (r == Outcome(false, false, Failed) && !HasCommit(run[i + 1].history, p))
            || exists j: nat :: j < i && Looks(run, j, p)
                 && Honest(c, p, run[i].procs[p].plan, r,
                           run[j].disk, run[j].history, run[i + 1].disk, run[i + 1].history)
  {
    if run[i].procs[p].entry.Some? {
      var j := LookedOnce(c, run, i, p);
      OutcomeIsHonest(c, run, j, i, p);
    } else {
      RunInv(c, run, i);
      var a := StepAt(c, run, i);
      UnlockedInstallsDoNothing(c, run[i], a, run[i + 1], p);
    }
  }

  /*** Clean finish ***/

  ghost predicate NoneLeft(d: Disk, infix: Infix) {
    forall n :: d.Has(n) && n.Owned? && n.infix == infix ==> d.At(n).kind == Symlink || d.At(n).kind == Directory
  }

  lemma HolderFinishesClean(c: Config, d: Disk, q: Proc, last: Bytes)
    requires Holder(c, d, q, last) && q.pc.Releasing? && q.fault == NoFault
    ensures q.committed && NoneLeft(d, StageFile) && NoneLeft(d, ArchiveFile)
    ensures c.platform == Windows && !q.pending && !q.leftover ==> NoneLeft(d, BackupFile)
  {
  }

  /** No error: no stage and no archive file is left; and no backup either, unless the outcome says so. */
  lemma CleanFinish(c: Config, run: seq<State>, i: nat, p: nat)
    requires Run(c, run) && i + 1 < |run| && Returned(run[i], run[i + 1], p) && run[i + 1].results[p].fault == NoFault
    ensures run[i + 1].results[p].committed
    ensures NoneLeft(run[i + 1].disk, StageFile) && NoneLeft(run[i + 1].disk, ArchiveFile)
    ensures c.platform == Windows && !run[i + 1].results[p].cleanupPending ==> NoneLeft(run[i + 1].disk, BackupFile)
  {
    RunInv(c, run, i);
    var a := StepAt(c, run, i);
    HowItReturned(c, run[i], a, run[i + 1], p);
    HolderIs(run[i], p);
    HolderFinishesClean(c, run[i].disk, run[i].procs[p], Last(c, run[i].history));
  }

  lemma HolderStartsClean(c: Config, d: Disk, q: Proc, last: Bytes)
    requires Holder(c, d, q, last) && q.pc.Fingerprinting?
    ensures NoneLeft(d, StageFile) && NoneLeft(d, ArchiveFile)
    ensures c.platform == Windows && !q.pending ==> NoneLeft(d, BackupFile)
  {
  }

  /** Whatever crashed before: an install that has passed its sweeps finds no leftover of any install. */
  lemma SweepsLeaveNothing(c: Config, run: seq<State>, i: nat, p: nat)
    requires Run(c, run) && i < |run| && p in run[i].procs && run[i].procs[p].pc.Fingerprinting?
    ensures NoneLeft(run[i].disk, StageFile) && NoneLeft(run[i].disk, ArchiveFile)
    ensures c.platform == Windows && !run[i].procs[p].pending ==> NoneLeft(run[i].disk, BackupFile)
  {
    RunInv(c, run, i);
    HolderIs(run[i], p);
    HolderStartsClean(c, run[i].disk, run[i].procs[p], Last(c, run[i].history));
  }
}
