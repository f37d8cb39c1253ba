/** What a power failure can leave at any later moment: on Unix, never anything older than a returned commit. */
module Afterwards {
  import opened Basics
  import opened Machine
  import opened Invariant
  import opened Durability
  import opened Preservation
  import opened Guarantees
  import opened Outcomes

  /*** Every step is gentle, but for commits and power failures ***/

  lemma OutsideIsGentle(c: Config, s: State, p: nat, s': State)
    requires s.disk.Sound() && p in s.procs && Approach(s, p) == Some(s')
    ensures Gentle(c, s.disk, s'.disk)
  {
  }

  lemma SucceedingIsGentle(c: Config, s: State, p: nat, input: Input, s': State)
    requires Inv(c, s) && p in s.procs && Succeeding(c, s, p, input) == Some(s') && s'.history == s.history
    ensures Gentle(c, s.disk, s'.disk)
  {
    var q := s.procs[p];
    if !HoldsLock(q.pc) {
      OutsideIsGentle(c, s, p, s');
    } else if !q.pc.Releasing? {
      HolderIs(s, p);
      HolderIsGentle(c, s.disk, s.history, p, q, input);
    }
  }

  lemma HolderIsGentle(c: Config, d: Disk, h: seq<Event>, p: nat, q: Proc, input: Input)
    requires DiskInv(c, d, h, Some(q)) && Advance(c, d, q, input).Some? && Commits(d, p, q) == []
    ensures Gentle(c, d, Advance(c, d, q, input).value.0)
  {
    var (d', q') := Advance(c, d, q, input).value;
    IsHeld(c, d, h, q);
    assert !q.pc.Renaming?;
    AdvanceIsGentle(c, d, q, input, Last(c, h), d', q');
  }

  lemma SweepingIsGentle(c: Config, s: State, p: nat, n: Name, how: Sweep)
    requires Inv(c, s) && p in s.procs && Sweeping(s.disk, s.procs[p], n, how).Some?
    ensures Gentle(c, s.disk, Sweeping(s.disk, s.procs[p], n, how).value.0)
  {
    var (d', q') := Sweeping(s.disk, s.procs[p], n, how).value;
    HolderIs(s, p);
    IsHeld(c, s.disk, s.history, s.procs[p]);
    SweepIsGentle(c, s.disk, s.procs[p], n, how, Last(c, s.history), d', q');
  }

  lemma ReceivingIsGentle(c: Config, s: State, p: nat, bytes: Bytes)
    requires Inv(c, s) && p in s.procs && Receiving(s.disk, s.procs[p], bytes).Some?
    ensures Gentle(c, s.disk, Receiving(s.disk, s.procs[p], bytes).value)
  {
    HolderIs(s, p);
    IsHeld(c, s.disk, s.history, s.procs[p]);
    ReceiveIsGentle(c, s.disk, s.procs[p], bytes, Last(c, s.history), Receiving(s.disk, s.procs[p], bytes).value);
  }

  lemma OthersLeaveTheDisk(c: Config, s: State, a: Action, s': State)
    requires Next(c, s, a) == Some(s') && (a.Checked? || a.Begin? || a.Fail? || a.Crash?)
    ensures s'.disk == s.disk
  {
  }

  lemma SuccessIs(c: Config, s: State, p: nat, input: Input, s': State)
    requires Next(c, s, Succeed(p, input)) == Some(s')
    ensures p in s.procs && Succeeding(c, s, p, input) == Some(s')
  {
  }

  lemma SweepIs(c: Config, s: State, p: nat, n: Name, how: Sweep, s': State)
    requires Next(c, s, SweepOne(p, n, how)) == Some(s')
    ensures p in s.procs && Sweeping(s.disk, s.procs[p], n, how).Some?
    ensures s'.disk == Sweeping(s.disk, s.procs[p], n, how).value.0
  {
  }

  lemma ReceiptIs(c: Config, s: State, p: nat, bytes: Bytes, s': State)
    requires Next(c, s, Receive(p, bytes)) == Some(s')
    ensures p in s.procs && Receiving(s.disk, s.procs[p], bytes) == Some(s'.disk)
  {
  }

  lemma StepIsGentle(c: Config, s: State, a: Action, s': State)
    requires Inv(c, s) && Next(c, s, a) == Some(s') && !a.PowerLoss? && s'.history == s.history
    ensures Gentle(c, s.disk, s'.disk)
  {
    match a
    case Succeed(p, input) =>
      SuccessIs(c, s, p, input, s');
      SucceedingIsGentle(c, s, p, input, s');
    case SweepOne(p, n, how) =>
      SweepIs(c, s, p, n, how, s');
      SweepingIsGentle(c, s, p, n, how);
    case Receive(p, bytes) =>
      ReceiptIs(c, s, p, bytes, s');
      ReceivingIsGentle(c, s, p, bytes);
    case _ => OthersLeaveTheDisk(c, s, a, s');
  }

  /*** Nothing older than the k-th event ***/

  /** The program of a commit no earlier than event k. */
  ghost predicate FromCommit(h: seq<Event>, k: nat, content: Bytes) {
    exists m :: k <= m < |h| && h[m].Commit? && h[m].after == content
  }

  /** All that the target may name after a power failure is from event k on. */
  ghost predicate NothingOlder(d: Disk, h: seq<Event>, k: nat) {
    forall i :: i in d.maybe ==> i < |d.inodes| && FromCommit(h, k, d.inodes[i].content)
  }

  lemma FromCommitStays(h: seq<Event>, more: seq<Event>, k: nat, content: Bytes)
    requires FromCommit(h, k, content)
    ensures FromCommit(h + more, k, content)
  {
    var m :| k <= m < |h| && h[m].Commit? && h[m].after == content;
    assert (h + more)[m] == h[m];
  }

  lemma GentleKeepsAge(c: Config, d: Disk, d': Disk, h: seq<Event>, k: nat)
    requires c.platform == Unix && d.Sound() && Durable(c, d, h) && Gentle(c, d, d') && NothingOlder(d, h, k)
    ensures NothingOlder(d', h, k)
  {
  }

  lemma RenamingKeepsAge(c: Config, d: Disk, p: nat, q: Proc, input: Input, h: seq<Event>, k: nat)
    requires DiskInv(c, d, h, Some(q)) && q.pc.Renaming? && Advance(c, d, q, input).Some? && NothingOlder(d, h, k)
    requires k <= |h|
    ensures NothingOlder(Advance(c, d, q, input).value.0, h + Commits(d, p, q), k)
  {
    var d', more := Advance(c, d, q, input).value.0, Commits(d, p, q);
    assert (h + more)[|h|] == more[0];
    forall i | i in d'.maybe ensures i < |d'.inodes| && FromCommit(h + more, k, d'.inodes[i].content) {
      if i in d.maybe {
        FromCommitStays(h, more, k, d.inodes[i].content);
      }
    }
  }

  lemma PowerLossKeepsAge(c: Config, s: State, d: Disk, k: nat)
    requires c.platform == Unix && s.disk.Sound() && Durable(c, s.disk, s.history) && Survives(s.disk, d)
    requires NothingOlder(s.disk, s.history, k)
    ensures NothingOlder(d, Reboot(c, s, d).history, k)
  {
    var h, h' := s.history, Reboot(c, s, d).history;
    FromCommitStays(h, h'[|h|..], k, d.At(Target).content);
    assert h' == h + h'[|h|..];
  }

  lemma StepKeepsAge(c: Config, s: State, a: Action, s': State, k: nat)
    requires Inv(c, s) && Next(c, s, a) == Some(s') && c.platform == Unix
    requires k <= |s.history| && NothingOlder(s.disk, s.history, k)
    ensures k <= |s'.history| && NothingOlder(s'.disk, s'.history, k)
  {
    if a.PowerLoss? {
      PowerLossKeepsAge(c, s, a.disk, k);
    } else if s'.history == s.history {
      StepIsGentle(c, s, a, s');
      GentleKeepsAge(c, s.disk, s'.disk, s.history, k);
    } else {
      HolderMakesHistory(c, s, a, s');
      CommitOnUnix(c, s, s.procs[a.pid], a.input);
      RenamingKeepsAge(c, s.disk, a.pid, s.procs[a.pid], a.input, s.history, k);
    }
  }

  /** On Unix the only commit is the rename. */
  lemma CommitOnUnix(c: Config, s: State, q: Proc, input: Input)
    requires Inv(c, s) && HolderOf(s) == Some(q) && c.platform == Unix && Commits(s.disk, 0, q) != []
    ensures q.pc.Renaming?
  {
  }

  lemma AgeAt(c: Config, run: seq<State>, m: nat, k: nat)
    requires Run(c, run) && m + 1 < |run| && c.platform == Unix
    requires k <= |run[m].history| && NothingOlder(run[m].disk, run[m].history, k)
    ensures k <= |run[m + 1].history| && NothingOlder(run[m + 1].disk, run[m + 1].history, k)
  {
    RunInv(c, run, m);
    var a := StepAt(c, run, m);
    StepKeepsAge(c, run[m], a, run[m + 1], k);
  }

  lemma NobodyBringsBackOlder(c: Config, run: seq<State>, i: nat, j: nat, k: nat)
    requires Run(c, run) && i <= j < |run| && c.platform == Unix
    requires k <= |run[i].history| && NothingOlder(run[i].disk, run[i].history, k)
    ensures NothingOlder(run[j].disk, run[j].history, k)
  {
    for m := i to j
      invariant k <= |run[m].history| && NothingOlder(run[m].disk, run[m].history, k)
    {
      AgeAt(c, run, m, k);
    }
  }

  lemma SettledIsNothingOlder(c: Config, d: Disk, h: seq<Event>, q: Proc, k: nat)
    requires DiskInv(c, d, h, Some(q)) && c.platform == Unix && q.pc.Releasing? && q.fault == NoFault
    requires k < |h| && k == |h| - 1 && h[k].Commit?
    ensures NothingOlder(d, h, k)
  {
    assert FromCommit(h, k, h[k].after);
  }

  lemma ReturnLeavesNothingOlder(c: Config, s: State, a: Action, s': State, p: nat, k: nat)
    requires Inv(c, s) && Next(c, s, a) == Some(s') && Returned(s, s', p) && s'.results[p].fault == NoFault
    requires c.platform == Unix && |s'.history| > 0 && k == |s'.history| - 1 && s'.history[k].Commit?
    ensures NothingOlder(s'.disk, s'.history, k)
  {
    HowItReturned(c, s, a, s', p);
    HolderIs(s, p);
    SettledIsNothingOlder(c, s.disk, s.history, s.procs[p], k);
  }

  /** The commit of an install that has returned without an error is the last event, and settled. */
  lemma ReturnedIsLast(c: Config, run: seq<State>, i: nat, p: nat)
    requires Run(c, run) && i + 1 < |run| && Returned(run[i], run[i + 1], p) && run[i + 1].results[p].fault == NoFault
    requires c.platform == Unix
    ensures run[i + 1].results[p].committed
    ensures var h := run[i + 1].history;
            |h| > 0 && CommittedBy(h[|h| - 1], p) && NothingOlder(run[i + 1].disk, h, |h| - 1)
  {
    EveryOutcomeIsHonest(c, run, i, p);
    RunInv(c, run, i);
    var a := StepAt(c, run, i);
    ReturnLeavesNothingOlder(c, run[i], a, run[i + 1], p, |run[i + 1].history| - 1);
  }

  lemma WhatSurvivesAt(c: Config, run: seq<State>, j: nat, d: Disk, k: nat)
    requires Run(c, run) && j < |run| && c.platform == Unix && NothingOlder(run[j].disk, run[j].history, k)
    requires d == run[j].disk || Survives(run[j].disk, d)
    ensures d.Has(Target) && FromCommit(run[j].history, k, d.At(Target).content)
  {
    RunInv(c, run, j);
    WhatSurvives(c, run[j], d, k);
  }

  lemma WhatSurvives(c: Config, s: State, d: Disk, k: nat)
    requires Inv(c, s) && c.platform == Unix && NothingOlder(s.disk, s.history, k)
    requires d == s.disk || Survives(s.disk, d)
    ensures d.Has(Target) && FromCommit(s.history, k, d.At(Target).content)
  {
    assert s.disk.dir[Target] in s.disk.maybe;
  }

  /**
   Once an install has returned without an error, no power failure at any later moment, whatever other installs do
   meanwhile, brings an older program back: the target, in memory and on every disk that may be left, holds the program
   of this install's commit or of a later one.
   */
  lemma CommittedIsDurable(c: Config, run: seq<State>, i: nat, p: nat, j: nat, d: Disk)
    requires Run(c, run) && i + 1 < |run| && Returned(run[i], run[i + 1], p) && run[i + 1].results[p].fault == NoFault
    requires c.platform == Unix && i + 1 <= j < |run| && (d == run[j].disk || Survives(run[j].disk, d))
    ensures run[i + 1].results[p].committed
    ensures var k := |run[i + 1].history| - 1;
            && k >= 0 && CommittedBy(run[i + 1].history[k], p)
            && d.Has(Target) && FromCommit(run[j].history, k, d.At(Target).content)
  {
    var k := |run[i + 1].history| - 1;
    ReturnedIsLast(c, run, i, p);
    NobodyBringsBackOlder(c, run, i + 1, j, k);
    WhatSurvivesAt(c, run, j, d, k);
  }
}
