/** Every step keeps the records and the roster. */
module Bookkeeping {
  import opened Basics
  import opened Plans
  import opened Versions
  import opened Machine
  import opened Invariant
  import opened HolderSteps
  import opened DiskSteps
  import opened Durability

  /*** Records ***/

  lemma RecordsDependOnRecords(c: Config, s: State, s': State)
    requires Records(c, s)
    requires s'.plans == s.plans && s'.verified == s.verified && s'.history == s.history && s'.born >= s.born
    ensures Records(c, s')
  {
    forall plan | plan in s'.plans ensures PlanOk(c, s', plan) {
      assert PlanOk(c, s, plan);
    }
    forall k | 0 <= k < |s'.history| ensures CommitOk(c, s', s'.history[k]) {
      assert CommitOk(c, s, s.history[k]);
    }
  }

  lemma HasCommitGrows(h: seq<Event>, e: Event, p: nat)
    ensures HasCommit(h + [e], p) <==> HasCommit(h, p) || CommittedBy(e, p)
  {
    var h' := h + [e];
    if HasCommit(h, p) {
      var k :| 0 <= k < |h| && CommittedBy(h[k], p);
      assert CommittedBy(h'[k], p);
    }
    if CommittedBy(e, p) {
      assert CommittedBy(h'[|h|], p);
    }
  }

  lemma ChainGrows(c: Config, h: seq<Event>, e: Event)
    requires Chained(c, h) && e.before == Last(c, h)
    ensures Chained(c, h + [e])
  {
    var h' := h + [e];
    forall k | 0 <= k < |h'| ensures h'[k].before == Last(c, h'[..k]) {
      assert h'[..k] == h[..k];
    }
  }

  /** What an event adds to the history disturbs nothing that was on record. */
  lemma RecordsGrow(c: Config, s: State, e: Event)
    requires Records(c, s) && e.before == Last(c, s.history) && CommitOk(c, s, e)
    requires e.Commit? ==> !HasCommit(s.history, e.pid)
    requires e.Revert? ==> Whole(c, s.history, e.after)
    ensures Records(c, s.(history := s.history + [e]))
  {
    var s' := s.(history := s.history + [e]);
    ChainGrows(c, s.history, e);
    forall plan | plan in s.plans ensures PlanOk(c, s', plan) {
      assert PlanOk(c, s, plan);
      var content :| Whole(c, s.history, content) && plan.fingerprint == c.hash(content);
      WholeGrows(c, s.history, [e], content);
    }
    forall k | 0 <= k < |s'.history| ensures CommitOk(c, s', s'.history[k]) {
      assert k < |s.history| ==> CommitOk(c, s, s.history[k]);
    }
    forall j | 0 <= j < |s.history| && e.Commit? ensures !CommittedBy(s.history[j], e.pid) {
    }
    if e.Revert? {
      WholeGrows(c, s.history, [e], e.after);
    } else {
      assert s'.history[|s.history|].Commit? && s'.history[|s.history|].after == e.after;
    }
  }

  lemma NewPlanIsOk(c: Config, s: State, a: Action)
    requires a.Checked? && MayPlan(c, s, a) && Whole(c, s.history, s.disk.At(Target).content)
    ensures PlanOk(c, AddPlan(c, s, a),
                   BuildPlan(a.updater, a.version, a.asset, a.targeted, c.hash(s.disk.At(Target).content)))
  {
    var s' := AddPlan(c, s, a);
    assert Whole(c, s'.history, s.disk.At(Target).content);
    if a.updater.workflow != "" {
      assert a.evidence.value in s'.verified;
    }
  }

  lemma FilesGrow(c: Config, s: State, s': State, plan: Plan)
    requires PlanOk(c, s, plan) && s'.history == s.history && s.verified <= s'.verified
    ensures PlanOk(c, s', plan)
  {
  }

  lemma CheckKeepsRecords(c: Config, s: State, a: Action)
    requires Records(c, s) && a.Checked? && MayPlan(c, s, a)
    requires Whole(c, s.history, s.disk.At(Target).content)
    ensures Records(c, AddPlan(c, s, a))
  {
    var s' := AddPlan(c, s, a);
    forall plan | plan in s'.plans ensures PlanOk(c, s', plan) {
      if plan in s.plans {
        FilesGrow(c, s, s', plan);
      } else {
        NewPlanIsOk(c, s, a);
      }
    }
    forall k | 0 <= k < |s'.history| ensures CommitOk(c, s', s'.history[k]) {
      assert CommitOk(c, s, s.history[k]);
    }
  }

  /*** Roster: steps of the lock holder ***/

  /** The holder moves on; it may have made a file. */
  lemma MoveKeepsRoster(s: State, p: nat, q': Proc, s': State)
    requires Roster(s) && p in s.procs && s.lock == Some(p) && HoldsLock(q'.pc)
    requires q'.plan == s.procs[p].plan && q'.committed == s.procs[p].committed
    requires s'.procs == s.procs[p := q'] && s'.lock == s.lock && s'.plans == s.plans && s'.born == s.born
    requires s'.history == s.history && s'.results == s.results
    requires forall n :: n in s'.creator ==>
      (n in s.creator && s'.creator[n] == s.creator[n]) || (s'.creator[n] == p && HasArchive(q'.pc))
    requires HasArchive(s.procs[p].pc) || s.procs[p].pc.Releasing? ==> HasArchive(q'.pc) || q'.pc.Releasing?
    ensures Roster(s')
  {
    assert ProcOk(s, p);
    forall r | r in s'.procs ensures ProcOk(s', r) {
      assert ProcOk(s, r);
    }
    forall n | n in s'.creator ensures CreatorOk(s', n) {
      assert n in s.creator ==> CreatorOk(s, n);
    }
    forall r | r in s'.results ensures ResultOk(s', r) {
      assert ResultOk(s, r);
    }
  }

  /** The commit goes on record. */
  lemma CommitKeepsRoster(s: State, p: nat, q': Proc, d': Disk, e: Event)
    requires Roster(s) && p in s.procs && s.lock == Some(p) && HoldsLock(q'.pc) && HasArchive(q'.pc)
    requires q'.plan == s.procs[p].plan && q'.committed && CommittedBy(e, p)
    ensures Roster(With(s, p, q').(disk := d', history := s.history + [e]))
  {
    var s' := With(s, p, q').(disk := d', history := s.history + [e]);
    assert ProcOk(s, p);
    forall r | r in s'.procs ensures ProcOk(s', r) {
      assert ProcOk(s, r);
      HasCommitGrows(s.history, e, r);
    }
    forall n | n in s'.creator ensures CreatorOk(s', n) {
      assert CreatorOk(s, n);
    }
    forall r | r in s'.results ensures ResultOk(s', r) {
      assert ResultOk(s, r);
      HasCommitGrows(s.history, e, r);
    }
  }

  lemma RevertKeepsRoster(s: State, e: Event)
    requires Roster(s) && e.Revert? && s.procs == map[]
    ensures Roster(s.(history := s.history + [e]))
  {
    var s' := s.(history := s.history + [e]);
    forall n | n in s'.creator ensures CreatorOk(s', n) {
      assert CreatorOk(s, n);
    }
    forall r | r in s'.results ensures ResultOk(s', r) {
      assert ResultOk(s, r);
      HasCommitGrows(s.history, e, r);
    }
  }

  /*** Roster: steps of the others ***/

  /** An install that waits for the lock moves on, or gets the lock. */
  lemma WaitingKeepsRoster(s: State, p: nat, q': Proc, s': State)
    requires Roster(s) && p in s.procs && !HoldsLock(s.procs[p].pc)
    requires q'.plan == s.procs[p].plan && q'.committed == s.procs[p].committed && Waiting(q')
    requires if HoldsLock(q'.pc) then s.lock == None && s'.lock == Some(p) else s'.lock == s.lock
    requires s'.procs == s.procs[p := q'] && s'.plans == s.plans && s'.born == s.born
    requires s'.history == s.history && s'.results == s.results && s'.creator == s.creator
    ensures Roster(s')
  {
    assert ProcOk(s, p);
    forall r | r in s'.procs ensures ProcOk(s', r) {
      assert ProcOk(s, r);
    }
    forall n | n in s'.creator ensures CreatorOk(s', n) {
      assert CreatorOk(s, n);
    }
    forall r | r in s'.results ensures ResultOk(s', r) {
      assert ResultOk(s, r);
    }
  }

  /** Installs that return or die give up the lock and leave the running ones as they were. */
  lemma EndingKeepsRoster(s: State, gone: set<nat>, s': State)
    requires Roster(s)
    requires s'.procs == s.procs - gone && s'.lock == if s.lock.Some? && s.lock.value in gone then None else s.lock
    requires s'.plans == s.plans && s'.creator == s.creator && s'.history == s.history && s'.born == s.born
    requires forall p :: p in s'.results ==>
      if p in s.procs then p in gone && s'.results[p].committed == s.procs[p].committed
      else p in s.results && s'.results[p] == s.results[p]
    ensures Roster(s')
  {
    forall r | r in s'.procs ensures ProcOk(s', r) {
      assert ProcOk(s, r);
    }
    forall n | n in s'.creator ensures CreatorOk(s', n) {
      assert CreatorOk(s, n);
    }
    forall r | r in s'.results ensures ResultOk(s', r) {
      if r in s.procs {
        assert ProcOk(s, r);
      } else {
        assert ResultOk(s, r);
      }
    }
  }

  lemma NewcomersHaveNoCommit(c: Config, s: State)
    requires Records(c, s)
    ensures !HasCommit(s.history, s.born)
  {
    forall k | 0 <= k < |s.history| ensures !CommittedBy(s.history[k], s.born) {
      assert CommitOk(c, s, s.history[k]);
    }
  }

  lemma BeginKeepsRoster(c: Config, s: State, plan: Plan)
    requires Roster(s) && Records(c, s) && plan in s.plans && Admits(plan.updater, plan)
    ensures Roster(Spawn(s, plan))
  {
    var s' := Spawn(s, plan);
    NewcomersHaveNoCommit(c, s);
    forall r | r in s'.procs ensures ProcOk(s', r) {
      if r != s.born {
        assert ProcOk(s, r);
      }
    }
    forall n | n in s'.creator ensures CreatorOk(s', n) {
      assert CreatorOk(s, n);
    }
    forall r | r in s'.results ensures ResultOk(s', r) {
      assert ResultOk(s, r);
    }
  }

  lemma CheckKeepsRoster(c: Config, s: State, a: Action)
    requires Roster(s) && a.Checked? && IsStable(a.version) && s.disk.Has(Target)
    ensures Roster(AddPlan(c, s, a))
  {
    var s' := AddPlan(c, s, a);
    forall r | r in s'.procs ensures ProcOk(s', r) {
      assert ProcOk(s, r);
    }
    forall n | n in s'.creator ensures CreatorOk(s', n) {
      assert CreatorOk(s, n);
    }
    forall r | r in s'.results ensures ResultOk(s', r) {
      assert ResultOk(s, r);
    }
  }

  /*** The commit ***/

  /** At the commit point everything that justifies the commit is at hand. */
  lemma CommitIsJustified(c: Config, s: State, p: nat, q: Proc)
    requires Held(c, s.disk, q, Last(c, s.history)) && IsCommit(q.pc)
    requires q.plan in s.plans && Admits(q.plan.updater, q.plan) && p < s.born
    requires Present(s.disk, q.stage) && Present(s.disk, q.archive)
    requires if q.pc.Renaming? then s.disk.Has(Target) else Present(s.disk, q.backup)
    ensures var commits := Commits(s.disk, p, q);
            && |commits| == 1 && CommittedBy(commits[0], p) && CommitOk(c, s, commits[0])
            && commits[0].before == Last(c, s.history)
  {
  }

  lemma AdvanceKeepsPlan(c: Config, d: Disk, q: Proc, input: Input, d': Disk, q': Proc)
    requires Advance(c, d, q, input) == Some((d', q'))
    ensures q'.plan == q.plan
  {
  }

  lemma AdvanceKeepsArchive(c: Config, d: Disk, q: Proc, input: Input, d': Disk, q': Proc)
    requires Advance(c, d, q, input) == Some((d', q'))
    ensures q.archive.Some? ==> q'.archive.Some? || q'.pc.Releasing?
    ensures Created(q, q').Some? ==> q'.archive.Some? || q.archive.None?
  {
  }

  lemma EarlyCallsCommitNothing(c: Config, d: Disk, q: Proc, input: Input, d': Disk, q': Proc)
    requires Prepare(c, d, q) == Some((d', q')) || Prestage(c, d, q, input) == Some((d', q'))
    ensures q'.committed == q.committed && !IsCommit(q.pc)
  {
  }

  lemma LateCallsCommit(c: Config, d: Disk, q: Proc, input: Input, d': Disk, q': Proc)
    requires Replace(c, d, q, input) == Some((d', q')) || Tidy(d, q, input) == Some((d', q'))
    ensures q'.committed <==> q.committed || IsCommit(q.pc)
    ensures IsCommit(q.pc) ==> q'.archive == q.archive && Created(q, q').None?
  {
  }

  lemma AdvanceCommits(c: Config, d: Disk, q: Proc, input: Input, d': Disk, q': Proc)
    requires Advance(c, d, q, input) == Some((d', q'))
    ensures q'.committed <==> q.committed || IsCommit(q.pc)
    ensures IsCommit(q.pc) ==> q'.archive == q.archive && Created(q, q').None?
  {
    if Rank(q.pc) <= 21 {
      EarlyCallsCommitNothing(c, d, q, input, d', q');
    } else {
      LateCallsCommit(c, d, q, input, d', q');
    }
  }
}
