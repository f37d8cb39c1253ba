/** The invariant holds at the start of every run and is kept by every step of it. */
module Preservation {
  import opened Basics
  import opened Plans
  import opened Machine
  import opened Invariant
  import opened HolderSteps
  import opened DiskSteps
  import opened Durability
  import opened Bookkeeping

  /*** The disk ***/

  lemma IsHeld(c: Config, d: Disk, h: seq<Event>, q: Proc)
    requires DiskInv(c, d, h, Some(q))
    ensures Held(c, d, q, Last(c, h))
  {
  }

  lemma CommitsOnlyAtCommit(d: Disk, p: nat, q: Proc)
    ensures !IsCommit(q.pc) ==> Commits(d, p, q) == []
  {
  }

  lemma AdvanceKeepsDisk(c: Config, d: Disk, p: nat, q: Proc, input: Input, h: seq<Event>, d': Disk, q': Proc)
    requires DiskInv(c, d, h, Some(q)) && Advance(c, d, q, input) == Some((d', q'))
    ensures DiskInv(c, d', h + Commits(d, p, q), Some(q'))
  {
    var last, h' := Last(c, h), h + Commits(d, p, q);
    IsHeld(c, d, h, q);
    AdvanceKeeps(c, d, q, input, last, d', q');
    CommitsOnlyAtCommit(d, p, q);
    LastOfCommit(c, d, p, q, input, h, d', q');
    assert Holder(c, d', q', Last(c, h'));
    EntryStays(c, d, q, input, d', q');
    HolderIsSafe(c, d', q', Last(c, h'));
    AdvanceKeepsSettled(c, d, q, input, last, d', q');
    if q.pc.Renaming? {
      RenamingKeepsDurable(c, d, p, q, input, h, d', q');
    } else {
      AdvanceIsGentle(c, d, q, input, last, d', q');
      GentleKeepsDurable(c, d, d', h);
      if IsCommit(q.pc) {
        assert c.platform == Windows;
      } else {
        assert h' == h;
      }
    }
  }

  lemma LastOfCommit(
    c: Config, d: Disk, p: nat, q: Proc, input: Input, h: seq<Event>, d': Disk, q': Proc)
    requires Held(c, d, q, Last(c, h)) && Advance(c, d, q, input) == Some((d', q'))
    ensures Last(c, h + Commits(d, p, q)) == LastAfter(d, q, Last(c, h))
  {
    if !IsCommit(q.pc) {
      assert h + Commits(d, p, q) == h;
    }
  }

  lemma StumbleKeepsDisk(c: Config, d: Disk, q: Proc, h: seq<Event>)
    requires DiskInv(c, d, h, Some(q)) && !q.pc.Releasing?
    ensures DiskInv(c, d, h, Some(Stumble(q)))
  {
    StumbleKeeps(c, d, q, Last(c, h));
  }

  lemma SweepKeepsDisk(c: Config, d: Disk, q: Proc, n: Name, how: Sweep, h: seq<Event>, d': Disk, q': Proc)
    requires DiskInv(c, d, h, Some(q)) && Sweeping(d, q, n, how) == Some((d', q'))
    ensures DiskInv(c, d', h, Some(q'))
  {
    IsHeld(c, d, h, q);
    SweepKeeps(c, d, q, n, how, Last(c, h), d', q');
    SweepIsGentle(c, d, q, n, how, Last(c, h), d', q');
    GentleKeepsDurable(c, d, d', h);
    HolderIsSafe(c, d', q', Last(c, h));
  }

  lemma ReceiveKeepsDisk(c: Config, d: Disk, q: Proc, bytes: Bytes, h: seq<Event>, d': Disk)
    requires DiskInv(c, d, h, Some(q)) && Receiving(d, q, bytes) == Some(d')
    ensures DiskInv(c, d', h, Some(q))
  {
    IsHeld(c, d, h, q);
    ReceiveKeeps(c, d, q, bytes, Last(c, h), d');
    ReceiveIsGentle(c, d, q, bytes, Last(c, h), d');
    GentleKeepsDurable(c, d, d', h);
    HolderIsSafe(c, d', q, Last(c, h));
  }

  /** A waiting install that makes the lock file disturbs nobody. */
  lemma LockFileKeepsHolder(c: Config, d: Disk, q: Proc, last: Bytes)
    requires d.Sound() && LockFile !in d.dir && Holder(c, d, q, last)
    ensures Holder(c, d.Create(LockFile, BLANK), q, last)
  {
    LockFileKeepsFiles(c, d, q, last);
    LockFileKeepsClean(c, d, q);
  }

  lemma LockFileKeepsFiles(c: Config, d: Disk, q: Proc, last: Bytes)
    requires d.Sound() && LockFile !in d.dir && Holder(c, d, q, last)
    ensures var d' := d.Create(LockFile, BLANK);
            Home(d', q, last) && Printed(c, d', q, last) && ArchiveFileOk(c, d', q) && StageFileOk(c, d', q)
  {
  }

  lemma LockFileKeepsClean(c: Config, d: Disk, q: Proc)
    requires d.Sound() && LockFile !in d.dir && Clean(d, q) && CleanOfBackups(c, d, q)
    ensures var d' := d.Create(LockFile, BLANK); Clean(d', q) && CleanOfBackups(c, d', q)
  {
  }

  lemma LockFileKeepsDisk(c: Config, d: Disk, h: seq<Event>, holder: Option<Proc>)
    requires DiskInv(c, d, h, holder) && LockFile !in d.dir
    ensures DiskInv(c, d.Create(LockFile, BLANK), h, holder)
  {
    var d' := d.Create(LockFile, BLANK);
    if holder.Some? {
      LockFileKeepsHolder(c, d, holder.value, Last(c, h));
    }
    if Target !in d.dir {
      var n :| n in d.dir && IsCopy(d, n, Last(c, h));
      assert IsCopy(d', n, Last(c, h));
    }
  }

  lemma PowerLossKeepsDisk(c: Config, s: State, d: Disk)
    requires DiskInv(c, s.disk, s.history, HolderOf(s)) && c.platform == Unix && Survives(s.disk, d)
    ensures DiskInv(c, d, Reboot(c, s, d).history, None)
  {
    var h, h' := s.history, Reboot(c, s, d).history;
    WholeGrows(c, h, h'[|h|..], d.At(Target).content);
    assert h' == h + h'[|h|..];
  }

  lemma WithoutHolder(c: Config, d: Disk, h: seq<Event>, holder: Option<Proc>)
    requires DiskInv(c, d, h, holder)
    ensures DiskInv(c, d, h, None)
  {
  }

  /*** One call of the lock holder ***/

  lemma HolderIs(s: State, p: nat)
    requires Roster(s) && p in s.procs
    ensures HoldsLock(s.procs[p].pc) ==> s.lock == Some(p) && HolderOf(s) == Some(s.procs[p])
    ensures !HoldsLock(s.procs[p].pc) ==> s.lock != Some(p)
  {
    assert ProcOk(s, p);
  }

  /** The lock holder's call takes s to s'. */
  ghost predicate Calls(c: Config, s: State, p: nat, input: Input, d': Disk, q': Proc, s': State) {
    && p in s.procs && s.lock == Some(p)
    && Advance(c, s.disk, s.procs[p], input) == Some((d', q'))
    && s' == With(s, p, q').(
         disk := d',
         creator := (var made := Created(s.procs[p], q'); if made.Some? then s.creator[made.value := p] else s.creator),
         history := s.history + Commits(s.disk, p, s.procs[p]))
  }

  lemma CallKeepsPlaces(c: Config, s: State, p: nat, input: Input, d': Disk, q': Proc, s': State)
    requires Calls(c, s, p, input, d', q', s')
    requires DiskInv(c, s.disk, s.history, Some(s.procs[p]))
    ensures DiskInv(c, s'.disk, s'.history, HolderOf(s'))
    ensures Shape(c, s.procs[p]) && Shape(c, q') && HoldsLock(q'.pc)
  {
    AdvanceKeepsDisk(c, s.disk, p, s.procs[p], input, s.history, d', q');
  }

  /** The archive stays with the holder until it is given up. */
  lemma ArchiveGoesOn(c: Config, d: Disk, q: Proc, input: Input, d': Disk, q': Proc)
    requires Advance(c, d, q, input) == Some((d', q')) && Shape(c, q) && Shape(c, q')
    ensures HasArchive(q.pc) || q.pc.Releasing? ==> HasArchive(q'.pc) || q'.pc.Releasing?
    ensures Created(q, q').Some? ==> HasArchive(q'.pc)
  {
    AdvanceKeepsArchive(c, d, q, input, d', q');
  }

  lemma CommitCallKeepsRoster(c: Config, s: State, p: nat, input: Input, d': Disk, q': Proc, s': State, e: Event)
    requires Calls(c, s, p, input, d', q', s') && Roster(s) && IsCommit(s.procs[p].pc)
    requires Shape(c, s.procs[p]) && Shape(c, q') && HoldsLock(q'.pc)
    requires CommittedBy(e, p) && Commits(s.disk, p, s.procs[p]) == [e]
    ensures Roster(s')
  {
    AdvanceKeepsPlan(c, s.disk, s.procs[p], input, d', q');
    AdvanceCommits(c, s.disk, s.procs[p], input, d', q');
    ArchiveGoesOn(c, s.disk, s.procs[p], input, d', q');
    CommitKeepsRoster(s, p, q', d', e);
  }

  lemma PlainCallKeepsRoster(c: Config, s: State, p: nat, input: Input, d': Disk, q': Proc, s': State)
    requires Calls(c, s, p, input, d', q', s') && Roster(s) && !IsCommit(s.procs[p].pc)
    requires Shape(c, s.procs[p]) && Shape(c, q') && HoldsLock(q'.pc)
    ensures Roster(s')
  {
    AdvanceKeepsPlan(c, s.disk, s.procs[p], input, d', q');
    AdvanceCommits(c, s.disk, s.procs[p], input, d', q');
    ArchiveGoesOn(c, s.disk, s.procs[p], input, d', q');
    CommitsOnlyAtCommit(s.disk, p, s.procs[p]);
    MoveKeepsRoster(s, p, q', s');
  }

  lemma CallKeepsRoster(c: Config, s: State, p: nat, input: Input, d': Disk, q': Proc, s': State)
    requires Calls(c, s, p, input, d', q', s') && Roster(s)
    requires Shape(c, s.procs[p]) && Shape(c, q') && HoldsLock(q'.pc)
    requires IsCommit(s.procs[p].pc) ==>
      exists e :: CommittedBy(e, p) && Commits(s.disk, p, s.procs[p]) == [e]
    ensures Roster(s')
  {
    if IsCommit(s.procs[p].pc) {
      var e :| CommittedBy(e, p) && Commits(s.disk, p, s.procs[p]) == [e];
      CommitCallKeepsRoster(c, s, p, input, d', q', s', e);
    } else {
      PlainCallKeepsRoster(c, s, p, input, d', q', s');
    }
  }

  lemma CallKeepsRecords(c: Config, s: State, p: nat, input: Input, d': Disk, q': Proc, s': State)
    requires Calls(c, s, p, input, d', q', s') && Records(c, s) && ProcOk(s, p)
    requires DiskInv(c, s.disk, s.history, Some(s.procs[p]))
    ensures Records(c, s')
    ensures IsCommit(s.procs[p].pc) ==>
      exists e :: CommittedBy(e, p) && Commits(s.disk, p, s.procs[p]) == [e]
  {
    var q := s.procs[p];
    if IsCommit(q.pc) {
      var e := CommitEvent(c, s, p, input);
      RecordsGrow(c, s, e);
      RecordsDependOnRecords(c, s.(history := s.history + [e]), s');
    } else {
      CommitsOnlyAtCommit(s.disk, p, q);
      RecordsDependOnRecords(c, s, s');
    }
  }

  lemma CommitEvent(c: Config, s: State, p: nat, input: Input) returns (e: Event)
    requires p in s.procs && ProcOk(s, p) && IsCommit(s.procs[p].pc)
    requires Advance(c, s.disk, s.procs[p], input).Some?
    requires DiskInv(c, s.disk, s.history, Some(s.procs[p]))
    ensures CommittedBy(e, p) && Commits(s.disk, p, s.procs[p]) == [e] && CommitOk(c, s, e)
    ensures e.before == Last(c, s.history) && !HasCommit(s.history, p)
  {
    var q := s.procs[p];
    IsHeld(c, s.disk, s.history, q);
    CommitIsJustified(c, s, p, q);
    e := Commits(s.disk, p, q)[0];
  }

  lemma AdvanceKeepsInv(c: Config, s: State, p: nat, input: Input, d': Disk, q': Proc, s': State)
    requires Inv(c, s) && Calls(c, s, p, input, d', q', s')
    ensures Inv(c, s')
  {
    assert ProcOk(s, p);
    CallKeepsRecords(c, s, p, input, d', q', s');
    CallKeepsPlaces(c, s, p, input, d', q', s');
    CallKeepsRoster(c, s, p, input, d', q', s');
  }

  lemma StumbleKeepsInv(c: Config, s: State, p: nat)
    requires Inv(c, s) && p in s.procs && HoldsLock(s.procs[p].pc) && !s.procs[p].pc.Releasing?
    ensures Inv(c, With(s, p, Stumble(s.procs[p])))
  {
    var q := s.procs[p];
    var s' := With(s, p, Stumble(q));
    HolderIs(s, p);
    StumbleKeepsDisk(c, s.disk, q, s.history);
    StumbleGoesOn(c, q);
    MoveKeepsRoster(s, p, Stumble(q), s');
    RecordsDependOnRecords(c, s, s');
  }

  lemma StumbleGoesOn(c: Config, q: Proc)
    requires HoldsLock(q.pc) && Shape(c, q) && !q.pc.Releasing?
    ensures HoldsLock(Stumble(q).pc) && (HasArchive(q.pc) ==> HasArchive(Stumble(q).pc) || Stumble(q).pc.Releasing?)
  {
  }

  lemma ReceiveKeepsInv(c: Config, s: State, p: nat, bytes: Bytes)
    requires Inv(c, s) && p in s.procs && Receiving(s.disk, s.procs[p], bytes).Some?
    ensures Inv(c, s.(disk := Receiving(s.disk, s.procs[p], bytes).value))
  {
    var s' := s.(disk := Receiving(s.disk, s.procs[p], bytes).value);
    HolderIs(s, p);
    ReceiveKeepsDisk(c, s.disk, s.procs[p], bytes, s.history, s'.disk);
    RecordsDependOnRecords(c, s, s');
    DiskIsNotInRoster(s, s'.disk);
  }

  lemma DiskIsNotInRoster(s: State, d: Disk)
    requires Roster(s)
    ensures Roster(s.(disk := d))
  {
    var s' := s.(disk := d);
    forall r | r in s.procs ensures ProcOk(s', r) {
      assert ProcOk(s, r);
    }
    forall n | n in s.creator ensures CreatorOk(s', n) {
      assert CreatorOk(s, n);
    }
    forall r | r in s.results ensures ResultOk(s', r) {
      assert ResultOk(s, r);
    }
  }

  /** What a sweep does to the install that sweeps. */
  lemma SweepingMoves(d: Disk, q: Proc, n: Name, how: Sweep, d': Disk, q': Proc)
    requires Sweeping(d, q, n, how) == Some((d', q'))
    ensures HoldsLock(q'.pc) && q'.plan == q.plan && q'.committed == q.committed
    ensures HasArchive(q.pc) || q.pc.Releasing? ==> HasArchive(q'.pc) || q'.pc.Releasing?
  {
  }

  lemma SweepKeepsInv(c: Config, s: State, p: nat, n: Name, how: Sweep, d': Disk, q': Proc, s': State)
    requires Inv(c, s) && p in s.procs
    requires Sweeping(s.disk, s.procs[p], n, how) == Some((d', q')) && s' == With(s, p, q').(disk := d')
    ensures Inv(c, s')
  {
    HolderIs(s, p);
    SweepKeepsPlaces(c, s.disk, HolderOf(s), n, how, s.history, d', q');
    SweepKeepsBooks(c, s, p, n, how, d', q', s');
    HolderMovesOn(s, p, q', d');
  }

  lemma HolderMovesOn(s: State, p: nat, q': Proc, d': Disk)
    requires p in s.procs && s.lock == Some(p)
    ensures HolderOf(With(s, p, q').(disk := d')) == Some(q')
  {
  }

  lemma SweepKeepsPlaces(
    c: Config, d: Disk, holder: Option<Proc>, n: Name, how: Sweep, h: seq<Event>, d': Disk, q': Proc)
    requires DiskInv(c, d, h, holder) && holder.Some? && Sweeping(d, holder.value, n, how) == Some((d', q'))
    ensures DiskInv(c, d', h, Some(q'))
  {
    SweepKeepsDisk(c, d, holder.value, n, how, h, d', q');
  }

  lemma SweepKeepsBooks(c: Config, s: State, p: nat, n: Name, how: Sweep, d': Disk, q': Proc, s': State)
    requires Roster(s) && Records(c, s) && p in s.procs && s.lock == Some(p)
    requires Sweeping(s.disk, s.procs[p], n, how) == Some((d', q')) && s' == With(s, p, q').(disk := d')
    ensures Roster(s') && Records(c, s')
  {
    SweepingMoves(s.disk, s.procs[p], n, how, d', q');
    MoveKeepsRoster(s, p, q', s');
    RecordsDependOnRecords(c, s, s');
  }

  /*** One step of anybody else ***/

  /** Installs return or die: the disk and the records stay as they are. */
  lemma EndingKeepsInv(c: Config, s: State, gone: set<nat>, s': State)
    requires Inv(c, s)
    requires s'.procs == s.procs - gone && s'.lock == if s.lock.Some? && s.lock.value in gone then None else s.lock
    requires s'.plans == s.plans && s'.creator == s.creator && s'.history == s.history && s'.born == s.born
    requires s'.disk == s.disk && s'.verified == s.verified
    requires forall p :: p in s'.results ==>
      if p in s.procs then p in gone && s'.results[p].committed == s.procs[p].committed
      else p in s.results && s'.results[p] == s.results[p]
    ensures Inv(c, s')
  {
    EndingKeepsRoster(s, gone, s');
    RecordsDependOnRecords(c, s, s');
    WithoutHolder(c, s.disk, s.history, HolderOf(s));
    assert HolderOf(s') == None || HolderOf(s') == HolderOf(s);
  }

  lemma LeaveKeepsInv(c: Config, s: State, p: nat, outcome: Outcome)
    requires Inv(c, s) && p in s.procs && outcome.committed == s.procs[p].committed
    ensures Inv(c, Leave(s, p, outcome))
  {
    ResultsStay(s, p);
    EndingKeepsInv(c, s, {p}, Leave(s, p, outcome));
  }

  lemma CrashKeepsInv(c: Config, s: State, p: nat)
    requires Inv(c, s) && p in s.procs
    ensures Inv(c, Die(s, p))
  {
    ResultsStay(s, p);
    EndingKeepsInv(c, s, {p}, Die(s, p));
  }

  lemma ResultsStay(s: State, p: nat)
    requires Roster(s) && p in s.procs
    ensures forall r :: r in s.results ==> r !in s.procs
  {
    forall r | r in s.results ensures r !in s.procs {
      assert ResultOk(s, r);
    }
  }

  lemma WaitingKeepsPlaces(c: Config, s: State, p: nat, s': State)
    requires DiskInv(c, s.disk, s.history, HolderOf(s)) && p in s.procs && s.lock != Some(p)
    requires !HoldsLock(s.procs[p].pc) && Waiting(s.procs[p]) && Approach(s, p) == Some(s')
    ensures DiskInv(c, s'.disk, s'.history, HolderOf(s'))
  {
    if s.procs[p].pc.OpeningLock? && LockFile !in s.disk.dir {
      LockFileKeepsDisk(c, s.disk, s.history, HolderOf(s));
    }
    if !s.procs[p].pc.Locking? {
      assert HolderOf(s') == HolderOf(s);
    }
  }

  lemma ApproachGoesOn(s: State, p: nat, s': State)
    requires p in s.procs && Waiting(s.procs[p]) && !HoldsLock(s.procs[p].pc) && Approach(s, p) == Some(s')
    ensures p in s'.procs && s'.procs == s.procs[p := s'.procs[p]]
    ensures s'.procs[p].plan == s.procs[p].plan && Waiting(s'.procs[p])
    ensures if HoldsLock(s'.procs[p].pc) then s.lock == None && s'.lock == Some(p) else s'.lock == s.lock
    ensures s' == s.(procs := s'.procs, lock := s'.lock, disk := s'.disk)
  {
  }

  lemma WaitKeepsBooks(c: Config, s: State, p: nat, s': State)
    requires Roster(s) && Records(c, s) && p in s.procs && !HoldsLock(s.procs[p].pc) && Approach(s, p) == Some(s')
    ensures Roster(s') && Records(c, s')
  {
    assert ProcOk(s, p);
    ApproachGoesOn(s, p, s');
    WaitingKeepsRoster(s, p, s'.procs[p], s');
    RecordsDependOnRecords(c, s, s');
  }

  lemma WaitKeepsInv(c: Config, s: State, p: nat, s': State)
    requires Inv(c, s) && p in s.procs && !HoldsLock(s.procs[p].pc) && Approach(s, p) == Some(s')
    ensures Inv(c, s')
  {
    HolderIs(s, p);
    assert ProcOk(s, p);
    WaitingKeepsPlaces(c, s, p, s');
    WaitKeepsBooks(c, s, p, s');
  }

  lemma PowerLossKeepsInv(c: Config, s: State, d: Disk)
    requires Inv(c, s) && c.platform == Unix && Survives(s.disk, d)
    ensures Inv(c, Reboot(c, s, d))
  {
    var s' := Reboot(c, s, d);
    PowerLossKeepsDisk(c, s, d);
    var dead := s.(disk := d, lock := None, procs := map[]);
    EndingKeepsRoster(s, s.procs.Keys, dead);
    RecordsDependOnRecords(c, s, dead);
    if s'.history != s.history {
      var e := Revert(Last(c, s.history), d.At(Target).content);
      RecordsGrow(c, dead, e);
      RevertKeepsRoster(dead, e);
    }
  }

  lemma CheckKeepsInv(c: Config, s: State, a: Action, s': State)
    requires Inv(c, s) && a.Checked? && Next(c, s, a) == Some(s')
    ensures Inv(c, s')
  {
    CheckKeepsRecords(c, s, a);
    CheckKeepsRoster(c, s, a);
    assert HolderOf(s') == HolderOf(s);
  }

  lemma BeginKeepsInv(c: Config, s: State, plan: Plan)
    requires Inv(c, s) && plan in s.plans && Admits(plan.updater, plan)
    ensures Inv(c, Spawn(s, plan))
  {
    var s' := Spawn(s, plan);
    BeginKeepsRoster(c, s, plan);
    RecordsDependOnRecords(c, s, s');
    assert s.lock.Some? ==> ProcOk(s, s.lock.value);
    assert HolderOf(s') == HolderOf(s);
  }

  lemma SucceedKeepsInv(c: Config, s: State, p: nat, input: Input, s': State)
    requires Inv(c, s) && p in s.procs && Succeeding(c, s, p, input) == Some(s')
    ensures Inv(c, s')
  {
    var q := s.procs[p];
    if !HoldsLock(q.pc) {
      WaitKeepsInv(c, s, p, s');
    } else if q.pc.Releasing? {
      LeaveKeepsInv(c, s, p, ResultOf(q));
    } else {
      HolderIs(s, p);
      var (d', q') := Advance(c, s.disk, q, input).value;
      AdvanceKeepsInv(c, s, p, input, d', q', s');
    }
  }

  lemma FailKeepsInv(c: Config, s: State, p: nat)
    requires Inv(c, s) && p in s.procs
    ensures Inv(c, Failing(s, p))
  {
    var q := s.procs[p];
    if !HoldsLock(q.pc) || q.pc.Releasing? {
      LeaveKeepsInv(c, s, p, ResultOf(q.(fault := FailWith(q.pc, q.fault))));
    } else {
      StumbleKeepsInv(c, s, p);
    }
  }

  lemma InstallKeepsInv(c: Config, s: State, a: Action, s': State)
    requires Inv(c, s) && Next(c, s, a) == Some(s') && (a.Succeed? || a.Fail? || a.Receive? || a.SweepOne?)
    ensures Inv(c, s')
  {
    match a
    case Succeed(p, input) => SucceedKeepsInv(c, s, p, input, s');
    case Fail(p) => FailKeepsInv(c, s, p);
    case Receive(p, bytes) => ReceiveKeepsInv(c, s, p, bytes);
    case SweepOne(p, n, how) =>
      var (d', q') := Sweeping(s.disk, s.procs[p], n, how).value;
      SweepKeepsInv(c, s, p, n, how, d', q', s');
  }

  /** Every step of every install, every check, crash and power failure keeps the invariant. */
  lemma StepKeepsInv(c: Config, s: State, a: Action, s': State)
    requires Inv(c, s) && Next(c, s, a) == Some(s')
    ensures Inv(c, s')
  {
    match a
    case Checked(_, _, _, _, _) => CheckKeepsInv(c, s, a, s');
    case Begin(plan) => BeginKeepsInv(c, s, plan);
    case Crash(p) => CrashKeepsInv(c, s, p);
    case PowerLoss(d) => PowerLossKeepsInv(c, s, d);
    case _ => InstallKeepsInv(c, s, a, s');
  }

  lemma StepAt(c: Config, run: seq<State>, i: nat) returns (a: Action)
    requires Run(c, run) && i + 1 < |run|
    ensures Next(c, run[i], a) == Some(run[i + 1])
  {
    assert StepsAt(c, run, i);
    a :| Next(c, run[i], a) == Some(run[i + 1]);
  }

  lemma ReachableInv(c: Config, s: State, s': State)
    requires Inv(c, s) && Step(c, s, s')
    ensures Inv(c, s')
  {
    var a :| Next(c, s, a) == Some(s');
    StepKeepsInv(c, s, a, s');
  }

  /** Every state of every run satisfies the invariant. */
  lemma RunInv(c: Config, run: seq<State>, i: nat)
    requires Run(c, run) && i < |run|
    ensures Inv(c, run[i])
  {
    InitInv(c, run[0]);
    for k := 0 to i
      invariant Inv(c, run[k])
    {
      assert StepsAt(c, run, k);
      ReachableInv(c, run[k], run[k + 1]);
    }
  }
}
