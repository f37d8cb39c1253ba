/** What holds in every reachable state of the install protocol. */
module Invariant {
  import opened Basics
  import opened Plans
  import opened Versions
  import opened Machine
  import Attestations

  /*** Phases ***/

  /** Positions in the order of the source: 3 to 25 up to the commit, 27 past it, 30 to 33 undoing, 40 on leaving. */
  function Rank(pc: Pc): nat {
    match pc
    case Resolving => 0 case OpeningLock => 1 case Locking => 2
    case Reresolving => 3 case Polling => 4
    case ListingBackups => 5 case SweepingBackups => 6 case ListingStages => 7 case SweepingStages => 8
    case ListingArchives => 9 case SweepingArchives => 10
    case Fingerprinting => 11 case CreatingArchive => 12 case Downloading => 13 case SyncingArchive => 14
    case CreatingStage => 15 case Extracting => 16 case SyncingStage => 17 case Chmodding => 18
    case SyncingDirectory => 19 case Refingerprinting => 20 case LastPolling => 21
    case Renaming => 22 case ChoosingBackup => 22 case MovingAside => 23 case Hiding => 24 case MovingIn => 25
    case SyncingCommit => 27 case RemovingBackup => 27
    case Restoring => 30 case Unhiding => 31 case DroppingStage => 32 case RemovingStage => 33
    case RemovingArchive => 40 case Releasing => 41
  }

  /** Before the commit point, with nothing failed so far. */
  predicate OnCourse(pc: Pc) { 3 <= Rank(pc) <= 25 }

  predicate Undoing(pc: Pc) { 30 <= Rank(pc) <= 33 }

  predicate JustCommitted(pc: Pc) { Rank(pc) == 27 }

  /** The target is under its backup name. */
  predicate Aside(pc: Pc) { pc.Hiding? || pc.MovingIn? || pc.Restoring? }

  predicate OnlyWindows(pc: Pc) {
    pc.ListingBackups? || pc.SweepingBackups? || pc.ChoosingBackup? || 23 <= Rank(pc) <= 25 || pc.RemovingBackup?
    || 30 <= Rank(pc) <= 31
  }

  predicate OnlyUnix(pc: Pc) { pc.Renaming? || pc.SyncingCommit? }

  predicate SweptBackups(pc: Pc) { 7 <= Rank(pc) }

  predicate SweptStages(pc: Pc) { 9 <= Rank(pc) }

  predicate SweptArchives(pc: Pc) { 11 <= Rank(pc) }

  predicate Fingerprinted(pc: Pc) { 12 <= Rank(pc) <= 25 }

  /** An archive file of this install has been made, and not yet given up. */
  predicate HasArchive(pc: Pc) { 13 <= Rank(pc) <= 40 }

  predicate Verified(pc: Pc) { 14 <= Rank(pc) <= 25 }

  predicate HasStage(pc: Pc) { 16 <= Rank(pc) <= 25 || Undoing(pc) }

  predicate Staged(pc: Pc) { 17 <= Rank(pc) <= 25 }

  predicate StageSynced(pc: Pc) { 18 <= Rank(pc) <= 25 }

  predicate StageReady(pc: Pc) { 19 <= Rank(pc) <= 25 }

  predicate BackupChosen(pc: Pc) { 23 <= Rank(pc) <= 25 || pc.RemovingBackup? || 30 <= Rank(pc) <= 31 }

  /*** The install that holds the lock ***/

  /** How the fields of an install follow its position. */
  predicate Shape(c: Config, q: Proc) {
    && (q.archive.Some? <==> HasArchive(q.pc))
    && (q.stage.Some? <==> HasStage(q.pc))
    && (q.archive.Some? ==> q.archive.value.Owned? && q.archive.value.infix == ArchiveFile)
    && (q.stage.Some? ==> q.stage.value.Owned? && q.stage.value.infix == StageFile)
    && (q.backup.Some? ==> q.backup.value.Owned? && q.backup.value.infix == BackupFile)
    && (BackupChosen(q.pc) || q.fault == RestoreFailed ==> q.backup.Some?)
    && (Rank(q.pc) <= 22 ==> q.backup.None?)
    && (OnCourse(q.pc) ==> q.fault == NoFault && !q.committed)
    && (Undoing(q.pc) ==> q.fault != NoFault && !q.committed)
    && (JustCommitted(q.pc) ==> q.fault == NoFault && q.committed)
    && (q.pc.RemovingArchive? || q.pc.Releasing? ==> (q.fault == NoFault ==> q.committed))
    && (q.fault == RestoreFailed || q.fault == StillHidden ==>
          !q.committed && c.platform == Windows
          && (q.pc.RemovingStage? || q.pc.RemovingArchive? || q.pc.Releasing?))
    && (q.entry.None? ==> q.pc.Reresolving? || (q.pc.Releasing? && q.fault == Failed && !q.committed))
    && (q.pc.Reresolving? ==> q.entry.None?)
    && (q.leftover ==> q.committed)
    && (OnlyWindows(q.pc) || q.pending || q.leftover ==> c.platform == Windows)
    && (OnlyUnix(q.pc) ==> c.platform == Unix)
  }

  /** Where the old executable is, from the moment it was found under the lock. */
  predicate Home(d: Disk, q: Proc, last: Bytes) {
    q.entry.Some? ==>
      if q.committed then
        d.Has(Target) && d.At(Target).content == last && !d.At(Target).hidden
      else if Aside(q.pc) || q.fault == RestoreFailed then
        && Target !in d.dir
        && q.backup.Some? && d.Has(q.backup.value) && d.dir[q.backup.value] == q.entry.value.id
        && d.At(q.backup.value).content == last && d.At(q.backup.value).kind == Regular
      else
        && d.Has(Target) && d.dir[Target] == q.entry.value.id && d.At(Target).content == last
        && (q.pc.Unhiding? ==> d.At(Target).kind == Regular)
        && (q.entry.value.shown && !q.pc.Unhiding? && q.fault != StillHidden ==> !d.At(Target).hidden)
  }

  /** The plan's fingerprint is that of the content in place, and its permission bits have been noted. */
  predicate Printed(c: Config, d: Disk, q: Proc, last: Bytes) {
    Fingerprinted(q.pc) && q.entry.Some? ==>
      && c.hash(last) == q.plan.fingerprint
      && q.entry.value.id < |d.inodes|
      && d.inodes[q.entry.value.id].perm == q.perm
      && d.inodes[q.entry.value.id].kind == Regular
  }

  /** A file of this install is its own: no other use of that inode. */
  predicate Private(d: Disk, q: Proc, n: Name) {
    && d.Has(n)
    && d.dir[n] !in d.maybe
    && (q.entry.Some? ==> d.dir[n] != q.entry.value.id)
    && !d.At(n).hidden
  }

  predicate ArchiveFileOk(c: Config, d: Disk, q: Proc) {
    HasArchive(q.pc) && !Undoing(q.pc) && !JustCommitted(q.pc) && !q.pc.RemovingArchive? && q.archive.Some? ==>
      && Private(d, q, q.archive.value)
      && (Verified(q.pc) ==> c.hash(d.At(q.archive.value).content) == q.plan.digest)
  }

  predicate StageFileOk(c: Config, d: Disk, q: Proc) {
    HasStage(q.pc) && OnCourse(q.pc) && q.stage.Some? && q.archive.Some? ==>
      && Private(d, q, q.stage.value)
      && d.Has(q.archive.value) && d.dir[q.stage.value] != d.dir[q.archive.value]
      && (Staged(q.pc) ==> Unpack(c, d.At(q.archive.value).content) == Some(d.At(q.stage.value).content))
      && (StageSynced(q.pc) ==> d.At(q.stage.value).synced)
      && (StageReady(q.pc) ==> d.At(q.stage.value).perm == q.perm)
  }

  /** What the sweeps have left. */
  predicate Clean(d: Disk, q: Proc) {
    q.fault == NoFault ==>
      && (SweptStages(q.pc) ==> forall n :: n in d.dir && d.Sweepable(n, StageFile) ==> q.stage == Some(n))
      && (SweptArchives(q.pc) ==> forall n :: n in d.dir && d.Sweepable(n, ArchiveFile) ==> q.archive == Some(n))
      && (q.pc.SweepingStages? ==> forall n :: n in d.dir && d.Sweepable(n, StageFile) ==> n in q.todo)
      && (q.pc.SweepingArchives? ==> forall n :: n in d.dir && d.Sweepable(n, ArchiveFile) ==> n in q.todo)
  }

  predicate CleanOfBackups(c: Config, d: Disk, q: Proc) {
    q.fault == NoFault && !q.pending && c.platform == Windows ==>
      && (SweptBackups(q.pc) && !q.leftover ==>
            forall n :: n in d.dir && d.Sweepable(n, BackupFile) ==>
              q.backup == Some(n) && (Aside(q.pc) || q.pc.RemovingBackup?))
      && (q.pc.SweepingBackups? ==> forall n :: n in d.dir && d.Sweepable(n, BackupFile) ==> n in q.todo)
  }

  predicate TodoOk(q: Proc) {
    && (q.pc.SweepingBackups? ==> forall n :: n in q.todo ==> n.Owned? && n.infix == BackupFile)
    && (q.pc.SweepingStages? ==> forall n :: n in q.todo ==> n.Owned? && n.infix == StageFile)
    && (q.pc.SweepingArchives? ==> forall n :: n in q.todo ==> n.Owned? && n.infix == ArchiveFile)
  }

  ghost predicate Holder(c: Config, d: Disk, q: Proc, last: Bytes) {
    && HoldsLock(q.pc)
    && Shape(c, q)
    && Home(d, q, last)
    && Printed(c, d, q, last)
    && ArchiveFileOk(c, d, q)
    && StageFileOk(c, d, q)
    && Clean(d, q)
    && CleanOfBackups(c, d, q)
    && TodoOk(q)
  }

  /*** The disk ***/

  /** The initial program, or one that some commit installed. */
  ghost predicate Whole(c: Config, history: seq<Event>, content: Bytes) {
    content == c.initial || exists k :: 0 <= k < |history| && history[k].Commit? && history[k].after == content
  }

  predicate IsCopy(d: Disk, n: Name, content: Bytes) {
    n.Owned? && n.infix == BackupFile && d.Has(n) && d.At(n).content == content && d.At(n).kind == Regular
  }

  /** The last installed program is in place or, on Windows, under a backup name. */
  ghost predicate Safe(c: Config, d: Disk, last: Bytes) {
    && (Target in d.dir ==> d.Has(Target) && d.At(Target).content == last)
    && (Target !in d.dir ==> c.platform == Windows && exists n :: n in d.dir && IsCopy(d, n, last))
  }

  /** Whatever the power does, Target names a whole program on stable storage. */
  ghost predicate Durable(c: Config, d: Disk, history: seq<Event>) {
    c.platform == Unix ==>
      && Target in d.dir && d.dir[Target] in d.maybe
      && forall i :: i in d.maybe ==> i < |d.inodes| && d.inodes[i].synced && Whole(c, history, d.inodes[i].content)
  }

  /** A commit that returns no error on Unix has reached stable storage. */
  predicate Settled(c: Config, d: Disk, q: Proc) {
    c.platform == Unix && q.committed && q.fault == NoFault && !q.pc.SyncingCommit? && Target in d.dir ==>
      d.maybe == {d.dir[Target]}
  }

  ghost predicate DiskInv(c: Config, d: Disk, history: seq<Event>, holder: Option<Proc>) {
    && d.Sound()
    && Safe(c, d, Last(c, history))
    && Durable(c, d, history)
    && (holder.Some? ==> Holder(c, d, holder.value, Last(c, history)) && Settled(c, d, holder.value))
  }

  /*** The records: plans, verifications and history ***/

  /** There is evidence for an answer to this request. */
  predicate OnFile(s: State, request: Request) {
    exists e :: e in s.verified && e.request == request
  }

  ghost predicate PlanOk(c: Config, s: State, plan: Plan) {
    && IsStable(plan.availableVersion)
    && plan.comparable == IsStable(plan.updater.currentVersion)
    && (plan.provenance.Some? ==> OnFile(s, RequestOf(plan.provenance.value)))
    && (exists content :: Whole(c, s.history, content) && plan.fingerprint == c.hash(content))
  }

  predicate CommittedBy(e: Event, p: nat) { e.Commit? && e.pid == p }

  ghost predicate HasCommit(history: seq<Event>, p: nat) {
    exists k :: 0 <= k < |history| && CommittedBy(history[k], p)
  }

  /** What one commit did, as the plan justifies it. */
  predicate CommitOk(c: Config, s: State, e: Event) {
    e.Commit? ==>
      && e.plan in s.plans
      && Admits(e.plan.updater, e.plan)
      && e.pid < s.born
      && c.hash(e.before) == e.plan.fingerprint
      && e.afterPerm == e.beforePerm
      && c.hash(e.archive) == e.plan.digest
      && Unpack(c, e.archive) == Some(e.after)
  }

  ghost predicate Chained(c: Config, history: seq<Event>) {
    forall k :: 0 <= k < |history| ==> history[k].before == Last(c, history[..k])
  }

  ghost predicate OneCommitEach(history: seq<Event>) {
    forall j, k :: 0 <= j < k < |history| && history[j].Commit? && history[k].Commit? ==>
      history[j].pid != history[k].pid
  }

  ghost predicate Records(c: Config, s: State) {
    && (forall plan :: plan in s.plans ==> PlanOk(c, s, plan))
    && (forall e :: e in s.verified ==> Attestations.Accepted(c.verify, e))
    && (forall k :: 0 <= k < |s.history| ==> CommitOk(c, s, s.history[k]))
    && Chained(c, s.history)
    && OneCommitEach(s.history)
    && Whole(c, s.history, Last(c, s.history))
  }

  /*** The roster: who runs, who made which file, and how the others ended ***/

  /** An install that has not got the lock owns nothing. */
  predicate Waiting(q: Proc) {
    q.archive.None? && q.stage.None? && q.backup.None? && q.entry.None? && !q.committed && q.fault == NoFault
    && !q.pending && !q.leftover
  }

  ghost predicate ProcOk(s: State, p: nat)
    requires p in s.procs
  {
    var q := s.procs[p];
    && p < s.born
    && q.plan in s.plans && Admits(q.plan.updater, q.plan)
    && (HoldsLock(q.pc) <==> s.lock == Some(p))
    && (!HoldsLock(q.pc) ==> Waiting(q))
    && (q.committed <==> HasCommit(s.history, p))
  }

  /** A file made by a running install belongs to the one that holds the lock. */
  predicate CreatorOk(s: State, n: Name)
    requires n in s.creator
  {
    var p := s.creator[n];
    p < s.born && (p in s.procs ==> s.lock == Some(p) && (HasArchive(s.procs[p].pc) || s.procs[p].pc.Releasing?))
  }

  ghost predicate ResultOk(s: State, p: nat)
    requires p in s.results
  {
    p < s.born && p !in s.procs && (s.results[p].committed <==> HasCommit(s.history, p))
  }

  ghost predicate Roster(s: State) {
    && (s.lock.Some? ==> s.lock.value in s.procs)
    && (forall p :: p in s.procs ==> ProcOk(s, p))
    && (forall n :: n in s.creator ==> CreatorOk(s, n))
    && (forall p :: p in s.results ==> ResultOk(s, p))
  }

  function HolderOf(s: State): Option<Proc> {
    if s.lock.Some? && s.lock.value in s.procs then Some(s.procs[s.lock.value]) else None
  }

  ghost predicate Inv(c: Config, s: State) {
    && Records(c, s)
    && Roster(s)
    && DiskInv(c, s.disk, s.history, HolderOf(s))
  }

  lemma InitInv(c: Config, s: State)
    requires Init(c, s)
    ensures Inv(c, s)
  {
  }
}
