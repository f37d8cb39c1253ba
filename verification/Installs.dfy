/** Updater.Apply: from the gates to the released lock. */
module Installs {
  import opened Basics
  import opened Plans
  import opened Versions
  import opened Machine
  import opened Invariant
  import opened Preservation
  import opened Guarantees
  import opened Outcomes
  import opened Unpacking
  import opened Streams
  import opened Downloads
  import opened Worlds
  import opened Staging
  import opened Replacing

  /*** acquireFileLock ***/

  /** Asks for the lock until it is free or something fails; after `patience` waits the caller's patience is over. */
  method AcquireFileLock(w: World, p: nat, patience: nat) returns (ok: bool)
    requires w.Outside(p) && w.Me(p).pc.OpeningLock?
    modifies w
    ensures Continues(old(w.story), w.story)
    ensures if ok then w.Holding(p) && w.Me(p) == old(w.Me(p)).(pc := Reresolving)
            else w.Returns(p, old(w.Me(p)).plan, Outcome(false, false, Failed))
    ensures w.mishaps >= old(w.mishaps) && (!ok ==> w.mishaps > old(w.mishaps))
    ensures !ok && w.mishaps - old(w.mishaps) == w.clashes - old(w.clashes) ==>
      w.clashes == old(w.clashes) + patience + 1
  {
    ok := w.OpenLockFile(p);
    if !ok {
      return;
    }
    for round := 0 to patience + 1
      invariant w.Outside(p) && Continues(old(w.story), w.story) && w.Me(p) == old(w.Me(p)).(pc := Locking)
      invariant w.mishaps == old(w.mishaps) + round && w.clashes == old(w.clashes) + round
    {
      var r := w.TryLock(p);
      if r != Taken {
        return r == Made;
      }
    }
    w.Abandon(p);
    ok := false;
  }

  /*** Before the download ***/

  /** A target that the plan was made for. */
  predicate Fits(c: Config, d: Disk, fingerprint: Bytes) {
    Hashable(d) && c.hash(d.At(Target).content) == fingerprint
  }

  /** hashExecutable: the hash of the target and its permission bits, if it is regular and not too large. */
  method HashTarget(w: World) returns (r: Option<(Bytes, nat)>)
    modifies w`mishaps
    ensures r.Some? ==> Fits(w.c, w.disk, r.value.0) && r.value.1 == w.disk.At(Target).perm
    ensures w.mishaps >= old(w.mishaps) && (r.None? ==> w.mishaps > old(w.mishaps) || !Hashable(w.disk))
    ensures r.Some? || w.mishaps == old(w.mishaps) ==>
      (r.Some? <==> w.disk.Has(Target) && w.disk.At(Target).kind == Regular && |w.disk.At(Target).content| <= 268435456)
  {
    var inode := w.Read(Target);
    if inode.None? || inode.value.kind != Regular {
      return None;
    }
    var readable := w.Luck();
    var sum := HashBounded(w.c.hash, inode.value.content, !readable, MAX_BINARY_BYTES);
    return if sum.Some? then Some((sum.value, inode.value.perm)) else None;
  }

  /** The same for an install: without a hash it fails. */
  method HashExecutable(w: World, p: nat) returns (r: Option<(Bytes, nat)>)
    requires w.Holding(p) && !w.Me(p).pc.Releasing?
    modifies w`disk, w`owner, w`born, w`story, w`mishaps
    ensures w.Holding(p) && Continues(old(w.story), w.story) && w.disk == old(w.disk)
    ensures r.Some? ==>
      w.Me(p) == old(w.Me(p)) && Fits(w.c, w.disk, r.value.0) && r.value.1 == w.disk.At(Target).perm
    ensures r.None? ==> w.Me(p) == Stumble(old(w.Me(p)))
    ensures w.mishaps >= old(w.mishaps) && (r.None? ==> w.mishaps > old(w.mishaps) || !Hashable(w.disk))
  {
    r := HashTarget(w);
    if r.None? {
      w.Refuse(p);
    }
  }

  /** The target must still be what the plan was made for; its permission bits are noted. */
  method Fingerprint(w: World, p: nat, fingerprint: Bytes) returns (perm: Option<nat>)
    requires w.Holding(p) && w.Me(p).pc.Fingerprinting? && w.Me(p).fault == NoFault
    requires w.Me(p).plan.fingerprint == fingerprint
    modifies w
    ensures w.Holding(p) && Continues(old(w.story), w.story)
    ensures perm.Some? ==> w.Me(p) == old(w.Me(p)).(pc := CreatingArchive, perm := perm.value)
    ensures perm.None? ==> w.Me(p) == Stopped(old(w.Me(p)), old(w.Me(p)).todo)
    ensures w.mishaps >= old(w.mishaps)
    ensures perm.None? ==> w.mishaps > old(w.mishaps) || !Fits(w.c, w.disk, fingerprint)
  {
    StumbleBeforeArchive(w.Me(p));
    var hashed := HashExecutable(w, p);
    if hashed.None? {
      return None;
    }
    if hashed.value.0 != fingerprint {
      w.Refuse(p);
      return None;
    }
    w.Step(p, Nothing, w.Me(p).(pc := CreatingArchive, perm := hashed.value.1));
    return Some(hashed.value.1);
  }

  /** Resolves the target again, now that nobody else can move it. */
  method Reresolve(w: World, p: nat) returns (ok: bool)
    requires w.Holding(p) && w.Me(p).pc.Reresolving? && w.Me(p).fault == NoFault
    modifies w
    ensures w.Holding(p) && Continues(old(w.story), w.story)
    ensures ok ==> w.Me(p) == old(w.Me(p)).(entry := w.Me(p).entry,
                     pc := if w.c.platform == Windows then ListingBackups else ListingStages)
    ensures !ok ==> w.Me(p) == Stopped(old(w.Me(p)), old(w.Me(p)).todo).(entry := w.Me(p).entry)
    ensures w.mishaps >= old(w.mishaps) && (!ok ==> w.mishaps > old(w.mishaps) || !Hashable(w.disk))
  {
    ok := LookAgain(w, p);
    if ok {
      ok := PollFirst(w, p);
    }
  }

  /** Finds the target, and notes which file it is and whether it is visible. */
  method LookAgain(w: World, p: nat) returns (ok: bool)
    requires w.Holding(p) && w.Me(p).pc.Reresolving? && w.Me(p).fault == NoFault
    modifies w
    ensures w.Holding(p) && Continues(old(w.story), w.story)
    ensures ok ==> w.Me(p) == old(w.Me(p)).(pc := Polling, entry := w.Me(p).entry)
    ensures !ok ==> w.Me(p) == Stopped(old(w.Me(p)), old(w.Me(p)).todo)
    ensures w.mishaps >= old(w.mishaps) && (!ok ==> w.mishaps > old(w.mishaps) || !Hashable(w.disk))
  {
    StumbleBeforeArchive(w.Me(p));
    var there := w.Read(Target);
    ok := there.Some?;
    if !ok {
      w.Refuse(p);
      return;
    }
    w.Step(p, Nothing,
           w.Me(p).(pc := Polling, entry := Some(Sighting(w.disk.dir[Target], !there.value.hidden))));
  }

  /** Goes on to the sweeps, unless the caller has given up. */
  method PollFirst(w: World, p: nat) returns (ok: bool)
    requires w.Holding(p) && w.Me(p).pc.Polling? && w.Me(p).fault == NoFault
    modifies w
    ensures w.Holding(p) && Continues(old(w.story), w.story)
    ensures ok ==> w.Me(p) == old(w.Me(p)).(pc := if w.c.platform == Windows then ListingBackups else ListingStages)
                   && w.polls == old(w.polls) + 1
    ensures !ok ==> w.Me(p) == Stopped(old(w.Me(p)), old(w.Me(p)).todo)
    ensures w.mishaps >= old(w.mishaps) && (!ok ==> w.mishaps > old(w.mishaps))
  {
    StumbleBeforeArchive(w.Me(p));
    ok := w.Poll(p);
    if ok {
      w.Step(p, Nothing, w.Me(p).(pc := if w.c.platform == Windows then ListingBackups else ListingStages));
    }
  }

  /** The install after the sweeps and the first fingerprint, or stopped on the way. */
  function Prepared(q: Proc, ok: bool, q': Proc): Proc {
    q.(pc := if ok then CreatingArchive else Releasing, fault := if ok then NoFault else Failed,
       entry := q'.entry, todo := q'.todo, pending := q'.pending, perm := q'.perm)
  }

  method SweepAll(w: World, p: nat) returns (ok: bool, pending: bool)
    requires w.Holding(p) && w.Me(p).fault == NoFault && !w.Me(p).pending
    requires w.Me(p).pc == if w.c.platform == Windows then ListingBackups else ListingStages
    modifies w
    ensures w.Holding(p) && Continues(old(w.story), w.story)
    ensures ok ==> w.Me(p) == old(w.Me(p)).(pc := Fingerprinting, todo := {}, pending := pending)
    ensures !ok ==> w.Me(p) == Stopped(old(w.Me(p)).(pending := w.Me(p).pending), w.Me(p).todo)
    ensures w.mishaps >= old(w.mishaps) && (!ok || pending ==> w.mishaps > old(w.mishaps))
  {
    ok, pending := CleanupStaleBackups(w, p);
    if ok {
      ok := SweepTemporary(w, p);
    }
  }

  method SweepTemporary(w: World, p: nat) returns (ok: bool)
    requires w.Holding(p) && w.Me(p).fault == NoFault && w.Me(p).pc.ListingStages?
    modifies w
    ensures w.Holding(p) && Continues(old(w.story), w.story)
    ensures ok ==> w.Me(p) == old(w.Me(p)).(pc := Fingerprinting, todo := {})
    ensures !ok ==> w.Me(p) == Stopped(old(w.Me(p)), w.Me(p).todo)
    ensures w.mishaps >= old(w.mishaps) && (!ok ==> w.mishaps > old(w.mishaps))
  {
    ok := CleanupStaleFiles(w, p, StageFile);
    if ok {
      ok := CleanupStaleFiles(w, p, ArchiveFile);
    }
  }

  method PrepareTarget(w: World, p: nat, fingerprint: Bytes) returns (ok: bool, pending: bool, perm: nat)
    requires w.Holding(p) && w.Me(p).pc.Reresolving? && w.Me(p).fault == NoFault && !w.Me(p).pending
    requires w.Me(p).plan.fingerprint == fingerprint
    modifies w
    ensures w.Holding(p) && Continues(old(w.story), w.story)
    ensures w.Me(p) == Prepared(old(w.Me(p)), ok, w.Me(p))
    ensures ok ==> w.Me(p).pending == pending && w.Me(p).perm == perm
    ensures w.mishaps >= old(w.mishaps) && (pending ==> w.mishaps > old(w.mishaps))
    ensures !ok ==> w.mishaps > old(w.mishaps) || !Fits(w.c, w.disk, fingerprint)
  {
    pending, perm := false, 0;
    ok := Reresolve(w, p);
    if !ok {
      return;
    }
    ok, pending := SweepAll(w, p);
    if !ok {
      return;
    }
    var bits := Fingerprint(w, p, fingerprint);
    ok := bits.Some?;
    perm := if ok then bits.value else 0;
  }

  /*** From the download to the swap ***/

  /** Fingerprints once more, and swaps. */
  method CommitStage(w: World, p: nat, fingerprint: Bytes, archive: Name, stage: Name)
    returns (committed: bool, leftover: bool, fault: Fault)
    requires Filling(w, p, archive, stage) && w.Me(p).pc.Refingerprinting? && w.Me(p).plan.fingerprint == fingerprint
    requires archive.Owned? && archive.infix == ArchiveFile && stage.Owned? && stage.infix == StageFile
    requires !w.Me(p).committed && !w.Me(p).leftover
    modifies w
    ensures w.Holding(p) && Continues(old(w.story), w.story)
    ensures w.Me(p) == Replaced(old(w.Me(p)), w.Me(p).backup, committed, leftover, fault)
    ensures fault == NoFault ==> committed
    ensures w.mishaps >= old(w.mishaps)
    ensures committed && (fault != NoFault || leftover) ==> w.mishaps > old(w.mishaps)
    ensures !committed ==> w.mishaps > old(w.mishaps) || !Fits(w.c, w.disk, fingerprint)
  {
    var ok := Refingerprint(w, p, fingerprint, archive, stage);
    if !ok {
      return false, false, Failed;
    }
    leftover := false;
    if w.c.platform == Windows {
      committed, leftover, fault := ReplaceWindows(w, p, stage);
    } else {
      committed, fault := ReplaceUnix(w, p, stage);
    }
  }

  lemma StumbleBeforeSwap(q: Proc)
    requires q.fault == NoFault && (q.pc.Refingerprinting? || q.pc.LastPolling?)
    ensures Stumble(q) == q.(pc := RemovingStage, fault := Failed)
  {
  }

  /** The target must be the same still, and the caller must still want it. */
  method Refingerprint(w: World, p: nat, fingerprint: Bytes, archive: Name, stage: Name) returns (ok: bool)
    requires Filling(w, p, archive, stage) && w.Me(p).pc.Refingerprinting? && w.Me(p).plan.fingerprint == fingerprint
    requires archive.Owned? && archive.infix == ArchiveFile && stage.Owned? && stage.infix == StageFile
    requires !w.Me(p).committed && !w.Me(p).leftover
    modifies w
    ensures w.Holding(p) && Continues(old(w.story), w.story)
    ensures ok ==> AtSwap(w, p, stage)
                   && w.Me(p) == old(w.Me(p)).(pc := if w.c.platform == Windows then ChoosingBackup else Renaming)
                   && w.polls == old(w.polls) + 1
    ensures !ok ==> w.Me(p) == old(w.Me(p)).(pc := RemovingStage, fault := Failed)
    ensures w.mishaps >= old(w.mishaps) && (!ok ==> w.mishaps > old(w.mishaps) || !Fits(w.c, w.disk, fingerprint))
  {
    StumbleBeforeSwap(w.Me(p));
    var hashed := HashExecutable(w, p);
    if hashed.None? {
      return false;
    }
    if hashed.value.0 != fingerprint {
      w.Refuse(p);
      return false;
    }
    w.Step(p, Nothing, w.Me(p).(pc := LastPolling));
    StumbleBeforeSwap(w.Me(p));
    ok := w.Poll(p);
    if ok {
      w.Step(p, Nothing, w.Me(p).(pc := if w.c.platform == Windows then ChoosingBackup else Renaming));
    }
  }

  /** The install with its stage file gone, one way or the other. */
  function Concluded(q: Proc, backup: Option<Name>, committed: bool, leftover: bool, fault: Fault): Proc {
    q.(pc := RemovingArchive, stage := None, backup := backup, committed := committed, leftover := leftover,
       fault := fault)
  }

  /** The deferred removal of the stage file, unless it has become the target. */
  method RemoveStage(w: World, p: nat, stage: Name)
    requires w.Holding(p) && w.Me(p).pc.RemovingStage? && w.Me(p).stage == Some(stage) && w.Me(p).fault != NoFault
    modifies w
    ensures w.Holding(p) && Continues(old(w.story), w.story)
    ensures w.Me(p) == old(w.Me(p)).(pc := RemovingArchive, stage := None)
    ensures w.mishaps >= old(w.mishaps) && (w.disk == old(w.disk) || w.disk == old(w.disk).Remove(stage))
  {
    var removed := w.Remove(p, stage, Nothing, w.Me(p).(pc := RemovingArchive, stage := None));
  }

  /** What an install brings with it and asks for. */
  datatype Order = Order(plan: Plan, tools: Tools, cancelled: nat -> bool, response: Response)

  ghost predicate Deliverable(c: Config, order: Order) {
    Reads(c, order.tools) && Fitting(c.platform, order.plan.assetName)
  }

  /** The server sends what the plan pinned. */
  ghost predicate Sent(c: Config, order: Order) {
    Complete(order.response, MAX_ARCHIVE_BYTES) && c.hash(order.response.body) == order.plan.digest
  }

  /** What keeps an install from succeeding even when nothing goes wrong. */
  ghost predicate Excused(c: Config, d: Disk, order: Order) {
    || !Sent(c, order)
    || Barren(c, order.tools, order.plan.assetName, order.response.body, order.cancelled)
    || !Fits(c, d, order.plan.fingerprint)
  }

  lemma RemovalKeepsFit(c: Config, d: Disk, n: Name, fingerprint: Bytes)
    requires n != Target
    ensures Fits(c, d.Remove(n), fingerprint) <==> Fits(c, d, fingerprint)
  {
  }

  method StageAndCommit(w: World, p: nat, order: Order, perm: nat, archive: Name)
    returns (committed: bool, leftover: bool, fault: Fault)
    requires w.Holding(p) && w.Me(p).pc.CreatingStage? && w.Me(p).archive == Some(archive) && w.disk.Has(archive)
    requires w.disk.At(archive).content == order.response.body
    requires archive.Owned? && archive.infix == ArchiveFile && w.Me(p).fault == NoFault && w.Me(p).stage.None?
    requires !w.Me(p).committed && !w.Me(p).leftover && w.Me(p).perm == perm && w.Me(p).plan == order.plan
    requires Deliverable(w.c, order)
    modifies w
    ensures w.Holding(p) && Continues(old(w.story), w.story)
    ensures w.Me(p) == Concluded(old(w.Me(p)), w.Me(p).backup, committed, leftover, fault)
    ensures fault == NoFault ==> committed
    ensures w.mishaps >= old(w.mishaps)
    ensures committed && (fault != NoFault || leftover) ==> w.mishaps > old(w.mishaps)
    ensures !committed ==>
      || w.mishaps > old(w.mishaps)
      || Barren(w.c, order.tools, order.plan.assetName, order.response.body, order.cancelled)
      || !Fits(w.c, w.disk, order.plan.fingerprint)
  {
    var stage :=
      StageExecutable(
        w, p, order.tools, order.cancelled, order.plan.assetName, perm, archive, order.response.body);
    if stage.None? {
      return false, false, Failed;
    }
    committed, leftover, fault := CommitStage(w, p, order.plan.fingerprint, archive, stage.value);
    if !committed {
      RemovalKeepsFit(w.c, w.disk, stage.value, order.plan.fingerprint);
      RemoveStage(w, p, stage.value);
      leftover := false;
    }
  }

  lemma StumbleWithArchive(q: Proc)
    requires q.fault == NoFault && q.stage.None?
    requires q.pc.Downloading? || q.pc.SyncingArchive? || q.pc.CreatingStage?
    ensures Stumble(q) == Dropped(q)
  {
  }

  /** Downloads the archive and holds it against the plan's digest before anything reads it. */
  method FetchArchive(w: World, p: nat, order: Order, archive: Name) returns (ok: bool)
    requires Fetching(w, p, archive) && w.disk.At(archive).content == []
    requires w.Me(p).fault == NoFault && w.Me(p).stage.None? && w.Me(p).plan == order.plan
    modifies w
    ensures w.Holding(p) && Continues(old(w.story), w.story)
    ensures ok ==> w.disk.Has(archive) && w.Me(p) == old(w.Me(p)).(pc := CreatingStage)
    ensures !ok ==> w.Me(p) == Dropped(old(w.Me(p)))
    ensures w.mishaps >= old(w.mishaps) && (ok ==> w.disk.At(archive).content == order.response.body)
    ensures !ok ==> w.mishaps > old(w.mishaps) || !Sent(w.c, order)
  {
    StumbleWithArchive(w.Me(p));
    var digest, progress := DownloadToFile(w, p, order.response, MAX_ARCHIVE_BYTES, archive);
    if digest.None? {
      return false;
    }
    if digest.value != order.plan.digest {
      w.Refuse(p);
      return false;
    }
    ok := SyncArchive(w, p, archive);
  }

  /** The digest is right, so the archive is accepted, and brought to stable storage. */
  method SyncArchive(w: World, p: nat, archive: Name) returns (ok: bool)
    requires Fetching(w, p, archive) && w.Me(p).fault == NoFault && w.Me(p).stage.None?
    requires |w.disk.At(archive).content| <= MAX_ARCHIVE_BYTES
    requires w.c.hash(w.disk.At(archive).content) == w.Me(p).plan.digest
    modifies w
    ensures w.Holding(p) && Continues(old(w.story), w.story) && w.disk == old(w.disk)
    ensures w.Me(p) == if ok then old(w.Me(p)).(pc := CreatingStage) else Dropped(old(w.Me(p)))
    ensures w.mishaps >= old(w.mishaps) && (!ok ==> w.mishaps > old(w.mishaps))
  {
    w.Step(p, Nothing, w.Me(p).(pc := SyncingArchive));
    StumbleWithArchive(w.Me(p));
    ok := w.Look(p, Nothing, w.Me(p).(pc := CreatingStage));
  }

  method InstallFrom(w: World, p: nat, order: Order, perm: nat, archive: Name)
    returns (committed: bool, leftover: bool, fault: Fault)
    requires Fetching(w, p, archive) && w.disk.At(archive).content == []
    requires archive.Owned? && archive.infix == ArchiveFile && w.Me(p).fault == NoFault && w.Me(p).stage.None?
    requires !w.Me(p).committed && !w.Me(p).leftover && w.Me(p).perm == perm && w.Me(p).plan == order.plan
    requires Deliverable(w.c, order)
    modifies w
    ensures w.Holding(p) && Continues(old(w.story), w.story)
    ensures w.Me(p) == Concluded(old(w.Me(p)), w.Me(p).backup, committed, leftover, fault)
    ensures fault == NoFault ==> committed
    ensures w.mishaps >= old(w.mishaps)
    ensures committed && (fault != NoFault || leftover) ==> w.mishaps > old(w.mishaps)
    ensures !committed ==> w.mishaps > old(w.mishaps) || Excused(w.c, w.disk, order)
  {
    var ok := FetchArchive(w, p, order, archive);
    if !ok {
      return false, false, Failed;
    }
    StumbleWithArchive(w.Me(p));
    ok := w.Try(p);
    if !ok {
      return false, false, Failed;
    }
    committed, leftover, fault := StageAndCommit(w, p, order, perm, archive);
  }

  /*** Apply ***/

  /** The deferred close and removal of the archive. */
  method RemoveArchiveFile(w: World, p: nat, archive: Name, fault: Fault) returns (fault': Fault)
    requires w.Holding(p) && w.Me(p).pc.RemovingArchive? && w.Me(p).archive == Some(archive) && w.Me(p).fault == fault
    modifies w
    ensures w.Holding(p) && Continues(old(w.story), w.story)
    ensures w.Me(p) == old(w.Me(p)).(pc := Releasing, archive := None, fault := fault')
    ensures fault' == fault || fault' == Joined(fault, Failed)
    ensures w.mishaps >= old(w.mishaps) && (fault' != fault ==> w.mishaps > old(w.mishaps))
    ensures w.disk == old(w.disk) || w.disk == old(w.disk).Remove(archive)
  {
    var closed := w.Luck();
    var input := if closed then Nothing else CloseError;
    fault' := if closed then fault else Joined(fault, Failed);
    ArchiveRemoval(w.c, w.disk, w.Me(p), archive, input, fault');
    var removed := w.Remove(p, archive, input, w.Me(p).(pc := Releasing, archive := None, fault := fault'));
    fault' := if removed then fault' else Joined(fault, Failed);
  }

  lemma ArchiveRemoval(c: Config, d: Disk, q: Proc, archive: Name, input: Input, fault: Fault)
    requires q.pc.RemovingArchive? && q.archive == Some(archive)
    requires fault == if input.CloseError? then Joined(q.fault, Failed) else q.fault
    ensures Advance(c, d, q, input) == Some((d.Remove(archive), q.(pc := Releasing, archive := None, fault := fault)))
    ensures Stumble(q) == q.(pc := Releasing, archive := None, fault := Joined(q.fault, Failed))
  {
  }

  /** An install as it takes the lock. */
  predicate Fresh(q: Proc, plan: Plan) {
    && q.plan == plan && q.fault == NoFault && !q.pending && !q.committed && !q.leftover
    && q.stage.None? && q.archive.None?
  }

  /** Everything that happens under the lock. */
  method ApplyLocked(w: World, p: nat, order: Order) returns (result: Outcome)
    requires w.Holding(p) && w.Me(p).pc.Reresolving? && Fresh(w.Me(p), order.plan) && Deliverable(w.c, order)
    modifies w
    ensures w.Holding(p) && Continues(old(w.story), w.story)
    ensures w.Me(p).pc.Releasing? && w.Me(p).plan == order.plan && ResultOf(w.Me(p)) == result
    ensures w.mishaps >= old(w.mishaps)
    ensures result.committed && result != Outcome(true, false, NoFault) ==> w.mishaps > old(w.mishaps)
    ensures !result.committed ==> w.mishaps > old(w.mishaps) || Excused(w.c, w.disk, order)
  {
    var ok, pending, perm := PrepareTarget(w, p, order.plan.fingerprint);
    if !ok {
      return Outcome(false, false, Failed);
    }
    result := ApplyPrepared(w, p, order, perm, pending);
  }

  /** From the archive file to its removal. */
  method ApplyPrepared(w: World, p: nat, order: Order, perm: nat, pending: bool) returns (result: Outcome)
    requires w.Holding(p) && w.Me(p).pc.CreatingArchive? && Deliverable(w.c, order)
    requires w.Me(p).plan == order.plan && w.Me(p).fault == NoFault && w.Me(p).stage.None?
    requires !w.Me(p).committed && !w.Me(p).leftover && w.Me(p).perm == perm && w.Me(p).pending == pending
    modifies w
    ensures w.Holding(p) && Continues(old(w.story), w.story)
    ensures w.Me(p).pc.Releasing? && w.Me(p).plan == order.plan && ResultOf(w.Me(p)) == result
    ensures w.mishaps >= old(w.mishaps)
    ensures result.committed && result != Outcome(true, pending, NoFault) ==> w.mishaps > old(w.mishaps)
    ensures !result.committed ==> w.mishaps > old(w.mishaps) || Excused(w.c, w.disk, order)
  {
    StumbleBeforeArchive(w.Me(p));
    var archive := CreateRandomFile(w, p, ArchiveFile);
    if archive.None? {
      return Outcome(false, false, Failed);
    }
    var committed, leftover, fault := InstallFrom(w, p, order, perm, archive.value);
    RemovalKeepsFit(w.c, w.disk, archive.value, order.plan.fingerprint);
    fault := RemoveArchiveFile(w, p, archive.value, fault);
    return Outcome(committed, committed && (pending || leftover), fault);
  }

  lemma NewcomersAreFresh(c: Config, run: seq<State>, i: nat, p: nat)
    requires Run(c, run) && i < |run| && p in run[i].procs && !HoldsLock(run[i].procs[p].pc)
    ensures Fresh(run[i].procs[p], run[i].procs[p].plan)
  {
    RunInv(c, run, i);
    assert ProcOk(run[i], p);
  }

  /** The account of a finished install: it did nothing, or it is honest about all that happened since it looked. */
  ghost predicate Accounted(c: Config, run: seq<State>, p: nat, plan: Plan, r: Outcome)
    requires |run| > 0
  {
    var s := run[|run| - 1];
    || (r == Outcome(false, false, Failed) && !HasCommit(s.history, p))
    || exists j: nat :: j + 1 < |run| && Looks(run, j, p)
         && Honest(c, p, plan, r, run[j].disk, run[j].history, s.disk, s.history)
  }

  /** What is installed is what the plan promised. */
  ghost predicate Delivered(c: Config, s: State, plan: Plan) {
    && |s.history| > 0
    && var e := s.history[|s.history| - 1];
    && Justified(c, s, e) && e.plan == plan && s.disk.Has(Target) && s.disk.At(Target).content == e.after
  }

  lemma Account(c: Config, run: seq<State>, p: nat, plan: Plan)
    requires Run(c, run) && |run| >= 2 && Returned(run[|run| - 2], run[|run| - 1], p)
    requires run[|run| - 2].procs[p].plan == plan
    ensures Accounted(c, run, p, plan, run[|run| - 1].results[p])
  {
    EveryOutcomeIsHonest(c, run, |run| - 2, p);
  }

  lemma HonestMeansDelivered(
    c: Config, s: State, p: nat, plan: Plan, r: Outcome, d: Disk, h: seq<Event>)
    requires Inv(c, s) && Honest(c, p, plan, r, d, h, s.disk, s.history) && r.committed
    ensures Delivered(c, s, plan)
  {
    CommitIsJust(c, s, |s.history| - 1);
  }

  lemma Delivery(c: Config, run: seq<State>, i: nat, p: nat, plan: Plan, r: Outcome, d: Disk, h: seq<Event>)
    requires Run(c, run) && i < |run| && Honest(c, p, plan, r, d, h, run[i].disk, run[i].history) && r.committed
    ensures Delivered(c, run[i], plan)
  {
    RunInv(c, run, i);
    HonestMeansDelivered(c, run[i], p, plan, r, d, h);
  }

  lemma AccountedIsDelivered(c: Config, run: seq<State>, p: nat, plan: Plan, r: Outcome)
    requires Run(c, run) && Accounted(c, run, p, plan, r) && r.committed
    ensures Delivered(c, run[|run| - 1], plan)
  {
    var i := |run| - 1;
    var j: nat :| j + 1 < |run| && Looks(run, j, p)
                  && Honest(c, p, plan, r, run[j].disk, run[j].history, run[i].disk, run[i].history);
    Delivery(c, run, i, p, plan, r, run[j].disk, run[j].history);
  }

  /** Nothing is left of an install, but perhaps a backup that the outcome mentions. */
  ghost predicate LeftTidy(c: Config, d: Disk, r: Outcome) {
    && NoneLeft(d, StageFile) && NoneLeft(d, ArchiveFile)
    && (c.platform == Windows && !r.cleanupPending ==> NoneLeft(d, BackupFile))
  }

  /** What an install that returned r owes to its caller. */
  ghost predicate Kept(c: Config, run: seq<State>, p: nat, plan: Plan, r: Outcome)
    requires |run| > 0
  {
    && Accounted(c, run, p, plan, r)
    && (r.committed ==> Delivered(c, run[|run| - 1], plan))
    && (r.fault == NoFault ==> r.committed && LeftTidy(c, run[|run| - 1].disk, r))
  }

  lemma PromisesAreKept(c: Config, run: seq<State>, p: nat, plan: Plan)
    requires Run(c, run) && |run| >= 2 && Returned(run[|run| - 2], run[|run| - 1], p)
    requires run[|run| - 2].procs[p].plan == plan
    ensures Kept(c, run, p, plan, run[|run| - 1].results[p])
  {
    var r := run[|run| - 1].results[p];
    Account(c, run, p, plan);
    if r.committed {
      AccountedIsDelivered(c, run, p, plan, r);
    }
    if r.fault == NoFault {
      FaultlessIsTidy(c, run, p);
    }
  }

  lemma FaultlessIsTidy(c: Config, run: seq<State>, p: nat)
    requires Run(c, run) && |run| >= 2 && Returned(run[|run| - 2], run[|run| - 1], p)
    requires run[|run| - 1].results[p].fault == NoFault
    ensures run[|run| - 1].results[p].committed && LeftTidy(c, run[|run| - 1].disk, run[|run| - 1].results[p])
  {
    CleanFinish(c, run, |run| - 2, p);
  }

  /** An install begins, finds the target and gets the lock, or returns without having done anything. */
  method Enter(w: World, plan: Plan, patience: nat) returns (ok: bool, p: nat)
    requires w.Valid() && plan in w.Now().plans && Admits(plan.updater, plan)
    modifies w
    ensures Continues(old(w.story), w.story) && p == old(w.born)
    ensures if ok then w.Holding(p) && w.Me(p).pc.Reresolving? && Fresh(w.Me(p), plan)
            else w.Returns(p, plan, Outcome(false, false, Failed))
    ensures w.mishaps >= old(w.mishaps) && (!ok ==> w.mishaps > old(w.mishaps) || !Hashable(w.disk))
  {
    p := w.Begin(plan);
    NewcomersAreFresh(w.c, w.story.run, |w.story.run| - 1, p);
    ok := w.Resolve(p);
    if ok {
      ok := AcquireFileLock(w, p, patience);
    }
  }

  /** From the beginning to the return, whatever fails. */
  method ApplyPlan(w: World, order: Order, patience: nat) returns (result: Outcome, p: nat)
    requires w.Valid() && order.plan in w.Now().plans && Deliverable(w.c, order)
    requires Admits(order.plan.updater, order.plan)
    modifies w
    ensures Continues(old(w.story), w.story) && p == old(w.born) && w.Returns(p, order.plan, result)
    ensures result.committed && result != Outcome(true, false, NoFault) ==> w.mishaps > old(w.mishaps)
    ensures !result.committed ==> w.mishaps > old(w.mishaps) || Excused(w.c, w.disk, order)
  {
    var ok;
    ok, p := Enter(w, order.plan, patience);
    if !ok {
      return Outcome(false, false, Failed), p;
    }
    result := ApplyLocked(w, p, order);
    ok := w.Unlock(p);
    if !ok {
      result := result.(fault := Joined(result.fault, Failed));
    }
  }

  /** The gates in the order of the source: nothing is touched before all of them are passed. */
  method CheckGates(u: Updater, plan: Plan) returns (ok: bool)
    ensures ok <==> Admits(u, plan)
  {
    if plan.updater != u {
      return false;
    }
    if !IsStable(u.currentVersion) || !plan.comparable {
      return false;
    }
    if !IsStable(plan.availableVersion) {
      return false;
    }
    var newer := plan.updateAvailable && Compare(u.currentVersion, plan.availableVersion) < 0;
    if !newer && !(plan.targeted && u.allowDowngrade) {
      return false;
    }
    return u.workflow == "" || (plan.provenance.Some? && Matches(plan.provenance.value, u, plan));
  }

  lemma GatesAreRight(story: Story, u: Updater, plan: Plan)
    requires plan in story.now.plans
    ensures Admits(u, plan) <==> Permitted(u, plan)
  {
    OnlyPermittedPlansPass(story.c, story.run, |story.run| - 1, u, plan);
  }

  /**
   Verifies and installs what the plan describes. A plan that does not pass the gates changes nothing. Otherwise the
   outcome is honest, a commit delivers what the plan promised, and without an error nothing is left behind. And it
   succeeds unless something goes wrong or there is an excuse.
   */
  method Apply(w: World, u: Updater, order: Order, patience: nat) returns (result: Outcome)
    requires w.Valid() && order.plan in w.Now().plans && Deliverable(w.c, order)
    modifies w
    ensures Continues(old(w.story), w.story) && w.Valid()
    ensures !Permitted(u, order.plan) ==>
      result == Outcome(false, false, Failed) && w.story == old(w.story) && w.disk == old(w.disk)
    ensures Permitted(u, order.plan) ==>
      w.Returns(old(w.born), order.plan, result) && Kept(w.c, w.story.run, old(w.born), order.plan, result)
    ensures result.committed && result != Outcome(true, false, NoFault) ==> w.mishaps > old(w.mishaps)
    ensures Permitted(u, order.plan) && !result.committed ==>
      w.mishaps > old(w.mishaps) || Excused(w.c, w.disk, order)
  {
    GatesAreRight(w.story, u, order.plan);
    var admitted := CheckGates(u, order.plan);
    if !admitted {
      return Outcome(false, false, Failed);
    }
    var p;
    result, p := ApplyPlan(w, order, patience);
    PromisesAreKept(w.c, w.story.run, p, order.plan);
  }
}
