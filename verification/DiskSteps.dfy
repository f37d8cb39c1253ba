/** Every step keeps the disk safe: the last program survives, and on Unix so does power failure. */
module DiskSteps {
  import opened Basics
  import opened Machine
  import opened Invariant
  import opened HolderSteps

  predicate IsCommit(pc: Pc) { pc.Renaming? || pc.MovingIn? }

  lemma PrepareKeeps(c: Config, d: Disk, q: Proc, last: Bytes, d': Disk, q': Proc)
    requires Held(c, d, q, last) && Prepare(c, d, q) == Some((d', q'))
    ensures d'.Sound() && Holder(c, d', q', last)
  {
    match q.pc
    case Reresolving => KeepsReresolving(c, d, q, last, d', q');
    case Polling => KeepsPolling(c, d, q, last, d', q');
    case ListingBackups => KeepsListingBackups(c, d, q, last, d', q');
    case SweepingBackups => KeepsSweepingBackups(c, d, q, last, d', q');
    case ListingStages => KeepsListingStages(c, d, q, last, d', q');
    case SweepingStages => KeepsSweepingStages(c, d, q, last, d', q');
    case ListingArchives => KeepsListingArchives(c, d, q, last, d', q');
    case SweepingArchives => KeepsSweepingArchives(c, d, q, last, d', q');
    case Fingerprinting => KeepsFingerprinting(c, d, q, last, d', q');
    case _ =>
  }

  lemma PrestageKeeps(c: Config, d: Disk, q: Proc, input: Input, last: Bytes, d': Disk, q': Proc)
    requires Held(c, d, q, last) && Prestage(c, d, q, input) == Some((d', q'))
    ensures d'.Sound() && Holder(c, d', q', last)
  {
    match q.pc
    case CreatingArchive => KeepsCreatingArchive(c, d, q, input, last, d', q');
    case Downloading => KeepsDownloading(c, d, q, input, last, d', q');
    case SyncingArchive => KeepsSyncingArchive(c, d, q, input, last, d', q');
    case CreatingStage => KeepsCreatingStage(c, d, q, input, last, d', q');
    case Extracting => KeepsExtracting(c, d, q, input, last, d', q');
    case SyncingStage => KeepsSyncingStage(c, d, q, input, last, d', q');
    case Chmodding => KeepsChmodding(c, d, q, input, last, d', q');
    case SyncingDirectory => KeepsSyncingDirectory(c, d, q, input, last, d', q');
    case Refingerprinting => KeepsRefingerprinting(c, d, q, input, last, d', q');
    case LastPolling => KeepsLastPolling(c, d, q, input, last, d', q');
    case _ =>
  }

  /** The last program after a call: the staged one if the call was the commit. */
  function LastAfter(d: Disk, q: Proc, last: Bytes): Bytes {
    if IsCommit(q.pc) && Present(d, q.stage) then d.At(q.stage.value).content else last
  }

  lemma ReplaceKeeps(c: Config, d: Disk, q: Proc, input: Input, last: Bytes, d': Disk, q': Proc)
    requires Held(c, d, q, last) && Replace(c, d, q, input) == Some((d', q'))
    ensures d'.Sound() && Holder(c, d', q', LastAfter(d, q, last))
  {
    match q.pc
    case Renaming => KeepsRenaming(c, d, q, input, last, d', q');
    case SyncingCommit => KeepsSyncingCommit(c, d, q, input, last, d', q');
    case ChoosingBackup => KeepsChoosingBackup(c, d, q, input, last, d', q');
    case MovingAside => KeepsMovingAside(c, d, q, input, last, d', q');
    case Hiding => KeepsHiding(c, d, q, input, last, d', q');
    case MovingIn => KeepsMovingIn(c, d, q, input, last, d', q');
    case Restoring => KeepsRestoring(c, d, q, input, last, d', q');
    case Unhiding => KeepsUnhiding(c, d, q, input, last, d', q');
    case _ =>
  }

  lemma TidyKeeps(c: Config, d: Disk, q: Proc, input: Input, last: Bytes, d': Disk, q': Proc)
    requires Held(c, d, q, last) && Tidy(d, q, input) == Some((d', q'))
    ensures d'.Sound() && Holder(c, d', q', last)
  {
    match q.pc
    case DroppingStage => KeepsDroppingStage(c, d, q, input, last, d', q');
    case RemovingStage => KeepsRemovingStage(c, d, q, input, last, d', q');
    case RemovingArchive => KeepsRemovingArchive(c, d, q, input, last, d', q');
    case _ =>
  }

  lemma AdvanceKeeps(c: Config, d: Disk, q: Proc, input: Input, last: Bytes, d': Disk, q': Proc)
    requires Held(c, d, q, last) && Advance(c, d, q, input) == Some((d', q'))
    ensures d'.Sound() && Holder(c, d', q', LastAfter(d, q, last))
  {
    if Prepare(c, d, q) == Some((d', q')) && Rank(q.pc) <= 11 {
      PrepareKeeps(c, d, q, last, d', q');
    } else if Prestage(c, d, q, input) == Some((d', q')) && Rank(q.pc) <= 21 {
      PrestageKeeps(c, d, q, input, last, d', q');
    } else if Tidy(d, q, input) == Some((d', q')) && 32 <= Rank(q.pc) <= 40 {
      TidyKeeps(c, d, q, input, last, d', q');
    } else {
      ReplaceKeeps(c, d, q, input, last, d', q');
    }
  }

  lemma StumbleKeeps(c: Config, d: Disk, q: Proc, last: Bytes)
    requires Holder(c, d, q, last) && !q.pc.Releasing?
    ensures Holder(c, d, Stumble(q), last)
  {
    match q.pc
    case Downloading | SyncingArchive | CreatingStage => StumbleKeepsWithArchive(c, d, q, last);
    case Extracting | SyncingStage | Chmodding | SyncingDirectory => StumbleKeepsWithStage(c, d, q, last);
    case Refingerprinting | LastPolling | Renaming => StumbleKeepsBeforeReplace(c, d, q, last);
    case ChoosingBackup | MovingAside => StumbleKeepsBeforeMove(c, d, q, last);
    case Hiding | MovingIn => StumbleKeepsReplacing(c, d, q, last);
    case SyncingCommit | RemovingBackup => StumbleKeepsPastCommit(c, d, q, last);
    case Restoring | Unhiding => StumbleKeepsRestoring(c, d, q, last);
    case DroppingStage | RemovingStage => StumbleKeepsRemoving(c, d, q, last);
    case RemovingArchive => StumbleKeepsArchive(c, d, q, last);
    case _ => StumbleKeepsBeforeArchive(c, d, q, last);
  }

  lemma SweepKeeps(c: Config, d: Disk, q: Proc, n: Name, how: Sweep, last: Bytes, d': Disk, q': Proc)
    requires Held(c, d, q, last) && Sweeping(d, q, n, how) == Some((d', q'))
    ensures d'.Sound() && Holder(c, d', q', last)
  {
    match how
    case Removed =>
      if q.pc.RemovingBackup? {
        KeepsBackupGone(c, d, q, n, last);
      } else {
        KeepsSwept(c, d, q, n, last);
      }
    case Pending =>
      if q.pc.RemovingBackup? {
        KeepsBackupLeft(c, d, q, last);
      } else {
        KeepsPostponed(c, d, q, n, last);
      }
    case Cleared => KeepsCleared(c, d, q, n, last);
  }

  lemma ReceiveKeeps(c: Config, d: Disk, q: Proc, bytes: Bytes, last: Bytes, d': Disk)
    requires Held(c, d, q, last) && Receiving(d, q, bytes) == Some(d')
    ensures d'.Sound() && Holder(c, d', q, last)
  {
    if q.pc.Downloading? {
      KeepsDownloadedBytes(c, d, q, bytes, last, d');
    } else {
      KeepsExtractedBytes(c, d, q, bytes, last, d');
    }
  }

  /*** Safety follows from what the holder knows ***/

  lemma HolderIsSafe(c: Config, d: Disk, q: Proc, last: Bytes)
    requires Holder(c, d, q, last) && d.Sound() && q.entry.Some?
    ensures Safe(c, d, last)
  {
    if Target !in d.dir {
      assert IsCopy(d, q.backup.value, last);
    }
  }

  /** An install that has no sighting of the target yet, or never got one, has not touched the disk. */
  lemma EntryStays(c: Config, d: Disk, q: Proc, input: Input, d': Disk, q': Proc)
    requires Shape(c, q) && Advance(c, d, q, input) == Some((d', q')) && HoldsLock(q.pc)
    ensures q'.entry.Some?
  {
  }
}
