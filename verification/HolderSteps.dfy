/** Every call of the lock holder, successful or failed, keeps what is known about the holder. One call a lemma. */
module HolderSteps {
  import opened Basics
  import opened Machine
  import opened Invariant

  /** The install q holds the lock, and the target, if there, is the last program installed. */
  ghost predicate Held(c: Config, d: Disk, q: Proc, last: Bytes) {
    d.Sound() && Holder(c, d, q, last) && (d.Has(Target) ==> d.At(Target).content == last)
  }

  /*** Success ***/

  lemma KeepsReresolving(c: Config, d: Disk, q: Proc, last: Bytes, d': Disk, q': Proc)
    requires q.pc.Reresolving? && Held(c, d, q, last) && Prepare(c, d, q) == Some((d', q'))
    ensures d'.Sound() && Holder(c, d', q', last)
  {
  }

  lemma KeepsPolling(c: Config, d: Disk, q: Proc, last: Bytes, d': Disk, q': Proc)
    requires q.pc.Polling? && Held(c, d, q, last) && Prepare(c, d, q) == Some((d', q'))
    ensures d'.Sound() && Holder(c, d', q', last)
  {
  }

  lemma KeepsListingBackups(c: Config, d: Disk, q: Proc, last: Bytes, d': Disk, q': Proc)
    requires q.pc.ListingBackups? && Held(c, d, q, last) && Prepare(c, d, q) == Some((d', q'))
    ensures d'.Sound() && Holder(c, d', q', last)
  {
  }

  lemma KeepsSweepingBackups(c: Config, d: Disk, q: Proc, last: Bytes, d': Disk, q': Proc)
    requires q.pc.SweepingBackups? && Held(c, d, q, last) && Prepare(c, d, q) == Some((d', q'))
    ensures d'.Sound() && Holder(c, d', q', last)
  {
  }

  lemma KeepsListingStages(c: Config, d: Disk, q: Proc, last: Bytes, d': Disk, q': Proc)
    requires q.pc.ListingStages? && Held(c, d, q, last) && Prepare(c, d, q) == Some((d', q'))
    ensures d'.Sound() && Holder(c, d', q', last)
  {
  }

  lemma KeepsSweepingStages(c: Config, d: Disk, q: Proc, last: Bytes, d': Disk, q': Proc)
    requires q.pc.SweepingStages? && Held(c, d, q, last) && Prepare(c, d, q) == Some((d', q'))
    ensures d'.Sound() && Holder(c, d', q', last)
  {
  }

  lemma KeepsListingArchives(c: Config, d: Disk, q: Proc, last: Bytes, d': Disk, q': Proc)
    requires q.pc.ListingArchives? && Held(c, d, q, last) && Prepare(c, d, q) == Some((d', q'))
    ensures d'.Sound() && Holder(c, d', q', last)
  {
  }

  lemma KeepsSweepingArchives(c: Config, d: Disk, q: Proc, last: Bytes, d': Disk, q': Proc)
    requires q.pc.SweepingArchives? && Held(c, d, q, last) && Prepare(c, d, q) == Some((d', q'))
    ensures d'.Sound() && Holder(c, d', q', last)
  {
  }

  lemma KeepsFingerprinting(c: Config, d: Disk, q: Proc, last: Bytes, d': Disk, q': Proc)
    requires q.pc.Fingerprinting? && Held(c, d, q, last) && Prepare(c, d, q) == Some((d', q'))
    ensures d'.Sound() && Holder(c, d', q', last)
  {
  }

  lemma KeepsCreatingArchive(c: Config, d: Disk, q: Proc, input: Input, last: Bytes, d': Disk, q': Proc)
    requires q.pc.CreatingArchive? && Held(c, d, q, last) && Prestage(c, d, q, input) == Some((d', q'))
    ensures d'.Sound() && Holder(c, d', q', last)
  {
  }

  lemma KeepsDownloading(c: Config, d: Disk, q: Proc, input: Input, last: Bytes, d': Disk, q': Proc)
    requires q.pc.Downloading? && Held(c, d, q, last) && Prestage(c, d, q, input) == Some((d', q'))
    ensures d'.Sound() && Holder(c, d', q', last)
  {
  }

  lemma KeepsSyncingArchive(c: Config, d: Disk, q: Proc, input: Input, last: Bytes, d': Disk, q': Proc)
    requires q.pc.SyncingArchive? && Held(c, d, q, last) && Prestage(c, d, q, input) == Some((d', q'))
    ensures d'.Sound() && Holder(c, d', q', last)
  {
  }

  lemma KeepsCreatingStage(c: Config, d: Disk, q: Proc, input: Input, last: Bytes, d': Disk, q': Proc)
    requires q.pc.CreatingStage? && Held(c, d, q, last) && Prestage(c, d, q, input) == Some((d', q'))
    ensures d'.Sound() && Holder(c, d', q', last)
  {
  }

  lemma KeepsExtracting(c: Config, d: Disk, q: Proc, input: Input, last: Bytes, d': Disk, q': Proc)
    requires q.pc.Extracting? && Held(c, d, q, last) && Prestage(c, d, q, input) == Some((d', q'))
    ensures d'.Sound() && Holder(c, d', q', last)
  {
  }

  lemma SyncingStageKeepsClean(c: Config, d: Disk, q: Proc, input: Input, d': Disk, q': Proc)
    requires q.pc.SyncingStage? && d.Sound() && Shape(c, q) && Clean(d, q) && CleanOfBackups(c, d, q)
    requires Prestage(c, d, q, input) == Some((d', q'))
    ensures Clean(d', q') && CleanOfBackups(c, d', q')
  {
  }

  lemma KeepsSyncingStage(c: Config, d: Disk, q: Proc, input: Input, last: Bytes, d': Disk, q': Proc)
    requires q.pc.SyncingStage? && Held(c, d, q, last) && Prestage(c, d, q, input) == Some((d', q'))
    ensures d'.Sound() && Holder(c, d', q', last)
  {
    SyncingStageKeepsClean(c, d, q, input, d', q');
  }

  lemma ChmoddingKeepsClean(c: Config, d: Disk, q: Proc, input: Input, d': Disk, q': Proc)
    requires q.pc.Chmodding? && d.Sound() && Shape(c, q) && Clean(d, q) && CleanOfBackups(c, d, q)
    requires Prestage(c, d, q, input) == Some((d', q'))
    ensures Clean(d', q') && CleanOfBackups(c, d', q')
  {
  }

  lemma KeepsChmodding(c: Config, d: Disk, q: Proc, input: Input, last: Bytes, d': Disk, q': Proc)
    requires q.pc.Chmodding? && Held(c, d, q, last) && Prestage(c, d, q, input) == Some((d', q'))
    ensures d'.Sound() && Holder(c, d', q', last)
  {
    ChmoddingKeepsClean(c, d, q, input, d', q');
  }

  lemma SyncingDirectoryKeepsClean(c: Config, d: Disk, q: Proc, input: Input, d': Disk, q': Proc)
    requires q.pc.SyncingDirectory? && d.Sound() && Shape(c, q) && Clean(d, q) && CleanOfBackups(c, d, q)
    requires Prestage(c, d, q, input) == Some((d', q'))
    ensures Clean(d', q') && CleanOfBackups(c, d', q')
  {
  }

  lemma KeepsSyncingDirectory(c: Config, d: Disk, q: Proc, input: Input, last: Bytes, d': Disk, q': Proc)
    requires q.pc.SyncingDirectory? && Held(c, d, q, last) && Prestage(c, d, q, input) == Some((d', q'))
    ensures d'.Sound() && Holder(c, d', q', last)
  {
    SyncingDirectoryKeepsClean(c, d, q, input, d', q');
  }

  lemma KeepsRefingerprinting(c: Config, d: Disk, q: Proc, input: Input, last: Bytes, d': Disk, q': Proc)
    requires q.pc.Refingerprinting? && Held(c, d, q, last) && Prestage(c, d, q, input) == Some((d', q'))
    ensures d'.Sound() && Holder(c, d', q', last)
  {
  }

  lemma KeepsLastPolling(c: Config, d: Disk, q: Proc, input: Input, last: Bytes, d': Disk, q': Proc)
    requires q.pc.LastPolling? && Held(c, d, q, last) && Prestage(c, d, q, input) == Some((d', q'))
    ensures d'.Sound() && Holder(c, d', q', last)
  {
  }

  lemma KeepsSyncingCommit(c: Config, d: Disk, q: Proc, input: Input, last: Bytes, d': Disk, q': Proc)
    requires q.pc.SyncingCommit? && Held(c, d, q, last) && Replace(c, d, q, input) == Some((d', q'))
    ensures d'.Sound() && Holder(c, d', q', last)
  {
  }

  lemma KeepsChoosingBackup(c: Config, d: Disk, q: Proc, input: Input, last: Bytes, d': Disk, q': Proc)
    requires q.pc.ChoosingBackup? && Held(c, d, q, last) && Replace(c, d, q, input) == Some((d', q'))
    ensures d'.Sound() && Holder(c, d', q', last)
  {
  }

  lemma MovingAsideKeepsClean(c: Config, d: Disk, q: Proc, input: Input, d': Disk, q': Proc)
    requires q.pc.MovingAside? && d.Sound() && Shape(c, q) && Clean(d, q) && CleanOfBackups(c, d, q)
    requires Replace(c, d, q, input) == Some((d', q'))
    ensures Clean(d', q') && CleanOfBackups(c, d', q')
  {
  }

  lemma KeepsMovingAside(c: Config, d: Disk, q: Proc, input: Input, last: Bytes, d': Disk, q': Proc)
    requires q.pc.MovingAside? && Held(c, d, q, last) && Replace(c, d, q, input) == Some((d', q'))
    ensures d'.Sound() && Holder(c, d', q', last)
  {
    MovingAsideKeepsClean(c, d, q, input, d', q');
  }

  lemma HidingKeepsClean(c: Config, d: Disk, q: Proc, input: Input, d': Disk, q': Proc)
    requires q.pc.Hiding? && d.Sound() && Shape(c, q) && Clean(d, q) && CleanOfBackups(c, d, q)
    requires Replace(c, d, q, input) == Some((d', q'))
    ensures Clean(d', q') && CleanOfBackups(c, d', q')
  {
  }

  lemma KeepsHiding(c: Config, d: Disk, q: Proc, input: Input, last: Bytes, d': Disk, q': Proc)
    requires q.pc.Hiding? && Held(c, d, q, last) && Replace(c, d, q, input) == Some((d', q'))
    ensures d'.Sound() && Holder(c, d', q', last)
  {
    HidingKeepsClean(c, d, q, input, d', q');
  }

  lemma KeepsRestoring(c: Config, d: Disk, q: Proc, input: Input, last: Bytes, d': Disk, q': Proc)
    requires q.pc.Restoring? && Held(c, d, q, last) && Replace(c, d, q, input) == Some((d', q'))
    ensures d'.Sound() && Holder(c, d', q', last)
  {
  }

  lemma KeepsUnhiding(c: Config, d: Disk, q: Proc, input: Input, last: Bytes, d': Disk, q': Proc)
    requires q.pc.Unhiding? && Held(c, d, q, last) && Replace(c, d, q, input) == Some((d', q'))
    ensures d'.Sound() && Holder(c, d', q', last)
  {
  }

  lemma KeepsDroppingStage(c: Config, d: Disk, q: Proc, input: Input, last: Bytes, d': Disk, q': Proc)
    requires q.pc.DroppingStage? && Held(c, d, q, last) && Tidy(d, q, input) == Some((d', q'))
    ensures d'.Sound() && Holder(c, d', q', last)
  {
  }

  lemma KeepsRemovingStage(c: Config, d: Disk, q: Proc, input: Input, last: Bytes, d': Disk, q': Proc)
    requires q.pc.RemovingStage? && Held(c, d, q, last) && Tidy(d, q, input) == Some((d', q'))
    ensures d'.Sound() && Holder(c, d', q', last)
  {
  }

  lemma KeepsRemovingArchive(c: Config, d: Disk, q: Proc, input: Input, last: Bytes, d': Disk, q': Proc)
    requires q.pc.RemovingArchive? && Held(c, d, q, last) && Tidy(d, q, input) == Some((d', q'))
    ensures d'.Sound() && Holder(c, d', q', last)
  {
  }

  /*** Failure ***/

  lemma StumbleKeepsBeforeArchive(c: Config, d: Disk, q: Proc, last: Bytes)
    requires 3 <= Rank(q.pc) <= 12
    requires Shape(c, q) && Home(d, q, last)
    ensures Holder(c, d, Stumble(q), last)
  {
  }

  lemma StumbleKeepsWithArchive(c: Config, d: Disk, q: Proc, last: Bytes)
    requires (q.pc.Downloading? || q.pc.SyncingArchive? || q.pc.CreatingStage?)
    requires Shape(c, q) && Home(d, q, last)
    ensures Holder(c, d, Stumble(q), last)
  {
  }

  lemma StumbleKeepsWithStage(c: Config, d: Disk, q: Proc, last: Bytes)
    requires (q.pc.Extracting? || q.pc.SyncingStage? || q.pc.Chmodding? || q.pc.SyncingDirectory?)
    requires Shape(c, q) && Home(d, q, last)
    ensures Holder(c, d, Stumble(q), last)
  {
  }

  lemma StumbleKeepsBeforeReplace(c: Config, d: Disk, q: Proc, last: Bytes)
    requires q.pc.Refingerprinting? || q.pc.LastPolling? || q.pc.Renaming?
    requires Shape(c, q) && Home(d, q, last)
    ensures Holder(c, d, Stumble(q), last)
  {
  }

  lemma StumbleKeepsBeforeMove(c: Config, d: Disk, q: Proc, last: Bytes)
    requires q.pc.ChoosingBackup? || q.pc.MovingAside?
    requires Shape(c, q) && Home(d, q, last)
    ensures Holder(c, d, Stumble(q), last)
  {
  }

  lemma StumbleKeepsReplacing(c: Config, d: Disk, q: Proc, last: Bytes)
    requires (q.pc.Hiding? || q.pc.MovingIn?)
    requires Shape(c, q) && Home(d, q, last)
    ensures Holder(c, d, Stumble(q), last)
  {
  }

  lemma StumbleKeepsPastCommit(c: Config, d: Disk, q: Proc, last: Bytes)
    requires (q.pc.SyncingCommit? || q.pc.RemovingBackup?)
    requires Shape(c, q) && Home(d, q, last)
    ensures Holder(c, d, Stumble(q), last)
  {
  }

  lemma StumbleKeepsRestoring(c: Config, d: Disk, q: Proc, last: Bytes)
    requires (q.pc.Restoring? || q.pc.Unhiding?)
    requires Shape(c, q) && Home(d, q, last)
    ensures Holder(c, d, Stumble(q), last)
  {
  }

  lemma StumbleKeepsRemoving(c: Config, d: Disk, q: Proc, last: Bytes)
    requires (q.pc.DroppingStage? || q.pc.RemovingStage?)
    requires Shape(c, q) && Home(d, q, last)
    ensures Holder(c, d, Stumble(q), last)
  {
  }

  lemma StumbleKeepsArchive(c: Config, d: Disk, q: Proc, last: Bytes)
    requires q.pc.RemovingArchive?
    requires Shape(c, q) && Home(d, q, last)
    ensures Holder(c, d, Stumble(q), last)
  {
  }

  /*** The commit: the staged content becomes the last one ***/

  lemma KeepsRenaming(c: Config, d: Disk, q: Proc, input: Input, last: Bytes, d': Disk, q': Proc)
    requires q.pc.Renaming? && Held(c, d, q, last) && Replace(c, d, q, input) == Some((d', q'))
    ensures d'.Sound() && Holder(c, d', q', d.At(q.stage.value).content)
  {
  }

  lemma MovingInKeepsClean(c: Config, d: Disk, q: Proc, input: Input, d': Disk, q': Proc)
    requires q.pc.MovingIn? && d.Sound() && Shape(c, q) && Clean(d, q) && CleanOfBackups(c, d, q)
    requires Replace(c, d, q, input) == Some((d', q'))
    ensures Clean(d', q') && CleanOfBackups(c, d', q')
  {
  }

  lemma KeepsMovingIn(c: Config, d: Disk, q: Proc, input: Input, last: Bytes, d': Disk, q': Proc)
    requires q.pc.MovingIn? && Held(c, d, q, last) && Replace(c, d, q, input) == Some((d', q'))
    ensures d'.Sound() && Holder(c, d', q', d.At(q.stage.value).content)
  {
    MovingInKeepsClean(c, d, q, input, d', q');
  }

  /*** Sweeps ***/

  predicate IsSweep(pc: Pc) { pc.SweepingBackups? || pc.SweepingStages? || pc.SweepingArchives? }

  lemma SweptKeepsClean(c: Config, d: Disk, q: Proc, n: Name)
    requires IsSweep(q.pc) && n in q.todo && TodoOk(q) && Clean(d, q) && CleanOfBackups(c, d, q)
    ensures var q' := q.(todo := q.todo - {n}); Clean(d.Remove(n), q') && CleanOfBackups(c, d.Remove(n), q')
  {
  }

  lemma KeepsSwept(c: Config, d: Disk, q: Proc, n: Name, last: Bytes)
    requires IsSweep(q.pc) && n in q.todo && Held(c, d, q, last)
    ensures d.Remove(n).Sound() && Holder(c, d.Remove(n), q.(todo := q.todo - {n}), last)
  {
    SweptKeepsClean(c, d, q, n);
  }

  lemma KeepsPostponed(c: Config, d: Disk, q: Proc, n: Name, last: Bytes)
    requires q.pc.SweepingBackups? && Held(c, d, q, last)
    ensures Holder(c, d, q.(todo := q.todo - {n}, pending := true), last)
  {
  }

  /** Changing a file in place, without changing what kind of file it is, leaves the sweeps' work as it is. */
  lemma PutKeepsClean(c: Config, d: Disk, q: Proc, n: Name, inode: Inode)
    requires d.Has(n) && inode.kind == d.At(n).kind && Clean(d, q) && CleanOfBackups(c, d, q)
    ensures var d' := d.Put(n, inode); Clean(d', q) && CleanOfBackups(c, d', q)
  {
    assert forall m, infix :: d.Put(n, inode).Sweepable(m, infix) ==> d.Sweepable(m, infix);
  }

  lemma ClearingKeepsFiles(c: Config, d: Disk, q: Proc, n: Name, last: Bytes)
    requires q.pc.SweepingBackups? || q.pc.RemovingBackup?
    requires d.Has(n) && d.Sound() && Home(d, q, last) && Printed(c, d, q, last)
    ensures var d' := d.Put(n, d.At(n).(readonly := false));
            && d'.Sound() && Home(d', q, last) && Printed(c, d', q, last)
            && ArchiveFileOk(c, d', q) && StageFileOk(c, d', q)
  {
  }

  lemma KeepsCleared(c: Config, d: Disk, q: Proc, n: Name, last: Bytes)
    requires q.pc.SweepingBackups? || q.pc.RemovingBackup?
    requires d.Has(n) && Held(c, d, q, last)
    ensures var d' := d.Put(n, d.At(n).(readonly := false)); d'.Sound() && Holder(c, d', q, last)
  {
    ClearingKeepsFiles(c, d, q, n, last);
    PutKeepsClean(c, d, q, n, d.At(n).(readonly := false));
  }

  lemma KeepsBackupGone(c: Config, d: Disk, q: Proc, n: Name, last: Bytes)
    requires q.pc.RemovingBackup? && q.backup == Some(n) && Held(c, d, q, last)
    ensures d.Remove(n).Sound() && Holder(c, d.Remove(n), q.(pc := RemovingArchive), last)
  {
  }

  lemma KeepsBackupLeft(c: Config, d: Disk, q: Proc, last: Bytes)
    requires q.pc.RemovingBackup? && Held(c, d, q, last)
    ensures Holder(c, d, q.(pc := RemovingArchive, leftover := true), last)
  {
  }

  /*** Bytes arriving ***/

  lemma KeepsDownloadedBytes(c: Config, d: Disk, q: Proc, bytes: Bytes, last: Bytes, d': Disk)
    requires q.pc.Downloading? && Held(c, d, q, last) && Receiving(d, q, bytes) == Some(d')
    ensures d'.Sound() && Holder(c, d', q, last)
  {
  }

  lemma ReceivingKeepsClean(c: Config, d: Disk, q: Proc, bytes: Bytes, d': Disk)
    requires Clean(d, q) && CleanOfBackups(c, d, q) && Receiving(d, q, bytes) == Some(d')
    ensures Clean(d', q) && CleanOfBackups(c, d', q)
  {
    var n := if q.pc.Downloading? then q.archive.value else q.stage.value;
    PutKeepsClean(c, d, q, n, d'.inodes[d.dir[n]]);
  }

  lemma KeepsExtractedBytes(c: Config, d: Disk, q: Proc, bytes: Bytes, last: Bytes, d': Disk)
    requires q.pc.Extracting? && Held(c, d, q, last) && Receiving(d, q, bytes) == Some(d')
    ensures d'.Sound() && Holder(c, d', q, last)
  {
    ReceivingKeepsClean(c, d, q, bytes, d');
  }
}
