/** Swapping the staged executable for the target, and getting rid of the old one. */
module Replacing {
  import opened Basics
  import opened Machine
  import opened Worlds
  import opened Staging

  /** What a replacement left behind: the old program in place, the new one, or a mess that the fault describes. */
  function Replaced(q: Proc, backup: Option<Name>, committed: bool, leftover: bool, fault: Fault): Proc {
    if committed
    then q.(pc := RemovingArchive, stage := None, backup := backup, committed := true, leftover := leftover,
            fault := fault)
    else q.(pc := RemovingStage, backup := backup, fault := fault)
  }

  lemma StumbleWhileReplacing(q: Proc)
    requires q.fault == NoFault
    ensures q.pc.Renaming? || q.pc.ChoosingBackup? || q.pc.MovingAside? ==>
      Stumble(q) == q.(pc := RemovingStage, fault := Failed)
    ensures q.pc.SyncingCommit? || q.pc.RemovingBackup? ==> Stumble(q) == q.(pc := RemovingArchive, fault := Failed)
    ensures q.pc.Hiding? || q.pc.MovingIn? ==> Stumble(q) == q.(pc := Restoring, fault := Failed)
  {
  }

  lemma StumbleWhileRestoring(q: Proc)
    requires q.fault == Failed
    ensures q.pc.Restoring? ==> Stumble(q) == q.(pc := RemovingStage, fault := RestoreFailed)
    ensures q.pc.Unhiding? ==> Stumble(q) == q.(pc := RemovingStage, fault := StillHidden)
  {
  }

  /** An install with everything at hand for the swap. */
  ghost predicate AtSwap(w: World, p: nat, stage: Name)
    reads w
  {
    && w.Holding(p) && w.Me(p).stage == Some(stage) && stage.Owned? && stage.infix == StageFile
    && w.Me(p).archive.Some? && w.Me(p).archive.value.Owned? && w.Me(p).archive.value.infix == ArchiveFile
    && w.disk.Has(stage) && w.disk.Has(w.Me(p).archive.value) && w.disk.Has(Target)
    && w.Me(p).fault == NoFault && !w.Me(p).committed && !w.Me(p).leftover
  }

  /*** replace_unix.go ***/

  method ReplaceUnix(w: World, p: nat, stage: Name) returns (committed: bool, fault: Fault)
    requires AtSwap(w, p, stage) && w.Me(p).pc.Renaming?
    modifies w
    ensures w.Holding(p) && Continues(old(w.story), w.story)
    ensures w.Me(p) == Replaced(old(w.Me(p)), old(w.Me(p)).backup, committed, false, fault)
    ensures fault == NoFault || fault == Failed
    ensures if !committed then fault == Failed && w.disk == old(w.disk)
            else
              && w.disk.dir == (old(w.disk).dir - {stage})[Target := old(w.disk).dir[stage]]
              && w.disk.inodes == old(w.disk).inodes
              && (w.c.platform == Unix && fault == NoFault ==> w.disk.maybe == {w.disk.dir[Target]})
    ensures w.mishaps >= old(w.mishaps) && (fault != NoFault ==> w.mishaps > old(w.mishaps))
  {
    StumbleWhileReplacing(w.Me(p));
    committed := w.Rename(p, stage, Target, w.Me(p).(pc := SyncingCommit, stage := None, committed := true));
    if !committed {
      return false, Failed;
    }
    StumbleWhileReplacing(w.Me(p));
    var synced := w.SyncDir(p, w.Me(p).(pc := RemovingArchive));
    fault := if synced then NoFault else Failed;
  }

  /*** replace_windows.go ***/

  /** A random name, and whether it is unused; or a failed call. */
  method CandidateBackup(w: World) returns (candidate: Option<Name>, unused: bool)
    modifies w`mishaps, w`clashes
    ensures candidate.Some? ==> IsBackup(candidate.value) && unused == (candidate.value !in w.disk.dir)
    ensures w.mishaps == if candidate.Some? && unused then old(w.mishaps) else old(w.mishaps) + 1
    ensures w.clashes == if candidate.Some? && !unused then old(w.clashes) + 1 else old(w.clashes)
  {
    var suffix := Random(w);
    if suffix.None? {
      return None, false;
    }
    var n := Owned(BackupFile, suffix.value);
    var answer := w.IsUnused(n);
    return if answer.Some? then Some(n) else None, answer == Some(true);
  }

  method RandomBackupPath(w: World, p: nat) returns (backup: Option<Name>)
    requires w.Holding(p) && w.Me(p).pc.ChoosingBackup?
    modifies w
    ensures w.Holding(p) && Continues(old(w.story), w.story) && w.disk == old(w.disk)
    ensures backup.None? ==> w.Me(p) == Stumble(old(w.Me(p)))
    ensures backup.Some? ==>
      && IsBackup(backup.value) && backup.value !in w.disk.dir
      && w.Me(p) == old(w.Me(p)).(pc := MovingAside, backup := backup)
    ensures w.mishaps >= old(w.mishaps) && (backup.None? ==> w.mishaps > old(w.mishaps))
    ensures backup.None? && w.mishaps - old(w.mishaps) == w.clashes - old(w.clashes) ==>
      w.clashes == old(w.clashes) + 10
  {
    for attempts := 0 to ATTEMPTS
      invariant w.Holding(p) && Continues(old(w.story), w.story) && w.disk == old(w.disk) && w.Me(p) == old(w.Me(p))
      invariant w.mishaps == old(w.mishaps) + attempts && w.clashes == old(w.clashes) + attempts
    {
      var candidate, unused := CandidateBackup(w);
      if candidate.None? {
        w.Refuse(p);
        return None;
      }
      if unused {
        w.Step(p, Suffix(candidate.value.suffix), w.Me(p).(pc := MovingAside, backup := candidate));
        return candidate;
      }
    }
    w.Refuse(p);
    return None;
  }

  /** What has become of a backup: gone, still in use, or still there for another reason. */
  datatype Disposal = Disposed | Pended | Undisposed

  function Writable(d: Disk, n: Name): Disk
    requires d.Has(n)
  {
    d.Put(n, d.At(n).(readonly := false))
  }

  /** The last report is about n, and speaks of some other problem than a file in use. */
  predicate Reported(troubles: seq<Trouble>, n: Name, otherProblem: bool) {
    && |troubles| > 0 && troubles[|troubles| - 1].name == Some(n)
    && (troubles[|troubles| - 1].problem == OtherProblem <==> otherProblem)
  }

  /** The install after it has dealt with a backup: in a sweep, or after its own commit. */
  function Disposing(q: Proc, n: Name, how: Disposal): Proc {
    if q.pc.RemovingBackup? then
      q.(pc := RemovingArchive, leftover := q.leftover || how == Pended,
         fault := if how == Undisposed then Joined(q.fault, Failed) else q.fault)
    else if how == Undisposed then Stopped(q, q.todo)
    else q.(todo := q.todo - {n}, pending := q.pending || how == Pended)
  }

  /** Whether somebody still uses the file. */
  predicate IsPendingCleanupError(problem: Problem) { problem == SharingViolation || problem == AccessDenied }

  ghost predicate HasBackup(w: World, p: nat, n: Name)
    reads w
  {
    && w.Holding(p) && w.disk.Has(n) && w.Me(p).fault == NoFault
    && ((w.Me(p).pc.SweepingBackups? && n in w.Me(p).todo) || (w.Me(p).pc.RemovingBackup? && w.Me(p).backup == Some(n)))
  }

  /** Nothing has changed but that n may have become writable. */
  predicate OnlyWritable(d: Disk, d': Disk, n: Name)
    requires d.Has(n)
  {
    d' == d || d' == Writable(d, n)
  }

  /** Clears the attribute that would keep a backup from being removed. */
  method MakeRemovable(w: World, p: nat, n: Name) returns (err: Option<Problem>)
    requires HasBackup(w, p, n)
    modifies w
    ensures HasBackup(w, p, n) && Continues(old(w.story), w.story) && w.Me(p) == old(w.Me(p))
    ensures OnlyWritable(old(w.disk), w.disk, n)
    ensures if err.None? then !w.disk.At(n).readonly && w.troubles == old(w.troubles)
            else w.troubles == old(w.troubles) + [Trouble(Some(n), err.value)] && w.mishaps > old(w.mishaps)
    ensures w.mishaps >= old(w.mishaps)
  {
    var attributes := w.GetAttributes(n);
    if attributes.Err? {
      return Some(attributes.error);
    }
    err := None;
    if attributes.value.readonly {
      err := w.ClearReadonly(p, n);
    }
  }

  /** Removes a backup, read-only or not; or leaves it where it is and returns what the failed call has said. */
  method RemoveBackup(w: World, p: nat, n: Name) returns (err: Option<Problem>)
    requires HasBackup(w, p, n) && w.c.platform == Windows
    modifies w
    ensures w.Holding(p) && Continues(old(w.story), w.story)
    ensures err.None? ==>
      && w.Me(p) == Disposing(old(w.Me(p)), n, Disposed) && w.troubles == old(w.troubles)
      && (w.disk == old(w.disk).Remove(n) || w.disk == Writable(old(w.disk), n).Remove(n))
    ensures err.Some? ==>
      && HasBackup(w, p, n) && w.Me(p) == old(w.Me(p)) && OnlyWritable(old(w.disk), w.disk, n)
      && w.troubles == old(w.troubles) + [Trouble(Some(n), err.value)] && w.mishaps > old(w.mishaps)
    ensures w.mishaps >= old(w.mishaps)
  {
    err := MakeRemovable(w, p, n);
    if err.None? {
      var removal := w.Unlink(p, n, Disposing(w.Me(p), n, Disposed));
      err := if removal.Denied? then Some(removal.problem) else None;
    }
  }

  /**
   What becomes of a backup: removed; or still there, and then a failed call has said why. It is left for a later
   install exactly if that call has reported the file in use.
   */
  method DisposeOfBackup(w: World, p: nat, n: Name) returns (how: Disposal)
    requires HasBackup(w, p, n) && w.c.platform == Windows
    modifies w
    ensures w.Holding(p) && Continues(old(w.story), w.story) && w.Me(p) == Disposing(old(w.Me(p)), n, how)
    ensures if how == Disposed
            then w.troubles == old(w.troubles)
                 && (w.disk == old(w.disk).Remove(n) || w.disk == Writable(old(w.disk), n).Remove(n))
            else OnlyWritable(old(w.disk), w.disk, n) && w.mishaps > old(w.mishaps)
                 && |w.troubles| == |old(w.troubles)| + 1 && Reported(w.troubles, n, how == Undisposed)
    ensures old(w.troubles) <= w.troubles && w.mishaps >= old(w.mishaps)
  {
    var err := RemoveBackup(w, p, n);
    if err.None? {
      return Disposed;
    }
    if IsPendingCleanupError(err.value) {
      w.Postpone(p, n, Disposing(w.Me(p), n, Pended));
      return Pended;
    }
    StumbleWhileReplacing(w.Me(p));
    w.Refuse(p);
    return Undisposed;
  }

  /*** The swap on Windows ***/

  /** The old program under its backup name, hidden. */
  function PutAside(d: Disk, backup: Name): Disk
    requires d.Has(Target)
  {
    var moved := d.Rename(Target, backup);
    moved.Put(backup, moved.At(backup).(hidden := true))
  }

  /** The old program under its own name again. */
  function Back(d: Disk, backup: Name): Disk
    requires d.Has(backup)
  {
    Install(d, backup)
  }

  function Shown(d: Disk): Disk
    requires d.Has(Target)
  {
    d.Put(Target, d.At(Target).(hidden := false))
  }

  /** Puts the old program back under its name, visible. */
  method RollbackWindows(w: World, p: nat, backup: Name) returns (fault: Fault)
    requires w.Holding(p) && w.Me(p).pc.Restoring? && w.Me(p).backup == Some(backup) && w.Me(p).fault == Failed
    requires w.disk.Has(backup)
    modifies w
    ensures w.Holding(p) && Continues(old(w.story), w.story)
    ensures w.Me(p) == old(w.Me(p)).(pc := RemovingStage, fault := fault)
    ensures match fault
            case NoFault => false
            case Failed => w.disk == Shown(Back(old(w.disk), backup))
            case RestoreFailed => w.disk == old(w.disk)
            case StillHidden => w.disk == Back(old(w.disk), backup)
    ensures w.mishaps >= old(w.mishaps) && (fault != Failed ==> w.mishaps > old(w.mishaps))
  {
    StumbleWhileRestoring(w.Me(p));
    var ok := w.Rename(p, backup, Target, w.Me(p).(pc := Unhiding));
    if !ok {
      return RestoreFailed;
    }
    StumbleWhileRestoring(w.Me(p));
    ok := w.Change(p, Target, w.disk.At(Target).(hidden := false), w.Me(p).(pc := RemovingStage));
    return if ok then Failed else StillHidden;
  }

  /** The old program has been moved aside and hidden, and everything else is at hand. */
  ghost predicate OutOfTheWay(w: World, p: nat, stage: Name, backup: Name)
    reads w
  {
    && w.Holding(p) && w.Me(p).stage == Some(stage) && w.Me(p).backup == Some(backup)
    && backup.Owned? && backup.infix == BackupFile && stage.Owned? && stage.infix == StageFile
    && w.Me(p).archive.Some? && w.Me(p).archive.value.Owned? && w.Me(p).archive.value.infix == ArchiveFile
    && w.disk.Has(stage) && w.disk.Has(w.Me(p).archive.value) && w.disk.Has(backup)
    && w.Me(p).fault == NoFault && !w.Me(p).committed && !w.Me(p).leftover
  }

  /** The inodes are the same files, but that one of them may have other attributes. */
  predicate SameFiles(d: Disk, d': Disk, id: nat) {
    && |d'.inodes| == |d.inodes|
    && (forall i :: 0 <= i < |d.inodes| && i != id ==> d'.inodes[i] == d.inodes[i])
    && (id < |d.inodes| ==>
          d'.inodes[id] == d.inodes[id].(hidden := d'.inodes[id].hidden, readonly := d'.inodes[id].readonly))
  }

  /** What a swap that has failed leaves of the directory d. */
  ghost predicate RolledBack(d: Disk, d': Disk, backup: Option<Name>, fault: Fault)
    requires d.Has(Target)
  {
    && SameFiles(d, d', d.dir[Target])
    && match fault
       case NoFault => false
       case Failed => d'.dir == d.dir && (d'.At(Target).hidden ==> d.At(Target).hidden)
       case StillHidden => d'.dir == d.dir
       case RestoreFailed => backup.Some? && d'.dir == (d.dir - {Target})[backup.value := d.dir[Target]]
  }

  lemma RollbackOfNothing(d: Disk, backup: Option<Name>)
    requires d.Has(Target)
    ensures RolledBack(d, d, backup, Failed)
  {
  }

  /** From aside, and from aside and hidden, the way leads back. */
  lemma RollbackGoesBack(d: Disk, aside: Disk, d': Disk, backup: Name, fault: Fault)
    requires d.Sound() && d.Has(Target) && backup !in d.dir && backup != Target
    requires aside == d.Rename(Target, backup) || aside == PutAside(d, backup)
    requires match fault
             case NoFault => false
             case Failed => d' == Shown(Back(aside, backup))
             case RestoreFailed => d' == aside
             case StillHidden => d' == Back(aside, backup)
    ensures RolledBack(d, d', Some(backup), fault)
  {
    assert aside.dir == (d.dir - {Target})[backup := d.dir[Target]];
    assert Back(aside, backup).dir == d.dir;
  }

  /** Moves the target aside and hides it, or puts everything back. */
  method MoveAside(w: World, p: nat, stage: Name, backup: Name) returns (ok: bool, fault: Fault)
    requires AtSwap(w, p, stage) && w.Me(p).pc.MovingAside? && w.Me(p).backup == Some(backup)
    requires IsBackup(backup) && backup !in w.disk.dir && w.disk.Sound()
    modifies w
    ensures w.Holding(p) && Continues(old(w.story), w.story)
    ensures ok ==> OutOfTheWay(w, p, stage, backup) && w.Me(p) == old(w.Me(p)).(pc := MovingIn)
                   && w.disk == PutAside(old(w.disk), backup)
    ensures !ok ==> w.Me(p) == old(w.Me(p)).(pc := RemovingStage, fault := fault)
                    && RolledBack(old(w.disk), w.disk, Some(backup), fault)
    ensures w.mishaps >= old(w.mishaps) && (!ok ==> w.mishaps > old(w.mishaps))
  {
    StumbleWhileReplacing(w.Me(p));
    RollbackOfNothing(w.disk, Some(backup));
    ghost var d := w.disk;
    ok := w.Rename(p, Target, backup, w.Me(p).(pc := Hiding));
    if !ok {
      return false, Failed;
    }
    ok, fault := HideBackup(w, p, stage, backup, d);
  }

  /** Hides the backup, or puts it back. */
  method HideBackup(w: World, p: nat, stage: Name, backup: Name, ghost d: Disk) returns (ok: bool, fault: Fault)
    requires OutOfTheWay(w, p, stage, backup) && w.Me(p).pc.Hiding?
    requires d.Sound() && d.Has(Target) && backup !in d.dir && w.disk == d.Rename(Target, backup)
    modifies w
    ensures w.Holding(p) && Continues(old(w.story), w.story)
    ensures ok ==> OutOfTheWay(w, p, stage, backup) && w.Me(p) == old(w.Me(p)).(pc := MovingIn)
                   && w.disk == PutAside(d, backup)
    ensures !ok ==> w.Me(p) == old(w.Me(p)).(pc := RemovingStage, fault := fault)
                    && RolledBack(d, w.disk, Some(backup), fault)
    ensures w.mishaps >= old(w.mishaps) && (!ok ==> w.mishaps > old(w.mishaps))
  {
    StumbleWhileReplacing(w.Me(p));
    ok := w.Change(p, backup, w.disk.At(backup).(hidden := true), w.Me(p).(pc := MovingIn));
    fault := NoFault;
    if !ok {
      ghost var aside := w.disk;
      fault := RollbackWindows(w, p, backup);
      RollbackGoesBack(d, aside, w.disk, backup, fault);
    }
  }

  /** The staged file under the target's name, and nothing under its own. */
  function SwappedIn(d: Disk, stage: Name): map<Name, nat>
    requires d.Has(stage)
  {
    (d.dir - {stage})[Target := d.dir[stage]]
  }

  /**
   What a swap that has committed leaves of the directory d, and how it accounts for the backup: no word of it when it
   is gone; a pending cleanup when the last failed call has reported it in use; an error otherwise.
   */
  ghost predicate SwapDone(
    d: Disk, d': Disk, stage: Name, backup: Name, leftover: bool, fault: Fault, troubles: seq<Trouble>)
    requires d.Has(stage) && d.Has(Target)
  {
    && SameFiles(d, d', d.dir[Target])
    && if backup !in d'.dir then d'.dir == SwappedIn(d, stage) && !leftover && fault == NoFault
       else
         && d'.dir == SwappedIn(d, stage)[backup := d.dir[Target]] && d'.inodes[d.dir[Target]].hidden
         && |troubles| > 0 && troubles[|troubles| - 1].name == Some(backup)
         && match troubles[|troubles| - 1].problem
            case SharingViolation => leftover && fault == NoFault
            case AccessDenied => leftover && fault == NoFault
            case OtherProblem => !leftover && fault == Failed
  }

  /** The two ways in which the backup is disposed of, and the two in which it stays. */
  lemma SwapIsDone(
    d: Disk, d': Disk, stage: Name, backup: Name, how: Disposal, troubles: seq<Trouble>)
    requires d.Sound() && d.Has(stage) && d.Has(Target) && stage != Target && backup !in d.dir && backup != Target
    requires var swapped := Install(PutAside(d, backup), stage);
             if how == Disposed then d' == swapped.Remove(backup) || d' == Writable(swapped, backup).Remove(backup)
             else OnlyWritable(swapped, d', backup) && Reported(troubles, backup, how == Undisposed)
    ensures SwapDone(d, d', stage, backup, how == Pended, if how == Undisposed then Failed else NoFault, troubles)
  {
    var swapped := Install(PutAside(d, backup), stage);
    assert swapped.dir == SwappedIn(d, stage)[backup := d.dir[Target]];
    assert swapped.dir - {backup} == SwappedIn(d, stage);
  }

  /** Renames the staged file onto the target; then the old program is only in the way. */
  method MoveIn(w: World, p: nat, stage: Name, backup: Name, ghost d: Disk)
    returns (committed: bool, leftover: bool, fault: Fault)
    requires OutOfTheWay(w, p, stage, backup) && w.Me(p).pc.MovingIn? && w.c.platform == Windows
    requires d.Sound() && d.Has(stage) && d.Has(Target) && backup !in d.dir && w.disk == PutAside(d, backup)
    modifies w
    ensures w.Holding(p) && Continues(old(w.story), w.story)
    ensures w.Me(p) == Replaced(old(w.Me(p)), Some(backup), committed, leftover, fault)
    ensures committed ==> SwapDone(d, w.disk, stage, backup, leftover, fault, w.troubles)
    ensures !committed ==> RolledBack(d, w.disk, Some(backup), fault) && !leftover
    ensures w.mishaps >= old(w.mishaps) && (fault != NoFault || leftover ==> w.mishaps > old(w.mishaps))
  {
    leftover, fault := false, NoFault;
    StumbleWhileReplacing(w.Me(p));
    committed := w.Rename(p, stage, Target, w.Me(p).(pc := RemovingBackup, stage := None, committed := true));
    if !committed {
      fault := RollbackWindows(w, p, backup);
      RollbackGoesBack(d, PutAside(d, backup), w.disk, backup, fault);
      return;
    }
    var how := DisposeOfBackup(w, p, backup);
    SwapIsDone(d, w.disk, stage, backup, how, w.troubles);
    leftover, fault := how == Pended, if how == Undisposed then Failed else NoFault;
  }

  /**
   Moves the target aside, hides it, moves the staged file in, and removes the old program. Every failure before the
   commit is rolled back, or the fault says how far; after it, only the account of the backup is still open.
   */
  method ReplaceWindows(w: World, p: nat, stage: Name) returns (committed: bool, leftover: bool, fault: Fault)
    requires AtSwap(w, p, stage) && w.Me(p).pc.ChoosingBackup? && w.c.platform == Windows
    modifies w
    ensures w.Holding(p) && Continues(old(w.story), w.story)
    ensures w.Me(p) == Replaced(old(w.Me(p)), w.Me(p).backup, committed, leftover, fault)
    ensures committed ==>
      && w.Me(p).backup.Some? && IsBackup(w.Me(p).backup.value) && w.Me(p).backup.value !in old(w.disk).dir
      && SwapDone(old(w.disk), w.disk, stage, w.Me(p).backup.value, leftover, fault, w.troubles)
    ensures !committed ==> RolledBack(old(w.disk), w.disk, w.Me(p).backup, fault) && !leftover
    ensures w.mishaps >= old(w.mishaps) && (fault != NoFault || leftover ==> w.mishaps > old(w.mishaps))
  {
    StumbleWhileReplacing(w.Me(p));
    RunIsSound(w.c, w.story.run, |w.story.run| - 1);
    ghost var d := w.disk;
    var backup := RandomBackupPath(w, p);
    if backup.None? {
      RollbackOfNothing(d, w.Me(p).backup);
      return false, false, Failed;
    }
    var ok;
    ok, fault := MoveAside(w, p, stage, backup.value);
    if !ok {
      return false, false, fault;
    }
    committed, leftover, fault := MoveIn(w, p, stage, backup.value, d);
  }

  /*** cleanupStaleBackups ***/

  ghost predicate BackupsSwept(w: World, p: nat, q: Proc, pending: bool, entries: seq<DirEntry>, i: nat)
    requires i <= |entries|
    reads w
  {
    Swept(w, p, q.(pending := pending), entries, BackupFile, i)
  }

  /** One of the reports from the n-th on says that the backup is in use. */
  ghost predicate InUse(troubles: seq<Trouble>, n: nat, backup: Name) {
    exists i :: n <= i < |troubles| && troubles[i].name == Some(backup) && troubles[i].problem != OtherProblem
  }

  lemma StillInUse(troubles: seq<Trouble>, troubles': seq<Trouble>, n: nat, backup: Name)
    requires InUse(troubles, n, backup) && troubles <= troubles'
    ensures InUse(troubles', n, backup)
  {
    var i :| n <= i < |troubles| && troubles[i].name == Some(backup) && troubles[i].problem != OtherProblem;
    assert troubles'[i] == troubles[i];
  }

  /** Of the first i entries, these backups are gone, and the others have been reported in use; that is remembered. */
  ghost predicate BackupsGone(
    d: Disk, d': Disk, entries: seq<DirEntry>, i: nat, pending: bool, gone: set<Name>, troubles: seq<Trouble>, n: nat)
    requires i <= |entries|
  {
    var done := Leftovers(entries[..i], BackupFile);
    && d'.dir == d.dir - gone && gone <= done && (pending <==> gone != done)
    && forall backup :: backup in done - gone ==> InUse(troubles, n, backup)
  }

  lemma NoBackupGone(d: Disk, entries: seq<DirEntry>, troubles: seq<Trouble>)
    ensures BackupsGone(d, d, entries, 0, false, {}, troubles, |troubles|)
  {
    assert Leftovers(entries[..0], BackupFile) == {};
    assert d.dir - {} == d.dir;
  }

  /** One backup more has been disposed of, or has been reported in use. */
  lemma OneBackupMore(
    d: Disk, d': Disk, entries: seq<DirEntry>, i: nat, pending: bool, gone: set<Name>, troubles: seq<Trouble>, n: nat,
    how: Disposal, d'': Disk, troubles': seq<Trouble>)
    requires i < |entries| && BackupsGone(d, d', entries, i, pending, gone, troubles, n)
    requires Stale(entries[i], BackupFile) && Distinct(entries) && troubles <= troubles' && n <= |troubles|
    requires how != Undisposed && d''.dir == if how == Disposed then d'.dir - {entries[i].name} else d'.dir
    requires how == Pended ==> |troubles'| > |troubles| && Reported(troubles', entries[i].name, false)
    ensures BackupsGone(d, d'', entries, i + 1, pending || how == Pended,
                        if how == Disposed then gone + {entries[i].name} else gone, troubles', n)
  {
    var done, name := Leftovers(entries[..i], BackupFile), entries[i].name;
    var gone' := if how == Disposed then gone + {name} else gone;
    OneMore(entries, BackupFile, i);
    NotYetSeen(entries, i);
    assert d.dir - gone - {name} == d.dir - (gone + {name});
    forall backup | backup in done + {name} - gone' ensures InUse(troubles', n, backup) {
      if backup == name {
        assert troubles'[|troubles'| - 1].name == Some(backup);
      } else {
        StillInUse(troubles, troubles', n, backup);
      }
    }
  }

  lemma NotYetSeen(entries: seq<DirEntry>, i: nat)
    requires i < |entries| && Distinct(entries)
    ensures entries[i].name !in Leftovers(entries[..i], BackupFile)
  {
  }

  lemma NoBackupHere(
    d: Disk, d': Disk, entries: seq<DirEntry>, i: nat, pending: bool, gone: set<Name>, troubles: seq<Trouble>, n: nat)
    requires i < |entries| && BackupsGone(d, d', entries, i, pending, gone, troubles, n)
    requires !Stale(entries[i], BackupFile)
    ensures BackupsGone(d, d', entries, i + 1, pending, gone, troubles, n)
  {
    OneMore(entries, BackupFile, i);
  }

  /** A backup that a sweep deals with: neither a symbolic link nor a directory. */
  predicate StaleBackup(d: Disk, n: Name) {
    d.Has(n) && n.Owned? && n.infix == BackupFile && (d.At(n).kind == Regular || d.At(n).kind == Special)
  }

  /** Some of the stale backups are gone from the directory, and no other name. */
  ghost predicate SomeBackupsGone(d: Disk, d': Disk) {
    exists gone: set<Name> :: d'.dir == d.dir - gone && forall n :: n in gone ==> StaleBackup(d, n)
  }

  lemma NoneIsSome(d: Disk, d': Disk)
    requires d'.dir == d.dir
    ensures SomeBackupsGone(d, d')
  {
    assert d'.dir == d.dir - {};
  }

  lemma OneNotGone(all: set<Name>, gone: set<Name>) returns (n: Name)
    requires gone <= all && gone != all
    ensures n in all && n !in gone
  {
    assert exists n :: n in all && n !in gone;
    n :| n in all && n !in gone;
  }

  /** Every stale backup is gone or has been reported in use, and it is remembered whether one is left. */
  ghost predicate BackupsCleaned(d: Disk, d': Disk, pending: bool, troubles: seq<Trouble>, n: nat) {
    && (forall b :: StaleBackup(d, b) ==> b !in d'.dir || InUse(troubles, n, b))
    && (pending <==> exists b :: StaleBackup(d, b) && b in d'.dir)
  }

  /** What has stopped a sweep: the directory cannot be read, or there is another problem with a backup than its use. */
  ghost predicate SweepBroke(d: Disk, troubles: seq<Trouble>, n: nat) {
    && |troubles| > n
    && var last := troubles[|troubles| - 1];
       last.name == None || (StaleBackup(d, last.name.value) && last.problem == OtherProblem)
  }

  lemma OnlyBackupsGone(
    d: Disk, d': Disk, entries: seq<DirEntry>, i: nat, pending: bool, gone: set<Name>, troubles: seq<Trouble>, n: nat)
    requires i <= |entries| && Lists(entries, d) && BackupsGone(d, d', entries, i, pending, gone, troubles, n)
    ensures SomeBackupsGone(d, d')
    ensures i == |entries| ==> BackupsCleaned(d, d', pending, troubles, n)
    ensures i < |entries| && Stale(entries[i], BackupFile) ==> StaleBackup(d, entries[i].name)
  {
    LeftoversAreListed(entries, d, BackupFile);
    assert entries[..|entries|] == entries;
    if i < |entries| {
      OneMore(entries, BackupFile, i);
    }
    assert gone <= Listed(d, BackupFile);
    assert forall b :: b in Listed(d, BackupFile) <==> StaleBackup(d, b);
    if i == |entries| && pending {
      var b := OneNotGone(Listed(d, BackupFile), gone);
      assert StaleBackup(d, b) && b in d'.dir;
    }
  }

  method SweepBackup(
    w: World, p: nat, ghost q: Proc, pending: bool, entries: seq<DirEntry>, i: nat, ghost d: Disk,
    ghost gone: set<Name>, ghost n: nat)
    returns (ok: bool, pending': bool, ghost gone': set<Name>)
    requires i < |entries| && BackupsSwept(w, p, q, pending, entries, i) && w.c.platform == Windows
    requires BackupsGone(d, w.disk, entries, i, pending, gone, w.troubles, n) && n <= |w.troubles|
    modifies w
    ensures w.Holding(p) && Continues(old(w.story), w.story) && old(w.troubles) <= w.troubles
    ensures if ok then BackupsGone(d, w.disk, entries, i + 1, pending', gone', w.troubles, n)
                       && BackupsSwept(w, p, q, pending', entries, i + 1)
            else w.disk.dir == old(w.disk).dir && w.Me(p) == Stopped(old(w.Me(p)), w.Me(p).todo)
                 && Stale(entries[i], BackupFile) && Reported(w.troubles, entries[i].name, true)
                 && |w.troubles| > |old(w.troubles)|
    ensures w.mishaps >= old(w.mishaps) && (!ok || pending' != pending ==> w.mishaps > old(w.mishaps))
  {
    OneLess(entries, BackupFile, i);
    ok, pending', gone' := true, pending, gone;
    if Stale(entries[i], BackupFile) {
      ghost var former, troubles := w.disk, w.troubles;
      var how := DisposeOfBackup(w, p, entries[i].name);
      ok, pending' := how != Undisposed, pending || how == Pended;
      if ok {
        OneBackupMore(d, former, entries, i, pending, gone, troubles, n, how, w.disk, w.troubles);
        gone' := if how == Disposed then gone + {entries[i].name} else gone;
      }
    } else {
      NoBackupHere(d, w.disk, entries, i, pending, gone, w.troubles, n);
    }
  }

  /** Goes through all the entries. */
  method SweepBackups(w: World, p: nat, ghost q: Proc, entries: seq<DirEntry>) returns (ok: bool, pending: bool)
    requires w.c.platform == Windows && !q.pending && q.pc.ListingBackups?
    requires BackupsSwept(w, p, q, false, entries, 0) && Lists(entries, w.disk)
    modifies w
    ensures w.Holding(p) && Continues(old(w.story), w.story)
    ensures ok ==> w.Me(p) == q.(pc := ListingStages, todo := {}, pending := pending)
    ensures !ok ==> w.Me(p) == Stopped(q.(pending := w.Me(p).pending), w.Me(p).todo)
    ensures SomeBackupsGone(old(w.disk), w.disk)
    ensures if ok then BackupsCleaned(old(w.disk), w.disk, pending, w.troubles, |old(w.troubles)|)
            else SweepBroke(old(w.disk), w.troubles, |old(w.troubles)|)
    ensures w.mishaps >= old(w.mishaps) && (!ok || pending ==> w.mishaps > old(w.mishaps))
  {
    ghost var d, gone: set<Name>, n := w.disk, {}, |w.troubles|;
    pending := false;
    NoBackupGone(d, entries, w.troubles);
    for i := 0 to |entries|
      invariant Continues(old(w.story), w.story) && BackupsSwept(w, p, q, pending, entries, i)
      invariant w.mishaps >= old(w.mishaps) && (pending ==> w.mishaps > old(w.mishaps))
      invariant n <= |w.troubles| && BackupsGone(d, w.disk, entries, i, pending, gone, w.troubles, n)
    {
      OnlyBackupsGone(d, w.disk, entries, i, pending, gone, w.troubles, n);
      ok, pending, gone := SweepBackup(w, p, q, pending, entries, i, d, gone, n);
      if !ok {
        return;
      }
    }
    OnlyBackupsGone(d, w.disk, entries, |entries|, pending, gone, w.troubles, n);
    FinishSweep(w, p, q.(pending := pending), entries, BackupFile);
    ok := true;
  }

  /**
   Removes what is left of old programs; those still in use stay, and that is remembered; a backup in use never stops
   the sweep. Unix has none.
   */
  method CleanupStaleBackups(w: World, p: nat) returns (ok: bool, pending: bool)
    requires w.Holding(p) && w.Me(p).fault == NoFault && !w.Me(p).pending
    requires w.Me(p).pc == if w.c.platform == Windows then ListingBackups else ListingStages
    modifies w
    ensures w.Holding(p) && Continues(old(w.story), w.story)
    ensures ok ==> w.Me(p) == old(w.Me(p)).(pc := ListingStages, todo := w.Me(p).todo, pending := pending)
    ensures !ok ==> w.Me(p) == Stopped(old(w.Me(p)).(pending := w.Me(p).pending), w.Me(p).todo)
    ensures if w.c.platform == Windows then SomeBackupsGone(old(w.disk), w.disk) else ok && w.disk == old(w.disk)
    ensures w.c.platform == Windows && ok ==>
      BackupsCleaned(old(w.disk), w.disk, pending, w.troubles, |old(w.troubles)|)
    ensures !ok ==> SweepBroke(old(w.disk), w.troubles, |old(w.troubles)|)
    ensures w.mishaps >= old(w.mishaps) && (!ok || pending ==> w.mishaps > old(w.mishaps))
  {
    ok, pending := true, false;
    if w.c.platform != Windows {
      return;
    }
    ghost var q, d := w.Me(p), w.disk;
    var listed := List(w, p, BackupFile);
    if listed.None? {
      NoneIsSome(d, w.disk);
      return false, false;
    }
    ok, pending := SweepBackups(w, p, q, listed.value);
  }
}
