/**
 The install protocol as a transition system: one directory, one lock, any number of concurrent installs.
 Every system call of an install is one step, with a success branch (`Succeed`) and a failure branch (`Fail`);
 between any two of them other installs may run, an install may crash, and on Unix the power may fail.
 A failed system call changes nothing.
 */
module Machine {
  import opened Basics
  import opened Packages
  import opened Plans
  import opened Versions
  import Attestations

  /*** Files ***/

  datatype Platform = Unix | Windows

  datatype Infix = StageFile | ArchiveFile | BackupFile

  /** Names in the target's directory. Module Names shows which strings these are. */
  datatype Name = Target | LockFile | Owned(infix: Infix, suffix: string) | Other(text: string)

  datatype Kind = Regular | Directory | Symlink | Special

  /** `synced` says that the content would survive a power failure as it is. */
  datatype Inode = Inode(content: Bytes, perm: nat, kind: Kind, hidden: bool, readonly: bool, synced: bool)

  /** `maybe` holds the inodes that Target may name after a power failure. */
  datatype Disk = Disk(dir: map<Name, nat>, inodes: seq<Inode>, maybe: set<nat>) {
    ghost predicate Sound() {
      && (forall n :: n in dir ==> dir[n] < |inodes|)
      && (forall i :: i in maybe ==> i < |inodes|)
    }

    predicate Has(n: Name) { n in dir && dir[n] < |inodes| }

    function At(n: Name): Inode
      requires Has(n)
    {
      inodes[dir[n]]
    }

    /** The sweeps look at everything that is neither a symbolic link nor a directory. */
    predicate Sweepable(n: Name, infix: Infix) {
      Has(n) && n.Owned? && n.infix == infix && At(n).kind != Symlink && At(n).kind != Directory
    }

    function Create(n: Name, inode: Inode): Disk {
      this.(dir := dir[n := |inodes|], inodes := inodes + [inode])
    }

    function Remove(n: Name): Disk {
      this.(dir := dir - {n})
    }

    function Rename(from: Name, to: Name): Disk
      requires from in dir
    {
      this.(dir := (dir - {from})[to := dir[from]])
    }

    function Put(n: Name, inode: Inode): Disk
      requires Has(n)
    {
      this.(inodes := inodes[dir[n] := inode])
    }
  }

  /*** Installs ***/

  /** What an install is about to do, in the order of the source. */
  datatype Pc =
    | Resolving | OpeningLock | Locking
    // from here on the lock is held
    | Reresolving | Polling
    | ListingBackups | SweepingBackups | ListingStages | SweepingStages | ListingArchives | SweepingArchives
    | Fingerprinting | CreatingArchive | Downloading | SyncingArchive
    | CreatingStage | Extracting | SyncingStage | Chmodding | SyncingDirectory
    | Refingerprinting | LastPolling
    // Unix
    | Renaming | SyncingCommit
    // Windows
    | ChoosingBackup | MovingAside | Hiding | MovingIn | RemovingBackup | Restoring | Unhiding
    // clean-ups
    | DroppingStage | RemovingStage | RemovingArchive | Releasing

  /** The error an install will return. The last two are the two forms of RollbackError. */
  datatype Fault = NoFault | Failed | RestoreFailed | StillHidden

  /** A second error never hides the first. */
  function Joined(first: Fault, second: Fault): Fault {
    if first == NoFault then second else first
  }

  /** The target as it was found under the lock: which inode, and whether it was visible. */
  datatype Sighting = Sighting(id: nat, shown: bool)

  datatype Proc = Proc(
    pc: Pc, plan: Plan, entry: Option<Sighting>, perm: nat, pending: bool, todo: set<Name>,
    archive: Option<Name>, stage: Option<Name>, backup: Option<Name>,
    committed: bool, leftover: bool, fault: Fault)

  datatype Outcome = Outcome(committed: bool, cleanupPending: bool, fault: Fault)

  /** History: what replaced the target's content. Only a power failure makes a Revert. */
  datatype Event =
    | Commit(pid: nat, plan: Plan, archive: Bytes, before: Bytes, beforePerm: nat, after: Bytes, afterPerm: nat)
    | Revert(before: Bytes, after: Bytes)

  datatype Config = Config(
    platform: Platform, initial: Bytes, hash: Bytes -> Bytes, decode: Bytes -> Option<seq<Entry>>, member: string,
    verify: Attestations.Verifier)

  /**
   `verified` holds what the checks have relied on: transcripts of attestation searches, each for one request.
   `creator` remembers which install made a file; `born` is the next install's number.
   */
  datatype State = State(
    disk: Disk, lock: Option<nat>, procs: map<nat, Proc>, born: nat, plans: set<Plan>,
    verified: set<Attestations.Evidence>, creator: map<Name, nat>, history: seq<Event>, results: map<nat, Outcome>)

  /** The program an archive holds, if it holds exactly one acceptable member of that name. */
  function Unpack(c: Config, archive: Bytes): Option<Bytes> {
    match c.decode(archive)
    case None => None
    case Some(entries) => UniqueMember(entries, c.member)
  }

  function Last(c: Config, history: seq<Event>): Bytes {
    if |history| == 0 then c.initial else history[|history| - 1].after
  }

  predicate HoldsLock(pc: Pc) {
    !pc.Resolving? && !pc.OpeningLock? && !pc.Locking?
  }

  /*** Steps ***/

  /** What the environment supplies to a successful call; the archive may be removed and yet complain when closed. */
  datatype Input = Nothing | Suffix(suffix: string) | CloseError

  datatype Sweep = Removed | Pending | Cleared

  datatype Action =
    | Checked(
        updater: Updater, version: string, asset: Asset, targeted: bool, evidence: Option<Attestations.Evidence>)
    | Begin(plan: Plan)
    | Succeed(pid: nat, input: Input)
    | Fail(pid: nat)
    | Receive(pid: nat, bytes: Bytes)
    | SweepOne(pid: nat, name: Name, how: Sweep)
    | Crash(pid: nat)
    | PowerLoss(disk: Disk)

  function With(s: State, p: nat, q: Proc): State {
    s.(procs := s.procs[p := q])
  }

  function Leave(s: State, p: nat, outcome: Outcome): State {
    s.(procs := s.procs - {p}, results := s.results[p := outcome],
       lock := if s.lock == Some(p) then None else s.lock)
  }

  function Die(s: State, p: nat): State {
    s.(procs := s.procs - {p}, lock := if s.lock == Some(p) then None else s.lock)
  }

  /** A file made by an install: empty, private, not yet on stable storage. */
  const BLANK := Inode([], 384, Regular, false, false, false)

  function Spawn(s: State, plan: Plan): State {
    var q := Proc(Resolving, plan, None, 0, false, {}, None, None, None, false, false, NoFault);
    s.(procs := s.procs[s.born := q], born := s.born + 1)
  }

  /** An executable that can be hashed: there, regular and not too large. */
  predicate Hashable(d: Disk) {
    d.Has(Target) && d.At(Target).kind == Regular && |d.At(Target).content| <= MAX_BINARY_BYTES
  }

  /** There is the transcript of a search that ends in a bundle accepted for exactly this release asset. */
  predicate Vouched(c: Config, evidence: Option<Attestations.Evidence>, u: Updater, version: string, asset: Asset) {
    && evidence.Some? && evidence.value.request == RequestFor(u, version, asset)
    && Attestations.Accepted(c.verify, evidence.value)
  }

  function AddPlan(c: Config, s: State, a: Action): State
    requires a.Checked? && IsStable(a.version) && s.disk.Has(Target)
  {
    var plan := BuildPlan(a.updater, a.version, a.asset, a.targeted, c.hash(s.disk.At(Target).content));
    s.(plans := s.plans + {plan},
       verified := if a.evidence.Some? then s.verified + {a.evidence.value} else s.verified)
  }

  /** A check makes a plan only for a stable release, with a policy only if the asset is vouched for. */
  predicate MayPlan(c: Config, s: State, a: Action)
    requires a.Checked?
  {
    && IsStable(a.version) && Hashable(s.disk)
    && if a.updater.workflow == "" then a.evidence.None?
       else Vouched(c, a.evidence, a.updater, a.version, a.asset)
  }

  /** Where a failed call leads, and what it does to the error that will be returned. */
  function FailTo(pc: Pc): Pc {
    match pc
    case Downloading | SyncingArchive | CreatingStage => RemovingArchive
    case Extracting | SyncingStage | Chmodding | SyncingDirectory => DroppingStage
    case Refingerprinting | LastPolling | Renaming | ChoosingBackup | MovingAside => RemovingStage
    case Hiding | MovingIn => Restoring
    case Restoring | Unhiding => RemovingStage
    case SyncingCommit | RemovingBackup | DroppingStage | RemovingStage => RemovingArchive
    case _ => Releasing
  }

  function FailWith(pc: Pc, fault: Fault): Fault {
    match pc
    case Restoring => RestoreFailed
    case Unhiding => StillHidden
    case DroppingStage => fault
    case _ => Joined(fault, Failed)
  }

  /** The install after a failed call. A failed removal forgets the name, so the file stays behind. */
  function Stumble(q: Proc): Proc {
    q.(pc := FailTo(q.pc), fault := FailWith(q.pc, q.fault),
       stage := if q.pc == DroppingStage || q.pc == RemovingStage then None else q.stage,
       archive := if q.pc == RemovingArchive then None else q.archive)
  }

  function ResultOf(q: Proc): Outcome {
    Outcome(q.committed, q.committed && (q.pending || q.leftover), q.fault)
  }

  /** A failed call: nothing on disk changes. */
  function Failing(s: State, p: nat): State
    requires p in s.procs
  {
    var q := s.procs[p];
    if !HoldsLock(q.pc) || q.pc == Releasing
    then Leave(s, p, ResultOf(q.(fault := FailWith(q.pc, q.fault))))
    else With(s, p, Stumble(q))
  }

  predicate Matching(c: Config, d: Disk, q: Proc) {
    Hashable(d) && c.hash(d.At(Target).content) == q.plan.fingerprint
  }

  predicate Free(d: Disk, infix: Infix, input: Input) {
    input.Suffix? && Owned(infix, input.suffix) !in d.dir
  }

  predicate Present(d: Disk, name: Option<Name>) {
    name.Some? && d.Has(name.value)
  }

  function Listed(d: Disk, infix: Infix): set<Name> {
    set n | n in d.dir && d.Sweepable(n, infix)
  }

  /** Syncing the directory settles what Target names; Windows has no such call. */
  function SyncDirectory(c: Config, d: Disk): Disk {
    if c.platform == Unix && Target in d.dir then d.(maybe := {d.dir[Target]}) else d
  }

  /** A rename onto the target. */
  function Install(d: Disk, from: Name): Disk
    requires d.Has(from)
  {
    d.Rename(from, Target).(maybe := d.maybe + {d.dir[from]})
  }

  /** Looking again under the lock, sweeping, and fingerprinting. */
  function Prepare(c: Config, d: Disk, q: Proc): Option<(Disk, Proc)> {
    match q.pc
    case Reresolving =>
      if d.Has(Target)
      then Some((d, q.(pc := Polling, entry := Some(Sighting(d.dir[Target], !d.At(Target).hidden))))) else None
    case Polling => Some((d, q.(pc := if c.platform == Windows then ListingBackups else ListingStages)))
    case ListingBackups => Some((d, q.(pc := SweepingBackups, todo := Listed(d, BackupFile))))
    case SweepingBackups => if q.todo == {} then Some((d, q.(pc := ListingStages))) else None
    case ListingStages => Some((d, q.(pc := SweepingStages, todo := Listed(d, StageFile))))
    case SweepingStages => if q.todo == {} then Some((d, q.(pc := ListingArchives))) else None
    case ListingArchives => Some((d, q.(pc := SweepingArchives, todo := Listed(d, ArchiveFile))))
    case SweepingArchives => if q.todo == {} then Some((d, q.(pc := Fingerprinting))) else None
    case Fingerprinting =>
      if Matching(c, d, q) then Some((d, q.(pc := CreatingArchive, perm := d.At(Target).perm))) else None
    case _ => None
  }

  /** Downloading, extracting and staging. */
  function Prestage(c: Config, d: Disk, q: Proc, input: Input): Option<(Disk, Proc)> {
    match q.pc
    case CreatingArchive =>
      if Free(d, ArchiveFile, input)
      then var n := Owned(ArchiveFile, input.suffix);
           Some((d.Create(n, BLANK), q.(pc := Downloading, archive := Some(n)))) else None
    case Downloading =>
      if Present(d, q.archive) && |d.At(q.archive.value).content| <= MAX_ARCHIVE_BYTES
         && c.hash(d.At(q.archive.value).content) == q.plan.digest
      then Some((d, q.(pc := SyncingArchive))) else None
    case SyncingArchive => Some((d, q.(pc := CreatingStage)))
    case CreatingStage =>
      if Free(d, StageFile, input)
      then var n := Owned(StageFile, input.suffix);
           Some((d.Create(n, BLANK), q.(pc := Extracting, stage := Some(n)))) else None
    case Extracting =>
      if Present(d, q.archive) && Present(d, q.stage)
         && Unpack(c, d.At(q.archive.value).content) == Some(d.At(q.stage.value).content)
      then Some((d, q.(pc := SyncingStage))) else None
    case SyncingStage =>
      if Present(d, q.stage)
      then Some((d.Put(q.stage.value, d.At(q.stage.value).(synced := true)), q.(pc := Chmodding))) else None
    case Chmodding =>
      if Present(d, q.stage)
      then Some((d.Put(q.stage.value, d.At(q.stage.value).(perm := q.perm)), q.(pc := SyncingDirectory))) else None
    case SyncingDirectory => Some((SyncDirectory(c, d), q.(pc := Refingerprinting)))
    case Refingerprinting => if Matching(c, d, q) then Some((d, q.(pc := LastPolling))) else None
    case LastPolling => Some((d, q.(pc := if c.platform == Windows then ChoosingBackup else Renaming)))
    case _ => None
  }

  /** Replacing the target: one rename on Unix; aside, in, and back on Windows. */
  function Replace(c: Config, d: Disk, q: Proc, input: Input): Option<(Disk, Proc)> {
    match q.pc
    case Renaming =>
      if Present(d, q.stage) && Present(d, q.archive) && d.Has(Target)
      then Some((Install(d, q.stage.value), q.(pc := SyncingCommit, stage := None, committed := true))) else None
    case SyncingCommit => Some((SyncDirectory(c, d), q.(pc := RemovingArchive)))
    case ChoosingBackup =>
      if Free(d, BackupFile, input)
      then Some((d, q.(pc := MovingAside, backup := Some(Owned(BackupFile, input.suffix))))) else None
    case MovingAside =>
      if d.Has(Target) && q.backup.Some? then Some((d.Rename(Target, q.backup.value), q.(pc := Hiding))) else None
    case Hiding =>
      if Present(d, q.backup)
      then Some((d.Put(q.backup.value, d.At(q.backup.value).(hidden := true)), q.(pc := MovingIn))) else None
    case MovingIn =>
      if Present(d, q.stage) && Present(d, q.archive) && Present(d, q.backup)
      then Some((Install(d, q.stage.value), q.(pc := RemovingBackup, stage := None, committed := true))) else None
    case Restoring =>
      if Present(d, q.backup) then Some((Install(d, q.backup.value), q.(pc := Unhiding))) else None
    case Unhiding =>
      if d.Has(Target)
      then Some((d.Put(Target, d.At(Target).(hidden := false)), q.(pc := RemovingStage))) else None
    case _ => None
  }

  /** The deferred removals. */
  function Tidy(d: Disk, q: Proc, input: Input): Option<(Disk, Proc)> {
    match q.pc
    case DroppingStage | RemovingStage =>
      Some((if q.stage.Some? then d.Remove(q.stage.value) else d, q.(pc := RemovingArchive, stage := None)))
    case RemovingArchive =>
      Some((if q.archive.Some? then d.Remove(q.archive.value) else d,
            q.(pc := Releasing, archive := None,
               fault := if input.CloseError? then Joined(q.fault, Failed) else q.fault)))
    case _ => None
  }

  /** What the next call of the lock holder does to the disk and to the install; None when it cannot succeed. */
  function Advance(c: Config, d: Disk, q: Proc, input: Input): Option<(Disk, Proc)> {
    match q.pc
    case Reresolving | Polling | ListingBackups | SweepingBackups | ListingStages | SweepingStages
       | ListingArchives | SweepingArchives | Fingerprinting => Prepare(c, d, q)
    case CreatingArchive | Downloading | SyncingArchive | CreatingStage | Extracting | SyncingStage | Chmodding
       | SyncingDirectory | Refingerprinting | LastPolling => Prestage(c, d, q, input)
    case DroppingStage | RemovingStage | RemovingArchive => Tidy(d, q, input)
    case _ => Replace(c, d, q, input)
  }

  /** The entry a commit makes in the history: which plan, from which archive, replacing what by what. */
  function Commits(d: Disk, p: nat, q: Proc): seq<Event> {
    var replaced := if q.pc == Renaming then Some(Target) else if q.pc == MovingIn then q.backup else None;
    if Present(d, replaced) && Present(d, q.stage) && Present(d, q.archive)
    then [Commit(p, q.plan, d.At(q.archive.value).content, d.At(replaced.value).content, d.At(replaced.value).perm,
                 d.At(q.stage.value).content, d.At(q.stage.value).perm)]
    else []
  }

  function Created(q: Proc, q': Proc): Option<Name> {
    if q.pc == CreatingArchive then q'.archive else if q.pc == CreatingStage then q'.stage else None
  }

  /** On the way to the lock: resolve the target, open the lock file, take the lock when nobody has it. */
  function Approach(s: State, p: nat): Option<State>
    requires p in s.procs
  {
    var q := s.procs[p];
    match q.pc
    case Resolving => if s.disk.Has(Target) then Some(With(s, p, q.(pc := OpeningLock))) else None
    case OpeningLock =>
      var s' := With(s, p, q.(pc := Locking));
      Some(if LockFile in s.disk.dir then s' else s'.(disk := s.disk.Create(LockFile, BLANK)))
    case Locking => if s.lock == None then Some(With(s, p, q.(pc := Reresolving)).(lock := Some(p))) else None
    case _ => None
  }

  function Succeeding(c: Config, s: State, p: nat, input: Input): Option<State>
    requires p in s.procs
  {
    var q := s.procs[p];
    match q.pc
    case Resolving | OpeningLock | Locking => Approach(s, p)
    case Releasing => Some(Leave(s, p, ResultOf(q)))
    case _ =>
      match Advance(c, s.disk, q, input)
      case None => None
      case Some((d', q')) =>
        var made := Created(q, q');
        Some(With(s, p, q').(
             disk := d',
             creator := if made.Some? then s.creator[made.value := p] else s.creator,
             history := s.history + Commits(s.disk, p, q)))
  }

  /** More bytes from the network into the archive, or out of the archive into the stage file. */
  function Receiving(d: Disk, q: Proc, bytes: Bytes): Option<Disk> {
    var file := if q.pc == Downloading then q.archive else if q.pc == Extracting then q.stage else None;
    if !Present(d, file) then None
    else
      var inode := d.At(file.value);
      Some(d.Put(file.value, inode.(content := inode.content + bytes, synced := false)))
  }

  /**
   One file of a sweep, or the backup after a commit. Removed and Pending are the two ways on;
   Cleared drops the read-only attribute, without which Windows refuses to remove a backup.
   Only a backup can stay pending.
   */
  function Sweeping(d: Disk, q: Proc, n: Name, how: Sweep): Option<(Disk, Proc)> {
    var isBackup := q.pc == SweepingBackups || q.pc == RemovingBackup;
    if !(if q.pc == RemovingBackup then q.backup == Some(n)
         else (q.pc == SweepingBackups || q.pc == SweepingStages || q.pc == SweepingArchives) && n in q.todo)
       || !d.Has(n) then None
    else
      var next := if q.pc == RemovingBackup then q.(pc := RemovingArchive) else q.(todo := q.todo - {n});
      match how
      case Removed => if isBackup && d.At(n).readonly then None else Some((d.Remove(n), next))
      case Pending =>
        if !isBackup then None
        else if q.pc == RemovingBackup then Some((d, next.(leftover := true)))
        else Some((d, next.(pending := true)))
      case Cleared => if isBackup then Some((d.Put(n, d.At(n).(readonly := false)), q)) else None
  }

  /** What a power failure may leave: synced contents as they were, Target one of its possible inodes. */
  ghost predicate Survives(d: Disk, d': Disk) {
    && d'.Sound()
    && |d'.inodes| >= |d.inodes|
    && Target in d'.dir && d'.dir[Target] in d.maybe
    && d'.maybe == {d'.dir[Target]}
    && (forall i :: 0 <= i < |d.inodes| && d.inodes[i].synced ==>
          d'.inodes[i].synced && d'.inodes[i].content == d.inodes[i].content)
  }

  function Reboot(c: Config, s: State, d: Disk): State
    requires d.Has(Target)
  {
    var before, after := Last(c, s.history), d.At(Target).content;
    s.(disk := d, lock := None, procs := map[],
       history := if before == after then s.history else s.history + [Revert(before, after)])
  }

  ghost function Next(c: Config, s: State, a: Action): Option<State> {
    match a
    case Checked(_, _, _, _, _) => if MayPlan(c, s, a) then Some(AddPlan(c, s, a)) else None
    case Begin(plan) => if plan in s.plans && Admits(plan.updater, plan) then Some(Spawn(s, plan)) else None
    case Succeed(p, input) => if p in s.procs then Succeeding(c, s, p, input) else None
    case Fail(p) => if p in s.procs then Some(Failing(s, p)) else None
    case Receive(p, bytes) =>
      if p !in s.procs then None
      else (match Receiving(s.disk, s.procs[p], bytes)
            case None => None
            case Some(d') => Some(s.(disk := d')))
    case SweepOne(p, n, how) =>
      if p !in s.procs then None
      else (match Sweeping(s.disk, s.procs[p], n, how)
            case None => None
            case Some((d', q')) => Some(With(s, p, q').(disk := d')))
    case Crash(p) =>
      if p in s.procs then Some(Die(s, p)) else None
    case PowerLoss(d) =>
      if c.platform == Unix && Survives(s.disk, d) then Some(Reboot(c, s, d)) else None
  }

  ghost predicate Step(c: Config, s: State, s': State) {
    exists a :: Next(c, s, a) == Some(s')
  }

  /** Before the first install: the target is there, on stable storage, and nobody is running. */
  ghost predicate Init(c: Config, s: State) {
    && s.disk.Sound()
    && s.disk.Has(Target)
    && s.disk.At(Target).content == c.initial && s.disk.At(Target).synced
    && s.disk.maybe == {s.disk.dir[Target]}
    && s.lock == None && s.procs == map[]
    && s.plans == {} && s.verified == {} && s.creator == map[] && s.history == [] && s.results == map[]
  }

  ghost predicate StepsAt(c: Config, run: seq<State>, i: nat)
    requires i + 1 < |run|
  {
    Step(c, run[i], run[i + 1])
  }

  ghost predicate Run(c: Config, run: seq<State>) {
    && |run| > 0
    && Init(c, run[0])
    && forall i: nat :: i + 1 < |run| ==> StepsAt(c, run, i)
  }
}
