/**
 The machine that installs run on, with its system calls. `disk`, `owner` and `born` are real; `story` records, for the
 proofs only, the run of the transition system that has led here. Each call does its one thing to the disk, takes the
 step of the calling install that it must be, and then lets the others run. A call may fail for no visible reason;
 then it changes nothing, and the install is led where a failure leads it. `mishaps` counts, again for the proofs
 only, what goes wrong without being the install's own doing: failed calls, names already used, a lock already taken;
 `clashes` counts those of them that are no failed calls, and `troubles` keeps the reports of some that are. `polls`
 counts how often an install has asked whether its caller is still waiting, and he was.
 */
module Worlds {
  import opened Basics
  import opened Plans
  import opened Machine
  import opened Preservation
  import opened Outcomes
  import opened Others

  /** What Windows says is wrong: somebody uses the file, or does not let go of it, or anything else. */
  datatype Problem = SharingViolation | AccessDenied | OtherProblem

  /** A failed call that has said what is wrong: with the file of that name, or with the directory. */
  datatype Trouble = Trouble(name: Option<Name>, problem: Problem)

  predicate IsBackup(n: Name) { n.Owned? && n.infix == BackupFile }

  /** How far a removal got. */
  datatype Removal = Gone | Missing | Denied(problem: Problem)

  datatype Creation = Made | Taken | Refused

  /** os.Rename; on Unix the new name of the target is not yet settled. */
  function Renamed(d: Disk, from: Name, to: Name): Disk
    requires d.Has(from)
  {
    if to == Target then Install(d, from) else d.Rename(from, to)
  }

  /** What reading a directory says about a file. */
  datatype DirEntry = DirEntry(name: Name, kind: Kind)

  /** Every file once, and nothing else. */
  ghost predicate Lists(entries: seq<DirEntry>, d: Disk) {
    && (forall i :: 0 <= i < |entries| ==> d.Has(entries[i].name) && d.At(entries[i].name).kind == entries[i].kind)
    && (forall i, j :: 0 <= i < j < |entries| ==> entries[i].name != entries[j].name)
    && (forall n :: n in d.dir ==> exists i :: 0 <= i < |entries| && entries[i].name == n)
  }

  /** The elements of a set in some order. */
  method Enumerate(all: set<Name>) returns (names: seq<Name>)
    ensures forall n :: n in names <==> n in all
    ensures forall i, j :: 0 <= i < j < |names| ==> names[i] != names[j]
  {
    var rest := all;
    names := [];
    while rest != {}
      invariant rest <= all && forall n :: n in names <==> n in all && n !in rest
      invariant forall i, j :: 0 <= i < j < |names| ==> names[i] != names[j]
      decreases |rest|
    {
      var n :| n in rest;
      names, rest := names + [n], rest - {n};
    }
  }

  method ListEntries(d: Disk) returns (entries: seq<DirEntry>)
    requires d.Sound()
    ensures Lists(entries, d)
  {
    var names := Enumerate(d.dir.Keys);
    entries := seq(|names|, i requires 0 <= i < |names| => DirEntry(names[i], d.inodes[d.dir[names[i]]].kind));
    forall n | n in d.dir ensures exists i :: 0 <= i < |entries| && entries[i].name == n {
      var i :| 0 <= i < |names| && names[i] == n;
      assert entries[i].name == n;
    }
  }

  /** Everything that has happened so far, and where it has led. */
  datatype Telling = Telling(c: Config, run: seq<State>, now: State)

  ghost predicate TellsTheTruth(t: Telling) {
    Run(t.c, t.run) && t.run[|t.run| - 1] == t.now
  }

  function FirstDay(c: Config, d: Disk): Telling {
    var s := State(d, None, map[], 0, {}, {}, map[], [], map[]);
    Telling(c, [s], s)
  }

  type Story = t: Telling | TellsTheTruth(t)
    ghost witness FirstDay(Config(Unix, [], (b: Bytes) => b, (b: Bytes) => None, "", (t, b, r) => None),
                           Disk(map[Target := 0], [Inode([], 0, Regular, false, false, true)], {0}))

  /** One story goes on where the other one ends. */
  ghost predicate Continues(s: Story, s': Story) {
    s'.c == s.c && s.run <= s'.run
  }

  lemma RunIsSound(c: Config, run: seq<State>, i: nat)
    requires Run(c, run) && i < |run|
    ensures run[i].disk.Sound()
  {
    RunInv(c, run, i);
  }

  /** What an install returns, whether or not letting go of the lock worked. */
  function Leaving(q: Proc, ok: bool): Outcome {
    ResultOf(if ok then q else q.(fault := Joined(q.fault, Failed)))
  }

  class World {
    const c: Config
    var disk: Disk
    var owner: Option<nat>
    var born: nat
    ghost var story: Story
    ghost var mishaps: nat
    ghost var clashes: nat
    ghost var troubles: seq<Trouble>
    ghost var polls: nat

    /*** The story ***/

    ghost function Now(): State
      reads this
    {
      story.now
    }

    ghost predicate Valid()
      reads this
    {
      story.c == c && Now().disk == disk && Now().lock == owner && Now().born == born
    }

    ghost function Me(p: nat): Proc
      requires p in Now().procs
      reads this
    {
      Now().procs[p]
    }

    /** The install p runs, and waits for the lock. */
    ghost predicate Outside(p: nat)
      reads this
    {
      Valid() && p in Now().procs && !HoldsLock(Me(p).pc)
    }

    /** The install p holds the lock. */
    ghost predicate Holding(p: nat)
      reads this
    {
      Valid() && p in Now().procs && Now().lock == Some(p) && HoldsLock(Me(p).pc)
    }

    /** The install p of this plan has just returned this. */
    ghost predicate Returns(p: nat, plan: Plan, outcome: Outcome)
      reads this
    {
      && Valid() && |story.run| >= 2
      && Returned(story.run[|story.run| - 2], Now(), p) && Now().results[p] == outcome
      && story.run[|story.run| - 2].procs[p].plan == plan
    }

    constructor (c: Config, d: Disk)
      requires d.Sound() && d.Has(Target) && d.At(Target).content == c.initial && d.At(Target).synced
      requires d.maybe == {d.dir[Target]}
      ensures Valid() && this.c == c && disk == d && |story.run| == 1
    {
      this.c, disk, owner, born, mishaps, clashes, troubles, polls := c, d, None, 0, 0, 0, [], 0;
      story := FirstDay(c, d);
    }

    ghost method Record(a: Action, s': State)
      requires story.c == c && Next(c, Now(), a) == Some(s')
      modifies this`story
      ensures story.c == c && story.run == old(story.run) + [s'] && Now() == s'
      ensures Continues(old(story), story)
    {
      RunGrows(c, story.run, a, s');
      story := Telling(c, story.run + [s'], s');
    }

    /** The others run. This is all that is known about it; that nothing happens is one of the possibilities. */
    method LetOthersRun(ghost p: nat)
      requires Valid()
      modifies this`disk, this`owner, this`born, this`story
      ensures Valid() && Continues(old(story), story)
      ensures OthersSince(c, story.run, |old(story.run)| - 1, p)
    {
    }

    /** Time passes for somebody who takes no part in the protocol. */
    method LetAnybodyRun()
      requires Valid()
      modifies this`disk, this`owner, this`born, this`story
      ensures Valid() && Continues(old(story), story)
    {
    }

    /** What p notices of it: nothing but that plans are made and the world grows older. */
    method Yield(ghost p: nat)
      requires Valid() && p in Now().procs
      modifies this`disk, this`owner, this`born, this`story
      ensures Valid() && Continues(old(story), story) && p in Now().procs && Me(p) == old(Me(p))
      ensures old(owner) == Some(p) ==> owner == Some(p) && disk == old(disk)
    {
      ghost var i := |story.run| - 1;
      LetOthersRun(p);
      OthersKeepMe(c, story.run, i, p);
    }

    /** Whether a call works. When it does not, that is nobody's fault but the world's, and it is counted. */
    method Luck() returns (ok: bool)
      modifies this`mishaps
      ensures mishaps == if ok then old(mishaps) else old(mishaps) + 1
    {
      ok := *;
      if !ok {
        mishaps := mishaps + 1;
      }
    }

    /** What a failed call says is wrong; that is for the world to decide. */
    method Complain(ghost name: Option<Name>) returns (problem: Problem)
      modifies this`troubles
      ensures troubles == old(troubles) + [Trouble(name, problem)]
    {
      problem := *;
      troubles := troubles + [Trouble(name, problem)];
    }

    /*** Steps of the install that holds the lock ***/

    ghost method Step(p: nat, input: Input, next: Proc)
      requires story.c == c && p in Now().procs && Now().lock == owner == Some(p) && Now().born == born
      requires HoldsLock(Me(p).pc) && !Me(p).pc.Releasing?
      requires Advance(c, Now().disk, Me(p), input) == Some((disk, next))
      modifies this`story
      ensures Holding(p) && Me(p) == next && Continues(old(story), story)
    {
      var s := Now();
      var s' := Succeeding(c, s, p, input).value;
      AdvanceHoldsLock(c, s.disk, Me(p), input, disk, next);
      Record(Succeed(p, input), s');
    }

    ghost method Sweep(p: nat, n: Name, how: Machine.Sweep, next: Proc)
      requires story.c == c && p in Now().procs && Now().lock == owner == Some(p) && Now().born == born
      requires Sweeping(Now().disk, Me(p), n, how) == Some((disk, next)) && HoldsLock(next.pc)
      modifies this`story
      ensures Holding(p) && Me(p) == next && Continues(old(story), story)
    {
      var s := Now();
      Record(SweepOne(p, n, how), With(s, p, next).(disk := disk));
    }

    ghost method GiveUp(p: nat)
      requires Holding(p) && !Me(p).pc.Releasing?
      modifies this`story
      ensures Holding(p) && Me(p) == Stumble(old(Me(p))) && Continues(old(story), story)
    {
      var s := Now();
      StumbleHoldsLock(Me(p));
      Record(Fail(p), With(s, p, Stumble(Me(p))));
    }

    /** Something went wrong; nothing changes. */
    method Refuse(ghost p: nat)
      requires Holding(p) && !Me(p).pc.Releasing?
      modifies this`disk, this`owner, this`born, this`story
      ensures Holding(p) && Me(p) == Stumble(old(Me(p))) && disk == old(disk) && Continues(old(story), story)
    {
      GiveUp(p);
      Settle(p);
    }

    method Settle(ghost p: nat)
      requires Holding(p)
      modifies this`disk, this`owner, this`born, this`story
      ensures Holding(p) && Me(p) == old(Me(p)) && disk == old(disk) && Continues(old(story), story)
    {
      Yield(p);
    }

    /*** System calls while holding the lock ***/

    method Rename(p: nat, from: Name, to: Name, ghost next: Proc) returns (ok: bool)
      requires Holding(p) && !Me(p).pc.Releasing?
      requires disk.Has(from) ==> Advance(c, disk, Me(p), Nothing) == Some((Renamed(disk, from, to), next))
      modifies this
      ensures Holding(p) && Continues(old(story), story)
      ensures ok ==> old(disk.Has(from)) && disk == Renamed(old(disk), from, to) && Me(p) == next
      ensures !ok ==> disk == old(disk) && Me(p) == Stumble(old(Me(p)))
      ensures mishaps >= old(mishaps) && (!ok && old(disk.Has(from)) ==> mishaps > old(mishaps))
    {
      ok := Luck();
      if !ok || !disk.Has(from) {
        Refuse(p);
        return false;
      }
      disk := Renamed(disk, from, to);
      Step(p, Nothing, next);
      Settle(p);
    }

    /** Replaces the attributes, the bits or the sync state of a file by those of `inode`. */
    method Change(p: nat, n: Name, inode: Inode, ghost next: Proc) returns (ok: bool)
      requires Holding(p) && !Me(p).pc.Releasing? && disk.Has(n)
      requires Advance(c, disk, Me(p), Nothing) == Some((disk.Put(n, inode), next))
      modifies this
      ensures Holding(p) && Continues(old(story), story)
      ensures ok ==> disk == old(disk).Put(n, inode) && Me(p) == next
      ensures !ok ==> disk == old(disk) && Me(p) == Stumble(old(Me(p)))
      ensures polls == old(polls)
      ensures mishaps >= old(mishaps) && (!ok ==> mishaps > old(mishaps))
    {
      ok := Luck();
      if !ok {
        Refuse(p);
        return;
      }
      disk := disk.Put(n, inode);
      Step(p, Nothing, next);
      Settle(p);
    }

    /** A call that changes nothing on disk. */
    method Look(ghost p: nat, ghost input: Input, ghost next: Proc) returns (ok: bool)
      requires Holding(p) && !Me(p).pc.Releasing?
      requires Advance(c, disk, Me(p), input) == Some((disk, next))
      modifies this
      ensures Holding(p) && Continues(old(story), story) && disk == old(disk)
      ensures Me(p) == if ok then next else Stumble(old(Me(p)))
      ensures mishaps >= old(mishaps) && (!ok ==> mishaps > old(mishaps))
    {
      ok := Luck();
      if !ok {
        Refuse(p);
        return;
      }
      Step(p, input, next);
      Settle(p);
    }

    /** A call without an effect that the steps do not show, such as seeking in a file. */
    method Try(ghost p: nat) returns (ok: bool)
      requires Holding(p) && !Me(p).pc.Releasing?
      modifies this
      ensures Holding(p) && Continues(old(story), story) && disk == old(disk)
      ensures Me(p) == if ok then old(Me(p)) else Stumble(old(Me(p)))
      ensures mishaps >= old(mishaps) && (!ok ==> mishaps > old(mishaps))
    {
      ok := Luck();
      if !ok {
        Refuse(p);
      }
    }

    /** Asks whether the caller has given up; if he has, the install fails. */
    method Poll(ghost p: nat) returns (ok: bool)
      requires Holding(p) && !Me(p).pc.Releasing?
      modifies this
      ensures Holding(p) && Continues(old(story), story) && disk == old(disk)
      ensures Me(p) == if ok then old(Me(p)) else Stumble(old(Me(p)))
      ensures polls == if ok then old(polls) + 1 else old(polls)
      ensures mishaps >= old(mishaps) && (!ok ==> mishaps > old(mishaps))
    {
      ok := Luck();
      if !ok {
        Refuse(p);
        return;
      }
      polls := polls + 1;
    }

    method SyncDir(ghost p: nat, ghost next: Proc) returns (ok: bool)
      requires Holding(p) && !Me(p).pc.Releasing?
      requires Advance(c, disk, Me(p), Nothing) == Some((SyncDirectory(c, disk), next))
      modifies this
      ensures Holding(p) && Continues(old(story), story)
      ensures ok ==> disk == SyncDirectory(c, old(disk)) && Me(p) == next
      ensures !ok ==> disk == old(disk) && Me(p) == Stumble(old(Me(p)))
      ensures mishaps >= old(mishaps) && (!ok ==> mishaps > old(mishaps))
    {
      ok := Luck();
      if !ok {
        Refuse(p);
        return;
      }
      disk := SyncDirectory(c, disk);
      Step(p, Nothing, next);
      Settle(p);
    }

    /** Exclusive creation of an empty private file. When the name is taken nothing happens; the caller may retry. */
    method Create(p: nat, n: Name, ghost next: Proc) returns (r: Creation)
      requires Holding(p) && !Me(p).pc.Releasing? && n.Owned?
      requires n !in disk.dir ==> Advance(c, disk, Me(p), Suffix(n.suffix)) == Some((disk.Create(n, BLANK), next))
      modifies this
      ensures Holding(p) && Continues(old(story), story)
      ensures r == Made ==> n !in old(disk).dir && disk == old(disk).Create(n, BLANK) && Me(p) == next
      ensures r == Taken ==> n in disk.dir && disk == old(disk) && Me(p) == old(Me(p))
      ensures r == Refused ==> disk == old(disk) && Me(p) == Stumble(old(Me(p)))
      ensures clashes == (if r == Taken then old(clashes) + 1 else old(clashes)) && polls == old(polls)
      ensures mishaps == if r == Made then old(mishaps) else old(mishaps) + 1
    {
      var ok := Luck();
      if !ok {
        Refuse(p);
        return Refused;
      }
      if n in disk.dir {
        mishaps, clashes := mishaps + 1, clashes + 1;
        return Taken;
      }
      disk := disk.Create(n, BLANK);
      Step(p, Suffix(n.suffix), next);
      Settle(p);
      return Made;
    }

    /** A deferred removal: it may fail, and that the file is gone already is no failure. */
    method Remove(p: nat, n: Name, ghost input: Input, ghost next: Proc) returns (ok: bool)
      requires Holding(p) && !Me(p).pc.Releasing?
      requires Advance(c, disk, Me(p), input) == Some((disk.Remove(n), next))
      modifies this
      ensures Holding(p) && Continues(old(story), story)
      ensures ok ==> disk == old(disk).Remove(n) && Me(p) == next
      ensures !ok ==> disk == old(disk) && Me(p) == Stumble(old(Me(p)))
      ensures mishaps >= old(mishaps) && (!ok ==> mishaps > old(mishaps))
    {
      ok := Luck();
      if !ok {
        Refuse(p);
        return;
      }
      disk := disk.Remove(n);
      Step(p, input, next);
      Settle(p);
    }

    /** Appends to a file that the install is filling. */
    method Write(p: nat, n: Name, data: Bytes) returns (ok: bool)
      requires Holding(p) && !Me(p).pc.Releasing? && disk.Has(n)
      requires (Me(p).pc.Downloading? && Me(p).archive == Some(n)) || (Me(p).pc.Extracting? && Me(p).stage == Some(n))
      modifies this
      ensures Holding(p) && Continues(old(story), story)
      ensures ok ==>
        && disk == old(disk).Put(n, old(disk.At(n)).(content := old(disk.At(n)).content + data, synced := false))
        && Me(p) == old(Me(p))
      ensures !ok ==> disk == old(disk) && Me(p) == Stumble(old(Me(p)))
      ensures mishaps >= old(mishaps) && (!ok ==> mishaps > old(mishaps))
    {
      ok := Luck();
      if !ok {
        Refuse(p);
        return;
      }
      disk := disk.Put(n, disk.At(n).(content := disk.At(n).content + data, synced := false));
      Record(Receive(p, data), Now().(disk := disk));
      Settle(p);
    }

    /** Opens and reads a file. */
    method Read(n: Name) returns (r: Option<Inode>)
      modifies this`mishaps
      ensures r.Some? ==> disk.Has(n) && r.value == disk.At(n)
      ensures mishaps >= old(mishaps) && (r.None? && disk.Has(n) ==> mishaps > old(mishaps))
    {
      var ok := Luck();
      r := if ok && disk.Has(n) then Some(disk.At(n)) else None;
    }

    /** os.Lstat, asked whether a name is still unused. That it is not is bad luck, like a call that fails. */
    method IsUnused(n: Name) returns (r: Option<bool>)
      modifies this`mishaps, this`clashes
      ensures r.Some? ==> r.value == (n !in disk.dir)
      ensures clashes == if r == Some(false) then old(clashes) + 1 else old(clashes)
      ensures mishaps == if r == Some(true) then old(mishaps) else old(mishaps) + 1
    {
      var ok := Luck();
      r := if ok then Some(n !in disk.dir) else None;
      if r == Some(false) {
        mishaps, clashes := mishaps + 1, clashes + 1;
      }
    }

    /** The entries of the directory, in some order. */
    method ReadDir() returns (r: Option<seq<DirEntry>>)
      requires Valid()
      modifies this`mishaps, this`troubles
      ensures if r.Some? then Lists(r.value, disk) && troubles == old(troubles)
              else |troubles| == |old(troubles)| + 1 && troubles[|old(troubles)|].name == None
      ensures old(troubles) <= troubles
      ensures mishaps >= old(mishaps) && (r.None? ==> mishaps > old(mishaps))
    {
      var ok := Luck();
      if !ok {
        var _ := Complain(None);
        return None;
      }
      RunIsSound(c, story.run, |story.run| - 1);
      var entries := ListEntries(disk);
      return Some(entries);
    }

    /** GetFileAttributes on a file that is there. */
    method GetAttributes(n: Name) returns (r: Result<Inode, Problem>)
      requires disk.Has(n)
      modifies this`mishaps, this`troubles
      ensures if r.Ok? then r.value == disk.At(n) && troubles == old(troubles)
              else troubles == old(troubles) + [Trouble(Some(n), r.error)]
      ensures mishaps >= old(mishaps) && (r.Err? ==> mishaps > old(mishaps))
    {
      var ok := Luck();
      if ok {
        return Ok(disk.At(n));
      }
      var problem := Complain(Some(n));
      return Err(problem);
    }

    /**
     os.Remove on a file of a sweep, or on the backup of a committed install. Windows keeps read-only files; for backups
     that is no mishap, because whoever removes one can see to it.
     */
    method Unlink(p: nat, n: Name, ghost next: Proc) returns (r: Removal)
      requires Holding(p) && !Me(p).pc.Releasing? && HoldsLock(next.pc)
      requires disk.Has(n) && !(c.platform == Windows && disk.At(n).readonly) ==>
        Sweeping(disk, Me(p), n, Removed) == Some((disk.Remove(n), next))
      modifies this
      ensures Holding(p) && Continues(old(story), story)
      ensures r == Gone ==> disk == old(disk).Remove(n) && Me(p) == next
      ensures r == Missing ==> !old(disk).Has(n)
      ensures r != Gone ==> disk == old(disk) && Me(p) == old(Me(p))
      ensures troubles == if r.Denied? then old(troubles) + [Trouble(Some(n), r.problem)] else old(troubles)
      ensures r.Denied? ==>
        mishaps > old(mishaps) || (c.platform == Windows && IsBackup(n) && disk.Has(n) && disk.At(n).readonly)
      ensures mishaps >= old(mishaps)
    {
      var ok := Luck();
      if !disk.Has(n) {
        return Missing;
      }
      if c.platform == Windows && disk.At(n).readonly {
        troubles := troubles + [Trouble(Some(n), AccessDenied)];
        mishaps := if IsBackup(n) then mishaps else mishaps + 1;
        return Denied(AccessDenied);
      }
      if !ok {
        var problem := Complain(Some(n));
        return Denied(problem);
      }
      disk := disk.Remove(n);
      Sweep(p, n, Removed, next);
      Settle(p);
      return Gone;
    }

    /** Clears the read-only attribute of a backup that is to be removed; or says why it cannot. */
    method ClearReadonly(p: nat, n: Name) returns (r: Option<Problem>)
      requires Holding(p) && !Me(p).pc.Releasing? && disk.Has(n)
      requires Sweeping(disk, Me(p), n, Cleared) == Some((disk.Put(n, disk.At(n).(readonly := false)), Me(p)))
      modifies this
      ensures Holding(p) && Continues(old(story), story) && Me(p) == old(Me(p))
      ensures disk == if r.None? then old(disk).Put(n, old(disk.At(n)).(readonly := false)) else old(disk)
      ensures troubles == if r.Some? then old(troubles) + [Trouble(Some(n), r.value)] else old(troubles)
      ensures mishaps >= old(mishaps) && (r.Some? ==> mishaps > old(mishaps))
    {
      var ok := Luck();
      if !ok {
        var problem := Complain(Some(n));
        return Some(problem);
      }
      disk := disk.Put(n, disk.At(n).(readonly := false));
      Sweep(p, n, Cleared, Me(p));
      Settle(p);
      return None;
    }

    /** A backup that somebody still uses is left for a later install. */
    method Postpone(ghost p: nat, ghost n: Name, ghost next: Proc)
      requires Holding(p) && HoldsLock(next.pc) && Sweeping(disk, Me(p), n, Pending) == Some((disk, next))
      modifies this`disk, this`owner, this`born, this`story
      ensures Holding(p) && Continues(old(story), story) && Me(p) == next && disk == old(disk)
    {
      Sweep(p, n, Pending, next);
      Settle(p);
    }

    /*** System calls on the way to the lock, and on leaving ***/

    method Begin(plan: Plan) returns (p: nat)
      requires Valid() && plan in Now().plans && Admits(plan.updater, plan)
      modifies this`disk, this`owner, this`born, this`story
      ensures Outside(p) && Continues(old(story), story) && p == old(born)
      ensures Me(p).pc.Resolving? && Me(p).plan == plan
    {
      p := born;
      ghost var s' := Spawn(Now(), plan);
      Record(Machine.Begin(plan), s');
      born := born + 1;
      Yield(p);
    }

    /** Gives up before the lock is held. */
    ghost method Abandon(p: nat)
      requires Outside(p)
      modifies this`story
      ensures Returns(p, old(Me(p)).plan, Outcome(false, false, Failed)) && Continues(old(story), story)
    {
      NoResultYet(c, story.run, |story.run| - 1, p);
      AbandonedOutcome(c, story.run, |story.run| - 1, p);
      Record(Fail(p), Failing(Now(), p));
    }

    method Approaching(p: nat, ghost next: Proc)
      requires story.c == c && p in Now().procs && !HoldsLock(Me(p).pc) && Now().born == born
      requires next == Me(p).(pc := next.pc) && Approach(Now(), p).Some?
      requires Approach(Now(), p).value == With(Now(), p, next).(disk := disk, lock := owner)
      modifies this`disk, this`owner, this`born, this`story
      ensures Valid() && Continues(old(story), story) && p in Now().procs && Me(p) == next
      ensures old(owner) == Some(p) ==> owner == Some(p) && disk == old(disk)
    {
      Record(Succeed(p, Nothing), Approach(Now(), p).value);
      Yield(p);
    }

    /** EvalSymlinks on the target. */
    method Resolve(p: nat) returns (ok: bool)
      requires Outside(p) && Me(p).pc.Resolving?
      modifies this
      ensures Continues(old(story), story)
      ensures if ok then Outside(p) && Me(p) == old(Me(p)).(pc := OpeningLock)
              else Returns(p, old(Me(p)).plan, Outcome(false, false, Failed))
      ensures mishaps >= old(mishaps)
      ensures !ok ==> disk == old(disk) && (mishaps > old(mishaps) || !disk.Has(Target))
    {
      ok := Luck();
      ok := ok && disk.Has(Target);
      if ok {
        Approaching(p, Me(p).(pc := OpeningLock));
      } else {
        Abandon(p);
      }
    }

    /** Opens the lock file, or makes it. */
    method OpenLockFile(p: nat) returns (ok: bool)
      requires Outside(p) && Me(p).pc.OpeningLock?
      modifies this
      ensures Continues(old(story), story)
      ensures if ok then Outside(p) && Me(p) == old(Me(p)).(pc := Locking)
              else Returns(p, old(Me(p)).plan, Outcome(false, false, Failed))
      ensures clashes == old(clashes) && mishaps == if ok then old(mishaps) else old(mishaps) + 1
    {
      ok := Luck();
      if !ok {
        Abandon(p);
        return;
      }
      if LockFile !in disk.dir {
        disk := disk.Create(LockFile, BLANK);
      }
      Approaching(p, Me(p).(pc := Locking));
    }

    /** The non-blocking lock call: Taken means that somebody else has it. */
    method TryLock(p: nat) returns (r: Creation)
      requires Outside(p) && Me(p).pc.Locking?
      modifies this
      ensures Continues(old(story), story)
      ensures r == Made ==> Holding(p) && Me(p) == old(Me(p)).(pc := Reresolving)
      ensures r == Taken ==> Outside(p) && Me(p) == old(Me(p))
      ensures r == Refused ==> Returns(p, old(Me(p)).plan, Outcome(false, false, Failed))
      ensures clashes == if r == Taken then old(clashes) + 1 else old(clashes)
      ensures mishaps == if r == Made then old(mishaps) else old(mishaps) + 1
    {
      var ok := Luck();
      if !ok {
        Abandon(p);
        return Refused;
      }
      if owner.Some? {
        mishaps, clashes := mishaps + 1, clashes + 1;
        Yield(p);
        return Taken;
      }
      owner := Some(p);
      Approaching(p, Me(p).(pc := Reresolving));
      return Made;
    }

    /** Unlocks and closes; the lock is gone even when this complains. */
    method Unlock(p: nat) returns (ok: bool)
      requires Holding(p) && Me(p).pc.Releasing?
      modifies this
      ensures Continues(old(story), story) && disk == old(disk)
      ensures Returns(p, old(Me(p)).plan, Leaving(old(Me(p)), ok))
      ensures mishaps >= old(mishaps) && (!ok ==> mishaps > old(mishaps))
    {
      NoResultYet(c, story.run, |story.run| - 1, p);
      LeavingSteps(c, Now(), p);
      ok := Luck();
      owner := None;
      Record(if ok then Succeed(p, Nothing) else Fail(p), Leave(Now(), p, Leaving(Me(p), ok)));
    }
  }
}
