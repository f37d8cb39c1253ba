/** What the invariant means: the guarantees of the install protocol, for every run of it. */
module Guarantees {
  import opened Basics
  import opened Plans
  import opened Versions
  import opened Machine
  import opened Invariant
  import opened Preservation
  import opened DiskSteps
  import Attestations

  /*** The last copy is never lost ***/

  /**
   In every reachable state the program installed last is the target, or, on Windows only, lies under a backup name;
   and whenever there is a target, it is that program.
   */
  lemma LastCopyIsNeverLost(c: Config, run: seq<State>, i: nat)
    requires Run(c, run) && i < |run|
    ensures var d, last := run[i].disk, Last(c, run[i].history);
            if Target in d.dir then d.Has(Target) && d.At(Target).content == last
            else c.platform == Windows && exists n :: n in d.dir && IsCopy(d, n, last)
  {
    RunInv(c, run, i);
  }

  /** What is in place is the initial program, or the unique member of an archive a plan pinned. */
  lemma InstalledBytesHaveProvenance(c: Config, run: seq<State>, i: nat)
    requires Run(c, run) && i < |run| && run[i].disk.Has(Target)
    ensures var s, content := run[i], run[i].disk.At(Target).content;
            || content == c.initial
            || exists k :: 0 <= k < |s.history| && Justified(c, s, s.history[k]) && s.history[k].after == content
  {
    RunInv(c, run, i);
    var s, content := run[i], run[i].disk.At(Target).content;
    if content != c.initial {
      var k :| 0 <= k < |s.history| && s.history[k].Commit? && s.history[k].after == content;
      CommitIsJust(c, s, k);
    }
  }

  /** Everything that must be true of a commit. */
  ghost predicate Justified(c: Config, s: State, e: Event) {
    && e.Commit?
    && Admits(e.plan.updater, e.plan)
    && c.hash(e.before) == e.plan.fingerprint && e.afterPerm == e.beforePerm
    && c.hash(e.archive) == e.plan.digest
    && Unpack(c, e.archive) == Some(e.after)
    && (e.plan.updater.workflow != "" ==> exists x :: Backs(c, s, e.plan, x))
  }

  /** A transcript on file that ends in a bundle accepted for exactly the release asset of this plan. */
  predicate Backs(c: Config, s: State, plan: Plan, x: Attestations.Evidence) {
    && x in s.verified && Attestations.Accepted(c.verify, x)
    && x.request == RequestFor(plan.updater, plan.availableVersion, Asset(plan.assetName, plan.digest))
  }

  lemma MatchingRecordIsBacked(c: Config, s: State, plan: Plan)
    requires Records(c, s) && plan in s.plans
    requires plan.provenance.Some? && Matches(plan.provenance.value, plan.updater, plan)
    ensures exists x :: Backs(c, s, plan, x)
  {
    assert PlanOk(c, s, plan);
    var x :| x in s.verified && x.request == RequestOf(plan.provenance.value);
    assert plan.provenance.value == NewRecord(plan.updater, plan.availableVersion, Asset(plan.assetName, plan.digest));
    assert Backs(c, s, plan, x);
  }

  lemma CommitIsJust(c: Config, s: State, k: nat)
    requires Inv(c, s) && k < |s.history| && s.history[k].Commit?
    ensures Justified(c, s, s.history[k])
  {
    var plan := s.history[k].plan;
    assert CommitOk(c, s, s.history[k]);
    if plan.updater.workflow != "" {
      MatchingRecordIsBacked(c, s, plan);
    }
  }

  /** Plans come from checks and from nowhere else. */
  lemma StepBuildsPlans(c: Config, s: State, a: Action, s': State)
    requires Next(c, s, a) == Some(s')
    ensures forall plan :: plan in s'.plans && plan !in s.plans ==> Built(plan)
  {
    if a.Succeed? {
      SucceedingMakesNoPlans(c, s, a.pid, a.input, s');
    }
  }

  lemma SucceedingMakesNoPlans(c: Config, s: State, p: nat, input: Input, s': State)
    requires p in s.procs && Succeeding(c, s, p, input) == Some(s')
    ensures s'.plans == s.plans
  {
  }

  lemma PlansAreBuilt(c: Config, run: seq<State>, i: nat, plan: Plan)
    requires Run(c, run) && i < |run| && plan in run[i].plans
    ensures Built(plan)
  {
    var j: nat := i;
    while j > 0
      invariant j <= i && plan in run[j].plans
    {
      j := j - 1;
      var a := StepAt(c, run, j);
      StepBuildsPlans(c, run[j], a, run[j + 1]);
      if plan !in run[j].plans {
        return;
      }
    }
  }

  /** In every run, the gates let exactly the permitted ones of the plans on record through. */
  lemma OnlyPermittedPlansPass(c: Config, run: seq<State>, i: nat, u: Updater, plan: Plan)
    requires Run(c, run) && i < |run| && plan in run[i].plans
    ensures Admits(u, plan) <==> Permitted(u, plan)
  {
    PlansAreBuilt(c, run, i, plan);
    GatesDecide(u, plan);
  }

  /** Evidence is put on file only by a check, and it is what that check rests on. */
  lemma FiledByCheck(c: Config, s: State, a: Action, s': State, x: Attestations.Evidence)
    requires Next(c, s, a) == Some(s') && x in s'.verified && x !in s.verified
    ensures a.Checked? && a.evidence == Some(x) && Vouched(c, Some(x), a.updater, a.version, a.asset)
    ensures IsStable(a.version)
  {
  }

  lemma FiledOnce(c: Config, run: seq<State>, i: nat, x: Attestations.Evidence) returns (j: nat, a: Action)
    requires Run(c, run) && i < |run| && x in run[i].verified
    ensures j < i && Next(c, run[j], a) == Some(run[j + 1])
    ensures a.Checked? && a.evidence == Some(x) && Vouched(c, Some(x), a.updater, a.version, a.asset)
    ensures IsStable(a.version)
  {
    j := i;
    while j > 0
      invariant j <= i && x in run[j].verified
    {
      j := j - 1;
      a := StepAt(c, run, j);
      if x !in run[j].verified {
        FiledByCheck(c, run[j], a, run[j + 1], x);
        return;
      }
    }
  }

  lemma JustifiedCommit(c: Config, run: seq<State>, i: nat, k: nat)
    requires Run(c, run) && i < |run| && k < |run[i].history| && run[i].history[k].Commit?
    ensures Justified(c, run[i], run[i].history[k]) && IsStable(run[i].history[k].plan.availableVersion)
  {
    RunInv(c, run, i);
    CommitIsJust(c, run[i], k);
  }

  /**
   With an attestation policy, every commit rests on an earlier check with the transcript of a search to show, which
   ends in a bundle that the verifier accepted for exactly this owner, repository, workflow, version, asset name and
   archive digest.
   */
  lemma CommitsAreAttested(c: Config, run: seq<State>, i: nat, k: nat)
    returns (j: nat, a: Action, x: Attestations.Evidence)
    requires Run(c, run) && i < |run| && k < |run[i].history| && run[i].history[k].Commit?
    requires run[i].history[k].plan.updater.workflow != ""
    ensures j < i && Next(c, run[j], a) == Some(run[j + 1]) && a.Checked? && a.evidence == Some(x)
    ensures Attestations.Accepted(c.verify, x)
    ensures var plan := run[i].history[k].plan;
            var record := NewRecord(plan.updater, plan.availableVersion, Asset(plan.assetName, plan.digest));
            && SpelledOut(x.request, plan.updater, plan.availableVersion, Asset(plan.assetName, plan.digest))
            && x.request == RequestOf(record) && NewRecord(a.updater, a.version, a.asset) == record
    ensures c.hash(run[i].history[k].archive) == x.request.digest
  {
    var plan := run[i].history[k].plan;
    JustifiedCommit(c, run, i, k);
    x :| Backs(c, run[i], plan, x);
    j, a := FiledOnce(c, run, i, x);
    RequestsAreSpelled(plan.updater, plan.availableVersion, Asset(plan.assetName, plan.digest));
    RequestPinsRelease(
      a.updater, a.version, a.asset, plan.updater, plan.availableVersion, Asset(plan.assetName, plan.digest));
  }

  /*** The commits form a chain ***/

  lemma ChainLink(c: Config, s: State, k: nat)
    requires Records(c, s) && k < |s.history| && s.history[k].Commit?
    ensures var h := s.history;
            && h[k].before == (if k == 0 then c.initial else h[k - 1].after)
            && c.hash(h[k].before) == h[k].plan.fingerprint
            && h[k].afterPerm == h[k].beforePerm
            && forall j :: 0 <= j < |h| && j != k && h[j].Commit? ==> h[j].pid != h[k].pid
  {
    var h := s.history;
    assert CommitOk(c, s, h[k]);
    assert h[k].before == Last(c, h[..k]);
    assert k > 0 ==> h[..k][k - 1] == h[k - 1];
    forall j | 0 <= j < |h| && j != k && h[j].Commit? ensures h[j].pid != h[k].pid {
      var lo, hi := if j < k then j else k, if j < k then k else j;
      assert h[lo].pid != h[hi].pid;
    }
  }

  /**
   No update is lost: each commit's plan was made for exactly the content that the commit replaced, which is what
   the event before it had left; the permission bits carry over; and no install commits twice.
   */
  lemma CommitsFormAChain(c: Config, run: seq<State>, i: nat, k: nat)
    requires Run(c, run) && i < |run| && k < |run[i].history| && run[i].history[k].Commit?
    ensures var h := run[i].history;
            && h[k].before == (if k == 0 then c.initial else h[k - 1].after)
            && c.hash(h[k].before) == h[k].plan.fingerprint
            && h[k].afterPerm == h[k].beforePerm
            && forall j :: 0 <= j < |h| && j != k && h[j].Commit? ==> h[j].pid != h[k].pid
  {
    RunInv(c, run, i);
    ChainLink(c, run[i], k);
  }

  lemma SucceedingHistory(c: Config, s: State, p: nat, input: Input, s': State)
    requires p in s.procs && Succeeding(c, s, p, input) == Some(s') && s'.history != s.history
    ensures HoldsLock(s.procs[p].pc) && !s.procs[p].pc.Releasing?
    ensures Advance(c, s.disk, s.procs[p], input).Some?
    ensures s'.disk == Advance(c, s.disk, s.procs[p], input).value.0
    ensures s'.history == s.history + Commits(s.disk, p, s.procs[p])
  {
  }

  /** Only a successful call of the lock holder adds to the history. */
  lemma HolderMakesHistory(c: Config, s: State, a: Action, s': State)
    requires Roster(s) && Next(c, s, a) == Some(s') && s'.history != s.history && !a.PowerLoss?
    ensures a.Succeed? && a.pid in s.procs && HolderOf(s) == Some(s.procs[a.pid])
    ensures Advance(c, s.disk, s.procs[a.pid], a.input).Some?
    ensures s'.disk == Advance(c, s.disk, s.procs[a.pid], a.input).value.0
    ensures Commits(s.disk, a.pid, s.procs[a.pid]) != []
    ensures s'.history == s.history + Commits(s.disk, a.pid, s.procs[a.pid])
  {
    assert a.Succeed?;
    SucceedingHistory(c, s, a.pid, a.input, s');
    HolderIs(s, a.pid);
  }

  /** The old program at the commit point: in place on Unix, under the backup name on Windows. */
  predicate OldProgram(d: Disk, q: Proc, content: Bytes, perm: nat) {
    var replaced := if q.pc.Renaming? then Some(Target) else q.backup;
    Present(d, replaced) && d.At(replaced.value).content == content && d.At(replaced.value).perm == perm
  }

  /** A commit goes on record in the very step that puts the staged file in the place of what it says it replaced. */
  lemma CommitIsTheRename(c: Config, s: State, a: Action, s': State)
    requires Inv(c, s) && Next(c, s, a) == Some(s') && s'.history != s.history && !a.PowerLoss?
    ensures a.Succeed? && a.pid in s.procs && IsCommit(s.procs[a.pid].pc) && !HasCommit(s.history, a.pid)
    ensures exists e :: s'.history == s.history + [e] && CommittedBy(e, a.pid) && Justified(c, s', e)
                        && e.plan == s.procs[a.pid].plan
                        && OldProgram(s.disk, s.procs[a.pid], e.before, e.beforePerm)
                        && s'.disk.Has(Target) && s'.disk.At(Target).content == e.after
  {
    HolderMakesHistory(c, s, a, s');
    var p := a.pid;
    var q := s.procs[p];
    assert ProcOk(s, p);
    CommitsOnlyAtCommit(s.disk, p, q);
    var e := CommitEvent(c, s, p, a.input);
    StepKeepsInv(c, s, a, s');
    assert s'.history[|s.history|] == e;
    CommitIsJust(c, s', |s.history|);
    InstalledContent(c, s.disk, p, q, a.input);
  }

  lemma InstalledContent(c: Config, d: Disk, p: nat, q: Proc, input: Input)
    requires IsCommit(q.pc) && Advance(c, d, q, input).Some?
    ensures var d' := Advance(c, d, q, input).value.0;
            && Commits(d, p, q) != [] && Commits(d, p, q)[0].plan == q.plan
            && d'.Has(Target) && d'.At(Target).content == Commits(d, p, q)[0].after
    ensures OldProgram(d, q, Commits(d, p, q)[0].before, Commits(d, p, q)[0].beforePerm)
  {
  }

  /*** Never executable but partial ***/

  /** Files keep their bits, except that the install q may give its stage file the target's; new ones are private. */
  predicate BitsOf(d: Disk, q: Option<Proc>, d': Disk) {
    && |d.inodes| <= |d'.inodes|
    && (forall id :: |d.inodes| <= id < |d'.inodes| ==> d'.inodes[id].perm == 384)
    && (forall id :: 0 <= id < |d.inodes| && d'.inodes[id].perm != d.inodes[id].perm ==>
          q.Some? && q.value.pc.Chmodding? && Present(d, q.value.stage) && d.dir[q.value.stage.value] == id
          && d'.inodes[id].perm == q.value.perm)
  }

  lemma AdvanceKeepsBits(c: Config, d: Disk, q: Proc, input: Input, d': Disk, q': Proc)
    requires Advance(c, d, q, input) == Some((d', q'))
    ensures BitsOf(d, Some(q), d')
  {
    if 12 <= Rank(q.pc) <= 21 {
      PrestageKeepsBits(c, d, q, input, d', q');
    } else if 22 <= Rank(q.pc) <= 31 {
      ReplaceKeepsBits(c, d, q, input, d', q');
    }
  }

  lemma PrestageKeepsBits(c: Config, d: Disk, q: Proc, input: Input, d': Disk, q': Proc)
    requires Prestage(c, d, q, input) == Some((d', q'))
    ensures BitsOf(d, Some(q), d')
  {
  }

  lemma ReplaceKeepsBits(c: Config, d: Disk, q: Proc, input: Input, d': Disk, q': Proc)
    requires Replace(c, d, q, input) == Some((d', q'))
    ensures BitsOf(d, Some(q), d')
  {
  }

  lemma SucceedingKeepsBits(c: Config, s: State, p: nat, input: Input, s': State)
    requires p in s.procs && Succeeding(c, s, p, input) == Some(s')
    ensures BitsOf(s.disk, Some(s.procs[p]), s'.disk)
  {
    var q := s.procs[p];
    if HoldsLock(q.pc) && !q.pc.Releasing? {
      AdvanceKeepsBits(c, s.disk, q, input, s'.disk, Advance(c, s.disk, q, input).value.1);
    }
  }

  lemma StepKeepsBits(c: Config, s: State, a: Action, s': State)
    requires Next(c, s, a) == Some(s') && !a.PowerLoss?
    ensures BitsOf(s.disk, if a.Succeed? then Some(s.procs[a.pid]) else None, s'.disk)
  {
    if a.Succeed? {
      SucceedingKeepsBits(c, s, a.pid, a.input, s');
    }
  }

  /** The file has been extracted and is on stable storage, and no byte of the archive's member is missing. */
  predicate WholeMember(c: Config, d: Disk, q: Proc) {
    && Present(d, q.stage) && Present(d, q.archive) && d.At(q.stage.value).synced
    && Unpack(c, d.At(q.archive.value).content) == Some(d.At(q.stage.value).content)
    && c.hash(d.At(q.archive.value).content) == q.plan.digest
  }

  lemma ChmoddedIsWhole(c: Config, d: Disk, q: Proc, last: Bytes)
    requires Holder(c, d, q, last) && q.pc.Chmodding?
    ensures WholeMember(c, d, q)
  {
  }

  /**
   No file is ever executable but partial: what installs make is private to its owner, and its permission bits change
   only in the one step that gives them to a stage file that already is the archive's whole member on stable storage.
   */
  lemma OnlyWholeFilesBecomeExecutable(c: Config, s: State, a: Action, s': State, id: nat)
    requires Inv(c, s) && Next(c, s, a) == Some(s') && !a.PowerLoss? && id < |s'.disk.inodes|
    ensures id >= |s.disk.inodes| ==> s'.disk.inodes[id].perm == 384
    ensures id < |s.disk.inodes| && s'.disk.inodes[id].perm != s.disk.inodes[id].perm ==>
      && a.Succeed? && s.procs[a.pid].pc.Chmodding? && WholeMember(c, s.disk, s.procs[a.pid])
      && s.disk.dir[s.procs[a.pid].stage.value] == id && s'.disk.inodes[id].perm == s.procs[a.pid].perm
  {
    StepKeepsBits(c, s, a, s');
    if id < |s.disk.inodes| && s'.disk.inodes[id].perm != s.disk.inodes[id].perm {
      HolderIs(s, a.pid);
      ChmoddedIsWhole(c, s.disk, s.procs[a.pid], Last(c, s.history));
    }
  }
}
