/** Installed versions only go up. */
module Monotonic {
  import opened Basics
  import opened Plans
  import opened Versions
  import opened Machine
  import opened Invariant
  import opened Preservation
  import opened Guarantees

  /**
   What the code cannot check, said of the commits j to k and of nothing that did not happen. `versionOf` says which
   version a program is: a release installed holds what its tag says, nobody made use of a permission to downgrade, and
   an updater knows the version of the program it fingerprinted, as far as that is a program replaced here.
   */
  ghost predicate Truthful(c: Config, h: seq<Event>, versionOf: Bytes -> string, j: nat, k: nat) {
    && (forall m :: j <= m <= k && m < |h| && h[m].Commit? ==> Labelled(h[m], versionOf))
    && (forall m, n :: j <= m <= k && j <= n <= k && m < |h| && n < |h| && h[n].Commit? ==>
          Recognizes(c, h[n].plan, h[m].before, versionOf))
  }

  predicate Labelled(e: Event, versionOf: Bytes -> string)
    requires e.Commit?
  {
    versionOf(e.after) == e.plan.availableVersion && !(e.plan.targeted && e.plan.updater.allowDowngrade)
  }

  /** If this is the program that the plan was made for, by its hash, then its version is what the updater says. */
  predicate Recognizes(c: Config, plan: Plan, content: Bytes, versionOf: Bytes -> string) {
    c.hash(content) == plan.fingerprint ==> versionOf(content) == plan.updater.currentVersion
  }

  predicate Older(v: string, w: string) {
    IsStable(v) && IsStable(w) && Compare(v, w) < 0
  }

  lemma OlderTransitive(u: string, v: string, w: string)
    requires Older(u, v) && Older(v, w)
    ensures Older(u, w)
  {
    CompareTransitive(u, v, w);
  }

  lemma NotOlderThanItself(v: string)
    ensures !Older(v, v)
  {
    if IsStable(v) {
      CompareIsPrecedence(v, v);
    }
  }

  lemma CommitRaises(c: Config, s: State, versionOf: Bytes -> string, j: nat, k: nat, m: nat)
    requires Records(c, s) && Truthful(c, s.history, versionOf, j, k) && j <= m <= k && m < |s.history|
    requires s.history[m].Commit?
    ensures Older(versionOf(s.history[m].before), versionOf(s.history[m].after))
    ensures versionOf(s.history[m].before) == s.history[m].plan.updater.currentVersion
  {
    assert CommitOk(c, s, s.history[m]);
    assert Labelled(s.history[m], versionOf);
    assert Recognizes(c, s.history[m].plan, s.history[m].before, versionOf);
  }

  /** Events j to k are commits: no power failure took a program back. */
  ghost predicate OnlyCommits(h: seq<Event>, j: nat, k: nat) {
    forall m :: j <= m <= k && m < |h| ==> h[m].Commit?
  }

  predicate Raises(e: Event, versionOf: Bytes -> string) { Older(versionOf(e.before), versionOf(e.after)) }

  /** Each of the events j to k raises the version and starts from where the one before it ended. */
  ghost predicate Rising(h: seq<Event>, versionOf: Bytes -> string, j: nat, k: nat) {
    && (forall m :: j <= m <= k && m < |h| ==> Raises(h[m], versionOf))
    && (forall m :: j < m <= k && m < |h| ==> h[m].before == h[m - 1].after)
  }

  lemma CommitsAreRising(c: Config, s: State, versionOf: Bytes -> string, j: nat, k: nat)
    requires Records(c, s) && Truthful(c, s.history, versionOf, j, k)
    requires j <= k < |s.history| && OnlyCommits(s.history, j, k)
    ensures Rising(s.history, versionOf, j, k)
  {
    forall m | j <= m <= k
      ensures Raises(s.history[m], versionOf) && (j < m ==> s.history[m].before == s.history[m - 1].after)
    {
      CommitRaises(c, s, versionOf, j, k, m);
      ChainLink(c, s, m);
    }
  }

  lemma {:induction false} RisingRaises(h: seq<Event>, versionOf: Bytes -> string, j: nat, k: nat)
    requires j <= k < |h| && Rising(h, versionOf, j, k)
    ensures Older(versionOf(h[j].before), versionOf(h[k].after))
  {
    assert Raises(h[k], versionOf);
    if j < k {
      RisingRaises(h, versionOf, j, k - 1);
      OlderTransitive(versionOf(h[j].before), versionOf(h[k].before), versionOf(h[k].after));
    }
  }

  lemma RisingNeverRepeats(h: seq<Event>, versionOf: Bytes -> string, j: nat, k: nat)
    requires j < k < |h| && Rising(h, versionOf, j, k)
    ensures Older(versionOf(h[j].after), versionOf(h[k].after))
    ensures h[j].before != h[k].after && h[j].after != h[k].after && versionOf(h[j].before) != versionOf(h[k].before)
  {
    RisingRaises(h, versionOf, j + 1, k);
    RisingRaises(h, versionOf, j, k);
    RisingRaises(h, versionOf, j, k - 1);
    NotOlderThanItself(versionOf(h[k].after));
    NotOlderThanItself(versionOf(h[k].before));
  }

  lemma SameFingerprintSameVersion(c: Config, s: State, versionOf: Bytes -> string, j: nat, k: nat)
    requires Records(c, s) && Truthful(c, s.history, versionOf, j, k) && j <= k < |s.history|
    requires s.history[j].Commit? && s.history[k].Commit?
    ensures s.history[j].plan.fingerprint == s.history[k].plan.fingerprint ==>
      versionOf(s.history[j].before) == versionOf(s.history[k].before)
  {
    CommitRaises(c, s, versionOf, j, k, j);
    assert CommitOk(c, s, s.history[k]);
    assert Recognizes(c, s.history[j].plan, s.history[k].before, versionOf);
  }

  /**
   Along every run, between power failures: installed versions strictly increase, no program is installed twice or
   comes back, and of all plans made for one fingerprint at most one is ever committed.
   */
  lemma VersionsStrictlyIncrease(c: Config, run: seq<State>, i: nat, versionOf: Bytes -> string, j: nat, k: nat)
    requires Run(c, run) && i < |run| && Truthful(c, run[i].history, versionOf, j, k)
    requires j < k < |run[i].history| && OnlyCommits(run[i].history, j, k)
    ensures var h := run[i].history;
            && Older(versionOf(h[j].after), versionOf(h[k].after))
            && h[j].before != h[k].after && h[j].after != h[k].after
            && h[j].plan.fingerprint != h[k].plan.fingerprint
  {
    RunInv(c, run, i);
    CommitsAreRising(c, run[i], versionOf, j, k);
    RisingNeverRepeats(run[i].history, versionOf, j, k);
    SameFingerprintSameVersion(c, run[i], versionOf, j, k);
  }

  lemma OneMoreCommit(h: seq<Event>, d: Disk, p: nat, q: Proc)
    requires OnlyCommits(h, 0, |h|)
    ensures OnlyCommits(h + Commits(d, p, q), 0, |h + Commits(d, p, q)|)
  {
  }

  /** No step but a power failure takes anything back. */
  lemma StepAddsCommits(c: Config, s: State, a: Action, s': State)
    requires Roster(s) && Next(c, s, a) == Some(s') && !a.PowerLoss? && OnlyCommits(s.history, 0, |s.history|)
    ensures OnlyCommits(s'.history, 0, |s'.history|)
  {
    if s'.history != s.history {
      HolderMakesHistory(c, s, a, s');
      OneMoreCommit(s.history, s.disk, a.pid, s.procs[a.pid]);
    }
  }

  lemma NoPowerLossOnWindows(c: Config, s: State, a: Action)
    requires Next(c, s, a).Some? && c.platform == Windows
    ensures !a.PowerLoss?
  {
  }

  lemma StepOnWindows(c: Config, run: seq<State>, k: nat)
    requires Run(c, run) && k + 1 < |run| && c.platform == Windows
    requires OnlyCommits(run[k].history, 0, |run[k].history|)
    ensures OnlyCommits(run[k + 1].history, 0, |run[k + 1].history|)
  {
    RunInv(c, run, k);
    var a := StepAt(c, run, k);
    NoPowerLossOnWindows(c, run[k], a);
    StepAddsCommits(c, run[k], a, run[k + 1]);
  }

  /** On Windows nothing is ever taken back, so the whole history is one rising sequence. */
  lemma WindowsNeverReverts(c: Config, run: seq<State>, i: nat)
    requires Run(c, run) && i < |run| && c.platform == Windows
    ensures OnlyCommits(run[i].history, 0, |run[i].history|)
  {
    assert run[0].history == [];
    for k := 0 to i
      invariant OnlyCommits(run[k].history, 0, |run[k].history|)
    {
      StepOnWindows(c, run, k);
    }
  }

  /*** What the gate lets through ***/

  /** A plan that a check makes is admitted exactly when its version is newer, or a permitted targeted one. */
  lemma GateAdmits(u: Updater, version: string, asset: Asset, targeted: bool, fingerprint: Bytes)
    requires IsStable(version)
    ensures Admits(u, BuildPlan(u, version, asset, targeted, fingerprint)) <==>
              IsStable(u.currentVersion)
              && (Before(Fields(u.currentVersion), Fields(version)) || (targeted && u.allowDowngrade))
  {
    GatesDecide(u, BuildPlan(u, version, asset, targeted, fingerprint));
  }
}
