/** On Unix an install is atomic against power failure, and durable once it has returned without an error. */
module PowerFailure {
  import opened Basics
  import opened Machine
  import opened Invariant
  import opened Preservation
  import opened Guarantees

  lemma SurvivorIsWhole(c: Config, s: State, d: Disk)
    requires Inv(c, s) && c.platform == Unix && (d == s.disk || Survives(s.disk, d))
    ensures d.Has(Target) && d.At(Target).synced && Whole(c, s.history, d.At(Target).content)
  {
    assert s.disk.dir[Target] in s.disk.maybe;
  }

  /** The program is the initial one, or that of a commit a plan justifies. */
  ghost predicate Provenance(c: Config, s: State, content: Bytes) {
    || content == c.initial
    || exists k :: 0 <= k < |s.history| && Justified(c, s, s.history[k]) && s.history[k].after == content
  }

  lemma WholeHasProvenance(c: Config, s: State, content: Bytes)
    requires Inv(c, s) && Whole(c, s.history, content)
    ensures Provenance(c, s, content)
  {
    if content != c.initial {
      var k :| 0 <= k < |s.history| && s.history[k].Commit? && s.history[k].after == content;
      CommitIsJust(c, s, k);
    }
  }

  /**
   At every moment of every run, in memory and on what a power failure would leave: there is a target, its content is
   completely on stable storage, and it is the initial program or a whole verified archive member.
   */
  lemma TargetSurvivesPowerFailure(c: Config, run: seq<State>, i: nat, d: Disk)
    requires Run(c, run) && i < |run| && c.platform == Unix && (d == run[i].disk || Survives(run[i].disk, d))
    ensures d.Has(Target) && d.At(Target).synced && Provenance(c, run[i], d.At(Target).content)
  {
    RunInv(c, run, i);
    SurvivorIsWhole(c, run[i], d);
    WholeHasProvenance(c, run[i], d.At(Target).content);
  }
}
