/** A call of the class Verifier is a run of the cache machine in which only one caller takes part. */
module TrustCalls {
  import opened Basics
  import opened TrustCache
  import LateJoiners

  /** The run ends in s. */
  ghost predicate EndsIn(run: seq<State>, s: State) { Run(run) && run[|run| - 1] == s }

  lemma Extend(start: seq<State>, run: seq<State>, a: Action, s: State, s': State) returns (run': seq<State>)
    requires EndsIn(run, s) && start <= run && Next(s, a) == Some(s')
    ensures EndsIn(run', s') && start <= run'
  {
    run' := LateJoiners.Extend(run, a, s, s');
  }

  /** Nobody flies, and the caller c is not in the middle of a call. */
  predicate Quiet(s: State, c: nat) { s.flight.None? && (c in s.callers ==> s.callers[c].Returned?) }

  /** The caller arrives, reads the clock at `now`, and looks. */
  lemma Looks(run: seq<State>, s: State, c: nat, now: int) returns (run': seq<State>, s': State)
    requires EndsIn(run, s) && Quiet(s, c) && s.now <= now
    ensures EndsIn(run', s') && run <= run'
    ensures s' == At(s.(now := now), c,
                     if Lookup(s.cache, now).Some? then Returned(now, None, Got(Lookup(s.cache, now).value, now))
                     else Joining(now))
  {
    var ticked := s.(now := now);
    run' := Extend(run, run, Tick(now), s, ticked);
    var arrived := At(ticked, c, Arriving);
    run' := Extend(run, run', Arrive(c), ticked, arrived);
    var looking := At(ticked, c, Looking(now));
    assert At(arrived, c, Looking(now)) == looking;
    run' := Extend(run, run', ReadClock(c), arrived, looking);
    s' := Next(looking, Look(c)).value;
    run' := Extend(run, run', Look(c), looking, s');
    assert looking.callers[c := s'.callers[c]] == ticked.callers[c := s'.callers[c]];
  }

  /** A caller that has found nothing starts a flight, which finds nothing either and begins to fetch. */
  lemma Departs(run: seq<State>, s: State, c: nat, now: int, checked: int) returns (run': seq<State>, s': State)
    requires EndsIn(run, s) && s.flight.None? && Caller(s, c) == Joining(now) && s.now == now <= checked
    requires Lookup(s.cache, now).None?
    ensures EndsIn(run', s') && run <= run'
    ensures s' == At(s, c, Waiting(now, s.born)).(
                    now := checked, flight := Some(Flight(s.born, Fetching(checked, checked))), born := s.born + 1)
  {
    var joined := At(s, c, Waiting(now, s.born)).(flight := Some(Flight(s.born, Departing)), born := s.born + 1);
    run' := Extend(run, run, Join(c), s, joined);
    var ticked := joined.(now := checked);
    run' := Extend(run, run', Tick(checked), joined, ticked);
    run' := Extend(run, run', Fly, ticked, Go(ticked, Checking(checked)));
    run' := Extend(run, run', Fly, Go(ticked, Checking(checked)), Go(ticked, Needing(checked)));
    s' := Go(ticked, Fetching(checked, checked));
    run' := Extend(run, run', Fly, Go(ticked, Needing(checked)), s');
  }

  /** What a flight brings back: a new verifier, or nothing. */
  function Brought(configured: Option<nat>, checked: int): Outcome {
    if configured.Some? then Got(configured.value, checked) else Failed
  }

  /** The flight fetches, builds and stores, or fails. */
  lemma Flies(run: seq<State>, s: State, checked: int, configured: Option<nat>, stored: int)
    returns (run': seq<State>, s': State)
    requires EndsIn(run, s) && s.flight.Some? && s.flight.value.pc == Fetching(checked, checked)
    requires s.now == checked <= stored && (configured.Some? ==> configured.value == |s.stores|)
    ensures EndsIn(run', s') && run <= run'
    ensures s'.flight == Some(s.flight.value.(pc := Landing(Brought(configured, checked))))
    ensures s'.callers == s.callers && s'.delivered == s.delivered
    ensures s'.cache == if configured.Some? then Cache(configured, stored + PERIOD) else s.cache
  {
    if configured.None? {
      s' := Next(s, FailFetch).value;
      run' := Extend(run, run, FailFetch, s, s');
      return;
    }
    var building := Flown(s).value;
    run' := Extend(run, run, Fly, s, building);
    var storing := Flown(building).value;
    run' := Extend(run, run', Fly, building, storing);
    var ticked := storing.(now := stored);
    run' := Extend(run, run', Tick(stored), storing, ticked);
    s' := Flown(ticked).value;
    run' := Extend(run, run', Fly, ticked, s');
  }

  /** The flight delivers, and the caller takes what it brought, or has lost its patience. */
  lemma Ends(run: seq<State>, s: State, c: nat, now: int, f: nat, brought: Outcome, done: bool)
    returns (run': seq<State>, s': State)
    requires EndsIn(run, s) && s.flight == Some(Flight(f, Landing(brought))) && Caller(s, c) == Waiting(now, f)
    ensures EndsIn(run', s') && run <= run' && s'.cache == s.cache
    ensures Caller(s', c) == Returned(now, Some(f), if done then Failed else brought)
  {
    var landed := s.(flight := None, delivered := s.delivered[f := brought]);
    run' := Extend(run, run, Fly, s, landed);
    s' := At(landed, c, Returned(now, Some(f), if done then Failed else brought));
    run' := Extend(run, run', if done then GiveUp(c) else Receive(c), landed, s');
  }

  /** What the outcome of a call of the machine is for the caller. */
  function Answered(o: Outcome): Option<nat> { if o.Got? then Some(o.verifier) else None }

  /**
   From every run that has come to a quiet moment there is a way on in which one caller takes exactly the steps of
   ConfiguredVerifier, with these clock readings: it ends with the cache that the method leaves, and the caller has
   returned, after its look at `now`, with what the method returns. A new verifier has the next number.
   */
  lemma CallIsARun(
    run: seq<State>, s: State, c: nat, now: int, checked: int, configured: Option<nat>, stored: int, done: bool)
    returns (run': seq<State>, s': State)
    requires EndsIn(run, s) && Quiet(s, c) && s.now <= now <= checked <= stored
    requires configured.Some? ==> configured.value == |s.stores|
    ensures EndsIn(run', s') && run <= run'
    ensures Caller(s', c).Returned? && Caller(s', c).t == now
    ensures (s'.cache, Answered(Caller(s', c).outcome)) == Called(s.cache, now, checked, configured, stored, done)
  {
    run', s' := Looks(run, s, c, now);
    if Lookup(s.cache, now).None? {
      run', s' := Departs(run', s', c, now, checked);
      var f := s'.flight.value.id;
      run', s' := Flies(run', s', checked, configured, stored);
      run', s' := Ends(run', s', c, now, f, Brought(configured, checked), done);
    }
  }
}
