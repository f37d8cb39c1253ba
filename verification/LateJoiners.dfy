/** Exactly when a caller that waits for a flight is given a verifier fresh at its own look. */
module LateJoiners {
  import opened Basics
  import opened TrustCache
  import opened TrustService

  /** The period of this verifier is over by time t. */
  predicate Over(s: State, verifier: nat, t: int) {
    verifier < |s.stores| && s.stores[verifier].at + PERIOD <= t
  }

  /**
   The flight under way has already settled on a verifier whose period is over by t: it has landed with it, or it has
   read the clock early enough to be about to find it fresh.
   */
  predicate Stale(s: State, t: int) {
    && s.flight.Some?
    && match s.flight.value.pc
       case Landing(outcome) => outcome.Got? && Over(s, outcome.verifier, t)
       case Checking(read) => Lookup(s.cache, read).Some? && s.cache.expires <= t
       case _ => false
  }

  /** What waiting for flight f from a look at t comes to can only be fresh. */
  predicate WillServe(s: State, f: nat, t: int) {
    if f in s.delivered then s.delivered[f].Got? ==> !Over(s, s.delivered[f].verifier, t) else !Stale(s, t)
  }

  /** The caller c waits for the flight f since its look at t. */
  predicate WaitsFor(s: State, c: nat, t: int, f: nat) { c in s.callers && s.callers[c] == Waiting(t, f) }

  lemma ServiceStays(s: State, a: Action, s': State, c: nat, t: int, f: nat)
    requires Inv(s) && Next(s, a) == Some(s') && WaitsFor(s, c, t, f) && WillServe(s, f, t)
    ensures WillServe(s', f, t)
  {
    assert CallerOk(s, s.callers[c]);
    if f in s.delivered {
      assert Fresh(s, s.delivered[f]);
    }
    match a
    case Fly => FlyingKeepsService(s, s', t, f);
    case _ =>
  }

  lemma FlyingKeepsService(s: State, s': State, t: int, f: nat)
    requires Inv(s) && Flown(s) == Some(s') && t <= s.now && WillServe(s, f, t)
    requires f in s.delivered || s.flight.value.id == f
    ensures WillServe(s', f, t)
  {
    if f in s.delivered {
      assert Fresh(s, s.delivered[f]);
    }
  }

  /** In step q the caller joins a flight, waits for it, and with the last state of the run gets this from it. */
  ghost predicate Served(run: seq<State>, q: nat, c: nat, t: int, f: nat, outcome: Outcome) {
    && Run(run) && Joins(run, q, c, t, f) && q + 2 < |run|
    && (forall k :: q < k < |run| - 1 ==> WaitsFor(run[k], c, t, f))
    && Caller(run[|run| - 1], c) == Returned(t, Some(f), outcome) && outcome.Got?
  }

  lemma JoiningStep(s: State, a: Action, s': State, c: nat, t: int, f: nat)
    requires Inv(s) && Next(s, a) == Some(s') && Caller(s, c) == Joining(t) && Caller(s', c) == Waiting(t, f)
    ensures !Stale(s, t) ==> WillServe(s', f, t)
  {
  }

  lemma ReceivingStep(s: State, a: Action, s': State, c: nat, t: int, f: nat, outcome: Outcome)
    requires Inv(s) && Next(s, a) == Some(s') && WaitsFor(s, c, t, f) && WillServe(s, f, t)
    requires Caller(s', c) == Returned(t, Some(f), outcome) && outcome.Got?
    ensures Unexpired(s', outcome.verifier, t)
  {
    ReturnStep(s, a, s', c, t, Some(f), outcome);
    assert Fresh(s, s.delivered[f]);
    assert s'.stores == s.stores;
  }

  /** Unless the flight is stale when the caller joins, every way on serves it a verifier fresh at its own look. */
  lemma FreshJoinsServeFresh(run: seq<State>, q: nat, c: nat, t: int, f: nat, outcome: Outcome)
    requires Served(run, q, c, t, f, outcome) && !Stale(run[q], t)
    ensures Unexpired(run[|run| - 1], outcome.verifier, t)
  {
    RunInv(run, q);
    var a := StepAt(run, q);
    JoiningStep(run[q], a, run[q + 1], c, t, f);
    for k := q + 1 to |run| - 2
      invariant WillServe(run[k], f, t)
    {
      RunInv(run, k);
      var b := StepAt(run, k);
      ServiceStays(run[k], b, run[k + 1], c, t, f);
    }
    RunInv(run, |run| - 2);
    var b := StepAt(run, |run| - 2);
    ReceivingStep(run[|run| - 2], b, run[|run| - 1], c, t, f, outcome);
  }

  /** Whoever starts the flight, or joins before the flight has read its clock, is served fresh. */
  lemma EarlyJoinersAreServedFresh(run: seq<State>, q: nat, c: nat, t: int, f: nat, outcome: Outcome)
    requires Served(run, q, c, t, f, outcome)
    requires run[q].flight.Some? ==> run[q].flight.value.pc.Departing?
    ensures Unexpired(run[|run| - 1], outcome.verifier, t)
  {
    FreshJoinsServeFresh(run, q, c, t, f, outcome);
  }

  /*** The other direction ***/

  lemma RunGrows(run: seq<State>, a: Action, s': State)
    requires Run(run) && Next(run[|run| - 1], a) == Some(s')
    ensures Run(run + [s'])
  {
    var run' := run + [s'];
    assert Step(run[|run| - 1], s');
    forall i: nat | i + 1 < |run'| ensures StepsAt(run', i) {
      assert i + 1 < |run| ==> StepsAt(run, i);
    }
  }

  /** The flight, stale at Checking, lands with what it finds. */
  lemma LandStale(s: State, t: int) returns (s': State)
    requires Inv(s) && Stale(s, t) && s.flight.value.pc.Checking?
    ensures Next(s, Fly) == Some(s') && Stale(s', t) && s'.flight.value.pc.Landing?
    ensures s'.callers == s.callers && s'.flight.value.id == s.flight.value.id
  {
    s' := Flown(s).value;
  }

  /** A caller that waits for a flight that has landed with a stale verifier is served it. */
  lemma ServeStale(run: seq<State>, q: nat, c: nat, t: int, f: nat) returns (more: seq<State>, outcome: Outcome)
    requires Run(run) && Joins(run, q, c, t, f) && forall k :: q < k < |run| ==> WaitsFor(run[k], c, t, f)
    requires var s := run[|run| - 1];
             Stale(s, t) && s.flight.value.id == f && s.flight.value.pc.Landing?
    ensures Served(run + more, q, c, t, f, outcome) && |more| > 0
    ensures Over((run + more)[|run + more| - 1], outcome.verifier, t)
  {
    var s := run[|run| - 1];
    outcome := s.flight.value.pc.outcome;
    var landed := s.(flight := None, delivered := s.delivered[f := outcome]);
    var returned := At(landed, c, Returned(t, Some(f), outcome));
    RunGrows(run, Fly, landed);
    RunGrows(run + [landed], Receive(c), returned);
    more := [landed, returned];
    assert run + [landed] + [returned] == run + more;
    assert Caller((run + more)[|run + more| - 1], c) == Returned(t, Some(f), outcome);
    forall k | q < k < |run + more| - 1 ensures WaitsFor((run + more)[k], c, t, f) {
      assert k < |run| ==> (run + more)[k] == run[k];
    }
    assert (run + more)[q] == run[q] && (run + more)[q + 1] == run[q + 1];
  }

  /** A caller about to join a stale flight can be served stale. */
  lemma StaleJoinsCanServeStale(run: seq<State>, c: nat, t: int) returns (more: seq<State>, f: nat, outcome: Outcome)
    requires Run(run) && Caller(run[|run| - 1], c) == Joining(t) && Stale(run[|run| - 1], t)
    ensures Served(run + more, |run| - 1, c, t, f, outcome)
    ensures Over((run + more)[|run + more| - 1], outcome.verifier, t)
  {
    var s := run[|run| - 1];
    f := s.flight.value.id;
    var joined := At(s, c, Waiting(t, f));
    RunGrows(run, Join(c), joined);
    var first := run + [joined];
    assert first[|run| - 1] == s && first[|run|] == joined;
    if joined.flight.value.pc.Checking? {
      RunInv(first, |run|);
      var landed := LandStale(joined, t);
      RunGrows(first, Fly, landed);
      var second := first + [landed];
      assert second[|run| - 1] == s && second[|run|] == joined && second[|run| + 1] == landed;
      var rest;
      rest, outcome := ServeStale(second, |run| - 1, c, t, f);
      more := [joined, landed] + rest;
      assert second + rest == run + more;
    } else {
      var rest;
      rest, outcome := ServeStale(first, |run| - 1, c, t, f);
      more := [joined] + rest;
      assert first + rest == run + more;
    }
  }

  /** The run goes on so that its last caller about to join is served a verifier stale at its own look. */
  ghost predicate ServesStale(run: seq<State>, more: seq<State>, c: nat, t: int, f: nat, outcome: Outcome)
    requires |run| > 0
  {
    && Served(run + more, |run| - 1, c, t, f, outcome)
    && Over((run + more)[|run + more| - 1], outcome.verifier, t)
  }

  /**
   The exact condition, on the state in which a caller joins: it can be served a verifier whose period was over at its
   own look if and only if the flight is stale then.
   */
  lemma JoiningDecides(run: seq<State>, c: nat, t: int)
    requires Run(run) && Caller(run[|run| - 1], c) == Joining(t)
    ensures Stale(run[|run| - 1], t) <==>
      exists more, f, outcome :: ServesStale(run, more, c, t, f, outcome)
  {
    if Stale(run[|run| - 1], t) {
      var more, f, outcome := StaleJoinsCanServeStale(run, c, t);
      assert ServesStale(run, more, c, t, f, outcome);
    }
    if more, f, outcome :| ServesStale(run, more, c, t, f, outcome) {
      assert (run + more)[|run| - 1] == run[|run| - 1];
      if !Stale(run[|run| - 1], t) {
        FreshJoinsServeFresh(run + more, |run| - 1, c, t, f, outcome);
      }
    }
  }

  /*** It does happen ***/

  lemma Extend(run: seq<State>, a: Action, s: State, s': State) returns (run': seq<State>)
    requires Run(run) && run[|run| - 1] == s && Next(s, a) == Some(s')
    ensures Run(run') && run' == run + [s'] && run'[|run'| - 1] == s'
  {
    RunGrows(run, a, s');
    run' := run + [s'];
  }

  /** The first caller of all finds nothing, and its flight departs. */
  lemma FirstCaller() returns (run: seq<State>, s: State)
    ensures Run(run) && run[|run| - 1] == s
    ensures s == State(0, Cache(None, 0), Some(Flight(0, Departing)), 1, map[0 := Waiting(0, 0)], map[], [], [])
  {
    var start := State(0, Cache(None, 0), None, 0, map[], map[], [], []);
    run := [start];
    var arrived := At(start, 0, Arriving);
    run := Extend(run, Arrive(0), start, arrived);
    var looking := At(arrived, 0, Looking(0));
    run := Extend(run, ReadClock(0), arrived, looking);
    var joining := At(looking, 0, Joining(0));
    run := Extend(run, Look(0), looking, joining);
    s := At(joining, 0, Waiting(0, 0)).(flight := Some(Flight(0, Departing)), born := 1);
    run := Extend(run, Join(0), joining, s);
    assert s.callers == map[0 := Waiting(0, 0)];
  }

  /** Its flight, up to the landing at time 0. */
  lemma FirstFlight() returns (run: seq<State>, s: State)
    ensures Run(run) && run[|run| - 1] == s
    ensures s == State(0, Cache(Some(0), PERIOD), Some(Flight(0, Landing(Got(0, 0)))), 1,
                       map[0 := Waiting(0, 0)], map[],
                       [Fetch(0, 0, Some(PERIOD))], [Store(0, 0)])
  {
    var waiting;
    run, waiting := FirstCaller();
    run := Extend(run, Fly, waiting, Go(waiting, Checking(0)));
    run := Extend(run, Fly, Go(waiting, Checking(0)), Go(waiting, Needing(0)));
    run := Extend(run, Fly, Go(waiting, Needing(0)), Go(waiting, Fetching(0, 0)));
    var building := Go(waiting, Building(0)).(fetches := [] + [Fetch(0, 0, None)]);
    run := Extend(run, Fly, Go(waiting, Fetching(0, 0)), building);
    var storing := Go(building, Storing(0, 0)).(cache := Cache(Some(0), 0));
    run := Extend(run, Fly, building, storing);
    s := Flown(storing).value;
    assert s.stores == [Store(0, 0)] && s.fetches == [Fetch(0, 0, Some(PERIOD))];
    run := Extend(run, Fly, storing, s);
  }

  /**
   A run in which a second caller, whose own look comes a whole period later, joins the first flight before it has
   delivered, and is served a verifier whose period was over at that look.
   */
  lemma StaleServiceHappens() returns (run: seq<State>, c: nat, t: int, verifier: nat)
    ensures Run(run) && Caller(run[|run| - 1], c).Returned?
    ensures Caller(run[|run| - 1], c).t == t && Caller(run[|run| - 1], c).outcome.Got?
    ensures Caller(run[|run| - 1], c).outcome.verifier == verifier && Over(run[|run| - 1], verifier, t)
  {
    var s;
    run, s := FirstFlight();
    c, t := 1, PERIOD;
    var later := s.(now := PERIOD);
    run := Extend(run, Tick(PERIOD), s, later);
    var arrived := At(later, 1, Arriving);
    run := Extend(run, Arrive(1), later, arrived);
    var looking := At(arrived, 1, Looking(PERIOD));
    run := Extend(run, ReadClock(1), arrived, looking);
    var joining := At(looking, 1, Joining(PERIOD));
    run := Extend(run, Look(1), looking, joining);
    var more, f, outcome := StaleJoinsCanServeStale(run, 1, PERIOD);
    run, verifier := run + more, outcome.verifier;
  }
}
