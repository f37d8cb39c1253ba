/** Which verifiers callers of the trust cache are given, over whole runs of it. */
module TrustService {
  import opened Basics
  import opened TrustCache

  lemma StepAt(run: seq<State>, k: nat) returns (a: Action)
    requires Run(run) && k + 1 < |run|
    ensures Next(run[k], a) == Some(run[k + 1])
  {
    assert StepsAt(run, k);
    a :| Next(run[k], a) == Some(run[k + 1]);
  }

  /** The verifier has been stored, and its period is not over at time t. */
  predicate Unexpired(s: State, verifier: nat, t: int) {
    verifier < |s.stores| && t < s.stores[verifier].at + PERIOD
  }

  /*** Where the clock readings come from ***/

  /** In step j the caller c, just arrived, reads the clock. */
  predicate ReadsClock(run: seq<State>, j: nat, c: nat) {
    && j + 1 < |run| && Caller(run[j], c).Arriving? && Caller(run[j + 1], c) == Looking(run[j].now)
  }

  /** In step j the flight f, just departed, reads the clock. */
  predicate FlightReads(run: seq<State>, j: nat, f: nat) {
    && j + 1 < |run|
    && run[j].flight == Some(Flight(f, Departing)) && run[j + 1].flight == Some(Flight(f, Checking(run[j].now)))
  }

  /** In step j the caller c, whose own look found nothing fresh, starts to wait for the flight f. */
  predicate Joins(run: seq<State>, j: nat, c: nat, t: int, f: nat) {
    j + 1 < |run| && Caller(run[j], c) == Joining(t) && Caller(run[j + 1], c) == Waiting(t, f)
  }

  lemma CallerStep(s: State, a: Action, s': State, c: nat)
    requires Next(s, a) == Some(s') && c in s'.callers && !s'.callers[c].Arriving?
    ensures c in s.callers
    ensures if Caller(s, c).Arriving? then s'.callers[c] == Looking(s.now)
            else s'.callers[c].t == Caller(s, c).t
                 && (s'.callers[c] == Caller(s, c) || !Caller(s, c).Returned?)
    ensures s'.callers[c].Waiting? && !Caller(s, c).Waiting? ==> Caller(s, c) == Joining(s'.callers[c].t)
    ensures s'.callers[c].Waiting? && Caller(s, c).Waiting? ==> s'.callers[c] == Caller(s, c)
  {
  }

  /** The look time that a caller carries is the clock of the very step in which it read it, in this call. */
  lemma LookTime(run: seq<State>, i: nat, c: nat) returns (j: nat)
    requires Run(run) && i < |run| && c in run[i].callers && !run[i].callers[c].Arriving?
    ensures j < i && ReadsClock(run, j, c) && run[j].now == run[i].callers[c].t
    ensures forall k :: j < k <= i ==> c in run[k].callers && !run[k].callers[c].Arriving?
    ensures forall k :: j < k <= i ==> run[k].callers[c].t == run[j].now
  {
    j := i;
    while j > 0
      invariant j <= i
      invariant forall k :: j <= k <= i ==>
        c in run[k].callers && !run[k].callers[c].Arriving? && run[k].callers[c].t == run[i].callers[c].t
    {
      var a := StepAt(run, j - 1);
      CallerStep(run[j - 1], a, run[j], c);
      j := j - 1;
      if Caller(run[j], c).Arriving? {
        return;
      }
    }
  }

  /** The clock reading a flight carries. */
  function Reading(pc: FlightPc): Option<int> {
    match pc
    case Departing => None
    case Landing(outcome) => if outcome.Got? then Some(outcome.read) else None
    case Checking(t) => Some(t)
    case Needing(t) => Some(t)
    case Fetching(t, _) => Some(t)
    case Building(t) => Some(t)
    case Storing(t, _) => Some(t)
  }

  lemma FlightStep(s: State, a: Action, s': State, flight: Flight)
    requires Next(s, a) == Some(s') && s'.flight == Some(flight) && Reading(flight.pc).Some?
    ensures s.flight.Some? && s.flight.value.id == flight.id
    ensures Reading(s.flight.value.pc) == Reading(flight.pc)
            || (s.flight.value.pc.Departing? && flight.pc == Checking(s.now))
  {
  }

  /** The reading that a flight carries is the clock of the very step in which it read it, after it had departed. */
  lemma FlightTime(run: seq<State>, i: nat, flight: Flight) returns (j: nat)
    requires Run(run) && i < |run| && run[i].flight == Some(flight) && Reading(flight.pc).Some?
    ensures j < i && FlightReads(run, j, flight.id) && run[j].now == Reading(flight.pc).value
  {
    j := i;
    while j > 0
      invariant j <= i && run[j].flight.Some? && run[j].flight.value.id == flight.id
      invariant Reading(run[j].flight.value.pc) == Reading(flight.pc)
    {
      var a := StepAt(run, j - 1);
      FlightStep(run[j - 1], a, run[j], run[j].flight.value);
      j := j - 1;
      if run[j].flight.value.pc.Departing? {
        return;
      }
    }
  }

  lemma DeliveredStep(s: State, a: Action, s': State, f: nat)
    requires Next(s, a) == Some(s') && f in s'.delivered
    ensures (f in s.delivered && s.delivered[f] == s'.delivered[f])
            || s.flight == Some(Flight(f, Landing(s'.delivered[f])))
  {
  }

  /** What a flight delivered is what it landed with. */
  lemma LandedWith(run: seq<State>, i: nat, f: nat) returns (j: nat)
    requires Run(run) && i < |run| && f in run[i].delivered
    ensures j < i && run[j].flight == Some(Flight(f, Landing(run[i].delivered[f])))
  {
    j := i;
    while j > 0
      invariant j <= i && f in run[j].delivered && run[j].delivered[f] == run[i].delivered[f]
    {
      var a := StepAt(run, j - 1);
      DeliveredStep(run[j - 1], a, run[j], f);
      j := j - 1;
      if run[j].flight == Some(Flight(f, Landing(run[i].delivered[f]))) {
        return;
      }
    }
  }

  /** How a caller that returns a verifier came by it. */
  lemma ReturnStep(s: State, a: Action, s': State, c: nat, t: int, waited: Option<nat>, outcome: Outcome)
    requires Next(s, a) == Some(s') && c in s'.callers && s'.callers[c] == Returned(t, waited, outcome) && outcome.Got?
    ensures c in s.callers
    ensures || s.callers[c] == s'.callers[c]
            || (s.callers[c] == Looking(t) && waited == None && outcome.read == t)
            || (waited.Some? && s.callers[c] == Waiting(t, waited.value)
                && waited.value in s.delivered && s.delivered[waited.value] == outcome)
  {
  }

  lemma ReturnedBy(run: seq<State>, i: nat, c: nat, t: int, waited: Option<nat>, outcome: Outcome) returns (j: nat)
    requires Run(run) && i < |run| && c in run[i].callers && run[i].callers[c] == Returned(t, waited, outcome)
    requires outcome.Got?
    ensures j < i && c in run[j].callers && !run[j].callers[c].Arriving?
    ensures forall k :: j < k <= i ==> Caller(run[k], c) == Returned(t, waited, outcome)
    ensures if waited.None? then outcome.read == t
            else run[j].callers[c] == Waiting(t, waited.value)
                 && waited.value in run[j].delivered && run[j].delivered[waited.value] == outcome
  {
    j := i;
    while j > 0
      invariant j <= i && c in run[j].callers
      invariant forall k :: j <= k <= i ==> Caller(run[k], c) == Returned(t, waited, outcome)
    {
      var a := StepAt(run, j - 1);
      ReturnStep(run[j - 1], a, run[j], c, t, waited, outcome);
      j := j - 1;
      if run[j].callers[c] != Returned(t, waited, outcome) {
        return;
      }
    }
  }

  /** Whoever waits for a flight has joined it, after its own look. */
  lemma JoinedBy(run: seq<State>, i: nat, c: nat, t: int, f: nat) returns (j: nat)
    requires Run(run) && i < |run| && c in run[i].callers && run[i].callers[c] == Waiting(t, f)
    ensures j < i && Joins(run, j, c, t, f) && forall k :: j < k <= i ==> Caller(run[k], c) == Waiting(t, f)
  {
    j := i;
    while j > 0
      invariant j <= i && c in run[j].callers && forall k :: j <= k <= i ==> Caller(run[k], c) == Waiting(t, f)
    {
      var a := StepAt(run, j - 1);
      CallerStep(run[j - 1], a, run[j], c);
      j := j - 1;
      if !Caller(run[j], c).Waiting? {
        return;
      }
    }
  }

  /**
   Whoever is given a verifier is given one whose period is not over at a real reading of the clock: by its own look,
   at the step in which this caller read the clock in this call; through a flight, at the step in which that very
   flight, for which this caller waited after its own look, read the clock after it had departed.
   */
  lemma VerifiersAreFresh(run: seq<State>, i: nat, c: nat) returns (looked: nat, j: nat)
    requires Run(run) && i < |run| && c in run[i].callers
    requires run[i].callers[c].Returned? && run[i].callers[c].outcome.Got?
    ensures looked < i && ReadsClock(run, looked, c) && run[looked].now == run[i].callers[c].t
    ensures forall k :: looked < k <= i ==> !Caller(run[k], c).Arriving?
    ensures j < i && run[i].callers[c].outcome.read == run[j].now
    ensures Unexpired(run[i], run[i].callers[c].outcome.verifier, run[j].now)
    ensures var waited := run[i].callers[c].waited;
            if waited.None? then j == looked
            else FlightReads(run, j, waited.value)
                 && exists q :: looked < q < i && Joins(run, q, c, run[looked].now, waited.value)
  {
    var pc := run[i].callers[c];
    looked := LookTime(run, i, c);
    var m := ReturnedBy(run, i, c, pc.t, pc.waited, pc.outcome);
    RunInv(run, i);
    if pc.waited.None? {
      j := looked;
    } else {
      var f := pc.waited.value;
      var landed := LandedWith(run, m, f);
      j := FlightTime(run, landed, Flight(f, Landing(pc.outcome)));
      var q := JoinedBy(run, m, c, pc.t, f);
      assert q > looked;
    }
  }
}
