/**
 The cache of the configured Sigstore verifier. Callers look into it under a mutex; when it has nothing fresh, one
 flight at a time fetches the trusted root for everybody who waits. A clock that never runs backwards ticks between
 any two steps.
 */
module TrustCache {
  import opened Basics

  /** 24 hours, in nanoseconds. */
  const PERIOD := 86400000000000

  /** The guarded fields. Verifiers are numbered as they are made. */
  datatype Cache = Cache(verifier: Option<nat>, expires: int)

  /** cachedVerifier: what the cache has for somebody whose clock says t. */
  function Lookup(cache: Cache, t: int): Option<nat> {
    if cache.verifier.None? || !(t < cache.expires) then None else cache.verifier
  }

  /** What a caller gets; `read` is the clock reading that the verifier was found fresh by. */
  datatype Outcome = Failed | Got(verifier: nat, read: int)

  /** From its look on, a caller carries the clock reading t of that look; in the end also the flight it waited for. */
  datatype CallerPc =
    | Arriving | Looking(t: int) | Joining(t: int) | Waiting(t: int, flight: nat)
    | Returned(t: int, waited: Option<nat>, outcome: Outcome)

  /** One run of the initialization. While it is Storing it holds the mutex and has written the first field. */
  datatype FlightPc =
    | Departing | Checking(t: int) | Needing(t: int) | Fetching(t: int, start: int) | Building(t: int)
    | Storing(t: int, verifier: nat) | Landing(outcome: Outcome)

  datatype Flight = Flight(id: nat, pc: FlightPc)

  /** A finished fetch; `expiry` is what was stored for it, if it came to that. */
  datatype Fetch = Fetch(start: int, end: int, expiry: Option<int>)

  datatype Store = Store(verifier: nat, at: int)

  datatype State = State(
    now: int, cache: Cache, flight: Option<Flight>, born: nat, callers: map<nat, CallerPc>,
    delivered: map<nat, Outcome>, fetches: seq<Fetch>, stores: seq<Store>)

  predicate Locked(s: State) { s.flight.Some? && s.flight.value.pc.Storing? }

  datatype Action =
    | Tick(now: int)
    | Arrive(caller: nat)
    | ReadClock(caller: nat)
    | Look(caller: nat)
    | Join(caller: nat)
    | Receive(caller: nat)
    | GiveUp(caller: nat)
    | Fly
    | FailFetch
    | FailBuild

  function At(s: State, caller: nat, pc: CallerPc): State { s.(callers := s.callers[caller := pc]) }

  function Go(s: State, pc: FlightPc): State
    requires s.flight.Some?
  {
    s.(flight := Some(s.flight.value.(pc := pc)))
  }

  function Caller(s: State, caller: nat): CallerPc {
    if caller in s.callers then s.callers[caller] else Returned(s.now, None, Failed)
  }

  /** The next successful step of the flight. */
  function Flown(s: State): Option<State> {
    if s.flight.None? then None
    else match s.flight.value.pc
      case Departing => Some(Go(s, Checking(s.now)))
      case Checking(t) =>
        (match Lookup(s.cache, t)
         case Some(v) => Some(Go(s, Landing(Got(v, t))))
         case None => Some(Go(s, Needing(t))))
      case Needing(t) => Some(Go(s, Fetching(t, s.now)))
      case Fetching(t, start) => Some(Go(s, Building(t)).(fetches := s.fetches + [Fetch(start, s.now, None)]))
      case Building(t) =>
        var v := |s.stores|;
        Some(Go(s, Storing(t, v)).(cache := s.cache.(verifier := Some(v))))
      case Storing(t, v) =>
        var expires := s.now + PERIOD;
        Some(Go(s, Landing(Got(v, t))).(
             cache := s.cache.(expires := expires),
             stores := s.stores + [Store(v, s.now)],
             fetches := if |s.fetches| == 0 then s.fetches
                        else s.fetches[|s.fetches| - 1 := s.fetches[|s.fetches| - 1].(expiry := Some(expires))]))
      case Landing(outcome) => Some(s.(flight := None, delivered := s.delivered[s.flight.value.id := outcome]))
  }

  function Next(s: State, a: Action): Option<State> {
    match a
    case Tick(now) => if s.now <= now then Some(s.(now := now)) else None
    case Arrive(c) => if c !in s.callers || s.callers[c].Returned? then Some(At(s, c, Arriving)) else None
    case ReadClock(c) => if Caller(s, c).Arriving? then Some(At(s, c, Looking(s.now))) else None
    case Look(c) =>
      if !Caller(s, c).Looking? || Locked(s) then None
      else
        var t := Caller(s, c).t;
        (match Lookup(s.cache, t)
         case Some(v) => Some(At(s, c, Returned(t, None, Got(v, t))))
         case None => Some(At(s, c, Joining(t))))
    case Join(c) =>
      if !Caller(s, c).Joining? then None
      else if s.flight.Some? then Some(At(s, c, Waiting(Caller(s, c).t, s.flight.value.id)))
      else
        Some(At(s, c, Waiting(Caller(s, c).t, s.born)).(flight := Some(Flight(s.born, Departing)), born := s.born + 1))
    case Receive(c) =>
      if Caller(s, c).Waiting? && Caller(s, c).flight in s.delivered
      then
        var f := Caller(s, c).flight;
        Some(At(s, c, Returned(Caller(s, c).t, Some(f), s.delivered[f])))
      else None
    case GiveUp(c) =>
      if Caller(s, c).Waiting?
      then Some(At(s, c, Returned(Caller(s, c).t, Some(Caller(s, c).flight), Failed))) else None
    case Fly => Flown(s)
    case FailFetch =>
      if s.flight.Some? && s.flight.value.pc.Fetching?
      then Some(Go(s, Landing(Failed)).(fetches := s.fetches + [Fetch(s.flight.value.pc.start, s.now, None)])) else None
    case FailBuild => if s.flight.Some? && s.flight.value.pc.Building? then Some(Go(s, Landing(Failed))) else None
  }

  ghost predicate Step(s: State, s': State) { exists a :: Next(s, a) == Some(s') }

  predicate Init(s: State) {
    && s.cache == Cache(None, 0) && s.flight == None && s.callers == map[] && s.delivered == map[]
    && s.fetches == [] && s.stores == []
  }

  ghost predicate StepsAt(run: seq<State>, i: nat)
    requires i + 1 < |run|
  {
    Step(run[i], run[i + 1])
  }

  ghost predicate Run(run: seq<State>) {
    |run| > 0 && Init(run[0]) && forall i: nat :: i + 1 < |run| ==> StepsAt(run, i)
  }

  /*** The invariant ***/

  /** A verifier that somebody was given had been stored, for a period that was not over at the clock reading. */
  ghost predicate Fresh(s: State, o: Outcome) {
    o.Got? ==> o.verifier < |s.stores| && s.stores[o.verifier].verifier == o.verifier
               && o.read < s.stores[o.verifier].at + PERIOD
  }

  /** The cache holds the verifier stored last, with its expiry. */
  predicate CacheOk(s: State) {
    if Locked(s) then
      s.cache.verifier == Some(|s.stores|) && s.flight.value.pc.verifier == |s.stores|
    else if |s.stores| == 0 then s.cache.verifier == None
    else s.cache == Cache(Some(|s.stores| - 1), s.stores[|s.stores| - 1].at + PERIOD)
  }

  predicate StoresOk(s: State) {
    forall i :: 0 <= i < |s.stores| ==> s.stores[i].verifier == i && s.stores[i].at <= s.now
  }

  /** When the last period that was stored ends; before the first, always. */
  predicate PeriodsOver(s: State, t: int) {
    |s.stores| > 0 ==> s.stores[|s.stores| - 1].at + PERIOD <= t
  }

  predicate FetchesOk(s: State) {
    && (forall i :: 0 <= i < |s.fetches| ==> s.fetches[i].start <= s.fetches[i].end <= s.now)
    && (forall i :: 0 <= i < |s.fetches| && s.fetches[i].expiry.Some? ==>
          |s.stores| > 0 && s.fetches[i].expiry.value <= s.stores[|s.stores| - 1].at + PERIOD)
  }

  predicate FlightOk(s: State) {
    s.flight.Some? ==>
      match s.flight.value.pc
         case Departing => true
         case Checking(t) => t <= s.now
         case Needing(t) => t <= s.now && PeriodsOver(s, t)
         case Fetching(t, start) => t <= start <= s.now && PeriodsOver(s, t) && EndedBy(s.fetches, start)
         case Building(t) => t <= s.now && PeriodsOver(s, t) && HasOpenFetch(s)
         case Storing(t, _) => t <= s.now && PeriodsOver(s, t) && HasOpenFetch(s)
         case Landing(_) => true
  }

  predicate EndedBy(fetches: seq<Fetch>, t: int) {
    forall i :: 0 <= i < |fetches| ==> fetches[i].end <= t
  }

  predicate HasOpenFetch(s: State) {
    |s.fetches| > 0 && s.fetches[|s.fetches| - 1].expiry == None
  }

  ghost predicate OutcomesOk(s: State) {
    && (s.flight.Some? && s.flight.value.pc.Landing? ==> Fresh(s, s.flight.value.pc.outcome))
    && (forall f :: f in s.delivered ==> Fresh(s, s.delivered[f]))
    && (forall c :: c in s.callers && s.callers[c].Returned? ==> Fresh(s, s.callers[c].outcome))
  }

  /** Fetches do not overlap, and each starts when the periods stored before it are over. */
  predicate Spaced(fetches: seq<Fetch>) {
    forall i, j :: 0 <= i < j < |fetches| ==>
      fetches[i].end <= fetches[j].start && (fetches[i].expiry.Some? ==> fetches[i].expiry.value <= fetches[j].start)
  }

  /** Flights are numbered in the order they depart; what has been delivered comes from earlier ones. */
  predicate NumbersOk(s: State) {
    && (s.flight.Some? ==> s.flight.value.id < s.born && s.flight.value.id !in s.delivered)
    && (forall f :: f in s.delivered ==> f < s.born)
  }

  /** Nobody's look is in the future, and nobody waits for a flight that is neither under way nor delivered. */
  predicate CallerOk(s: State, pc: CallerPc) {
    && (!pc.Arriving? ==> pc.t <= s.now)
    && (pc.Waiting? ==> pc.flight in s.delivered || (s.flight.Some? && s.flight.value.id == pc.flight))
  }

  ghost predicate CallersOk(s: State) {
    forall c :: c in s.callers ==> CallerOk(s, s.callers[c])
  }

  ghost predicate Inv(s: State) {
    && CacheOk(s) && StoresOk(s) && FetchesOk(s) && FlightOk(s) && OutcomesOk(s) && Spaced(s.fetches)
    && NumbersOk(s) && CallersOk(s)
  }

  lemma TickKeepsInv(s: State, now: int)
    requires Inv(s) && s.now <= now
    ensures Inv(s.(now := now))
  {
  }

  /** A caller moves on: everything else stays, but that a flight may depart. */
  lemma CallerMoves(s: State, c: nat, pc: CallerPc, s': State)
    requires Inv(s) && (pc.Returned? ==> Fresh(s, pc.outcome)) && CallerOk(s', pc)
    requires s' == At(s, c, pc)
             || (s.flight == None && s' == At(s, c, pc).(flight := Some(Flight(s.born, Departing)), born := s.born + 1))
    ensures Inv(s')
  {
  }

  lemma LookupIsFresh(s: State, t: int)
    requires Inv(s) && !Locked(s) && Lookup(s.cache, t).Some?
    ensures Fresh(s, Got(Lookup(s.cache, t).value, t))
  {
  }

  lemma CallerKeepsInv(s: State, a: Action, s': State)
    requires Inv(s) && Next(s, a) == Some(s') && !a.Fly? && !a.FailFetch? && !a.FailBuild?
    ensures Inv(s')
  {
    if a.Tick? {
      TickKeepsInv(s, a.now);
    } else {
      if a.Look? && Lookup(s.cache, Caller(s, a.caller).t).Some? {
        LookupIsFresh(s, Caller(s, a.caller).t);
      }
      CallerMoves(s, a.caller, s'.callers[a.caller], s');
    }
  }

  /** A step of the flight that only moves it on. */
  lemma MoveKeepsInv(s: State, pc: FlightPc)
    requires Inv(s) && s.flight.Some? && !Locked(s) && !pc.Storing?
    requires FlightOk(Go(s, pc)) && (pc.Landing? ==> Fresh(s, pc.outcome))
    ensures Inv(Go(s, pc))
  {
  }

  lemma LandingKeepsInv(s: State)
    requires Inv(s) && s.flight.Some? && s.flight.value.pc.Landing?
    ensures Inv(Flown(s).value)
  {
  }

  /** A fetch has ended. */
  lemma FetchedKeepsInv(s: State, pc: FlightPc)
    requires Inv(s) && s.flight.Some? && s.flight.value.pc.Fetching?
    requires pc == Landing(Failed) || pc == Building(s.flight.value.pc.t)
    ensures Inv(Go(s, pc).(fetches := s.fetches + [Fetch(s.flight.value.pc.start, s.now, None)]))
  {
  }

  lemma BuildingKeepsInv(s: State)
    requires Inv(s) && s.flight.Some? && s.flight.value.pc.Building?
    ensures Inv(Flown(s).value)
  {
  }

  lemma StoringKeepsOutcomes(s: State)
    requires Inv(s) && Locked(s)
    ensures OutcomesOk(Flown(s).value)
  {
    assert s.stores <= Flown(s).value.stores;
  }

  lemma StoringKeepsBooks(s: State)
    requires Inv(s) && Locked(s)
    ensures var s' := Flown(s).value; CacheOk(s') && StoresOk(s') && FetchesOk(s') && FlightOk(s') && Spaced(s'.fetches)
  {
  }

  lemma CheckingKeepsInv(s: State)
    requires Inv(s) && s.flight.Some? && s.flight.value.pc.Checking?
    ensures Inv(Flown(s).value)
  {
    var t := s.flight.value.pc.t;
    if Lookup(s.cache, t).Some? {
      LookupIsFresh(s, t);
      MoveKeepsInv(s, Landing(Got(Lookup(s.cache, t).value, t)));
    } else {
      MoveKeepsInv(s, Needing(t));
    }
  }

  lemma FlyKeepsInv(s: State, s': State)
    requires Inv(s) && Flown(s) == Some(s')
    ensures Inv(s')
  {
    match s.flight.value.pc
    case Departing => MoveKeepsInv(s, Checking(s.now));
    case Checking(_) => CheckingKeepsInv(s);
    case Needing(t) => MoveKeepsInv(s, Fetching(t, s.now));
    case Fetching(t, _) => FetchedKeepsInv(s, Building(t));
    case Building(_) => BuildingKeepsInv(s);
    case Storing(_, _) =>
      StoringKeepsOutcomes(s);
      StoringKeepsBooks(s);
    case Landing(_) => LandingKeepsInv(s);
  }

  lemma StepKeepsInv(s: State, a: Action, s': State)
    requires Inv(s) && Next(s, a) == Some(s')
    ensures Inv(s')
  {
    match a
    case Fly => FlyKeepsInv(s, s');
    case FailFetch => FetchedKeepsInv(s, Landing(Failed));
    case FailBuild => MoveKeepsInv(s, Landing(Failed));
    case _ => CallerKeepsInv(s, a, s');
  }

  lemma RunInv(run: seq<State>, i: nat)
    requires Run(run) && i < |run|
    ensures Inv(run[i])
  {
    for k := 0 to i
      invariant Inv(run[k])
    {
      assert StepsAt(run, k);
      var a :| Next(run[k], a) == Some(run[k + 1]);
      StepKeepsInv(run[k], a, run[k + 1]);
    }
  }

  /*** What callers can rely on ***/

  /**
   Fetches never overlap, and a fetch after one whose result was stored starts no earlier than the expiry stored with
   it; the same holds of a fetch still under way.
   */
  lemma FetchesAreSpaced(run: seq<State>, i: nat)
    requires Run(run) && i < |run|
    ensures Spaced(run[i].fetches)
    ensures run[i].flight.Some? && run[i].flight.value.pc.Fetching? ==>
      Spaced(run[i].fetches + [Fetch(run[i].flight.value.pc.start, run[i].now, None)])
  {
    RunInv(run, i);
  }

  /** Only a verifier that was fetched and built replaces what is cached; failures leave the cache as it is. */
  lemma FailuresLeaveTheCache(s: State, a: Action, s': State)
    requires Next(s, a) == Some(s') && s'.cache != s.cache
    ensures a.Fly? && s.flight.Some? && (s.flight.value.pc.Building? || s.flight.value.pc.Storing?)
    ensures s.flight.value.pc.Building? ==> Locked(s') && s'.cache == s.cache.(verifier := Some(|s.stores|))
    ensures s.flight.value.pc.Storing? ==>
      !Locked(s') && s'.cache == s.cache.(expires := s.now + PERIOD)
      && s'.stores == s.stores + [Store(s.flight.value.pc.verifier, s.now)]
  {
  }

  /** Nobody looks while the two fields are being written, so a verifier is never seen with another one's expiry. */
  lemma NobodySeesHalfAStore(s: State, a: Action, s': State)
    requires Inv(s) && Next(s, a) == Some(s') && a.Look?
    ensures s.cache.verifier.Some? ==>
      s.cache.verifier.value < |s.stores| && s.cache.expires == s.stores[s.cache.verifier.value].at + PERIOD
  {
  }

  /** What a flight makes of the cache, and what it has to deliver. */
  function FlownThrough(cache: Cache, checked: int, configured: Option<nat>, stored: int): (Cache, Option<nat>) {
    if Lookup(cache, checked).Some? then (cache, Lookup(cache, checked))
    else if configured.None? then (cache, None)
    else (Cache(configured, stored + PERIOD), configured)
  }

  /** What a call makes of the cache, and what it returns, with nobody else around. */
  function Called(
    cache: Cache, now: int, checked: int, configured: Option<nat>, stored: int, done: bool): (Cache, Option<nat>)
  {
    if Lookup(cache, now).Some? then (cache, Lookup(cache, now))
    else
      var (cache', r) := FlownThrough(cache, checked, configured, stored);
      (cache', if done then None else r)
  }

  /*** The verifier as an object, called by one caller at a time ***/

  class Verifier {
    var verifier: Option<nat>
    var verifierExpires: int

    ghost function Contents(): Cache
      reads this
    {
      Cache(verifier, verifierExpires)
    }

    constructor ()
      ensures Contents() == Cache(None, 0)
    {
      verifier, verifierExpires := None, 0;
    }

    method CachedVerifier(now: int) returns (r: Option<nat>)
      ensures r == Lookup(Contents(), now)
    {
      if verifier.None? || !(now < verifierExpires) {
        return None;
      }
      return verifier;
    }

    /**
     The body of a flight: `checked` and `stored` are its two clock readings, `configured` what fetching and building
     come to. Afterwards the cache is fresh at the first reading, or nothing has changed.
     */
    method Initialize(checked: int, configured: Option<nat>, stored: int) returns (r: Option<nat>)
      requires checked <= stored
      modifies this
      ensures r.Some? ==> Lookup(Contents(), checked) == r && Contents().verifier == r
      ensures r.None? ==> configured.None? && Contents() == old(Contents())
      ensures old(Lookup(Contents(), checked)).Some? ==> Contents() == old(Contents())
      ensures old(Lookup(Contents(), checked)).None? && r.Some? ==>
        Contents() == Cache(configured, stored + 86400000000000)
      ensures (Contents(), r) == FlownThrough(old(Contents()), checked, configured, stored)
    {
      r := CachedVerifier(checked);
      if r.Some? {
        return;
      }
      if configured.None? {
        return None;
      }
      verifier := configured;
      verifierExpires := stored + PERIOD;
      return configured;
    }

    /**
     With nobody else around: the verifier cached at the first look, or what the flight comes to. Module TrustCalls
     shows that this is a run of the machine.
     */
    method ConfiguredVerifier(now: int, checked: int, configured: Option<nat>, stored: int, done: bool)
      returns (r: Option<nat>)
      requires now <= checked <= stored
      modifies this
      ensures r.Some? ==> Lookup(Contents(), now) == r
      ensures old(Lookup(Contents(), now)).Some? ==> r == old(verifier) && Contents() == old(Contents())
      ensures old(Lookup(Contents(), now)).None? && r.Some? ==> !done && r == configured
      ensures r.None? ==> done || configured.None?
      ensures (Contents(), r) == Called(old(Contents()), now, checked, configured, stored, done)
    {
      r := CachedVerifier(now);
      if r.Some? {
        return;
      }
      r := Initialize(checked, configured, stored);
      if done {
        return None;
      }
    }
  }

  /*** The subject of a verified statement ***/

  datatype Subject = Subject(name: string, sha256: string)

  datatype Statement = Statement(kind: string, predicateType: string, subjects: seq<Subject>)

  const STATEMENT_V1 := "https://in-toto.io/Statement/v1"

  /** A verified statement counts only if one and the same subject has the name and the digest. */
  method CheckStatement(statement: Option<Statement>, predicateType: string, assetName: string, digest: string)
    returns (ok: bool)
    ensures ok <==>
      && statement.Some? && statement.value.kind == "https://in-toto.io/Statement/v1"
      && statement.value.predicateType == predicateType
      && Subject(assetName, digest) in statement.value.subjects
  {
    if statement.None? || statement.value.kind != STATEMENT_V1 {
      return false;
    }
    if statement.value.predicateType != predicateType {
      return false;
    }
    var subjects := statement.value.subjects;
    for i := 0 to |subjects|
      invariant Subject(assetName, digest) !in subjects[..i]
    {
      if subjects[i].name == assetName && subjects[i].sha256 == digest {
        return true;
      }
    }
    return false;
  }
}
