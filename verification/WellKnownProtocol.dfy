/**
 Concurrent requests for the openid-configuration (pkg/http/wellknown.go): cache reads and writes,
 one shared flight per authorization URL, snapshot swaps, and callers that change what they got.
 Maps live in `heap`; an index into it is a reference.
 */
module WellKnownProtocol {
  import opened Wrappers
  import opened WellKnown

  /** What the authorization server answered. */
  datatype Response = Failure | Missing | Answer(doc: Document)

  /** A result carries the reference that the flight shares, and what the server had sent. */
  datatype Fetched = Failed | Absent | Found(ref: nat, sent: Document)

  datatype Phase = Fetching | Storing(result: Fetched) | Returning(result: Fetched) | Landed(result: Fetched)

  datatype Flight = Flight(url: string, phase: Phase, startedAt: int, landedAt: int)

  datatype Source = FromCache(flight: nat, writtenAt: int, checkedAt: int) | FromFlight(flight: nat)

  datatype Call =
    | Looking(url: string, since: int)
    | Missed(url: string, since: int)     // the cache lock has been given up, no flight joined yet
    | Joined(url: string, since: int, flight: nat)
    | Empty(url: string)
    | Served(url: string, since: int, ref: nat, source: Source, overridden: Option<Overrides>)

  datatype CacheEntry = CacheEntry(ref: nat, url: string, writtenAt: int, flight: nat)

  datatype Owner = ByFlight | ByCache | ByCall(t: nat)

  /** `owners` says for whom each map was made. */
  datatype State = State(
    url: string,
    overrides: Overrides,
    now: int,
    cache: Option<CacheEntry>,
    active: map<string, nat>,
    flights: seq<Flight>,
    calls: map<nat, Call>,
    heap: seq<Document>,
    owners: seq<Owner>)

  datatype Action =
    | SwapSnapshot(url: string, overrides: Overrides)
    | Pass(dt: nat)
    | Request(t: nat)
    | Advance(t: nat)
    | AdvanceFlight(flight: nat, response: Response)
    | Override(t: nat)

  function Start(url: string, overrides: Overrides): State {
    State(url, overrides, 0, None, map[], [], map[], [], [])
  }

  /** A new map object with the given contents. */
  function Allocate(s: State, doc: Document, owner: Owner): State {
    s.(heap := s.heap + [doc], owners := s.owners + [owner])
  }

  function SetFlight(s: State, f: nat, phase: Phase): State
    requires f < |s.flights|
  {
    s.(flights := s.flights[f := s.flights[f].(phase := phase)])
  }

  function Hit(s: State, url: string): bool {
    s.cache.Some? && Serves(s.cache.value.url, s.cache.value.writtenAt, url, s.now) && s.cache.value.ref < |s.heap|
  }

  function ServeCopy(s: State, t: nat, url: string, since: int, ref: nat, source: Source): State
    requires ref < |s.heap|
  {
    Allocate(s, s.heap[ref], ByCall(t)).(calls := s.calls[t := Served(url, since, |s.heap|, source, None)])
  }

  function Progress(s: State, t: nat): State {
    if t !in s.calls then s
    else match s.calls[t]
      case Looking(url, since) =>
        if Hit(s, url) then
          ServeCopy(s, t, url, since, s.cache.value.ref, FromCache(s.cache.value.flight, s.cache.value.writtenAt, s.now))
        else
          s.(calls := s.calls[t := Missed(url, since)])
      case Missed(url, since) =>
        if url in s.active then
          s.(calls := s.calls[t := Joined(url, since, s.active[url])])
        else
          s.(flights := s.flights + [Flight(url, Fetching, s.now, 0)],
             active := s.active[url := |s.flights|],
             calls := s.calls[t := Joined(url, since, |s.flights|)])
      case Joined(url, since, f) =>
        if f < |s.flights| && s.flights[f].phase.Landed? then
          match s.flights[f].phase.result
          case Found(ref, _) => if ref < |s.heap| then ServeCopy(s, t, url, since, ref, FromFlight(f)) else s
          case _ => s.(calls := s.calls[t := Empty(url)])
        else s
      case _ => s
  }

  function ProgressFlight(s: State, f: nat, response: Response): State {
    if f >= |s.flights| then s
    else match s.flights[f].phase
      case Fetching =>
        (match response
         case Failure => SetFlight(s, f, Returning(Failed))
         case Missing => SetFlight(s, f, Returning(Absent))
         case Answer(doc) => SetFlight(Allocate(s, doc, ByFlight), f, Storing(Found(|s.heap|, doc))))
      case Storing(result) =>
        if result.Found? && result.ref < |s.heap| then
          SetFlight(Allocate(s, s.heap[result.ref], ByCache), f, Returning(result))
            .(cache := Some(CacheEntry(|s.heap|, s.flights[f].url, s.now, f)))
        else s
      case Returning(result) =>
        s.(flights := s.flights[f := s.flights[f].(phase := Landed(result), landedAt := s.now)],
           active := s.active - {s.flights[f].url})
      case Landed(_) => s
  }

  /** A caller overrides fields of the map it was given, in place. */
  function ProgressOverride(s: State, t: nat): State {
    if t in s.calls && s.calls[t].Served? && s.calls[t].overridden.None? && s.calls[t].ref < |s.heap| then
      var ref := s.calls[t].ref;
      s.(heap := s.heap[ref := Overridden(s.heap[ref], s.overrides)],
         calls := s.calls[t := s.calls[t].(overridden := Some(s.overrides))])
    else s
  }

  function Step(s: State, a: Action): State {
    match a
    case SwapSnapshot(url, overrides) => s.(url := url, overrides := overrides)
    case Pass(dt) => s.(now := s.now + dt)
    case Request(t) =>
      if t in s.calls && !s.calls[t].Empty? && !s.calls[t].Served? then s
      else s.(calls := s.calls[t := Looking(s.url, s.now)])
    case Advance(t) => Progress(s, t)
    case AdvanceFlight(f, response) => ProgressFlight(s, f, response)
    case Override(t) => ProgressOverride(s, t)
  }

  function Run(s: State, actions: seq<Action>): State {
    if actions == [] then s
    else Step(Run(s, actions[..|actions| - 1]), actions[|actions| - 1])
  }

  // ----- what every interleaving keeps

  ghost predicate Owned(s: State, ref: nat, owner: Owner) {
    ref < |s.heap| && ref < |s.owners| && s.owners[ref] == owner
  }

  /** The document that a flight brought back, if it did. */
  ghost function Brought(flight: Flight): Fetched {
    match flight.phase
    case Fetching => Absent
    case Storing(result) => result
    case Returning(result) => result
    case Landed(result) => result
  }

  ghost predicate FlightInv(s: State, flight: Flight) {
    && flight.startedAt <= s.now
    && (Brought(flight).Found? ==> Owned(s, Brought(flight).ref, ByFlight) && s.heap[Brought(flight).ref] == Brought(flight).sent)
    && (flight.phase.Landed? ==> flight.startedAt <= flight.landedAt <= s.now)
    && (flight.phase.Storing? ==> Brought(flight).Found?)
  }

  ghost predicate ActiveInv(s: State) {
    && (forall u :: u in s.active ==> s.active[u] < |s.flights| && s.flights[s.active[u]].url == u && !s.flights[s.active[u]].phase.Landed?)
    && (forall f :: 0 <= f < |s.flights| && !s.flights[f].phase.Landed? ==> s.flights[f].url in s.active && s.active[s.flights[f].url] == f)
  }

  ghost predicate CacheInv(s: State) {
    s.cache.Some? ==>
      var c := s.cache.value;
      && Owned(s, c.ref, ByCache) && c.writtenAt <= s.now
      && c.flight < |s.flights| && s.flights[c.flight].url == c.url
      && Brought(s.flights[c.flight]).Found? && s.heap[c.ref] == Brought(s.flights[c.flight]).sent
  }

  function AfterOverride(doc: Document, o: Option<Overrides>): Document {
    if o.Some? then Overridden(doc, o.value) else doc
  }

  ghost predicate CallInv(s: State, t: nat, call: Call) {
    match call
    case Looking(url, since) => since <= s.now
    case Missed(url, since) => since <= s.now
    case Joined(url, since, f) =>
      && since <= s.now && f < |s.flights| && s.flights[f].url == url
      && (s.flights[f].phase.Landed? ==> s.flights[f].landedAt >= since)
    case Empty(url) => true
    case Served(url, since, ref, source, overridden) =>
      && Owned(s, ref, ByCall(t))
      && source.flight < |s.flights| && s.flights[source.flight].url == url
      && Brought(s.flights[source.flight]).Found?
      && s.heap[ref] == AfterOverride(Brought(s.flights[source.flight]).sent, overridden)
      && (match source
          case FromCache(_, writtenAt, checkedAt) => checkedAt >= since && 0 <= checkedAt - writtenAt < TTL
          case FromFlight(f) => s.flights[f].phase.Landed? && s.flights[f].landedAt >= since)
  }

  ghost predicate Inv(s: State) {
    && |s.heap| == |s.owners| && 0 <= s.now
    && (forall f :: 0 <= f < |s.flights| ==> FlightInv(s, s.flights[f]))
    && ActiveInv(s) && CacheInv(s)
    && (forall t :: t in s.calls ==> CallInv(s, t, s.calls[t]))
  }

  lemma AllocateKeepsInv(s: State, doc: Document, owner: Owner)
    requires Inv(s)
    ensures Inv(Allocate(s, doc, owner))
    ensures Owned(Allocate(s, doc, owner), |s.heap|, owner) && Allocate(s, doc, owner).heap[|s.heap|] == doc
  {
    var s' := Allocate(s, doc, owner);
    forall ref: nat, o | Owned(s, ref, o)
      ensures Owned(s', ref, o) && s'.heap[ref] == s.heap[ref]
    {
    }
    forall f | 0 <= f < |s'.flights|
      ensures FlightInv(s', s'.flights[f])
    {
      assert FlightInv(s, s.flights[f]);
    }
    forall t | t in s'.calls
      ensures CallInv(s', t, s'.calls[t])
    {
      assert CallInv(s, t, s.calls[t]);
    }
  }

  lemma SetCallKeepsInv(s: State, t: nat, call: Call)
    requires Inv(s) && CallInv(s, t, call)
    ensures Inv(s.(calls := s.calls[t := call]))
  {
    hide Overridden;
    var s' := s.(calls := s.calls[t := call]);
    forall u | u in s'.calls
      ensures CallInv(s', u, s'.calls[u])
    {
      if u != t {
        assert CallInv(s, u, s.calls[u]);
      }
    }
    forall f | 0 <= f < |s'.flights|
      ensures FlightInv(s', s'.flights[f])
    {
      assert FlightInv(s, s.flights[f]);
    }
  }

  /** A flight keeps what it brought back, and lands once. */
  ghost predicate Evolves(before: Flight, after: Flight, now: int) {
    && after.url == before.url && after.startedAt == before.startedAt
    && (Brought(before).Found? ==> Brought(after) == Brought(before))
    && (before.phase.Landed? ==> after == before)
    && (after.phase.Landed? && !before.phase.Landed? ==> after.landedAt == now)
  }

  lemma EvolveKeepsCalls(s: State, s': State, f: nat)
    requires Inv(s) && f < |s.flights| && |s'.flights| == |s.flights|
    requires Evolves(s.flights[f], s'.flights[f], s.now)
    requires forall g :: 0 <= g < |s.flights| && g != f ==> s'.flights[g] == s.flights[g]
    requires s'.calls == s.calls && s'.heap == s.heap && s'.owners == s.owners && s'.now == s.now
    ensures forall t :: t in s'.calls ==> CallInv(s', t, s'.calls[t])
  {
    hide Overridden;
    forall t | t in s'.calls
      ensures CallInv(s', t, s'.calls[t])
    {
      assert CallInv(s, t, s.calls[t]);
    }
  }

  lemma EvolveKeepsFlights(s: State, s': State, f: nat)
    requires Inv(s) && f < |s.flights| && |s'.flights| == |s.flights| && FlightInv(s', s'.flights[f])
    requires forall g :: 0 <= g < |s.flights| && g != f ==> s'.flights[g] == s.flights[g]
    requires s'.heap == s.heap && s'.owners == s.owners && s'.now == s.now
    ensures forall g :: 0 <= g < |s'.flights| ==> FlightInv(s', s'.flights[g])
  {
    forall g | 0 <= g < |s'.flights|
      ensures FlightInv(s', s'.flights[g])
    {
      if g != f {
        assert FlightInv(s, s.flights[g]);
      }
    }
  }

  /** A flight moves on without landing; the map of active flights is untouched. */
  lemma SetFlightKeepsInv(s: State, f: nat, phase: Phase)
    requires Inv(s) && f < |s.flights| && !s.flights[f].phase.Landed? && !phase.Landed?
    requires Evolves(s.flights[f], s.flights[f].(phase := phase), s.now)
    requires FlightInv(s, s.flights[f].(phase := phase))
    ensures Inv(SetFlight(s, f, phase))
  {
    var s' := SetFlight(s, f, phase);
    assert FlightInv(s', s'.flights[f]);
    EvolveKeepsCalls(s, s', f);
    EvolveKeepsFlights(s, s', f);
    hide CallInv, FlightInv, Overridden;
  }

  lemma LandingKeepsInv(s: State, f: nat, response: Response)
    requires Inv(s) && f < |s.flights| && s.flights[f].phase.Returning?
    ensures Inv(ProgressFlight(s, f, response))
  {
    var s' := ProgressFlight(s, f, response);
    assert FlightInv(s, s.flights[f]);
    assert FlightInv(s', s'.flights[f]);
    EvolveKeepsCalls(s, s', f);
    EvolveKeepsFlights(s, s', f);
    hide CallInv, FlightInv, Overridden;
  }

  lemma FetchKeepsInv(s: State, f: nat, response: Response)
    requires Inv(s) && f < |s.flights| && s.flights[f].phase.Fetching?
    ensures Inv(ProgressFlight(s, f, response))
  {
    assert FlightInv(s, s.flights[f]);
    match response
    case Failure => SetFlightKeepsInv(s, f, Returning(Failed)); hide Inv;
    case Missing => SetFlightKeepsInv(s, f, Returning(Absent)); hide Inv;
    case Answer(doc) =>
      AllocateKeepsInv(s, doc, ByFlight);
      SetFlightKeepsInv(Allocate(s, doc, ByFlight), f, Storing(Found(|s.heap|, doc)));
      hide Inv;
  }

  lemma StoreKeepsInv(s: State, f: nat, response: Response)
    requires Inv(s) && f < |s.flights| && s.flights[f].phase.Storing?
    ensures Inv(ProgressFlight(s, f, response))
  {
    assert FlightInv(s, s.flights[f]);
    var result := s.flights[f].phase.result;
    var s1 := Allocate(s, s.heap[result.ref], ByCache);
    AllocateKeepsInv(s, s.heap[result.ref], ByCache);
    assert FlightInv(s1, s1.flights[f]);
    SetFlightKeepsInv(s1, f, Returning(result));
    var s2 := SetFlight(s1, f, Returning(result));
    var s3 := ProgressFlight(s, f, response);
    assert s3 == s2.(cache := Some(CacheEntry(|s.heap|, s.flights[f].url, s.now, f)));
    CacheChangeKeepsInv(s2, s3);
  }

  lemma CacheChangeKeepsInv(s: State, s': State)
    requires Inv(s) && s' == s.(cache := s'.cache) && CacheInv(s')
    ensures Inv(s')
  {
    hide Overridden;
    forall t | t in s'.calls
      ensures CallInv(s', t, s'.calls[t])
    {
      assert CallInv(s, t, s.calls[t]);
    }
    forall f | 0 <= f < |s'.flights|
      ensures FlightInv(s', s'.flights[f])
    {
      assert FlightInv(s, s.flights[f]);
    }
  }

  lemma ServeKeepsInv(s: State, t: nat, url: string, since: int, ref: nat, source: Source)
    requires Inv(s) && ref < |s.heap|
    requires CallInv(Allocate(s, s.heap[ref], ByCall(t)), t, Served(url, since, |s.heap|, source, None))
    ensures Inv(ServeCopy(s, t, url, since, ref, source))
  {
    AllocateKeepsInv(s, s.heap[ref], ByCall(t));
    SetCallKeepsInv(Allocate(s, s.heap[ref], ByCall(t)), t, Served(url, since, |s.heap|, source, None));
    hide Inv;
  }

  lemma NewFlightKeepsInv(s: State, t: nat, url: string, since: int)
    requires Inv(s) && url !in s.active && since <= s.now
    ensures Inv(s.(flights := s.flights + [Flight(url, Fetching, s.now, 0)],
                   active := s.active[url := |s.flights|],
                   calls := s.calls[t := Joined(url, since, |s.flights|)]))
  {
    hide Overridden;
    var s1 := s.(flights := s.flights + [Flight(url, Fetching, s.now, 0)], active := s.active[url := |s.flights|]);
    forall u | u in s1.calls
      ensures CallInv(s1, u, s1.calls[u])
    {
      assert CallInv(s, u, s.calls[u]);
    }
    forall f | 0 <= f < |s1.flights|
      ensures FlightInv(s1, s1.flights[f])
    {
      if f < |s.flights| {
        assert FlightInv(s, s.flights[f]);
      }
    }
    assert ActiveInv(s1) && CacheInv(s1);
    SetCallKeepsInv(s1, t, Joined(url, since, |s.flights|));
  }

  lemma ProgressKeepsInv(s: State, t: nat)
    requires Inv(s)
    ensures Inv(Progress(s, t))
  {
    hide Overridden;
    if t in s.calls {
      var call := s.calls[t];
      assert CallInv(s, t, call);
      if call.Looking? {
        if Hit(s, call.url) {
          var c := s.cache.value;
          ServeKeepsInv(s, t, call.url, call.since, c.ref, FromCache(c.flight, c.writtenAt, s.now));
        } else {
          SetCallKeepsInv(s, t, Missed(call.url, call.since));
        }
      } else if call.Missed? {
        if call.url in s.active {
          SetCallKeepsInv(s, t, Joined(call.url, call.since, s.active[call.url]));
        } else {
          NewFlightKeepsInv(s, t, call.url, call.since);
        }
      } else if call.Joined? && s.flights[call.flight].phase.Landed? {
        var result := s.flights[call.flight].phase.result;
        assert FlightInv(s, s.flights[call.flight]);
        if result.Found? {
          ServeKeepsInv(s, t, call.url, call.since, result.ref, FromFlight(call.flight));
        } else {
          SetCallKeepsInv(s, t, Empty(call.url));
        }
      }
    }
  }

  lemma OverrideKeepsInv(s: State, t: nat)
    requires Inv(s)
    ensures Inv(ProgressOverride(s, t))
  {
    hide Overridden;
    var s' := ProgressOverride(s, t);
    if s' != s {
      var ref := s.calls[t].ref;
      assert CallInv(s, t, s.calls[t]);
      forall u | u in s'.calls
        ensures CallInv(s', u, s'.calls[u])
      {
        assert CallInv(s, u, s.calls[u]);
      }
      forall f | 0 <= f < |s'.flights|
        ensures FlightInv(s', s'.flights[f])
      {
        assert FlightInv(s, s.flights[f]);
      }
    }
  }

  lemma PassKeepsInv(s: State, dt: nat)
    requires Inv(s)
    ensures Inv(s.(now := s.now + dt))
  {
    hide Overridden;
    var s' := s.(now := s.now + dt);
    forall u | u in s'.calls
      ensures CallInv(s', u, s'.calls[u])
    {
      assert CallInv(s, u, s.calls[u]);
    }
    forall f | 0 <= f < |s'.flights|
      ensures FlightInv(s', s'.flights[f])
    {
      assert FlightInv(s, s.flights[f]);
    }
  }

  lemma SwapKeepsInv(s: State, url: string, overrides: Overrides)
    requires Inv(s)
    ensures Inv(s.(url := url, overrides := overrides))
  {
    hide Overridden;
    var s' := s.(url := url, overrides := overrides);
    forall u | u in s'.calls
      ensures CallInv(s', u, s'.calls[u])
    {
      assert CallInv(s, u, s.calls[u]);
    }
    forall f | 0 <= f < |s'.flights|
      ensures FlightInv(s', s'.flights[f])
    {
      assert FlightInv(s, s.flights[f]);
    }
  }

  lemma StepKeepsInv(s: State, a: Action)
    requires Inv(s)
    ensures Inv(Step(s, a))
  {
    hide Inv, Progress, ProgressFlight, ProgressOverride;
    match a
    case SwapSnapshot(url, overrides) => SwapKeepsInv(s, url, overrides);
    case Pass(dt) => PassKeepsInv(s, dt);
    case Request(t) => SetCallKeepsInv(s, t, Looking(s.url, s.now));
    case Advance(t) => ProgressKeepsInv(s, t);
    case AdvanceFlight(f, response) => FlightKeepsInv(s, f, response);
    case Override(t) => OverrideKeepsInv(s, t);
  }

  lemma FlightKeepsInv(s: State, f: nat, response: Response)
    requires Inv(s)
    ensures Inv(ProgressFlight(s, f, response))
  {
    hide Inv;
    if f < |s.flights| {
      match s.flights[f].phase
      case Fetching => FetchKeepsInv(s, f, response);
      case Storing(_) => StoreKeepsInv(s, f, response);
      case Returning(_) => LandingKeepsInv(s, f, response);
      case Landed(_) =>
    }
  }

  lemma {:induction false} RunKeepsInv(url: string, overrides: Overrides, actions: seq<Action>)
    ensures Inv(Run(Start(url, overrides), actions))
  {
    hide Step;
    if actions != [] {
      hide Inv;
      RunKeepsInv(url, overrides, actions[..|actions| - 1]);
      StepKeepsInv(Run(Start(url, overrides), actions[..|actions| - 1]), actions[|actions| - 1]);
    }
  }

  // ----- main results

  /** A document served to a caller is what the authorization server sent for the URL that this call
      had read, changed by nothing but the caller's own overrides. It came from a cache entry less
      than five minutes old when checked, or from a flight that was not over when the call began. */
  lemma ServedDocumentsAreGenuine(url: string, overrides: Overrides, actions: seq<Action>, t: nat)
    ensures var s := Run(Start(url, overrides), actions);
            t in s.calls && s.calls[t].Served? ==>
              var call := s.calls[t];
              && call.ref < |s.heap| && call.source.flight < |s.flights|
              && var flight := s.flights[call.source.flight];
              && flight.url == call.url && Brought(flight).Found?
              && s.heap[call.ref] == AfterOverride(Brought(flight).sent, call.overridden)
              && (match call.source
                  case FromCache(_, writtenAt, checkedAt) => writtenAt <= checkedAt < writtenAt + TTL && call.since <= checkedAt
                  case FromFlight(_) => flight.startedAt <= s.now && call.since <= flight.landedAt)
  {
    RunKeepsInv(url, overrides, actions);
    var s := Run(Start(url, overrides), actions);
    if t in s.calls && s.calls[t].Served? {
      assert CallInv(s, t, s.calls[t]);
      assert FlightInv(s, s.flights[s.calls[t].source.flight]);
    }
  }

  /** Whatever callers do with their documents, the cache holds exactly what the server sent for the
      URL that the entry is for: never an overridden document, and never none. */
  lemma CacheStaysPristine(url: string, overrides: Overrides, actions: seq<Action>)
    ensures var s := Run(Start(url, overrides), actions);
            s.cache.Some? ==>
              var c := s.cache.value;
              && c.ref < |s.heap| && c.flight < |s.flights| && s.flights[c.flight].url == c.url
              && Brought(s.flights[c.flight]).Found? && Brought(s.flights[c.flight]).sent == s.heap[c.ref]
  {
    RunKeepsInv(url, overrides, actions);
  }

  /** A caller's overrides change its own document and no other that anybody can reach. */
  lemma OverridesStayPrivate(url: string, overrides: Overrides, actions: seq<Action>, t: nat, u: nat)
    requires t != u
    ensures var s := Run(Start(url, overrides), actions);
            var e := Step(s, Override(t));
            && e.cache == s.cache && |e.heap| == |s.heap|
            && (s.cache.Some? ==> s.cache.value.ref < |s.heap| && e.heap[s.cache.value.ref] == s.heap[s.cache.value.ref])
            && (u in s.calls && s.calls[u].Served? ==>
                  e.calls[u] == s.calls[u] && s.calls[u].ref < |s.heap| && e.heap[s.calls[u].ref] == s.heap[s.calls[u].ref])
            && (forall f :: 0 <= f < |s.flights| && Brought(s.flights[f]).Found? ==>
                  var ref := Brought(s.flights[f]).ref;
                  ref < |s.heap| && e.heap[ref] == s.heap[ref])
  {
    RunKeepsInv(url, overrides, actions);
    var s := Run(Start(url, overrides), actions);
    var e := Step(s, Override(t));
    hide Run, Overridden;
    assert u in s.calls ==> CallInv(s, u, s.calls[u]);
    assert t in s.calls ==> CallInv(s, t, s.calls[t]);
    forall f | 0 <= f < |s.flights| && Brought(s.flights[f]).Found?
      ensures var ref := Brought(s.flights[f]).ref; ref < |s.heap| && e.heap[ref] == s.heap[ref]
    {
      assert FlightInv(s, s.flights[f]);
    }
  }

  /** A step that changes the cache is a flight bringing in a document that the server sent: a failed or empty answer,
      a lookup, an override or a new snapshot leaves the cache as it was. */
  lemma OnlyAnswersAreCached(url: string, overrides: Overrides, actions: seq<Action>, a: Action)
    requires var s := Run(Start(url, overrides), actions); Step(s, a).cache != s.cache
    ensures var s := Run(Start(url, overrides), actions);
            var s' := Step(s, a);
            && a.AdvanceFlight? && a.flight < |s.flights| && Brought(s.flights[a.flight]).Found?
            && s'.cache == Some(CacheEntry(|s.heap|, s.flights[a.flight].url, s.now, a.flight))
            && s'.heap == s.heap + [Brought(s.flights[a.flight]).sent]
  {
    RunKeepsInv(url, overrides, actions);
    var s := Run(Start(url, overrides), actions);
    hide Run, Overridden, Start;
    assert FlightInv(s, s.flights[a.flight]);
  }

  /** Concurrent misses share one flight per URL. */
  lemma OneFlightPerUrl(url: string, overrides: Overrides, actions: seq<Action>, f: nat, g: nat)
    requires var s := Run(Start(url, overrides), actions);
             && f < |s.flights| && g < |s.flights| && s.flights[f].url == s.flights[g].url
             && !s.flights[f].phase.Landed? && !s.flights[g].phase.Landed?
    ensures f == g
  {
    RunKeepsInv(url, overrides, actions);
  }

  // ----- what comes of a lookup and of a flight

  /** A lookup is served from the cache exactly by an entry for its URL that is younger than five minutes. */
  lemma YoungEntriesAreServed(url: string, overrides: Overrides, actions: seq<Action>, t: nat)
    requires var s := Run(Start(url, overrides), actions); t in s.calls && s.calls[t].Looking?
    ensures var s := Run(Start(url, overrides), actions);
            var e, call := Step(s, Advance(t)), s.calls[t];
            && e.flights == s.flights && e.cache == s.cache && t in e.calls
            && if s.cache.Some? && s.cache.value.url == call.url && s.now - s.cache.value.writtenAt < 300 then
                 && s.cache.value.ref < |s.heap|
                 && e.calls[t].Served? && e.calls[t].url == call.url && e.calls[t].source.FromCache?
                 && e.calls[t].ref < |e.heap| && e.heap[e.calls[t].ref] == s.heap[s.cache.value.ref]
               else e.calls[t] == Missed(call.url, call.since)
  {
    RunKeepsInv(url, overrides, actions);
    hide Run, Start, Overridden;
  }

  /** A call whose flight has landed gets the document that the flight brought, and comes out empty only if it brought none. */
  lemma LandedFlightsAnswer(url: string, overrides: Overrides, actions: seq<Action>, t: nat)
    requires var s := Run(Start(url, overrides), actions);
             t in s.calls && s.calls[t].Joined? && s.calls[t].flight < |s.flights| && s.flights[s.calls[t].flight].phase.Landed?
    ensures var s := Run(Start(url, overrides), actions);
            var e, call := Step(s, Advance(t)), s.calls[t];
            var brought := s.flights[call.flight].phase.result;
            && t in e.calls
            && if brought.Found? then
                 && e.calls[t].Served? && e.calls[t].url == call.url && e.calls[t].source == FromFlight(call.flight)
                 && e.calls[t].ref < |e.heap| && e.heap[e.calls[t].ref] == brought.sent
               else e.calls[t] == Empty(call.url)
  {
    RunKeepsInv(url, overrides, actions);
    var s := Run(Start(url, overrides), actions);
    hide Run, Start, Overridden;
    assert FlightInv(s, s.flights[s.calls[t].flight]);
  }

  /** There is no other way for a call to come out empty. */
  lemma EmptyMeansNothingCame(s: State, a: Action, t: nat)
    requires t in Step(s, a).calls && Step(s, a).calls[t].Empty? && !(t in s.calls && s.calls[t].Empty?)
    ensures a == Advance(t) && t in s.calls && s.calls[t].Joined? && s.calls[t].flight < |s.flights|
    ensures var flight := s.flights[s.calls[t].flight]; flight.phase.Landed? && !flight.phase.result.Found?
  {
    hide Overridden;
  }

  /** A flight brings a document exactly if the server answers with one, and stores it next. */
  lemma AnswersAreBrought(s: State, f: nat, response: Response)
    requires f < |s.flights| && s.flights[f].phase.Fetching?
    ensures var flight := Step(s, AdvanceFlight(f, response)).flights[f];
            match response
            case Answer(doc) => flight.phase.Storing? && flight.phase.result.Found? && flight.phase.result.sent == doc
            case Failure => flight.phase == Returning(Failed)
            case Missing => flight.phase == Returning(Absent)
  {
  }

  /** At this moment the cache had the document that the flight brought. */
  ghost predicate CachedAt(start: State, actions: seq<Action>, i: nat, f: nat) {
    i <= |actions|
    && var s := Run(start, actions[..i]);
       && s.cache.Some? && s.cache.value.flight == f && f < |s.flights| && s.cache.value.url == s.flights[f].url
       && s.cache.value.ref < |s.heap| && Brought(s.flights[f]).Found? && s.heap[s.cache.value.ref] == Brought(s.flights[f]).sent
  }

  /** Every flight that has brought a document and is past its fetch has stored it. */
  lemma {:induction false} BroughtDocumentsAreStored(url: string, overrides: Overrides, actions: seq<Action>, f: nat)
    requires var s := Run(Start(url, overrides), actions);
             f < |s.flights| && Brought(s.flights[f]).Found? && !s.flights[f].phase.Storing?
    ensures exists i: nat :: CachedAt(Start(url, overrides), actions, i, f)
  {
    hide Overridden, Step, Brought, CachedAt;
    var start := Start(url, overrides);
    if actions == [] {
      NoFlights(url, overrides);
    } else {
      var n := |actions| - 1;
      var front, a := actions[..n], actions[n];
      var s, e := Run(start, front), Run(start, actions);
      RunKeepsInv(url, overrides, front);
      hide Inv, Start;
      assert e == Step(s, a);
      if f < |s.flights| && Brought(s.flights[f]).Found? && !s.flights[f].phase.Storing? {
        BroughtDocumentsAreStored(url, overrides, front, f);
        var i: nat :| CachedAt(start, front, i, f);
        CachedEarlier(start, actions, i, f);
      } else {
        StoringStores(s, a, f);
        CachedNow(start, actions, f);
      }
    }
  }

  lemma NoFlights(url: string, overrides: Overrides)
    ensures Run(Start(url, overrides), []).flights == []
  {
  }

  lemma CachedEarlier(start: State, actions: seq<Action>, i: nat, f: nat)
    requires actions != [] && CachedAt(start, actions[..|actions| - 1], i, f)
    ensures CachedAt(start, actions, i, f)
  {
    hide Run;
    assert actions[..|actions| - 1][..i] == actions[..i];
  }

  lemma CachedNow(start: State, actions: seq<Action>, f: nat)
    requires var s := Run(start, actions);
             && s.cache.Some? && s.cache.value.flight == f && f < |s.flights| && s.cache.value.url == s.flights[f].url
             && s.cache.value.ref < |s.heap| && Brought(s.flights[f]).Found? && s.heap[s.cache.value.ref] == Brought(s.flights[f]).sent
    ensures CachedAt(start, actions, |actions|, f)
  {
    hide Run, Brought;
    assert actions[..|actions|] == actions;
  }

  /** Only its own steps move a flight on, and a new one starts with its fetch. */
  lemma OthersLeaveFlight(s: State, a: Action, f: nat)
    requires !(a.AdvanceFlight? && a.flight == f) && f < |Step(s, a).flights|
    ensures Step(s, a).flights[f] == if f < |s.flights| then s.flights[f] else Flight(Step(s, a).flights[f].url, Fetching, s.now, 0)
  {
    hide Overridden, Hit;
    match a
    case Advance(t) => AdvanceLeavesFlight(s, t, f);
    case _ =>
  }

  lemma AdvanceLeavesFlight(s: State, t: nat, f: nat)
    requires f < |Progress(s, t).flights|
    ensures Progress(s, t).flights[f] == if f < |s.flights| then s.flights[f] else Flight(Progress(s, t).flights[f].url, Fetching, s.now, 0)
  {
    hide Hit;
  }

  /** A flight with a document gets past its store in no other way than by storing. */
  lemma StoringStores(s: State, a: Action, f: nat)
    requires Inv(s)
    requires f < |s.flights| && Brought(s.flights[f]).Found? ==> s.flights[f].phase.Storing?
    requires var e := Step(s, a); f < |e.flights| && Brought(e.flights[f]).Found? && !e.flights[f].phase.Storing?
    ensures var e := Step(s, a);
            && e.cache.Some? && e.cache.value.flight == f && e.cache.value.url == e.flights[f].url
            && e.cache.value.ref < |e.heap| && e.heap[e.cache.value.ref] == Brought(e.flights[f]).sent
  {
    hide Progress, ProgressOverride;
    if a.AdvanceFlight? && a.flight == f {
      assert FlightInv(s, s.flights[f]);
      hide Inv, FlightInv;
      OwnStepStores(s, f, a.response);
    } else {
      OthersLeaveFlight(s, a, f);
      hide Step, Inv;
    }
  }

  lemma OwnStepStores(s: State, f: nat, response: Response)
    requires f < |s.flights| && (Brought(s.flights[f]).Found? ==> s.flights[f].phase.Storing?)
    requires s.flights[f].phase.Storing? ==> Brought(s.flights[f]).Found? && Brought(s.flights[f]).ref < |s.heap|
                                             && s.heap[Brought(s.flights[f]).ref] == Brought(s.flights[f]).sent
    requires var e := ProgressFlight(s, f, response); Brought(e.flights[f]).Found? && !e.flights[f].phase.Storing?
    ensures var e := ProgressFlight(s, f, response);
            && e.cache.Some? && e.cache.value.flight == f && e.cache.value.url == e.flights[f].url
            && e.cache.value.ref < |e.heap| && e.heap[e.cache.value.ref] == Brought(e.flights[f]).sent
  {
  }
}
