/**
 The rate limiter while its configuration changes: every request comes with the limit and burst that
 the configuration has then, a change discards all limiters, and requests in flight keep the limiter that
 they have looked up. What is proved is about any period of one setting, after any earlier settings.
 */
module RateLimitSettings {
  import opened Wrappers
  import opened RateLimit
  import opened RateLimitProtocol

  /** The configuration replaces a burst of zero by a default and rejects a negative one. */
  type Burst = b: nat | b >= 1 witness 1

  datatype Setting = Setting(limit: real, burst: Burst)

  /** What does not depend on the configuration. */
  datatype World = World(delay: real, reaping: bool)

  datatype Event = Event(setting: Setting, action: Action)

  function Under(w: World, c: Setting): Params {
    Params(c.limit, c.burst, w.delay, w.reaping)
  }

  /** A run in which every action happens under a setting of its own. */
  function Live(w: World, events: seq<Event>): State {
    if events == [] then START
    else
      var last := events[|events| - 1];
      Step(Under(w, last.setting), Live(w, events[..|events| - 1]), last.action)
  }

  // ----- the part of a state that a setting is responsible for

  /** The request holds the limiter that its session still has. */
  predicate Attached(entries: map<string, Entry>, t: Ticket) {
    t.session in entries && entries[t.session].bucket == t.bucket
  }

  /** The limiters of this setting and the requests that hold them. */
  function View(p: Params, s: State): State {
    var limits := Flushed(s.limits, p.limit, p.burst);
    State(limits, s.now, map r | r in s.tickets && Attached(limits.entries, s.tickets[r]) :: s.tickets[r], [])
  }

  /** A request that has lost its limiter shares it with no one. */
  ghost predicate Detachable(s: State) {
    && s.now >= 0.0 && Unshared(s)
    && (forall id :: id in s.limits.entries ==> s.limits.entries[id].bucket < |s.limits.buckets|)
    && (forall r :: r in s.tickets ==> s.tickets[r].bucket < |s.limits.buckets|)
    && (forall r, id :: r in s.tickets && id in s.limits.entries && s.limits.entries[id].bucket == s.tickets[r].bucket ==>
          id == s.tickets[r].session)
  }

  function InForce(w: World, s: State): Params {
    Params(s.limits.currentLimit, s.limits.currentBurst, w.delay, w.reaping)
  }

  /** Whatever settings there were before, the one in force has kept its invariant on its own part. */
  ghost predicate LiveInv(w: World, s: State) {
    && Detachable(s)
    && (s.limits.entries != map[] ==> Sensible(InForce(w, s)) && Inv(InForce(w, s), View(InForce(w, s), s)))
  }

  lemma EmptyView(p: Params, s: State)
    requires s.now >= 0.0 && View(p, s).limits.entries == map[]
    ensures View(p, s).tickets == map[] && Inv(p, View(p, s))
  {
  }

  /** Any setting finds its invariant on its own part. */
  lemma ViewInv(w: World, p: Params, s: State)
    requires LiveInv(w, s) && p.delay == w.delay && p.reaping == w.reaping
    ensures Inv(p, View(p, s))
  {
    if View(p, s).limits.entries == map[] {
      EmptyView(p, s);
    } else {
      assert p == InForce(w, s);
    }
  }

  // ----- single steps, as the setting sees them

  lemma PassView(p: Params, q: Params, s: State, dt: real)
    requires p.delay == q.delay && MayPass(q, s, dt)
    ensures View(p, Step(q, s, Pass(dt))) == Step(p, View(p, s), Pass(dt))
  {
  }

  lemma ArriveView(p: Params, s: State, r: nat, session: string)
    requires Detachable(s) && r !in s.tickets && p.limit > 0.0 && session != ""
    ensures View(p, Step(p, s, Arrive(r, session))) == Step(p, View(p, s), Arrive(r, session))
  {
    var s', v' := Step(p, s, Arrive(r, session)), Step(p, View(p, s), Arrive(r, session));
    assert s'.limits == v'.limits == Enter(View(p, s).limits, session, p.limit, p.burst, s.now).0;
    assert Flushed(s'.limits, p.limit, p.burst) == s'.limits;
    assert s'.tickets.Keys == s.tickets.Keys + {r};
    hide Level;
    forall q | q in s'.tickets
      ensures Attached(s'.limits.entries, s'.tickets[q]) <==> q in v'.tickets
      ensures q in v'.tickets ==> v'.tickets[q] == s'.tickets[q]
    {
    }
    assert View(p, s').tickets == v'.tickets;
  }

  lemma ResolveView(p: Params, q: Params, s: State, r: nat)
    requires Detachable(s) && r in View(p, s).tickets
    ensures View(p, Step(q, s, Resolve(r))) == Step(p, View(p, s), Resolve(r)).(log := [])
  {
    var s1, v' := Step(q, s, Resolve(r)), Step(p, View(p, s), Resolve(r));
    ResolveLimits(p, q, s, r);
    hide Level, Allow, Step, Detachable, Flushed;
    assert View(p, s1).tickets == v'.tickets;
  }

  lemma ResolveLimits(p: Params, q: Params, s: State, r: nat)
    requires Detachable(s) && r in View(p, s).tickets
    ensures var s1, v' := Step(q, s, Resolve(r)), Step(p, View(p, s), Resolve(r));
            && View(p, s1).limits == v'.limits && v'.limits.entries == View(p, s).limits.entries
            && s1.now == v'.now == s.now && s1.tickets == s.tickets - {r} && v'.tickets == View(p, s).tickets - {r}
  {
    hide Level, Allow;
  }

  /** No request that counts for the setting loses its limiter to the reaper. */
  lemma SweepView(p: Params, s: State)
    requires Sensible(p) && (p.reaping ==> Refills(p)) && Inv(p, View(p, s))
    ensures View(p, Step(p, s, Sweep)) == Step(p, View(p, s), Sweep)
  {
    if p.reaping {
      var v := View(p, s);
      forall r | r in v.tickets
        ensures v.tickets[r].session in Reap(v.limits, s.now).entries
      {
        assert TicketOk(p, v, v.tickets[r]);
        if Expired(v.limits.entries[v.tickets[r].session], s.now) {
          ExpiredIsFull(p, v, v.tickets[r].session);
          assert false;
        }
      }
      hide Inv;
      var v' := Step(p, v, Sweep);
      assert View(p, Step(p, s, Sweep)).limits == v'.limits;
      assert View(p, Step(p, s, Sweep)).tickets == v'.tickets;
    }
  }

  /** The same limiters for the same sessions, and the same requests in flight. */
  ghost predicate SameLimiters(v: State, v': State) {
    && v'.now == v.now && v'.tickets == v.tickets && v'.limits.entries == v.limits.entries
    && v'.limits.currentLimit == v.limits.currentLimit && v'.limits.currentBurst == v.limits.currentBurst
    && |v'.limits.buckets| == |v.limits.buckets|
    && (forall id :: id in v.limits.entries && v.limits.entries[id].bucket < |v.limits.buckets| ==>
          v'.limits.buckets[v.limits.entries[id].bucket] == v.limits.buckets[v.limits.entries[id].bucket])
  }

  lemma SameLimitersSameInv(p: Params, v: State, v': State)
    requires Inv(p, v) && SameLimiters(v, v')
    ensures Inv(p, v') && forall id :: Available(p, v', id) == Available(p, v, id)
  {
    hide Level;
    forall k | k in v'.tickets
      ensures TicketOk(p, v', v'.tickets[k])
    {
      assert TicketOk(p, v, v.tickets[k]);
    }
  }

  lemma DetachedChangesNoLimiter(p: Params, q: Params, s: State, r: nat)
    requires Detachable(s) && r in s.tickets && r !in View(p, s).tickets
    ensures SameLimiters(View(p, s), View(p, Step(q, s, Resolve(r))))
  {
    var s' := Step(q, s, Resolve(r));
    var v, v' := View(p, s), View(p, s');
    hide Level;
    assert v'.limits.entries == v.limits.entries;
    assert forall id :: id in v.limits.entries ==> v.limits.entries[id].bucket != s.tickets[r].bucket;
    assert v'.tickets == v.tickets;
  }

  /** A request without a limiter of this setting spends no tokens of it. */
  lemma DetachedResolve(p: Params, q: Params, s: State, r: nat)
    requires Detachable(s) && r in s.tickets && r !in View(p, s).tickets && Inv(p, View(p, s))
    ensures var s' := Step(q, s, Resolve(r));
            && Inv(p, View(p, s')) && s'.now == s.now && View(p, s').tickets == View(p, s).tickets
            && forall id :: Available(p, View(p, s'), id) == Available(p, View(p, s), id)
  {
    DetachedChangesNoLimiter(p, q, s, r);
    hide Inv, Available, View, Detachable;
    SameLimitersSameInv(p, View(p, s), View(p, Step(q, s, Resolve(r))));
  }

  // ----- what every live run keeps

  /** A request gets the limiter of its session, which is there already or the newest one. */
  ghost predicate Entered(before: Limits, after: Limits, session: string, bucket: nat) {
    && |before.buckets| <= |after.buckets| && bucket < |after.buckets|
    && session in after.entries && after.entries[session].bucket == bucket
    && (bucket == |before.buckets| || (session in before.entries && before.entries[session].bucket == bucket))
    && (forall id :: id in after.entries && id != session ==> id in before.entries && after.entries[id].bucket == before.entries[id].bucket)
  }

  lemma EnterMeans(limits: Limits, session: string, limit: real, burst: nat, now: real)
    requires forall id :: id in limits.entries ==> limits.entries[id].bucket < |limits.buckets|
    ensures var (after, bucket) := Enter(limits, session, limit, burst, now);
            if bucket.None? then after == limits else Entered(limits, after, session, bucket.value)
  {
  }

  lemma EnteredKeepsDetachable(s: State, s': State, r: nat, session: string, bucket: nat)
    requires Detachable(s) && Entered(s.limits, s'.limits, session, bucket)
    requires r !in s.tickets && s' == s.(limits := s'.limits, tickets := s.tickets[r := Ticket(session, bucket, s.now)])
    ensures Detachable(s')
  {
  }

  lemma ArriveKeepsDetachable(q: Params, s: State, r: nat, session: string)
    requires Detachable(s)
    ensures Detachable(Step(q, s, Arrive(r, session)))
  {
    EnterMeans(s.limits, session, q.limit, q.burst, s.now);
    var s', bucket := Step(q, s, Arrive(r, session)), Enter(s.limits, session, q.limit, q.burst, s.now).1;
    hide Detachable, Entered, Enter;
    if r !in s.tickets && bucket.Some? {
      EnteredKeepsDetachable(s, s', r, session, bucket.value);
    }
  }

  lemma StepKeepsDetachable(q: Params, s: State, a: Action)
    requires Detachable(s)
    ensures Detachable(Step(q, s, a))
  {
    hide Level;
    match a
    case Arrive(r, session) => ArriveKeepsDetachable(q, s, r, session); hide Step;
    case _ =>
  }

  lemma LivePass(w: World, q: Params, s: State, dt: real)
    requires LiveInv(w, s) && q.delay == w.delay
    ensures LiveInv(w, Step(q, s, Pass(dt)))
  {
    StepKeepsDetachable(q, s, Pass(dt));
    if s.limits.entries != map[] && MayPass(q, s, dt) {
      PassView(InForce(w, s), q, s, dt);
      PassKeepsInv(InForce(w, s), View(InForce(w, s), s), dt);
      hide Inv, Step;
    }
  }

  lemma LiveArrive(w: World, c: Setting, s: State, r: nat, session: string)
    requires LiveInv(w, s) && w.delay >= 0.0
    ensures LiveInv(w, Step(Under(w, c), s, Arrive(r, session)))
  {
    var p := Under(w, c);
    StepKeepsDetachable(p, s, Arrive(r, session));
    if r !in s.tickets && p.limit > 0.0 && session != "" {
      ViewInv(w, p, s);
      ArriveView(p, s, r, session);
      ArriveStep(p, View(p, s), r, session);
      assert InForce(w, Step(p, s, Arrive(r, session))) == p;
      hide Inv, Available;
    }
  }

  lemma LiveResolve(w: World, q: Params, s: State, r: nat)
    requires LiveInv(w, s)
    ensures LiveInv(w, Step(q, s, Resolve(r)))
  {
    StepKeepsDetachable(q, s, Resolve(r));
    var p := InForce(w, s);
    if s.limits.entries != map[] && r in s.tickets {
      if r in View(p, s).tickets {
        ResolveView(p, q, s, r);
        ResolveStep(p, View(p, s), r);
        IgnoresLog(p, Step(p, View(p, s), Resolve(r)));
      } else {
        DetachedResolve(p, q, s, r);
      }
      hide Inv, Available, View;
    }
  }

  lemma IgnoresLog(p: Params, s: State)
    requires Inv(p, s)
    ensures Inv(p, s.(log := []))
    ensures forall id :: Available(p, s.(log := []), id) == Available(p, s, id)
  {
    var s' := s.(log := []);
    forall r | r in s'.tickets
      ensures TicketOk(p, s', s'.tickets[r])
    {
      assert TicketOk(p, s, s.tickets[r]);
    }
    hide Level;
  }

  /** Even where limiters are reaped before they have filled up, what remains is in order. */
  lemma LiveSweep(w: World, q: Params, s: State)
    requires LiveInv(w, s)
    ensures LiveInv(w, Step(q, s, Sweep))
  {
    StepKeepsDetachable(q, s, Sweep);
    var p, s' := InForce(w, s), Step(q, s, Sweep);
    if s'.limits.entries != map[] {
      var v, v' := View(p, s), View(p, s');
      assert v'.limits.buckets == v.limits.buckets;
      forall k | k in v'.tickets
        ensures TicketOk(p, v', v'.tickets[k])
      {
        assert TicketOk(p, v, v.tickets[k]);
      }
    }
  }

  lemma {:induction false} LiveKeepsInv(w: World, events: seq<Event>)
    requires w.delay >= 0.0
    ensures LiveInv(w, Live(w, events))
  {
    hide LiveInv, Step;
    if events == [] {
      assert LiveInv(w, START) by { StartIsLive(w); }
    } else {
      var front, last := events[..|events| - 1], events[|events| - 1];
      LiveKeepsInv(w, front);
      match last.action
      case Pass(dt) => LivePass(w, Under(w, last.setting), Live(w, front), dt);
      case Arrive(r, session) => LiveArrive(w, last.setting, Live(w, front), r, session);
      case Resolve(r) => LiveResolve(w, Under(w, last.setting), Live(w, front), r);
      case Sweep => LiveSweep(w, Under(w, last.setting), Live(w, front));
    }
  }

  lemma StartIsLive(w: World)
    ensures LiveInv(w, START)
  {
  }

  // ----- a period of one setting

  /** The decision that the request would get now. */
  predicate Admits(s: State, r: nat) {
    r in s.tickets && s.tickets[r].bucket < |s.limits.buckets| && Decide(s.limits, s.tickets[r].bucket, s.now).1
  }

  ghost predicate Ready(p: Params, s: State) {
    Detachable(s) && Inv(p, View(p, s))
  }

  ghost function Tokens(p: Params, s: State, session: string): real
    requires Ready(p, s)
  {
    Available(p, View(p, s), session)
  }

  /** The action admits a request that holds a limiter of the setting. */
  predicate Spends(p: Params, s: State, a: Action, session: string) {
    a.Resolve? && a.request in View(p, s).tickets && s.tickets[a.request].session == session && Admits(s, a.request)
  }

  ghost predicate Accounted(p: Params, s: State, a: Action) {
    var s' := Step(p, s, a);
    && Ready(p, s) && Ready(p, s') && s'.now >= s.now
    && (forall id :: Tokens(p, s', id) + (if Spends(p, s, a, id) then 1.0 else 0.0) <= Tokens(p, s, id) + Earned(p.limit, s'.now - s.now))
    && (forall r :: r in View(p, s).tickets && a != Resolve(r) ==> r in View(p, s').tickets)
    && (a.Arrive? && a.request !in s.tickets && a.request in s'.tickets ==> a.request in View(p, s').tickets)
  }

  lemma PassAccounted(p: Params, s: State, dt: real)
    requires Sensible(p) && Ready(p, s)
    ensures Accounted(p, s, Pass(dt))
  {
    StepKeepsDetachable(p, s, Pass(dt));
    EarnedGrows(p.limit, 0.0, 0.0);
    if MayPass(p, s, dt) {
      PassView(p, p, s, dt);
      PassStep(p, View(p, s), dt);
      assert MayPass(p, View(p, s), dt);
    }
    hide Inv, Available, Earned, Detachable;
  }

  lemma NewArrival(p: Params, s: State, r: nat, session: string)
    requires Sensible(p) && Ready(p, s) && r !in s.tickets && session != ""
    ensures var s' := Step(p, s, Arrive(r, session));
            && Ready(p, s') && s'.now == s.now && View(p, s').tickets.Keys == View(p, s).tickets.Keys + {r}
            && forall id :: Tokens(p, s', id) == Tokens(p, s, id)
  {
    StepKeepsDetachable(p, s, Arrive(r, session));
    ArriveView(p, s, r, session);
    ArriveStep(p, View(p, s), r, session);
    assert r !in View(p, s).tickets;
    assert Step(p, s, Arrive(r, session)).now == s.now;
    hide Inv, Available, Detachable, View, Step;
  }

  lemma ArriveAccounted(p: Params, s: State, r: nat, session: string)
    requires Sensible(p) && Ready(p, s)
    ensures Accounted(p, s, Arrive(r, session))
  {
    EarnedGrows(p.limit, 0.0, 0.0);
    if r !in s.tickets && session != "" {
      NewArrival(p, s, r, session);
    } else {
      assert Step(p, s, Arrive(r, session)) == s;
    }
    ArrivalIsAccounted(p, s, r, session);
  }

  lemma ArrivalIsAccounted(p: Params, s: State, r: nat, session: string)
    requires var s' := Step(p, s, Arrive(r, session));
             && Ready(p, s) && Ready(p, s') && s'.now == s.now && 0.0 <= Earned(p.limit, 0.0)
             && (forall id :: Tokens(p, s', id) == Tokens(p, s, id))
             && View(p, s').tickets.Keys == View(p, s).tickets.Keys + if s' == s then {} else {r}
    ensures Accounted(p, s, Arrive(r, session))
  {
    hide Earned, View, Step, Tokens, Ready;
  }

  lemma AttachedResolve(p: Params, s: State, r: nat)
    requires Sensible(p) && Ready(p, s) && r in View(p, s).tickets
    ensures var s' := Step(p, s, Resolve(r));
            && Ready(p, s') && s'.now == s.now && View(p, s').tickets == View(p, s).tickets - {r}
            && forall id :: Tokens(p, s', id) == Tokens(p, s, id) - if Spends(p, s, Resolve(r), id) then 1.0 else 0.0
  {
    var a, v := Resolve(r), View(p, s);
    StepKeepsDetachable(p, s, a);
    ResolveView(p, p, s, r);
    ResolveStep(p, v, r);
    IgnoresLog(p, Step(p, v, a));
    VerdictIsTheSame(p, s, r);
    hide Inv, Available, Detachable, View, Level, Step, Admits;
  }

  lemma DetachedAccounted(p: Params, s: State, r: nat)
    requires Sensible(p) && Ready(p, s) && r !in View(p, s).tickets
    ensures Accounted(p, s, Resolve(r))
  {
    EarnedGrows(p.limit, 0.0, 0.0);
    StepKeepsDetachable(p, s, Resolve(r));
    if r in s.tickets {
      DetachedResolve(p, p, s, r);
    } else {
      assert Step(p, s, Resolve(r)) == s;
    }
    hide Inv, Available, Earned, Detachable, View, Level, Step;
  }

  lemma AttachedIsAccounted(p: Params, s: State, r: nat)
    requires var s' := Step(p, s, Resolve(r));
             && Ready(p, s) && Ready(p, s') && s'.now == s.now && 0.0 <= Earned(p.limit, 0.0)
             && View(p, s').tickets == View(p, s).tickets - {r}
             && forall id :: Tokens(p, s', id) == Tokens(p, s, id) - if Spends(p, s, Resolve(r), id) then 1.0 else 0.0
    ensures Accounted(p, s, Resolve(r))
  {
    hide Earned, View, Step, Spends, Tokens, Ready;
  }

  lemma ResolveAccounted(p: Params, s: State, r: nat)
    requires Sensible(p) && Ready(p, s)
    ensures Accounted(p, s, Resolve(r))
  {
    hide *;
    if r in View(p, s).tickets {
      LimitIsPositive(p);
      EarnedGrows(p.limit, 0.0, 0.0);
      AttachedResolve(p, s, r);
      AttachedIsAccounted(p, s, r);
    } else {
      DetachedAccounted(p, s, r);
    }
  }

  lemma LimitIsPositive(p: Params)
    requires Sensible(p)
    ensures p.limit > 0.0
  {
  }

  /** The request is admitted exactly if its session has a whole token. */
  lemma VerdictIsTheSame(p: Params, s: State, r: nat)
    requires Sensible(p) && Ready(p, s) && r in View(p, s).tickets
    ensures r in s.tickets && View(p, s).tickets[r] == s.tickets[r]
    ensures Admits(s, r) <==> Tokens(p, s, s.tickets[r].session) >= 1.0
  {
    hide Level;
    assert TicketOk(p, View(p, s), View(p, s).tickets[r]);
  }

  lemma SweepAccounted(p: Params, s: State)
    requires Sensible(p) && (p.reaping ==> Refills(p)) && Ready(p, s)
    ensures Accounted(p, s, Sweep)
  {
    StepKeepsDetachable(p, s, Sweep);
    EarnedGrows(p.limit, 0.0, 0.0);
    SweepView(p, s);
    SweepStep(p, View(p, s));
    hide Inv, Available, Earned, Detachable, View;
  }

  lemma StepAccounted(p: Params, s: State, a: Action)
    requires Sensible(p) && (p.reaping ==> Refills(p)) && Ready(p, s)
    ensures Accounted(p, s, a)
  {
    hide Accounted, Ready;
    match a
    case Pass(dt) => PassAccounted(p, s, dt);
    case Arrive(r, session) => ArriveAccounted(p, s, r, session);
    case Resolve(r) => ResolveAccounted(p, s, r);
    case Sweep => SweepAccounted(p, s);
  }

  /** The requests in flight that were looked up during the period. */
  function Looked(p: Params, s: State, period: seq<Action>): set<nat> {
    if period == [] then {}
    else
      var front, a := period[..|period| - 1], period[|period| - 1];
      var m, before := Run(p, s, front), Looked(p, s, front);
      match a
      case Arrive(r, _) => if r !in m.tickets && r in Step(p, m, a).tickets then before + {r} else before
      case Resolve(r) => before - {r}
      case _ => before
  }

  lemma {:induction false} LookedAreAttached(p: Params, s: State, period: seq<Action>)
    requires Sensible(p) && (p.reaping ==> Refills(p)) && Ready(p, s)
    ensures Ready(p, Run(p, s, period))
    ensures forall r :: r in Looked(p, s, period) ==> r in View(p, Run(p, s, period)).tickets
  {
    hide Ready, Step, View;
    if period != [] {
      var front, a := period[..|period| - 1], period[|period| - 1];
      LookedAreAttached(p, s, front);
      StepAccounted(p, Run(p, s, front), a);
    }
  }

  lemma RunLast(p: Params, s: State, period: seq<Action>)
    requires period != []
    ensures Run(p, s, period) == Step(p, Run(p, s, period[..|period| - 1]), period[|period| - 1])
  {
    hide Step;
  }

  /** Tokens spent plus tokens left do not exceed tokens at the start plus refill. */
  ghost predicate Balanced(p: Params, m: State, e: State, session: string, spent: nat) {
    Ready(p, m) && Ready(p, e) && spent as real + Tokens(p, e, session) <= Tokens(p, m, session) + Earned(p.limit, e.now - m.now)
  }

  lemma BalancedAtFirst(p: Params, m: State, session: string)
    requires Sensible(p) && Ready(p, m)
    ensures Balanced(p, m, m, session, 0)
  {
    EarnedGrows(p.limit, 0.0, 0.0);
    hide Ready, Tokens, Earned;
  }

  lemma OneAccount(p: Params, f: State, a: Action, session: string, counts: bool)
    requires Accounted(p, f, a) && (counts ==> Spends(p, f, a, session))
    ensures var e := Step(p, f, a);
            Ready(p, f) && Ready(p, e) && Tokens(p, e, session) + (if counts then 1.0 else 0.0) <= Tokens(p, f, session) + Earned(p.limit, e.now - f.now)
  {
    hide Ready, Tokens, Earned, Spends, Step, View;
  }

  lemma BalancedNext(p: Params, m: State, f: State, a: Action, session: string, spent: nat, counts: bool)
    requires Balanced(p, m, f, session, spent) && Accounted(p, f, a) && (counts ==> Spends(p, f, a, session))
    ensures Balanced(p, m, Step(p, f, a), session, spent + if counts then 1 else 0)
  {
    hide Ready, Tokens, Earned, Spends, Step, Accounted;
    var e := Step(p, f, a);
    OneAccount(p, f, a, session, counts);
    EarnedAdds(p.limit, f.now - m.now, e.now - f.now);
    assert e.now - m.now == (f.now - m.now) + (e.now - f.now);
  }

  /** The last action of a period counts if it admits one of the period's own requests. */
  predicate Counts(p: Params, s: State, period: seq<Action>, session: string)
    requires period != []
  {
    var front, a := period[..|period| - 1], period[|period| - 1];
    var m := Run(p, s, front);
    a.Resolve? && a.request in Looked(p, s, front) && Admits(m, a.request) && m.tickets[a.request].session == session
  }

  /** How many requests of the session that were looked up during the period are admitted in it, after the first
      `from` actions. */
  function AdmittedSince(p: Params, s: State, period: seq<Action>, from: nat, session: string): nat {
    if |period| <= from then 0
    else AdmittedSince(p, s, period[..|period| - 1], from, session) + if Counts(p, s, period, session) then 1 else 0
  }

  lemma CountsSpends(p: Params, s: State, period: seq<Action>, session: string)
    requires Sensible(p) && (p.reaping ==> Refills(p)) && Ready(p, s) && period != []
    ensures Counts(p, s, period, session) ==> Spends(p, Run(p, s, period[..|period| - 1]), period[|period| - 1], session)
  {
    LookedAreAttached(p, s, period[..|period| - 1]);
    hide Run, Looked, Admits, View, Ready;
  }

  lemma SinceLast(p: Params, s: State, period: seq<Action>, from: nat, session: string)
    requires from < |period|
    ensures AdmittedSince(p, s, period, from, session)
            == AdmittedSince(p, s, period[..|period| - 1], from, session) + if Counts(p, s, period, session) then 1 else 0
  {
  }

  ghost predicate BooksBalance(p: Params, s: State, period: seq<Action>, from: nat, session: string)
    requires from <= |period|
  {
    Balanced(p, Run(p, s, period[..from]), Run(p, s, period), session, AdmittedSince(p, s, period, from, session))
  }

  lemma BooksAtFirst(p: Params, s: State, period: seq<Action>, session: string)
    requires Sensible(p) && Ready(p, Run(p, s, period))
    ensures BooksBalance(p, s, period, |period|, session)
  {
    assert period[..|period|] == period;
    BalancedAtFirst(p, Run(p, s, period), session);
    hide Balanced, Run;
  }

  lemma BooksNext(p: Params, s: State, front: seq<Action>, a: Action, from: nat, session: string)
    requires Sensible(p) && (p.reaping ==> Refills(p)) && Ready(p, s)
    requires from <= |front| && BooksBalance(p, s, front, from, session)
    ensures BooksBalance(p, s, front + [a], from, session)
  {
    var period, f := front + [a], Run(p, s, front);
    assert period[..|period| - 1] == front && period[..from] == front[..from];
    LookedAreAttached(p, s, front);
    StepAccounted(p, f, a);
    CountsSpends(p, s, period, session);
    RunLast(p, s, period);
    SinceLast(p, s, period, from, session);
    hide Balanced, Run, Step, Counts, AdmittedSince, Spends, Accounted, Ready, Looked, View;
    BalancedNext(p, Run(p, s, period[..from]), f, a, session, AdmittedSince(p, s, front, from, session), Counts(p, s, period, session));
  }

  /** Over any window of the period, the books on its own requests balance. */
  lemma {:induction false} SpendingInPeriod(p: Params, s: State, period: seq<Action>, from: nat, session: string)
    requires Sensible(p) && (p.reaping ==> Refills(p)) && Ready(p, s) && from <= |period|
    ensures BooksBalance(p, s, period, from, session)
  {
    hide *;
    if |period| == from {
      LookedAreAttached(p, s, period);
      BooksAtFirst(p, s, period, session);
    } else {
      var front, a := period[..|period| - 1], period[|period| - 1];
      SpendingInPeriod(p, s, front, from, session);
      BooksNext(p, s, front, a, from, session);
      assert front + [a] == period;
    }
  }

  /** Every setting finds a live run ready, and a limiting one is sensible. */
  lemma LiveIsReady(w: World, events: seq<Event>, c: Setting)
    requires w.delay >= 0.0 && c.limit > 0.0
    ensures Sensible(Under(w, c)) && Ready(Under(w, c), Live(w, events))
    ensures Under(w, c).reaping == w.reaping && Under(w, c).limit == c.limit && Under(w, c).burst == c.burst
  {
    LiveKeepsInv(w, events);
    ViewInv(w, Under(w, c), Live(w, events));
    hide Live, View, Inv;
  }

  /**
   After any settings, and with any requests of theirs still in flight: in any window of a period of one setting, the
   requests that were looked up during the period are admitted at most burst + limit * length times per session.
   */
  lemma AdmissionsAreBoundedInPeriod(w: World, events: seq<Event>, c: Setting, period: seq<Action>, from: nat, session: string)
    requires w.delay >= 0.0 && c.limit > 0.0 && (w.reaping ==> Refills(Under(w, c))) && from <= |period|
    ensures var p, s := Under(w, c), Live(w, events);
            var m, e := Run(p, s, period[..from]), Run(p, s, period);
            AtMost(AdmittedSince(p, s, period, from, session), c.burst, c.limit, e.now - m.now)
  {
    LiveIsReady(w, events, c);
    hide *;
    PeriodIsBounded(Under(w, c), Live(w, events), period, from, session);
  }

  lemma PeriodIsBounded(p: Params, s: State, period: seq<Action>, from: nat, session: string)
    requires Sensible(p) && (p.reaping ==> Refills(p)) && Ready(p, s) && from <= |period|
    ensures AtMost(AdmittedSince(p, s, period, from, session), p.burst, p.limit, Run(p, s, period).now - Run(p, s, period[..from]).now)
  {
    hide *;
    SpendingInPeriod(p, s, period, from, session);
    BooksMean(p, s, period, from, session);
    BalanceBounds(p, Run(p, s, period[..from]), Run(p, s, period), session, AdmittedSince(p, s, period, from, session));
  }

  lemma BooksMean(p: Params, s: State, period: seq<Action>, from: nat, session: string)
    requires from <= |period| && BooksBalance(p, s, period, from, session)
    ensures Balanced(p, Run(p, s, period[..from]), Run(p, s, period), session, AdmittedSince(p, s, period, from, session))
  {
  }

  lemma BalanceBounds(p: Params, m: State, e: State, session: string, spent: nat)
    requires Sensible(p) && Balanced(p, m, e, session, spent)
    ensures AtMost(spent, p.burst, p.limit, e.now - m.now)
  {
    TokensAreBounded(p, m, session);
    TokensAreBounded(p, e, session);
    EarnedIsAtMost(spent, p.burst, p.limit, e.now - m.now);
    hide Ready, Tokens, Earned, AtMost;
  }

  lemma TokensAreBounded(p: Params, s: State, session: string)
    requires Sensible(p) && Ready(p, s)
    ensures 0.0 <= Tokens(p, s, session) <= p.burst as real
  {
    AvailableIsBounded(p, View(p, s), session);
  }

  /** The first request after a change finds every session with a full burst, whatever is still in flight. */
  lemma NewSettingStartsFull(w: World, events: seq<Event>, c: Setting, r: nat, session: string, id: string)
    requires w.delay >= 0.0 && c.limit > 0.0 && session != "" && r !in Live(w, events).tickets
    requires var limits := Live(w, events).limits; limits.currentLimit != c.limit || limits.currentBurst != c.burst
    ensures var p, s := Under(w, c), Live(w, events);
            var s' := Step(p, s, Arrive(r, session));
            Ready(p, s') && Tokens(p, s', id) == c.burst as real && View(p, s').tickets.Keys == {r}
  {
    var p, s := Under(w, c), Live(w, events);
    LiveIsReady(w, events, c);
    hide Live, Level;
    ArriveView(p, s, r, session);
    ArriveStep(p, View(p, s), r, session);
    StepKeepsDetachable(p, s, Arrive(r, session));
    hide Detachable, Inv;
  }
}
