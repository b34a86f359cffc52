/**
 Concurrent requests through the rate limiter. A request looks its limiter up under the mutex and
 asks it only after the mutex has been released, up to `delay` later; the reaper may run in
 between. The bound on admissions is proved for every delay, and shown to need what it assumes.
 */
module RateLimitProtocol {
  import opened Wrappers
  import opened RateLimit

  /** The limit and burst of every request observed, the longest time between lookup and decision,
      and whether the reaper runs at all. */
  datatype Params = Params(limit: real, burst: nat, delay: real, reaping: bool)

  ghost predicate Sensible(p: Params) {
    p.limit > 0.0 && p.burst >= 1 && p.delay >= 0.0
  }

  datatype Ticket = Ticket(session: string, bucket: nat, since: real)

  datatype Verdict = Verdict(session: string, at: real, ok: bool)

  /** `log` lists the decisions taken so far. */
  datatype State = State(limits: Limits, now: real, tickets: map<nat, Ticket>, log: seq<Verdict>)

  datatype Action =
    | Pass(dt: real)
    | Arrive(request: nat, session: string)
    | Resolve(request: nat)
    | Sweep

  const START: State := State(NO_LIMITS, 0.0, map[], [])

  /** No request in flight stays undecided for longer than `delay`. */
  predicate MayPass(p: Params, s: State, dt: real) {
    dt >= 0.0 && forall r :: r in s.tickets ==> s.now + dt <= s.tickets[r].since + p.delay
  }

  function Step(p: Params, s: State, a: Action): State {
    match a
    case Pass(dt) =>
      if MayPass(p, s, dt) then s.(now := s.now + dt) else s
    case Arrive(r, session) =>
      if r in s.tickets then s
      else
        var (limits, bucket) := Enter(s.limits, session, p.limit, p.burst, s.now);
        if bucket.None? then s
        else s.(limits := limits, tickets := s.tickets[r := Ticket(session, bucket.value, s.now)])
    case Resolve(r) =>
      if r in s.tickets && s.tickets[r].bucket < |s.limits.buckets| then
        var ticket := s.tickets[r];
        var (limits, ok) := Decide(s.limits, ticket.bucket, s.now);
        s.(limits := limits, tickets := s.tickets - {r}, log := s.log + [Verdict(ticket.session, s.now, ok)])
      else s
    case Sweep =>
      if p.reaping then s.(limits := Reap(s.limits, s.now)) else s
  }

  function Run(p: Params, s: State, actions: seq<Action>): State {
    if actions == [] then s
    else Step(p, Run(p, s, actions[..|actions| - 1]), actions[|actions| - 1])
  }

  /** An idle entry has time to fill up between its last use and the earliest sweep. */
  ghost predicate Refills(p: Params) {
    p.limit * (600.0 - p.delay) >= p.burst as real
  }

  // ----- what every run keeps

  ghost predicate BucketOk(p: Params, b: Bucket, lastSeen: real, now: real) {
    && b.limit == p.limit && b.burst == p.burst
    && 0.0 <= b.tokens <= p.burst as real
    && b.last <= now && b.last <= lastSeen + p.delay
  }

  ghost predicate TicketOk(p: Params, s: State, ticket: Ticket) {
    && ticket.since <= s.now <= ticket.since + p.delay
    && ticket.session in s.limits.entries
    && s.limits.entries[ticket.session].bucket == ticket.bucket
    && ticket.since <= s.limits.entries[ticket.session].lastSeen
  }

  ghost predicate EntriesOk(p: Params, s: State) {
    forall id :: id in s.limits.entries ==>
      && s.limits.entries[id].bucket < |s.limits.buckets|
      && s.limits.entries[id].lastSeen <= s.now
      && BucketOk(p, s.limits.buckets[s.limits.entries[id].bucket], s.limits.entries[id].lastSeen, s.now)
  }

  ghost predicate Unshared(s: State) {
    forall i, j :: i in s.limits.entries && j in s.limits.entries && s.limits.entries[i].bucket == s.limits.entries[j].bucket ==> i == j
  }

  ghost predicate TicketsOk(p: Params, s: State) {
    forall r :: r in s.tickets ==> TicketOk(p, s, s.tickets[r])
  }

  /** Each session has a limiter of its own, used within `delay` of the session's last lookup, and
      every request in flight holds the limiter that its session still has. */
  ghost predicate Inv(p: Params, s: State) {
    && s.now >= 0.0
    && (s.limits.entries != map[] ==> s.limits.currentLimit == p.limit && s.limits.currentBurst == p.burst)
    && EntriesOk(p, s) && Unshared(s) && TicketsOk(p, s)
  }

  /** The tokens a session could draw on now; a session without a limiter would get a full one. */
  ghost function Available(p: Params, s: State, session: string): real
    requires Inv(p, s)
  {
    if session in s.limits.entries then Level(s.limits.buckets[s.limits.entries[session].bucket], s.now) else p.burst as real
  }

  /** The bucket of an expired entry has had time to fill up, and nobody holds it any more. */
  lemma ExpiredIsFull(p: Params, s: State, session: string)
    requires Sensible(p) && Refills(p) && Inv(p, s)
    requires session in s.limits.entries && Expired(s.limits.entries[session], s.now)
    ensures Available(p, s, session) == p.burst as real
    ensures forall r :: r in s.tickets ==> s.tickets[r].session != session
  {
    hide Level, Earned, Refills;
    var entry := s.limits.entries[session];
    var b := s.limits.buckets[entry.bucket];
    IdleOutlastsDelay(p);
    FullWhenRefilled(b, s.now, IDLE - p.delay);
    forall r | r in s.tickets
      ensures s.tickets[r].session != session
    {
      assert TicketOk(p, s, s.tickets[r]);
    }
  }

  lemma IdleOutlastsDelay(p: Params)
    requires Sensible(p) && Refills(p)
    ensures IDLE - p.delay > 0.0 && p.limit * (IDLE - p.delay) >= p.burst as real
  {
    EarnedMeans(p.limit, IDLE - p.delay);
    if IDLE - p.delay <= 0.0 {
      EarnedGrows(p.limit, 0.0, IDLE - p.delay);
      assert false;
    }
  }

  ghost predicate AfterArrival(s: State, s': State, r: nat, session: string) {
    && s'.log == s.log && s'.now == s.now
    && s'.tickets.Keys == (if session == "" then s.tickets.Keys else s.tickets.Keys + {r})
    && (forall q :: q in s.tickets ==> s'.tickets[q] == s.tickets[q])
    && (r in s'.tickets && r !in s.tickets ==>
          && s'.tickets[r].session == session && s'.tickets[r].since == s.now
          && session in s'.limits.entries && s'.limits.entries[session].lastSeen == s.now)
  }

  lemma ArrivalTickets(p: Params, s: State, r: nat, session: string)
    requires Sensible(p)
    ensures AfterArrival(s, Step(p, s, Arrive(r, session)), r, session)
  {
  }

  /** The limiters after an arrival: the session's entry is refreshed, or created with a full bucket. */
  ghost predicate ArrivalShape(p: Params, s: State, s': State, r: nat, session: string) {
    var before, after := s.limits, s'.limits;
    && s'.now == s.now && before.buckets <= after.buckets
    && after.currentLimit == p.limit && after.currentBurst == p.burst
    && after.entries.Keys == before.entries.Keys + {session}
    && after.entries[session].lastSeen == s.now
    && (forall id :: id in before.entries && id != session ==> after.entries[id] == before.entries[id])
    && (if session in before.entries then
          after.entries[session].bucket == before.entries[session].bucket && after.buckets == before.buckets
        else
          after.entries[session].bucket == |before.buckets| && after.buckets == before.buckets + [NewBucket(p.limit, p.burst)])
    && s'.tickets == s.tickets[r := Ticket(session, after.entries[session].bucket, s.now)]
  }

  lemma ArrivalLimits(p: Params, s: State, r: nat, session: string)
    requires Sensible(p) && Inv(p, s) && r !in s.tickets && session != ""
    ensures ArrivalShape(p, s, Step(p, s, Arrive(r, session)), r, session)
  {
    assert Flushed(s.limits, p.limit, p.burst).entries == s.limits.entries;
  }

  lemma ArrivalEntries(p: Params, s: State, s': State, r: nat, session: string)
    requires Sensible(p) && Inv(p, s) && ArrivalShape(p, s, s', r, session)
    ensures EntriesOk(p, s')
  {
    hide TicketsOk, Unshared;
  }

  lemma ArrivalTicketsOk(p: Params, s: State, s': State, r: nat, session: string)
    requires Sensible(p) && Inv(p, s) && ArrivalShape(p, s, s', r, session)
    ensures TicketsOk(p, s')
  {
    hide EntriesOk, Unshared;
    forall q | q in s'.tickets
      ensures TicketOk(p, s', s'.tickets[q])
    {
      if q != r {
        assert TicketOk(p, s, s.tickets[q]);
      }
    }
  }

  lemma ArrivalKeepsInv(p: Params, s: State, s': State, r: nat, session: string)
    requires Sensible(p) && Inv(p, s) && ArrivalShape(p, s, s', r, session)
    ensures Inv(p, s')
  {
    ArrivalEntries(p, s, s', r, session);
    ArrivalTicketsOk(p, s, s', r, session);
    hide TicketsOk;
    assert Unshared(s');
  }

  lemma ArrivalAvailable(p: Params, s: State, s': State, r: nat, session: string)
    requires Sensible(p) && Inv(p, s) && Inv(p, s') && ArrivalShape(p, s, s', r, session)
    ensures forall id :: Available(p, s', id) == Available(p, s, id)
  {
    FreshIsFull(p, s.now);
    hide Level;
  }

  lemma ArriveStep(p: Params, s: State, r: nat, session: string)
    requires Sensible(p) && Inv(p, s)
    ensures Inv(p, Step(p, s, Arrive(r, session)))
    ensures forall id :: Available(p, Step(p, s, Arrive(r, session)), id) == Available(p, s, id)
    ensures AfterArrival(s, Step(p, s, Arrive(r, session)), r, session)
  {
    ArrivalTickets(p, s, r, session);
    var s' := Step(p, s, Arrive(r, session));
    if r !in s.tickets && session != "" {
      ArrivalLimits(p, s, r, session);
      hide Step, Inv, Available;
      ArrivalKeepsInv(p, s, s', r, session);
      ArrivalAvailable(p, s, s', r, session);
    } else {
      assert s' == s;
    }
  }

  lemma FreshIsFull(p: Params, now: real)
    requires Sensible(p) && now >= 0.0
    ensures Level(NewBucket(p.limit, p.burst), now) == p.burst as real
  {
    LevelBounds(NewBucket(p.limit, p.burst), now);
  }

  lemma AllowKeepsBucket(p: Params, b: Bucket, lastSeen: real, now: real)
    requires Sensible(p) && BucketOk(p, b, lastSeen, now) && now <= lastSeen + p.delay
    ensures BucketOk(p, Allow(b, now).0, lastSeen, now)
    ensures Allow(b, now).1 <==> Level(b, now) >= 1.0
    ensures Level(Allow(b, now).0, now) == if Level(b, now) >= 1.0 then Level(b, now) - 1.0 else Level(b, now)
  {
    LevelBounds(b, now);
    EarnedGrows(b.limit, 0.0, 0.0);
  }

  lemma ResolveStep(p: Params, s: State, r: nat)
    requires Sensible(p) && Inv(p, s)
    ensures Inv(p, Step(p, s, Resolve(r)))
    ensures r !in s.tickets ==> Step(p, s, Resolve(r)) == s
    ensures r in s.tickets ==>
              var session := s.tickets[r].session;
              var before := Available(p, s, session);
              var s' := Step(p, s, Resolve(r));
              && s'.now == s.now && s'.tickets == s.tickets - {r} && s'.limits.entries == s.limits.entries
              && s'.log == s.log + [Verdict(session, s.now, before >= 1.0)]
              && Available(p, s', session) == (if before >= 1.0 then before - 1.0 else before)
              && forall id :: id != session ==> Available(p, s', id) == Available(p, s, id)
  {
    if r !in s.tickets {
      return;
    }
    var ticket := s.tickets[r];
    assert TicketOk(p, s, ticket);
    hide Level;
    AllowKeepsBucket(p, s.limits.buckets[ticket.bucket], s.limits.entries[ticket.session].lastSeen, s.now);
    var s' := Step(p, s, Resolve(r));
    assert s'.limits.entries == s.limits.entries;
    forall q | q in s'.tickets
      ensures TicketOk(p, s', s'.tickets[q])
    {
      assert TicketOk(p, s, s.tickets[q]);
    }
  }

  lemma PassTickets(p: Params, s: State, dt: real)
    requires Inv(p, s)
    ensures TicketsOk(p, Step(p, s, Pass(dt)))
  {
    hide EntriesOk, Unshared, Level;
    var s' := Step(p, s, Pass(dt));
    forall q | q in s'.tickets
      ensures TicketOk(p, s', s'.tickets[q])
    {
      assert TicketOk(p, s, s.tickets[q]);
    }
  }

  lemma PassKeepsInv(p: Params, s: State, dt: real)
    requires Sensible(p) && Inv(p, s)
    ensures Inv(p, Step(p, s, Pass(dt)))
  {
    PassTickets(p, s, dt);
    hide TicketsOk, Level;
  }

  lemma PassStep(p: Params, s: State, dt: real)
    requires Sensible(p) && Inv(p, s)
    ensures Inv(p, Step(p, s, Pass(dt)))
    ensures var s' := Step(p, s, Pass(dt));
            && s'.now == (if MayPass(p, s, dt) then s.now + dt else s.now)
            && s'.log == s.log && s'.tickets == s.tickets && s'.limits == s.limits
            && forall id :: Available(p, s', id) == Refilled(p, Available(p, s, id), s'.now - s.now)
  {
    PassKeepsInv(p, s, dt);
    hide TicketsOk, Unshared, Earned;
    var s' := Step(p, s, Pass(dt));
    forall id
      ensures Available(p, s', id) == Refilled(p, Available(p, s, id), s'.now - s.now)
    {
      EarnedGrows(p.limit, s'.now - s.now, 0.0);
      if id in s.limits.entries {
        hide Level;
        LevelAfter(s.limits.buckets[s.limits.entries[id].bucket], s.now, s'.now);
      }
    }
  }

  lemma SweepStep(p: Params, s: State)
    requires Sensible(p) && (p.reaping ==> Refills(p)) && Inv(p, s)
    ensures Inv(p, Step(p, s, Sweep))
    ensures forall id :: Available(p, Step(p, s, Sweep), id) == Available(p, s, id)
    ensures var s' := Step(p, s, Sweep); s'.now == s.now && s'.log == s.log && s'.tickets == s.tickets
  {
    if p.reaping {
      forall id | id in s.limits.entries && Expired(s.limits.entries[id], s.now)
        ensures Available(p, s, id) == p.burst as real
        ensures forall r :: r in s.tickets ==> s.tickets[r].session != id
      {
        ExpiredIsFull(p, s, id);
      }
      var s' := Step(p, s, Sweep);
      forall q | q in s'.tickets
        ensures TicketOk(p, s', s'.tickets[q])
      {
        assert TicketOk(p, s, s.tickets[q]);
      }
    }
  }

  ghost function Refilled(p: Params, level: real, elapsed: real): real {
    var tokens := level + Earned(p.limit, elapsed);
    if tokens > p.burst as real then p.burst as real else tokens
  }

  lemma StepKeepsInv(p: Params, s: State, a: Action)
    requires Sensible(p) && (p.reaping ==> Refills(p)) && Inv(p, s)
    ensures Inv(p, Step(p, s, a))
  {
    match a
    case Pass(dt) => PassStep(p, s, dt);
    case Arrive(r, session) => ArriveStep(p, s, r, session);
    case Resolve(r) => ResolveStep(p, s, r);
    case Sweep => SweepStep(p, s);
  }

  lemma {:induction false} RunKeepsInv(p: Params, s: State, actions: seq<Action>)
    requires Sensible(p) && (p.reaping ==> Refills(p)) && Inv(p, s)
    ensures Inv(p, Run(p, s, actions))
  {
    if actions != [] {
      RunKeepsInv(p, s, actions[..|actions| - 1]);
      StepKeepsInv(p, Run(p, s, actions[..|actions| - 1]), actions[|actions| - 1]);
    }
  }

  // ----- main results

  lemma StartKeepsInv(p: Params)
    requires Sensible(p)
    ensures Inv(p, START)
  {
  }

  function Admitted(log: seq<Verdict>, session: string): nat {
    if log == [] then 0
    else
      var last := log[|log| - 1];
      Admitted(log[..|log| - 1], session) + if last.session == session && last.ok then 1 else 0
  }

  lemma AdmittedNext(log: seq<Verdict>, v: Verdict, session: string)
    ensures Admitted(log + [v], session) == Admitted(log, session) + if v.session == session && v.ok then 1 else 0
  {
    assert (log + [v])[..|log|] == log;
  }

  /** Tokens spent plus tokens left never exceed tokens at the start plus refill. */
  lemma {:induction false} SpendingIsBounded(p: Params, s: State, window: seq<Action>, session: string)
    requires Sensible(p) && (p.reaping ==> Refills(p)) && Inv(p, s)
    ensures Inv(p, Run(p, s, window))
    ensures var e := Run(p, s, window);
            (Admitted(e.log, session) - Admitted(s.log, session)) as real + Available(p, e, session)
              <= Available(p, s, session) + Earned(p.limit, e.now - s.now)
  {
    hide Inv, Step, Available, Earned;
    if window == [] {
      EarnedGrows(p.limit, 0.0, 0.0);
    } else {
      var front, a := window[..|window| - 1], window[|window| - 1];
      SpendingIsBounded(p, s, front, session);
      var m := Run(p, s, front);
      var e := Step(p, m, a);
      match a
      case Pass(dt) =>
        PassStep(p, m, dt);
        EarnedAdds(p.limit, m.now - s.now, e.now - m.now);
        assert e.now - s.now == (m.now - s.now) + (e.now - m.now);
      case Arrive(r, id) =>
        ArriveStep(p, m, r, id);
      case Resolve(r) =>
        ResolveStep(p, m, r);
        if r in m.tickets {
          AdmittedNext(m.log, Verdict(m.tickets[r].session, m.now, Available(p, m, m.tickets[r].session) >= 1.0), session);
        }
      case Sweep =>
        SweepStep(p, m);
    }
  }

  lemma AvailableIsBounded(p: Params, s: State, session: string)
    requires Sensible(p) && Inv(p, s)
    ensures 0.0 <= Available(p, s, session) <= p.burst as real
  {
    if session in s.limits.entries {
      LevelBounds(s.limits.buckets[s.limits.entries[session].bucket], s.now);
    }
  }

  ghost predicate WithinBound(p: Params, before: seq<Action>, window: seq<Action>, session: string) {
    var s := Run(p, START, before);
    var e := Run(p, s, window);
    AtMost(Admitted(e.log, session) - Admitted(s.log, session), p.burst, p.limit, e.now - s.now)
  }

  ghost predicate BoundHolds(p: Params) {
    forall before, window, session :: WithinBound(p, before, window, session)
  }

  lemma WindowIsBounded(p: Params, before: seq<Action>, window: seq<Action>, session: string)
    requires Sensible(p) && (p.reaping ==> Refills(p))
    ensures WithinBound(p, before, window, session)
  {
    hide Inv, Step, Available, Run, Admitted, Earned, AtMost;
    StartKeepsInv(p);
    RunKeepsInv(p, START, before);
    var s := Run(p, START, before);
    SpendingIsBounded(p, s, window, session);
    AvailableIsBounded(p, s, session);
    var e := Run(p, s, window);
    AvailableIsBounded(p, e, session);
    EarnedIsAtMost(Admitted(e.log, session) - Admitted(s.log, session), p.burst, p.limit, e.now - s.now);
  }

  /** In any window of any run, a session is admitted at most burst + limit * length times. */
  lemma AdmissionsAreBounded(p: Params)
    requires Sensible(p) && (p.reaping ==> Refills(p))
    ensures BoundHolds(p)
  {
    hide WithinBound, Earned;
    forall before, window, session
      ensures WithinBound(p, before, window, session)
    {
      WindowIsBounded(p, before, window, session);
    }
  }

  // ----- the reaper cannot be noticed

  ghost predicate Alike(p: Params, s: State, q: Params, t: State) {
    && Inv(p, s) && Inv(q, t)
    && s.now == t.now && s.log == t.log && s.tickets.Keys == t.tickets.Keys
    && (forall r :: r in s.tickets ==> s.tickets[r].session == t.tickets[r].session && s.tickets[r].since == t.tickets[r].since)
    && (forall id :: Available(p, s, id) == Available(q, t, id))
  }

  lemma AlikeStep(p: Params, s: State, q: Params, t: State, a: Action)
    requires Sensible(p) && p.reaping && Refills(p) && q == p.(reaping := false) && Alike(p, s, q, t)
    ensures Alike(p, Step(p, s, a), q, Step(q, t, a))
  {
    hide Inv, Available, Step, Earned;
    match a
    case Pass(dt) =>
      PassStep(p, s, dt);
      PassStep(q, t, dt);
      assert MayPass(p, s, dt) == MayPass(q, t, dt);
    case Arrive(r, id) =>
      ArriveStep(p, s, r, id);
      ArriveStep(q, t, r, id);
    case Resolve(r) =>
      ResolveStep(p, s, r);
      ResolveStep(q, t, r);
    case Sweep =>
      SweepStep(p, s);
      SweepStep(q, t);
  }

  /** A run with the reaper takes the same decisions as the run without it: a limiter that was
      reaped and created anew answers like the one never reaped. */
  lemma {:induction false} ReaperIsUnobservable(p: Params, actions: seq<Action>)
    requires Sensible(p) && p.reaping && Refills(p)
    ensures var q := p.(reaping := false);
            Alike(p, Run(p, START, actions), q, Run(q, START, actions))
  {
    var q := p.(reaping := false);
    if actions == [] {
      StartKeepsInv(p);
      StartKeepsInv(q);
    } else {
      hide Inv, Available, Step, Alike, Earned;
      var front := actions[..|actions| - 1];
      ReaperIsUnobservable(p, front);
      AlikeStep(p, Run(p, START, front), q, Run(q, START, front), actions[|actions| - 1]);
    }
  }

  // ----- the bound fails as soon as an idle entry may be reaped before it has filled up

  function Arrivals(n: nat): seq<Action> {
    if n == 0 then [] else Arrivals(n - 1) + [Arrive(n - 1, "s")]
  }

  function Resolutions(n: nat): seq<Action> {
    if n == 0 then [] else Resolutions(n - 1) + [Resolve(n - 1)]
  }

  lemma RunSnoc(p: Params, s: State, actions: seq<Action>, a: Action)
    ensures Run(p, s, actions + [a]) == Step(p, Run(p, s, actions), a)
  {
    hide Step;
    assert (actions + [a])[..|actions|] == actions;
  }

  /** `n` requests of session "s" have been looked up since state `s`, and none decided. */
  ghost predicate Arrived(p: Params, s: State, e: State, n: nat) {
    && Inv(p, s) && Inv(p, e)
    && e.now == s.now && e.log == s.log && Available(p, e, "s") == Available(p, s, "s")
    && (forall r :: r in e.tickets <==> 0 <= r < n)
    && (forall r :: r in e.tickets ==> e.tickets[r].session == "s" && e.tickets[r].since == s.now)
    && (n > 0 ==> "s" in e.limits.entries && e.limits.entries["s"].lastSeen == s.now)
  }

  lemma RunNothing(p: Params, s: State)
    ensures Run(p, s, Arrivals(0)) == s
  {
    hide Step;
  }

  lemma NoneArrived(p: Params, s: State)
    requires Inv(p, s) && s.tickets == map[]
    ensures Arrived(p, s, s, 0)
  {
    hide Inv, Available;
  }

  lemma OneMoreArrival(p: Params, s: State, m: State, n: nat)
    requires Sensible(p) && Arrived(p, s, m, n)
    ensures Arrived(p, s, Step(p, m, Arrive(n, "s")), n + 1)
  {
    hide Inv, Available, Step;
    ArriveStep(p, m, n, "s");
  }

  lemma {:induction false} AfterArrivals(p: Params, s: State, n: nat)
    requires Sensible(p) && Inv(p, s) && s.tickets == map[]
    ensures Arrived(p, s, Run(p, s, Arrivals(n)), n)
  {
    hide Inv, Available, Step, Arrived, Run;
    if n == 0 {
      NoneArrived(p, s);
      RunNothing(p, s);
    } else {
      AfterArrivals(p, s, n - 1);
      RunSnoc(p, s, Arrivals(n - 1), Arrive(n - 1, "s"));
      OneMoreArrival(p, s, Run(p, s, Arrivals(n - 1)), n - 1);
    }
  }

  lemma {:induction false} AfterResolutions(p: Params, s: State, n: nat)
    requires Sensible(p) && Inv(p, s) && Available(p, s, "s") >= n as real
    requires forall r :: 0 <= r < n ==> r in s.tickets && s.tickets[r].session == "s"
    ensures var e := Run(p, s, Resolutions(n));
            && Inv(p, e) && e.now == s.now && e.limits.entries == s.limits.entries
            && (forall r :: r in e.tickets <==> r in s.tickets && r >= n)
            && (forall r :: r in e.tickets ==> e.tickets[r] == s.tickets[r])
            && Admitted(e.log, "s") == Admitted(s.log, "s") + n
            && Available(p, e, "s") == Available(p, s, "s") - n as real
  {
    hide Inv, Available, Step, Earned;
    if n > 0 {
      hide Run;
      AfterResolutions(p, s, n - 1);
      RunSnoc(p, s, Resolutions(n - 1), Resolve(n - 1));
      var m := Run(p, s, Resolutions(n - 1));
      ResolveStep(p, m, n - 1);
      AdmittedNext(m.log, Verdict("s", m.now, true), "s");
    } else {
      assert Run(p, s, Resolutions(0)) == s;
    }
  }

  lemma {:induction false} RunConcat(p: Params, s: State, a: seq<Action>, b: seq<Action>)
    ensures Run(p, s, a + b) == Run(p, Run(p, s, a), b)
  {
    if b == [] {
      assert a + b == a;
    } else {
      var front := b[..|b| - 1];
      RunConcat(p, s, a, front);
      assert (a + b)[..|a + b| - 1] == a + front;
    }
  }

  lemma EmptyAfterSweep(p: Params, s: State)
    requires Sensible(p) && p.reaping && Inv(p, s) && s.tickets == map[]
    requires "s" in s.limits.entries && s.now > s.limits.entries["s"].lastSeen + IDLE
    ensures var e := Step(p, s, Sweep);
            Inv(p, e) && e.now == s.now && e.log == s.log && e.tickets == map[] && Available(p, e, "s") == p.burst as real
  {
  }

  lemma RunOne(p: Params, s: State, a: Action)
    ensures Run(p, s, [a]) == Step(p, s, a)
  {
    assert [a][..0] == [];
    assert Run(p, s, []) == s;
  }

  lemma StartAvailable(p: Params)
    requires Sensible(p)
    ensures Inv(p, START) && START.now == 0.0 && START.tickets == map[] && Available(p, START, "s") == p.burst as real
  {
  }

  /** A full burst is looked up at time 0 and may be decided as late as allowed. */
  lemma LateBurst(p: Params, wait: real)
    requires Sensible(p) && 0.0 <= wait <= p.delay
    ensures var s := Run(p, START, Arrivals(p.burst) + [Pass(wait)]);
            && Inv(p, s) && s.now == wait && Available(p, s, "s") == p.burst as real
            && (forall r :: r in s.tickets <==> 0 <= r < p.burst)
            && (forall r :: r in s.tickets ==> s.tickets[r].session == "s")
            && "s" in s.limits.entries && s.limits.entries["s"].lastSeen == 0.0
  {
    hide Inv, Available, Step, Earned;
    StartAvailable(p);
    AfterArrivals(p, START, p.burst);
    var s := Run(p, START, Arrivals(p.burst));
    RunConcat(p, START, Arrivals(p.burst), [Pass(wait)]);
    RunOne(p, s, Pass(wait));
    PassStep(p, s, wait);
    EarnedGrows(p.limit, wait, 0.0);
  }

  /** A full burst is spent, the clock moves on until the entry is reaped, and a second full burst follows. */
  lemma SecondBurst(p: Params, s: State, rest: real)
    requires Sensible(p) && p.reaping && rest > 0.0
    requires Inv(p, s) && Available(p, s, "s") == p.burst as real
    requires forall r :: r in s.tickets <==> 0 <= r < p.burst
    requires forall r :: r in s.tickets ==> s.tickets[r].session == "s"
    requires "s" in s.limits.entries && s.now + rest > s.limits.entries["s"].lastSeen + IDLE
    ensures var e := Run(p, s, Resolutions(p.burst) + [Pass(rest)] + [Sweep] + Arrivals(p.burst) + Resolutions(p.burst));
            e.now == s.now + rest && Admitted(e.log, "s") == Admitted(s.log, "s") + 2 * p.burst
  {
    hide Inv, Available, Step, Earned;
    AfterResolutions(p, s, p.burst);
    var w2 := Resolutions(p.burst);
    var s2 := Run(p, s, w2);
    assert s2.tickets == map[];
    PassStep(p, s2, rest);
    RunOne(p, s2, Pass(rest));
    RunConcat(p, s, w2, [Pass(rest)]);
    var w3 := w2 + [Pass(rest)];
    var s3 := Run(p, s, w3);
    EmptyAfterSweep(p, s3);
    RunOne(p, s3, Sweep);
    RunConcat(p, s, w3, [Sweep]);
    var w4 := w3 + [Sweep];
    var s4 := Run(p, s, w4);
    AfterArrivals(p, s4, p.burst);
    RunConcat(p, s, w4, Arrivals(p.burst));
    AfterResolutions(p, Run(p, s4, Arrivals(p.burst)), p.burst);
    RunConcat(p, s, w4 + Arrivals(p.burst), Resolutions(p.burst));
  }

  lemma HalfShare(limit: real, spare: real) returns (gap: real)
    requires limit > 0.0 && spare > 0.0
    ensures gap > 0.0 && Earned(limit, gap) == spare / 2.0
  {
    gap := spare / (2.0 * limit);
    assert Earned(limit, gap) == spare / 2.0;
  }

  /** With the reaper running, the bound holds exactly when the limiter refills its burst in the
      ten idle minutes less the time a request may take between lookup and decision. */
  lemma BoundHoldsExactlyWhenRefilled(p: Params)
    requires Sensible(p) && p.reaping
    ensures BoundHolds(p) <==> Refills(p)
  {
    hide Run, Step, Inv, Available, Admitted, Arrivals, Resolutions;
    if Refills(p) {
      AdmissionsAreBounded(p);
    } else {
      var wait := if p.delay < IDLE then p.delay else IDLE;
      var spare := p.burst as real - Earned(p.limit, IDLE - wait);
      EarnedMeans(p.limit, IDLE - p.delay);
      assert spare > 0.0 by {
        if wait == IDLE {
          EarnedGrows(p.limit, 0.0, 0.0);
        }
      }
      var gap := HalfShare(p.limit, spare);
      EarnedAdds(p.limit, IDLE - wait, gap);
      assert IDLE + gap - wait == (IDLE - wait) + gap;
      LateBurst(p, wait);
      var before := Arrivals(p.burst) + [Pass(wait)];
      var s := Run(p, START, before);
      SecondBurst(p, s, IDLE + gap - wait);
      var window := Resolutions(p.burst) + [Pass(IDLE + gap - wait)] + [Sweep] + Arrivals(p.burst) + Resolutions(p.burst);
      EarnedIsAtMost(2 * p.burst, p.burst, p.limit, IDLE + gap - wait);
      hide AtMost;
      assert !WithinBound(p, before, window, "s");
    }
  }
}
