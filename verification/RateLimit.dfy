/**
 The per-session rate limiter of pkg/mcp/middleware.go: token buckets kept in a map under a
 mutex, flushed when the configured limit or burst changes, and reaped when idle.
 Times are in seconds.
 */
module RateLimit {
  import opened Wrappers

  const IDLE: real := 600.0

  // ----- one token bucket (rate.Limiter over the reals)

  datatype Bucket = Bucket(limit: real, burst: nat, tokens: real, last: real)

  /** A new limiter is full; its `last` is the zero time. */
  function NewBucket(limit: real, burst: nat): Bucket {
    Bucket(limit, burst, burst as real, 0.0)
  }

  /** Tokens earned at `limit` tokens per second. */
  function Earned(limit: real, seconds: real): real {
    limit * seconds
  }

  function Level(b: Bucket, now: real): real {
    var elapsed := if now < b.last then 0.0 else now - b.last;
    var tokens := b.tokens + Earned(b.limit, elapsed);
    if tokens > b.burst as real then b.burst as real else tokens
  }

  function Allow(b: Bucket, now: real): (Bucket, bool) {
    var rest := Level(b, now) - 1.0;
    if rest >= 0.0 then (b.(tokens := rest, last := now), true) else (b, false)
  }

  lemma EarnedMeans(limit: real, seconds: real)
    ensures Earned(limit, seconds) == limit * seconds
  {
  }

  /** What a limiter promises: no more than the burst at once, and the limit times the length on top. */
  ghost predicate AtMost(admitted: int, burst: nat, limit: real, seconds: real) {
    admitted as real <= burst as real + limit * seconds
  }

  lemma EarnedIsAtMost(admitted: int, burst: nat, limit: real, seconds: real)
    ensures AtMost(admitted, burst, limit, seconds) <==> admitted as real <= burst as real + Earned(limit, seconds)
  {
    EarnedMeans(limit, seconds);
  }

  lemma EarnedAdds(limit: real, x: real, y: real)
    ensures Earned(limit, x + y) == Earned(limit, x) + Earned(limit, y)
  {
  }

  lemma EarnedGrows(limit: real, x: real, y: real)
    requires limit > 0.0 && x >= y
    ensures Earned(limit, x) >= Earned(limit, y)
    ensures Earned(limit, 0.0) == 0.0
  {
  }

  lemma LevelAfter(b: Bucket, now: real, later: real)
    requires b.limit > 0.0 && b.last <= now <= later
    ensures var refilled := Level(b, now) + Earned(b.limit, later - now);
            Level(b, later) == if refilled > b.burst as real then b.burst as real else refilled
    ensures Level(b, later) >= Level(b, now)
  {
    hide Earned;
    EarnedAdds(b.limit, now - b.last, later - now);
    assert later - b.last == (now - b.last) + (later - now);
    EarnedGrows(b.limit, later - now, 0.0);
  }

  lemma LevelBounds(b: Bucket, now: real)
    requires b.limit > 0.0 && b.tokens <= b.burst as real
    ensures b.tokens <= Level(b, now) <= b.burst as real
  {
    hide Earned;
    EarnedGrows(b.limit, if now < b.last then 0.0 else now - b.last, 0.0);
  }

  lemma FullWhenRefilled(b: Bucket, now: real, idle: real)
    requires b.limit > 0.0 && b.tokens >= 0.0 && now - b.last >= idle > 0.0 && b.limit * idle >= b.burst as real
    ensures Level(b, now) == b.burst as real
  {
    EarnedMeans(b.limit, idle);
    hide Earned;
    EarnedGrows(b.limit, now - b.last, idle);
  }

  // ----- the state shared under the mutex

  /** `bucket` is the position of the entry's own limiter. A limiter outlives its entry: requests
      that looked it up before the entry was deleted still hold it. */
  datatype Entry = Entry(bucket: nat, lastSeen: real)

  datatype Limits = Limits(entries: map<string, Entry>, buckets: seq<Bucket>, currentLimit: real, currentBurst: nat)

  const NO_LIMITS: Limits := Limits(map[], [], 0.0, 0)

  function Flushed(st: Limits, limit: real, burst: nat): Limits {
    if limit != st.currentLimit || burst != st.currentBurst then
      st.(entries := map[], currentLimit := limit, currentBurst := burst)
    else st
  }

  /** The critical section of a request: which limiter it has to ask, if any. */
  function Enter(st: Limits, session: string, limit: real, burst: nat, now: real): (Limits, Option<nat>) {
    if limit <= 0.0 || session == "" then (st, None)
    else
      var flushed := Flushed(st, limit, burst);
      if session in flushed.entries then
        var entry := flushed.entries[session];
        (flushed.(entries := flushed.entries[session := entry.(lastSeen := now)]), Some(entry.bucket))
      else
        (flushed.(entries := flushed.entries[session := Entry(|flushed.buckets|, now)],
                  buckets := flushed.buckets + [NewBucket(limit, burst)]),
         Some(|flushed.buckets|))
  }

  function Decide(st: Limits, bucket: nat, now: real): (Limits, bool)
    requires bucket < |st.buckets|
  {
    var (after, ok) := Allow(st.buckets[bucket], now);
    (st.(buckets := st.buckets[bucket := after]), ok)
  }

  predicate Expired(entry: Entry, now: real) {
    now - entry.lastSeen > IDLE
  }

  function Reap(st: Limits, now: real): Limits {
    st.(entries := map id | id in st.entries && !Expired(st.entries[id], now) :: st.entries[id])
  }

  /** Every stored limiter was built with the limit and burst now in force. */
  ghost predicate Current(st: Limits) {
    forall id :: id in st.entries ==>
      && st.entries[id].bucket < |st.buckets|
      && st.buckets[st.entries[id].bucket].limit == st.currentLimit
      && st.buckets[st.entries[id].bucket].burst == st.currentBurst
  }

  /** Whatever configurations concurrent requests come with, and whenever the reaper runs. */
  lemma OperationsKeepCurrent(st: Limits, session: string, limit: real, burst: nat, bucket: nat, now: real)
    requires Current(st)
    ensures Current(Enter(st, session, limit, burst, now).0)
    ensures bucket < |st.buckets| ==> Current(Decide(st, bucket, now).0)
    ensures Current(Reap(st, now))
  {
    var (entered, mine) := Enter(st, session, limit, burst, now);
    assert st.buckets <= entered.buckets;
  }

  class Limiter {
    var entries: map<string, Entry>
    var buckets: seq<Bucket>
    var currentLimit: real
    var currentBurst: nat

    ghost function Abs(): Limits
      reads this
    {
      Limits(entries, buckets, currentLimit, currentBurst)
    }

    constructor ()
      ensures Abs() == NO_LIMITS
    {
      entries, buckets, currentLimit, currentBurst := map[], [], 0.0, 0;
    }

    method Lookup(session: string, limit: real, burst: nat, now: real) returns (bucket: Option<nat>)
      requires Current(Abs())
      modifies this
      ensures (Abs(), bucket) == Enter(old(Abs()), session, limit, burst, now)
      ensures Current(Abs())
      ensures bucket.Some? ==> bucket.value < |buckets| && session in entries && entries[session] == Entry(bucket.value, now)
      ensures bucket.None? <==> limit <= 0.0 || session == ""
      ensures bucket.None? ==> Abs() == old(Abs())
      ensures bucket.Some? ==> currentLimit == limit && currentBurst == burst
      ensures bucket.Some? && limit == old(currentLimit) && burst == old(currentBurst) ==>
                && entries.Keys == old(entries).Keys + {session}
                && (forall id :: id in old(entries) && id != session ==> entries[id] == old(entries)[id])
                && (session in old(entries) ==> bucket == Some(old(entries)[session].bucket) && buckets == old(buckets))
      ensures bucket.Some? && !(limit == old(currentLimit) && burst == old(currentBurst)) ==> entries.Keys == {session}
      ensures bucket.Some? && !(limit == old(currentLimit) && burst == old(currentBurst) && session in old(entries)) ==>
                && buckets == old(buckets) + [buckets[|old(buckets)|]] && bucket.value == |old(buckets)|
                && Level(buckets[|old(buckets)|], now) == burst as real
    {
      if limit <= 0.0 || session == "" {
        return None;
      }
      if limit != currentLimit || burst != currentBurst {
        entries := map[];
        currentLimit := limit;
        currentBurst := burst;
      }
      if session !in entries {
        entries := entries[session := Entry(|buckets|, now)];
        buckets := buckets + [NewBucket(limit, burst)];
      } else {
        entries := entries[session := entries[session].(lastSeen := now)];
      }
      return Some(entries[session].bucket);
    }

    method Ask(bucket: nat, now: real) returns (ok: bool)
      requires bucket < |buckets|
      modifies this
      ensures (Abs(), ok) == Decide(old(Abs()), bucket, now)
      ensures ok <==> Level(old(buckets)[bucket], now) >= 1.0
      ensures ok ==> Level(buckets[bucket], now) == Level(old(buckets)[bucket], now) - 1.0
      ensures !ok ==> buckets[bucket] == old(buckets)[bucket]
      ensures entries == old(entries) && |buckets| == |old(buckets)|
      ensures forall i :: 0 <= i < |buckets| && i != bucket ==> buckets[i] == old(buckets)[i]
    {
      var (after, allowed) := Allow(buckets[bucket], now);
      buckets := buckets[bucket := after];
      ok := allowed;
    }

    method ReapIdle(now: real)
      modifies this
      ensures Abs() == Reap(old(Abs()), now)
      ensures forall id :: id in entries <==> id in old(entries) && now - old(entries)[id].lastSeen <= 600.0
      ensures forall id :: id in entries ==> entries[id] == old(entries)[id]
    {
      var unvisited := entries.Keys;
      while unvisited != {}
        invariant unvisited <= old(entries).Keys
        invariant entries == map id | id in old(entries) && (id in unvisited || !Expired(old(entries)[id], now)) :: old(entries)[id]
        invariant buckets == old(buckets) && currentLimit == old(currentLimit) && currentBurst == old(currentBurst)
        decreases unvisited
      {
        var id :| id in unvisited;
        unvisited := unvisited - {id};
        if now - entries[id].lastSeen > IDLE {
          entries := entries - {id};
        }
      }
    }
  }
}
