/**
 The cached client assertion of pkg/tokenexchange/assertion.go (client authentication of section 2.2
 of RFC 7523). Signing is an oracle; times are in seconds of any resolution, as the nanoseconds of
 the source are, scaled by SECOND.
 */
module Assertions {
  import opened Wrappers

  const SECOND: int := 1_000_000_000
  const DEFAULT_LIFETIME: int := 300 * SECOND
  const REFRESH_MARGIN: int := 30 * SECOND

  /** Signing fails, or gives a token at some time. */
  datatype Outcome = Failed | Signed(token: string, at: int)

  /** A call that holds the lock: when it looks at the clock, and what signing would give it. */
  datatype Call = Call(now: int, outcome: Outcome)

  datatype Assertion = Assertion(token: string, expiry: int)

  const NOTHING: Assertion := Assertion("", 0)

  function Effective(lifetime: int): int {
    if lifetime == 0 then DEFAULT_LIFETIME else lifetime
  }

  predicate Usable(cached: Assertion, now: int) {
    cached.token != "" && now + REFRESH_MARGIN < cached.expiry
  }

  /** The cache after a call. */
  function Step(cached: Assertion, lifetime: int, call: Call): Assertion {
    if Usable(cached, call.now) || call.outcome.Failed? then cached
    else Assertion(call.outcome.token, call.outcome.at + Effective(lifetime))
  }

  class Target {
    const lifetime: int
    var cached: Assertion

    constructor (lifetime: int)
      ensures this.lifetime == lifetime && cached == NOTHING
    {
      this.lifetime := lifetime;
      cached := NOTHING;
    }

    /**
     What is returned was good for more than the margin when it was chosen, be it at the check or at
     signing: always if it was cached, otherwise exactly if assertions live longer than the margin.
     */
    method GetOrBuildAssertion(call: Call) returns (r: Option<string>)
      requires call.outcome.Signed? ==> call.now <= call.outcome.at
      modifies this
      ensures cached == Step(old(cached), lifetime, call)
      ensures Usable(old(cached), call.now) <==> old(cached).token != "" && call.now + 30 * SECOND < old(cached).expiry
      ensures call.outcome.Signed? && !Usable(old(cached), call.now) ==>
                && cached.token == call.outcome.token
                && cached.expiry == call.outcome.at + if lifetime == 0 then 300 * SECOND else lifetime
      ensures call.outcome.Failed? ==> cached == old(cached)
      ensures r.Some? ==> r.value == cached.token
      ensures r.None? <==> !Usable(old(cached), call.now) && call.outcome.Failed?
      ensures r.Some? && Usable(old(cached), call.now) ==> cached == old(cached) && call.now + REFRESH_MARGIN < cached.expiry
      ensures r.Some? && !Usable(old(cached), call.now) ==>
                (call.outcome.at + REFRESH_MARGIN < cached.expiry <==> REFRESH_MARGIN < Effective(lifetime))
    {
      if cached.token != "" && call.now + REFRESH_MARGIN < cached.expiry {
        return Some(cached.token);
      }
      match call.outcome
      case Failed => return None;
      case Signed(token, at) =>
        cached := Assertion(token, at + Effective(lifetime));
        return Some(token);
    }
  }

  // ----- runs

  function End(call: Call): int {
    if call.outcome.Signed? then call.outcome.at else call.now
  }

  /** The lock lets one call in at a time, the clock never goes back, and tokens are not empty. */
  predicate Timely(calls: seq<Call>) {
    && (forall i :: 0 <= i < |calls| && calls[i].outcome.Signed? ==> calls[i].now <= calls[i].outcome.at && calls[i].outcome.token != "")
    && (forall i :: 0 < i < |calls| ==> End(calls[i - 1]) <= calls[i].now)
  }

  function After(lifetime: int, calls: seq<Call>): Assertion {
    if calls == [] then NOTHING else Step(After(lifetime, calls[..|calls| - 1]), lifetime, calls[|calls| - 1])
  }

  predicate Builds(cached: Assertion, call: Call) {
    !Usable(cached, call.now) && call.outcome.Signed?
  }

  /** How many assertions a run builds. */
  function Built(lifetime: int, calls: seq<Call>): nat {
    if calls == [] then 0
    else
      var n := |calls| - 1;
      Built(lifetime, calls[..n]) + if Builds(After(lifetime, calls[..n]), calls[n]) then 1 else 0
  }

  function Times(n: int, d: int): int {
    n * d
  }

  lemma TimesOneMore(n: int, d: int)
    ensures Times(n + 1, d) == Times(n, d) + d && Times(0, d) == 0
  {
  }

  predicate BuildsAt(lifetime: int, calls: seq<Call>, i: nat)
    requires i < |calls|
  {
    Builds(After(lifetime, calls[..i]), calls[i])
  }

  lemma {:induction false} CacheStays(lifetime: int, calls: seq<Call>, i: nat, j: nat)
    requires i < j <= |calls| && BuildsAt(lifetime, calls, i)
    requires forall k :: i < k < j ==> !BuildsAt(lifetime, calls, k)
    ensures After(lifetime, calls[..j]) == Assertion(calls[i].outcome.token, calls[i].outcome.at + Effective(lifetime))
  {
    assert calls[..j] == calls[..j - 1] + [calls[j - 1]];
    OneMoreCall(lifetime, calls[..j - 1], calls[j - 1]);
    if j > i + 1 {
      CacheStays(lifetime, calls, i, j - 1);
      assert !BuildsAt(lifetime, calls, j - 1);
    }
  }

  /** Between one build and the next lies at least the lifetime without the margin. */
  lemma BuildsAreSpaced(lifetime: int, calls: seq<Call>, i: nat, j: nat)
    requires Timely(calls) && i < j < |calls| && BuildsAt(lifetime, calls, i) && BuildsAt(lifetime, calls, j)
    requires forall k :: i < k < j ==> !BuildsAt(lifetime, calls, k)
    ensures calls[j].outcome.at - calls[i].outcome.at >= calls[j].now - calls[i].outcome.at >= Effective(lifetime) - REFRESH_MARGIN
  {
    CacheStays(lifetime, calls, i, j);
  }

  /** From the first call to the last build lie at least as many of these spans as there are builds after the first. */
  lemma {:induction false} BuildsAddUp(lifetime: int, calls: seq<Call>)
    requires Timely(calls) && calls != []
    ensures var n, cached := Built(lifetime, calls), After(lifetime, calls);
            if n == 0 then cached == NOTHING
            else
              && cached.token != ""
              && cached.expiry - Effective(lifetime) <= End(calls[|calls| - 1])
              && calls[0].now + Times(n - 1, Effective(lifetime) - REFRESH_MARGIN) <= cached.expiry - Effective(lifetime)
    ensures calls[0].now <= calls[|calls| - 1].now <= End(calls[|calls| - 1])
  {
    hide Times;
    var k := |calls| - 1;
    if k == 0 {
      assert Built(lifetime, calls[..0]) == 0 && After(lifetime, calls[..0]) == NOTHING;
      TimesOneMore(0, Effective(lifetime) - REFRESH_MARGIN);
    } else {
      var before := calls[..k];
      assert Timely(before) && before[0] == calls[0] && before[|before| - 1] == calls[k - 1];
      BuildsAddUp(lifetime, before);
      TimesOneMore(Built(lifetime, before) - 1, Effective(lifetime) - REFRESH_MARGIN);
    }
  }

  /** A run of length T builds at most 1 + T / (lifetime - margin) assertions. */
  lemma BuildsAreBounded(lifetime: int, calls: seq<Call>)
    requires Timely(calls) && calls != [] && REFRESH_MARGIN < Effective(lifetime)
    ensures Built(lifetime, calls) <= 1 + (End(calls[|calls| - 1]) - calls[0].now) / (Effective(lifetime) - REFRESH_MARGIN)
  {
    BuildsAddUp(lifetime, calls);
    Quotient(Built(lifetime, calls) - 1, End(calls[|calls| - 1]) - calls[0].now, Effective(lifetime) - REFRESH_MARGIN);
  }

  lemma {:induction false} TimesNonnegative(n: nat, d: nat)
    ensures Times(n, d) >= 0
  {
    hide Times;
    if n == 0 {
      TimesOneMore(0, d);
    } else {
      TimesNonnegative(n - 1, d);
      TimesOneMore(n - 1, d);
    }
  }

  lemma Cancel(n: int, m: int, d: int)
    requires d > 0 && Times(n, d) < Times(m, d)
    ensures n < m
  {
    assert (m - n) * d > 0;
  }

  lemma Quotient(n: int, length: int, d: int)
    requires d > 0 && length >= 0 && (n >= 0 ==> Times(n, d) <= length)
    ensures n <= length / d
    ensures n >= 0 && Times(n, d) == length ==> n == length / d
  {
    var q := length / d;
    assert Times(q, d) <= length < Times(q + 1, d) by {
      assert length == d * q + length % d;
      TimesOneMore(q, d);
    }
    hide Times;
    if n >= 0 {
      Cancel(n, q + 1, d);
      if Times(n, d) == length {
        TimesOneMore(n, d);
        Cancel(q, n + 1, d);
      }
    }
  }

  /** Such a run exists for every number of builds, so the bound cannot be improved. */
  function Tight(n: nat, d: int): (calls: seq<Call>)
    ensures |calls| == n && forall i :: 0 <= i < n ==> calls[i] == Call(Times(i, d), Signed("t", Times(i, d)))
  {
    if n == 0 then [] else Tight(n - 1, d) + [Call(Times(n - 1, d), Signed("t", Times(n - 1, d)))]
  }

  lemma OneMoreCall(lifetime: int, calls: seq<Call>, call: Call)
    ensures After(lifetime, calls + [call]) == Step(After(lifetime, calls), lifetime, call)
    ensures Built(lifetime, calls + [call]) == Built(lifetime, calls) + if Builds(After(lifetime, calls), call) then 1 else 0
  {
    assert (calls + [call])[..|calls|] == calls;
  }

  /** A call that comes just when the cached assertion reaches the margin builds a new one. */
  lemma DueCallBuilds(lifetime: int, cached: Assertion, time: int)
    requires cached.expiry == time + REFRESH_MARGIN
    ensures Builds(cached, Call(time, Signed("t", time)))
    ensures Step(cached, lifetime, Call(time, Signed("t", time))) == Assertion("t", time + Effective(lifetime))
  {
  }

  lemma {:induction false} TightBuildsEachTime(lifetime: int, n: nat, d: int)
    requires n > 0 && d == Effective(lifetime) - REFRESH_MARGIN
    ensures Built(lifetime, Tight(n, d)) == n
    ensures After(lifetime, Tight(n, d)) == Assertion("t", Times(n - 1, d) + Effective(lifetime))
  {
    var time := Times(n - 1, d);
    if n == 1 {
      assert Tight(1, d) == [] + [Call(time, Signed("t", time))];
      OneMoreCall(lifetime, [], Call(time, Signed("t", time)));
    } else {
      hide *;
      TightBuildsEachTime(lifetime, n - 1, d);
      TimesOneMore(n - 2, d);
      OneMoreCall(lifetime, Tight(n - 1, d), Call(time, Signed("t", time)));
      DueCallBuilds(lifetime, After(lifetime, Tight(n - 1, d)), time);
      assert Tight(n, d) == Tight(n - 1, d) + [Call(time, Signed("t", time))];
    }
  }

  lemma TightIsTimely(n: nat, d: nat)
    requires n > 0
    ensures Timely(Tight(n, d)) && Tight(n, d)[0].now == 0 && End(Tight(n, d)[n - 1]) == Times(n - 1, d)
  {
    TimesOneMore(0, d);
    hide Times;
    forall i | 0 < i < n
      ensures Times(i - 1, d) <= Times(i, d)
    {
      TimesOneMore(i - 1, d);
    }
  }

  lemma BoundIsTight(lifetime: int, n: nat)
    requires n > 0 && REFRESH_MARGIN < Effective(lifetime)
    ensures var calls := Tight(n, Effective(lifetime) - REFRESH_MARGIN);
            Timely(calls)
            && Built(lifetime, calls) == 1 + (End(calls[n - 1]) - calls[0].now) / (Effective(lifetime) - REFRESH_MARGIN)
  {
    var d := Effective(lifetime) - REFRESH_MARGIN;
    TightBuildsEachTime(lifetime, n, d);
    TightIsTimely(n, d);
    hide *;
    TimesNonnegative(n - 1, d);
    Quotient(n - 1, Times(n - 1, d), d);
  }

  /** Assertions that do not outlive the margin are never served from the cache. */
  lemma ShortLivedAreNeverCached(lifetime: int, calls: seq<Call>)
    requires Timely(calls) && calls != [] && Effective(lifetime) <= REFRESH_MARGIN
    ensures !Usable(After(lifetime, calls[..|calls| - 1]), calls[|calls| - 1].now)
  {
    var before := calls[..|calls| - 1];
    if before != [] {
      assert Timely(before) && before[|before| - 1] == calls[|calls| - 2];
      BuildsAddUp(lifetime, before);
    }
  }
}
