/**
 The cached token exchange configuration of pkg/kubernetes/provider_token_exchange.go: it is kept
 until a field of its cache key changes, and the key has the scopes joined into one string.
 */
module StsConfigCache {
  import opened Wrappers
  import opened Strings

  const NUL: char := '\0'
  const PARAMS: string := "params"

  /** The token URL of the OIDC provider (empty if there is none) and the configuration at the time of a call. */
  datatype Call = Call(
    tokenUrl: string, strategy: string, clientId: string, clientSecret: string, audience: string,
    scopes: seq<string>, authStyle: string, clientCertFile: string, clientKeyFile: string,
    federatedTokenFile: string, caFile: string, requireTls: bool)

  datatype CacheKey = CacheKey(
    tokenUrl: string, strategy: string, clientId: string, clientSecret: string, audience: string,
    scopes: string, authStyle: string, clientCertFile: string, clientKeyFile: string,
    federatedTokenFile: string, caFile: string, requireTls: bool)

  datatype Exchange = Exchange(
    tokenUrl: string, clientId: string, clientSecret: string, audience: string,
    scopes: seq<string>, authStyle: string, clientCertFile: string, clientKeyFile: string,
    federatedTokenFile: string, caFile: string, requireTls: bool)

  function KeyOf(c: Call): CacheKey {
    CacheKey(c.tokenUrl, c.strategy, c.clientId, c.clientSecret, c.audience, Join(c.scopes, NUL), c.authStyle,
             c.clientCertFile, c.clientKeyFile, c.federatedTokenFile, c.caFile, c.requireTls)
  }

  function Build(c: Call): Exchange {
    Exchange(c.tokenUrl, c.clientId, c.clientSecret, c.audience, c.scopes,
             if c.authStyle == "" then PARAMS else c.authStyle,
             c.clientCertFile, c.clientKeyFile, c.federatedTokenFile, c.caFile, c.requireTls)
  }

  predicate Validate(e: Exchange) {
    || e.authStyle in ["", PARAMS, "header"]
    || (e.authStyle == "assertion" && e.clientCertFile != "" && e.clientKeyFile != "")
    || (e.authStyle == "federated" && e.federatedTokenFile != "")
  }

  /** What a call gets when nothing is cached. */
  function Fresh(c: Call): Option<Exchange> {
    if c.strategy == "" || c.tokenUrl == "" || !Validate(Build(c)) then None else Some(Build(c))
  }

  /** Which calls can be answered, and that each field comes from the field of that name; the default style sends parameters. */
  lemma FreshMeans(c: Call)
    ensures Fresh(c).Some? <==>
              && c.strategy != "" && c.tokenUrl != ""
              && (|| c.authStyle in ["", "params", "header"]
                  || (c.authStyle == "assertion" && c.clientCertFile != "" && c.clientKeyFile != "")
                  || (c.authStyle == "federated" && c.federatedTokenFile != ""))
    ensures Fresh(c).Some? ==>
              var e := Fresh(c).value;
              && e.tokenUrl == c.tokenUrl && e.clientId == c.clientId && e.clientSecret == c.clientSecret
              && e.audience == c.audience && e.scopes == c.scopes
              && e.clientCertFile == c.clientCertFile && e.clientKeyFile == c.clientKeyFile
              && e.federatedTokenFile == c.federatedTokenFile && e.caFile == c.caFile && e.requireTls == c.requireTls
              && e.authStyle == if c.authStyle == "" then "params" else c.authStyle
  {
  }

  // ----- the key

  function Pieces(scopes: seq<string>): seq<string> {
    if scopes == [] then [] else Split(scopes[0], NUL) + Pieces(scopes[1..])
  }

  /** What the key keeps of the scopes: a scope with NULs counts as several, and no scope as an empty one. */
  function Canonical(scopes: seq<string>): seq<string> {
    if scopes == [] then [""] else Pieces(scopes)
  }

  lemma {:induction false} SplitConcatenation(s: string, tail: string, sep: char)
    ensures Split(s + [sep] + tail, sep) == Split(s, sep) + Split(tail, sep)
  {
    var whole := s + [sep] + tail;
    if s == "" {
      assert whole[1..] == tail;
    } else {
      assert whole[1..] == s[1..] + [sep] + tail;
      SplitConcatenation(s[1..], tail, sep);
    }
  }

  lemma {:induction false} SplitOfJoin(scopes: seq<string>)
    ensures Split(Join(scopes, NUL), NUL) == Canonical(scopes)
  {
    if |scopes| == 1 {
      assert Pieces(scopes[1..]) == [];
    } else if |scopes| > 1 {
      SplitOfJoin(scopes[1..]);
      SplitConcatenation(scopes[0], Join(scopes[1..], NUL), NUL);
    }
  }

  /** The joined form determines the canonical form, and nothing more. */
  lemma JoinKeepsCanonical(a: seq<string>, b: seq<string>)
    ensures Join(a, NUL) == Join(b, NUL) <==> Canonical(a) == Canonical(b)
  {
    SplitOfJoin(a);
    SplitOfJoin(b);
    SplitIsFree(Join(a, NUL), NUL);
    SplitIsFree(Join(b, NUL), NUL);
  }

  /** Scopes that the key tells apart from all others of this kind. */
  lemma {:induction false} PlainScopesAreCanonical(scopes: seq<string>)
    requires Free(scopes, NUL) && scopes != []
    ensures Canonical(scopes) == scopes
  {
    SplitHead(scopes[0], "", NUL);
    assert scopes == [scopes[0]] + scopes[1..];
    if |scopes| > 1 {
      PlainScopesAreCanonical(scopes[1..]);
    } else {
      assert Pieces(scopes[1..]) == [];
      assert Pieces(scopes) == [scopes[0]] + [];
    }
  }

  /** Everything but the scopes. */
  predicate SameOtherwise(c: Call, d: Call) {
    c == d.(scopes := c.scopes)
  }

  /** Equal keys mean equal calls but for the scopes, and of those only the canonical form. */
  lemma KeysAreEqualExactly(c: Call, d: Call)
    ensures KeyOf(c) == KeyOf(d) <==> SameOtherwise(c, d) && Canonical(c.scopes) == Canonical(d.scopes)
  {
    JoinKeepsCanonical(c.scopes, d.scopes);
  }

  lemma SameKeySameAnswer(c: Call, d: Call)
    requires KeyOf(c) == KeyOf(d)
    ensures Fresh(c).Some? <==> Fresh(d).Some?
    ensures Build(c) == Build(d).(scopes := c.scopes)
  {
  }

  // ----- the cache over any sequence of calls

  /** The call whose configuration is cached. */
  function Step(cached: Option<Call>, c: Call): Option<Call> {
    if Fresh(c).None? || (cached.Some? && KeyOf(cached.value) == KeyOf(c)) then cached else Some(c)
  }

  function Answer(cached: Option<Call>, c: Call): Option<Exchange> {
    if Fresh(c).None? then None else Some(Build(Step(cached, c).value))
  }

  function After(calls: seq<Call>): Option<Call> {
    if calls == [] then None else Step(After(calls[..|calls| - 1]), calls[|calls| - 1])
  }

  /** The cache has the key of the last call that was answered, and some earlier call of that key. */
  lemma {:induction false} CacheFollowsLastAnswer(calls: seq<Call>, i: nat)
    requires i < |calls| && Fresh(calls[i]).Some?
    requires forall j :: i < j < |calls| ==> Fresh(calls[j]).None?
    ensures After(calls).Some? && KeyOf(After(calls).value) == KeyOf(calls[i])
    ensures After(calls).value in calls && Fresh(After(calls).value).Some?
  {
    var n := |calls| - 1;
    if i < n {
      CacheFollowsLastAnswer(calls[..n], i);
    } else {
      CacheHasAnswered(calls[..n]);
    }
  }

  lemma {:induction false} CacheHasAnswered(calls: seq<Call>)
    ensures After(calls).Some? ==> After(calls).value in calls && Fresh(After(calls).value).Some?
  {
    if calls != [] {
      CacheHasAnswered(calls[..|calls| - 1]);
    }
  }

  /** The cached configuration has the scopes of another call that looks the same in the key. */
  predicate Stale(cached: Option<Call>, c: Call) {
    && Fresh(c).Some? && cached.Some? && SameOtherwise(cached.value, c)
    && Canonical(cached.value.scopes) == Canonical(c.scopes) && cached.value.scopes != c.scopes
  }

  /** After any calls, the answer is the fresh one exactly unless the cached scopes only look the same. */
  lemma CachedAnswersAreFresh(calls: seq<Call>, c: Call)
    ensures Answer(After(calls), c) == Fresh(c) <==> !Stale(After(calls), c)
  {
    hide Canonical, Join;
    if After(calls).Some? {
      KeysAreEqualExactly(After(calls).value, c);
    }
  }

  /** In particular with nonempty scopes without NUL. */
  lemma NonemptyScopesAreSafe(calls: seq<Call>, c: Call)
    requires Free(c.scopes, NUL) && "" !in c.scopes
    requires forall i :: 0 <= i < |calls| ==> Free(calls[i].scopes, NUL) && "" !in calls[i].scopes
    ensures Answer(After(calls), c) == Fresh(c)
  {
    CachedAnswersAreFresh(calls, c);
    CacheHasAnswered(calls);
    if Stale(After(calls), c) {
      PlainOrNone(After(calls).value.scopes, c.scopes);
      assert false;
    }
  }

  lemma PlainOrNone(a: seq<string>, b: seq<string>)
    requires Free(a, NUL) && "" !in a && Free(b, NUL) && "" !in b && Canonical(a) == Canonical(b)
    ensures a == b
  {
    hide Pieces;
    if a != [] {
      PlainScopesAreCanonical(a);
    }
    if b != [] {
      PlainScopesAreCanonical(b);
    }
    assert a == [] ==> Canonical(a) == [""] && "" in Canonical(a);
    assert b == [] ==> Canonical(b) == [""] && "" in Canonical(b);
  }

  /** A run that answers a call for two scopes with a configuration for one that has a NUL in it. */
  lemma NulScopesGoStale(c: Call)
    requires c.scopes == ["a\0b"] && Fresh(c).Some?
    ensures var d := c.(scopes := ["a", "b"]);
            Answer(After([c]), d) == Fresh(c) && Answer(After([c]), d) != Fresh(d) && Fresh(d).Some?
  {
    var d := c.(scopes := ["a", "b"]);
    assert ["a", "b"][1..] == ["b"] && [c][..0] == [];
    assert Join(c.scopes, NUL) == Join(d.scopes, NUL);
    assert c.scopes[0] != d.scopes[0];
  }

  // ----- the provider

  class TargetConfig {
    const exchange: Exchange
    var closed: nat

    constructor (exchange: Exchange)
      ensures this.exchange == exchange && closed == 0
    {
      this.exchange := exchange;
      closed := 0;
    }

    method CloseIdleConnections()
      modifies this
      ensures closed == old(closed) + 1
    {
      closed := closed + 1;
    }
  }

  class Provider {
    var stsConfig: TargetConfig?
    var stsConfigKey: Option<CacheKey>
    // The call that the cached configuration was built for, and the configurations that it replaced.
    ghost var cached: Option<Call>
    ghost var replaced: set<TargetConfig>

    ghost predicate Valid()
      reads this, stsConfig, replaced
    {
      && (cached.None? <==> stsConfig == null)
      && (cached.Some? ==> Fresh(cached.value).Some? && stsConfigKey == Some(KeyOf(cached.value)) && stsConfig.exchange == Build(cached.value))
      && (stsConfig != null ==> stsConfig.closed == 0 && stsConfig !in replaced)
      && (forall t :: t in replaced ==> t.closed == 1)
    }

    constructor ()
      ensures Valid() && cached == None && replaced == {}
    {
      stsConfig, stsConfigKey, cached, replaced := null, None, None, {};
    }

    /** A call that cannot be answered leaves the cache untouched; a replaced configuration is closed once. */
    method GetOrBuildStsConfig(c: Call) returns (r: TargetConfig?)
      requires Valid()
      modifies this, stsConfig
      ensures Valid() && cached == Step(old(cached), c)
      ensures (if r == null then None else Some(r.exchange)) == Answer(old(cached), c)
      ensures r == null <==>
                || c.strategy == "" || c.tokenUrl == ""
                || (c.authStyle == "assertion" && (c.clientCertFile == "" || c.clientKeyFile == ""))
                || (c.authStyle == "federated" && c.federatedTokenFile == "")
                || c.authStyle !in ["", "params", "header", "assertion", "federated"]
      ensures r != null ==>
                && r.exchange.tokenUrl == c.tokenUrl && r.exchange.clientId == c.clientId
                && r.exchange.clientSecret == c.clientSecret && r.exchange.audience == c.audience
                && r.exchange.clientCertFile == c.clientCertFile && r.exchange.clientKeyFile == c.clientKeyFile
                && r.exchange.federatedTokenFile == c.federatedTokenFile && r.exchange.caFile == c.caFile
                && r.exchange.requireTls == c.requireTls
                && r.exchange.authStyle == if c.authStyle == "" then "params" else c.authStyle
      ensures r != null && !Stale(old(cached), c) ==> r.exchange.scopes == c.scopes
      ensures r != null ==> r == stsConfig
      ensures r == null || r == old(stsConfig) ==> stsConfig == old(stsConfig) && replaced == old(replaced)
      ensures r != null && r != old(stsConfig) ==>
                fresh(r) && replaced == old(replaced) + if old(stsConfig) == null then {} else {old(stsConfig)}
    {
      FreshMeans(c);
      if c.strategy == "" || c.tokenUrl == "" {
        return null;
      }
      var key := KeyOf(c);
      if stsConfig != null && stsConfigKey == Some(key) {
        SameKeySameAnswer(cached.value, c);
        KeysAreEqualExactly(cached.value, c);
        FreshMeans(cached.value);
        return stsConfig;
      }
      var cfg := new TargetConfig(Build(c));
      if !Validate(cfg.exchange) {
        return null;
      }
      if stsConfig != null {
        stsConfig.CloseIdleConnections();
        replaced := replaced + {stsConfig};
      }
      stsConfig := cfg;
      stsConfigKey := Some(key);
      cached := Some(c);
      return stsConfig;
    }
  }
}
