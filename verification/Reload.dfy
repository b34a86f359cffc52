/**
 The reload on SIGHUP of pkg/kubernetes-mcp-server/cmd/root.go: one signal after the other updates the
 MCP server, the log destination, the configuration of the HTTP layer and the OAuth snapshot of
 pkg/oauth/state.go, any of which can fail.
 */
module Reload {
  import opened Wrappers

  datatype OAuthFields = OAuthFields(url: string, ca: string, scopes: seq<string>, noRegistration: bool)

  const NO_OAUTH: OAuthFields := OAuthFields("", "", [], false)

  datatype Config = Config(oauth: OAuthFields, logFile: string, rest: nat)

  /** An OIDC provider with its HTTP client, and what they were built from. */
  datatype Oidc = NoOidc | Oidc(url: string, ca: string, serial: nat)

  datatype Snapshot = Snapshot(oidc: Oidc, fields: OAuthFields)

  predicate ProviderConfigChanged(a: OAuthFields, b: OAuthFields) {
    a.url != b.url || a.ca != b.ca
  }

  predicate WellKnownConfigChanged(a: OAuthFields, b: OAuthFields) {
    ProviderConfigChanged(a, b) || a.noRegistration != b.noRegistration || a.scopes != b.scopes
  }

  /** Without an authorization URL there is no provider; otherwise the network decides. */
  function CreateOidc(fields: OAuthFields, network: Option<nat>): Option<Oidc> {
    if fields.url == "" then Some(NoOidc)
    else if network.None? then None
    else Some(Oidc(fields.url, fields.ca, network.value))
  }

  /** What a signal meets: the files, the server's verdict, the log file, the OIDC provider. */
  datatype Signal = Signal(files: Option<Config>, accepted: bool, logOpens: bool, network: Option<nat>)

  datatype State = State(server: Config, logFile: string, cfgState: Config, oauth: Option<Snapshot>)

  /** A missing snapshot counts as an empty one. */
  function Current(oauth: Option<Snapshot>): Snapshot {
    oauth.GetOr(Snapshot(NoOidc, NO_OAUTH))
  }

  function UpdatedOAuth(oauth: Option<Snapshot>, config: Config, network: Option<nat>): Option<Snapshot> {
    var current := Current(oauth);
    if ProviderConfigChanged(current.fields, config.oauth) then
      match CreateOidc(config.oauth, network)
      case None => oauth
      case Some(oidc) => Some(Snapshot(oidc, config.oauth))
    else if WellKnownConfigChanged(current.fields, config.oauth) then Some(Snapshot(current.oidc, config.oauth))
    else oauth
  }

  predicate Takes(signal: Signal) {
    signal.files.Some? && signal.accepted
  }

  /** What others can see after so many of the four stores of an iteration. */
  function During(s: State, signal: Signal, stores: nat): State {
    if !Takes(signal) then s
    else
      var c := signal.files.value;
      State(if stores >= 1 then c else s.server,
            if stores >= 2 && signal.logOpens then c.logFile else s.logFile,
            if stores >= 3 then c else s.cfgState,
            if stores >= 4 then UpdatedOAuth(s.oauth, c, signal.network) else s.oauth)
  }

  /** The states that an iteration shows to others, one after each store. */
  function Seen(s: State, signal: Signal): seq<State> {
    if Takes(signal) then [During(s, signal, 1), During(s, signal, 2), During(s, signal, 3), During(s, signal, 4)] else []
  }

  function Iterate(s: State, signal: Signal): State {
    During(s, signal, 4)
  }

  /** A configuration that cannot be read or that the server refuses changes nothing. */
  lemma RefusedSignalsChangeNothing(s: State, signal: Signal)
    requires signal.files.None? || !signal.accepted
    ensures Iterate(s, signal) == s && Seen(s, signal) == []
    ensures forall stores :: During(s, signal, stores) == s
  {
  }

  /** The server comes first, then the log if its file opens, then the HTTP layer, and OAuth last. */
  lemma StoresInOrder(s: State, signal: Signal)
    requires signal.files.Some? && signal.accepted
    ensures var c := signal.files.value;
            var logged := s.(server := c, logFile := if signal.logOpens then c.logFile else s.logFile);
            var stored := logged.(cfgState := c);
            && Seen(s, signal) == [s.(server := c), logged, stored, Iterate(s, signal)]
            && Iterate(s, signal) == stored.(oauth := Iterate(s, signal).oauth)
  {
  }

  function Start(config: Config, oidc: Oidc): State {
    State(config, config.logFile, config, Some(Snapshot(oidc, config.oauth)))
  }

  class Handler {
    var server: Config
    var logFile: string
    var cfgState: Config
    var oauth: Option<Snapshot>
    // Every state that others could see, after each of the stores.
    ghost var trace: seq<State>

    ghost function Abs(): State
      reads this
    {
      State(server, logFile, cfgState, oauth)
    }

    /** The wiring of Run: everything comes from the initial configuration, whose provider must be there. */
    constructor (config: Config, oidc: Oidc)
      ensures Abs() == Start(config, oidc) && trace == [Abs()]
      ensures server == cfgState == config && logFile == config.logFile && oauth == Some(Snapshot(oidc, config.oauth))
    {
      server, logFile, cfgState := config, config.logFile, config;
      trace := [Start(config, oidc)];
      oauth := Some(Snapshot(oidc, config.oauth));
    }

    /** Stores in the order of During, so that nobody sees anything but its states. */
    method HandleSignal(signal: Signal)
      modifies this
      ensures Abs() == Iterate(old(Abs()), signal)
      ensures trace == old(trace) + Seen(old(Abs()), signal)
      ensures signal.files.None? || !signal.accepted ==> Abs() == old(Abs()) && trace == old(trace)
      ensures signal.files.Some? && signal.accepted ==>
                && server == cfgState == signal.files.value
                && logFile == if signal.logOpens then server.logFile else old(logFile)
    {
      if signal.files.None? {
        return;
      }
      var newConfig := signal.files.value;
      if !signal.accepted {
        return;
      }
      server := newConfig;
      trace := trace + [Abs()];
      if signal.logOpens {
        logFile := newConfig.logFile;
      }
      trace := trace + [Abs()];
      cfgState := newConfig;
      trace := trace + [Abs()];
      var currentSnapshot := Current(oauth);
      if ProviderConfigChanged(currentSnapshot.fields, newConfig.oauth) {
        var created := CreateOidc(newConfig.oauth, signal.network);
        if created.None? {
          trace := trace + [Abs()];
          return;
        }
        oauth := Some(Snapshot(created.value, newConfig.oauth));
      } else if WellKnownConfigChanged(currentSnapshot.fields, newConfig.oauth) {
        oauth := Some(Snapshot(currentSnapshot.oidc, newConfig.oauth));
      }
      trace := trace + [Abs()];
    }
  }

  // ----- any sequence of signals

  /** The provider was built from the snapshot's own authorization URL and CA path. */
  predicate Coherent(oauth: Option<Snapshot>) {
    var s := Current(oauth);
    if s.fields.url == "" then s.oidc == NoOidc
    else s.oidc.Oidc? && s.oidc.url == s.fields.url && s.oidc.ca == s.fields.ca
  }

  function Run(start: State, signals: seq<Signal>): State {
    if signals == [] then start else Iterate(Run(start, signals[..|signals| - 1]), signals[|signals| - 1])
  }

  predicate Inv(s: State) {
    && s.server == s.cfgState
    && Coherent(s.oauth)
    && (Current(s.oauth).fields == s.server.oauth || ProviderConfigChanged(Current(s.oauth).fields, s.server.oauth))
  }

  lemma {:induction false} RunKeepsInv(start: State, signals: seq<Signal>)
    requires Inv(start)
    ensures Inv(Run(start, signals))
  {
    if signals != [] {
      RunKeepsInv(start, signals[..|signals| - 1]);
    }
  }

  /**
   Between signals the server and the HTTP layer have the same configuration, and the snapshot either
   has all four OAuth fields of it or waits for a provider with another URL or CA: it is never a mix.
   */
  lemma StatesAgreeBetweenSignals(config: Config, oidc: Oidc, signals: seq<Signal>)
    requires Coherent(Some(Snapshot(oidc, config.oauth)))
    ensures var s := Run(Start(config, oidc), signals);
            && s.server == s.cfgState
            && var have, want := Current(s.oauth).fields, s.server.oauth;
               have == want || have.url != want.url || have.ca != want.ca
  {
    RunKeepsInv(Start(config, oidc), signals);
  }

  /** At no moment does anyone see a provider with the URL or the CA of another configuration. */
  lemma SnapshotIsAlwaysCoherent(config: Config, oidc: Oidc, signals: seq<Signal>, next: Signal, stores: nat)
    requires Coherent(Some(Snapshot(oidc, config.oauth)))
    ensures var s := During(Run(Start(config, oidc), signals), next, stores);
            Coherent(s.oauth) && (s.server == s.cfgState || (1 <= stores < 3 && Some(s.server) == next.files))
  {
    RunKeepsInv(Start(config, oidc), signals);
  }

  /** The OAuth part of a signal goes through: no new provider is needed, or it can be created. */
  predicate OAuthSucceeds(current: OAuthFields, signal: Signal) {
    && signal.files.Some? && signal.accepted
    && var wanted := signal.files.value.oauth;
       wanted.url == "" || signal.network.Some? || (current.url == wanted.url && current.ca == wanted.ca)
  }

  /** The OAuth fields of the last configuration whose OAuth part went through. */
  function LastOAuth(initial: OAuthFields, signals: seq<Signal>): OAuthFields {
    if signals == [] then initial
    else
      var before, last := LastOAuth(initial, signals[..|signals| - 1]), signals[|signals| - 1];
      if OAuthSucceeds(before, last) then last.files.value.oauth else before
  }

  /** The provider of the last signal that came with another URL or CA and got through. */
  function LastProvider(initial: OAuthFields, oidc: Oidc, signals: seq<Signal>): Oidc {
    if signals == [] then oidc
    else
      var front, last := signals[..|signals| - 1], signals[|signals| - 1];
      var before := LastOAuth(initial, front);
      if OAuthSucceeds(before, last) && (before.url != last.files.value.oauth.url || before.ca != last.files.value.oauth.ca) then
        var wanted := last.files.value.oauth;
        if wanted.url == "" then NoOidc else Oidc(wanted.url, wanted.ca, last.network.value)
      else LastProvider(initial, oidc, front)
  }

  lemma {:induction false} SnapshotFollowsLastSuccess(start: State, signals: seq<Signal>)
    ensures Current(Run(start, signals).oauth).fields == LastOAuth(Current(start.oauth).fields, signals)
  {
    if signals != [] {
      SnapshotFollowsLastSuccess(start, signals[..|signals| - 1]);
    }
  }

  /** A provider is made anew exactly when the URL or the CA changes, and is kept through every other signal. */
  lemma {:induction false} ProviderFollowsLastChange(start: State, signals: seq<Signal>)
    ensures Current(Run(start, signals).oauth).oidc
            == LastProvider(Current(start.oauth).fields, Current(start.oauth).oidc, signals)
  {
    if signals != [] {
      ProviderFollowsLastChange(start, signals[..|signals| - 1]);
      SnapshotFollowsLastSuccess(start, signals[..|signals| - 1]);
    }
  }

  /** Without a snapshot the signals are compared with an empty one. */
  lemma MissingSnapshotIsEmpty(start: State, signals: seq<Signal>)
    requires start.oauth == None
    ensures var empty := OAuthFields("", "", [], false);
            var s := Current(Run(start, signals).oauth);
            s.fields == LastOAuth(empty, signals) && s.oidc == LastProvider(empty, NoOidc, signals)
  {
    SnapshotFollowsLastSuccess(start, signals);
    ProviderFollowsLastChange(start, signals);
  }

  /** The configuration of the last signal that could be read and was accepted, whatever became of the rest of it. */
  function LastTaken(start: State, signals: seq<Signal>): Config {
    if signals == [] then start.server
    else
      var last := signals[|signals| - 1];
      if last.files.Some? && last.accepted then last.files.value else LastTaken(start, signals[..|signals| - 1])
  }

  /** The log destination of the last such signal whose log file could be opened. */
  function LastOpened(start: State, signals: seq<Signal>): string {
    if signals == [] then start.logFile
    else
      var last := signals[|signals| - 1];
      if last.files.Some? && last.accepted && last.logOpens then last.files.value.logFile
      else LastOpened(start, signals[..|signals| - 1])
  }

  lemma {:induction false} ServerFollowsLastTaken(start: State, signals: seq<Signal>)
    requires start.cfgState == start.server
    ensures Run(start, signals).server == LastTaken(start, signals) == Run(start, signals).cfgState
    ensures Run(start, signals).logFile == LastOpened(start, signals)
  {
    if signals != [] {
      ServerFollowsLastTaken(start, signals[..|signals| - 1]);
    }
  }

  /** A signal that goes through leaves nothing stale, even after failures before it. */
  lemma SuccessCatchesUp(config: Config, oidc: Oidc, signals: seq<Signal>, next: Signal)
    requires Coherent(Some(Snapshot(oidc, config.oauth)))
    requires OAuthSucceeds(LastOAuth(config.oauth, signals), next)
    ensures var s := Run(Start(config, oidc), signals + [next]);
            s.server == s.cfgState == next.files.value && Current(s.oauth).fields == next.files.value.oauth && Coherent(s.oauth)
  {
    var all := signals + [next];
    assert all[..|all| - 1] == signals;
    RunKeepsInv(Start(config, oidc), all);
    SnapshotFollowsLastSuccess(Start(config, oidc), all);
  }

  /**
   A creation that failed is tried again by every later signal that brings the same configuration, until it
   succeeds: the snapshot keeps the fields that make the next signal notice the difference.
   */
  lemma {:induction false} FailedCreationIsRetried(current: OAuthFields, wanted: OAuthFields, signals: seq<Signal>)
    requires (current.url != wanted.url || current.ca != wanted.ca) && wanted.url != ""
    requires forall i :: 0 <= i < |signals| ==>
               signals[i].files.Some? && signals[i].accepted && signals[i].files.value.oauth == wanted
    ensures LastOAuth(current, signals) == if exists i :: 0 <= i < |signals| && signals[i].network.Some? then wanted else current
  {
    if signals != [] {
      var n := |signals| - 1;
      var front := signals[..n];
      FailedCreationIsRetried(current, wanted, front);
      assert forall i :: 0 <= i < n ==> front[i] == signals[i];
      if exists i :: 0 <= i < n && front[i].network.Some? {
        var i :| 0 <= i < n && front[i].network.Some?;
        assert signals[i].network.Some?;
      }
    }
  }
}
