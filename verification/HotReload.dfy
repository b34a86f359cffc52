/**
 The transactional hot reload of pkg/mcp/mcp.go: the surface (tools, prompts, resources,
 resource templates) collected from a configuration is converted, committed to the SDK
 registries and published together with the configuration, under one mutex shared by every
 reloader.
 */
module HotReload {
  import opened Wrappers

  // The four item categories are numbered in the order in which applyToolsets commits them:
  // tools, prompts, resources, resource templates.
  const KINDS: nat := 4

  datatype Configuration = Configuration(contents: string)

  /** Whatever the target provider answers while items are being collected. */
  datatype ProviderState = ProviderState(contents: string)

  /** An item before conversion; `form` is what its conversion to the SDK type yields. */
  datatype ServerItem = ServerItem(name: string, form: Result<string, string>)

  datatype SdkItem = SdkItem(name: string, form: string)

  type Registry = map<string, SdkItem>

  /** The four collectApplicable functions, as one function of what they read. */
  type Collector = (Configuration, ProviderState, nat) -> seq<ServerItem>

  /** Everything a reload may change. */
  datatype Published = Published(configuration: Configuration, sdk: seq<Registry>, enabled: seq<seq<string>>)

  ghost predicate WellFormed(st: Published) {
    |st.sdk| == KINDS && |st.enabled| == KINDS
  }

  // ----- conversion and commit of one category

  predicate Converts(items: seq<ServerItem>) {
    forall i :: 0 <= i < |items| ==> items[i].form.Ok?
  }

  function Converted(items: seq<ServerItem>): seq<SdkItem>
    requires Converts(items)
  {
    seq(|items|, i requires 0 <= i < |items| => SdkItem(items[i].name, items[i].form.value))
  }

  function Names(items: seq<SdkItem>): seq<string> {
    seq(|items|, i requires 0 <= i < |items| => items[i].name)
  }

  /** The registry that binds each name to the last item of that name, and nothing else. */
  function LastBindings(items: seq<SdkItem>): Registry {
    if items == [] then map[]
    else
      var last := items[|items| - 1];
      LastBindings(items[..|items| - 1])[last.name := last]
  }

  ghost predicate LastOfName(items: seq<SdkItem>, i: int, n: string) {
    0 <= i < |items| && items[i].name == n && forall j :: i < j < |items| ==> items[j].name != n
  }

  lemma {:induction false} LastBindingsMeaning(items: seq<SdkItem>)
    ensures forall n :: n in LastBindings(items) <==> n in Names(items)
    ensures forall n :: n in LastBindings(items) ==>
      exists i :: LastOfName(items, i, n) && items[i] == LastBindings(items)[n]
  {
    if items != [] {
      var front, last := items[..|items| - 1], items[|items| - 1];
      LastBindingsMeaning(front);
      assert items == front + [last];
      assert Names(items) == Names(front) + [last.name];
      forall n | n in LastBindings(items)
        ensures exists i :: LastOfName(items, i, n) && items[i] == LastBindings(items)[n]
      {
        if n == last.name {
          assert LastOfName(items, |items| - 1, n);
        } else {
          assert n in LastBindings(front);
          var i :| LastOfName(front, i, n) && front[i] == LastBindings(front)[n];
          assert LastOfName(items, i, n);
        }
      }
    }
  }

  function Elements(names: seq<string>): set<string> {
    set n | n in names
  }

  function Stale(previous: seq<string>, items: seq<SdkItem>): set<string> {
    set n | n in previous && n !in Names(items)
  }

  /** What commitItems makes of a registry, whatever that registry held. */
  function Commit(reg: Registry, previous: seq<string>, items: seq<SdkItem>): Registry {
    (reg - Stale(previous, items)) + LastBindings(items)
  }

  /** The bookkeeping of the previous reload is enough: nothing of the old registry survives. */
  lemma CommitReplaces(reg: Registry, previous: seq<string>, items: seq<SdkItem>)
    requires reg.Keys <= Elements(previous)
    ensures Commit(reg, previous, items) == LastBindings(items)
  {
    LastBindingsMeaning(items);
    var c := Commit(reg, previous, items);
    assert forall n :: n in c ==> n in LastBindings(items);
    assert c.Keys == LastBindings(items).Keys;
  }

  /** The error names the first item that does not convert. */
  ghost predicate FirstFailure(items: seq<ServerItem>, kind: string, error: string) {
    exists i :: 0 <= i < |items| && Converts(items[..i]) && items[i].form.Err?
                && error == "failed to convert " + kind + " " + items[i].name + ": " + items[i].form.error
  }

  method ConvertItems(items: seq<ServerItem>, kind: string) returns (r: Result<seq<SdkItem>, string>)
    ensures r.Ok? <==> forall i :: 0 <= i < |items| ==> items[i].form.Ok?
    ensures r.Ok? ==> |r.value| == |items|
                      && forall i :: 0 <= i < |items| ==> r.value[i].name == items[i].name && items[i].form == Ok(r.value[i].form)
    ensures r.Ok? ==> Converts(items) && r.value == Converted(items)
    ensures r.Err? ==> FirstFailure(items, kind, r.error)
  {
    var out: seq<SdkItem> := [];
    for i := 0 to |items|
      invariant Converts(items[..i])
      invariant out == Converted(items[..i])
    {
      if items[i].form.Err? {
        return Err("failed to convert " + kind + " " + items[i].name + ": " + items[i].form.error);
      }
      out := out + [SdkItem(items[i].name, items[i].form.value)];
      assert items[..i + 1] == items[..i] + [items[i]];
    }
    assert items[..|items|] == items;
    return Ok(out);
  }

  /** The four name-to-item registries of the MCP SDK server. */
  class Sdk {
    var registries: seq<Registry>

    constructor ()
      ensures registries == EMPTY_SDK
    {
      registries := EMPTY_SDK;
    }

    method Remove(kind: nat, names: seq<string>)
      requires kind < |registries|
      modifies this
      ensures registries == old(registries)[kind := old(registries)[kind] - Elements(names)]
    {
      var reg := registries[kind];
      for i := 0 to |names|
        invariant reg == registries[kind] - Elements(names[..i])
        invariant registries == old(registries)
      {
        reg := reg - {names[i]};
        assert names[..i + 1] == names[..i] + [names[i]];
        assert Elements(names[..i + 1]) == Elements(names[..i]) + {names[i]};
      }
      assert names[..|names|] == names;
      registries := registries[kind := reg];
    }

    method Add(kind: nat, item: SdkItem)
      requires kind < |registries|
      modifies this
      ensures registries == old(registries)[kind := old(registries)[kind][item.name := item]]
    {
      registries := registries[kind := registries[kind][item.name := item]];
    }
  }

  method CommitItems(sdk: Sdk, kind: nat, previous: seq<string>, items: seq<SdkItem>) returns (enabled: seq<string>)
    requires kind < |sdk.registries|
    modifies sdk
    ensures enabled == Names(items)
    ensures sdk.registries == old(sdk.registries)[kind := Commit(old(sdk.registries)[kind], previous, items)]
  {
    enabled := [];
    for i := 0 to |items|
      invariant enabled == Names(items[..i])
    {
      enabled := enabled + [items[i].name];
      assert items[..i + 1] == items[..i] + [items[i]];
    }
    assert items[..|items|] == items;

    var toRemove: seq<string> := [];
    for i := 0 to |previous|
      invariant Elements(toRemove) == Stale(previous[..i], items)
    {
      assert previous[..i + 1] == previous[..i] + [previous[i]];
      ghost var before := toRemove;
      if previous[i] !in enabled {
        toRemove := toRemove + [previous[i]];
        assert Elements(toRemove) == Elements(before) + {previous[i]};
        assert Stale(previous[..i + 1], items) == Stale(previous[..i], items) + {previous[i]};
      } else {
        assert Stale(previous[..i + 1], items) == Stale(previous[..i], items);
      }
    }
    assert previous[..|previous|] == previous;
    sdk.Remove(kind, toRemove);

    ghost var before, kept := sdk.registries, sdk.registries[kind];
    assert kept + LastBindings(items[..0]) == kept;
    for i := 0 to |items|
      invariant |sdk.registries| == |before|
      invariant sdk.registries == before[kind := kept + LastBindings(items[..i])]
    {
      assert items[..i + 1][..i] == items[..i];
      assert kept + LastBindings(items[..i + 1]) == (kept + LastBindings(items[..i]))[items[i].name := items[i]];
      sdk.Add(kind, items[i]);
    }
  }

  // ----- one reload, as a function of the published state

  /** A request to reload: a candidate configuration, or none for a re-apply, and the provider
      state that each of the four collections found. */
  datatype Request = Request(candidate: Option<Configuration>, envs: seq<ProviderState>)

  function Resolve(st: Published, candidate: Option<Configuration>): Configuration {
    candidate.GetOr(st.configuration)
  }

  function Surface(collect: Collector, cfg: Configuration, envs: seq<ProviderState>): seq<seq<ServerItem>> {
    seq(|envs|, k requires 0 <= k < |envs| => collect(cfg, envs[k], k))
  }

  predicate SurfaceConverts(surface: seq<seq<ServerItem>>) {
    forall k :: 0 <= k < |surface| ==> Converts(surface[k])
  }

  function ConvertedSurface(surface: seq<seq<ServerItem>>): seq<seq<SdkItem>>
    requires SurfaceConverts(surface)
  {
    seq(|surface|, k requires 0 <= k < |surface| => Converted(surface[k]))
  }

  predicate Accepted(collect: Collector, st: Published, req: Request) {
    SurfaceConverts(Surface(collect, Resolve(st, req.candidate), req.envs))
  }

  function NamesOf(items: seq<seq<SdkItem>>): seq<seq<string>> {
    seq(|items|, k requires 0 <= k < |items| => Names(items[k]))
  }

  function CommitAll(sdk: seq<Registry>, previous: seq<seq<string>>, items: seq<seq<SdkItem>>): seq<Registry>
    requires |items| == |sdk| == |previous|
  {
    seq(|items|, k requires 0 <= k < |items| => Commit(sdk[k], previous[k], items[k]))
  }

  /** One whole reload, atomically. */
  function Reload(collect: Collector, st: Published, req: Request): Published
    requires |req.envs| == |st.sdk| == |st.enabled|
  {
    if !Accepted(collect, st, req) then st
    else
      var cfg := Resolve(st, req.candidate);
      var items := ConvertedSurface(Surface(collect, cfg, req.envs));
      Published(cfg, CommitAll(st.sdk, st.enabled, items), NamesOf(items))
  }

  ghost predicate KindMatches(st: Published, k: nat, items: seq<ServerItem>)
    requires k < |st.sdk| && k < |st.enabled|
  {
    Converts(items) && st.sdk[k] == LastBindings(Converted(items)) && st.enabled[k] == Names(Converted(items))
  }

  /** The registry has the names of the items, each with the form that the last item of this name converts to. */
  ghost predicate HasItems(reg: Registry, items: seq<ServerItem>) {
    && (forall n :: n in reg <==> exists i :: 0 <= i < |items| && items[i].name == n)
    && (forall i :: 0 <= i < |items| && (forall j :: i < j < |items| ==> items[j].name != items[i].name) ==>
          var n := items[i].name; n in reg && reg[n].name == n && items[i].form == Ok(reg[n].form))
  }

  ghost predicate ListsItems(names: seq<string>, items: seq<ServerItem>) {
    |names| == |items| && forall i :: 0 <= i < |items| ==> names[i] == items[i].name
  }

  /** The registries and lists of all four categories have the items that are collected for them. */
  ghost predicate ShowsItems(collect: Collector, st: Published, envs: seq<ProviderState>) {
    && WellFormed(st) && |envs| == KINDS
    && forall k :: 0 <= k < KINDS ==>
         var items := collect(st.configuration, envs[k], k); HasItems(st.sdk[k], items) && ListsItems(st.enabled[k], items)
  }

  lemma KindHasItems(st: Published, k: nat, items: seq<ServerItem>)
    requires k < |st.sdk| && k < |st.enabled| && KindMatches(st, k, items)
    ensures HasItems(st.sdk[k], items) && ListsItems(st.enabled[k], items)
  {
    var converted := Converted(items);
    LastBindingsMeaning(converted);
    forall n
      ensures n in st.sdk[k] <==> exists i :: 0 <= i < |items| && items[i].name == n
    {
      assert forall i :: 0 <= i < |items| ==> Names(converted)[i] == items[i].name;
    }
    forall i | 0 <= i < |items| && (forall j :: i < j < |items| ==> items[j].name != items[i].name)
      ensures var n := items[i].name; n in st.sdk[k] && st.sdk[k][n].name == n && items[i].form == Ok(st.sdk[k][n].form)
    {
      var n := items[i].name;
      assert Names(converted)[i] == n;
      var l :| LastOfName(converted, l, n) && converted[l] == st.sdk[k][n];
      assert converted[i].name == n && converted[l].name == items[l].name;
      assert l == i;
    }
  }

  lemma MatchesShows(collect: Collector, st: Published, envs: seq<ProviderState>)
    requires Matches(collect, st, envs)
    ensures ShowsItems(collect, st, envs)
  {
    hide KindMatches, HasItems, ListsItems;
    forall k | 0 <= k < KINDS
      ensures var items := collect(st.configuration, envs[k], k); HasItems(st.sdk[k], items) && ListsItems(st.enabled[k], items)
    {
      KindHasItems(st, k, collect(st.configuration, envs[k], k));
    }
  }

  /** The registries hold exactly the surface that the installed configuration has under `envs`. */
  ghost predicate Matches(collect: Collector, st: Published, envs: seq<ProviderState>) {
    && WellFormed(st) && |envs| == KINDS
    && forall k :: 0 <= k < KINDS ==> KindMatches(st, k, collect(st.configuration, envs[k], k))
  }

  /** The bookkeeping covers the registries: all that a later commit relies on. */
  ghost predicate Covered(st: Published) {
    WellFormed(st) && forall k :: 0 <= k < KINDS ==> st.sdk[k].Keys <= Elements(st.enabled[k])
  }

  lemma MatchesCovered(collect: Collector, st: Published, envs: seq<ProviderState>)
    requires Matches(collect, st, envs)
    ensures Covered(st)
  {
    forall k | 0 <= k < KINDS
      ensures st.sdk[k].Keys <= Elements(st.enabled[k])
    {
      var items := collect(st.configuration, envs[k], k);
      assert KindMatches(st, k, items);
      LastBindingsMeaning(Converted(items));
    }
  }

  /** An accepted reload installs its own surface. */
  lemma AcceptedMatches(collect: Collector, st: Published, req: Request)
    requires Covered(st) && |req.envs| == KINDS && Accepted(collect, st, req)
    ensures Matches(collect, Reload(collect, st, req), req.envs)
    ensures ShowsItems(collect, Reload(collect, st, req), req.envs)
  {
    var cfg := Resolve(st, req.candidate);
    var surface := Surface(collect, cfg, req.envs);
    var after := Reload(collect, st, req);
    forall k | 0 <= k < KINDS
      ensures KindMatches(after, k, collect(cfg, req.envs[k], k))
    {
      assert Converts(surface[k]);
      CommitReplaces(st.sdk[k], st.enabled[k], Converted(surface[k]));
    }
    MatchesShows(collect, after, req.envs);
  }

  const EMPTY_SDK: seq<Registry> := [map[], map[], map[], map[]]
  const EMPTY_LISTS: seq<seq<string>> := [[], [], [], []]

  const KIND_NAMES: seq<string> := ["tool", "prompt", "resource", "resource template"]

  /** The error is that of the first category that does not convert. */
  ghost predicate FirstFailingKind(surface: seq<seq<ServerItem>>, error: string) {
    exists k :: 0 <= k < |surface| && k < |KIND_NAMES| && SurfaceConverts(surface[..k]) && FirstFailure(surface[k], KIND_NAMES[k], error)
  }

  /** Phase 1 of applyToolsets: nothing is touched, and the first bad item of any category aborts. */
  method ConvertSurface(tools: seq<ServerItem>, prompts: seq<ServerItem>, resources: seq<ServerItem>, templates: seq<ServerItem>)
    returns (r: Result<seq<seq<SdkItem>>, string>)
    ensures r.Ok? <==> SurfaceConverts([tools, prompts, resources, templates])
    ensures r.Ok? ==> r.value == ConvertedSurface([tools, prompts, resources, templates])
    ensures r.Err? ==> FirstFailingKind([tools, prompts, resources, templates], r.error)
  {
    ghost var surface := [tools, prompts, resources, templates];
    var convertedTools := ConvertItems(tools, "tool");
    if convertedTools.Err? { assert !Converts(surface[0]) && SurfaceConverts(surface[..0]); return Err(convertedTools.error); }
    var convertedPrompts := ConvertItems(prompts, "prompt");
    if convertedPrompts.Err? { assert !Converts(surface[1]) && SurfaceConverts(surface[..1]); return Err(convertedPrompts.error); }
    var convertedResources := ConvertItems(resources, "resource");
    if convertedResources.Err? { assert !Converts(surface[2]) && SurfaceConverts(surface[..2]); return Err(convertedResources.error); }
    var convertedTemplates := ConvertItems(templates, "resource template");
    if convertedTemplates.Err? { assert !Converts(surface[3]) && SurfaceConverts(surface[..3]); return Err(convertedTemplates.error); }
    return Ok([convertedTools.value, convertedPrompts.value, convertedResources.value, convertedTemplates.value]);
  }

  /** Phase 2: every category is committed, in order, against its own bookkeeping. */
  method CommitSurface(sdk: Sdk, previous: seq<seq<string>>, items: seq<seq<SdkItem>>) returns (enabled: seq<seq<string>>)
    requires |sdk.registries| == |previous| == |items| == KINDS
    modifies sdk
    ensures enabled == NamesOf(items)
    ensures sdk.registries == CommitAll(old(sdk.registries), previous, items)
  {
    var newTools := CommitItems(sdk, 0, previous[0], items[0]);
    var newPrompts := CommitItems(sdk, 1, previous[1], items[1]);
    var newResources := CommitItems(sdk, 2, previous[2], items[2]);
    var newTemplates := CommitItems(sdk, 3, previous[3], items[3]);
    enabled := [newTools, newPrompts, newResources, newTemplates];
  }

  /** The server object: the method below is the body of applyToolsets with reloadMu held. */
  class Server {
    var configuration: Configuration
    const sdk: Sdk
    var enabled: seq<seq<string>>

    ghost function Abs(): Published
      reads this, sdk
    {
      Published(configuration, sdk.registries, enabled)
    }

    /** The server as NewServer holds it before its first applyToolsets. */
    constructor (cfg: Configuration)
      ensures fresh(sdk)
      ensures Abs() == Published(cfg, EMPTY_SDK, EMPTY_LISTS)
    {
      configuration := cfg;
      sdk := new Sdk();
      enabled := EMPTY_LISTS;
    }

    method ApplyToolsets(collect: Collector, cfg: Option<Configuration>, envs: seq<ProviderState>) returns (err: Option<string>)
      requires WellFormed(Abs()) && |envs| == KINDS
      modifies this, sdk
      ensures Abs() == Reload(collect, old(Abs()), Request(cfg, envs))
      ensures err.None? <==> Accepted(collect, old(Abs()), Request(cfg, envs))
      ensures err.Some? ==> FirstFailingKind(Surface(collect, Resolve(old(Abs()), cfg), envs), err.value)
    {
      var effective := if cfg.None? then configuration else cfg.value;
      ghost var surface := Surface(collect, effective, envs);
      var tools := collect(effective, envs[0], 0);
      var prompts := collect(effective, envs[1], 1);
      var resources := collect(effective, envs[2], 2);
      var templates := collect(effective, envs[3], 3);
      assert surface == [tools, prompts, resources, templates];
      var converted := ConvertSurface(tools, prompts, resources, templates);
      if converted.Err? {
        return Some(converted.error);
      }
      var names := CommitSurface(sdk, enabled, converted.value);
      configuration := effective;
      enabled := names;
      return None;
    }
  }

  /** NewServer: the first reload runs before any watcher exists; without it there is no server. */
  method NewServer(collect: Collector, cfg: Configuration, envs: seq<ProviderState>) returns (r: Result<Server, string>)
    requires |envs| == KINDS
    ensures r.Ok? <==> Accepted(collect, Published(cfg, EMPTY_SDK, EMPTY_LISTS), Request(Some(cfg), envs))
    ensures r.Ok? ==> fresh(r.value) && r.value.configuration == cfg && Matches(collect, r.value.Abs(), envs) && ShowsItems(collect, r.value.Abs(), envs)
  {
    var server := new Server(cfg);
    var err := server.ApplyToolsets(collect, Some(cfg), envs);
    if err.Some? {
      return Err(err.value);
    }
    AcceptedMatches(collect, Published(cfg, EMPTY_SDK, EMPTY_LISTS), Request(Some(cfg), envs));
    return Ok(server);
  }
}
