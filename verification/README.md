# Verified model of the stateful core of kubernetes-mcp-server

kubernetes-mcp-server is a Go server that exposes Kubernetes through the Model Context Protocol. This
project models the parts of it that carry state, concurrency or string structure, and proves what
they are for. Network calls, file contents, decoding, signing, URL parsing, clocks and schedules are
parameters of the model: every theorem is for all of their answers and all interleavings.

Where several goroutines meet there are two kinds of files: a class whose methods are the critical
sections, and a step system (`...Protocol`, `WatcherLifecycle`, `Debounce`) over any sequence of
actions of any number of callers. They are about the same thing: `HotReload`, `RateLimit`, `WellKnown`
and `LazyManagers` define the functions that both are stated with, each method of the watcher is
proved to take a step of `WatcherLifecycle` or `Debounce`, and an undisturbed run of the reload and
Close steps of the log sink is proved to do what the methods do.

- `HotReload`, `HotReloadProtocol`: reloads of the MCP server; convert, commit, publish (pkg/mcp/mcp.go)
- `RateLimit`, `RateLimitProtocol`, `RateLimitSettings`: token buckets per session, their reaper, and
  changes of the setting (pkg/mcp/middleware.go)
- `LogSink`, `LogSinkProtocol`: the reloadable log destination (pkg/logging/sink.go)
- `Watcher`, `WatcherLifecycle`, `Debounce`: the cluster-state watcher (pkg/kubernetes/watcher/cluster.go)
- `WellKnown`, `WellKnownProtocol`: the openid-configuration cache (pkg/http/wellknown.go)
- `LazyManagers`, `LazyManagersProtocol`, `LazyManagersResets`: managers per target, and what a failed
  reset leaves behind (pkg/kcp/provider.go, pkg/kubernetes/provider_kubeconfig.go)
- `Reload`: configuration and OAuth state on SIGHUP (pkg/kubernetes-mcp-server/cmd/root.go, pkg/oauth/state.go)
- `StsConfigCache`, `Assertions`: cached token exchange configuration and client assertions
- `ConfigMerge`, `ConfigTables`: the deep merge of configuration files, on values and in place (pkg/config/config.go)
- `Prompts`: argument substitution (pkg/prompts/prompts.go)
- `ApiPaths`: reading Kubernetes request paths (pkg/kubernetes/accesscontrol_round_tripper.go)
- `Workspaces`: kcp discovery and workspace URLs (pkg/kcp/workspace.go)
- `Charts`: the Helm chart allowlist (pkg/helm)
- `Strings`, `Wrappers`: library functions and optional values

## Findings

Properties that the code does not have in general are proved with the exact condition under which it
does.

- A rate limiter is asked after the lock has been given up, so a request can spend from a limiter
  whose entry was reaped in the meantime. The bound on admissions holds exactly when the burst refills
  in the ten idle minutes less the longest time between lookup and decision
  (`RateLimitProtocol.BoundHoldsExactlyWhenRefilled`). Then it also holds in every period of one setting
  for the requests looked up in it, whatever was in flight before (`RateLimitSettings.AdmissionsAreBoundedInPeriod`).
- Both timings of the cluster-state watcher come from the environment. If the debounce window is not
  shorter than the poll interval, a lasting change re-arms the timer at each tick and is never
  reported (`Debounce.ConvergesExactlyWhenWindowIsShorter`).
- A `Watch` that comes while `Close` waits for the goroutine is dropped
  (`WatcherLifecycle.WatchIsDroppedExactlyWhenBusy`). The comment on `Watch` says that it can be
  called once per instance; the code lets it run again after `Close`, and the model follows the code.
- A subresource of a Namespace is read as a collection of another resource, and a group, version, cluster-scoped
  name or subresource called "namespaces" as the announcement of a namespace
  (`ApiPaths.ParsingUndoesPrinting`, `ApiPaths.NamespaceSubresourceIsMisread`).
- The cache key of the token exchange configuration does not tell no scopes from one empty scope, nor a
  scope with a NUL from two scopes. The cached answer is stale exactly if the call is the cached one but
  for the scopes, and those differ with the same canonical form (`StsConfigCache.CachedAnswersAreFresh`,
  `StsConfigCache.NulScopesGoStale`).
- Merging configuration files is not associative: a leaf hides what an earlier file has below it, and
  a later table can bring that back (`ConfigMerge.AssociativeExactlyWithoutResurrection`).
- Prompt values that contain a placeholder, or end in the beginning of one, can be substituted again,
  depending on the order of the declarations. For distinct names without braces every template comes
  out right in every order exactly if no value contains, or ends in a nonempty beginning of, the placeholder
  of another argument that is replaced by something else (`Prompts.SimultaneousExactlyWithoutClash`).
- A workspace URL reads back exactly if its base has no "/clusters/" in it, not even together with the
  marker that is appended (`Workspaces.ParsingUndoesConstruction`).
- The kubeconfig reset is all-or-nothing and closes each manager that it drops. The kcp reset is not: one
  that fails keeps the table exactly if it fails before its last step, and the default workspace exactly
  if the configuration cannot be read or has the same one (`LazyManagersResets.FailedKcpReset`).
  So a failed reset can drop the managers in use (`LazyManagersResets.FailedResetCanDropManagers`), and can
  leave a default workspace that is not in the table (`LazyManagersResets.DefaultCanGetLost`).

## Model

| member | source | states |
|---|---|---|
| HotReload.LastBindingsMeaning | pkg/mcp/mcp.go:361-385 | A registry built by adding items in turn has exactly the names of the items, each bound to the last item of that name |
| HotReload.CommitReplaces | pkg/mcp/mcp.go:361-385 | Removing the stale names of the previous list and adding the new items leaves the new items only, whatever the registry held, if the list covered it |
| HotReload.ConvertItems | pkg/mcp/mcp.go:342-358 | Succeeds exactly if every item converts, each then keeping its own name and its own form, and otherwise names the first one that does not |
| HotReload.CommitItems | pkg/mcp/mcp.go:361-385 | The removal and addition loops change one registry to the specified one and return the new list of names |
| HotReload.ConvertSurface | pkg/mcp/mcp.go:246-287 | All four categories convert, or the error is that of the first item that does not, in the first such category |
| HotReload.CommitSurface | pkg/mcp/mcp.go:289-302 | Each registry is committed against its own list |
| HotReload.Server.ApplyToolsets | pkg/mcp/mcp.go:220-329 | The body under the lock is one atomic reload; a conversion error is that of the first bad category and leaves registries, configuration and lists unchanged |
| HotReload.NewServer | pkg/mcp/mcp.go:122-192 | A server that is returned has in each registry the names of the collected items, each with the form of the last item of that name, and the lists to match |
| HotReload.AcceptedMatches | pkg/mcp/mcp.go:220-329 | An accepted reload makes each registry hold exactly the collected items: their names, each with the form of the last item of that name |
| HotReloadProtocol.ReloadsAreSerialisable | pkg/mcp/mcp.go:220-329 | In every interleaving of reloaders, a free lock means the state of serving the requests one at a time in lock order |
| HotReloadProtocol.RegistriesMatchConfiguration | pkg/mcp/mcp.go:220-329 | In every run, whenever the lock is free, a registry has a name exactly if some item collected for the installed configuration has it, bound to the form of the last such item, and the enabled lists have these names |
| HotReloadProtocol.LastCandidateIsInstalled | pkg/mcp/mcp.go:194-236 | The installed configuration is the last accepted candidate in lock order |
| HotReloadProtocol.OnlyCandidatesAreInstalled | pkg/mcp/mcp.go:201-236 | A re-apply never changes which configuration is installed |
| HotReloadProtocol.ReadersSeeOnlyAcceptedWork | pkg/mcp/mcp.go:238-329 | At every instant readers see what the last served request left, or a stage of the reload that the lock holder itself is in and whose items have all converted: registry by registry and item by item, then the configuration, then the lists of names |
| HotReloadProtocol.RejectedReloadsAreInvisible | pkg/mcp/mcp.go:238-287 | If the request that is logged next cannot be accepted, readers see at no moment of its service anything but what the request before it left |
| HotReloadProtocol.OnlySeenStatesAreCollected | pkg/mcp/mcp.go:388-457 | Surfaces are collected from states that the provider really had |
| RateLimit.LevelAfter | pkg/mcp/middleware.go:402-409 | A bucket refills linearly up to its burst and never loses tokens by waiting |
| RateLimit.EarnedMeans | pkg/mcp/middleware.go:394-396 | What is earned is the limit times the seconds |
| RateLimit.FullWhenRefilled | pkg/mcp/middleware.go:362-366 | A bucket that was idle long enough is full, as a new one is |
| RateLimit.OperationsKeepCurrent | pkg/mcp/middleware.go:387-405 | Every stored limiter was built with the limit and burst in force, after any request, decision or sweep |
| RateLimit.Limiter.Lookup | pkg/mcp/middleware.go:371-405 | The critical section of a request: flush on a changed setting, keep the limiter of a session that has one, else make a full one, and refresh it; no other session is touched, and without a limit or a session nothing is |
| RateLimit.Limiter.Ask | pkg/mcp/middleware.go:407-409 | A request is admitted exactly if a whole token is there, and takes it; a refused one takes nothing |
| RateLimit.Limiter.ReapIdle | pkg/mcp/middleware.go:351-368 | The reaper deletes exactly the entries not seen for more than 600 seconds |
| RateLimitProtocol.SpendingIsBounded | pkg/mcp/middleware.go:342-414 | Admissions plus tokens left never exceed tokens at the start plus refill, across any reaper runs |
| RateLimitProtocol.AdmissionsAreBounded | pkg/mcp/middleware.go:342-414 | In any window of any run under one setting, a session is admitted at most burst + limit times length often |
| RateLimitSettings.AdmissionsAreBoundedInPeriod | pkg/mcp/middleware.go:342-414 | After any earlier settings and with their requests still in flight, the requests looked up under a setting are admitted at most burst + limit times length often in any window of its period |
| RateLimitSettings.NewSettingStartsFull | pkg/mcp/middleware.go:387-405 | The first request after a change finds every session with a full burst of the new setting, whatever is in flight |
| RateLimitSettings.LiveKeepsInv | pkg/mcp/middleware.go:342-414 | Through any changes of the setting, every stored limiter has the setting in force and no two sessions, not even of old requests still in flight, share one |
| RateLimitProtocol.ReaperIsUnobservable | pkg/mcp/middleware.go:351-368 | A run with the reaper takes the same decisions as the run without it |
| RateLimitProtocol.BoundHoldsExactlyWhenRefilled | pkg/mcp/middleware.go:342-414 | With the reaper, the bound holds if and only if the burst refills in the idle time less the decision delay |
| LogSink.Sink.Write | pkg/logging/sink.go:193-201 | Text goes to the writer in force and nowhere else |
| LogSink.Sink.ApplyDestination | pkg/logging/sink.go:278-332 | Text then goes to the error output, to a newly opened file of that path, or to the output of the mode; if the file cannot be opened nothing changes; the previous file is closed |
| LogSink.Sink.Close | pkg/logging/sink.go:247-268 | The open file is closed and later text goes to the error output |
| LogSinkProtocol.NoWriteHitsAClosedFile | pkg/logging/sink.go:193-332 | Under concurrent writers, a reloader and Close, no write ever hits a closed file |
| LogSinkProtocol.EveryFileIsClosedOnce | pkg/logging/sink.go:225-332 | No file is closed twice; outside reload and Close exactly the file in use is open, and after Close none |
| LogSinkProtocol.LastAppliedIsRemembered | pkg/logging/sink.go:278-332 | The remembered setting is the last one of the history whose reload went through |
| LogSinkProtocol.WriterFollowsLastReload | pkg/logging/sink.go:225-332 | Until Close the writer and the path of the open file are what the last successful reload of the history and the pinned mode determine; after Close text goes to the error output |
| LogSinkProtocol.UndisturbedReload | pkg/logging/sink.go:225-332 | A reload that nobody interleaves with does what the method of the sink does, and the previous file is closed once if it is no longer used |
| LogSinkProtocol.UndisturbedClose | pkg/logging/sink.go:247-268 | So does a Close |
| Watcher.HasChanged | pkg/kubernetes/watcher/cluster.go:114-124 | The comparison by fields and groups finds exactly the changed observations |
| Watcher.ClusterState.EnterWatch | pkg/kubernetes/watcher/cluster.go:80-87 | Takes the step of Watch under the lock in WatcherLifecycle; a Watch that spawns takes its observation for the baseline and starts Debounce from it, any other changes no state |
| Watcher.ClusterState.EnterClose | pkg/kubernetes/watcher/cluster.go:152-174 | Takes the step of Close under the lock in WatcherLifecycle, and stops the timer; the caller waits exactly if the step says so |
| Watcher.ClusterState.LeavePoll | pkg/kubernetes/watcher/cluster.go:90-91 | The deferred close of the poll goroutine is its last step in WatcherLifecycle |
| Watcher.ClusterState.FinishClose | pkg/kubernetes/watcher/cluster.go:174-179 | Takes the last step of Close in WatcherLifecycle: the watcher can be started again, with channels of its own |
| Watcher.ClusterState.Tick | pkg/kubernetes/watcher/cluster.go:103-145 | The comparison by fields and groups and the timer that it arms are the tick of Debounce |
| Watcher.ClusterState.Fire | pkg/kubernetes/watcher/cluster.go:131-141 | The callback is the firing of Debounce: it captures what the discovery cache has, and only if the reload succeeded |
| WatcherLifecycle.NoChannelIsClosedTwice | pkg/kubernetes/watcher/cluster.go:77-182 | In every interleaving of Watch, Close, ticks and callbacks |
| WatcherLifecycle.AtMostOnePollGoroutine | pkg/kubernetes/watcher/cluster.go:77-150 | At most one poll goroutine is alive at any time |
| WatcherLifecycle.CloseReturnsAfterPoll | pkg/kubernetes/watcher/cluster.go:152-182 | The Close that closes stopCh gets on only once no goroutine is alive or about to be |
| WatcherLifecycle.WatchIsDroppedExactlyWhenBusy | pkg/kubernetes/watcher/cluster.go:77-88 | A Watch takes effect if and only if no goroutine is there and no Close is under way |
| WatcherLifecycle.CloseCanFinish | pkg/kubernetes/watcher/cluster.go:152-182 | From every reachable state such a Close can return within ten steps of the threads it waits for |
| WatcherLifecycle.WatchRestarts | pkg/kubernetes/watcher/cluster.go:174-179 | A closed watcher can be started again, with fresh channels |
| Debounce.ShortWindowConverges | pkg/kubernetes/watcher/cluster.go:100-147 | Once the cluster is constant, one further tick and one window bring the known state up to date |
| Debounce.SettledStays | pkg/kubernetes/watcher/cluster.go:100-147 | A settled watcher makes no callback until the cluster changes |
| Debounce.QuietClustersAreLeftAlone | pkg/kubernetes/watcher/cluster.go:80-147 | A watcher whose cluster never changes calls nothing back |
| Debounce.FailuresAreRetried | pkg/kubernetes/watcher/cluster.go:126-143 | While reloads fail, every tick leads to exactly one more attempt |
| Debounce.Starves | pkg/kubernetes/watcher/cluster.go:126-143 | With a window not shorter than the poll interval, a lasting change leads to no attempt in any number of ticks |
| Debounce.ConvergesExactlyWhenWindowIsShorter | pkg/kubernetes/watcher/cluster.go:46-147 | Convergence is guaranteed if and only if the window is shorter than the poll interval |
| WellKnown.OverriddenMeaning | pkg/http/wellknown.go:372-381 | Every field is removed or fixed where the snapshot rules on it, and as the server sent it where it does not |
| WellKnown.OverridesAreIdempotent | pkg/http/wellknown.go:372-381 | Overriding twice is overriding once |
| WellKnown.CopyMap | pkg/http/wellknown.go:385-391 | The loop makes a new map with the same fields |
| WellKnown.ApplyConfigOverrides | pkg/http/wellknown.go:372-381 | The map is changed in place as specified |
| WellKnown.Cache.Lookup | pkg/http/wellknown.go:267-280 | A hit is a private copy of an entry for this URL that is younger than five minutes |
| WellKnown.Cache.Store | pkg/http/wellknown.go:296-306 | The cache gets a copy of its own |
| WellKnownProtocol.ServedDocumentsAreGenuine | pkg/http/wellknown.go:267-315 | What a caller gets was sent by the server for the URL that the call read, from a young cache entry or a flight that it joined after its miss, changed by its own overrides only |
| WellKnownProtocol.CacheStaysPristine | pkg/http/wellknown.go:267-315 | The cache holds what the server sent for its URL, never an overridden document and never none |
| WellKnownProtocol.OverridesStayPrivate | pkg/http/wellknown.go:372-391 | A caller's overrides change no map that anybody else can reach |
| WellKnownProtocol.OnlyAnswersAreCached | pkg/http/wellknown.go:283-306 | In every run a step that changes the cache is a flight that brings in a document the server sent; failed and empty answers leave it as it was |
| WellKnownProtocol.YoungEntriesAreServed | pkg/http/wellknown.go:270-279 | In every run a lookup gets a copy of the cache exactly if the entry is for its URL and younger than 300 seconds |
| WellKnownProtocol.LandedFlightsAnswer | pkg/http/wellknown.go:309-315 | In every run a call whose flight has landed gets the document that the flight brought, and nothing if it brought none |
| WellKnownProtocol.EmptyMeansNothingCame | pkg/http/wellknown.go:309-314 | A call comes out empty only by a landed flight that brought no document |
| WellKnownProtocol.AnswersAreBrought | pkg/http/wellknown.go:293-307 | A flight goes on to its store exactly if the server answered with a document, and with that one |
| WellKnownProtocol.BroughtDocumentsAreStored | pkg/http/wellknown.go:300-304 | In every run each flight that is past its fetch with a document has had it in the cache under its URL |
| WellKnownProtocol.OneFlightPerUrl | pkg/http/wellknown.go:283-315 | Concurrent misses share one flight per URL |
| LazyManagers.Provider.ManagerForTarget | pkg/kcp/provider.go:169-218 | Under the lock, a manager that is there is returned, else one for this very target is made and published; kcp makes none for an unlisted workspace |
| LazyManagers.Provider.GetTargetManagers | pkg/kubernetes/provider_kubeconfig.go:166-184 | All managers, each for the target at its place, or an error; existing ones are kept, no target is added |
| LazyManagers.Provider.Reset | pkg/kubernetes/provider_kubeconfig.go:50-109 | A failed reset changes nothing and closes its own manager; a successful one takes the current or the only context for the default, replaces the table and closes every old manager once |
| LazyManagers.Provider.ResetKcp | pkg/kcp/provider.go:59-136 | Each stage at which the reset can fail, and which of server, default workspace and table it has replaced by then; the new manager is for the default workspace |
| LazyManagersProtocol.CallersShareOneManager | pkg/kubernetes/provider_kubeconfig.go:111-143 | Between two resets at most one manager per target is made, every caller gets it, and it is open and published |
| LazyManagersProtocol.DroppedManagersAreClosedOnce | pkg/kubernetes/provider_kubeconfig.go:50-143 | Every manager ever made is in the table and open, or closed exactly once |
| LazyManagersProtocol.KcpListsWhatWasFound | pkg/kcp/provider.go:169-218 | A kcp lookup never changes the listed workspaces and answers for listed ones only |
| LazyManagersResets.LookupIsServed | pkg/kubernetes/provider_kubeconfig.go:111-143 | A lookup that nobody interferes with gets the manager of its target if there is one, else a new one if it can be connected to and, for kcp, is listed |
| LazyManagersResets.FailedKcpReset | pkg/kcp/provider.go:59-136 | In every run a failed kcp reset keeps the table exactly if it fails before the table is replaced, and the default workspace exactly if it fails before that is taken over or takes over the same |
| LazyManagersResets.FailedKubeconfigReset | pkg/kubernetes/provider_kubeconfig.go:50-109 | In every run a failed kubeconfig reset leaves table, default and server as they were |
| LazyManagersResets.LogTellsTheRun | pkg/kcp/provider.go:59-61 | What the two results compare are the fields at the moments when that very reset takes the lock and gives it up, with its caller inside all the while |
| LazyManagersResets.DefaultFollowsTheLog | pkg/kcp/provider.go:89-123 | Between resets the default is the one taken over last and the kcp table has the targets found last, so the default is listed exactly if these two agree |
| LazyManagersResets.DefaultHasManager | pkg/kubernetes/provider_kubeconfig.go:133-135 | Whenever a lookup runs, the default context has an open manager, which the code dereferences unchecked; for kcp if nothing was taken over since the table was replaced |
| LazyManagersResets.LostDefaultIsNotServed | pkg/kcp/provider.go:301-311 | A lookup of a default workspace outside of the table, empty or not, gets no manager and changes nothing |
| LazyManagersResets.DefaultCanGetLost | pkg/kcp/provider.go:90-105 | A reset that reads another workspace and cannot connect, or a URL without a workspace, leaves a default that lookups do not find |
| LazyManagersResets.FailedResetCanDropManagers | pkg/kcp/provider.go:117-130 | A reset that ends in an error, on the configuration of before, has replaced the manager in use without closing it |
| LazyManagersProtocol.LockIsReleased | pkg/kcp/provider.go:278-295 | From every reachable state the holder of the lock gives it up after boundedly many steps of its own |
| Reload.Handler.HandleSignal | pkg/kubernetes-mcp-server/cmd/root.go:430-481 | One iteration has the specified effect with a failure at any stage, and every state that can be seen meanwhile is one of the specified ones, in order; a refused configuration changes nothing |
| Reload.RefusedSignalsChangeNothing | pkg/kubernetes-mcp-server/cmd/root.go:434-445 | A configuration that cannot be read or that the server refuses changes no state, at no moment |
| Reload.StoresInOrder | pkg/kubernetes-mcp-server/cmd/root.go:442-478 | What others see is the server first, then the log destination if its file opens, then the HTTP layer, and OAuth last |
| Reload.StatesAgreeBetweenSignals | pkg/kubernetes-mcp-server/cmd/root.go:430-481 | After any signals the server and the HTTP layer agree, and the snapshot has all four OAuth fields or waits for a provider |
| Reload.SnapshotIsAlwaysCoherent | pkg/oauth/state.go:79-88 | At no moment is a provider visible that was built from another URL or CA than the snapshot's |
| Reload.SnapshotFollowsLastSuccess | pkg/kubernetes-mcp-server/cmd/root.go:457-478 | The snapshot has the fields of the last configuration whose OAuth part went through |
| Reload.ServerFollowsLastTaken | pkg/kubernetes-mcp-server/cmd/root.go:430-455 | Server and HTTP layer have the last configuration that was read and accepted, and the log goes where the last such one whose file could be opened says |
| Reload.SuccessCatchesUp | pkg/kubernetes-mcp-server/cmd/root.go:457-480 | After a fully successful signal the snapshot matches the new configuration in all four fields, whatever failed before |
| Reload.ProviderFollowsLastChange | pkg/oauth/state.go:30-56 | After any signals the provider is the one made by the last signal that changed URL or CA and got through |
| Reload.MissingSnapshotIsEmpty | pkg/kubernetes-mcp-server/cmd/root.go:458-461 | Without a snapshot the signals are compared with an empty one |
| Reload.FailedCreationIsRetried | pkg/kubernetes-mcp-server/cmd/root.go:457-480 | A creation that failed is tried again by every later signal with the same configuration, until one succeeds |
| StsConfigCache.JoinKeepsCanonical | pkg/kubernetes/provider_token_exchange.go:154-169 | The joined forms of two scope lists are equal exactly if their canonical forms are |
| StsConfigCache.KeysAreEqualExactly | pkg/kubernetes/provider_token_exchange.go:73-169 | Two keys are equal exactly if the calls agree in everything but the scopes, and those in their canonical form |
| StsConfigCache.SameKeySameAnswer | pkg/kubernetes/provider_token_exchange.go:95-169 | Equal keys mean equal configurations but for the scopes |
| StsConfigCache.CacheFollowsLastAnswer | pkg/kubernetes/provider_token_exchange.go:92-138 | The cache has the key of the last call that was answered |
| StsConfigCache.CachedAnswersAreFresh | pkg/kubernetes/provider_token_exchange.go:73-139 | After any calls with any scopes the answer is the freshly built one, exactly unless the cached call agrees but for scopes that differ with the same canonical form |
| StsConfigCache.NulScopesGoStale | pkg/kubernetes/provider_token_exchange.go:161 | A run in which a call for two scopes is answered with the configuration for one scope that has a NUL in it |
| StsConfigCache.NonemptyScopesAreSafe | pkg/kubernetes/provider_token_exchange.go:73-139 | With nonempty NUL-free scopes the answer is always the fresh one |
| StsConfigCache.FreshMeans | pkg/kubernetes/provider_token_exchange.go:76-127 | Which calls can be answered, and that each field of the answer is the configured one of that name |
| StsConfigCache.Provider.GetOrBuildStsConfig | pkg/kubernetes/provider_token_exchange.go:73-139 | Field by field, the answer has what the call is configured with, and its scopes unless they are stale; a call without strategy, token URL or the files of its style gets none and leaves the cache untouched; a replaced configuration is closed once |
| Assertions.Target.GetOrBuildAssertion | pkg/tokenexchange/assertion.go:187-223 | A cached assertion is used exactly if it is good for more than 30 seconds; a new one is the signed one and lives for the configured time, or for 300 seconds without one; a failure keeps what is cached |
| Assertions.BuildsAreSpaced | pkg/tokenexchange/assertion.go:187-223 | Between one build and the next lies at least the lifetime less the margin |
| Assertions.BuildsAddUp | pkg/tokenexchange/assertion.go:187-223 | From the first call to the last build lie at least that many such spans as there are builds after the first |
| Assertions.BuildsAreBounded | pkg/tokenexchange/assertion.go:187-223 | A run of length T builds at most 1 + T / (lifetime - margin) assertions |
| Assertions.BoundIsTight | pkg/tokenexchange/assertion.go:187-223 | Runs with exactly that many builds exist for every number |
| Assertions.ShortLivedAreNeverCached | pkg/tokenexchange/assertion.go:194-199 | Assertions that do not outlive the margin are never served from the cache |
| ConfigMerge.MergedKind | pkg/config/config.go:338-352 | At every path the merge has what the later file says, if it decides the path, and what the earlier one has otherwise |
| ConfigMerge.MergedFilesKind | pkg/config/config.go:311-334 | At every path the merge of all files has what the last deciding file has |
| ConfigMerge.LeavesOfMergedFiles | pkg/config/config.go:311-352 | A leaf is in the merge exactly if the last file that has something at the path, or a leaf above it, has that leaf |
| ConfigMerge.AssociativeExactlyWithoutResurrection | pkg/config/config.go:338-352 | Grouping does not matter if and only if nothing hidden by a leaf is brought back by a table |
| ConfigMerge.AssociativeWhenKindsAgree | pkg/config/config.go:338-352 | In particular if no path is a leaf in the middle file and a table in the last |
| ConfigMerge.GroupingMatters | pkg/config/config.go:338-352 | Three concrete files for which the grouping matters |
| ConfigTables.MergeKey | pkg/config/config.go:340-350 | One key: nested tables are merged in place, anything else is overwritten, no other entry changes |
| ConfigTables.DeepMerge | pkg/config/config.go:338-352 | The recursive loop over shared tables makes the destination stand for the merge of both |
| ConfigTables.ReadAndMergeFiles | pkg/config/config.go:311-334 | The result stands for the merge of all files in order, or there is an error exactly if a file is bad; tables of earlier files are reused in place |
| Prompts.SubstituteArguments | pkg/prompts/prompts.go:55-67 | The loop applies the declared arguments one after the other |
| Prompts.ReplaceHitsPlaceholders | pkg/prompts/prompts.go:58-61 | On a well-formed template replace-all replaces the placeholders of that name and nothing else |
| Prompts.SequentialIsSimultaneous | pkg/prompts/prompts.go:53-67 | Unless a value clashes with an argument declared after it, the sequence of replacements is one simultaneous substitution: given values, nothing for optional ones, the rest left intact |
| Prompts.OrderDoesNotMatter | pkg/prompts/prompts.go:55-67 | Neither the order nor repetition of such declarations matters |
| Prompts.SimultaneousExactlyWithoutClash | pkg/prompts/prompts.go:55-67 | For distinct names without braces every template is substituted simultaneously in every order of the declarations, if and only if no value contains, or ends in the beginning of, the placeholder of another replaced argument |
| Prompts.ReplaceChanges | pkg/prompts/prompts.go:58-61 | Replace-all changes exactly the texts that have the pattern, unless it replaces the pattern by itself |
| Prompts.OrderMattersForPlaceholderValues | pkg/prompts/prompts.go:55-67 | A concrete value with a placeholder in it, for which the order matters |
| Prompts.RenderMessages | pkg/prompts/prompts.go:23-51 | An error names the first required argument that is not given; otherwise every template is substituted |
| Prompts.OnlyUndeclaredPlaceholdersAreLeft | pkg/prompts/prompts.go:27-51 | The rendered text has a placeholder exactly if the template has it and its name is undeclared, unless a value brings it in |
| Prompts.MergePrompts | pkg/prompts/prompts.go:69-91 | The base prompts whose names the override does not have, in order, then the override; so every name has the override's prompts if there are any, else the base's |
| ApiPaths.ReadersAgree | pkg/kubernetes/accesscontrol_round_tripper.go:184-278 | For every path the two readers find a resource together, and the same one: exactly in paths below a core version or below a group and version |
| ApiPaths.ParseUrlToNamespaceAndName | pkg/kubernetes/accesscontrol_round_tripper.go:236-252 | The search loop finds the first announced namespace, and the name after the resource |
| ApiPaths.ParsingUndoesPrinting | pkg/kubernetes/accesscontrol_round_tripper.go:184-310 | For every group, version, resource, namespace and name, a printed path under any prefix reads back in all parts if and only if the target is readable |
| ApiPaths.StrippingUndoesMounting | pkg/kubernetes/accesscontrol_round_tripper.go:219-234 | Stripping the prefix gives the path below it |
| ApiPaths.OtherPathsStay | pkg/kubernetes/accesscontrol_round_tripper.go:219-234 | A path that is not below the prefix stays as it is, and the prefix itself becomes the root |
| ApiPaths.VerbsMatch | pkg/kubernetes/accesscontrol_round_tripper.go:280-310 | The verb is list or deletecollection exactly if no name was printed |
| ApiPaths.VerbsOfMethods | pkg/kubernetes/accesscontrol_round_tripper.go:280-300 | POST, PUT and PATCH have their verbs on every path, and an unknown method is its own verb |
| ApiPaths.NamespaceSubresourceIsMisread | pkg/kubernetes/accesscontrol_round_tripper.go:193-197 | A subresource of a Namespace is taken for a collection of another resource |
| ApiPaths.NamespaceStatusIsMisread | pkg/kubernetes/accesscontrol_round_tripper.go:193-197 | For example the status of a Namespace |
| Workspaces.Discovery.DiscoverWorkspacesRecursive | pkg/kcp/workspace.go:52-108 | Adds only workspaces below the parent, and leaves no child missing of the parent or of an added one |
| Workspaces.DiscoverAllWorkspaces | pkg/kcp/workspace.go:112-136 | Terminates with exactly the root and every workspace reachable through successful listings, each once |
| Workspaces.FoundLiesBelow | pkg/kcp/workspace.go:86-105 | Every workspace that is found lies below the root and was listed by its parent under a nonempty name |
| Workspaces.ParsingUndoesConstruction | pkg/kcp/workspace.go:25-47 | A constructed URL reads back if and only if the base is proper and the workspace has no trailing slash |
| Workspaces.UnmarkedUrlsHaveNoWorkspace | pkg/kcp/workspace.go:25-35 | A URL without the marker is a server without a workspace |
| Workspaces.ParsedBasesAreBases | pkg/kcp/workspace.go:65-70 | A base read from a workspace URL is proper for the URLs of all workspaces |
| Workspaces.ConstructionUndoesParsing | pkg/kcp/workspace.go:25-47 | A workspace URL is built again from its parts, but for a trailing slash |
| Charts.Config.Validate | pkg/helm/config.go:22-51 | Entries are normalised in place up to the first invalid one, the driver only after all entries; success exactly if all are valid |
| Charts.ValidEntriesAreRegistries | pkg/helm/config.go:26-38 | An entry is valid exactly if it is a URL with a host and one of the two schemes, in any case of letters |
| Charts.DriversIgnoreCase | pkg/helm/config.go:43-48 | A driver is valid exactly if it is empty or one of the two, in any case of letters |
| Charts.ValidateChartReference | pkg/helm/helm.go:144-176 | The search loop decides membership, and each of the five refusals has its exact cause |
| Charts.StringTestRefinesSegments | pkg/helm/helm.go:157-166 | The string test on normalised URLs is equality of scheme and host and a prefix test on path segments |
| Charts.AllowlistIsExact | pkg/helm/helm.go:144-176 | With a validated list a registry URL is allowed exactly if some configured entry covers its cleaned segments |
| Charts.UncleanEntriesCoverNothing | pkg/helm/config.go:39-41 | An entry with an empty or dot segment in its path allows nothing |
| Charts.CleaningIsIdempotent | pkg/helm/helm.go:157-160 | Cleaning a cleaned path changes nothing |
| Charts.UpUndoesDown | pkg/helm/helm.go:156-159 | A segment followed by ".." disappears anywhere in a path |
| Charts.NothingVanishes | pkg/helm/helm.go:156-159 | Empty and "." segments disappear anywhere in a path |
| Charts.RootIsTheTop | pkg/helm/helm.go:156-159 | A ".." at the root disappears |
| Charts.CleanKeepsClean | pkg/helm/helm.go:156-159 | A path without empty, "." and ".." segments stays as it is, so the four rules determine the cleaned path |
| Strings.SplitUndoesJoin | pkg/kubernetes/accesscontrol_round_tripper.go:185 | Splitting a joined path gives the parts back, if none has the separator in it |
| Strings.SplitIsFree | pkg/kubernetes/accesscontrol_round_tripper.go:185 | Joining a split path gives the path back |
| Strings.TrimUndoesPadding | pkg/kubernetes/accesscontrol_round_tripper.go:185 | Any number of surrounding slashes is cut off |
| Strings.LoweringForgetsCase | pkg/helm/helm.go:160 | Two texts have the same lower case exactly if they differ in the case of letters only |

## Left out

- Kubernetes, Helm, OIDC and telemetry calls, file reading, TOML, YAML and JSON decoding, signing and URL parsing are oracles that may fail.
- The MCP SDK is a map from names to items per category; singleflight, timers and `rate.Limiter` are modelled by what their documentation promises, the limiter over the reals.
- Metrics, tracing, log sanitising, tool and prompt definitions, and the text that they produce.
- The kubeconfig and workspace watchers, which repeat the cluster-state watcher with other inputs; a kubeconfig watcher without files behaves differently and is not covered.
- No claim is made that no callback runs after `Close` of a watcher: a tick that was already waiting can arm the timer again.
- Debounce: callbacks take no time and ticks are exact; a slow reload that overlaps a later tick is not modelled.
- Reload: the order in which one request reads the snapshot and then the configuration, which can fall on both sides of a signal, is not modelled.
- RateLimitProtocol.AdmissionsAreBounded: one limit and burst during the whole run, starting empty; RateLimitSettings.AdmissionsAreBoundedInPeriod is about changing ones.
- RateLimitSettings.AdmissionsAreBoundedInPeriod: requests that were looked up under an earlier setting are decided by the limiter of that setting, and are not counted in the period.
- LazyManagersProtocol.DroppedManagersAreClosedOnce: for the kubeconfig provider only, because the kcp provider closes no manager on reset.
- LazyManagers: the contents of the client and rest configurations that a kcp reset stores in its first stages, and the watchers that it replaces at the end.
- LazyManagersProtocol: the kcp provider reads its default workspace without the lock; the model reads it in one step at any moment, also during a reset, which leaves out torn reads.
- Assertions: the expiry inside a token is rounded to whole seconds by the signing library; the model has the expiry that the cache compares.
- Charts: `path.Clean` for rooted and empty paths only, which are the paths of URLs with a scheme; lower-casing is ASCII.
- Workspaces.DiscoverAllWorkspaces: the listing is a function for the duration of a discovery, and the workspaces are finitely many.
- Prompts.SimultaneousExactlyWithoutClash: templates where two opening braces stand for something else than a placeholder are excluded, because substitution can then form new placeholders. Argument names with braces and repeated names are not in the equivalence; repeated names are in Prompts.SequentialIsSimultaneous.
- ConfigTables: decoded files share no tables with each other, as the decoder makes them anew.
- The validators that `RoundTrip` calls and the request body that it restores, the choice of a signature algorithm, and the tables that Helm results are simplified to.
- The conversion of the workspace list of a kcp kubeconfig fallback, and the choice of a context for a workspace, which only add easy members.
