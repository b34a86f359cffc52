/**
 Any number of reloaders (SIGHUP, the kubeconfig watcher, the cluster-state watcher) run
 applyToolsets at the same time. Each SDK call and each access to a shared field is a step of
 its own; only reloadMu keeps reloaders apart.
 */
module HotReloadProtocol {
  import opened Wrappers
  import opened HotReload

  /** What one reloader remembers once its conversion has succeeded. */
  datatype Job = Job(candidate: Option<Configuration>, envs: seq<ProviderState>, cfg: Configuration, items: seq<seq<SdkItem>>)

  /** Where a reloader stands in applyToolsets; all but Idle and Waiting hold reloadMu. */
  datatype Pc =
    | Idle
    | Waiting(candidate: Option<Configuration>)
    | Locked(candidate: Option<Configuration>)
    | Collecting(candidate: Option<Configuration>, cfg: Configuration, envs: seq<ProviderState>, surface: seq<seq<ServerItem>>)
    | Snapshotting(job: Job)
    | Removing(job: Job, previous: seq<seq<string>>, kind: nat)
    | Adding(job: Job, previous: seq<seq<string>>, kind: nat, next: nat)
    | Publishing(job: Job)
    | Recording(job: Job)
    | Unlocking(candidate: Option<Configuration>, envs: seq<ProviderState>)

  /** `log` lists the requests served, in the order in which they released reloadMu. */
  datatype State = State(
    pub: Published,
    lock: Option<nat>,
    pcs: map<nat, Pc>,
    env: ProviderState,
    log: seq<Request>)

  datatype Action =
    | Call(reloader: nat, candidate: Option<Configuration>)
    | Advance(reloader: nat)
    | ProviderChanges(env: ProviderState)

  function PcOf(s: State, t: nat): Pc {
    if t in s.pcs then s.pcs[t] else Idle
  }

  function Goto(s: State, t: nat, pc: Pc): State {
    s.(pcs := s.pcs[t := pc])
  }

  /** One step inside the critical section: the new published state and program counter. */
  function Work(collect: Collector, pub: Published, env: ProviderState, pc: Pc): (Published, Pc)
    requires WellFormed(pub)
    ensures WellFormed(Work(collect, pub, env, pc).0)
  {
    match pc
    case Locked(candidate) => (pub, Collecting(candidate, candidate.GetOr(pub.configuration), [], []))
    case Collecting(candidate, cfg, envs, surface) =>
      if |surface| < KINDS then
        (pub, Collecting(candidate, cfg, envs + [env], surface + [collect(cfg, env, |surface|)]))
      else if SurfaceConverts(surface) then
        (pub, Snapshotting(Job(candidate, envs, cfg, ConvertedSurface(surface))))
      else
        (pub, Unlocking(candidate, envs))
    case Snapshotting(job) => (pub, Removing(job, pub.enabled, 0))
    case Removing(job, previous, kind) =>
      if kind < KINDS && kind < |job.items| && kind < |previous| then
        var kept := pub.sdk[kind] - Stale(previous[kind], job.items[kind]);
        (pub.(sdk := pub.sdk[kind := kept]), Adding(job, previous, kind, 0))
      else
        (pub, Publishing(job))
    case Adding(job, previous, kind, next) =>
      if kind < KINDS && kind < |job.items| && next < |job.items[kind]| then
        var item := job.items[kind][next];
        (pub.(sdk := pub.sdk[kind := pub.sdk[kind][item.name := item]]), Adding(job, previous, kind, next + 1))
      else
        (pub, Removing(job, previous, kind + 1))
    case Publishing(job) => (pub.(configuration := job.cfg), Recording(job))
    case Recording(job) =>
      if |job.items| == KINDS then
        (pub.(enabled := NamesOf(job.items)), Unlocking(job.candidate, job.envs))
      else
        (pub, pc)
    case _ => (pub, pc)
  }

  /** One step of reloader t; a reloader that waits for a held mutex does not move. */
  function Progress(collect: Collector, s: State, t: nat): State
    requires WellFormed(s.pub)
    ensures WellFormed(Progress(collect, s, t).pub)
  {
    var pc := PcOf(s, t);
    if pc.Idle? then s
    else if pc.Waiting? then
      if s.lock.None? then Goto(s, t, Locked(pc.candidate)).(lock := Some(t)) else s
    else if pc.Unlocking? then
      Goto(s, t, Idle).(lock := None, log := s.log + [Request(pc.candidate, pc.envs)])
    else
      var (pub, next) := Work(collect, s.pub, s.env, pc);
      Goto(s, t, next).(pub := pub)
  }

  function Step(collect: Collector, s: State, a: Action): State
    requires WellFormed(s.pub)
    ensures WellFormed(Step(collect, s, a).pub)
  {
    match a
    case Call(t, candidate) => if PcOf(s, t).Idle? then Goto(s, t, Waiting(candidate)) else s
    case Advance(t) => Progress(collect, s, t)
    case ProviderChanges(env) => s.(env := env)
  }

  /** The state after any interleaving of reloader steps and provider changes. */
  function Run(collect: Collector, s: State, actions: seq<Action>): State
    requires WellFormed(s.pub)
    ensures WellFormed(Run(collect, s, actions).pub)
  {
    if actions == [] then s
    else Step(collect, Run(collect, s, actions[..|actions| - 1]), actions[|actions| - 1])
  }

  /** A server that NewServer has just returned. */
  ghost predicate Init(collect: Collector, s: State, envs: seq<ProviderState>) {
    s.lock.None? && s.pcs == map[] && s.log == [] && Matches(collect, s.pub, envs)
  }

  // ----- the sequential reading of a log

  ghost predicate Complete(log: seq<Request>) {
    forall i :: 0 <= i < |log| ==> |log[i].envs| == KINDS
  }

  /** The requests served one at a time, each atomically. */
  ghost function Replay(collect: Collector, st: Published, log: seq<Request>): Published
    requires WellFormed(st) && Complete(log)
    ensures WellFormed(Replay(collect, st, log))
  {
    if log == [] then st
    else Reload(collect, Replay(collect, st, log[..|log| - 1]), log[|log| - 1])
  }

  // ----- what a reloader has done to the published state, by program counter

  ghost predicate JobFor(collect: Collector, base: Published, job: Job)
    requires WellFormed(base)
  {
    && |job.envs| == KINDS
    && job.cfg == Resolve(base, job.candidate)
    && Accepted(collect, base, Request(job.candidate, job.envs))
    && job.items == ConvertedSurface(Surface(collect, job.cfg, job.envs))
  }

  ghost function Committed(base: Published, job: Job, kinds: nat): seq<Registry>
    requires WellFormed(base) && |job.items| == KINDS && kinds <= KINDS
  {
    CommitAll(base.sdk, base.enabled, job.items)[..kinds] + base.sdk[kinds..]
  }

  ghost predicate HolderAt(collect: Collector, base: Published, pub: Published, pc: Pc)
    requires WellFormed(base) && WellFormed(pub)
  {
    match pc
    case Idle => false
    case Waiting(_) => false
    case Locked(_) => pub == base
    case Collecting(candidate, cfg, envs, surface) =>
      && pub == base && cfg == Resolve(base, candidate)
      && |surface| <= KINDS && surface == Surface(collect, cfg, envs)
    case Snapshotting(job) => pub == base && JobFor(collect, base, job)
    case Removing(job, previous, kind) =>
      && JobFor(collect, base, job) && previous == base.enabled && kind <= KINDS
      && pub == base.(sdk := Committed(base, job, kind))
    case Adding(job, previous, kind, next) =>
      && JobFor(collect, base, job) && previous == base.enabled && kind < KINDS && next <= |job.items[kind]|
      && pub == base.(sdk := Committed(base, job, kind)[kind :=
           (base.sdk[kind] - Stale(previous[kind], job.items[kind])) + LastBindings(job.items[kind][..next])])
    case Publishing(job) =>
      JobFor(collect, base, job) && pub == base.(sdk := Committed(base, job, KINDS))
    case Recording(job) =>
      JobFor(collect, base, job) && pub == Published(job.cfg, Committed(base, job, KINDS), base.enabled)
    case Unlocking(candidate, envs) =>
      |envs| == KINDS && pub == Reload(collect, base, Request(candidate, envs))
  }

  ghost predicate Outside(pc: Pc) {
    pc.Idle? || pc.Waiting?
  }

  /** Only the lock holder is inside, and what it has changed is a prefix of its own reload. */
  ghost predicate Inv(collect: Collector, init: Published, s: State) {
    && WellFormed(init) && WellFormed(s.pub) && Complete(s.log)
    && (forall t :: t in s.pcs && s.lock != Some(t) ==> Outside(s.pcs[t]))
    && (s.lock.None? ==> s.pub == Replay(collect, init, s.log))
    && (s.lock.Some? ==> HolderAt(collect, Replay(collect, init, s.log), s.pub, PcOf(s, s.lock.value)))
  }

  lemma RemoveStep(collect: Collector, base: Published, pub: Published, env: ProviderState, pc: Pc)
    requires WellFormed(base) && WellFormed(pub) && HolderAt(collect, base, pub, pc) && pc.Removing?
    ensures HolderAt(collect, base, Work(collect, pub, env, pc).0, Work(collect, pub, env, pc).1)
  {
    var Removing(job, previous, kind) := pc;
    if kind < KINDS {
      var kept := base.sdk[kind] - Stale(previous[kind], job.items[kind]);
      assert pub.sdk[kind] == base.sdk[kind];
      assert kept + LastBindings(job.items[kind][..0]) == kept;
      assert Work(collect, pub, env, pc).0.sdk == Committed(base, job, kind)[kind := kept];
    }
  }

  lemma AddStep(collect: Collector, base: Published, pub: Published, env: ProviderState, pc: Pc)
    requires WellFormed(base) && WellFormed(pub) && HolderAt(collect, base, pub, pc) && pc.Adding?
    ensures HolderAt(collect, base, Work(collect, pub, env, pc).0, Work(collect, pub, env, pc).1)
  {
    var Adding(job, previous, kind, next) := pc;
    var items := job.items[kind];
    var kept := base.sdk[kind] - Stale(previous[kind], items);
    if next < |items| {
      assert items[..next + 1][..next] == items[..next];
      assert kept + LastBindings(items[..next + 1]) == (kept + LastBindings(items[..next]))[items[next].name := items[next]];
      assert Work(collect, pub, env, pc).0.sdk == Committed(base, job, kind)[kind := kept + LastBindings(items[..next + 1])];
    } else {
      assert items[..next] == items;
      assert Committed(base, job, kind + 1) == pub.sdk;
    }
  }

  lemma WorkStep(collect: Collector, base: Published, pub: Published, env: ProviderState, pc: Pc)
    requires WellFormed(base) && WellFormed(pub) && HolderAt(collect, base, pub, pc) && !pc.Unlocking?
    ensures HolderAt(collect, base, Work(collect, pub, env, pc).0, Work(collect, pub, env, pc).1)
  {
    match pc
    case Locked(candidate) =>
      assert Surface(collect, Resolve(base, candidate), []) == [];
    case Collecting(candidate, cfg, envs, surface) =>
      if |surface| < KINDS {
        assert Surface(collect, cfg, envs + [env]) == surface + [collect(cfg, env, |surface|)];
      }
    case Snapshotting(job) =>
      assert Committed(base, job, 0) == base.sdk;
    case Removing(_, _, _) =>
      RemoveStep(collect, base, pub, env, pc);
    case Adding(_, _, _, _) =>
      AddStep(collect, base, pub, env, pc);
    case Publishing(job) =>
    case Recording(job) =>
      assert Committed(base, job, KINDS) == CommitAll(base.sdk, base.enabled, job.items);
  }

  lemma UnlockStep(collect: Collector, init: Published, s: State, t: nat)
    requires Inv(collect, init, s) && s.lock == Some(t) && PcOf(s, t).Unlocking?
    ensures Inv(collect, init, Progress(collect, s, t))
  {
    var s' := Progress(collect, s, t);
    assert s'.log[..|s.log|] == s.log;
    hide Reload;
  }

  lemma HolderStep(collect: Collector, init: Published, s: State, t: nat)
    requires Inv(collect, init, s) && s.lock == Some(t)
    ensures Inv(collect, init, Progress(collect, s, t))
  {
    if PcOf(s, t).Unlocking? {
      UnlockStep(collect, init, s, t);
    } else {
      var base := Replay(collect, init, s.log);
      assert !Outside(PcOf(s, t));
      WorkStep(collect, base, s.pub, s.env, PcOf(s, t));
      hide HolderAt, Work, Replay;
    }
  }

  lemma StepKeepsInv(collect: Collector, init: Published, s: State, a: Action)
    requires Inv(collect, init, s)
    ensures Inv(collect, init, Step(collect, s, a))
  {
    if a.Advance? && s.lock == Some(a.reloader) {
      HolderStep(collect, init, s, a.reloader);
    }
  }

  lemma {:induction false} RunKeepsInv(collect: Collector, s: State, envs: seq<ProviderState>, actions: seq<Action>)
    requires Init(collect, s, envs)
    ensures Inv(collect, s.pub, Run(collect, s, actions))
  {
    if actions != [] {
      var front := actions[..|actions| - 1];
      RunKeepsInv(collect, s, envs, front);
      StepKeepsInv(collect, s.pub, Run(collect, s, front), actions[|actions| - 1]);
    }
  }

  // ----- main results

  /** Whenever reloadMu is free, the server is as if the requests had been served one at a time,
      in the order in which they held the mutex. */
  lemma ReloadsAreSerialisable(collect: Collector, s: State, envs: seq<ProviderState>, actions: seq<Action>)
    requires Init(collect, s, envs)
    ensures var r := Run(collect, s, actions);
            Complete(r.log) && (r.lock.None? ==> r.pub == Replay(collect, s.pub, r.log))
  {
    RunKeepsInv(collect, s, envs, actions);
  }

  /** The provider states under which the last accepted request of a log was collected. */
  ghost function EnvsAfter(collect: Collector, st: Published, envs: seq<ProviderState>, log: seq<Request>): seq<ProviderState>
    requires WellFormed(st) && Complete(log)
  {
    if log == [] then envs
    else
      var front, last := log[..|log| - 1], log[|log| - 1];
      if Accepted(collect, Replay(collect, st, front), last) then last.envs else EnvsAfter(collect, st, envs, front)
  }

  lemma {:induction false} ReplayMatches(collect: Collector, st: Published, envs: seq<ProviderState>, log: seq<Request>)
    requires Matches(collect, st, envs) && Complete(log)
    ensures Matches(collect, Replay(collect, st, log), EnvsAfter(collect, st, envs, log))
  {
    if log != [] {
      var front, last := log[..|log| - 1], log[|log| - 1];
      ReplayMatches(collect, st, envs, front);
      var base := Replay(collect, st, front);
      if Accepted(collect, base, last) {
        MatchesCovered(collect, base, EnvsAfter(collect, st, envs, front));
        AcceptedMatches(collect, base, last);
      }
    }
  }

  /** Whenever reloadMu is free, each registry has exactly the names of the items that were collected for the
      installed configuration, each with the form of the last item of that name, and the enabled lists have these names. */
  lemma RegistriesMatchConfiguration(collect: Collector, s: State, envs: seq<ProviderState>, actions: seq<Action>)
    requires Init(collect, s, envs)
    ensures var r := Run(collect, s, actions);
            Complete(r.log) && (r.lock.None? ==>
                                  && Matches(collect, r.pub, EnvsAfter(collect, s.pub, envs, r.log))
                                  && ShowsItems(collect, r.pub, EnvsAfter(collect, s.pub, envs, r.log)))
  {
    RunKeepsInv(collect, s, envs, actions);
    var r := Run(collect, s, actions);
    ReplayMatches(collect, s.pub, envs, r.log);
    hide Run, Matches, ShowsItems;
    if r.lock.None? {
      MatchesShows(collect, r.pub, EnvsAfter(collect, s.pub, envs, r.log));
    }
  }

  /** The configuration of the last accepted request that brought one. */
  ghost function Installed(collect: Collector, st: Published, log: seq<Request>): Configuration
    requires WellFormed(st) && Complete(log)
  {
    if log == [] then st.configuration
    else
      var front, last := log[..|log| - 1], log[|log| - 1];
      if last.candidate.Some? && Accepted(collect, Replay(collect, st, front), last) then last.candidate.value
      else Installed(collect, st, front)
  }

  lemma {:induction false} ReplayInstalls(collect: Collector, st: Published, log: seq<Request>)
    requires WellFormed(st) && Complete(log)
    ensures Replay(collect, st, log).configuration == Installed(collect, st, log)
  {
    if log != [] {
      ReplayInstalls(collect, st, log[..|log| - 1]);
    }
  }

  /** The installed configuration is the last accepted candidate in lock order. */
  lemma LastCandidateIsInstalled(collect: Collector, s: State, envs: seq<ProviderState>, actions: seq<Action>)
    requires Init(collect, s, envs)
    ensures var r := Run(collect, s, actions);
            Complete(r.log) && (r.lock.None? ==> r.pub.configuration == Installed(collect, s.pub, r.log))
  {
    RunKeepsInv(collect, s, envs, actions);
    ReplayInstalls(collect, s.pub, Run(collect, s, actions).log);
  }

  /** A re-apply never changes which configuration is installed: a step that changes it belongs
      to the lock holder, and installs the candidate that this very holder was called with. */
  lemma OnlyCandidatesAreInstalled(collect: Collector, s: State, envs: seq<ProviderState>, actions: seq<Action>, a: Action)
    requires Init(collect, s, envs)
    ensures var r := Run(collect, s, actions);
            var after := Step(collect, r, a);
            after.pub.configuration != r.pub.configuration ==>
              && a.Advance? && r.lock == Some(a.reloader) && PcOf(r, a.reloader).Publishing?
              && PcOf(r, a.reloader).job.candidate == Some(after.pub.configuration)
  {
    RunKeepsInv(collect, s, envs, actions);
    var r := Run(collect, s, actions);
    hide Run, Init;
    if a.Advance? && Step(collect, r, a).pub.configuration != r.pub.configuration {
      OnlyPublishingInstalls(collect, s.pub, r, a.reloader);
    }
  }

  lemma OnlyPublishingInstalls(collect: Collector, init: Published, s: State, t: nat)
    requires Inv(collect, init, s) && Progress(collect, s, t).pub.configuration != s.pub.configuration
    ensures s.lock == Some(t) && PcOf(s, t).Publishing?
    ensures PcOf(s, t).job.candidate == Some(Progress(collect, s, t).pub.configuration)
  {
    var pc := PcOf(s, t);
    assert pc.Publishing? && s.lock == Some(t);
    hide Replay, Committed, Accepted, Surface;
    assert JobFor(collect, Replay(collect, init, s.log), pc.job);
  }

  /** The converted items of a request, served on top of `base`. */
  ghost function ItemsOf(collect: Collector, base: Published, req: Request): (items: seq<seq<SdkItem>>)
    requires WellFormed(base) && |req.envs| == KINDS && Accepted(collect, base, req)
    ensures |items| == KINDS
  {
    ConvertedSurface(Surface(collect, Resolve(base, req.candidate), req.envs))
  }

  /** The registries while one of them is being committed: those before it are done, those after it are as they
      were, and this one has lost its stale names and has the first `next` of its new items. */
  ghost predicate Midway(base: Published, items: seq<seq<SdkItem>>, sdk: seq<Registry>, kind: nat, next: nat)
    requires WellFormed(base) && |items| == KINDS
  {
    && |sdk| == KINDS && kind < KINDS && next <= |items[kind]|
    && (forall k :: 0 <= k < kind ==> sdk[k] == Commit(base.sdk[k], base.enabled[k], items[k]))
    && sdk[kind] == (base.sdk[kind] - Stale(base.enabled[kind], items[kind])) + LastBindings(items[kind][..next])
    && (forall k :: kind < k < KINDS ==> sdk[k] == base.sdk[k])
  }

  /** What a reload of an accepted request shows on its way: registry by registry and item by item, then its
      configuration once all registries are done, and its lists of names last. */
  ghost predicate PartOf(collect: Collector, base: Published, pub: Published, req: Request)
    requires WellFormed(base)
  {
    && |req.envs| == KINDS && Accepted(collect, base, req)
    && var done := Reload(collect, base, req);
       || (pub == base.(sdk := pub.sdk) && exists kind, next :: Midway(base, ItemsOf(collect, base, req), pub.sdk, kind, next))
       || pub == done.(enabled := base.enabled)
       || pub == done
  }

  /** The request that a reloader is serving, once all of its items have converted or one has not. */
  ghost function ServedBy(pc: Pc): Request {
    match pc
    case Removing(job, _, _) => Request(job.candidate, job.envs)
    case Adding(job, _, _, _) => Request(job.candidate, job.envs)
    case Publishing(job) => Request(job.candidate, job.envs)
    case Recording(job) => Request(job.candidate, job.envs)
    case Unlocking(candidate, envs) => Request(candidate, envs)
    case _ => Request(None, [])
  }

  ghost predicate ShowsOnlyAccepted(collect: Collector, base: Published, s: State)
    requires WellFormed(base)
  {
    s.pub != base ==> s.lock.Some? && PartOf(collect, base, s.pub, ServedBy(PcOf(s, s.lock.value)))
  }

  lemma CommittedAt(base: Published, job: Job, kind: nat)
    requires WellFormed(base) && |job.items| == KINDS && kind <= KINDS
    ensures |Committed(base, job, kind)| == KINDS
    ensures forall k :: 0 <= k < kind ==> Committed(base, job, kind)[k] == Commit(base.sdk[k], base.enabled[k], job.items[k])
    ensures forall k :: kind <= k < KINDS ==> Committed(base, job, kind)[k] == base.sdk[k]
  {
    hide Commit;
  }

  lemma AddingIsMidway(collect: Collector, base: Published, pub: Published, pc: Pc)
    requires WellFormed(base) && WellFormed(pub) && HolderAt(collect, base, pub, pc) && pc.Adding?
    ensures Midway(base, pc.job.items, pub.sdk, pc.kind, pc.next) && pub == base.(sdk := pub.sdk)
  {
    CommittedAt(base, pc.job, pc.kind);
    hide Committed, JobFor, Commit, LastBindings, Stale;
  }

  lemma CommittedIsMidway(base: Published, job: Job, kind: nat)
    requires WellFormed(base) && |job.items| == KINDS && kind < KINDS
    ensures Midway(base, job.items, Committed(base, job, kind + 1), kind, |job.items[kind]|)
  {
    CommittedAt(base, job, kind + 1);
    assert job.items[kind][..|job.items[kind]|] == job.items[kind];
    hide Committed, LastBindings, Stale;
  }

  lemma MidwayIsPart(collect: Collector, base: Published, pub: Published, job: Job, kind: nat, next: nat)
    requires WellFormed(base) && JobFor(collect, base, job) && pub == base.(sdk := pub.sdk)
    requires Midway(base, job.items, pub.sdk, kind, next)
    ensures PartOf(collect, base, pub, Request(job.candidate, job.envs))
  {
    hide Midway, Accepted, Reload, Surface;
    assert Midway(base, ItemsOf(collect, base, Request(job.candidate, job.envs)), pub.sdk, kind, next);
  }

  lemma HolderShowsItsPart(collect: Collector, base: Published, pub: Published, pc: Pc)
    requires WellFormed(base) && WellFormed(pub) && HolderAt(collect, base, pub, pc) && pub != base
    ensures PartOf(collect, base, pub, ServedBy(pc)) && Committing(pc)
  {
    if pc.Unlocking? {
      assert pub == Reload(collect, base, ServedBy(pc));
      hide Midway;
    } else if pc.Recording? {
      assert Committed(base, pc.job, KINDS) == CommitAll(base.sdk, base.enabled, pc.job.items);
      hide Midway;
    } else if pc.Adding? {
      AddingIsMidway(collect, base, pub, pc);
      assert JobFor(collect, base, pc.job);
      hide HolderAt, Midway, PartOf, JobFor;
      MidwayIsPart(collect, base, pub, pc.job, pc.kind, pc.next);
    } else {
      var kind := if pc.Removing? then pc.kind else KINDS;
      assert Committed(base, pc.job, 0) == base.sdk;
      CommittedIsMidway(base, pc.job, kind - 1);
      assert JobFor(collect, base, pc.job) && pub == base.(sdk := Committed(base, pc.job, kind));
      hide HolderAt, Midway, PartOf, JobFor;
      MidwayIsPart(collect, base, pub, pc.job, kind - 1, |pc.job.items[kind - 1]|);
    }
  }

  /** At every instant, what readers can see is what the last served request left, or a part of the very reload
      that the holder of reloadMu is in, and whose whole surface has already converted. */
  lemma ReadersSeeOnlyAcceptedWork(collect: Collector, s: State, envs: seq<ProviderState>, actions: seq<Action>)
    requires Init(collect, s, envs)
    ensures var r := Run(collect, s, actions);
            Complete(r.log) && ShowsOnlyAccepted(collect, Replay(collect, s.pub, r.log), r)
  {
    RunKeepsInv(collect, s, envs, actions);
    var r := Run(collect, s, actions);
    var base := Replay(collect, s.pub, r.log);
    hide HolderAt, PartOf, Run;
    if r.pub != base {
      HolderShowsItsPart(collect, base, r.pub, PcOf(r, r.lock.value));
    }
  }

  ghost predicate Committing(pc: Pc) {
    pc.Removing? || pc.Adding? || pc.Publishing? || pc.Recording? || pc.Unlocking?
  }

  /** The request that a holder is serving is the one that it logs when it gives reloadMu up. */
  ghost predicate StillServing(r: State, t: nat, req: Request, e: State) {
    if |e.log| <= |r.log| then
      e.log == r.log && e.lock == Some(t) && Committing(PcOf(e, t)) && ServedBy(PcOf(e, t)) == req
    else e.log[|r.log|] == req
  }

  lemma ServingStep(collect: Collector, init: Published, r: State, t: nat, req: Request, e: State, a: Action)
    requires Inv(collect, init, e) && StillServing(r, t, req, e)
    ensures StillServing(r, t, req, Step(collect, e, a))
  {
    hide Replay, HolderAt, LastBindings, Stale;
    if e.lock.Some? && !Committing(PcOf(e, e.lock.value)) {
      hide Work;
    }
  }

  lemma {:induction false} ServedIsLogged(collect: Collector, init: Published, r: State, t: nat, req: Request, more: seq<Action>)
    requires Inv(collect, init, r) && r.lock == Some(t) && Committing(PcOf(r, t)) && ServedBy(PcOf(r, t)) == req
    ensures Inv(collect, init, Run(collect, r, more)) && StillServing(r, t, req, Run(collect, r, more))
  {
    assert WellFormed(r.pub);
    hide Inv, StillServing;
    if more == [] {
      StartsServing(r, t, req);
    } else {
      var front, a := more[..|more| - 1], more[|more| - 1];
      ServedIsLogged(collect, init, r, t, req, front);
      StepKeepsInv(collect, init, Run(collect, r, front), a);
      ServingStep(collect, init, r, t, req, Run(collect, r, front), a);
    }
  }

  lemma StartsServing(r: State, t: nat, req: Request)
    requires r.lock == Some(t) && Committing(PcOf(r, t)) && ServedBy(PcOf(r, t)) == req
    ensures StillServing(r, t, req, r)
  {
  }

  /** If the request that is logged next is one that cannot be accepted, then readers see at this instant just what
      the last served request left: at no moment of its service does a rejected request show anything. */
  lemma RejectedReloadsAreInvisible(collect: Collector, s: State, envs: seq<ProviderState>, actions: seq<Action>, more: seq<Action>)
    requires Init(collect, s, envs)
    requires var r := Run(collect, s, actions);
             var e := Run(collect, r, more);
             Complete(r.log) && |e.log| > |r.log| && !Accepted(collect, Replay(collect, s.pub, r.log), e.log[|r.log|])
    ensures var r := Run(collect, s, actions);
            r.pub == Replay(collect, s.pub, r.log)
  {
    RunKeepsInv(collect, s, envs, actions);
    var r := Run(collect, s, actions);
    var base := Replay(collect, s.pub, r.log);
    hide HolderAt, Run, Accepted, Replay;
    if r.pub != base {
      var t := r.lock.value;
      HolderShowsItsPart(collect, base, r.pub, PcOf(r, t));
      ServedIsLogged(collect, s.pub, r, t, ServedBy(PcOf(r, t)), more);
    }
  }

  ghost function EnvsOf(pc: Pc): seq<ProviderState> {
    match pc
    case Collecting(_, _, envs, _) => envs
    case Snapshotting(job) => job.envs
    case Removing(job, _, _) => job.envs
    case Adding(job, _, _, _) => job.envs
    case Publishing(job) => job.envs
    case Recording(job) => job.envs
    case Unlocking(_, envs) => envs
    case _ => []
  }

  /** Every surface of the log, and every surface being collected, stems from states in `seen`. */
  ghost predicate OnlyFrom(s: State, seen: set<ProviderState>) {
    && s.env in seen
    && (forall i :: 0 <= i < |s.log| ==> All(s.log[i].envs, seen))
    && (forall t :: t in s.pcs ==> All(EnvsOf(s.pcs[t]), seen))
  }

  ghost predicate All(envs: seq<ProviderState>, seen: set<ProviderState>) {
    forall i :: 0 <= i < |envs| ==> envs[i] in seen
  }

  /** Every surface was collected from states the provider really had. */
  lemma {:induction false} OnlySeenStatesAreCollected(collect: Collector, s: State, envs: seq<ProviderState>, actions: seq<Action>)
    requires Init(collect, s, envs)
    ensures OnlyFrom(Run(collect, s, actions), {s.env} + set a | a in actions && a.ProviderChanges? :: a.env)
  {
    if actions != [] {
      var front, a := actions[..|actions| - 1], actions[|actions| - 1];
      OnlySeenStatesAreCollected(collect, s, envs, front);
      var seenBefore := {s.env} + set x | x in front && x.ProviderChanges? :: x.env;
      var seen := {s.env} + set x | x in actions && x.ProviderChanges? :: x.env;
      assert actions == front + [a];
      assert seenBefore <= seen && (a.ProviderChanges? ==> a.env in seen);
      OnlyFromGrows(collect, Run(collect, s, front), a, seenBefore, seen);
    }
  }

  lemma OnlyFromGrows(collect: Collector, s: State, a: Action, seenBefore: set<ProviderState>, seen: set<ProviderState>)
    requires WellFormed(s.pub) && OnlyFrom(s, seenBefore) && seenBefore <= seen
    requires a.ProviderChanges? ==> a.env in seen
    ensures OnlyFrom(Step(collect, s, a), seen)
  {
    var s' := Step(collect, s, a);
    if a.Advance? {
      assert All(EnvsOf(PcOf(s, a.reloader)), seen);
      if !PcOf(s', a.reloader).Idle? {
        WorkCollects(collect, s.pub, s.env, PcOf(s, a.reloader), seen);
      }
    }
  }

  lemma WorkCollects(collect: Collector, pub: Published, env: ProviderState, pc: Pc, seen: set<ProviderState>)
    requires WellFormed(pub) && All(EnvsOf(pc), seen) && env in seen
    ensures All(EnvsOf(Work(collect, pub, env, pc).1), seen)
  {
  }
}
