/**
 The per-target managers of pkg/kcp/provider.go and pkg/kubernetes/provider_kubeconfig.go: listed
 targets have no manager until somebody asks for it. These are the parts that run under the lock.
 */
module LazyManagers {
  import opened Wrappers

  /** A target that is listed without a manager maps to None. */
  type Table<M> = map<string, Option<M>>

  function Hit<M>(managers: Table<M>, target: string): Option<M> {
    if target in managers then managers[target] else None
  }

  /** kcp only makes managers for listed workspaces; the kubeconfig provider tries any context. */
  predicate MayCreate<M>(kcp: bool, managers: Table<M>, target: string) {
    !kcp || target in managers
  }

  function AfterReset<M>(default': string, m: M, targets: set<string>): (r: Table<M>)
    ensures r.Keys == targets + {default'} && r[default'] == Some(m)
    ensures forall t :: t in targets && t != default' ==> r[t] == None
  {
    (map t | t in targets :: None)[default' := Some(m)]
  }

  class Manager {
    const target: string
    var closed: nat

    constructor (target: string)
      ensures this.target == target && closed == 0
    {
      this.target := target;
      closed := 0;
    }

    method Close()
      modifies this
      ensures closed == old(closed) + 1
    {
      closed := closed + 1;
    }
  }

  /** How the first part of a reset goes: connecting and then reading the configuration can fail. */
  datatype Contexts = NotConnected | NotReadable | Read(current: string, contexts: set<string>) {
    /** Without a current context, the only one is the default. */
    predicate Default(name: string)
      requires Read?
    {
      if current == "" && |contexts| == 1 then contexts == {name} else name == current
    }
  }

  method DefaultOf(outcome: Contexts) returns (name: string)
    requires outcome.Read?
    ensures outcome.Default(name)
  {
    name := outcome.current;
    if name == "" && |outcome.contexts| == 1 {
      name :| name in outcome.contexts;
      OnlyOne(outcome.contexts, name);
    }
  }

  /** Where a reset can fail. The kubeconfig provider knows only AtConnect and AtListing. */
  datatype Stage = AtConfig | AtWorkspace | AtConnect | AtListing | AtDerive

  class Provider {
    const kcp: bool
    var managers: Table<Manager>
    var defaultTarget: string
    // The base URL of the kcp server.
    var server: string

    /** No manager in the table is closed, or there twice, and each is for its target: only the manager that a
        kubeconfig reset makes for its default target was made for whatever context is current. */
    ghost predicate Valid()
      reads this, set t | t in managers && managers[t].Some? :: managers[t].value
    {
      && (forall t :: t in managers && managers[t].Some? ==> managers[t].value.closed == 0)
      && (forall t, u :: t in managers && u in managers && t != u && managers[t].Some? ==> managers[t] != managers[u])
      && (forall t :: t in managers && managers[t].Some? ==>
            managers[t].value.target == t || (!kcp && t == defaultTarget && managers[t].value.target == ""))
    }

    constructor (kcp: bool)
      ensures Valid() && managers == map[] && this.kcp == kcp
    {
      this.kcp := kcp;
      managers, defaultTarget, server := map[], "", "";
    }

    /** The rest of a lookup once the lock is held: the table may have changed since it was read without it. */
    method ManagerForTarget(target: string, connects: bool) returns (r: Option<Manager>)
      requires Valid()
      modifies this`managers
      ensures Valid()
      ensures r.Some? <==> (target in old(managers) && old(managers)[target].Some?) || ((kcp ==> target in old(managers)) && connects)
      ensures managers == if Hit(old(managers), target).None? && r.Some? then old(managers)[target := r] else old(managers)
      ensures Hit(old(managers), target).Some? ==> r == Hit(old(managers), target)
      ensures Hit(old(managers), target).None? && r.Some? ==> fresh(r.value) && r.value.closed == 0 && r.value.target == target
      ensures r.Some? ==> r.value.target == target || (!kcp && target == defaultTarget && r.value.target == "")
    {
      if target in managers && managers[target].Some? {
        return managers[target];
      }
      if kcp && target !in managers {
        return None;
      }
      if !connects {
        return None;
      }
      var m := new Manager(target);
      managers := managers[target := Some(m)];
      return Some(m);
    }

    /** All or none are returned; managers that were made before a failure stay in the table. */
    method GetTargetManagers(names: seq<string>, connects: string -> bool) returns (r: Option<seq<Manager>>)
      requires Valid() && forall i :: 0 <= i < |names| ==> names[i] in managers
      modifies this`managers
      ensures Valid() && managers.Keys == old(managers.Keys)
      ensures forall t :: t in managers && old(managers)[t].Some? ==> managers[t] == old(managers)[t]
      ensures forall t :: t in managers && old(managers)[t].None? && managers[t].Some? ==> t in names && connects(t) && fresh(managers[t].value)
      ensures r.Some? ==> |r.value| == |names| && forall i :: 0 <= i < |names| ==> managers[names[i]] == Some(r.value[i])
      ensures r.None? <==> exists i :: 0 <= i < |names| && old(managers)[names[i]].None? && !connects(names[i])
      ensures r.Some? ==> forall i :: 0 <= i < |names| ==>
                r.value[i].target == names[i] || (!kcp && names[i] == defaultTarget && r.value[i].target == "")
    {
      var result: seq<Manager> := [];
      for i := 0 to |names|
        invariant Valid() && managers.Keys == old(managers.Keys)
        invariant forall t :: t in managers && old(managers)[t].Some? ==> managers[t] == old(managers)[t]
        invariant forall t :: t in managers && old(managers)[t].None? && managers[t].Some? ==> t in names && connects(t) && fresh(managers[t].value)
        invariant |result| == i && forall j :: 0 <= j < i ==> managers[names[j]] == Some(result[j])
        invariant forall j :: 0 <= j < i ==> old(managers)[names[j]].Some? || connects(names[j])
      {
        var m := ManagerForTarget(names[i], connects(names[i]));
        if m.None? {
          return None;
        }
        result := result + [m.value];
      }
      return Some(result);
    }

    method CloseAll()
      requires Valid()
      modifies set t | t in managers && managers[t].Some? :: managers[t].value
      ensures forall t :: t in managers && managers[t].Some? ==> managers[t].value.closed == 1
    {
      var rest := managers.Keys;
      while rest != {}
        invariant rest <= managers.Keys
        invariant forall t :: t in managers && managers[t].Some? ==> managers[t].value.closed == if t in rest then 0 else 1
      {
        var t :| t in rest;
        rest := rest - {t};
        if managers[t].Some? {
          managers[t].value.Close();
        }
      }
    }

    /**
     The reset of the kcp provider, in its own order: the server and the default workspace of the configuration are
     taken over before the steps that can still fail, the table is replaced before the last of them, and no manager is closed.
     */
    method ResetKcp(read: Option<(string, string)>, connects: bool, listing: Option<set<string>>, derives: bool) returns (err: Option<Stage>)
      requires Valid() && kcp
      modifies this
      ensures Valid()
      ensures err == (if read.None? then Some(AtConfig) else if read.value.1 == "" then Some(AtWorkspace)
                      else if !connects then Some(AtConnect) else if listing.None? then Some(AtListing)
                      else if !derives then Some(AtDerive) else None)
      ensures (server, defaultTarget) == if err == Some(AtConfig) then (old(server), old(defaultTarget)) else read.value
      ensures if err == None || err == Some(AtDerive)
              then exists m: Manager :: fresh(m) && m.target == defaultTarget && managers == AfterReset(defaultTarget, m, listing.value)
              else managers == old(managers)
    {
      if read.None? {
        return Some(AtConfig);
      }
      server, defaultTarget := read.value.0, read.value.1;
      if defaultTarget == "" {
        return Some(AtWorkspace);
      }
      if !connects {
        return Some(AtConnect);
      }
      var baseManager := new Manager(defaultTarget);
      if listing.None? {
        return Some(AtListing);
      }
      managers := AfterReset(defaultTarget, baseManager, listing.value);
      assert forall t :: t in managers && managers[t].Some? ==> t == defaultTarget;
      if !derives {
        return Some(AtDerive);
      }
      return None;
    }

    /** The reset of the kubeconfig provider changes nothing or replaces everything, closing each old manager once. */
    method Reset(outcome: Contexts) returns (made: Option<Manager>)
      requires Valid() && !kcp
      modifies this, set t | t in managers && managers[t].Some? :: managers[t].value
      ensures Valid()
      ensures made.None? <==> outcome.NotConnected?
      ensures made.Some? ==> fresh(made.value) && made.value.target == "" && made.value.closed == if outcome.Read? then 0 else 1
      ensures outcome.Read? && outcome.current != "" ==> defaultTarget == outcome.current
      ensures outcome.Read? && outcome.current == "" ==>
                if |outcome.contexts| == 1 then outcome.contexts == {defaultTarget} else defaultTarget == ""
      ensures outcome.Read? ==>
                && managers == AfterReset(defaultTarget, made.value, outcome.contexts)
                && outcome.Default(defaultTarget)
                && forall t :: t in old(managers) && old(managers)[t].Some? ==> old(managers)[t].value.closed == 1
      ensures !outcome.Read? ==> managers == old(managers) && defaultTarget == old(defaultTarget)
    {
      hide AfterReset;
      if outcome.NotConnected? {
        return None;
      }
      var m := new Manager("");
      if outcome.NotReadable? {
        m.Close();
        return Some(m);
      }
      var default' := DefaultOf(outcome);
      CloseAll();
      managers := AfterReset(default', m, outcome.contexts);
      defaultTarget := default';
      assert forall t :: t in managers && managers[t].Some? ==> t == default';
      return Some(m);
    }
  }

  lemma OnlyOne(s: set<string>, x: string)
    requires |s| == 1 && x in s
    ensures s == {x}
  {
    assert |s - {x}| == 0;
  }
}
