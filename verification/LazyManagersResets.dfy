/**
 What the resets of the kcp and kubeconfig providers leave behind when they fail, and whether the
 default target is in the table afterwards: LazyManagersProtocol has the steps.
 */
module LazyManagersResets {
  import opened Wrappers
  import opened LazyManagers
  import opened LazyManagersProtocol

  // ----- what resets leave behind

  /** The default target that was taken over last. */
  function LastDefault(resets: seq<Reset>): string {
    if resets == [] then ""
    else
      var last := resets[|resets| - 1];
      if last.taken.Some? then last.taken.value.defaultTarget else LastDefault(resets[..|resets| - 1])
  }

  /** The targets that were found last. */
  function LastFound(resets: seq<Reset>): set<string> {
    if resets == [] then {}
    else
      var last := resets[|resets| - 1];
      if last.found.Some? then last.found.value else LastFound(resets[..|resets| - 1])
  }

  /** No default target was taken over since the table was replaced. */
  predicate Settled(resets: seq<Reset>) {
    if resets == [] then false
    else
      var last := resets[|resets| - 1];
      last.found.Some? || (last.taken.None? && Settled(resets[..|resets| - 1]))
  }

  /** Where a reset can fail, and what it has changed by then. */
  ghost predicate Right(kcp: bool, r: Reset) {
    r.failedAt.Some? ==>
      && (if kcp then r.taken.None? <==> r.failedAt.value.AtConfig? else r.failedAt.value.AtConnect? || r.failedAt.value.AtListing?)
      && (r.taken.Some? ==> r.taken.value == Taken(r.after.server, r.after.defaultTarget))
      && (!kcp || r.taken.None? ==> r.after == r.before)
      && (kcp ==> (r.after.table == r.before.table <==> !r.failedAt.value.AtDerive?))
      && (r.failedAt.value.AtDerive? ==> Hit(r.after.table, r.after.defaultTarget).Some?)
  }

  ghost function HolderPc(s: State): Pc {
    if s.exclusive.Some? then PcOf(s, s.exclusive.value) else Idle
  }

  /** The default target has a manager: it is what lookups of the kubeconfig provider start from. */
  ghost predicate DefaultHeld(kcp: bool, s: State) {
    !kcp || Settled(s.resets) ==> Hit(s.table, s.defaultTarget).Some?
  }

  ghost predicate AtRest(kcp: bool, s: State) {
    s.defaultTarget == LastDefault(s.resets) && s.listed == LastFound(s.resets) && DefaultHeld(kcp, s)
  }

  /** How far the holder of the lock has come with a reset. */
  ghost predicate Halfway(kcp: bool, s: State, pc: Pc) {
    match pc
    case Configuring(before) => kcp && before == RegistersOf(s) && AtRest(kcp, s)
    case Connecting(before, taken) => Underway(kcp, s, before, taken)
    case Listing(before, taken, _) => Underway(kcp, s, before, taken)
    case Deriving(before, taken) =>
      && kcp && taken == Some(Taken(s.server, s.defaultTarget))
      && s.table != before.table && Hit(s.table, s.defaultTarget).Some?
    case _ => AtRest(kcp, s)
  }

  ghost predicate Underway(kcp: bool, s: State, before: Registers, taken: Option<Taken>) {
    && before.table == s.table && s.listed == LastFound(s.resets)
    && (if kcp then taken == Some(Taken(s.server, s.defaultTarget)) else taken == None && before == RegistersOf(s) && AtRest(kcp, s))
  }

  ghost predicate AllRight(kcp: bool, s: State) {
    forall i :: 0 <= i < |s.resets| ==> Right(kcp, s.resets[i])
  }

  ghost predicate LogInv(kcp: bool, s: State) {
    AllRight(kcp, s) && Halfway(kcp, s, HolderPc(s))
  }

  /** Whoever is outside can come and go. */
  lemma OutsideKeepsLog(kcp: bool, s: State, s': State)
    requires LogInv(kcp, s)
    requires s'.table == s.table && RegistersOf(s') == RegistersOf(s) && s'.listed == s.listed && s'.resets == s.resets
    requires HolderPc(s') == HolderPc(s)
    ensures LogInv(kcp, s')
  {
    hide Right, LastDefault, LastFound, Settled;
  }

  /** Between resets a lookup can only add a manager. */
  lemma InsideKeepsLog(kcp: bool, s: State, s': State)
    requires LogInv(kcp, s) && AtRest(kcp, s)
    requires s'.defaultTarget == s.defaultTarget && s'.listed == s.listed && s'.resets == s.resets
    requires Hit(s.table, s.defaultTarget).Some? ==> Hit(s'.table, s'.defaultTarget).Some?
    requires var pc := HolderPc(s'); !InReset(pc)
    ensures LogInv(kcp, s')
  {
    hide Right, LastDefault, LastFound, Settled;
  }

  predicate InReset(pc: Pc) {
    pc.Configuring? || pc.Connecting? || pc.Listing? || pc.Deriving?
  }

  /** What the log says after one more reset. */
  lemma LogGrows(kcp: bool, s: State, before: Registers, failedAt: Option<Stage>, taken: Option<Taken>)
    requires AllRight(kcp, s)
    ensures var s' := Log(s, before, failedAt, taken);
            var last := s'.resets[|s.resets|];
            && last.before == before && last.after == RegistersOf(s) && last.failedAt == failedAt && last.taken == taken
            && last.found == (if failedAt == None || failedAt == Some(AtDerive) then Some(s.listed) else None)
            && (Right(kcp, last) ==> AllRight(kcp, s'))
            && LastDefault(s'.resets) == (if taken.Some? then taken.value.defaultTarget else LastDefault(s.resets))
            && LastFound(s'.resets) == (if last.found.Some? then s.listed else LastFound(s.resets))
            && (Settled(s'.resets) <==> last.found.Some? || (taken.None? && Settled(s.resets)))
  {
    hide Right;
    var s' := Log(s, before, failedAt, taken);
    assert s'.resets[..|s.resets|] == s.resets;
  }

  /** A reset that returns with the right outcome leaves the log right. */
  lemma ReturnKeepsLog(kcp: bool, s: State, s1: State, t: nat, before: Registers, failedAt: Option<Stage>, taken: Option<Taken>)
    requires AllRight(kcp, s) && s1.resets == s.resets
    requires Right(kcp, Reset(before, RegistersOf(s1), failedAt, taken, if failedAt == None || failedAt == Some(AtDerive) then Some(s1.listed) else None))
    requires s1.defaultTarget == if taken.Some? then taken.value.defaultTarget else LastDefault(s.resets)
    requires failedAt == None || failedAt == Some(AtDerive) || s1.listed == LastFound(s.resets)
    requires !kcp || failedAt == None || failedAt == Some(AtDerive) || (taken.None? && Settled(s.resets)) ==> Hit(s1.table, s1.defaultTarget).Some?
    ensures LogInv(kcp, Release(Log(s1, before, failedAt, taken), t))
  {
    hide Right, LastDefault, LastFound, Settled;
    LogGrows(kcp, s1, before, failedAt, taken);
    var s' := Release(Log(s1, before, failedAt, taken), t);
    assert HolderPc(s') == Idle;
  }

  /** The table that a reset puts in place is a new one: its manager was not in the old one. */
  lemma InstallIsNew(kcp: bool, s: State, id: nat, default': string, targets: set<string>)
    requires Core(kcp, s, Some(id))
    ensures var s' := Install(kcp, s, id, default', targets);
            s'.table != s.table && Hit(s'.table, default') == Some(id)
  {
    var s' := Install(kcp, s, id, default', targets);
    assert s'.table[default'] == Some(id);
    if s'.table == s.table {
      assert false;
    }
  }

  lemma ResetStepKeepsLog(kcp: bool, s: State, t: nat, connects: bool, reading: Reading)
    requires Inv(kcp, s) && LogInv(kcp, s) && InReset(PcOf(s, t))
    ensures LogInv(kcp, ResetStep(kcp, s, t, connects, reading))
  {
    hide TableInv, ClosesInv, ListedInv, Core, PcsInv, LastDefault, LastFound, Settled, AfterReset, ClosedOnce, Log, AllRight, Inv;
    HolderIsInside(kcp, s, t);
    var pc := PcOf(s, t);
    assert Halfway(kcp, s, pc) && AllRight(kcp, s);
    match pc
    case Configuring(before) => ConfigureKeepsLog(kcp, s, t, connects, reading);
    case Connecting(before, taken) =>
      if connects {
        assert HolderPc(Goto(Make(s), t, Listing(before, taken, |s.made|))) == Listing(before, taken, |s.made|);
        SameLog(kcp, s, Goto(Make(s), t, Listing(before, taken, |s.made|)));
      } else {
        ReturnKeepsLog(kcp, s, s, t, before, Some(AtConnect), taken);
      }
    case Listing(before, taken, id) => ListKeepsLog(kcp, s, t, connects, reading);
    case Deriving(before, taken) =>
      ReturnKeepsLog(kcp, s, s, t, before, if connects then None else Some(AtDerive), taken);
  }

  lemma SameLog(kcp: bool, s: State, s': State)
    requires s'.resets == s.resets
    ensures AllRight(kcp, s') <==> AllRight(kcp, s)
  {
    hide Right;
  }

  lemma ConfigureKeepsLog(kcp: bool, s: State, t: nat, connects: bool, reading: Reading)
    requires Inv(kcp, s) && LogInv(kcp, s) && PcOf(s, t).Configuring?
    ensures LogInv(kcp, ResetStep(kcp, s, t, connects, reading))
  {
    hide TableInv, ClosesInv, ListedInv, Core, PcsInv, LastDefault, LastFound, Settled, Log, AllRight, Inv;
    HolderIsInside(kcp, s, t);
    var before := PcOf(s, t).before;
    match reading
    case Unreadable => ReturnKeepsLog(kcp, s, s, t, before, Some(AtConfig), None);
    case Readable(server, default', _) =>
      var taken := Some(Taken(server, default'));
      var s1 := TakeOver(s, server, default');
      if default' == "" {
        ReturnKeepsLog(kcp, s, s1, t, before, Some(AtWorkspace), taken);
      } else {
        SameLog(kcp, s, Goto(s1, t, Connecting(before, taken)));
      }
  }

  lemma ListKeepsLog(kcp: bool, s: State, t: nat, connects: bool, reading: Reading)
    requires Inv(kcp, s) && LogInv(kcp, s) && PcOf(s, t).Listing?
    ensures LogInv(kcp, ResetStep(kcp, s, t, connects, reading))
  {
    hide TableInv, ClosesInv, ListedInv, Core, PcsInv, LastDefault, LastFound, Settled, AfterReset, ClosedOnce, Log, AllRight, Inv;
    HolderIsInside(kcp, s, t);
    var before, taken, id := PcOf(s, t).before, PcOf(s, t).taken, PcOf(s, t).id;
    match reading
    case Unreadable => ReturnKeepsLog(kcp, s, Discard(kcp, s, id), t, before, Some(AtListing), taken);
    case Readable(_, default', targets) =>
      if kcp {
        InstallIsNew(kcp, s, id, s.defaultTarget, targets);
        SameLog(kcp, s, Goto(Install(kcp, s, id, s.defaultTarget, targets), t, Deriving(before, taken)));
      } else {
        InstallIsNew(kcp, s, id, default', targets);
        var s1 := TakeOver(Install(kcp, s, id, default', targets), s.server, default');
        ReturnKeepsLog(kcp, s, s1, t, before, None, Some(Taken(s.server, default')));
      }
  }

  lemma ProgressKeepsLog(kcp: bool, s: State, t: nat, connects: bool, reading: Reading)
    requires Inv(kcp, s) && LogInv(kcp, s)
    ensures LogInv(kcp, Progress(kcp, s, t, connects, reading))
  {
    hide TableInv, ClosesInv, ListedInv, Core, PcsInv, LastDefault, LastFound, Settled, AllRight, ResetStep, Inv, LogInv;
    var pc, s' := PcOf(s, t), Progress(kcp, s, t, connects, reading);
    if InReset(pc) {
      ResetStepKeepsLog(kcp, s, t, connects, reading);
    } else if Inside(pc) {
      HolderIsInside(kcp, s, t);
      AtRestMeans(kcp, s);
      InsideKeepsLog(kcp, s, s');
    } else {
      OutsiderKeepsLog(kcp, s, t, connects, reading);
    }
  }

  lemma AtRestMeans(kcp: bool, s: State)
    requires LogInv(kcp, s) && !InReset(HolderPc(s))
    ensures AtRest(kcp, s)
  {
  }

  lemma OutsiderKeepsLog(kcp: bool, s: State, t: nat, connects: bool, reading: Reading)
    requires Inv(kcp, s) && LogInv(kcp, s) && !Inside(PcOf(s, t))
    ensures LogInv(kcp, Progress(kcp, s, t, connects, reading))
  {
    hide TableInv, ClosesInv, ListedInv, Core, PcsInv, LastDefault, LastFound, Settled, AllRight, ResetStep, LogInv;
    var s' := Progress(kcp, s, t, connects, reading);
    assert s.exclusive != Some(t);
    if s'.exclusive == s.exclusive {
      OutsideKeepsLog(kcp, s, s');
    } else {
      AtRestMeans(kcp, s);
      InsideKeepsLog(kcp, s, s');
    }
  }

  lemma StepKeepsLog(kcp: bool, s: State, a: Action)
    requires Inv(kcp, s) && LogInv(kcp, s)
    ensures LogInv(kcp, Step(kcp, s, a))
  {
    hide TableInv, ClosesInv, ListedInv, Core, PcsInv, LastDefault, LastFound, Settled, AllRight, ResetStep, LogInv, Progress, Halfway;
    match a
    case Advance(t, connects, reading) => ProgressKeepsLog(kcp, s, t, connects, reading);
    case Ask(t, target) => OutsideKeepsLog(kcp, s, Step(kcp, s, a));
    case AskAll(t, order) =>
      if s.exclusive == None {
        AtRestMeans(kcp, s);
        InsideKeepsLog(kcp, s, Step(kcp, s, a));
      }
    case CallReset(t) => CallKeepsLog(kcp, s, t);
  }

  lemma CallKeepsLog(kcp: bool, s: State, t: nat)
    requires LogInv(kcp, s)
    ensures LogInv(kcp, Step(kcp, s, CallReset(t)))
  {
    hide LastDefault, LastFound, Settled, AllRight;
    var s' := Step(kcp, s, CallReset(t));
    if s' != s {
      AtRestMeans(kcp, s);
      SameLog(kcp, s, s');
    }
  }

  lemma {:induction false} RunKeepsLog(kcp: bool, server: string, default': string, targets: set<string>, actions: seq<Action>)
    ensures Inv(kcp, Run(kcp, Start(server, default', targets), actions)) && LogInv(kcp, Run(kcp, Start(server, default', targets), actions))
  {
    hide Inv, LogInv, Step, Start;
    RunKeepsInv(kcp, server, default', targets, actions);
    if actions == [] {
      StartLog(kcp, server, default', targets);
    } else {
      var before := actions[..|actions| - 1];
      RunKeepsLog(kcp, server, default', targets, before);
      StepKeepsLog(kcp, Run(kcp, Start(server, default', targets), before), actions[|actions| - 1]);
    }
  }

  lemma StartLog(kcp: bool, server: string, default': string, targets: set<string>)
    ensures LogInv(kcp, Start(server, default', targets))
  {
  }

  // ----- the log tells what happened

  ghost function At(kcp: bool, start: State, actions: seq<Action>, i: nat): State
    requires i <= |actions|
  {
    Run(kcp, start, actions[..i])
  }

  /** At this moment the caller is inside a reset, and so many have returned. */
  ghost predicate Resetting(kcp: bool, start: State, actions: seq<Action>, i: nat, t: nat, done: nat) {
    i <= |actions| && var s := At(kcp, start, actions, i); s.exclusive == Some(t) && InReset(PcOf(s, t)) && |s.resets| == done
  }

  /** At this moment the caller calls a reset, finds the lock free and the registers as given. */
  ghost predicate Calls(kcp: bool, start: State, actions: seq<Action>, i: nat, t: nat, registers: Registers) {
    i < |actions| && actions[i] == CallReset(t) && At(kcp, start, actions, i).exclusive == None
    && RegistersOf(At(kcp, start, actions, i)) == registers
  }

  /** The step at this moment gives the caller's lock up, leaves the registers of the record, and adds it to the log. */
  ghost predicate Returns(kcp: bool, start: State, actions: seq<Action>, j: nat, t: nat, done: nat, r: Reset) {
    j < |actions| && var s := At(kcp, start, actions, j + 1);
    s.exclusive == None && PcOf(s, t).Idle? && |s.resets| == done + 1 && s.resets[done] == r && RegistersOf(s) == r.after
  }

  /** The call of a reset that has held the lock ever since, up to moment j. */
  ghost predicate HeldFrom(kcp: bool, start: State, actions: seq<Action>, i: nat, j: nat, t: nat, done: nat, before: Registers) {
    i < j && Calls(kcp, start, actions, i, t, before) && forall m: nat :: i < m <= j ==> Resetting(kcp, start, actions, m, t, done)
  }

  /** The record at this place of the log is about the reset that one caller was in from the moment it took the lock
      to the moment it gave it up, and has the registers of these two moments. */
  ghost predicate Spans(kcp: bool, start: State, actions: seq<Action>, k: nat, r: Reset) {
    exists i: nat, j: nat, t: nat :: HeldFrom(kcp, start, actions, i, j, t, k, r.before) && Returns(kcp, start, actions, j, t, k, r)
  }

  /** The reset that is underway has held the lock since its call. */
  ghost predicate Begun(kcp: bool, start: State, actions: seq<Action>) {
    var s := Run(kcp, start, actions);
    InReset(HolderPc(s)) ==>
      exists i: nat :: HeldFrom(kcp, start, actions, i, |actions|, s.exclusive.value, |s.resets|, HolderPc(s).before)
  }

  lemma AtEarlier(kcp: bool, start: State, actions: seq<Action>, a: Action, i: nat)
    requires i <= |actions|
    ensures At(kcp, start, actions + [a], i) == At(kcp, start, actions, i)
  {
    assert (actions + [a])[..i] == actions[..i];
  }

  lemma HeldEarlier(kcp: bool, start: State, actions: seq<Action>, a: Action, i: nat, j: nat, t: nat, done: nat, before: Registers)
    requires HeldFrom(kcp, start, actions, i, j, t, done, before) && j <= |actions|
    ensures HeldFrom(kcp, start, actions + [a], i, j, t, done, before)
  {
    AtEarlier(kcp, start, actions, a, i);
    forall m: nat | i < m <= j
      ensures Resetting(kcp, start, actions + [a], m, t, done)
    {
      assert Resetting(kcp, start, actions, m, t, done);
      AtEarlier(kcp, start, actions, a, m);
    }
  }

  lemma SpansEarlier(kcp: bool, start: State, actions: seq<Action>, a: Action, k: nat, r: Reset)
    requires Spans(kcp, start, actions, k, r)
    ensures Spans(kcp, start, actions + [a], k, r)
  {
    var i: nat, j: nat, t: nat :| HeldFrom(kcp, start, actions, i, j, t, k, r.before) && Returns(kcp, start, actions, j, t, k, r);
    AtEarlier(kcp, start, actions, a, j + 1);
    assert Returns(kcp, start, actions + [a], j, t, k, r);
    hide HeldFrom, Returns;
    HeldEarlier(kcp, start, actions, a, i, j, t, k, r.before);
  }

  lemma AtLast(kcp: bool, start: State, actions: seq<Action>, a: Action)
    ensures At(kcp, start, actions + [a], |actions|) == Run(kcp, start, actions)
    ensures At(kcp, start, actions + [a], |actions| + 1) == Run(kcp, start, actions + [a]) == Step(kcp, Run(kcp, start, actions), a)
  {
    hide Step;
    assert (actions + [a])[..|actions|] == actions && (actions + [a])[..|actions| + 1] == actions + [a];
  }

  /** The reset of the holder of the lock goes on. */
  ghost predicate GoesOn(s: State, s': State) {
    && InReset(HolderPc(s)) && InReset(HolderPc(s')) && s'.exclusive == s.exclusive
    && HolderPc(s').before == HolderPc(s).before && s'.resets == s.resets
  }

  /** The reset of the holder of the lock returns. */
  ghost predicate Ends(s: State, s': State) {
    && InReset(HolderPc(s)) && s'.exclusive == None && PcOf(s', s.exclusive.value).Idle?
    && |s'.resets| == |s.resets| + 1 && s'.resets[..|s.resets|] == s.resets
    && s'.resets[|s.resets|].before == HolderPc(s).before && s'.resets[|s.resets|].after == RegistersOf(s')
  }

  /** A reset takes the free lock. */
  ghost predicate Begins(s: State, a: Action, s': State) {
    && a.CallReset? && s.exclusive == None && s'.exclusive == Some(a.t) && s'.resets == s.resets
    && InReset(HolderPc(s')) && HolderPc(s').before == RegistersOf(s)
  }

  ghost predicate NoReset(s: State, s': State) {
    !InReset(HolderPc(s)) && !InReset(HolderPc(s')) && s'.resets == s.resets
  }

  lemma StepLogs(kcp: bool, s: State, a: Action)
    requires Inv(kcp, s)
    ensures var s' := Step(kcp, s, a); GoesOn(s, s') || Ends(s, s') || Begins(s, a, s') || NoReset(s, s')
  {
    assert LockInv(s);
    if a.Advance? && InReset(PcOf(s, a.t)) {
      HolderIsInside(kcp, s, a.t);
      hide Inv, LockInv, GoesOn, Ends, Begins, NoReset, ResetStep, Collect, Lookup, Enter, Hit;
      ResetStepLogs(kcp, s, a.t, a.connects, a.reading);
    } else {
      hide Inv, Progress;
      OthersLogNothing(kcp, s, a);
    }
  }

  lemma ResetStepLogs(kcp: bool, s: State, t: nat, connects: bool, reading: Reading)
    requires s.exclusive == Some(t) && InReset(PcOf(s, t))
    ensures var s' := ResetStep(kcp, s, t, connects, reading); GoesOn(s, s') || Ends(s, s')
  {
    match PcOf(s, t)
    case Configuring(_) => hide Install, Discard, Make;
    case Connecting(_, _) => hide Install, Discard, TakeOver;
    case Listing(_, _, _) => ListingLogs(kcp, s, t, connects, reading);
    case Deriving(_, _) => hide Install, Discard, Make, TakeOver;
  }

  lemma ListingLogs(kcp: bool, s: State, t: nat, connects: bool, reading: Reading)
    requires s.exclusive == Some(t) && PcOf(s, t).Listing?
    ensures var s' := ResetStep(kcp, s, t, connects, reading); GoesOn(s, s') || Ends(s, s')
  {
    hide Make, AfterReset, ClosedOnce;
  }

  lemma OthersLogNothing(kcp: bool, s: State, a: Action)
    requires LockInv(s) && !(a.Advance? && InReset(PcOf(s, a.t)))
    ensures var s' := Step(kcp, s, a); GoesOn(s, s') || Begins(s, a, s') || NoReset(s, s')
  {
    hide Progress;
    if a.Advance? {
      LookupsLogNothing(kcp, s, a.t, a.connects, a.reading);
    }
  }

  ghost predicate LogsNothing(s: State, s': State, t: nat) {
    && s'.resets == s.resets && !InReset(PcOf(s', t))
    && (InReset(HolderPc(s)) ==> HolderPc(s') == HolderPc(s) && s'.exclusive == s.exclusive)
    && (InReset(HolderPc(s')) ==> HolderPc(s') == HolderPc(s))
  }

  lemma LookupsLogNothing(kcp: bool, s: State, t: nat, connects: bool, reading: Reading)
    requires LockInv(s) && !InReset(PcOf(s, t))
    ensures LogsNothing(s, Progress(kcp, s, t, connects, reading), t)
  {
    if PcOf(s, t).Collecting? {
      CollectLogsNothing(kcp, s, t, PcOf(s, t).todo, PcOf(s, t).got, connects);
      hide LogsNothing, LockInv, Collect, ResetStep;
    } else {
      hide ResetStep, AfterReset, ClosedOnce, MayCreate, Collect;
    }
  }

  lemma CollectLogsNothing(kcp: bool, s: State, t: nat, todo: seq<string>, got: seq<Answer>, connects: bool)
    requires LockInv(s) && PcOf(s, t).Collecting?
    ensures LogsNothing(s, Collect(kcp, s, t, todo, got, connects), t)
  {
    hide AfterReset, ClosedOnce, MayCreate, Hit;
  }

  ghost predicate AllSpan(kcp: bool, start: State, actions: seq<Action>) {
    var resets := Run(kcp, start, actions).resets;
    forall k: nat :: 1 <= k < |resets| ==> Spans(kcp, start, actions, k, resets[k])
  }

  /** Every record but the constructor's is about one reset of the run, from its call to its return. */
  lemma {:induction false} LogTellsTheRun(kcp: bool, server: string, default': string, targets: set<string>, actions: seq<Action>)
    ensures var start := Start(server, default', targets);
            Begun(kcp, start, actions) && AllSpan(kcp, start, actions) && |Run(kcp, start, actions).resets| >= 1
  {
    hide Inv, Step, Spans, HeldFrom;
    var start := Start(server, default', targets);
    if actions == [] {
      assert HolderPc(start) == Idle;
    } else {
      hide Begun, AllSpan;
      var n := |actions| - 1;
      var front, a := actions[..n], actions[n];
      assert actions == front + [a];
      LogTellsTheRun(kcp, server, default', targets, front);
      RunKeepsInv(kcp, server, default', targets, front);
      AtLast(kcp, start, front, a);
      StepLogs(kcp, Run(kcp, start, front), a);
      BegunNext(kcp, start, front, a);
      SpansNext(kcp, start, front, a);
    }
  }

  lemma BegunNext(kcp: bool, start: State, front: seq<Action>, a: Action)
    requires Begun(kcp, start, front)
    requires var s, s' := Run(kcp, start, front), Run(kcp, start, front + [a]);
             GoesOn(s, s') || Ends(s, s') || Begins(s, a, s') || NoReset(s, s')
    ensures Begun(kcp, start, front + [a])
  {
    hide Run, Step;
    var s, s', n := Run(kcp, start, front), Run(kcp, start, front + [a]), |front|;
    AtLast(kcp, start, front, a);
    if GoesOn(s, s') {
      var t, done, before := s.exclusive.value, |s.resets|, HolderPc(s).before;
      var i: nat :| HeldFrom(kcp, start, front, i, n, t, done, before);
      HeldEarlier(kcp, start, front, a, i, n, t, done, before);
      assert Resetting(kcp, start, front + [a], n + 1, t, done);
      assert HeldFrom(kcp, start, front + [a], i, n + 1, t, done, before);
    } else if Begins(s, a, s') {
      assert Resetting(kcp, start, front + [a], n + 1, a.t, |s'.resets|);
      assert HeldFrom(kcp, start, front + [a], n, n + 1, a.t, |s'.resets|, RegistersOf(s));
    }
  }

  lemma SpansNext(kcp: bool, start: State, front: seq<Action>, a: Action)
    requires Begun(kcp, start, front) && AllSpan(kcp, start, front)
    requires var s, s' := Run(kcp, start, front), Run(kcp, start, front + [a]);
             GoesOn(s, s') || Ends(s, s') || Begins(s, a, s') || NoReset(s, s')
    ensures AllSpan(kcp, start, front + [a])
  {
    hide Run, Step, Spans, HeldFrom;
    var s, s' := Run(kcp, start, front), Run(kcp, start, front + [a]);
    forall k: nat | 1 <= k < |s'.resets|
      ensures Spans(kcp, start, front + [a], k, s'.resets[k])
    {
      if k < |s.resets| {
        assert s'.resets[k] == s.resets[k];
        SpansEarlier(kcp, start, front, a, k, s.resets[k]);
      } else {
        LastSpans(kcp, start, front, a);
      }
    }
  }

  lemma LastSpans(kcp: bool, start: State, front: seq<Action>, a: Action)
    requires Begun(kcp, start, front) && Ends(Run(kcp, start, front), Run(kcp, start, front + [a]))
    ensures var done := |Run(kcp, start, front).resets|;
            Spans(kcp, start, front + [a], done, Run(kcp, start, front + [a]).resets[done])
  {
    hide Run, Step;
    var s, s', n := Run(kcp, start, front), Run(kcp, start, front + [a]), |front|;
    AtLast(kcp, start, front, a);
    var t, done, r := s.exclusive.value, |s.resets|, s'.resets[|s.resets|];
    var i: nat :| HeldFrom(kcp, start, front, i, n, t, done, r.before);
    HeldEarlier(kcp, start, front, a, i, n, t, done, r.before);
    assert Returns(kcp, start, front + [a], n, t, done, r);
  }

  // ----- what holds in every run

  /**
   A reset of the kcp provider that fails keeps the table exactly if it fails before the table is replaced, keeps
   server and default target exactly if it fails before they are taken over or takes over what was there, and
   leaves a default target outside of the table exactly if the old table did not have the new default.
   */
  lemma FailedKcpReset(server: string, default': string, targets: set<string>, actions: seq<Action>, r: Reset)
    requires r in Run(true, Start(server, default', targets), actions).resets && r.failedAt.Some?
    ensures r.after.table == r.before.table <==> !r.failedAt.value.AtDerive?
    ensures r.failedAt.value.AtConfig? ==> r.after == r.before
    ensures !r.failedAt.value.AtConfig? ==> r.taken == Some(Taken(r.after.server, r.after.defaultTarget))
    ensures r.after.defaultTarget == r.before.defaultTarget <==>
              r.failedAt.value.AtConfig? || r.taken.value.defaultTarget == r.before.defaultTarget
    ensures r.failedAt.value.AtDerive? ==> Hit(r.after.table, r.after.defaultTarget).Some?
    ensures !r.failedAt.value.AtDerive? && !r.failedAt.value.AtConfig? ==>
              (r.after.defaultTarget in r.after.table <==> r.taken.value.defaultTarget in r.before.table)
  {
    RunKeepsLog(true, server, default', targets, actions);
    hide Run, Start, Inv, Halfway;
    RightOf(true, Run(true, Start(server, default', targets), actions), r);
  }

  /** A reset of the kubeconfig provider that fails changes nothing, and there is nothing else that can fail in it. */
  lemma FailedKubeconfigReset(server: string, default': string, targets: set<string>, actions: seq<Action>, r: Reset)
    requires r in Run(false, Start(server, default', targets), actions).resets && r.failedAt.Some?
    ensures r.after == r.before && (r.failedAt.value.AtConnect? || r.failedAt.value.AtListing?)
  {
    RunKeepsLog(false, server, default', targets, actions);
    hide Run, Start, Inv, Halfway;
    RightOf(false, Run(false, Start(server, default', targets), actions), r);
  }

  lemma RightOf(kcp: bool, s: State, r: Reset)
    requires LogInv(kcp, s) && r in s.resets
    ensures Right(kcp, r)
  {
    hide Right, Halfway;
    var i :| 0 <= i < |s.resets| && s.resets[i] == r;
    assert AllRight(kcp, s);
  }

  /**
   While no reset is underway the provider has the default target that was taken over last and the targets that were
   found last, so the default of the kcp provider is in its table exactly if those two agree.
   */
  lemma DefaultFollowsTheLog(kcp: bool, server: string, default': string, targets: set<string>, actions: seq<Action>)
    requires !InReset(HolderPc(Run(kcp, Start(server, default', targets), actions)))
    ensures var s := Run(kcp, Start(server, default', targets), actions);
            && s.defaultTarget == LastDefault(s.resets)
            && LastFound(s.resets) <= s.table.Keys
            && (kcp ==> s.table.Keys == LastFound(s.resets))
            && (kcp ==> (s.defaultTarget in s.table <==> LastDefault(s.resets) in LastFound(s.resets)))
  {
    RunKeepsLog(kcp, server, default', targets, actions);
    hide Run, Start, LastDefault, LastFound, Settled, AllRight;
  }

  /**
   Whenever somebody looks, the default target of the kubeconfig provider has an open manager: the lookups dereference it
   unchecked. The kcp provider has one if nothing was taken over since the table was replaced.
   */
  lemma DefaultHasManager(kcp: bool, server: string, default': string, targets: set<string>, actions: seq<Action>)
    requires var s := Run(kcp, Start(server, default', targets), actions);
             !InReset(HolderPc(s)) && (kcp ==> Settled(s.resets))
    ensures var s := Run(kcp, Start(server, default', targets), actions);
            var m := Hit(s.table, s.defaultTarget);
            m.Some? && m.value < |s.closes| && s.closes[m.value] == 0
  {
    RunKeepsLog(kcp, server, default', targets, actions);
    var s := Run(kcp, Start(server, default', targets), actions);
    hide Run, Start, LastDefault, LastFound, Settled, AllRight;
    assert Hit(s.table, s.defaultTarget).Some?;
    assert Held(s.table, Hit(s.table, s.defaultTarget).value);
  }

  /** What a caller does for a lookup of the default target while nobody else moves. */
  function LookupSteps(t: nat): seq<Action> {
    [Ask(t, ""), Advance(t, true, Unreadable), Advance(t, true, Unreadable), Advance(t, true, Unreadable)]
  }

  /** A lookup of a default target outside of the table, be it empty, gets no manager, whatever can be connected to. */
  lemma LostDefaultIsNotServed(s: State, t: nat)
    requires s.exclusive == None && PcOf(s, t).Idle? && s.defaultTarget !in s.table
    ensures Run(true, s, LookupSteps(t)) == Goto(s, t, Idle)
  {
    var s1 := Goto(s, t, Asked(s.defaultTarget));
    var s2 := Goto(s, t, Missed(s.defaultTarget));
    var s3 := Enter(s, t, Rechecking(s.defaultTarget));
    assert Step(true, s, Ask(t, "")) == s1;
    assert Step(true, s1, Advance(t, true, Unreadable)) == s2;
    assert Step(true, s2, Advance(t, true, Unreadable)) == s3;
    assert Step(true, s3, Advance(t, true, Unreadable)) == Goto(s, t, Idle);
    hide Step, Goto, Enter;
    RunsOn(true, s, LookupSteps(t), 1);
    RunsOn(true, s, LookupSteps(t), 2);
    RunsOn(true, s, LookupSteps(t), 3);
    RunsOn(true, s, LookupSteps(t), 4);
  }

  /**
   A lookup that nobody interferes with: the manager of the target if it has one, else a new one if it can be
   connected to and, for kcp, is listed. An empty target stands for the kcp default.
   */
  lemma LookupIsServed(kcp: bool, s: State, t: nat, target: string, connects: bool)
    requires s.exclusive == None && PcOf(s, t).Idle?
    ensures var asked := if kcp && target == "" then s.defaultTarget else target;
            var a := Advance(t, connects, Unreadable);
            var e := Run(kcp, s, [Ask(t, target), a, a, a, a]);
            && e.exclusive == None && PcOf(e, t).Idle?
            && if asked in s.table && s.table[asked].Some? then
                 e.table == s.table && e.made == s.made && e.answers == s.answers + [Answer(s.epoch, asked, s.table[asked].value)]
               else if connects && (kcp ==> asked in s.table) then
                 && e.table == s.table[asked := Some(|s.made|)]
                 && e.made == s.made + [Made(s.epoch, asked, true)]
                 && e.answers == s.answers + [Answer(s.epoch, asked, |s.made|)]
               else e.table == s.table && e.made == s.made && e.answers == s.answers
  {
    var asked := if kcp && target == "" then s.defaultTarget else target;
    var a := Advance(t, connects, Unreadable);
    var s1 := Goto(s, t, Asked(asked));
    RunsFive(kcp, s, Ask(t, target), a, a, a, a);
    assert Step(kcp, s, Ask(t, target)) == s1;
    if asked in s.table && s.table[asked].Some? {
      var e := Goto(Tell(s1, [Answer(s.epoch, asked, s.table[asked].value)]), t, Idle);
      assert Step(kcp, s1, a) == e;
      hide Run, Step;
      RestsIdle(kcp, e, t, connects, Unreadable);
    } else {
      var s2 := Goto(s1, t, Missed(asked));
      assert Step(kcp, s1, a) == s2;
      hide Run;
      MissedLookup(kcp, s2, t, connects);
      hide Step;
    }
  }

  lemma MissedLookup(kcp: bool, s: State, t: nat, connects: bool)
    requires s.exclusive == None && PcOf(s, t).Missed? && Hit(s.table, PcOf(s, t).target) == None
    ensures var target, a := PcOf(s, t).target, Advance(t, connects, Unreadable);
            var e := Step(kcp, Step(kcp, Step(kcp, s, a), a), a);
            && e.exclusive == None && PcOf(e, t).Idle?
            && if connects && (kcp ==> target in s.table) then
                 && e.table == s.table[target := Some(|s.made|)]
                 && e.made == s.made + [Made(s.epoch, target, true)]
                 && e.answers == s.answers + [Answer(s.epoch, target, |s.made|)]
               else e.table == s.table && e.made == s.made && e.answers == s.answers
  {
    var target, a := PcOf(s, t).target, Advance(t, connects, Unreadable);
    var s1 := Enter(s, t, Rechecking(target));
    assert Step(kcp, s, a) == s1;
    if kcp ==> target in s.table {
      var s2 := Goto(s1, t, Creating(target));
      assert Step(kcp, s1, a) == s2;
    } else {
      var s2 := Release(s1, t);
      assert Step(kcp, s1, a) == s2;
      hide Step;
      RestsIdle(kcp, s2, t, connects, Unreadable);
    }
  }

  lemma RunsFive(kcp: bool, s: State, a: Action, b: Action, c: Action, d: Action, e: Action)
    ensures Run(kcp, s, [a, b, c, d, e]) == Step(kcp, Step(kcp, Step(kcp, Step(kcp, Step(kcp, s, a), b), c), d), e)
  {
    hide Step;
    RunsOn(kcp, s, [a, b, c, d, e], 1);
    RunsOn(kcp, s, [a, b, c, d, e], 2);
    RunsOn(kcp, s, [a, b, c, d, e], 3);
    RunsOn(kcp, s, [a, b, c, d, e], 4);
    RunsOn(kcp, s, [a, b, c, d, e], 5);
  }

  lemma RunsOn(kcp: bool, s: State, actions: seq<Action>, n: nat)
    requires 0 < n <= |actions|
    ensures Run(kcp, s, actions[..n]) == Step(kcp, Run(kcp, s, actions[..n - 1]), actions[n - 1])
    ensures actions[..|actions|] == actions && Run(kcp, s, actions[..0]) == s
  {
    hide Step;
    assert actions[..n][..n - 1] == actions[..n - 1];
  }

  /** A kcp reset whose configuration names a new workspace that cannot be connected to. */
  function LosingSteps(moved: Taken): seq<Action> {
    [CallReset(0), Advance(0, false, Readable(moved.server, moved.defaultTarget, {})), Advance(0, false, Unreadable)]
  }

  /** Such a reset fails, and it does so at once if the URL has no workspace in it. */
  lemma LosesDefault(s: State, moved: Taken)
    requires s.exclusive == None && PcOf(s, 0).Idle?
    ensures var failedAt := if moved.defaultTarget == "" then AtWorkspace else AtConnect;
            Run(true, s, LosingSteps(moved))
            == Release(Log(TakeOver(s, moved.server, moved.defaultTarget), RegistersOf(s), Some(failedAt), Some(moved)), 0)
  {
    var before, actions := RegistersOf(s), LosingSteps(moved);
    var held := s.(exclusive := Some(0));
    var taking := TakeOver(held, moved.server, moved.defaultTarget);
    assert Step(true, s, CallReset(0)) == Goto(held, 0, Configuring(before));
    hide Run, Step, Goto, InReset;
    RunsThree(true, s, actions[0], actions[1], actions[2]);
    if moved.defaultTarget == "" {
      NamesNothing(held, 0, before, actions[1].reading);
      RestsIdle(true, Release(Log(taking, before, Some(AtWorkspace), Some(moved)), 0), 0, false, Unreadable);
    } else {
      Configures(held, 0, before, false, actions[1].reading);
      FailsToConnect(taking, 0, before, moved, Unreadable);
    }
  }

  lemma NamesNothing(s: State, t: nat, before: Registers, read: Reading)
    requires read.Readable? && read.default' == ""
    ensures Step(true, Goto(s, t, Configuring(before)), Advance(t, false, read))
            == Release(Log(TakeOver(s, read.server, ""), before, Some(AtWorkspace), Some(Taken(read.server, ""))), t)
  {
    assert s.pcs[t := Configuring(before)][t := Idle] == s.pcs[t := Idle];
    hide Run, AfterReset, ClosedOnce, Install, Collect;
  }

  lemma FailsToConnect(s: State, t: nat, before: Registers, taken: Taken, read: Reading)
    ensures Step(true, Goto(s, t, Connecting(before, Some(taken))), Advance(t, false, read))
            == Release(Log(s, before, Some(AtConnect), Some(taken)), t)
  {
    assert s.pcs[t := Connecting(before, Some(taken))][t := Idle] == s.pcs[t := Idle];
    hide Run, AfterReset, ClosedOnce, Install, Collect;
  }

  lemma RestsIdle(kcp: bool, s: State, t: nat, connects: bool, read: Reading)
    requires PcOf(s, t).Idle?
    ensures Step(kcp, s, Advance(t, connects, read)) == s
  {
    hide Run, AfterReset, ClosedOnce, Install, Collect, ResetStep;
  }

  /** After it, lookups of the default, served before, find nothing: whether the new workspace is merely unknown or empty. */
  lemma DefaultCanGetLost(server: string, default': string, targets: set<string>, moved: Taken)
    requires moved.defaultTarget != default' && moved.defaultTarget !in targets
    ensures var start := Start(server, default', targets);
            var s := Run(true, start, LosingSteps(moved));
            && s.table == start.table && s.defaultTarget == moved.defaultTarget && s.defaultTarget !in s.table
            && |s.resets| == 2 && s.resets[1].failedAt == Some(if moved.defaultTarget == "" then AtWorkspace else AtConnect)
            && Run(true, s, LookupSteps(1)).answers == []
  {
    var start := Start(server, default', targets);
    LosesDefault(start, moved);
    hide Run;
    LostDefaultIsNotServed(Run(true, start, LosingSteps(moved)), 1);
  }

  lemma RunsTwo(kcp: bool, s: State, a: Action, b: Action)
    ensures Run(kcp, s, [a, b]) == Step(kcp, Step(kcp, s, a), b)
  {
    hide Step;
    RunsOn(kcp, s, [a, b], 1);
    RunsOn(kcp, s, [a, b], 2);
  }

  lemma RunsThree(kcp: bool, s: State, a: Action, b: Action, c: Action)
    ensures Run(kcp, s, [a, b, c]) == Step(kcp, Step(kcp, Step(kcp, s, a), b), c)
  {
    hide Step;
    RunsOn(kcp, s, [a, b, c], 1);
    RunsOn(kcp, s, [a, b, c], 2);
    RunsOn(kcp, s, [a, b, c], 3);
  }

  /** The steps of a reset up to its listing, and from there on to a failure after the table is replaced. */
  lemma ResetBegins(s: State, t: nat, read: Reading)
    requires s.exclusive == None && PcOf(s, t).Idle? && read.Readable? && read.default' != ""
    ensures var held := TakeOver(s.(exclusive := Some(t)), read.server, read.default');
            Run(true, s, [CallReset(t), Advance(t, true, read), Advance(t, true, read)])
            == Goto(Make(held), t, Listing(RegistersOf(s), Some(Taken(read.server, read.default')), |s.made|))
  {
    var before, taken := RegistersOf(s), Taken(read.server, read.default');
    var held := s.(exclusive := Some(t));
    assert Step(true, s, CallReset(t)) == Goto(held, t, Configuring(before));
    hide Run, Step, Goto, Make;
    RunsThree(true, s, CallReset(t), Advance(t, true, read), Advance(t, true, read));
    Configures(held, t, before, true, read);
    Connects(TakeOver(held, read.server, read.default'), t, before, taken, read);
  }

  lemma Configures(s: State, t: nat, before: Registers, connects: bool, read: Reading)
    requires read.Readable? && read.default' != ""
    ensures Step(true, Goto(s, t, Configuring(before)), Advance(t, connects, read))
            == Goto(TakeOver(s, read.server, read.default'), t, Connecting(before, Some(Taken(read.server, read.default'))))
  {
    assert s.pcs[t := Configuring(before)][t := Connecting(before, Some(Taken(read.server, read.default')))]
        == s.pcs[t := Connecting(before, Some(Taken(read.server, read.default')))];
    hide Run, AfterReset, ClosedOnce, Install, Collect, Log;
  }

  lemma Connects(s: State, t: nat, before: Registers, taken: Taken, read: Reading)
    ensures Step(true, Goto(s, t, Connecting(before, Some(taken))), Advance(t, true, read))
            == Goto(Make(s), t, Listing(before, Some(taken), |s.made|))
  {
    assert s.pcs[t := Connecting(before, Some(taken))][t := Listing(before, Some(taken), |s.made|)]
        == s.pcs[t := Listing(before, Some(taken), |s.made|)];
    hide Run, AfterReset, ClosedOnce, Install, Collect, Log;
  }

  lemma ResetFailsLate(s: State, t: nat, read: Reading)
    requires PcOf(s, t).Listing? && read.Readable?
    ensures var pc := PcOf(s, t);
            Run(true, s, [Advance(t, true, read), Advance(t, false, read)])
            == Release(Log(Install(true, s, pc.id, s.defaultTarget, read.targets), pc.before, Some(AtDerive), pc.taken), t)
  {
    var pc := PcOf(s, t);
    hide *;
    RunsTwo(true, s, Advance(t, true, read), Advance(t, false, read));
    LateInstall(s, t, read);
    LateReturn(Install(true, s, pc.id, s.defaultTarget, read.targets), t, pc.before, pc.taken, read);
  }

  lemma LateInstall(s: State, t: nat, read: Reading)
    requires PcOf(s, t).Listing? && read.Readable?
    ensures var pc := PcOf(s, t);
            Step(true, s, Advance(t, true, read))
            == Goto(Install(true, s, pc.id, s.defaultTarget, read.targets), t, Deriving(pc.before, pc.taken))
  {
    hide Install, Goto, Log, Collect, AfterReset, ClosedOnce;
  }

  lemma LateReturn(s: State, t: nat, before: Registers, taken: Option<Taken>, read: Reading)
    ensures Step(true, Goto(s, t, Deriving(before, taken)), Advance(t, false, read)) == Release(Log(s, before, Some(AtDerive), taken), t)
  {
    var s1 := Goto(s, t, Deriving(before, taken));
    assert PcOf(s1, t) == Deriving(before, taken) && RegistersOf(s1) == RegistersOf(s);
    assert Release(Log(s1, before, Some(AtDerive), taken), t).pcs == Release(Log(s, before, Some(AtDerive), taken), t).pcs;
    hide Install, Collect, AfterReset, ClosedOnce;
  }

  /** The other way round: a kcp reset that ends in an error, on the configuration of before, has dropped the managers that were in use. */
  lemma FailedResetCanDropManagers(server: string, default': string, targets: set<string>)
    requires default' != ""
    ensures var start := Start(server, default', targets);
            var same := Readable(server, default', targets);
            var listing := Run(true, start, [CallReset(0), Advance(0, true, same), Advance(0, true, same)]);
            var s := Run(true, listing, [Advance(0, true, same), Advance(0, false, same)]);
            && |s.resets| == 2 && s.resets[1].failedAt == Some(AtDerive)
            && Hit(start.table, default') == Some(0) && Hit(s.table, default') == Some(1) && s.closes == [0, 0]
  {
    var start, same := Start(server, default', targets), Readable(server, default', targets);
    ResetBegins(start, 0, same);
    ResetFailsLate(Run(true, start, [CallReset(0), Advance(0, true, same), Advance(0, true, same)]), 0, same);
    hide Run;
  }
}
