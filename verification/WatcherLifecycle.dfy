/**
 Concurrent Watch and Close calls, the poll goroutine and debounced callbacks of
 pkg/kubernetes/watcher/cluster.go. A step is one critical section, one lock acquisition, or one
 channel operation; Close gives the mutex up while it waits for the goroutine.
 */
module WatcherLifecycle {
  import opened Wrappers

  datatype Pc =
    | Idle
    // Watch
    | WatchAtLock
    | WatchLocked
    | WatchSpawning
    // Close
    | CloseAtLock
    | CloseLocked
    | CloseReading                  // about to read the stoppedCh field, mutex released
    | CloseWaiting(channel: nat)
    | CloseRelocking
    | CloseResetting
    | Closed                        // returned from the Close that closed stopCh
    // the poll goroutine
    | PollStarting                  // its deferred close has not been set up yet
    | PollSelecting(channel: nat)   // `channel` is what the deferred close will close
    | PollAtLock(channel: nat)
    | PollLocked(channel: nat)
    | PollLeaving(channel: nat)
    | PollGone
    // a debounced callback
    | CallbackAtLock
    | CallbackLocked

  /** Channels are numbered; `nextChannel` is the next number. `panicked` records a second close of a
      channel. `poller` and `closer` record which thread last took the role. */
  datatype State = State(
    mu: Option<nat>,
    started: bool,
    stopCh: nat,
    stoppedCh: nat,
    closed: set<nat>,
    nextChannel: nat,
    panicked: bool,
    pcs: map<nat, Pc>,
    poller: nat,
    closer: nat)

  datatype Action =
    | CallWatch(t: nat)
    | CallClose(t: nat)
    | TimerFires(t: nat)
    | TickArrives(t: nat)
    | Advance(t: nat)
    | Spawn(t: nat, goroutine: nat)

  const START: State := State(None, false, 0, 1, {}, 2, false, map[], 0, 0)

  function PcOf(s: State, t: nat): Pc {
    if t in s.pcs then s.pcs[t] else Idle
  }

  function Goto(s: State, t: nat, pc: Pc): State {
    s.(pcs := s.pcs[t := pc])
  }

  function Lock(s: State, t: nat, pc: Pc): State {
    if s.mu == None then Goto(s, t, pc).(mu := Some(t)) else s
  }

  function Unlock(s: State, t: nat, pc: Pc): State {
    Goto(s, t, pc).(mu := None)
  }

  function CloseChannel(s: State, channel: nat): State {
    if channel in s.closed then s.(panicked := true) else s.(closed := s.closed + {channel})
  }

  function Progress(s: State, t: nat): State {
    match PcOf(s, t)
    case WatchAtLock => Lock(s, t, WatchLocked)
    case WatchLocked =>
      if s.started then Unlock(s, t, Idle)
      else Unlock(s, t, WatchSpawning).(started := true, poller := t)
    case CloseAtLock => Lock(s, t, CloseLocked)
    case CloseLocked =>
      if !s.started || s.stopCh in s.closed then Unlock(s, t, Idle)
      else Unlock(CloseChannel(s, s.stopCh), t, CloseReading).(closer := t)
    case CloseReading => Goto(s, t, CloseWaiting(s.stoppedCh))
    case CloseWaiting(channel) => if channel in s.closed then Goto(s, t, CloseRelocking) else s
    case CloseRelocking => Lock(s, t, CloseResetting)
    case CloseResetting =>
      Unlock(s, t, Closed).(started := false, stopCh := s.nextChannel, stoppedCh := s.nextChannel + 1, nextChannel := s.nextChannel + 2)
    case PollStarting => Goto(s, t, PollSelecting(s.stoppedCh))
    case PollSelecting(channel) => if s.stopCh in s.closed then Goto(s, t, PollLeaving(channel)) else s
    case PollAtLock(channel) => Lock(s, t, PollLocked(channel))
    case PollLocked(channel) => Unlock(s, t, PollSelecting(channel))
    case PollLeaving(channel) => Goto(CloseChannel(s, channel), t, PollGone)
    case CallbackAtLock => Lock(s, t, CallbackLocked)
    case CallbackLocked => Unlock(s, t, Idle)
    case _ => s
  }

  predicate Callable(s: State, t: nat) {
    PcOf(s, t).Idle? || PcOf(s, t).Closed?
  }

  function Step(s: State, a: Action): State {
    match a
    case CallWatch(t) => if Callable(s, t) then Goto(s, t, WatchAtLock) else s
    case CallClose(t) => if Callable(s, t) then Goto(s, t, CloseAtLock) else s
    case TimerFires(t) => if Callable(s, t) then Goto(s, t, CallbackAtLock) else s
    case TickArrives(t) => if PcOf(s, t).PollSelecting? then Goto(s, t, PollAtLock(PcOf(s, t).channel)) else s
    case Advance(t) => Progress(s, t)
    case Spawn(t, goroutine) =>
      if PcOf(s, t).WatchSpawning? && goroutine !in s.pcs && goroutine != t then
        Goto(Goto(s, t, Idle), goroutine, PollStarting).(poller := goroutine)
      else s
  }

  function Run(s: State, actions: seq<Action>): State {
    if actions == [] then s
    else Step(Run(s, actions[..|actions| - 1]), actions[|actions| - 1])
  }

  // ----- what every interleaving keeps

  predicate HoldsLock(pc: Pc) {
    pc.WatchLocked? || pc.CloseLocked? || pc.CloseResetting? || pc.PollLocked? || pc.CallbackLocked?
  }

  predicate PollAlive(pc: Pc) {
    pc.PollStarting? || pc.PollSelecting? || pc.PollAtLock? || pc.PollLocked? || pc.PollLeaving?
  }

  /** About to become, or being, the poll goroutine. */
  predicate PollRole(pc: Pc) {
    pc.WatchSpawning? || PollAlive(pc)
  }

  predicate WaitsForPoll(pc: Pc) {
    pc.CloseReading? || pc.CloseWaiting?
  }

  predicate AfterPoll(pc: Pc) {
    pc.CloseRelocking? || pc.CloseResetting?
  }

  predicate CloseRole(pc: Pc) {
    WaitsForPoll(pc) || AfterPoll(pc)
  }

  /** Every pending operation on the stopped channel is on the current one. */
  predicate OnChannel(s: State, pc: Pc) {
    match pc
    case CloseWaiting(channel) => channel == s.stoppedCh
    case PollSelecting(channel) => channel == s.stoppedCh
    case PollAtLock(channel) => channel == s.stoppedCh
    case PollLocked(channel) => channel == s.stoppedCh
    case PollLeaving(channel) => channel == s.stoppedCh && s.stopCh in s.closed
    case _ => true
  }

  ghost predicate ChannelsInv(s: State) {
    && !s.panicked
    && s.stopCh != s.stoppedCh && s.stopCh < s.nextChannel && s.stoppedCh < s.nextChannel
    && (forall c :: c in s.closed ==> c < s.nextChannel)
    && (s.stopCh in s.closed ==> s.started)
    && (s.stoppedCh in s.closed ==> s.stopCh in s.closed)
  }

  ghost predicate LockInv(s: State) {
    && (forall t :: t in s.pcs ==> (HoldsLock(s.pcs[t]) <==> s.mu == Some(t)))
    && (s.mu.Some? ==> s.mu.value in s.pcs)
  }

  ghost predicate PendingInv(s: State) {
    forall t :: t in s.pcs ==> OnChannel(s, s.pcs[t])
  }

  /** Each role is taken by one thread at most, and exactly when the channels say so. */
  ghost predicate RolesInv(s: State) {
    && (forall t :: t in s.pcs && PollRole(s.pcs[t]) ==> t == s.poller)
    && (forall t :: t in s.pcs && CloseRole(s.pcs[t]) ==> t == s.closer)
    && (PollRole(PcOf(s, s.poller)) <==> s.started && s.stoppedCh !in s.closed)
    && (CloseRole(PcOf(s, s.closer)) <==> s.started && s.stopCh in s.closed)
    && (AfterPoll(PcOf(s, s.closer)) ==> s.stoppedCh in s.closed)
  }

  ghost predicate Inv(s: State) {
    ChannelsInv(s) && LockInv(s) && PendingInv(s) && RolesInv(s)
  }

  /** Thread t takes or gives up the mutex according to its new program counter. */
  function Moved(s: State, t: nat, pc: Pc): State {
    Goto(s, t, pc).(mu := if HoldsLock(pc) then Some(t) else if s.mu == Some(t) then None else s.mu)
  }

  /** A move that changes no role and no channel. */
  lemma MoveKeepsInv(s: State, t: nat, pc: Pc)
    requires Inv(s) && (HoldsLock(pc) ==> s.mu == None || s.mu == Some(t)) && OnChannel(s, pc)
    requires PollRole(pc) == PollRole(PcOf(s, t)) && CloseRole(pc) == CloseRole(PcOf(s, t))
    requires AfterPoll(pc) ==> s.stoppedCh in s.closed
    ensures Inv(Moved(s, t, pc))
  {
    MoveKeepsLock(s, t, pc);
    MoveKeepsRoles(s, t, pc);
    hide RolesInv, LockInv, OnChannel;
    var s' := Moved(s, t, pc);
    ChannelsOnly(s, s');
  }

  lemma MoveKeepsLock(s: State, t: nat, pc: Pc)
    requires LockInv(s) && (HoldsLock(pc) ==> s.mu == None || s.mu == Some(t))
    ensures LockInv(Moved(s, t, pc))
  {
  }

  lemma MoveKeepsRoles(s: State, t: nat, pc: Pc)
    requires RolesInv(s)
    requires PollRole(pc) == PollRole(PcOf(s, t)) && CloseRole(pc) == CloseRole(PcOf(s, t))
    requires AfterPoll(pc) ==> s.stoppedCh in s.closed
    ensures RolesInv(Moved(s, t, pc))
  {
  }

  lemma ChannelsOnly(s: State, s': State)
    requires s'.stopCh == s.stopCh && s'.stoppedCh == s.stoppedCh && s'.closed == s.closed
    ensures forall pc :: OnChannel(s, pc) == OnChannel(s', pc)
  {
  }

  lemma WatchKeepsInv(s: State, t: nat)
    requires Inv(s) && PcOf(s, t).WatchLocked?
    ensures Inv(Progress(s, t))
  {
    if s.started {
      MoveKeepsInv(s, t, Idle);
    } else {
      assert LockInv(Progress(s, t)) by {
        MoveKeepsLock(s, t, WatchSpawning);
      }
      hide LockInv;
    }
  }

  /** Closing stopCh, or finding it closed or not in use. */
  lemma CloseKeepsInv(s: State, t: nat)
    requires Inv(s) && PcOf(s, t).CloseLocked?
    ensures Inv(Progress(s, t))
  {
    if !s.started || s.stopCh in s.closed {
      MoveKeepsInv(s, t, Idle);
    } else {
      assert LockInv(Progress(s, t)) by {
        MoveKeepsLock(s, t, CloseReading);
      }
      ClosingKeepsRoles(s, t);
      hide LockInv, RolesInv;
    }
  }

  lemma ClosingKeepsRoles(s: State, t: nat)
    requires ChannelsInv(s) && RolesInv(s) && PcOf(s, t).CloseLocked? && s.started && s.stopCh !in s.closed
    ensures RolesInv(Progress(s, t))
  {
  }

  lemma ResettingKeepsInv(s: State, t: nat)
    requires Inv(s) && PcOf(s, t).CloseResetting?
    ensures Inv(Progress(s, t))
  {
  }

  lemma LeavingKeepsInv(s: State, t: nat)
    requires Inv(s) && PcOf(s, t).PollLeaving?
    ensures Inv(Progress(s, t))
  {
  }

  predicate Ordinary(pc: Pc) {
    !pc.WatchLocked? && !pc.CloseLocked? && !pc.CloseResetting? && !pc.PollLeaving?
  }

  lemma MoveShape(s: State, t: nat)
    requires LockInv(s) && Progress(s, t) != s && Ordinary(PcOf(s, t))
    ensures var pc := PcOf(Progress(s, t), t);
            Progress(s, t) == Moved(s, t, pc) && (HoldsLock(pc) ==> s.mu == None || s.mu == Some(t))
  {
    assert HoldsLock(s.pcs[t]) <==> s.mu == Some(t);
    if Locks(s.pcs[t]) {
      hide Goto, Unlock;
    } else {
      hide Lock;
      StayShape(s, t);
    }
  }

  predicate Locks(pc: Pc) {
    pc.WatchAtLock? || pc.CloseAtLock? || pc.CloseRelocking? || pc.PollAtLock? || pc.CallbackAtLock?
  }

  lemma StayShape(s: State, t: nat)
    requires Progress(s, t) != s && Ordinary(PcOf(s, t)) && !Locks(PcOf(s, t))
    requires HoldsLock(PcOf(s, t)) <==> s.mu == Some(t)
    ensures var pc := PcOf(Progress(s, t), t);
            Progress(s, t) == Moved(s, t, pc) && (HoldsLock(pc) ==> s.mu == Some(t))
  {
    hide Lock;
  }

  lemma MoveRole(s: State, t: nat)
    requires Ordinary(PcOf(s, t))
    ensures var pc := PcOf(Progress(s, t), t);
            PollRole(pc) == PollRole(PcOf(s, t)) && CloseRole(pc) == CloseRole(PcOf(s, t))
  {
  }

  lemma MoveChannel(s: State, t: nat)
    requires ChannelsInv(s) && PendingInv(s) && RolesInv(s) && Ordinary(PcOf(s, t))
    ensures var pc := PcOf(Progress(s, t), t);
            OnChannel(s, pc) && (AfterPoll(pc) ==> s.stoppedCh in s.closed)
  {
    assert t in s.pcs ==> OnChannel(s, s.pcs[t]);
    assert t in s.pcs && CloseRole(s.pcs[t]) ==> t == s.closer;
    hide PendingInv;
  }

  lemma CallKeepsInv(s: State, t: nat, pc: Pc)
    requires Inv(s) && Callable(s, t) && (pc.WatchAtLock? || pc.CloseAtLock? || pc.CallbackAtLock?)
    ensures Inv(Goto(s, t, pc))
  {
    MoveKeepsInv(s, t, pc);
    assert s.mu != Some(t);
  }

  lemma TickKeepsInv(s: State, t: nat)
    requires Inv(s)
    ensures Inv(Step(s, TickArrives(t)))
  {
    if PcOf(s, t).PollSelecting? {
      MoveKeepsInv(s, t, PollAtLock(PcOf(s, t).channel));
      assert s.mu != Some(t);
    }
  }

  lemma OthersKeepInv(s: State, t: nat)
    requires Inv(s)
    requires Ordinary(PcOf(s, t))
    ensures Inv(Progress(s, t))
  {
    var s' := Progress(s, t);
    if s' != s {
      MoveShape(s, t);
      MoveRole(s, t);
      MoveChannel(s, t);
      hide Inv, Progress;
      MoveKeepsInv(s, t, PcOf(s', t));
    }
  }

  lemma SpawnKeepsLock(s: State, t: nat, goroutine: nat)
    requires LockInv(s)
    ensures LockInv(Step(s, Spawn(t, goroutine)))
  {
  }

  lemma SpawnKeepsRoles(s: State, t: nat, goroutine: nat)
    requires RolesInv(s)
    ensures RolesInv(Step(s, Spawn(t, goroutine)))
  {
  }

  lemma SpawnKeepsInv(s: State, t: nat, goroutine: nat)
    requires Inv(s)
    ensures Inv(Step(s, Spawn(t, goroutine)))
  {
    SpawnKeepsLock(s, t, goroutine);
    SpawnKeepsRoles(s, t, goroutine);
    hide LockInv, RolesInv;
  }

  lemma StepKeepsInv(s: State, a: Action)
    requires Inv(s)
    ensures Inv(Step(s, a))
  {
    hide Inv, Progress;
    match a
    case Spawn(t, goroutine) => SpawnKeepsInv(s, t, goroutine);
    case Advance(t) =>
      match PcOf(s, t) {
        case WatchLocked => WatchKeepsInv(s, t);
        case CloseLocked => CloseKeepsInv(s, t);
        case CloseResetting => ResettingKeepsInv(s, t);
        case PollLeaving(_) => LeavingKeepsInv(s, t);
        case _ => OthersKeepInv(s, t);
      }
    case CallWatch(t) => if Callable(s, t) { CallKeepsInv(s, t, WatchAtLock); }
    case CallClose(t) => if Callable(s, t) { CallKeepsInv(s, t, CloseAtLock); }
    case TimerFires(t) => if Callable(s, t) { CallKeepsInv(s, t, CallbackAtLock); }
    case TickArrives(t) => TickKeepsInv(s, t);
  }

  lemma {:induction false} RunKeepsInv(actions: seq<Action>)
    ensures Inv(Run(START, actions))
  {
    if actions != [] {
      RunKeepsInv(actions[..|actions| - 1]);
      StepKeepsInv(Run(START, actions[..|actions| - 1]), actions[|actions| - 1]);
    }
  }

  // ----- main results

  lemma NoChannelIsClosedTwice(actions: seq<Action>)
    ensures !Run(START, actions).panicked
  {
    RunKeepsInv(actions);
  }

  lemma AtMostOnePollGoroutine(actions: seq<Action>, t: nat, u: nat)
    requires PollAlive(PcOf(Run(START, actions), t)) && PollAlive(PcOf(Run(START, actions), u))
    ensures t == u
  {
    RunKeepsInv(actions);
  }

  /** The Close that closed stopCh gets past its wait only when no poll goroutine exists or is about to. */
  lemma CloseReturnsAfterPoll(actions: seq<Action>, c: nat, t: nat)
    requires AfterPoll(PcOf(Run(START, actions), c))
    ensures !PollRole(PcOf(Run(START, actions), t))
  {
    RunKeepsInv(actions);
    var s := Run(START, actions);
    assert CloseRole(s.pcs[c]);
    assert c == s.closer;
  }

  /** A Watch call takes effect exactly when no goroutine exists or is about to and no Close is under
      way: in particular a Watch that comes while Close waits is dropped. */
  lemma WatchIsDroppedExactlyWhenBusy(actions: seq<Action>, t: nat)
    requires PcOf(Run(START, actions), t).WatchLocked?
    ensures var s := Run(START, actions);
            PcOf(Progress(s, t), t).WatchSpawning? <==> forall u :: u in s.pcs ==> !PollRole(s.pcs[u]) && !CloseRole(s.pcs[u])
  {
    RunKeepsInv(actions);
    var s := Run(START, actions);
    if s.started {
      if s.stoppedCh !in s.closed {
        assert PollRole(s.pcs[s.poller]);
      } else {
        assert CloseRole(s.pcs[s.closer]);
      }
    }
  }

  lemma {:induction false} RunConcat(s: State, a: seq<Action>, b: seq<Action>)
    ensures Run(s, a + b) == Run(Run(s, a), b)
  {
    hide Step;
    if b == [] {
      assert a + b == a;
    } else {
      var front := b[..|b| - 1];
      RunConcat(s, a, front);
      assert (a + b)[..|a + b| - 1] == a + front;
    }
  }

  lemma RunFirst(s: State, a: Action, rest: seq<Action>)
    ensures Run(s, [a] + rest) == Run(Step(s, a), rest)
  {
    hide Step;
    assert [a][..0] == [];
    assert Run(s, [a]) == Step(s, a);
    RunConcat(s, [a], rest);
  }

  lemma {:induction false} FreshThread(used: set<nat>) returns (t: nat)
    ensures t !in used && forall u :: u in used ==> u < t
    decreases used
  {
    if used == {} {
      t := 0;
    } else {
      var x :| x in used;
      var below := FreshThread(used - {x});
      t := if below > x then below else x + 1;
      assert forall u :: u in used ==> u == x || u in used - {x};
    }
  }

  /** The steps that the poll goroutine still needs once stopCh has been closed. */
  function PollSteps(pc: Pc): nat {
    match pc
    case WatchSpawning => 4
    case PollAtLock(_) => 4
    case PollStarting => 3
    case PollLocked(_) => 3
    case PollSelecting(_) => 2
    case PollLeaving(_) => 1
    case _ => 0
  }

  ghost predicate CloseAwaits(s: State, c: nat) {
    Inv(s) && WaitsForPoll(PcOf(s, c)) && (s.mu == None || (s.mu == Some(s.poller) && PcOf(s, s.poller).PollLocked?))
  }

  lemma PollerAdvances(s: State, c: nat) returns (a: Action)
    requires CloseAwaits(s, c) && s.stoppedCh !in s.closed
    ensures var e := Step(s, a);
            CloseAwaits(e, c) && PollSteps(PcOf(e, e.poller)) < PollSteps(PcOf(s, s.poller))
  {
    var p := s.poller;
    assert PollRole(PcOf(s, p));
    assert CloseRole(s.pcs[c]);
    assert c == s.closer;
    if PcOf(s, p).WatchSpawning? {
      var goroutine := FreshThread(s.pcs.Keys);
      a := Spawn(p, goroutine);
      assert goroutine != p && goroutine != c;
    } else {
      a := Advance(p);
    }
    StepKeepsInv(s, a);
  }

  /** Left alone, the goroutine leaves within four steps. */
  lemma PollerLeaves(s: State, c: nat) returns (schedule: seq<Action>)
    requires CloseAwaits(s, c)
    ensures var e := Run(s, schedule); CloseAwaits(e, c) && e.stoppedCh in e.closed && e.mu == None
    ensures |schedule| <= PollSteps(PcOf(s, s.poller))
    decreases PollSteps(PcOf(s, s.poller))
  {
    if s.stoppedCh in s.closed {
      schedule := [];
    } else {
      var a := PollerAdvances(s, c);
      hide Step, CloseAwaits;
      var rest := PollerLeaves(Step(s, a), c);
      RunFirst(s, a, rest);
      schedule := [a] + rest;
    }
  }

  /** Whoever holds the mutex gives it up in its next step. */
  lemma HolderReleases(s: State)
    requires Inv(s) && s.mu.Some?
    ensures var e := Step(s, Advance(s.mu.value)); Inv(e) && e.mu == None && forall u :: u != s.mu.value ==> PcOf(e, u) == PcOf(s, u)
  {
    assert HoldsLock(s.pcs[s.mu.value]);
    StepKeepsInv(s, Advance(s.mu.value));
    hide Inv;
  }

  /** The rest of a Close whose wait is over. */
  lemma FinishRelocking(s: State, c: nat) returns (schedule: seq<Action>)
    requires s.mu == None
    requires var pc := PcOf(s, c);
             || pc.CloseRelocking?
             || (pc.CloseReading? && s.stoppedCh in s.closed)
             || (pc.CloseWaiting? && pc.channel in s.closed)
    ensures PcOf(Run(s, schedule), c).Closed? && |schedule| <= 4
    ensures PcOf(s, c).CloseWaiting? ==> |schedule| <= 3
    ensures PcOf(s, c).CloseRelocking? ==> |schedule| <= 2
    decreases if PcOf(s, c).CloseReading? then 2 else if PcOf(s, c).CloseWaiting? then 1 else 0
  {
    var s1 := Step(s, Advance(c));
    if PcOf(s, c).CloseRelocking? {
      var s2 := Step(s1, Advance(c));
      assert PcOf(s2, c).Closed?;
      hide Step;
      RunFirst(s1, Advance(c), []);
      RunFirst(s, Advance(c), [Advance(c)] + []);
      assert [Advance(c)] + [] == [Advance(c)];
      schedule := [Advance(c)] + [Advance(c)];
    } else {
      hide Step;
      var rest := FinishRelocking(s1, c);
      RunFirst(s, Advance(c), rest);
      schedule := [Advance(c)] + rest;
    }
  }

  /** Wherever the other threads stand, a Close that has closed stopCh can still return, within ten
      steps of the threads it depends on: nobody waits for it in turn. */
  lemma CloseCanFinish(actions: seq<Action>, c: nat) returns (schedule: seq<Action>)
    requires CloseRole(PcOf(Run(START, actions), c))
    ensures PcOf(Run(Run(START, actions), schedule), c).Closed? && |schedule| <= 10
  {
    RunKeepsInv(actions);
    var s := Run(START, actions);
    schedule := FinishFrom(s, c);
  }

  lemma FinishFrom(s: State, c: nat) returns (schedule: seq<Action>)
    requires Inv(s) && CloseRole(PcOf(s, c))
    ensures PcOf(Run(s, schedule), c).Closed? && |schedule| <= 10
  {
    var release: seq<Action> := [];
    if s.mu.Some? {
      release := [Advance(s.mu.value)];
      HolderReleases(s);
      RunFirst(s, Advance(s.mu.value), []);
      assert release + [] == release;
      if s.mu.value == c {
        assert HoldsLock(s.pcs[c]);
        return release;
      }
    }
    var s1 := Run(s, release);
    assert Inv(s1) && s1.mu == None && PcOf(s1, c) == PcOf(s, c);
    assert !HoldsLock(s.pcs[c]);
    var leave: seq<Action> := [];
    if WaitsForPoll(PcOf(s1, c)) {
      leave := PollerLeaves(s1, c);
    }
    var s2 := Run(s1, leave);
    assert WaitsForPoll(PcOf(s2, c)) ==> OnChannel(s2, s2.pcs[c]);
    var finish := FinishRelocking(s2, c);
    RunConcat(s, release, leave);
    RunConcat(s, release + leave, finish);
    schedule := release + leave + finish;
  }

  /** A watcher that is not running, or has been closed, can be started again. */
  lemma WatchRestarts(actions: seq<Action>, t: nat) returns (schedule: seq<Action>)
    requires var s := Run(START, actions); !s.started && s.mu == None && Callable(s, t)
    ensures var e := Run(Run(START, actions), schedule);
            e.started && PollAlive(PcOf(e, e.poller)) && e.stopCh !in e.closed && e.stoppedCh !in e.closed
  {
    RunKeepsInv(actions);
    var s := Run(START, actions);
    var s1 := Step(s, CallWatch(t));
    var s2 := Step(s1, Advance(t));
    var s3 := Step(s2, Advance(t));
    var goroutine := FreshThread(s3.pcs.Keys);
    var s4 := Step(s3, Spawn(t, goroutine));
    assert s4.started && PollAlive(PcOf(s4, s4.poller)) && s4.stopCh !in s4.closed && s4.stoppedCh !in s4.closed;
    hide Step, Inv;
    RunFirst(s3, Spawn(t, goroutine), []);
    RunFirst(s2, Advance(t), [Spawn(t, goroutine)] + []);
    RunFirst(s1, Advance(t), [Advance(t)] + ([Spawn(t, goroutine)] + []));
    RunFirst(s, CallWatch(t), [Advance(t)] + ([Advance(t)] + ([Spawn(t, goroutine)] + [])));
    schedule := [CallWatch(t)] + ([Advance(t)] + ([Advance(t)] + ([Spawn(t, goroutine)] + [])));
  }
}
