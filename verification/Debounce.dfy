/**
 The timing of the poll ticks and of the debounce timer of pkg/kubernetes/watcher/cluster.go.
 Callbacks take no time; ticks come every `poll` seconds. The watcher sees the cluster through a
 discovery cache, which each tick, and nothing else in the watcher, brings up to date.
 */
module Debounce {
  import opened Wrappers

  /** What the watcher compares; the API groups are kept sorted. */
  datatype Observation = Observation(apiGroups: seq<string>, isOpenShift: bool)

  datatype Timing = Timing(poll: real, window: real)

  ghost predicate Positive(p: Timing) {
    p.poll > 0.0 && p.window > 0.0
  }

  datatype State = State(
    now: real,
    nextTick: real,
    env: Observation,
    cache: Observation,
    lastKnown: Observation,
    timer: Option<real>,
    ticks: nat,
    attempts: nat)

  /** `Fire` carries the outcome of the reload; `Refresh` is somebody else bringing the cache up to date. */
  datatype Action = EnvChange(env: Observation) | Wait(dt: real) | Tick | Refresh | Fire(reloaded: bool)

  function Start(p: Timing, env: Observation): State {
    State(0.0, p.poll, env, env, env, None, 0, 0)
  }

  /** Time stops at a due tick or a due timer until it has been served. */
  predicate MayWait(s: State, dt: real) {
    dt >= 0.0 && s.now + dt <= s.nextTick && (s.timer.Some? ==> s.now + dt <= s.timer.value)
  }

  function Step(p: Timing, s: State, a: Action): State {
    match a
    case EnvChange(env) => s.(env := env)
    case Wait(dt) => if MayWait(s, dt) then s.(now := s.now + dt) else s
    case Tick =>
      if s.now == s.nextTick then
        s.(nextTick := s.now + p.poll,
           cache := s.env,
           ticks := s.ticks + 1,
           timer := if s.env != s.lastKnown then Some(s.now + p.window) else s.timer)
      else s
    case Refresh => s.(cache := s.env)
    case Fire(reloaded) =>
      if s.timer == Some(s.now) then
        s.(timer := None,
           attempts := s.attempts + 1,
           lastKnown := if reloaded then s.cache else s.lastKnown)
      else s
  }

  function Run(p: Timing, s: State, actions: seq<Action>): State {
    if actions == [] then s
    else Step(p, Run(p, s, actions[..|actions| - 1]), actions[|actions| - 1])
  }

  /** From here on the cluster does not change any more. */
  predicate Constant(actions: seq<Action>) {
    forall a :: a in actions ==> !a.EnvChange?
  }

  predicate AllSucceed(actions: seq<Action>) {
    forall a :: a in actions && a.Fire? ==> a.reloaded
  }

  predicate AllFail(actions: seq<Action>) {
    forall a :: a in actions && a.Fire? ==> !a.reloaded
  }

  predicate Settled(s: State) {
    s.lastKnown == s.env && s.timer == None
  }

  // ----- a window shorter than the poll interval

  /** A pending timer was armed by the last tick and is due before the next one. */
  ghost predicate Inv(p: Timing, s: State) {
    && s.nextTick - p.poll <= s.now <= s.nextTick
    && (s.timer.Some? ==> s.now <= s.timer.value && s.timer.value == s.nextTick - p.poll + p.window)
  }

  lemma {:induction false} RunKeepsInv(p: Timing, s: State, actions: seq<Action>)
    requires Positive(p) && p.window < p.poll && Inv(p, s)
    ensures Inv(p, Run(p, s, actions))
  {
    if actions != [] {
      RunKeepsInv(p, s, actions[..|actions| - 1]);
    }
  }

  /** A settled watcher calls nothing back until the cluster changes again. */
  lemma {:induction false} SettledStays(p: Timing, s: State, actions: seq<Action>)
    requires Settled(s) && Constant(actions)
    ensures var e := Run(p, s, actions); Settled(e) && e.attempts == s.attempts && e.env == s.env
  {
    if actions != [] {
      SettledStays(p, s, actions[..|actions| - 1]);
      assert actions[|actions| - 1] in actions;
    }
  }

  /** A new watcher knows the cluster as it was when it started, so it calls nothing back until the cluster changes. */
  lemma QuietClustersAreLeftAlone(p: Timing, env: Observation, actions: seq<Action>)
    requires Constant(actions)
    ensures var e := Run(p, Start(p, env), actions); e.attempts == 0 && e.timer == None && e.lastKnown == env
  {
    SettledStays(p, Start(p, env), actions);
  }

  /** What is known at each moment after the cluster has become constant, by distance from the next tick. */
  ghost predicate Converging(p: Timing, first: real, e: State) {
    || e.nextTick == first
    || Settled(e)
    || (e.nextTick == first + p.poll && e.timer == Some(first + p.window) && e.now <= first + p.window && e.cache == e.env)
  }

  lemma {:induction false} Converges(p: Timing, s: State, actions: seq<Action>)
    requires Positive(p) && p.window < p.poll && Inv(p, s) && Constant(actions) && AllSucceed(actions)
    ensures Converging(p, s.nextTick, Run(p, s, actions))
  {
    if actions != [] {
      var front, a := actions[..|actions| - 1], actions[|actions| - 1];
      assert a in actions;
      assert forall x :: x in front ==> x in actions;
      Converges(p, s, front);
      RunKeepsInv(p, s, front);
    }
  }

  ghost predicate ConvergesOn(p: Timing, env: Observation, before: seq<Action>, after: seq<Action>) {
    var s := Run(p, Start(p, env), before);
    var e := Run(p, s, after);
    Constant(after) && AllSucceed(after) && e.now > s.nextTick + p.window ==> Settled(e)
  }

  /** Once the cluster has become constant and reloads succeed, one further tick and one debounce
      window are enough. */
  ghost predicate AlwaysConverges(p: Timing) {
    forall env, before, after :: ConvergesOn(p, env, before, after)
  }

  lemma ShortWindowConverges(p: Timing)
    requires Positive(p) && p.window < p.poll
    ensures AlwaysConverges(p)
  {
    forall env, before, after
      ensures ConvergesOn(p, env, before, after)
    {
      var s := Run(p, Start(p, env), before);
      RunKeepsInv(p, Start(p, env), before);
      if Constant(after) && AllSucceed(after) {
        Converges(p, s, after);
        RunKeepsInv(p, s, after);
      }
    }
  }

  function Pending(s: State): nat {
    if s.timer.Some? then 1 else 0
  }

  /** While reloads fail and the change persists, every tick leads to exactly one more attempt. */
  lemma {:induction false} FailuresAreRetried(p: Timing, env: Observation, before: seq<Action>, after: seq<Action>)
    requires Positive(p) && p.window < p.poll && Constant(after) && AllFail(after)
    requires var s := Run(p, Start(p, env), before); s.env != s.lastKnown
    ensures var s := Run(p, Start(p, env), before);
            var e := Run(p, s, after);
            && e.env == s.env && e.lastKnown == s.lastKnown
            && e.attempts + Pending(e) == s.attempts + Pending(s) + (e.ticks - s.ticks)
            && (e.ticks > s.ticks && e.timer == None ==> e.now >= e.nextTick - p.poll + p.window)
  {
    var s := Run(p, Start(p, env), before);
    RunKeepsInv(p, Start(p, env), before);
    if after != [] {
      var front, a := after[..|after| - 1], after[|after| - 1];
      assert a in after;
      assert forall x :: x in front ==> x in after;
      FailuresAreRetried(p, env, before, front);
      RunKeepsInv(p, s, front);
    }
  }

  // ----- a window that is not shorter than the poll interval

  function Elapsed(p: Timing, n: nat): real {
    if n == 0 then 0.0 else Elapsed(p, n - 1) + p.poll
  }

  function Polls(p: Timing, n: nat): seq<Action> {
    if n == 0 then [] else Polls(p, n - 1) + [Wait(p.poll), Tick]
  }

  lemma RunTwo(p: Timing, s: State, front: seq<Action>, a: Action, b: Action)
    ensures Run(p, s, front + [a, b]) == Step(p, Step(p, Run(p, s, front), a), b)
  {
    hide Step;
    var all := front + [a, b];
    assert all[..|all| - 1] == front + [a];
    assert (front + [a])[..|front|] == front;
  }

  /** Every tick replaces the timer just before it can fire. */
  lemma {:induction false} Starves(p: Timing, s: State, n: nat)
    requires Positive(p) && p.window >= p.poll
    requires s.env != s.lastKnown && s.timer == None && s.nextTick == s.now + p.poll
    ensures var e := Run(p, s, Polls(p, n));
            && e.now == s.now + Elapsed(p, n) && e.nextTick == e.now + p.poll
            && e.env == s.env && e.lastKnown == s.lastKnown && e.attempts == s.attempts
            && e.timer == if n == 0 then None else Some(e.now + p.window)
  {
    if n > 0 {
      Starves(p, s, n - 1);
      RunTwo(p, s, Polls(p, n - 1), Wait(p.poll), Tick);
      hide Run;
    }
  }

  lemma {:induction false} PollsAreConstant(p: Timing, n: nat)
    ensures Constant(Polls(p, n)) && AllSucceed(Polls(p, n))
  {
    if n > 0 {
      PollsAreConstant(p, n - 1);
    }
  }

  lemma {:induction false} ElapsedMeaning(p: Timing, n: nat)
    ensures Elapsed(p, n) == n as real * p.poll
  {
    if n > 0 {
      ElapsedMeaning(p, n - 1);
      assert n as real * p.poll == (n - 1) as real * p.poll + p.poll;
    }
  }

  lemma EnoughPolls(p: Timing, time: real) returns (n: nat)
    requires p.poll > 0.0 && time >= 0.0
    ensures Elapsed(p, n) > time
  {
    var q := time / p.poll;
    assert q * p.poll == time;
    n := q.Floor + 1;
    assert (n as real - q) * p.poll > 0.0;
    ElapsedMeaning(p, n);
  }

  /** Convergence within one tick and one window is guaranteed exactly when the debounce window is
      shorter than the poll interval. Both can be set from the environment, to any order. */
  lemma ConvergesExactlyWhenWindowIsShorter(p: Timing)
    requires Positive(p)
    ensures AlwaysConverges(p) <==> p.window < p.poll
  {
    if p.window < p.poll {
      ShortWindowConverges(p);
    } else {
      var env, other := Observation([], false), Observation([], true);
      var before := [EnvChange(other)];
      var s := Run(p, Start(p, env), before);
      assert before[..0] == [] && before[0] == EnvChange(other);
      assert Run(p, Start(p, env), []) == Start(p, env);
      assert s == Start(p, env).(env := other);
      var n := EnoughPolls(p, p.poll + p.window);
      Starves(p, s, n);
      PollsAreConstant(p, n);
      assert !ConvergesOn(p, env, before, Polls(p, n));
    }
  }
}
