/**
 The cluster-state watcher of pkg/kubernetes/watcher/cluster.go as an object. Each method is what one
 thread does between taking the mutex and giving it up, and takes exactly the step of WatcherLifecycle
 or Debounce that stands for it; so what those modules prove holds of these methods.
 */
module Watcher {
  import opened Wrappers
  import opened Debounce
  import WatcherLifecycle

  /** A channel that only ever signals by being closed. Closing it twice is a programming error. */
  class Channel {
    var closed: bool

    constructor ()
      ensures !closed
    {
      closed := false;
    }

    method Close()
      requires !closed
      modifies this
      ensures closed
    {
      closed := true;
    }
  }

  /** The comparison that a poll tick makes, field by field and group by group. */
  method HasChanged(current: Observation, last: Observation) returns (changed: bool)
    ensures changed <==> current != last
  {
    changed := current.isOpenShift != last.isOpenShift || |current.apiGroups| != |last.apiGroups|;
    if !changed {
      for i := 0 to |current.apiGroups|
        invariant !changed && current.apiGroups[..i] == last.apiGroups[..i]
      {
        if current.apiGroups[i] != last.apiGroups[i] {
          changed := true;
          break;
        }
      }
      assert !changed ==> current.apiGroups == current.apiGroups[..|current.apiGroups|] == last.apiGroups;
    }
  }

  class ClusterState {
    var started: bool
    var lastKnownState: Observation
    var timer: Option<real>
    var stopCh: Channel
    var stoppedCh: Channel

    /** The object is in this state of the lifecycle. */
    ghost predicate Tracks(s: WatcherLifecycle.State)
      reads this, stopCh, stoppedCh
    {
      && started == s.started && stopCh != stoppedCh
      && (stopCh.closed <==> s.stopCh in s.closed)
      && (stoppedCh.closed <==> s.stoppedCh in s.closed)
    }

    /** The object has this baseline and this pending timer. */
    ghost predicate Shows(d: Debounce.State)
      reads this
    {
      lastKnownState == d.lastKnown && timer == d.timer
    }

    constructor (initial: Observation)
      ensures Tracks(WatcherLifecycle.START) && timer == None && fresh(stopCh) && fresh(stoppedCh)
    {
      started, lastKnownState, timer := false, initial, None;
      stopCh := new Channel();
      stoppedCh := new Channel();
    }

    /** Watch, up to the point where it spawns the poll goroutine. */
    method EnterWatch(observed: Observation, ghost s: WatcherLifecycle.State, ghost t: nat) returns (spawn: bool)
      requires Tracks(s) && WatcherLifecycle.PcOf(s, t).WatchLocked?
      modifies this`started, this`lastKnownState
      ensures Tracks(WatcherLifecycle.Progress(s, t))
      ensures spawn <==> WatcherLifecycle.PcOf(WatcherLifecycle.Progress(s, t), t).WatchSpawning?
      ensures lastKnownState == if spawn then observed else old(lastKnownState)
      ensures spawn && timer == None ==> forall p :: Shows(Debounce.Start(p, observed))
    {
      if started {
        return false;
      }
      started := true;
      lastKnownState := observed;
      return true;
    }

    /** Close, up to the point where it waits for the poll goroutine. */
    method EnterClose(ghost s: WatcherLifecycle.State, ghost t: nat) returns (mustWait: bool)
      requires Tracks(s) && WatcherLifecycle.Inv(s) && WatcherLifecycle.PcOf(s, t).CloseLocked?
      modifies this`timer, stopCh
      ensures Tracks(WatcherLifecycle.Progress(s, t)) && timer == None
      ensures mustWait <==> WatcherLifecycle.PcOf(WatcherLifecycle.Progress(s, t), t).CloseReading?
    {
      timer := None;
      if !started {
        return false;
      }
      if stopCh.closed {
        return false;
      }
      stopCh.Close();
      return true;
    }

    /** The deferred close of the poll goroutine. */
    method LeavePoll(ghost s: WatcherLifecycle.State, ghost t: nat)
      requires Tracks(s) && WatcherLifecycle.Inv(s) && WatcherLifecycle.PcOf(s, t).PollLeaving?
      modifies stoppedCh
      ensures Tracks(WatcherLifecycle.Progress(s, t))
    {
      PollLeavesItsOwnChannel(s, t);
      stoppedCh.Close();
    }

    /** Close, after the poll goroutine has gone. */
    method FinishClose(ghost s: WatcherLifecycle.State, ghost t: nat)
      requires Tracks(s) && WatcherLifecycle.Inv(s) && WatcherLifecycle.PcOf(s, t).CloseResetting?
      modifies this`started, this`stopCh, this`stoppedCh
      ensures Tracks(WatcherLifecycle.Progress(s, t)) && !started && fresh(stopCh) && fresh(stoppedCh)
    {
      started := false;
      stopCh := new Channel();
      stoppedCh := new Channel();
    }

    /** A poll tick: a change schedules a reload one debounce window ahead, replacing any pending one. */
    method Tick(current: Observation, now: real, debounceWindow: real, ghost p: Timing, ghost d: Debounce.State)
      requires Shows(d) && d.now == now == d.nextTick && d.env == current && p.window == debounceWindow
      modifies this`timer
      ensures Shows(Debounce.Step(p, d, Debounce.Tick))
    {
      var changed := HasChanged(current, lastKnownState);
      if changed {
        timer := Some(now + debounceWindow);
      }
    }

    /** The debounced callback after onChange: `observed` is what the discovery cache has then. */
    method Fire(reloaded: bool, observed: Observation, ghost p: Timing, ghost d: Debounce.State)
      requires Shows(d) && d.timer == Some(d.now) && d.cache == observed
      modifies this`lastKnownState, this`timer
      ensures Shows(Debounce.Step(p, d, Debounce.Fire(reloaded)))
    {
      timer := None;
      if reloaded {
        lastKnownState := observed;
      }
    }
  }

  lemma PollLeavesItsOwnChannel(s: WatcherLifecycle.State, t: nat)
    requires WatcherLifecycle.Inv(s) && WatcherLifecycle.PcOf(s, t).PollLeaving?
    ensures WatcherLifecycle.PcOf(s, t).channel == s.stoppedCh && s.stoppedCh !in s.closed && s.stopCh != s.stoppedCh
  {
  }
}
