/** Runs that exist: without spurious wakeups every run goes on and completes any number of rounds, with them
    there are runs of any length that complete none. */
module FixedBarrierRuns {
  import opened Prelude
  import opened FixedBarrier
  import opened FixedBarrierSafety
  import opened FixedBarrierTheorems

  lemma Extend(max: nat, states: seq<State>, events: seq<Event>, e: Event)
    returns (states': seq<State>, events': seq<Event>)
    requires IsRun(max, states, events) && Possible(max, states[|events|], e)
    ensures IsRun(max, states', events') && events' == events + [e]
    ensures states'[|events'|] == Apply(max, states[|events|], e)
  {
    var next := Apply(max, states[|events|], e);
    assert Shape(max, next);
    states', events' := states + [next], events + [e];
  }

  /** However far a run without spurious wakeups has come, it can go on. */
  lemma {:induction false} CalmRunExists(max: nat, n: nat) returns (states: seq<State>, events: seq<Event>)
    requires max >= 2
    ensures CalmRun(max, states, events) && |events| == n
  {
    if n == 0 {
      states, events := [Init(max)], [];
    } else {
      states, events := CalmRunExists(max, n - 1);
      RunInv(max, states, events, n - 1);
      var t := SomeThreadCanRun(max, states[n - 1]);
      states, events := Extend(max, states, events, Run(t));
    }
  }

  /** Any number of rounds is completed by every thread, and so any number of lines printed. */
  lemma RoundsReached(max: nat, rounds: nat) returns (states: seq<State>, events: seq<Event>)
    requires max >= 2
    ensures CalmRun(max, states, events)
    ensures forall t: nat :: t < max ==> states[|events|].exits[t] >= rounds
  {
    var n := max * (15 * rounds + 29);
    states, events := CalmRunExists(max, n);
    var s := states[n];
    forall t: nat | t < max ensures s.exits[t] >= rounds {
      RoundsComplete(max, states, events, n, t);
      if s.exits[t] < rounds {
        MultiplyMonotone(max, 15 * s.exits[t] + 29, 15 * rounds + 29);
      }
    }
  }

  lemma {:induction false} MultiplyMonotone(m: nat, a: nat, b: nat)
    requires m > 0 && a < b
    ensures m * a < m * b
    decreases b
  {
    assert m * b == m * (b - 1) + m;
    if a < b - 1 {
      MultiplyMonotone(m, a, b - 1);
    }
  }

  /** How often thread `t` has called pthread_cond_wait, up to step `i`, since it last left the barrier. */
  ghost function WaitsSince(states: seq<State>, events: seq<Event>, t: nat, i: nat): nat
    requires i <= |events| < |states| && forall k :: 0 <= k < |states| ==> t < |states[k].pcs|
  {
    if i == 0 then 0
    else if events[i - 1] == Run(t) && states[i - 1].pcs[t].Unlock? then 0
    else WaitsSince(states, events, t, i - 1)
         + if events[i - 1] == Run(t) && states[i].pcs[t].Asleep? then 1 else 0
  }

  lemma WaitsNext(max: nat, s: State, e: Event, t: nat)
    requires Shape(max, s) && Possible(max, s, e) && t < max
    ensures Apply(max, s, e).waits[t] ==
            if e == Run(t) && s.pcs[t].Unlock? then 0
            else s.waits[t] + if e == Run(t) && Apply(max, s, e).pcs[t].Asleep? then 1 else 0
  {
  }

  lemma {:induction false} WaitsCounted(max: nat, states: seq<State>, events: seq<Event>, i: nat, t: nat)
    requires IsRun(max, states, events) && i < |states| && t < max
    ensures states[i].waits[t] == WaitsSince(states, events, t, i)
  {
    if i > 0 {
      WaitsCounted(max, states, events, i - 1, t);
      WaitsNext(max, states[i - 1], events[i - 1], t);
    }
  }

  /** Without spurious wakeups nobody waits more than twice in a round. */
  lemma TwoWaits(max: nat, states: seq<State>, events: seq<Event>, i: nat, t: nat)
    requires CalmRun(max, states, events) && i < |states| && t < max
    ensures WaitsSince(states, events, t, i) <= 2
  {
    WaitsCounted(max, states, events, i, t);
    WokenThreadsLeave(max, states, events, i, t);
  }

  /** Thread 0 sleeps in the first loop, the others have not begun. */
  ghost predicate OneAsleep(max: nat, s: State) {
    && Shape(max, s)
    && s.pcs == seq(max, i => Print)[0 := Asleep(First)]
    && s.onBarrier == 1 && s.owner.None?
    && s.exits == seq(max, i => 0)
  }

  lemma FirstSleeps(max: nat) returns (states: seq<State>, events: seq<Event>)
    requires max >= 2
    ensures IsRun(max, states, events) && OneAsleep(max, states[|events|])
  {
    states, events := [Init(max)], [];
    states, events := Extend(max, states, events, Run(0));
    states, events := Extend(max, states, events, Run(0));
    states, events := Extend(max, states, events, Run(0));
    states, events := Extend(max, states, events, Run(0));
    states, events := Extend(max, states, events, Run(0));
  }

  /** A spurious wakeup, the mutex, and back to sleep. */
  lemma SleepsAgain(max: nat, states: seq<State>, events: seq<Event>)
    returns (states': seq<State>, events': seq<Event>)
    requires IsRun(max, states, events) && OneAsleep(max, states[|events|])
    ensures IsRun(max, states', events') && OneAsleep(max, states'[|events'|])
    ensures |events'| == |events| + 3
  {
    states', events' := Extend(max, states, events, Spurious(0));
    states', events' := Extend(max, states', events', Run(0));
    states', events' := Extend(max, states', events', Run(0));
  }

  /** Spurious wakeups alone can keep a thread busy for ever: for every length there is a longer run in which
      no thread has completed a round. */
  lemma {:induction false} SpuriousForever(max: nat, n: nat) returns (states: seq<State>, events: seq<Event>)
    requires max >= 2
    ensures IsRun(max, states, events) && |events| >= n && OneAsleep(max, states[|events|])
  {
    if n == 0 {
      states, events := FirstSleeps(max);
    } else {
      states, events := SpuriousForever(max, n - 1);
      states, events := SleepsAgain(max, states, events);
    }
  }
}
