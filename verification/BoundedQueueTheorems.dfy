/** Signalling at the boundaries is enough. */
module BoundedQueueTheorems {
  import opened Prelude
  import opened BoundedQueue

  predicate Holding(pc: Pc) { !(pc in {Choose, Lock, Asleep, Woken}) }

  ghost predicate Mutex(s: State)
    requires Shape(s)
  {
    && (forall t: nat :: t < 2 ==> (Holding(s.pcs[t]) <==> s.owner == Some(t)))
    && (!s.printerPc.TakeLock? <==> s.owner == Some(PRINTER))
    && (s.owner.Some? ==> s.owner.value <= PRINTER)
  }

  ghost predicate Counts(capacity: int, s: State)
    requires Shape(s)
  {
    && s.inQueue == s.inserted - s.removed
    && s.inQueue >= 0
    && (capacity >= 0 ==> s.inQueue <= capacity)
    && (s.pcs[PRODUCER].Change? ==> s.inQueue != capacity)
    && (s.pcs[CONSUMER].Change? ==> s.inQueue != 0)
    && (s.pcs[PRODUCER].Signal? ==> s.inQueue >= 1)
    && (s.pcs[CONSUMER].Signal? ==> s.original == s.inQueue + 1 && (capacity >= 0 ==> s.original <= capacity))
  }

  /** A thread sleeps without a notification only at its boundary, or while the other one is about to
      signal. */
  ghost predicate Sleepers(capacity: int, s: State)
    requires Shape(s)
  {
    && (s.pcs[PRODUCER].Asleep? ==>
          s.inQueue == capacity || (s.pcs[CONSUMER].Signal? && s.original == capacity))
    && (s.pcs[CONSUMER].Asleep? ==>
          s.inQueue == 0 || (s.pcs[PRODUCER].Signal? && s.inQueue == 1))
  }

  ghost predicate Inv(capacity: int, s: State) {
    Shape(s) && Mutex(s) && Counts(capacity, s) && Sleepers(capacity, s)
  }

  /** A signal away from the boundary finds nobody asleep. */
  lemma NobodyToWake(capacity: int, s: State, t: nat)
    requires Inv(capacity, s) && t < 2 && s.pcs[t].Signal?
    ensures !AtBoundary(capacity, s.inQueue, s.original, t) ==> !s.pcs[1 - t].Asleep?
  {
    assert Holding(s.pcs[t]) && s.owner == Some(t);
    assert !Holding(s.pcs[1 - t]);
  }

  /** At every good state both policies allow the same events, with the same effect. */
  lemma PoliciesAgree(capacity: int, s: State, e: Event)
    requires Inv(capacity, s)
    ensures Possible(Selective, capacity, s, e) <==> Possible(Always, capacity, s, e)
    ensures Possible(Selective, capacity, s, e) ==>
              Apply(Selective, capacity, s, e) == Apply(Always, capacity, s, e)
  {
    if e.Run? && e.t < 2 && s.pcs[e.t].Signal? {
      NobodyToWake(capacity, s, e.t);
    }
  }

  lemma MutexKept(policy: Policy, capacity: int, s: State, e: Event)
    requires Shape(s) && Mutex(s) && Possible(policy, capacity, s, e)
    ensures Mutex(Apply(policy, capacity, s, e))
  {
  }

  lemma CountsKept(policy: Policy, capacity: int, s: State, e: Event)
    requires Inv(capacity, s) && Possible(policy, capacity, s, e)
    ensures Counts(capacity, Apply(policy, capacity, s, e))
  {
    if e.Run? {
      assert Holding(s.pcs[e.t]) ==> !Holding(s.pcs[1 - e.t]);
      StatementCounts(capacity, s, e.t, e.attempt, e.wakes);
    }
  }

  lemma StatementCounts(capacity: int, s: State, t: nat, attempt: bool, wakes: set<nat>)
    requires Shape(s) && Counts(capacity, s) && t < 2 && CanRun(s, t)
    requires Holding(s.pcs[t]) ==> !Holding(s.pcs[1 - t])
    ensures Counts(capacity, Step(capacity, s, t, attempt, wakes))
  {
  }

  lemma SleepersKept(policy: Policy, capacity: int, s: State, e: Event)
    requires Inv(capacity, s) && Possible(policy, capacity, s, e)
    ensures Sleepers(capacity, Apply(policy, capacity, s, e))
  {
    if e.Run? {
      assert Holding(s.pcs[e.t]) ==> !Holding(s.pcs[1 - e.t]);
      if s.pcs[e.t].Signal? {
        NobodyToWake(capacity, s, e.t);
        if s.pcs[1 - e.t].Asleep? {
          assert 1 - e.t in Sleeping(s);
          var w :| w in e.wakes;
          assert w == 1 - e.t;
        }
      }
    }
  }

  lemma {:induction false} RunInv(policy: Policy, capacity: int, states: seq<State>, events: seq<Event>, i: nat)
    requires IsRun(policy, capacity, states, events) && i < |states|
    ensures Inv(capacity, states[i])
  {
    if i > 0 {
      RunInv(policy, capacity, states, events, i - 1);
      MutexKept(policy, capacity, states[i - 1], events[i - 1]);
      CountsKept(policy, capacity, states[i - 1], events[i - 1]);
      SleepersKept(policy, capacity, states[i - 1], events[i - 1]);
    }
  }

  /** The program that signals at the boundaries has exactly the runs of the one that signals every
      time. */
  lemma SelectiveSignallingSuffices(capacity: int, states: seq<State>, events: seq<Event>)
    ensures IsRun(Selective, capacity, states, events) <==> IsRun(Always, capacity, states, events)
  {
    forall p, q | IsRun(p, capacity, states, events) ensures IsRun(q, capacity, states, events) {
      forall i | 0 <= i < |events|
        ensures Possible(q, capacity, states[i], events[i])
        ensures states[i + 1] == Apply(q, capacity, states[i], events[i])
      {
        RunInv(p, capacity, states, events, i);
        PoliciesAgree(capacity, states[i], events[i]);
      }
    }
  }

  /** No lost wakeup: with the mutex free, a thread that sleeps un-notified has reason to. */
  lemma NoLostWakeup(policy: Policy, capacity: int, states: seq<State>, events: seq<Event>, i: nat)
    requires IsRun(policy, capacity, states, events) && i < |states|
    ensures var s := states[i];
            s.owner.None? || s.owner == Some(PRINTER) ==>
              && (s.pcs[PRODUCER].Asleep? ==> s.inQueue == capacity)
              && (s.pcs[CONSUMER].Asleep? ==> s.inQueue == 0)
  {
    RunInv(policy, capacity, states, events, i);
    assert Holding(states[i].pcs[PRODUCER]) ==> states[i].owner == Some(PRODUCER);
    assert Holding(states[i].pcs[CONSUMER]) ==> states[i].owner == Some(CONSUMER);
  }

  /** The picture of a queue with `q` messages, character by character: a space and a bar, a dot for each
      message, a space for each empty slot, a bar and the end of the line. */
  ghost predicate Picture(bar: string, q: int, capacity: int) {
    var width := if q >= capacity then q else capacity;
    && 0 <= q && |bar| == width + 4
    && bar[0] == ' ' && bar[1] == '|'
    && (forall p :: 2 <= p < q + 2 ==> bar[p] == '.')
    && (forall p :: q + 2 <= p < width + 2 ==> bar[p] == ' ')
    && bar[width + 2] == '|' && bar[width + 3] == '\n'
  }

  /** At step `j` the main thread prints, with the mutex, the bar number `b`, which shows the queue of that
      moment. */
  ghost predicate PrintedAt(capacity: int, states: seq<State>, events: seq<Event>, b: nat, bar: string, j: nat) {
    && j < |events| && |states| == |events| + 1
    && events[j].Printer? && states[j].printerPc.PrintBar? && states[j].owner == Some(PRINTER)
    && |states[j].bars| == b
    && Picture(bar, states[j].inQueue, capacity)
  }

  /** It was printed at one of the first `i` steps. */
  ghost predicate Printed(capacity: int, states: seq<State>, events: seq<Event>, b: nat, bar: string, i: nat) {
    exists j: nat :: j < i && PrintedAt(capacity, states, events, b, bar, j)
  }

  lemma BarIsPicture(q: int, capacity: int)
    requires q >= 0
    ensures Picture(Bar(q, capacity), q, capacity)
  {
    var bar, dots, spaces := Bar(q, capacity), Repeat('.', q), Repeat(' ', capacity - q);
    assert bar == " |" + dots + spaces + "|\n";
    assert forall p :: 2 <= p < q + 2 ==> bar[p] == dots[p - 2];
    assert forall p :: q + 2 <= p < q + |spaces| + 2 ==> bar[p] == spaces[p - q - 2];
  }

  /** Every printed bar shows the queue as it was when it was printed. */
  lemma {:induction false} BarsAreTrue(
    policy: Policy, capacity: int, states: seq<State>, events: seq<Event>, i: nat, b: nat)
    requires IsRun(policy, capacity, states, events) && i < |states| && b < |states[i].bars|
    ensures Printed(capacity, states, events, b, states[i].bars[b], i)
  {
    if i > 0 {
      if b < |states[i - 1].bars| {
        BarsAreTrue(policy, capacity, states, events, i - 1, b);
        BarStays(capacity, states[i - 1], events[i - 1], states[i], b, policy);
      } else {
        LastBar(policy, capacity, states, events, i - 1, b);
      }
    }
  }

  lemma BarStays(capacity: int, s: State, e: Event, s': State, b: nat, policy: Policy)
    requires Shape(s) && Possible(policy, capacity, s, e) && s' == Apply(policy, capacity, s, e) && b < |s.bars|
    ensures b < |s'.bars| && s'.bars[b] == s.bars[b]
  {
  }

  lemma LastBar(policy: Policy, capacity: int, states: seq<State>, events: seq<Event>, j: nat, b: nat)
    requires IsRun(policy, capacity, states, events) && j < |events|
    requires |states[j].bars| <= b < |states[j + 1].bars|
    ensures PrintedAt(capacity, states, events, b, states[j + 1].bars[b], j)
  {
    RunInv(policy, capacity, states, events, j);
    BarIsPicture(states[j].inQueue, capacity);
  }

  /** The queue stays within its bounds and loses nothing, and every printed bar is `capacity` wide and shows
      the queue of the moment it was printed. */
  lemma QueueConserved(policy: Policy, capacity: int, states: seq<State>, events: seq<Event>, i: nat)
    requires IsRun(policy, capacity, states, events) && i < |states|
    ensures var s := states[i];
            && s.inQueue == s.inserted - s.removed
            && 0 <= s.inQueue
            && (capacity >= 0 ==> s.inQueue <= capacity)
    ensures forall b: nat :: b < |states[i].bars| ==> Printed(capacity, states, events, b, states[i].bars[b], i)
    ensures capacity >= 0 ==> forall b :: 0 <= b < |states[i].bars| ==> |states[i].bars[b]| == capacity + 4
  {
    RunInv(policy, capacity, states, events, i);
    forall b: nat | b < |states[i].bars|
      ensures Printed(capacity, states, events, b, states[i].bars[b], i)
      ensures capacity >= 0 ==> |states[i].bars[b]| == capacity + 4
    {
      BarsAreTrue(policy, capacity, states, events, i, b);
      var j: nat :| j < i && PrintedAt(capacity, states, events, b, states[i].bars[b], j);
      RunInv(policy, capacity, states, events, j);
    }
  }

  /** Neither the producer nor the consumer can go on without a spurious wakeup. */
  ghost predicate Stuck(s: State)
    requires Shape(s)
  {
    s.pcs[PRODUCER].Asleep? && s.pcs[CONSUMER].Asleep?
  }

  lemma NeverStuck(policy: Policy, capacity: int, states: seq<State>, events: seq<Event>, i: nat)
    requires IsRun(policy, capacity, states, events) && i < |states| && capacity != 0
    ensures !Stuck(states[i])
    ensures states[i].owner == Some(PRINTER) || CanRun(states[i], PRODUCER) || CanRun(states[i], CONSUMER)
  {
    RunInv(policy, capacity, states, events, i);
    var s := states[i];
    assert Holding(s.pcs[PRODUCER]) <==> s.owner == Some(PRODUCER);
    assert Holding(s.pcs[CONSUMER]) <==> s.owner == Some(CONSUMER);
  }

  ghost predicate CanGetStuck(policy: Policy, capacity: int) {
    exists states, events, i: nat ::
      IsRun(policy, capacity, states, events) && i < |states| && Stuck(states[i])
  }

  lemma Extend(policy: Policy, capacity: int, states: seq<State>, events: seq<Event>, e: Event)
    returns (states': seq<State>, events': seq<Event>)
    requires IsRun(policy, capacity, states, events) && Possible(policy, capacity, states[|events|], e)
    ensures IsRun(policy, capacity, states', events') && events' == events + [e]
    ensures states'[|events'|] == Apply(policy, capacity, states[|events|], e)
  {
    states' := states + [Apply(policy, capacity, states[|events|], e)];
    events' := events + [e];
  }

  /** The producer and the consumer can both sleep for good if and only if the capacity is 0. */
  lemma StuckIffNoCapacity(policy: Policy, capacity: int)
    ensures CanGetStuck(policy, capacity) <==> capacity == 0
  {
    if capacity == 0 {
      var states, events := [Init()], [];
      states, events := Extend(policy, capacity, states, events, Run(PRODUCER, true, {}));
      states, events := Extend(policy, capacity, states, events, Run(PRODUCER, true, {}));
      states, events := Extend(policy, capacity, states, events, Run(PRODUCER, true, {}));
      states, events := Extend(policy, capacity, states, events, Run(CONSUMER, true, {}));
      states, events := Extend(policy, capacity, states, events, Run(CONSUMER, true, {}));
      states, events := Extend(policy, capacity, states, events, Run(CONSUMER, true, {}));
      assert Stuck(states[|events|]);
    } else if CanGetStuck(policy, capacity) {
      var states, events, i: nat :|
        IsRun(policy, capacity, states, events) && i < |states| && Stuck(states[i]);
      NeverStuck(policy, capacity, states, events, i);
      assert false;
    }
  }

  /** The program itself: after any run its variables are as these theorems say. */
  method Program(capacity: int, events: seq<Event>, ghost states: seq<State>) returns (q: Queue)
    requires IsRun(Selective, capacity, states, events)
    ensures fresh(q) && q.capacity == capacity && q.View() == states[|events|]
    ensures q.inQueue == q.inserted - q.removed && 0 <= q.inQueue && (capacity >= 0 ==> q.inQueue <= capacity)
    ensures forall b: nat :: b < |q.bars| ==> Printed(capacity, states, events, b, q.bars[b], |events|)
    ensures capacity != 0 ==> !Stuck(q.View())
  {
    q := new Queue(capacity);
    q.Replay(events, states);
    QueueConserved(Selective, capacity, states, events, |events|);
    if capacity != 0 {
      NeverStuck(Selective, capacity, states, events, |events|);
    }
  }
}
