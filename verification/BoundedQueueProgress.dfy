/** The producer and the consumer make progress: each message takes a bounded number of statements. */
module BoundedQueueProgress {
  import opened Prelude
  import opened BoundedQueue
  import opened BoundedQueueTheorems

  /** What happens when random() always says to try and nobody wakes up spuriously. */
  ghost predicate Busy(e: Event) { e.Printer? || (e.Run? && e.attempt) }

  ghost predicate BusyRun(policy: Policy, capacity: int, states: seq<State>, events: seq<Event>) {
    IsRun(policy, capacity, states, events) && forall i :: 0 <= i < |events| ==> Busy(events[i])
  }

  /** Statements since the last message was put in, or taken out; the check comes before the sleep as long as
      its condition holds. */
  ghost function Position(capacity: int, s: State, t: nat): int
    requires Shape(s) && t < 2
  {
    match s.pcs[t]
    case Choose => 0
    case Lock => 1
    case Check => if MustSleep(capacity, s.inQueue, t) then 2 else 5
    case Asleep => 3
    case Woken => 4
    case Change => 6
    case Signal => -2
    case Unlock => -1
  }

  ghost function Moved(s: State, t: nat): nat {
    if t == PRODUCER then s.inserted else s.removed
  }

  ghost function Weight(capacity: int, s: State, t: nat): int
    requires Shape(s) && t < 2
  {
    9 * Moved(s, t) + Position(capacity, s, t)
  }

  /** A notified thread finds its condition false. */
  ghost predicate Calm(capacity: int, s: State)
    requires Shape(s)
  {
    forall t: nat :: t < 2 && s.pcs[t].Woken? ==> !MustSleep(capacity, s.inQueue, t)
  }

  lemma CalmKept(policy: Policy, capacity: int, s: State, e: Event)
    requires Inv(capacity, s) && Calm(capacity, s) && Possible(policy, capacity, s, e) && Busy(e)
    ensures Calm(capacity, Apply(policy, capacity, s, e))
  {
    if e.Run? {
      assert Holding(s.pcs[e.t]) ==> !Holding(s.pcs[1 - e.t]);
      if s.pcs[e.t].Signal? {
        assert Wake(s.pcs, e.wakes)[1 - e.t].Woken? ==> s.pcs[1 - e.t].Woken? || 1 - e.t in e.wakes;
      }
    }
  }

  /** A thread's statement brings its next message closer, and does not set the other one back. */
  lemma Advances(policy: Policy, capacity: int, s: State, e: Event, t: nat)
    requires Inv(capacity, s) && Calm(capacity, s) && Possible(policy, capacity, s, e) && Busy(e) && t < 2
    ensures var s' := Apply(policy, capacity, s, e);
            Weight(capacity, s', t) >= Weight(capacity, s, t) + if e.Run? && e.t == t then 1 else 0
  {
    if e.Run? {
      assert Holding(s.pcs[e.t]) ==> !Holding(s.pcs[1 - e.t]);
    }
  }

  ghost function Turns(events: seq<Event>, t: nat, i: nat): nat
    requires i <= |events|
  {
    if i == 0 then 0 else Turns(events, t, i - 1) + if events[i - 1].Run? && events[i - 1].t == t then 1 else 0
  }

  lemma {:induction false} BusyRunInv(
    policy: Policy, capacity: int, states: seq<State>, events: seq<Event>, i: nat, t: nat)
    requires BusyRun(policy, capacity, states, events) && i < |states| && t < 2
    ensures Inv(capacity, states[i]) && Calm(capacity, states[i])
    ensures Turns(events, t, i) <= Weight(capacity, states[i], t)
  {
    RunInv(policy, capacity, states, events, i);
    if i > 0 {
      BusyRunInv(policy, capacity, states, events, i - 1, t);
      CalmKept(policy, capacity, states[i - 1], events[i - 1]);
      Advances(policy, capacity, states[i - 1], events[i - 1], t);
    }
  }

  /** The producer puts in at least one message every nine statements that it executes, and the consumer takes
      one out, whatever the schedule. */
  lemma MessagesMove(policy: Policy, capacity: int, states: seq<State>, events: seq<Event>, i: nat)
    requires BusyRun(policy, capacity, states, events) && i < |states|
    ensures Turns(events, PRODUCER, i) <= 9 * states[i].inserted + 6
    ensures Turns(events, CONSUMER, i) <= 9 * states[i].removed + 6
  {
    BusyRunInv(policy, capacity, states, events, i, PRODUCER);
    BusyRunInv(policy, capacity, states, events, i, CONSUMER);
  }

  lemma {:induction false} TurnsSum(events: seq<Event>, i: nat)
    requires i <= |events| && forall k :: 0 <= k < |events| ==> events[k].Run? && events[k].t < 2
    ensures Turns(events, PRODUCER, i) + Turns(events, CONSUMER, i) == i
  {
    if i > 0 {
      TurnsSum(events, i - 1);
    }
  }

  /** A statement that the producer or the consumer can execute. */
  lemma NextTurn(capacity: int, states: seq<State>, events: seq<Event>) returns (e: Event)
    requires IsRun(Selective, capacity, states, events) && capacity != 0
    requires states[|events|].printerPc.TakeLock?
    ensures Possible(Selective, capacity, states[|events|], e) && Busy(e) && e.Run? && e.t < 2
  {
    var s := states[|events|];
    RunInv(Selective, capacity, states, events, |events|);
    NeverStuck(Selective, capacity, states, events, |events|);
    var t := if CanRun(s, PRODUCER) then PRODUCER else CONSUMER;
    var signals := s.pcs[t].Signal? && AtBoundary(capacity, s.inQueue, s.original, t);
    e := Run(t, true, if signals then Sleeping(s) else {});
  }

  /** Unless the capacity is 0 there is such a run of every length: the two never have to stop. */
  lemma {:induction false} BusyRuns(capacity: int, turns: nat) returns (states: seq<State>, events: seq<Event>)
    requires capacity != 0
    ensures BusyRun(Selective, capacity, states, events) && |events| == turns
    ensures forall i :: 0 <= i < |events| ==> events[i].Run? && events[i].t < 2
    ensures states[|events|].printerPc.TakeLock?
  {
    if turns == 0 {
      states, events := [Init()], [];
    } else {
      states, events := BusyRuns(capacity, turns - 1);
      var e := NextTurn(capacity, states, events);
      states, events := Extend(Selective, capacity, states, events, e);
    }
  }

  /** With a capacity of at least 1 any number of messages can go through the queue. */
  lemma MessagesGoThrough(capacity: int, messages: nat) returns (states: seq<State>, events: seq<Event>)
    requires capacity >= 1
    ensures IsRun(Selective, capacity, states, events) && states[|events|].removed >= messages
  {
    var turns := 9 * (2 * messages + capacity) + 12;
    states, events := BusyRuns(capacity, turns);
    MessagesMove(Selective, capacity, states, events, turns);
    TurnsSum(events, turns);
    QueueConserved(Selective, capacity, states, events, turns);
  }

  // ---- what is counted in every run, whatever the schedule ----

  function One(cond: bool): nat { if cond then 1 else 0 }

  /** How often, in the first `i` steps, thread `t` has gone to sleep, or decided to try. */
  ghost function Sleeps(capacity: int, states: seq<State>, events: seq<Event>, t: nat, i: nat): nat
    requires i <= |events| <= |states| && t < 2 && forall k :: 0 <= k < |states| ==> Shape(states[k])
  {
    if i == 0 then 0
    else
      var s, e := states[i - 1], events[i - 1];
      Sleeps(capacity, states, events, t, i - 1)
      + One(e.Run? && e.t == t && s.pcs[t].Check? && MustSleep(capacity, s.inQueue, t))
  }

  ghost function Attempts(states: seq<State>, events: seq<Event>, t: nat, i: nat): nat
    requires i <= |events| <= |states| && t < 2 && forall k :: 0 <= k < |states| ==> Shape(states[k])
  {
    if i == 0 then 0
    else
      var e := events[i - 1];
      Attempts(states, events, t, i - 1) + One(e.Run? && e.t == t && states[i - 1].pcs[t].Choose? && e.attempt)
  }

  /** It has been woken up, by a signal or spuriously. */
  ghost function Wakeups(events: seq<Event>, t: nat, i: nat): nat
    requires i <= |events|
  {
    if i == 0 then 0
    else
      var e := events[i - 1];
      Wakeups(events, t, i - 1) + One((e.Run? && t in e.wakes) || e == Spurious(t))
  }

  /** It has taken the mutex again after that, to check its condition once more. */
  ghost function Returns(states: seq<State>, events: seq<Event>, t: nat, i: nat): nat
    requires i <= |events| <= |states| && t < 2 && forall k :: 0 <= k < |states| ==> Shape(states[k])
  {
    if i == 0 then 0
    else
      var e := events[i - 1];
      Returns(states, events, t, i - 1) + One(e.Run? && e.t == t && states[i - 1].pcs[t].Woken?)
  }

  /** Everybody who sleeps is woken up, or sleeps still; everybody who is woken up checks again, or is about to;
      every attempt has moved one message, or is still to do so. */
  lemma {:induction false} WakeupsCounted(
    policy: Policy, capacity: int, states: seq<State>, events: seq<Event>, i: nat, t: nat)
    requires IsRun(policy, capacity, states, events) && i < |states| && t < 2
    ensures Sleeps(capacity, states, events, t, i) == Wakeups(events, t, i) + One(states[i].pcs[t].Asleep?)
    ensures Wakeups(events, t, i) == Returns(states, events, t, i) + One(states[i].pcs[t].Woken?)
    ensures Attempts(states, events, t, i)
            == Moved(states[i], t) + One(Trying(states[i].pcs[t]))
  {
    if i > 0 {
      WakeupsCounted(policy, capacity, states, events, i - 1, t);
      StepCounted(policy, capacity, states[i - 1], events[i - 1], t);
    }
  }

  lemma StepCounted(policy: Policy, capacity: int, s: State, e: Event, t: nat)
    requires Shape(s) && Possible(policy, capacity, s, e) && t < 2
    ensures var s' := Apply(policy, capacity, s, e);
            var pc, pc' := s.pcs[t], s'.pcs[t];
            && One(e.Run? && e.t == t && pc.Check? && MustSleep(capacity, s.inQueue, t)) + One(pc.Asleep?)
               == One((e.Run? && t in e.wakes) || e == Spurious(t)) + One(pc'.Asleep?)
            && One((e.Run? && t in e.wakes) || e == Spurious(t)) + One(pc.Woken?)
               == One(e.Run? && e.t == t && pc.Woken?) + One(pc'.Woken?)
            && One(e.Run? && e.t == t && pc.Choose? && e.attempt) + One(Trying(pc)) + Moved(s, t)
               == Moved(s', t) + One(Trying(pc'))
  {
  }

  /** Decided to try, and no message moved yet. */
  predicate Trying(pc: Pc) { pc in {Lock, Check, Asleep, Woken, Change} }

  ghost function Prints(events: seq<Event>, i: nat): nat
    requires i <= |events|
  {
    if i == 0 then 0 else Prints(events, i - 1) + One(events[i - 1].Printer?)
  }

  function PrintPosition(pc: PrinterPc): int {
    match pc
    case TakeLock => 0
    case PrintBar => 1
    case Release => -1
  }

  lemma PrintCounted(policy: Policy, capacity: int, s: State, e: Event)
    requires Shape(s) && Possible(policy, capacity, s, e)
    ensures var s' := Apply(policy, capacity, s, e);
            3 * |s'.bars| + PrintPosition(s'.printerPc)
            == 3 * |s.bars| + PrintPosition(s.printerPc) + One(e.Printer?)
  {
  }

  /** The main thread prints one bar in every three of its steps. */
  lemma {:induction false} BarsCounted(
    policy: Policy, capacity: int, states: seq<State>, events: seq<Event>, i: nat)
    requires IsRun(policy, capacity, states, events) && i < |states|
    ensures Prints(events, i) == 3 * |states[i].bars| + PrintPosition(states[i].printerPc)
  {
    if i > 0 {
      BarsCounted(policy, capacity, states, events, i - 1);
      PrintCounted(policy, capacity, states[i - 1], events[i - 1]);
    }
  }
}
