/** A producer and a consumer with one mutex and one condition variable for both kinds of sleep, and
    a third thread that prints the queue.  The threads signal only at the boundaries. */
module BoundedQueue {
  import opened Prelude

  /** When a thread signals after it has changed the queue: only at its boundary, as the program
      does, or every time. */
  datatype Policy = Selective | Always

  const PRODUCER: nat := 0
  const CONSUMER: nat := 1
  const PRINTER: nat := 2

  /** Statements of the producer and the consumer, which have the same shape. */
  datatype Pc =
    | Choose   // random: try this time or not
    | Lock     // take the mutex
    | Check    // loop condition: queue full, or empty
    | Asleep   // waiting, not notified
    | Woken    // notified, needs the mutex
    | Change   // insert, or remove, one message
    | Signal   // signal the other thread, if the boundary was hit
    | Unlock   // release the mutex

  datatype PrinterPc = TakeLock | PrintBar | Release

  /** `original` is the consumer's orig_in_queue; `inserted` and `removed` are history. */
  datatype State = State(
    inQueue: int, owner: Option<nat>, pcs: seq<Pc>, printerPc: PrinterPc, original: int,
    inserted: nat, removed: nat, bars: seq<string>)

  /** `attempt` is the outcome of random(), `wakes` the threads that a signal wakes up. */
  datatype Event = Run(t: nat, attempt: bool, wakes: set<nat>) | Spurious(t: nat) | Printer

  ghost predicate Shape(s: State) { |s.pcs| == 2 }

  ghost function Init(): State {
    State(0, None, [Choose, Choose], TakeLock, 0, 0, 0, [])
  }

  predicate MustSleep(capacity: int, inQueue: int, t: nat) {
    if t == PRODUCER then inQueue == capacity else inQueue == 0
  }

  predicate AtBoundary(capacity: int, inQueue: int, original: int, t: nat) {
    if t == PRODUCER then inQueue == 1 else original == capacity
  }

  ghost function Sleeping(s: State): set<nat>
    requires Shape(s)
  {
    set t | t in {PRODUCER, CONSUMER} && s.pcs[t].Asleep?
  }

  /** pthread_cond_signal wakes at least one of the threads that sleep, if any do. */
  ghost predicate SignalMayWake(s: State, wakes: set<nat>)
    requires Shape(s)
  {
    wakes <= Sleeping(s) && (Sleeping(s) != {} ==> wakes != {})
  }

  predicate CanRun(s: State, t: nat)
    requires Shape(s) && t < 2
  {
    !s.pcs[t].Asleep? && (s.pcs[t] in {Lock, Woken} ==> s.owner.None?)
  }

  predicate CanPrint(s: State) {
    s.printerPc.TakeLock? ==> s.owner.None?
  }

  ghost predicate Possible(policy: Policy, capacity: int, s: State, e: Event)
    requires Shape(s)
  {
    match e
    case Run(t, _, wakes) =>
      && t < 2 && CanRun(s, t)
      && if s.pcs[t].Signal? && (policy.Always? || AtBoundary(capacity, s.inQueue, s.original, t))
         then SignalMayWake(s, wakes) else wakes == {}
    case Spurious(t) => t < 2 && s.pcs[t].Asleep?
    case Printer => CanPrint(s)
  }

  function Wake(pcs: seq<Pc>, wakes: set<nat>): (r: seq<Pc>)
    ensures |r| == |pcs|
  {
    seq(|pcs|, i requires 0 <= i < |pcs| => if i in wakes then Woken else pcs[i])
  }

  /** One statement of the producer or the consumer. */
  ghost function Step(capacity: int, s: State, t: nat, attempt: bool, wakes: set<nat>): (r: State)
    requires Shape(s) && t < 2 && CanRun(s, t)
    ensures Shape(r)
  {
    match s.pcs[t]
    case Choose => s.(pcs := s.pcs[t := if attempt then Lock else Choose])
    case Lock => s.(pcs := s.pcs[t := Check], owner := Some(t))
    case Check =>
      if MustSleep(capacity, s.inQueue, t) then s.(pcs := s.pcs[t := Asleep], owner := None)
      else s.(pcs := s.pcs[t := Change])
    case Asleep => s
    case Woken => s.(pcs := s.pcs[t := Check], owner := Some(t))
    case Change =>
      if t == PRODUCER then
        s.(pcs := s.pcs[t := Signal], inQueue := s.inQueue + 1, inserted := s.inserted + 1)
      else
        s.(pcs := s.pcs[t := Signal], original := s.inQueue, inQueue := s.inQueue - 1, removed := s.removed + 1)
    case Signal => s.(pcs := Wake(s.pcs, wakes)[t := Unlock])
    case Unlock => s.(pcs := s.pcs[t := Choose], owner := None)
  }

  function Repeat(c: char, n: int): (r: string)
    ensures |r| == if n < 0 then 0 else n
    ensures forall i :: 0 <= i < |r| ==> r[i] == c
  {
    seq(if n < 0 then 0 else n, i => c)
  }

  /** A dot for each message and a space for each empty slot. */
  function Bar(inQueue: int, capacity: int): string {
    " |" + Repeat('.', inQueue) + Repeat(' ', capacity - inQueue) + "|\n"
  }

  ghost function PrinterStep(capacity: int, s: State): State
    requires CanPrint(s)
  {
    match s.printerPc
    case TakeLock => s.(printerPc := PrintBar, owner := Some(PRINTER))
    case PrintBar => s.(printerPc := Release, bars := s.bars + [Bar(s.inQueue, capacity)])
    case Release => s.(printerPc := TakeLock, owner := None)
  }

  ghost function Apply(policy: Policy, capacity: int, s: State, e: Event): (r: State)
    requires Shape(s) && Possible(policy, capacity, s, e)
    ensures Shape(r)
  {
    match e
    case Run(t, attempt, wakes) => Step(capacity, s, t, attempt, wakes)
    case Spurious(t) => s.(pcs := s.pcs[t := Woken])
    case Printer => PrinterStep(capacity, s)
  }

  ghost predicate IsRun(policy: Policy, capacity: int, states: seq<State>, events: seq<Event>) {
    && |states| == |events| + 1
    && states[0] == Init()
    && (forall i :: 0 <= i < |states| ==> Shape(states[i]))
    && forall i :: 0 <= i < |events| ==>
         && Possible(policy, capacity, states[i], events[i])
         && states[i + 1] == Apply(policy, capacity, states[i], events[i])
  }

  /** The program's variables, updated in place. */
  class Queue {
    const capacity: int
    var inQueue: int
    var owner: Option<nat>
    var pcs: seq<Pc>
    var printerPc: PrinterPc
    var original: int
    ghost var inserted: nat
    ghost var removed: nat
    var bars: seq<string>

    ghost function View(): State
      reads this
    {
      State(inQueue, owner, pcs, printerPc, original, inserted, removed, bars)
    }

    constructor (capacity: int)
      ensures this.capacity == capacity && View() == Init()
    {
      this.capacity := capacity;
      inQueue, owner, pcs, printerPc, original := 0, None, [Choose, Choose], TakeLock, 0;
      inserted, removed, bars := 0, 0, [];
    }

    /** The statement at which the producer or the consumer stands, with the program's signalling. */
    method Execute(t: nat, attempt: bool, wakes: set<nat>)
      requires Shape(View()) && Possible(Selective, capacity, View(), Run(t, attempt, wakes))
      modifies this
      ensures View() == Apply(Selective, capacity, old(View()), Run(t, attempt, wakes))
    {
      match pcs[t] {
        case Choose =>
          pcs := pcs[t := if attempt then Lock else Choose];
        case Lock =>
          owner := Some(t);
          pcs := pcs[t := Check];
        case Check =>
          if MustSleep(capacity, inQueue, t) {
            owner := None;
            pcs := pcs[t := Asleep];
          } else {
            pcs := pcs[t := Change];
          }
        case Woken =>
          owner := Some(t);
          pcs := pcs[t := Check];
        case Change =>
          if t == PRODUCER {
            inQueue := inQueue + 1;
            inserted := inserted + 1;
          } else {
            original := inQueue;
            inQueue := inQueue - 1;
            removed := removed + 1;
          }
          pcs := pcs[t := Signal];
        case Signal =>
          if AtBoundary(capacity, inQueue, original, t) {
            pcs := Wake(pcs, wakes);
          }
          assert !AtBoundary(capacity, inQueue, original, t) ==> Wake(pcs, wakes) == pcs;
          pcs := pcs[t := Unlock];
        case Unlock =>
          owner := None;
          pcs := pcs[t := Choose];
        case Asleep =>
          assert false;
      }
    }

    /** The loop of the main thread that prints the queue. */
    method PrintQueue() returns (bar: string)
      ensures bar == Bar(inQueue, capacity)
    {
      bar := " |";
      var i := 0;
      while i < inQueue
        invariant 0 <= i && (i <= inQueue || i == 0)
        invariant bar == " |" + Repeat('.', i)
      {
        bar := bar + ".";
        i := i + 1;
      }
      assert Repeat('.', i) == Repeat('.', inQueue);
      i := inQueue;
      while i < capacity
        invariant inQueue <= i && (i <= capacity || i == inQueue)
        invariant bar == " |" + Repeat('.', inQueue) + Repeat(' ', i - inQueue)
      {
        bar := bar + " ";
        i := i + 1;
      }
      assert Repeat(' ', i - inQueue) == Repeat(' ', capacity - inQueue);
      bar := bar + "|\n";
    }

    /** The statement at which the main thread stands. */
    method Print()
      requires Shape(View()) && CanPrint(View())
      modifies this
      ensures View() == PrinterStep(capacity, old(View()))
    {
      match printerPc {
        case TakeLock =>
          owner := Some(PRINTER);
          printerPc := PrintBar;
        case PrintBar =>
          var bar := PrintQueue();
          bars := bars + [bar];
          printerPc := Release;
        case Release =>
          owner := None;
          printerPc := TakeLock;
      }
    }

    /** pthread_cond_wait returns to a thread without a notification. */
    method WakeSpuriously(t: nat)
      requires Shape(View()) && t < 2 && pcs[t].Asleep?
      modifies this`pcs
      ensures View() == Apply(Selective, capacity, old(View()), Spurious(t))
    {
      pcs := pcs[t := Woken];
    }

    method Perform(e: Event)
      requires Shape(View()) && Possible(Selective, capacity, View(), e)
      modifies this
      ensures View() == Apply(Selective, capacity, old(View()), e)
    {
      match e {
        case Run(t, attempt, wakes) => Execute(t, attempt, wakes);
        case Spurious(t) => WakeSpuriously(t);
        case Printer => Print();
      }
    }

    /** A whole run on the program's variables. */
    method Replay(events: seq<Event>, ghost states: seq<State>)
      requires IsRun(Selective, capacity, states, events) && View() == Init()
      modifies this
      ensures View() == states[|events|]
    {
      for i := 0 to |events|
        invariant View() == states[i]
      {
        Perform(events[i]);
      }
    }
  }
}
