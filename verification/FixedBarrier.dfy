/** The two-phase reusable barrier: one mutex, one condition variable, two counters.

    `max` threads each run the endless loop of `thread`.  A program counter names the statement a
    thread executes next; a thread inside `pthread_cond_wait` is either asleep and not notified, or
    notified and waiting to get the mutex back. */
module FixedBarrier {
  import opened Prelude

  /** The three calls of pthread_cond_wait: the loop every thread but the last one enters first,
      and the two copies of the second loop. */
  datatype Site = First | Leader | Second

  datatype Pc =
    | Print                            // print the id
    | Lock                             // take the mutex
    | Arrive                           // on_barrier++
    | Test                             // on_barrier % max == 0 ?
    | NewLine                          // the last thread ends the line
    | SetWoken                         // wokenup = 1
    | WakeFirst                        // broadcast to the first loop
    | Check(site: Site, again: bool)   // loop condition; `again` once the thread has waited here
    | Asleep(site: Site)               // waiting, not notified
    | Woken(site: Site)                // notified, needs the mutex
    | CountWoken                       // ++wokenup
    | TestWoken                        // wokenup == max ?
    | WakeSecond                       // broadcast to the second loops
    | Unlock                           // release the mutex

  /** `lines` and `line` are what has been printed: the ended lines and the current one.
      `arrivals`, `exits` and `waits` are history: increments of `onBarrier` and completed rounds
      of each thread, and the calls of pthread_cond_wait it made since it last left. */
  datatype State = State(
    onBarrier: nat, wokenup: nat, owner: Option<nat>, pcs: seq<Pc>,
    lines: seq<seq<nat>>, line: seq<nat>,
    arrivals: seq<nat>, exits: seq<nat>, waits: seq<nat>)

  datatype Event = Run(thread: nat) | Spurious(thread: nat)

  ghost predicate Shape(max: nat, s: State) {
    max >= 2 && |s.pcs| == |s.arrivals| == |s.exits| == |s.waits| == max
  }

  ghost function Init(max: nat): State {
    var zeros := seq(max, i => 0);
    State(0, 0, None, seq(max, i => Print), [], [], zeros, zeros, zeros)
  }

  /** pthread_cond_broadcast: every sleeping thread is notified. */
  function Awaken(pcs: seq<Pc>): (r: seq<Pc>)
    ensures |r| == |pcs|
    ensures forall i :: 0 <= i < |pcs| ==> r[i] == if pcs[i].Asleep? then Woken(pcs[i].site) else pcs[i]
  {
    seq(|pcs|, i requires 0 <= i < |pcs| => if pcs[i].Asleep? then Woken(pcs[i].site) else pcs[i])
  }

  predicate MustWait(max: nat, onBarrier: nat, wokenup: nat, site: Site)
    requires max > 0
  {
    if site.First? then onBarrier % max != 0 else wokenup < max
  }

  predicate CanRun(s: State, t: nat)
    requires t < |s.pcs|
  {
    match s.pcs[t]
    case Asleep(_) => false
    case Lock => s.owner.None?
    case Woken(_) => s.owner.None?
    case _ => true
  }

  ghost function Goto(s: State, t: nat, pc: Pc): State
    requires t < |s.pcs|
  {
    s.(pcs := s.pcs[t := pc])
  }

  /** One statement of thread `t`. */
  ghost function Step(max: nat, s: State, t: nat): State
    requires Shape(max, s) && t < max && CanRun(s, t)
  {
    match s.pcs[t]
    case Print => Goto(s, t, Lock).(line := s.line + [t])
    case Lock => Goto(s, t, Arrive).(owner := Some(t))
    case Arrive => Goto(s, t, Test).(onBarrier := s.onBarrier + 1,
                                     arrivals := s.arrivals[t := s.arrivals[t] + 1])
    case Test => Goto(s, t, if s.onBarrier % max == 0 then NewLine else Check(First, false))
    case NewLine => Goto(s, t, SetWoken).(lines := s.lines + [s.line], line := [])
    case SetWoken => Goto(s, t, WakeFirst).(wokenup := 1)
    case WakeFirst => s.(pcs := Awaken(s.pcs)[t := Check(Leader, false)])
    case Check(site, _) =>
      if MustWait(max, s.onBarrier, s.wokenup, site) then
        Goto(s, t, Asleep(site)).(owner := None, waits := s.waits[t := s.waits[t] + 1])
      else
        Goto(s, t, if site.First? then CountWoken else Unlock)
    case Asleep(_) => s
    case Woken(site) => Goto(s, t, Check(site, true)).(owner := Some(t))
    case CountWoken => Goto(s, t, TestWoken).(wokenup := s.wokenup + 1)
    case TestWoken => Goto(s, t, if s.wokenup == max then WakeSecond else Check(Second, false))
    case WakeSecond => s.(pcs := Awaken(s.pcs)[t := Unlock])
    case Unlock => Goto(s, t, Print).(owner := None, exits := s.exits[t := s.exits[t] + 1],
                                      waits := s.waits[t := 0])
  }

  /** POSIX allows pthread_cond_wait to return without a notification. */
  ghost predicate Possible(max: nat, s: State, e: Event)
    requires Shape(max, s)
  {
    e.thread < max &&
    match e
    case Run(t) => CanRun(s, t)
    case Spurious(t) => s.pcs[t].Asleep?
  }

  ghost function Apply(max: nat, s: State, e: Event): State
    requires Shape(max, s) && Possible(max, s, e)
  {
    match e
    case Run(t) => Step(max, s, t)
    case Spurious(t) => Goto(s, t, Woken(s.pcs[t].site))
  }

  /** `states` are the successive states of a run from the start, `events` what happened between
      them. */
  ghost predicate IsRun(max: nat, states: seq<State>, events: seq<Event>) {
    && |states| == |events| + 1
    && max >= 2
    && states[0] == Init(max)
    && (forall i :: 0 <= i < |states| ==> Shape(max, states[i]))
    && forall i :: 0 <= i < |events| ==>
         && Possible(max, states[i], events[i])
         && states[i + 1] == Apply(max, states[i], events[i])
  }

  /** The program's variables, updated in place by the statements of `thread`. */
  class Barrier {
    const max: nat
    var onBarrier: nat
    var wokenup: nat
    var owner: Option<nat>
    var pcs: seq<Pc>
    var lines: seq<seq<nat>>
    var line: seq<nat>
    ghost var arrivals: seq<nat>
    ghost var exits: seq<nat>
    ghost var waits: seq<nat>

    ghost function View(): State
      reads this
    {
      State(onBarrier, wokenup, owner, pcs, lines, line, arrivals, exits, waits)
    }

    constructor (max: nat)
      requires max >= 2
      ensures this.max == max && View() == Init(max)
    {
      this.max := max;
      onBarrier, wokenup, owner := 0, 0, None;
      pcs := seq(max, i => Print);
      lines, line := [], [];
      arrivals, exits, waits := seq(max, i => 0), seq(max, i => 0), seq(max, i => 0);
    }

    /** One iteration of a `while (condition) pthread_cond_wait(...)` loop. */
    method WaitLoop(t: nat, site: Site, done: Pc)
      requires Shape(max, View()) && t < max
      modifies this`pcs, this`owner, this`waits
      ensures View() ==
              if MustWait(max, old(onBarrier), old(wokenup), site) then
                Goto(old(View()), t, Asleep(site)).(owner := None, waits := old(waits)[t := old(waits)[t] + 1])
              else
                Goto(old(View()), t, done)
    {
      if MustWait(max, onBarrier, wokenup, site) {
        pcs := pcs[t := Asleep(site)];
        owner := None;
        waits := waits[t := waits[t] + 1];
      } else {
        pcs := pcs[t := done];
      }
    }

    /** Up to the test whether `t` is the last one to arrive. */
    method ComeIn(t: nat)
      requires Shape(max, View()) && t < max && CanRun(View(), t)
      requires pcs[t] in {Print, Lock, Arrive, Test}
      modifies this
      ensures View() == Step(max, old(View()), t)
    {
      match pcs[t] {
        case Print =>
          line := line + [t];
          pcs := pcs[t := Lock];
        case Lock =>
          owner := Some(t);
          pcs := pcs[t := Arrive];
        case Arrive =>
          onBarrier := onBarrier + 1;
          arrivals := arrivals[t := arrivals[t] + 1];
          pcs := pcs[t := Test];
        case Test =>
          if onBarrier % max == 0 {
            pcs := pcs[t := NewLine];
          } else {
            pcs := pcs[t := Check(First, false)];
          }
      }
    }

    /** The last thread to arrive ends the line and wakes the others. */
    method EndLine(t: nat)
      requires Shape(max, View()) && t < max
      requires pcs[t] in {NewLine, SetWoken, WakeFirst}
      modifies this
      ensures View() == Step(max, old(View()), t)
    {
      match pcs[t] {
        case NewLine =>
          lines, line := lines + [line], [];
          pcs := pcs[t := SetWoken];
        case SetWoken =>
          wokenup := 1;
          pcs := pcs[t := WakeFirst];
        case WakeFirst =>
          pcs := Awaken(pcs)[t := Check(Leader, false)];
      }
    }

    /** Between the first loop and the second. */
    method CountIn(t: nat)
      requires Shape(max, View()) && t < max
      requires pcs[t] in {CountWoken, TestWoken, WakeSecond}
      modifies this
      ensures View() == Step(max, old(View()), t)
    {
      match pcs[t] {
        case CountWoken =>
          wokenup := wokenup + 1;
          pcs := pcs[t := TestWoken];
        case TestWoken =>
          if wokenup == max {
            pcs := pcs[t := WakeSecond];
          } else {
            pcs := pcs[t := Check(Second, false)];
          }
        case WakeSecond =>
          pcs := Awaken(pcs)[t := Unlock];
      }
    }

    /** The statement at which thread `t` stands, executed on the shared variables. */
    method Execute(t: nat)
      requires Shape(max, View()) && t < max && CanRun(View(), t)
      modifies this
      ensures View() == Step(max, old(View()), t)
    {
      if pcs[t] in {Print, Lock, Arrive, Test} {
        ComeIn(t);
      } else if pcs[t] in {NewLine, SetWoken, WakeFirst} {
        EndLine(t);
      } else if pcs[t] in {CountWoken, TestWoken, WakeSecond} {
        CountIn(t);
      } else if pcs[t].Check? {
        WaitLoop(t, pcs[t].site, if pcs[t].site.First? then CountWoken else Unlock);
      } else if pcs[t].Woken? {
        owner := Some(t);
        pcs := pcs[t := Check(pcs[t].site, true)];
      } else {
        owner := None;
        exits := exits[t := exits[t] + 1];
        waits := waits[t := 0];
        pcs := pcs[t := Print];
      }
    }

    /** pthread_cond_wait returns to thread `t` without a notification. */
    method WakeSpuriously(t: nat)
      requires Shape(max, View()) && t < max && pcs[t].Asleep?
      modifies this`pcs
      ensures View() == Apply(max, old(View()), Spurious(t))
    {
      pcs := pcs[t := Woken(pcs[t].site)];
    }

    method Perform(e: Event)
      requires Shape(max, View()) && Possible(max, View(), e)
      modifies this
      ensures View() == Apply(max, old(View()), e)
    {
      match e {
        case Run(t) => Execute(t);
        case Spurious(t) => WakeSpuriously(t);
      }
    }

    /** A whole run on the program's variables. */
    method Replay(events: seq<Event>, ghost states: seq<State>)
      requires IsRun(max, states, events) && View() == Init(max)
      modifies this
      ensures View() == states[|events|]
    {
      for i := 0 to |events|
        invariant View() == states[i]
      {
        Perform(events[i]);
      }
    }
  }
}
