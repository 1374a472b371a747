/** The one-phase barrier: the same program without the second wait loop. */
module BrokenBarrier {
  import opened Prelude

  datatype Pc =
    | Print     // print the id
    | Lock      // take the mutex
    | Arrive    // on_barrier++
    | Test      // on_barrier % max == 0 ?
    | NewLine   // the last thread ends the line
    | Wake      // broadcast
    | Check     // loop condition
    | Asleep    // waiting, not notified
    | Woken     // notified, needs the mutex
    | Unlock    // release the mutex

  /** `arrivals` and `exits` are history: increments and completed rounds of each thread. */
  datatype State = State(onBarrier: nat, owner: Option<nat>, pcs: seq<Pc>, arrivals: seq<nat>, exits: seq<nat>)

  datatype Event = Run(thread: nat) | Spurious(thread: nat)

  ghost predicate Shape(max: nat, s: State) {
    max >= 2 && |s.pcs| == |s.arrivals| == |s.exits| == max
  }

  ghost function Init(max: nat): State {
    State(0, None, seq(max, i => Print), seq(max, i => 0), seq(max, i => 0))
  }

  function Awaken(pcs: seq<Pc>): (r: seq<Pc>)
    ensures |r| == |pcs|
    ensures forall i :: 0 <= i < |pcs| ==> r[i] == if pcs[i].Asleep? then Woken else pcs[i]
  {
    seq(|pcs|, i requires 0 <= i < |pcs| => if pcs[i].Asleep? then Woken else pcs[i])
  }

  predicate CanRun(s: State, t: nat)
    requires t < |s.pcs|
  {
    !s.pcs[t].Asleep? && (s.pcs[t] in {Lock, Woken} ==> s.owner.None?)
  }

  ghost function Goto(s: State, t: nat, pc: Pc): State
    requires t < |s.pcs|
  {
    s.(pcs := s.pcs[t := pc])
  }

  /** One statement of thread `t`. */
  ghost function Step(max: nat, s: State, t: nat): State
    requires Shape(max, s) && t < max && CanRun(s, t)
  {
    match s.pcs[t]
    case Print => Goto(s, t, Lock)
    case Lock => Goto(s, t, Arrive).(owner := Some(t))
    case Arrive => Goto(s, t, Test).(onBarrier := s.onBarrier + 1,
                                     arrivals := s.arrivals[t := s.arrivals[t] + 1])
    case Test => Goto(s, t, if s.onBarrier % max == 0 then NewLine else Check)
    case NewLine => Goto(s, t, Wake)
    case Wake => s.(pcs := Awaken(s.pcs)[t := Unlock])
    case Check => if s.onBarrier % max != 0 then Goto(s, t, Asleep).(owner := None) else Goto(s, t, Unlock)
    case Asleep => s
    case Woken => Goto(s, t, Check).(owner := Some(t))
    case Unlock => Goto(s, t, Print).(owner := None, exits := s.exits[t := s.exits[t] + 1])
  }

  ghost predicate Possible(max: nat, s: State, e: Event)
    requires Shape(max, s)
  {
    e.thread < max &&
    match e
    case Run(t) => CanRun(s, t)
    case Spurious(t) => s.pcs[t].Asleep?
  }

  ghost function Apply(max: nat, s: State, e: Event): (r: State)
    requires Shape(max, s) && Possible(max, s, e)
    ensures Shape(max, r)
  {
    match e
    case Run(t) => Step(max, s, t)
    case Spurious(t) => Goto(s, t, Woken)
  }

  /** `states` are successive states, `events` what happened between them. */
  ghost predicate IsPath(max: nat, states: seq<State>, events: seq<Event>) {
    && |states| == |events| + 1
    && (forall i :: 0 <= i < |states| ==> Shape(max, states[i]))
    && forall i :: 0 <= i < |events| ==>
         && Possible(max, states[i], events[i])
         && states[i + 1] == Apply(max, states[i], events[i])
  }

  ghost predicate Leads(max: nat, s: State, s': State) {
    exists states, events :: IsPath(max, states, events) && states[0] == s && states[|events|] == s'
  }

  ghost predicate Reachable(max: nat, s: State) {
    max >= 2 && Leads(max, Init(max), s)
  }

  lemma LeadsNowhere(max: nat, s: State)
    requires Shape(max, s)
    ensures Leads(max, s, s)
  {
    var states, events := [s], [];
    assert IsPath(max, states, events) && states[0] == s && states[|events|] == s;
  }

  lemma LeadsOn(max: nat, s: State, s': State, e: Event)
    requires Leads(max, s, s') && Shape(max, s') && Possible(max, s', e)
    ensures Leads(max, s, Apply(max, s', e))
  {
    var states, events :| IsPath(max, states, events) && states[0] == s && states[|events|] == s';
    var next := Apply(max, s', e);
    PathOn(max, states, events, e);
    var states', events' := states + [next], events + [e];
    assert IsPath(max, states', events') && states'[0] == s && states'[|events'|] == next;
  }

  lemma PathOn(max: nat, states: seq<State>, events: seq<Event>, e: Event)
    requires IsPath(max, states, events) && Possible(max, states[|events|], e)
    ensures IsPath(max, states + [Apply(max, states[|events|], e)], events + [e])
  {
  }

  lemma LeadsBefore(max: nat, s: State, e: Event, s': State)
    requires Shape(max, s) && Possible(max, s, e) && Leads(max, Apply(max, s, e), s')
    ensures Leads(max, s, s')
  {
    var states, events :| IsPath(max, states, events) && states[0] == Apply(max, s, e) && states[|events|] == s';
    var states', events' := [s] + states, [e] + events;
    assert IsPath(max, states', events') && states'[0] == s && states'[|events'|] == s';
  }

  lemma ReachableStep(max: nat, s: State, t: nat) returns (s': State)
    requires Reachable(max, s) && Shape(max, s) && t < max && CanRun(s, t)
    ensures s' == Step(max, s, t) && Shape(max, s') && Reachable(max, s')
  {
    s' := Apply(max, s, Run(t));
    LeadsOn(max, Init(max), s, Run(t));
  }

  /** The program's variables, updated in place by the statements of `thread`. */
  class Barrier {
    const max: nat
    var onBarrier: nat
    var owner: Option<nat>
    var pcs: seq<Pc>
    ghost var arrivals: seq<nat>
    ghost var exits: seq<nat>

    ghost function View(): State
      reads this
    {
      State(onBarrier, owner, pcs, arrivals, exits)
    }

    constructor (max: nat)
      requires max >= 2
      ensures this.max == max && View() == Init(max)
    {
      this.max := max;
      onBarrier, owner := 0, None;
      pcs := seq(max, i => Print);
      arrivals, exits := seq(max, i => 0), seq(max, i => 0);
    }

    /** The statement at which thread `t` stands, executed on the shared variables. */
    method Execute(t: nat)
      requires Shape(max, View()) && t < max && CanRun(View(), t)
      modifies this
      ensures View() == Step(max, old(View()), t)
    {
      match pcs[t] {
        case Print =>
          pcs := pcs[t := Lock];
        case Lock =>
          owner := Some(t);
          pcs := pcs[t := Arrive];
        case Arrive =>
          onBarrier := onBarrier + 1;
          arrivals := arrivals[t := arrivals[t] + 1];
          pcs := pcs[t := Test];
        case Test =>
          pcs := pcs[t := if onBarrier % max == 0 then NewLine else Check];
        case NewLine =>
          pcs := pcs[t := Wake];
        case Wake =>
          pcs := Awaken(pcs)[t := Unlock];
        case Check =>
          if onBarrier % max != 0 {
            owner := None;
            pcs := pcs[t := Asleep];
          } else {
            pcs := pcs[t := Unlock];
          }
        case Woken =>
          owner := Some(t);
          pcs := pcs[t := Check];
        case Unlock =>
          owner := None;
          exits := exits[t := exits[t] + 1];
          pcs := pcs[t := Print];
        case Asleep =>
          assert false;
      }
    }

    /** pthread_cond_wait returns to thread `t` without a notification. */
    method WakeSpuriously(t: nat)
      requires Shape(max, View()) && t < max && pcs[t].Asleep?
      modifies this`pcs
      ensures View() == Apply(max, old(View()), Spurious(t))
    {
      pcs := pcs[t := Woken];
    }

    method Perform(e: Event)
      requires Shape(max, View()) && Possible(max, View(), e)
      modifies this
      ensures View() == Apply(max, old(View()), e)
    {
      match e {
        case Run(t) => Execute(t);
        case Spurious(t) => WakeSpuriously(t);
      }
    }

    /** A whole run, or any part of one, on the program's variables. */
    method Replay(events: seq<Event>, ghost states: seq<State>)
      requires IsPath(max, states, events) && View() == states[0]
      modifies this
      ensures View() == states[|events|]
    {
      for i := 0 to |events|
        invariant View() == states[i]
      {
        Perform(events[i]);
      }
    }
  }
}
