/** A parent and a child write the same value to two shared bytes under a System V semaphore, check
    first that the bytes agree, and stop on SIGINT, which may come at any point. */
module FixedRace {
  import opened Prelude

  const CHILD: nat := 0
  const PARENT: nat := 1

  datatype Pc =
    | Test       // while (run)
    | Down       // semop -1
    | Read0      // read addr[0]
    | Read1      // read addr[1] and compare
    | Write1     // the assignments, right to left
    | Write0
    | Up         // semop +1
    | Count      // ++i
    | WaitChild  // the parent's wait()
    | Cleanup    // the parent removes the semaphore
    | Exit

  /** `sem` is None once the semaphore has been removed; `races` is j and `loops` is i of each process. */
  datatype State = State(
    sem: Option<nat>, addr0: nat, addr1: nat, pcs: seq<Pc>, run: seq<bool>, read: seq<nat>,
    races: seq<nat>, loops: seq<nat>)

  /** A semop may fail for any reason, a signal and a removed semaphore among them; a signal also ends
      the parent's wait() early. */
  datatype Event = Run(p: nat) | Fail(p: nat) | SigInt(p: nat)

  ghost predicate Shape(s: State) {
    |s.pcs| == |s.run| == |s.read| == |s.races| == |s.loops| == 2
  }

  /** The program starts with the semaphore at 1. */
  ghost function Start(value: nat): State {
    State(Some(value), 0, 0, [Test, Test], [true, true], [0, 0], [0, 0], [0, 0])
  }

  /** What each process writes. */
  function Mark(p: nat): nat { if p == PARENT then 1 else 2 }

  predicate CanRun(s: State, p: nat)
    requires p < |s.pcs| && |s.pcs| == 2
  {
    match s.pcs[p]
    case Down => s.sem.Some? && s.sem.value > 0
    case Up => s.sem.Some?
    case WaitChild => s.pcs[CHILD].Exit?
    case Exit => false
    case _ => true
  }

  ghost predicate Possible(s: State, e: Event)
    requires Shape(s)
  {
    e.p < 2 &&
    match e
    case Run(p) => CanRun(s, p)
    case Fail(p) => s.pcs[p] in {Down, Up, WaitChild}
    case SigInt(p) => true
  }

  ghost function Goto(s: State, p: nat, pc: Pc): State
    requires p < |s.pcs|
  {
    s.(pcs := s.pcs[p := pc])
  }

  /** One memory access or system call of a process. */
  ghost function Step(s: State, p: nat): State
    requires Shape(s) && p < 2 && CanRun(s, p)
  {
    match s.pcs[p]
    case Test => Goto(s, p, if s.run[p] then Down else if p == PARENT then WaitChild else Cleanup)
    case Down => Goto(s, p, Read0).(sem := Some(s.sem.value - 1))
    case Read0 => Goto(s, p, Read1).(read := s.read[p := s.addr0])
    case Read1 => Goto(s, p, Write1).(races := if s.read[p] != s.addr1 then s.races[p := s.races[p] + 1] else s.races)
    case Write1 => Goto(s, p, Write0).(addr1 := Mark(p))
    case Write0 => Goto(s, p, Up).(addr0 := Mark(p))
    case Up => Goto(s, p, Count).(sem := Some(s.sem.value + 1))
    case Count => Goto(s, p, Test).(loops := s.loops[p := s.loops[p] + 1])
    case WaitChild => Goto(s, p, Cleanup)
    case Cleanup => Goto(s, p, Exit).(sem := if p == PARENT then None else s.sem)
    case Exit => s
  }

  ghost function Apply(s: State, e: Event): (r: State)
    requires Shape(s) && Possible(s, e)
    ensures Shape(r)
  {
    match e
    case Run(p) => Step(s, p)
    case Fail(p) => Goto(s, p, Cleanup)
    case SigInt(p) => s.(run := s.run[p := false])
  }

  /** `states` are the successive states of a run, `events` what happened between them, from a
      semaphore that holds `value`. */
  ghost predicate IsRun(value: nat, states: seq<State>, events: seq<Event>) {
    && |states| == |events| + 1
    && states[0] == Start(value)
    && (forall i :: 0 <= i < |states| ==> Shape(states[i]))
    && forall i :: 0 <= i < |events| ==>
         Possible(states[i], events[i]) && states[i + 1] == Apply(states[i], events[i])
  }

  /** The shared bytes, the semaphore and the processes' variables, updated in place. */
  class Processes {
    var sem: Option<nat>
    var addr0: nat
    var addr1: nat
    var pcs: seq<Pc>
    var run: seq<bool>
    var read: seq<nat>
    var races: seq<nat>
    var loops: seq<nat>

    ghost function View(): State
      reads this
    {
      State(sem, addr0, addr1, pcs, run, read, races, loops)
    }

    constructor ()
      ensures View() == Start(1)
    {
      sem, addr0, addr1, pcs, run := Some(1), 0, 0, [Test, Test], [true, true];
      read, races, loops := [0, 0], [0, 0], [0, 0];
    }

    /** up_down(): the operation, or clean up and exit. */
    method UpDown(p: nat, delta: int, next: Pc, fails: bool)
      requires Shape(View()) && p < 2
      requires !fails ==> sem.Some? && sem.value + delta >= 0
      modifies this`sem, this`pcs
      ensures View() == if fails then Goto(old(View()), p, Cleanup)
                        else Goto(old(View()), p, next).(sem := Some(old(sem).value + delta))
    {
      if fails {
        pcs := pcs[p := Cleanup];
      } else {
        sem := Some(sem.value + delta);
        pcs := pcs[p := next];
      }
    }

    /** The system call at which process `p` stands fails. */
    method Refuse(p: nat)
      requires Shape(View()) && Possible(View(), Fail(p))
      modifies this`sem, this`pcs
      ensures View() == Apply(old(View()), Fail(p))
    {
      if pcs[p].WaitChild? {
        pcs := pcs[p := Cleanup];
      } else {
        UpDown(p, if pcs[p].Up? then 1 else -1, Cleanup, true);
      }
    }

    method Interrupt(p: nat)
      requires Shape(View()) && p < 2
      modifies this`run
      ensures View() == Apply(old(View()), SigInt(p))
    {
      run := run[p := false];
    }

    method Execute(p: nat)
      requires Shape(View()) && p < 2 && CanRun(View(), p)
      modifies this
      ensures View() == Step(old(View()), p)
    {
      match pcs[p] {
        case Test =>
          pcs := pcs[p := if run[p] then Down else if p == PARENT then WaitChild else Cleanup];
        case Down =>
          UpDown(p, -1, Read0, false);
        case Read0 =>
          read := read[p := addr0];
          pcs := pcs[p := Read1];
        case Read1 =>
          if read[p] != addr1 {
            races := races[p := races[p] + 1];
          }
          pcs := pcs[p := Write1];
        case Write1 =>
          addr1 := Mark(p);
          pcs := pcs[p := Write0];
        case Write0 =>
          addr0 := Mark(p);
          pcs := pcs[p := Up];
        case Up =>
          UpDown(p, 1, Count, false);
        case Count =>
          loops := loops[p := loops[p] + 1];
          pcs := pcs[p := Test];
        case WaitChild =>
          pcs := pcs[p := Cleanup];
        case Cleanup =>
          if p == PARENT {
            sem := None;
          }
          pcs := pcs[p := Exit];
        case Exit =>
          assert false;
      }
    }

    method Perform(e: Event)
      requires Shape(View()) && Possible(View(), e)
      modifies this
      ensures View() == Apply(old(View()), e)
    {
      match e {
        case Run(p) => Execute(p);
        case Fail(p) => Refuse(p);
        case SigInt(p) => Interrupt(p);
      }
    }

    /** A whole run on the processes' variables. */
    method Replay(events: seq<Event>, ghost states: seq<State>)
      requires IsRun(1, states, events) && View() == Start(1)
      modifies this
      ensures View() == states[|events|]
    {
      for i := 0 to |events|
        invariant View() == states[i]
      {
        Perform(events[i]);
      }
    }
  }

  predicate Inside(pc: Pc) { pc in {Read0, Read1, Write1, Write0, Up} }

  ghost predicate Inv(s: State) {
    && Shape(s)
    && !(Inside(s.pcs[CHILD]) && Inside(s.pcs[PARENT]))
    && (s.sem.Some? ==> s.sem.value <= if Inside(s.pcs[CHILD]) || Inside(s.pcs[PARENT]) then 0 else 1)
    && (forall p: nat :: p < 2 ==>
          && s.races[p] == 0
          && (s.pcs[p].Read1? ==> s.read[p] == s.addr0)
          && (s.pcs[p].Write0? ==> s.addr1 == Mark(p))
          && (s.pcs[p].Up? ==> s.addr0 == Mark(p)))
    && (s.pcs[CHILD].Write0? || s.pcs[PARENT].Write0? || s.addr0 == s.addr1)
  }

  lemma GoesIn(s: State, p: nat)
    requires Inv(s) && p < 2 && CanRun(s, p) && s.pcs[p].Down?
    ensures Inv(Step(s, p))
  {
    assert p == CHILD || p == PARENT;
  }

  lemma OutsideStep(s: State, p: nat)
    requires Inv(s) && p < 2 && CanRun(s, p) && !Inside(s.pcs[p]) && !s.pcs[p].Down?
    ensures Inv(Step(s, p))
  {
    assert p == CHILD || p == PARENT;
  }

  lemma InsideStep(s: State, p: nat)
    requires Inv(s) && p < 2 && CanRun(s, p) && Inside(s.pcs[p])
    ensures Inv(Step(s, p))
  {
    assert p == CHILD || p == PARENT;
  }

  lemma FailKeeps(s: State, p: nat)
    requires Inv(s) && p < 2 && s.pcs[p] in {Down, Up, WaitChild}
    ensures Inv(Goto(s, p, Cleanup))
  {
    assert p == CHILD || p == PARENT;
  }

  lemma ApplyInv(s: State, e: Event)
    requires Inv(s) && Possible(s, e)
    ensures Inv(Apply(s, e))
  {
    match e {
      case Run(p) =>
        if Inside(s.pcs[p]) {
          InsideStep(s, p);
        } else if s.pcs[p].Down? {
          GoesIn(s, p);
        } else {
          OutsideStep(s, p);
        }
      case Fail(p) =>
        FailKeeps(s, p);
      case SigInt(p) =>
    }
  }

  lemma {:induction false} RunInv(value: nat, states: seq<State>, events: seq<Event>, i: nat)
    requires IsRun(value, states, events) && value <= 1 && i < |states|
    ensures Inv(states[i])
  {
    if i == 0 {
      assert Inv(Start(value));
    } else {
      RunInv(value, states, events, i - 1);
      ApplyInv(states[i - 1], events[i - 1]);
    }
  }

  /** Whenever SIGINT comes and whichever system call fails, the processes are never both inside, the
      inconsistency counts stay 0, and the bytes agree whenever nobody is inside, and on the value that a
      process writes when it is about to leave. */
  lemma NoInconsistency(value: nat, states: seq<State>, events: seq<Event>, i: nat)
    requires IsRun(value, states, events) && value <= 1 && i < |states|
    ensures var s := states[i];
            && !(Inside(s.pcs[CHILD]) && Inside(s.pcs[PARENT]))
            && s.races == [0, 0]
            && (!Inside(s.pcs[CHILD]) && !Inside(s.pcs[PARENT]) ==> s.addr0 == s.addr1)
            && (s.pcs[CHILD].Up? ==> s.addr0 == s.addr1 == 2)
            && (s.pcs[PARENT].Up? ==> s.addr0 == s.addr1 == 1)
  {
    RunInv(value, states, events, i);
  }
}
