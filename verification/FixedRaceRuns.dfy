/** What the semaphore of the two processes holds, what each of them does and when it stops, and that the
    semaphore is needed. */
module FixedRaceRuns {
  import opened Prelude
  import opened FixedRace

  // ---- the semaphore ----

  function One(cond: bool): nat { if cond then 1 else 0 }

  ghost function NumInside(s: State): nat
    requires Shape(s)
  {
    One(Inside(s.pcs[CHILD])) + One(Inside(s.pcs[PARENT]))
  }

  /** How many processes have failed to give the semaphore back. */
  ghost function Lost(value: nat, states: seq<State>, events: seq<Event>, i: nat): nat
    requires IsRun(value, states, events) && i <= |events|
  {
    if i == 0 then 0
    else Lost(value, states, events, i - 1) + One(events[i - 1].Fail? && states[i - 1].pcs[events[i - 1].p].Up?)
  }

  lemma StepCounts(s: State, e: Event)
    requires Shape(s) && Possible(s, e)
    ensures var s' := Apply(s, e);
            && (s'.sem.Some? ==> s.sem.Some? && s'.sem.value + NumInside(s') + One(e.Fail? && s.pcs[e.p].Up?)
                                               == s.sem.value + NumInside(s))
            && (s'.sem.None? <==> s.sem.None? || (e == Run(PARENT) && s.pcs[PARENT].Cleanup?))
  {
    assert e.p == CHILD || e.p == PARENT;
  }

  /** Until the parent removes the semaphore, its value, the processes inside and the failures to give it back
      make up its first value. */
  lemma {:induction false} SemaphoreCounts(value: nat, states: seq<State>, events: seq<Event>, i: nat)
    requires IsRun(value, states, events) && i < |states|
    ensures states[i].sem.Some? ==>
              states[i].sem.value + NumInside(states[i]) + Lost(value, states, events, i) == value
  {
    if i > 0 {
      SemaphoreCounts(value, states, events, i - 1);
      StepCounts(states[i - 1], events[i - 1]);
    }
  }

  // ---- what a process does ----

  /** Statements executed since the last test of the loop. */
  function Position(pc: Pc): nat {
    match pc
    case Test => 0
    case Down => 1
    case Read0 => 2
    case Read1 => 3
    case Write1 => 4
    case Write0 => 5
    case Up => 6
    case Count => 7
    case _ => 0
  }

  predicate Looping(pc: Pc) { !(pc in {WaitChild, Cleanup, Exit}) }

  /** How many of the first `i` events are statements of process `p`. */
  ghost function Executed(events: seq<Event>, p: nat, i: nat): nat
    requires i <= |events|
  {
    if i == 0 then 0 else Executed(events, p, i - 1) + One(events[i - 1] == Run(p))
  }

  lemma StatementCounted(s: State, e: Event, p: nat)
    requires Shape(s) && Possible(s, e) && p < 2 && Looping(Apply(s, e).pcs[p])
    ensures Looping(s.pcs[p])
    ensures 8 * Apply(s, e).loops[p] + Position(Apply(s, e).pcs[p])
            == 8 * s.loops[p] + Position(s.pcs[p]) + One(e == Run(p))
  {
    assert p == CHILD || p == PARENT;
    assert e.p == CHILD || e.p == PARENT;
  }

  /** Whatever the other process does, one that is in its loop has executed eight statements for each loop it
      has counted and those of the present one. */
  lemma {:induction false} StatementsCounted(value: nat, states: seq<State>, events: seq<Event>, i: nat, p: nat)
    requires IsRun(value, states, events) && i < |states| && p < 2 && Looping(states[i].pcs[p])
    ensures Executed(events, p, i) == 8 * states[i].loops[p] + Position(states[i].pcs[p])
  {
    if i > 0 {
      StatementCounted(states[i - 1], events[i - 1], p);
      StatementsCounted(value, states, events, i - 1, p);
    }
  }

  // ---- how a process stops ----

  /** Statements left for a process that has been told to stop. */
  function Left(pc: Pc): nat {
    match pc
    case Down => 10
    case Read0 => 9
    case Read1 => 8
    case Write1 => 7
    case Write0 => 6
    case Up => 5
    case Count => 4
    case Test => 3
    case WaitChild => 2
    case Cleanup => 1
    case Exit => 0
  }

  /** At its next test of the loop, at the latest, the process leaves it. */
  ghost predicate Stopping(s: State, p: nat) {
    Shape(s) && p < 2 && (!s.run[p] || !Looping(s.pcs[p]))
  }

  lemma LeftFalls(s: State, e: Event, p: nat)
    requires Stopping(s, p) && Possible(s, e)
    ensures Stopping(Apply(s, e), p)
    ensures Left(Apply(s, e).pcs[p]) + One(e == Run(p)) <= Left(s.pcs[p])
  {
    assert p == CHILD || p == PARENT;
    assert e.p == CHILD || e.p == PARENT;
  }

  lemma ToldToStop(s: State, e: Event, p: nat)
    requires Shape(s) && Possible(s, e) && p < 2 && (e == SigInt(p) || e == Fail(p))
    ensures Stopping(Apply(s, e), p)
    ensures Left(Apply(s, e).pcs[p]) <= 10
  {
  }

  lemma LeftNext(value: nat, states: seq<State>, events: seq<Event>, i: nat, p: nat)
    requires IsRun(value, states, events) && i < |events| && p < 2
    ensures Stopping(states[i], p) ==>
              Stopping(states[i + 1], p)
              && Left(states[i + 1].pcs[p]) + One(events[i] == Run(p)) <= Left(states[i].pcs[p])
    ensures events[i] == SigInt(p) || events[i] == Fail(p) ==>
              Stopping(states[i + 1], p) && Left(states[i + 1].pcs[p]) <= 10
  {
    if events[i] == SigInt(p) || events[i] == Fail(p) {
      ToldToStop(states[i], events[i], p);
    }
    if Stopping(states[i], p) {
      LeftFalls(states[i], events[i], p);
    }
  }

  /** What process `p` has executed and may yet execute is at most `bound`. */
  ghost predicate Within(states: seq<State>, events: seq<Event>, i: nat, p: nat, bound: nat)
    requires i < |states| && i <= |events|
  {
    Stopping(states[i], p) && Executed(events, p, i) + Left(states[i].pcs[p]) <= bound
  }

  lemma WithinNext(value: nat, states: seq<State>, events: seq<Event>, i: nat, p: nat, bound: nat)
    requires IsRun(value, states, events) && i < |events| && Within(states, events, i, p, bound)
    ensures Within(states, events, i + 1, p, bound)
  {
    LeftNext(value, states, events, i, p);
  }

  lemma {:induction false} StaysWithin(
    value: nat, states: seq<State>, events: seq<Event>, j: nat, i: nat, p: nat, bound: nat)
    requires IsRun(value, states, events) && j <= i < |states| && Within(states, events, j, p, bound)
    ensures Within(states, events, i, p, bound)
    decreases i
  {
    if i > j {
      StaysWithin(value, states, events, j, i - 1, p, bound);
      WithinNext(value, states, events, i - 1, p, bound);
    }
  }

  /** After a SIGINT, or a failure, a process executes at most ten statements more. */
  lemma StopsSoon(value: nat, states: seq<State>, events: seq<Event>, j: nat, i: nat, p: nat)
    requires IsRun(value, states, events) && j < i < |states| && p < 2
    requires events[j] == SigInt(p) || events[j] == Fail(p)
    ensures Stopping(states[i], p)
    ensures Executed(events, p, i) + Left(states[i].pcs[p]) <= Executed(events, p, j) + 10
  {
    LeftNext(value, states, events, j, p);
    StaysWithin(value, states, events, j + 1, i, p, Executed(events, p, j) + 10);
  }

  lemma NotTold(s: State, e: Event, p: nat)
    requires Shape(s) && Possible(s, e) && p < 2 && s.run[p] && Looping(s.pcs[p])
    requires e != SigInt(p) && e != Fail(p)
    ensures Apply(s, e).run[p] && Looping(Apply(s, e).pcs[p])
  {
  }

  /** Without SIGINT and without a failure a process stays in its loop. */
  lemma {:induction false} LoopsOn(value: nat, states: seq<State>, events: seq<Event>, i: nat, p: nat)
    requires IsRun(value, states, events) && i < |states| && p < 2
    requires forall j :: 0 <= j < i ==> events[j] != SigInt(p) && events[j] != Fail(p)
    ensures states[i].run[p] && Looping(states[i].pcs[p])
  {
    if i > 0 {
      LoopsOn(value, states, events, i - 1, p);
      NotTold(states[i - 1], events[i - 1], p);
    }
  }

  /** A run in which no system call fails. */
  predicate Faultless(events: seq<Event>) {
    forall i :: 0 <= i < |events| ==> !events[i].Fail?
  }

  /** The parent cleans up last. */
  ghost predicate ParentLast(s: State) {
    && Shape(s)
    && (s.pcs[PARENT].Cleanup? || s.pcs[PARENT].Exit? ==> s.pcs[CHILD].Exit?)
    && (s.sem.None? <==> s.pcs[PARENT].Exit?)
    && !s.pcs[CHILD].WaitChild?
  }

  lemma ParentStaysLast(s: State, e: Event)
    requires ParentLast(s) && Possible(s, e) && !e.Fail?
    ensures ParentLast(Apply(s, e))
  {
    assert e.p == CHILD || e.p == PARENT;
  }

  lemma {:induction false} FaultlessRun(value: nat, states: seq<State>, events: seq<Event>, i: nat)
    requires IsRun(value, states, events) && Faultless(events) && i < |states|
    ensures ParentLast(states[i]) && Lost(value, states, events, i) == 0
  {
    if i > 0 {
      FaultlessRun(value, states, events, i - 1);
      ParentStaysLast(states[i - 1], events[i - 1]);
    }
  }

  /** If no call fails, the semaphore is there until both processes have exited, and until then one of them can
      execute a statement: with `StopsSoon`, both exit after SIGINT. */
  lemma NeverStuck(value: nat, states: seq<State>, events: seq<Event>, i: nat)
    requires IsRun(value, states, events) && value > 0 && Faultless(events) && i < |states|
    ensures var s := states[i];
            && (s.sem.None? <==> s.pcs == [Exit, Exit])
            && (CanRun(s, CHILD) || CanRun(s, PARENT) || s.pcs == [Exit, Exit])
  {
    FaultlessRun(value, states, events, i);
    SemaphoreCounts(value, states, events, i);
    var s := states[i];
    if s.sem.None? {
      assert s.pcs == [Exit, Exit];
    }
  }

  // ---- the semaphore is needed ----

  lemma Extend(value: nat, states: seq<State>, events: seq<Event>, e: Event)
    returns (states': seq<State>, events': seq<Event>)
    requires IsRun(value, states, events) && Possible(states[|events|], e)
    ensures IsRun(value, states', events')
    ensures events' == events + [e] && states'[|events'|] == Apply(states[|events|], e)
  {
    states', events' := states + [Apply(states[|events|], e)], events + [e];
  }

  /** The parent has written one of the bytes. */
  lemma ParentWrites(value: nat) returns (states: seq<State>, events: seq<Event>)
    requires value >= 2
    ensures IsRun(value, states, events)
    ensures states[|events|]
            == State(Some(value - 1), 0, 1, [Test, Write0], [true, true], [0, 0], [0, 0], [0, 0])
  {
    states, events := [Start(value)], [];
    states, events := Extend(value, states, events, Run(PARENT));
    states, events := Extend(value, states, events, Run(PARENT));
    states, events := Extend(value, states, events, Run(PARENT));
    states, events := Extend(value, states, events, Run(PARENT));
    states, events := Extend(value, states, events, Run(PARENT));
  }

  /** With a semaphore that lets both in, the child counts an inconsistency. */
  lemma ChildLooks(value: nat) returns (states: seq<State>, events: seq<Event>)
    requires value >= 2
    ensures IsRun(value, states, events) && states[|events|].races == [1, 0]
  {
    states, events := ParentWrites(value);
    states, events := Extend(value, states, events, Run(CHILD));
    states, events := Extend(value, states, events, Run(CHILD));
    states, events := Extend(value, states, events, Run(CHILD));
    states, events := Extend(value, states, events, Run(CHILD));
  }

  /** No inconsistency is ever counted if and only if the semaphore does not let both in. */
  lemma NoInconsistencyIff(value: nat)
    ensures (forall states: seq<State>, events: seq<Event>, i: nat :: IsRun(value, states, events) && i < |states| ==>
               states[i].races == [0, 0])
            <==> value <= 1
  {
    if value <= 1 {
      forall states: seq<State>, events: seq<Event>, i: nat | IsRun(value, states, events) && i < |states|
        ensures states[i].races == [0, 0]
      {
        NoInconsistency(value, states, events, i);
      }
    } else {
      var states, events := ChildLooks(value);
      assert states[|events|].races != [0, 0];
    }
  }

  /** The program itself: after any run both processes have counted no inconsistency, the semaphore, unless
      removed, holds what is left of its 1, and a process that is in its loop has executed eight statements for
      each loop it has counted. */
  method Program(events: seq<Event>, ghost states: seq<State>) returns (p: Processes)
    requires IsRun(1, states, events)
    ensures fresh(p) && p.View() == states[|events|] && |p.pcs| == |p.loops| == 2
    ensures p.races == [0, 0]
    ensures !Inside(p.pcs[CHILD]) && !Inside(p.pcs[PARENT]) ==> p.addr0 == p.addr1
    ensures p.sem.Some? && Faultless(events) ==>
              p.sem.value == if Inside(p.pcs[CHILD]) || Inside(p.pcs[PARENT]) then 0 else 1
    ensures forall q: nat :: q < 2 && Looping(p.pcs[q]) ==>
              Executed(events, q, |events|) == 8 * p.loops[q] + Position(p.pcs[q])
  {
    p := new Processes();
    p.Replay(events, states);
    NoInconsistency(1, states, events, |events|);
    if Faultless(events) {
      FaultlessRun(1, states, events, |events|);
      SemaphoreCounts(1, states, events, |events|);
    }
    forall q: nat | q < 2 && Looping(p.pcs[q])
      ensures Executed(events, q, |events|) == 8 * p.loops[q] + Position(p.pcs[q])
    {
      StatementsCounted(1, states, events, |events|, q);
    }
  }
}
