/** What holds in every run of the two-phase barrier. */
module FixedBarrierTheorems {
  import opened Prelude
  import opened FixedBarrier
  import opened FixedBarrierSafety
  import opened FixedBarrierOutput

  lemma ArrivalsCounted(max: nat, s: State, e: Event)
    requires Shape(max, s) && Possible(max, s, e)
    requires s.onBarrier == Sum(s.arrivals)
    ensures Apply(max, s, e).onBarrier == Sum(Apply(max, s, e).arrivals)
  {
    if e.Run? && s.pcs[e.thread].Arrive? {
      SumUpdate(s.arrivals, e.thread, s.arrivals[e.thread] + 1);
    }
  }

  /** Every state of every run is good, spurious wakeups included. */
  lemma {:induction false} RunInv(max: nat, states: seq<State>, events: seq<Event>, i: nat)
    requires IsRun(max, states, events) && i < |states|
    ensures OutputInv(max, states[i])
    ensures states[i].onBarrier == Sum(states[i].arrivals)
  {
    if i == 0 {
      InitOutput(max);
      SumConstant(Init(max).arrivals, 0);
    } else {
      RunInv(max, states, events, i - 1);
      ApplyOutput(max, states[i - 1], events[i - 1]);
      ArrivalsCounted(max, states[i - 1], events[i - 1]);
    }
  }

  /** A broadcast to the first loop is still to come from the thread that holds the mutex. */
  ghost predicate FirstBroadcastDue(max: nat, s: State)
    requires Shape(max, s)
  {
    s.owner.Some? && s.owner.value < max && s.pcs[s.owner.value] in {Test, NewLine, SetWoken, WakeFirst}
  }

  ghost predicate SecondBroadcastDue(max: nat, s: State)
    requires Shape(max, s)
  {
    s.owner.Some? && s.owner.value < max && s.pcs[s.owner.value] in {TestWoken, WakeSecond}
  }

  /** No lost wakeup: a thread sleeps without a notification only while its loop condition holds, or
      while the mutex holder is about to broadcast.  With the mutex free the condition holds. */
  lemma NoLostWakeup(max: nat, states: seq<State>, events: seq<Event>, i: nat, t: nat)
    requires IsRun(max, states, events) && i < |states| && t < max
    requires states[i].pcs[t].Asleep?
    ensures var s := states[i];
            if s.pcs[t].site.First? then s.onBarrier % max != 0 || FirstBroadcastDue(max, s)
            else s.wokenup < max || SecondBroadcastDue(max, s)
    ensures states[i].owner.None? ==>
              MustWait(max, states[i].onBarrier, states[i].wokenup, states[i].pcs[t].site)
  {
    RunInv(max, states, events, i);
    var s := states[i];
    var round, k := s.onBarrier / max, s.onBarrier % max;
    if Gathering(max, s, round, k) {
      GatheringAt(max, s, round, k, t);
    } else if Turning(max, s, round) {
      assert TurningThread(s, max, round, t);
      assert TurningThread(s, max, round, s.owner.value);
    } else {
      assert DrainingThread(s, max, round, t);
      BelowFull(max, PassedSet(max, s));
    }
  }

  /** Not everybody sleeps: in every reachable state some thread can run without a spurious wakeup. */
  lemma SomeThreadCanRun(max: nat, s: State) returns (t: nat)
    requires Inv(max, s)
    ensures t < max && CanRun(s, t)
  {
    var round, k := s.onBarrier / max, s.onBarrier % max;
    if s.owner.Some? {
      t := s.owner.value;
    } else if Gathering(max, s, round, k) {
      BelowFull(max, Arrived(max, s, round));
      t :| t in Below(max) && t !in Arrived(max, s, round);
      assert GatheringThread(s, max, round, t);
    } else {
      BelowFull(max, PassedSet(max, s));
      t :| t in Below(max) && t !in PassedSet(max, s);
      assert DrainingThread(s, max, round, t);
    }
  }

  lemma NoDeadlock(max: nat, states: seq<State>, events: seq<Event>, i: nat)
    requires IsRun(max, states, events) && i < |states|
    ensures exists t: nat :: t < max && Possible(max, states[i], Run(t))
  {
    RunInv(max, states, events, i);
    var t := SomeThreadCanRun(max, states[i]);
    assert Possible(max, states[i], Run(t));
  }

  /** Nobody is released from a round before everybody has arrived for it, nobody is more than one
      round ahead, and `onBarrier` counts all arrivals. */
  lemma PhaseSafety(max: nat, states: seq<State>, events: seq<Event>, i: nat, t: nat, u: nat)
    requires IsRun(max, states, events) && i < |states| && t < max && u < max
    ensures var s := states[i];
            && (s.pcs[t].Unlock? ==> s.arrivals[u] >= s.arrivals[t])
            && s.exits[t] <= s.arrivals[u]
            && s.exits[t] <= s.exits[u] + 1
            && s.onBarrier == Sum(s.arrivals)
  {
    RunInv(max, states, events, i);
    var s := states[i];
    Rounds(max, s, t, u, s.onBarrier / max, s.onBarrier % max);
  }

  lemma Rounds(max: nat, s: State, t: nat, u: nat, round: int, k: int)
    requires Shape(max, s) && Phase(max, s, round, k) && t < max && u < max
    ensures s.pcs[t].Unlock? ==> s.arrivals[u] >= s.arrivals[t]
    ensures s.exits[t] <= s.arrivals[u]
    ensures s.exits[t] <= s.exits[u] + 1
  {
    if Gathering(max, s, round, k) {
      GatheringAt(max, s, round, k, t);
      GatheringAt(max, s, round, k, u);
    } else if Turning(max, s, round) {
      assert TurningThread(s, max, round, t) && TurningThread(s, max, round, u);
    } else {
      assert DrainingThread(s, max, round, t) && DrainingThread(s, max, round, u);
    }
  }

  /** Every ended line of the output is a permutation of 0 .. max - 1. */
  lemma LinesArePermutations(max: nat, states: seq<State>, events: seq<Event>, i: nat, l: nat)
    requires IsRun(max, states, events) && i < |states| && l < |states[i].lines|
    ensures Permutation(max, states[i].lines[l])
    ensures |states[i].lines[l]| == max
  {
    RunInv(max, states, events, i);
    PermutationLength(max, states[i].lines[l]);
  }

  ghost function Ids(line: seq<nat>): (r: set<nat>)
    ensures forall t: nat :: t in r <==> t in line
  {
    set t | t in line
  }

  lemma {:induction false} DistinctSize(line: seq<nat>)
    requires Distinct(line)
    ensures |Ids(line)| == |line|
  {
    if line == [] {
      assert Ids(line) == {};
    } else {
      var last := |line| - 1;
      DistinctSize(line[..last]);
      assert line == line[..last] + [line[last]];
      assert Ids(line) == Ids(line[..last]) + {line[last]};
    }
  }

  lemma PermutationLength(max: nat, line: seq<nat>)
    requires Permutation(max, line)
    ensures |line| == max
  {
    DistinctSize(line);
    assert Ids(line) == Below(max);
  }

  /** The program itself: after any run its variables are as these theorems say. */
  method Program(max: nat, events: seq<Event>, ghost states: seq<State>) returns (b: Barrier)
    requires IsRun(max, states, events)
    ensures fresh(b) && b.max == max && b.View() == states[|events|]
    ensures forall l :: 0 <= l < |b.lines| ==> Permutation(max, b.lines[l])
    ensures b.onBarrier == Sum(b.arrivals)
    ensures exists t: nat :: t < max && CanRun(b.View(), t)
  {
    b := new Barrier(max);
    b.Replay(events, states);
    RunInv(max, states, events, |events|);
    NoDeadlock(max, states, events, |events|);
  }

  // ---- progress without spurious wakeups ----

  /** How far a thread is in its round. */
  function Position(pc: Pc): (p: nat)
    ensures p < 15
  {
    match pc
    case Print => 0
    case Lock => 1
    case Arrive => 2
    case Test => 3
    case NewLine => 4
    case SetWoken => 5
    case WakeFirst => 6
    case Check(site, again) => if site.First? then (if again then 7 else 4) else if again then 13 else 10
    case Asleep(site) => if site.First? then 5 else 11
    case Woken(site) => if site.First? then 6 else 12
    case CountWoken => 8
    case TestWoken => 9
    case WakeSecond => 10
    case Unlock => 14
  }

  ghost function Weight(s: State, t: nat): nat
    requires t < |s.pcs| == |s.exits|
  {
    15 * s.exits[t] + Position(s.pcs[t])
  }

  ghost function Weights(max: nat, s: State): seq<int>
    requires Shape(max, s)
  {
    seq(max, t requires 0 <= t < max => Weight(s, t))
  }

  /** Most waits a thread can have made in its round at a given statement. */
  function WaitsBy(pc: Pc): nat {
    if Position(pc) < 5 then 0 else if Position(pc) < 11 then 1 else 2
  }

  /** A thread notified by a broadcast finds its loop condition false when it checks again. */
  ghost predicate CalmThread(s: State, max: nat, t: nat)
    requires Shape(max, s) && t < max
  {
    var pc := s.pcs[t];
    && (pc.Woken? || (pc.Check? && pc.again) ==> !MustWait(max, s.onBarrier, s.wokenup, pc.site))
    && (pc.Check? && !pc.again ==> MustWait(max, s.onBarrier, s.wokenup, pc.site))
    && s.waits[t] <= WaitsBy(pc)
  }

  ghost predicate Calm(max: nat, s: State)
    requires Shape(max, s)
  {
    forall t: nat :: t < max ==> CalmThread(s, max, t)
  }

  /** A run in which nobody wakes up spuriously. */
  ghost predicate CalmRun(max: nat, states: seq<State>, events: seq<Event>) {
    IsRun(max, states, events) && forall i :: 0 <= i < |events| ==> events[i].Run?
  }

  /** A statement that changes neither counter keeps the other threads calm. */
  lemma CalmKept(max: nat, s: State, t: nat)
    requires Inv(max, s) && Calm(max, s) && t < max && CanRun(s, t)
    requires !(s.pcs[t] in {Arrive, SetWoken, WakeFirst, CountWoken, TestWoken, WakeSecond})
    ensures Calm(max, Step(max, s, t))
  {
    var s' := Step(max, s, t);
    assert CalmThread(s, max, t);
    CalmSelf(max, s, t);
    forall u: nat | u < max && u != t ensures CalmThread(s', max, u) {
      assert CalmThread(s, max, u);
      CalmOther(max, s, t, u);
    }
  }

  lemma CalmSelf(max: nat, s: State, t: nat)
    requires Shape(max, s) && t < max && CanRun(s, t) && CalmThread(s, max, t)
    requires !(s.pcs[t] in {Arrive, SetWoken, WakeFirst, CountWoken, TestWoken, WakeSecond})
    ensures CalmThread(Step(max, s, t), max, t)
  {
  }

  lemma CalmOther(max: nat, s: State, t: nat, u: nat)
    requires Shape(max, s) && t < max && CanRun(s, t) && u < max && u != t && CalmThread(s, max, u)
    requires !(s.pcs[t] in {Arrive, SetWoken, WakeFirst, CountWoken, TestWoken, WakeSecond})
    ensures CalmThread(Step(max, s, t), max, u)
  {
  }

  lemma CalmArrive(max: nat, s: State, t: nat)
    requires Inv(max, s) && Calm(max, s) && t < max && s.pcs[t].Arrive?
    ensures Calm(max, Step(max, s, t))
  {
    var s' := Step(max, s, t);
    var round, k := s.onBarrier / max, s.onBarrier % max;
    OutsideMeansGathering(max, s, t, round, k);
    forall u: nat | u < max ensures CalmThread(s', max, u) {
      assert CalmThread(s, max, u);
      GatheringAt(max, s, round, k, u);
    }
  }

  lemma CalmTurning(max: nat, s: State, round: int, t: nat)
    requires Shape(max, s) && Calm(max, s) && t < max && s.pcs[t] in {SetWoken, WakeFirst}
    requires s.onBarrier % max == 0 && Turning(max, s, round)
    ensures Calm(max, Step(max, s, t))
  {
    var s' := Step(max, s, t);
    assert TurningThread(s, max, round, t);
    forall u: nat | u < max ensures CalmThread(s', max, u) {
      assert CalmThread(s, max, u);
      assert TurningThread(s, max, round, u);
    }
  }

  lemma CalmDraining(max: nat, s: State, round: int, t: nat)
    requires Shape(max, s) && Mutex(max, s) && Calm(max, s)
    requires t < max && s.pcs[t] in {CountWoken, TestWoken}
    requires Draining(max, s, round)
    ensures Calm(max, Step(max, s, t))
  {
    var s' := Step(max, s, t);
    BelowFull(max, PassedSet(max, s));
    assert CalmThread(s, max, t);
    CountingSelf(max, s, t);
    forall u: nat | u < max && u != t ensures CalmThread(s', max, u) {
      assert CalmThread(s, max, u);
      assert !Holding(s.pcs[u]);
      CountingOther(max, s, t, u);
    }
  }

  lemma CountingSelf(max: nat, s: State, t: nat)
    requires Shape(max, s) && t < max && s.pcs[t] in {CountWoken, TestWoken}
    requires CalmThread(s, max, t) && s.wokenup <= max
    ensures CalmThread(Step(max, s, t), max, t)
  {
  }

  lemma CountingOther(max: nat, s: State, t: nat, u: nat)
    requires Shape(max, s) && t < max && s.pcs[t] in {CountWoken, TestWoken}
    requires u < max && u != t && !s.pcs[u].Check? && CalmThread(s, max, u)
    ensures CalmThread(Step(max, s, t), max, u)
  {
  }

  lemma CalmWakeSecond(max: nat, s: State, round: int, t: nat)
    requires Shape(max, s) && Calm(max, s) && t < max && s.pcs[t].WakeSecond?
    requires Draining(max, s, round)
    ensures Calm(max, Step(max, s, t))
  {
    var s' := Step(max, s, t);
    assert DrainingThread(s, max, round, t);
    forall u: nat | u < max ensures CalmThread(s', max, u) {
      assert CalmThread(s, max, u);
      assert DrainingThread(s, max, round, u);
      WakeSecondThread(max, s, round, t, u);
    }
  }

  lemma WakeSecondThread(max: nat, s: State, round: int, t: nat, u: nat)
    requires Shape(max, s) && t < max && s.pcs[t].WakeSecond? && u < max
    requires CalmThread(s, max, u) && DrainingThread(s, max, round, u) && s.wokenup == max
    ensures CalmThread(Step(max, s, t), max, u)
  {
  }

  lemma CalmStep(max: nat, s: State, t: nat)
    requires Inv(max, s) && Calm(max, s) && t < max && CanRun(s, t)
    ensures Calm(max, Step(max, s, t))
  {
    if s.pcs[t].Arrive? {
      CalmArrive(max, s, t);
    } else if s.pcs[t] in {SetWoken, WakeFirst} {
      LeaderMeansTurning(max, s, t);
      CalmTurning(max, s, s.onBarrier / max, t);
    } else if s.pcs[t] in {CountWoken, TestWoken} {
      CountingMeansDraining(max, s, t);
      CalmDraining(max, s, s.onBarrier / max, t);
    } else if s.pcs[t].WakeSecond? {
      CountingMeansDraining(max, s, t);
      CalmWakeSecond(max, s, s.onBarrier / max, t);
    } else {
      CalmKept(max, s, t);
    }
  }

  lemma ThreadAdvances(max: nat, s: State, t: nat)
    requires Shape(max, s) && t < max && CanRun(s, t) && CalmThread(s, max, t)
    ensures Weight(s, t) < Weight(Step(max, s, t), t)
  {
  }

  /** Every statement moves its thread forward and no other thread back. */
  lemma StepAdvances(max: nat, s: State, t: nat)
    requires Inv(max, s) && Calm(max, s) && t < max && CanRun(s, t)
    ensures Sum(Weights(max, s)) < Sum(Weights(max, Step(max, s, t)))
  {
    var s' := Step(max, s, t);
    assert CalmThread(s, max, t);
    ThreadAdvances(max, s, t);
    forall u: nat | u < max && u != t ensures Weight(s, u) <= Weight(s', u) {
      assert s'.exits[u] == s.exits[u];
    }
    SumGrows(Weights(max, s), Weights(max, s'), t);
  }

  lemma CalmInit(max: nat)
    requires max >= 2
    ensures Calm(max, Init(max)) && Sum(Weights(max, Init(max))) == 0
  {
    SumConstant(Weights(max, Init(max)), 0);
  }

  lemma {:induction false} CalmRunInv(max: nat, states: seq<State>, events: seq<Event>, i: nat)
    requires CalmRun(max, states, events) && i < |states|
    ensures Inv(max, states[i]) && Calm(max, states[i])
    ensures i <= Sum(Weights(max, states[i]))
  {
    RunInv(max, states, events, i);
    if i == 0 {
      CalmInit(max);
    } else {
      CalmRunInv(max, states, events, i - 1);
      CalmStep(max, states[i - 1], events[i - 1].thread);
      StepAdvances(max, states[i - 1], events[i - 1].thread);
    }
  }

  /** Without spurious wakeups a woken thread leaves its loop at the next check, and nobody waits
      more than twice in a round. */
  lemma WokenThreadsLeave(max: nat, states: seq<State>, events: seq<Event>, i: nat, t: nat)
    requires CalmRun(max, states, events) && i < |states| && t < max
    ensures var s := states[i];
            && (s.pcs[t].Woken? || (s.pcs[t].Check? && s.pcs[t].again) ==>
                  !MustWait(max, s.onBarrier, s.wokenup, s.pcs[t].site))
            && s.waits[t] <= 2
  {
    CalmRunInv(max, states, events, i);
    assert CalmThread(states[i], max, t);
  }

  /** Progress: after `i` statements, whoever executed them, every thread has completed at least
      (i / max - 29) / 15 rounds. */
  lemma RoundsComplete(max: nat, states: seq<State>, events: seq<Event>, i: nat, t: nat)
    requires CalmRun(max, states, events) && i < |states| && t < max
    ensures i <= max * (15 * states[i].exits[t] + 29)
  {
    CalmRunInv(max, states, events, i);
    var s := states[i];
    var bound := 15 * s.exits[t] + 29;
    forall u: nat | u < max ensures Weight(s, u) <= bound {
      Rounds(max, s, u, t, s.onBarrier / max, s.onBarrier % max);
    }
    SumAtMost(Weights(max, s), bound);
  }
}
