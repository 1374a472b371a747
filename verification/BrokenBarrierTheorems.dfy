/** The one-phase barrier keeps the safety of the two-phase one, and can get stuck for ever. */
module BrokenBarrierTheorems {
  import opened Prelude
  import opened BrokenBarrier

  predicate Holding(pc: Pc) { !(pc in {Print, Lock, Asleep, Woken}) }

  predicate InLoop(pc: Pc) { pc in {Check, Asleep, Woken} }

  ghost function Arrived(max: nat, s: State, round: int): (r: set<nat>)
    requires Shape(max, s)
    ensures forall t: nat :: t in r <==> t < max && s.arrivals[t] == round + 1
  {
    set t | t in Below(max) && s.arrivals[t] == round + 1
  }

  ghost predicate Mutex(max: nat, s: State)
    requires Shape(max, s)
  {
    && (forall t: nat :: t < max ==> (Holding(s.pcs[t]) <==> s.owner == Some(t)))
    && (s.owner.Some? ==> s.owner.value < max)
  }

  /** The last thread to arrive is on its way to the broadcast. */
  ghost predicate BroadcastDue(max: nat, s: State)
    requires Shape(max, s)
  {
    s.owner.Some? && s.owner.value < max && s.pcs[s.owner.value] in {Test, NewLine, Wake}
  }

  ghost predicate ThreadInv(s: State, max: nat, round: int, k: int, t: nat)
    requires Shape(max, s) && t < max
  {
    var pc := s.pcs[t];
    && (|| (s.arrivals[t] == s.exits[t] == round && pc in {Print, Lock, Arrive})
        || (s.arrivals[t] == round + 1 && s.exits[t] == round && (InLoop(pc) || pc.Test?))
        || (s.arrivals[t] == round && s.exits[t] == round - 1 && (InLoop(pc) || pc.Unlock?))
        || (s.arrivals[t] == round && s.exits[t] == round - 1 && k == 0 && pc in {Test, NewLine, Wake}))
    && (pc.Asleep? && k == 0 ==> BroadcastDue(max, s))
  }

  ghost predicate Rounds(max: nat, s: State, round: int, k: int)
    requires Shape(max, s)
  {
    && (forall t: nat :: t < max ==> ThreadInv(s, max, round, k, t))
    && |Arrived(max, s, round)| == k
  }

  ghost predicate Inv(max: nat, s: State) {
    && Shape(max, s)
    && Mutex(max, s)
    && Rounds(max, s, s.onBarrier / max, s.onBarrier % max)
  }

  lemma InitInv(max: nat)
    requires max >= 2
    ensures Inv(max, Init(max))
  {
    DivModUnique(0, max, 0, 0);
    assert Arrived(max, Init(max), 0) == {};
  }

  lemma RoundsAt(max: nat, s: State, round: int, k: int, t: nat)
    requires Shape(max, s) && Rounds(max, s, round, k) && t < max
    ensures ThreadInv(s, max, round, k, t)
    ensures s.arrivals[t] == round + 1 ==> k >= 1
  {
    if s.arrivals[t] == round + 1 {
      assert t in Arrived(max, s, round);
    }
  }

  lemma ArriveGrows(max: nat, s: State, round: int, k: int, t: nat)
    requires Shape(max, s) && Rounds(max, s, round, k) && t < max && s.pcs[t].Arrive?
    ensures var after := Arrived(max, Step(max, s, t), round);
            after == Arrived(max, s, round) + {t} && |after| == k + 1 <= max
  {
    var before, after := Arrived(max, s, round), Arrived(max, Step(max, s, t), round);
    RoundsAt(max, s, round, k, t);
    assert after == before + {t} && t !in before;
    BelowFull(max, after);
  }

  lemma ArriveEarly(max: nat, s: State, round: int, k: int, t: nat)
    requires Shape(max, s) && Mutex(max, s) && Rounds(max, s, round, k) && t < max && s.pcs[t].Arrive?
    requires k + 1 < max
    ensures Rounds(max, Step(max, s, t), round, k + 1)
  {
    var s', k' := Step(max, s, t), k + 1;
    ArriveGrows(max, s, round, k, t);
    forall i: nat | i < max ensures ThreadInv(s', max, round, k', i) {
      RoundsAt(max, s, round, k, i);
    }
  }

  lemma ArriveLast(max: nat, s: State, round: int, k: int, t: nat)
    requires Shape(max, s) && Mutex(max, s) && Rounds(max, s, round, k) && t < max && s.pcs[t].Arrive?
    requires k + 1 >= max
    ensures Rounds(max, Step(max, s, t), round + 1, 0)
  {
    var s', next := Step(max, s, t), round + 1;
    ArriveGrows(max, s, round, k, t);
    BelowFull(max, Arrived(max, s', round));
    forall i: nat | i < max ensures ThreadInv(s', max, next, 0, i) && s'.arrivals[i] == next {
      assert i in Arrived(max, s', round);
      RoundsAt(max, s, round, k, i);
    }
    assert Arrived(max, s', next) == {};
  }

  lemma OthersKeep(max: nat, s: State, e: Event, round: int, k: int)
    requires Shape(max, s) && Mutex(max, s) && Rounds(max, s, round, k) && Possible(max, s, e)
    requires k == 0 <==> s.onBarrier % max == 0
    requires e.Run? ==> !s.pcs[e.thread].Arrive?
    ensures Rounds(max, Apply(max, s, e), round, k)
  {
    var s' := Apply(max, s, e);
    RoundsAt(max, s, round, k, e.thread);
    assert Arrived(max, s', round) == Arrived(max, s, round);
    forall i: nat | i < max ensures ThreadInv(s', max, round, k, i) {
      RoundsAt(max, s, round, k, i);
      OtherThread(max, s, e, round, k, i);
    }
  }

  lemma OtherThread(max: nat, s: State, e: Event, round: int, k: int, i: nat)
    requires Shape(max, s) && Mutex(max, s) && Possible(max, s, e) && i < max
    requires ThreadInv(s, max, round, k, i) && ThreadInv(s, max, round, k, e.thread)
    requires k == 0 <==> s.onBarrier % max == 0
    requires e.Run? ==> !s.pcs[e.thread].Arrive?
    requires e.Run? && s.arrivals[e.thread] == round + 1 ==> k != 0
    ensures ThreadInv(Apply(max, s, e), max, round, k, i)
  {
  }

  lemma ApplyMutex(max: nat, s: State, e: Event)
    requires Shape(max, s) && Mutex(max, s) && Possible(max, s, e)
    ensures Mutex(max, Apply(max, s, e))
  {
  }

  lemma ArriveInv(max: nat, s: State, t: nat, round: int, k: int)
    requires Shape(max, s) && Mutex(max, s) && Rounds(max, s, round, k) && t < max && s.pcs[t].Arrive?
    requires k < max
    ensures var s' := Step(max, s, t);
            if k == max - 1 then Rounds(max, s', round + 1, 0) else Rounds(max, s', round, k + 1)
  {
    if k + 1 < max {
      ArriveEarly(max, s, round, k, t);
    } else {
      ArriveLast(max, s, round, k, t);
    }
  }

  lemma ArriveRounds(max: nat, s: State, t: nat)
    requires Inv(max, s) && t < max && s.pcs[t].Arrive?
    ensures Rounds(max, Step(max, s, t), (s.onBarrier + 1) / max, (s.onBarrier + 1) % max)
  {
    DivModSucc(s.onBarrier, max);
    ArriveInv(max, s, t, s.onBarrier / max, s.onBarrier % max);
  }

  lemma OtherRounds(max: nat, s: State, e: Event)
    requires Inv(max, s) && Possible(max, s, e)
    requires e.Run? ==> !s.pcs[e.thread].Arrive?
    ensures var s' := Apply(max, s, e); Rounds(max, s', s'.onBarrier / max, s'.onBarrier % max)
  {
    OthersKeep(max, s, e, s.onBarrier / max, s.onBarrier % max);
    assert Apply(max, s, e).onBarrier == s.onBarrier;
  }

  lemma ApplyInv(max: nat, s: State, e: Event)
    requires Inv(max, s) && Possible(max, s, e)
    ensures Inv(max, Apply(max, s, e))
  {
    ApplyMutex(max, s, e);
    if e.Run? && s.pcs[e.thread].Arrive? {
      ArriveRounds(max, s, e.thread);
    } else {
      OtherRounds(max, s, e);
    }
  }

  ghost predicate Good(max: nat, s: State) {
    Inv(max, s) && s.onBarrier == Sum(s.arrivals)
  }

  lemma ArrivalsCounted(max: nat, s: State, e: Event)
    requires Shape(max, s) && Possible(max, s, e)
    requires s.onBarrier == Sum(s.arrivals)
    ensures Apply(max, s, e).onBarrier == Sum(Apply(max, s, e).arrivals)
  {
    if e.Run? && s.pcs[e.thread].Arrive? {
      SumUpdate(s.arrivals, e.thread, s.arrivals[e.thread] + 1);
    }
  }

  lemma ApplyGood(max: nat, s: State, e: Event)
    requires Good(max, s) && Possible(max, s, e)
    ensures Good(max, Apply(max, s, e))
  {
    ApplyInv(max, s, e);
    ArrivalsCounted(max, s, e);
  }

  lemma {:induction false} PathGood(max: nat, states: seq<State>, events: seq<Event>, i: nat)
    requires IsPath(max, states, events) && i < |states| && Good(max, states[0])
    ensures Good(max, states[i])
  {
    if i > 0 {
      PathGood(max, states, events, i - 1);
      ApplyGood(max, states[i - 1], events[i - 1]);
    }
  }

  lemma InitGood(max: nat)
    requires max >= 2
    ensures Good(max, Init(max))
  {
    InitInv(max);
    SumConstant(Init(max).arrivals, 0);
  }

  lemma ReachableGood(max: nat, s: State)
    requires Reachable(max, s)
    ensures Good(max, s)
  {
    InitGood(max);
    var states, events :| IsPath(max, states, events) && states[0] == Init(max) && states[|events|] == s;
    PathGood(max, states, events, |events|);
  }

  lemma ThreadsInStep(max: nat, s: State, round: int, k: int, t: nat, u: nat)
    requires Shape(max, s) && Rounds(max, s, round, k) && t < max && u < max
    ensures s.pcs[t].Unlock? ==> s.arrivals[u] >= s.arrivals[t]
    ensures s.exits[t] <= s.arrivals[u]
    ensures s.exits[t] <= s.exits[u] + 1
  {
    RoundsAt(max, s, round, k, t);
    RoundsAt(max, s, round, k, u);
  }

  lemma GoodInStep(max: nat, s: State, t: nat, u: nat)
    requires Good(max, s) && t < max && u < max
    ensures s.pcs[t].Unlock? ==> s.arrivals[u] >= s.arrivals[t]
    ensures s.exits[t] <= s.arrivals[u]
    ensures s.exits[t] <= s.exits[u] + 1
  {
    ThreadsInStep(max, s, s.onBarrier / max, s.onBarrier % max, t, u);
  }

  /** The safety of the two-phase barrier holds here too, spurious wakeups included. */
  lemma PhaseSafety(max: nat, s: State, t: nat, u: nat)
    requires Reachable(max, s) && t < max && u < max
    ensures Shape(max, s)
    ensures s.pcs[t].Unlock? ==> s.arrivals[u] >= s.arrivals[t]
    ensures s.exits[t] <= s.arrivals[u]
    ensures s.exits[t] <= s.exits[u] + 1
    ensures s.onBarrier == Sum(s.arrivals)
  {
    ReachableGood(max, s);
    GoodInStep(max, s, t, u);
  }

  /** The program itself: after any run its variables are as this theorem says. */
  method Program(max: nat, events: seq<Event>, ghost states: seq<State>) returns (b: Barrier)
    requires max >= 2 && IsPath(max, states, events) && states[0] == Init(max)
    ensures fresh(b) && b.max == max && b.View() == states[|events|]
    ensures forall t: nat, u: nat :: t < max && u < max ==>
              b.exits[t] <= b.arrivals[u] && b.exits[t] <= b.exits[u] + 1
    ensures b.onBarrier == Sum(b.arrivals)
  {
    b := new Barrier(max);
    b.Replay(events, states);
    forall t: nat, u: nat | t < max && u < max
      ensures b.exits[t] <= b.arrivals[u] && b.exits[t] <= b.exits[u] + 1
    {
      PhaseSafety(max, b.View(), t, u);
    }
    ReachableGood(max, b.View());
  }

  // ---- the trap ----

  /** All threads are in the wait loop and its condition holds. */
  ghost predicate Trapped(max: nat, s: State) {
    Shape(max, s) && s.onBarrier % max != 0 && forall t: nat :: t < max ==> InLoop(s.pcs[t])
  }

  lemma TrapStays(max: nat, s: State, e: Event)
    requires Trapped(max, s) && Possible(max, s, e)
    ensures Trapped(max, Apply(max, s, e)) && Apply(max, s, e).onBarrier == s.onBarrier
  {
    assert InLoop(s.pcs[e.thread]);
  }

  /** Nothing that can happen then ever changes `onBarrier`. */
  lemma {:induction false} TrapIsForever(max: nat, states: seq<State>, events: seq<Event>, i: nat)
    requires IsPath(max, states, events) && i < |states| && Trapped(max, states[0])
    ensures Trapped(max, states[i]) && states[i].onBarrier == states[0].onBarrier
  {
    if i > 0 {
      TrapIsForever(max, states, events, i - 1);
      TrapStays(max, states[i - 1], events[i - 1]);
    }
  }

  lemma TrapLeads(max: nat, s: State, s': State)
    requires Trapped(max, s) && Leads(max, s, s')
    ensures Trapped(max, s') && s'.onBarrier == s.onBarrier
  {
    var states, events :| IsPath(max, states, events) && states[0] == s && states[|events|] == s';
    TrapIsForever(max, states, events, |events|);
  }

  /** Thread `t` comes, arrives as number `s.onBarrier + 1`, not the last one, and goes to sleep. */
  lemma GoToSleep(max: nat, s: State, t: nat) returns (s': State)
    requires Reachable(max, s) && Shape(max, s) && t < max && s.pcs[t].Print? && s.owner.None?
    requires (s.onBarrier + 1) % max != 0
    ensures Reachable(max, s') && Shape(max, s')
    ensures s'.onBarrier == s.onBarrier + 1 && s'.owner.None? && s'.pcs == s.pcs[t := Asleep]
  {
    s' := ReachableStep(max, s, t);
    s' := ReachableStep(max, s', t);
    s' := ReachableStep(max, s', t);
    assert s'.pcs == s.pcs[t := Test];
    s' := ReachableStep(max, s', t);
    s' := ReachableStep(max, s', t);
    assert s'.pcs == s.pcs[t := Asleep];
  }

  /** The first `j` threads sleep, the others have not started. */
  lemma {:induction false} FirstThreadsSleep(max: nat, j: nat) returns (s: State)
    requires max >= 2 && j < max
    ensures Reachable(max, s) && Shape(max, s) && s.owner.None? && s.onBarrier == j
    ensures forall t: nat :: t < max ==> s.pcs[t] == if t < j then Asleep else Print
  {
    if j == 0 {
      s := Init(max);
      LeadsNowhere(max, s);
    } else {
      s := FirstThreadsSleep(max, j - 1);
      DivModUnique(j, max, 0, j);
      s := GoToSleep(max, s, j - 1);
    }
  }

  lemma LeaderArrives(max: nat, s: State, t: nat) returns (s': State)
    requires Reachable(max, s) && Shape(max, s) && t < max && s.pcs[t].Print? && s.owner.None?
    requires (s.onBarrier + 1) % max == 0
    ensures Reachable(max, s') && Shape(max, s')
    ensures s'.onBarrier == s.onBarrier + 1 && s'.owner == Some(t) && s'.pcs == s.pcs[t := NewLine]
  {
    s' := ReachableStep(max, s, t);
    s' := ReachableStep(max, s', t);
    s' := ReachableStep(max, s', t);
    s' := ReachableStep(max, s', t);
    assert s'.pcs == s.pcs[t := NewLine];
  }

  lemma LeaderLeaves(max: nat, s: State, t: nat) returns (s': State)
    requires Reachable(max, s) && Shape(max, s) && t < max && s.pcs[t].NewLine?
    ensures Reachable(max, s') && Shape(max, s')
    ensures s'.onBarrier == s.onBarrier && s'.owner.None? && s'.pcs == Awaken(s.pcs)[t := Print]
  {
    s' := ReachableStep(max, s, t);
    s' := ReachableStep(max, s', t);
    s' := ReachableStep(max, s', t);
    assert s'.pcs == Awaken(s.pcs)[t := Print];
  }

  /** A notified thread finds its condition true again. */
  lemma SleepAgain(max: nat, s: State, t: nat) returns (s': State)
    requires Reachable(max, s) && Shape(max, s) && t < max && s.pcs[t].Woken? && s.owner.None?
    requires s.onBarrier % max != 0
    ensures Reachable(max, s') && Shape(max, s')
    ensures s'.onBarrier == s.onBarrier && s'.owner.None? && s'.pcs == s.pcs[t := Asleep]
  {
    s' := ReachableStep(max, s, t);
    assert s'.pcs == s.pcs[t := Check];
    s' := ReachableStep(max, s', t);
    assert s'.pcs == s.pcs[t := Asleep];
  }

  lemma LastThreadSleepsAgain(max: nat) returns (s: State)
    requires max >= 2
    ensures Reachable(max, s) && Shape(max, s) && s.owner.None? && s.onBarrier == max + 1
    ensures forall t: nat :: t < max ==> s.pcs[t] == if t < max - 1 then Woken else Asleep
  {
    DivModUnique(max, max, 1, 0);
    DivModUnique(max + 1, max, 1, 1);
    s := FirstThreadsSleep(max, max - 1);
    s := LeaderArrives(max, s, max - 1);
    s := LeaderLeaves(max, s, max - 1);
    s := GoToSleep(max, s, max - 1);
  }

  /** The last thread completes the round and goes to sleep in the next one before any other thread
      checks its loop condition again; then the first `j` threads do. */
  lemma {:induction false} LastThreadOvertakes(max: nat, j: nat) returns (s: State)
    requires max >= 2 && j < max
    ensures Reachable(max, s) && Shape(max, s) && s.owner.None? && s.onBarrier == max + 1
    ensures forall t: nat :: t < max ==> s.pcs[t] == if j <= t < max - 1 then Woken else Asleep
  {
    if j == 0 {
      s := LastThreadSleepsAgain(max);
    } else {
      s := LastThreadOvertakes(max, j - 1);
      DivModUnique(max + 1, max, 1, 1);
      s := SleepAgain(max, s, j - 1);
    }
  }

  /** For every number of threads a state is reachable in which all sleep in the wait loop, nobody can
      run, and nothing that may happen later, spurious wakeups included, changes `onBarrier`. */
  lemma Deadlock(max: nat) returns (s: State)
    requires max >= 2
    ensures Reachable(max, s) && Shape(max, s) && s.onBarrier % max != 0
    ensures forall t: nat :: t < max ==> s.pcs[t].Asleep? && !CanRun(s, t)
    ensures forall s' :: Leads(max, s, s') ==> Trapped(max, s') && s'.onBarrier == s.onBarrier
  {
    s := LastThreadOvertakes(max, max - 1);
    DivModUnique(max + 1, max, 1, 1);
    forall s' | Leads(max, s, s') ensures Trapped(max, s') && s'.onBarrier == s.onBarrier {
      TrapLeads(max, s, s');
    }
  }

  // ---- exactly when another round can complete ----

  /** `t` is still in the wait loop of the last completed round. */
  ghost predicate Straggler(s: State, max: nat, t: nat)
    requires Shape(max, s) && t < max
  {
    InLoop(s.pcs[t]) && s.arrivals[t] == s.onBarrier / max
  }

  ghost predicate SomeStraggler(max: nat, s: State)
    requires Shape(max, s)
  {
    exists t: nat :: t < max && Straggler(s, max, t)
  }

  /** Somebody has arrived for the next round, or holds the mutex to do so. */
  ghost predicate NextRoundBegun(max: nat, s: State)
    requires Shape(max, s)
  {
    s.onBarrier % max != 0 || (s.owner.Some? && s.owner.value < max && s.pcs[s.owner.value].Arrive?)
  }

  /** The next round has begun while a thread is still in the loop of the last one. */
  ghost predicate Doomed(max: nat, s: State)
    requires Shape(max, s)
  {
    NextRoundBegun(max, s) && SomeStraggler(max, s)
  }

  ghost predicate CanComplete(max: nat, s: State)
    requires Shape(max, s)
  {
    exists s' :: Leads(max, s, s') && s'.onBarrier / max > s.onBarrier / max
  }

  lemma TwoNotArrived(max: nat, s: State, round: int, k: int, t: nat, u: nat)
    requires Shape(max, s) && Rounds(max, s, round, k) && t < max && u < max && t != u
    requires s.arrivals[t] == s.arrivals[u] == round
    ensures k + 2 <= max
  {
    var arrived := Arrived(max, s, round);
    var one := arrived + {t};
    OneMore(arrived, one, t);
    OneMore(one, one + {u}, u);
    BelowFull(max, one + {u});
  }

  lemma DoomedStep(max: nat, s: State, e: Event, t: nat)
    requires Inv(max, s) && Possible(max, s, e) && t < max
    requires NextRoundBegun(max, s) && Straggler(s, max, t)
    ensures var s' := Apply(max, s, e);
            NextRoundBegun(max, s') && Straggler(s', max, t) && s'.onBarrier / max == s.onBarrier / max
  {
    var round, k := s.onBarrier / max, s.onBarrier % max;
    if e.Run? && s.pcs[e.thread].Arrive? {
      RoundsAt(max, s, round, k, e.thread);
      TwoNotArrived(max, s, round, k, t, e.thread);
      DivModSucc(s.onBarrier, max);
    } else {
      assert Apply(max, s, e).onBarrier == s.onBarrier;
    }
  }

  lemma {:induction false} DoomIsForever(max: nat, states: seq<State>, events: seq<Event>, i: nat, t: nat)
    requires IsPath(max, states, events) && i < |states| && t < max
    requires Inv(max, states[0]) && NextRoundBegun(max, states[0]) && Straggler(states[0], max, t)
    ensures Inv(max, states[i]) && NextRoundBegun(max, states[i]) && Straggler(states[i], max, t)
    ensures states[i].onBarrier / max == states[0].onBarrier / max
  {
    if i > 0 {
      DoomIsForever(max, states, events, i - 1, t);
      DoomedStep(max, states[i - 1], events[i - 1], t);
      ApplyInv(max, states[i - 1], events[i - 1]);
    }
  }

  /** Statements a thread still has to execute before it waits as an arrival for the next round. */
  function Distance(pc: Pc, arrived: bool): nat {
    match pc
    case Test => if arrived then 2 else 12
    case NewLine => 11
    case Wake => 10
    case Asleep => if arrived then 0 else 9
    case Woken => if arrived then 0 else 8
    case Check => if arrived then 1 else 7
    case Unlock => 6
    case Print => 5
    case Lock => 4
    case Arrive => 3
  }

  ghost function Distances(max: nat, s: State, round: int): seq<int>
    requires Shape(max, s)
  {
    seq(max, t requires 0 <= t < max => Distance(s.pcs[t], s.arrivals[t] == round + 1))
  }

  lemma DistancesNotNegative(max: nat, s: State, round: int)
    requires Shape(max, s)
    ensures Sum(Distances(max, s, round)) >= 0
  {
    var zeros := seq(max, i => 0);
    SumConstant(zeros, 0);
    SumMonotone(zeros, Distances(max, s, round));
  }

  ghost function Round(max: nat, s: State): nat
    requires Shape(max, s)
  {
    s.onBarrier / max
  }

  /** How far the present round is from its end. */
  ghost function Left(max: nat, s: State): nat
    requires Shape(max, s)
  {
    DistancesNotNegative(max, s, Round(max, s));
    Sum(Distances(max, s, Round(max, s)))
  }

  /** The round is complete, or still possible and closer to its end. */
  ghost predicate Advanced(max: nat, s: State, s': State)
    requires Shape(max, s) && Shape(max, s')
  {
    || Round(max, s') > Round(max, s)
    || (Round(max, s') == Round(max, s) && !Doomed(max, s') && Left(max, s') < Left(max, s))
  }

  /** The choice of NextToRun. */
  ghost predicate Chosen(max: nat, s: State, t: nat)
    requires Shape(max, s)
  {
    && t < max && CanRun(s, t)
    && (s.owner.Some? ==> s.owner == Some(t))
    && (s.owner.None? ==> s.arrivals[t] == s.onBarrier / max)
    && (s.owner.None? ==> s.pcs[t].Woken? || (s.pcs[t] in {Print, Lock} && !SomeStraggler(max, s)))
  }

  /** The thread to run next for the round to complete: the mutex holder, else a straggler, else one
      that has not arrived. */
  lemma NextToRun(max: nat, s: State) returns (t: nat)
    requires Inv(max, s) && !Doomed(max, s)
    ensures Chosen(max, s, t)
  {
    var round, k := s.onBarrier / max, s.onBarrier % max;
    if s.owner.Some? {
      t := s.owner.value;
    } else if SomeStraggler(max, s) {
      t :| t < max && Straggler(s, max, t);
      RoundsAt(max, s, round, k, t);
    } else {
      BelowFull(max, Arrived(max, s, round));
      t :| t in Below(max) && t !in Arrived(max, s, round);
      RoundsAt(max, s, round, k, t);
      assert !Straggler(s, max, t);
    }
  }

  /** Running that thread avoids doom and either completes the round or brings its end closer. */
  lemma CloserToComplete(max: nat, s: State, t: nat)
    requires Inv(max, s) && !Doomed(max, s) && Chosen(max, s, t)
    ensures Advanced(max, s, Step(max, s, t))
  {
    var s' := Step(max, s, t);
    RoundNeverDrops(max, s, t);
    if Round(max, s') == Round(max, s) {
      NotDoomed(max, s, t);
      Closer(max, s, t);
    }
  }

  lemma RoundNeverDrops(max: nat, s: State, t: nat)
    requires Shape(max, s) && t < max && CanRun(s, t)
    ensures Round(max, Step(max, s, t)) >= Round(max, s)
  {
    DivModSucc(s.onBarrier, max);
  }

  lemma NotDoomed(max: nat, s: State, t: nat)
    requires Inv(max, s) && !Doomed(max, s) && Chosen(max, s, t)
    requires Round(max, Step(max, s, t)) == Round(max, s)
    ensures !Doomed(max, Step(max, s, t))
  {
    var s', round, k := Step(max, s, t), s.onBarrier / max, s.onBarrier % max;
    RoundsAt(max, s, round, k, t);
    if Doomed(max, s') {
      var u: nat :| u < max && Straggler(s', max, u);
      assert Straggler(s, max, u);
    }
  }

  /** From `s` to `s'` thread `u` does not get farther from its arrival, and `t` gets closer. */
  ghost predicate NotFarther(max: nat, s: State, s': State, round: int, t: nat, u: nat)
    requires Shape(max, s) && Shape(max, s') && u < max
  {
    var before := Distance(s.pcs[u], s.arrivals[u] == round + 1);
    var after := Distance(s'.pcs[u], s'.arrivals[u] == round + 1);
    after <= before && (u == t ==> after < before)
  }

  lemma DistancesFall(max: nat, s: State, s': State, round: int, t: nat)
    requires Shape(max, s) && Shape(max, s') && t < max
    requires forall u: nat :: u < max ==> NotFarther(max, s, s', round, t, u)
    ensures Sum(Distances(max, s', round)) < Sum(Distances(max, s, round))
  {
    var d, d' := Distances(max, s, round), Distances(max, s', round);
    forall u: nat | u < max ensures d'[u] <= d[u] && (u == t ==> d'[u] < d[u]) {
      assert NotFarther(max, s, s', round, t, u);
    }
    SumGrows(d', d, t);
  }

  lemma CloserAt(max: nat, s: State, round: int, k: int, t: nat, u: nat)
    requires Shape(max, s) && Rounds(max, s, round, k) && t < max && u < max && CanRun(s, t)
    requires k == 0 <==> s.onBarrier % max == 0
    requires s.owner.None? ==> s.arrivals[t] == round
    requires Mutex(max, s) && (s.owner.Some? ==> s.owner == Some(t))
    requires s.arrivals[t] == round && InLoop(s.pcs[t]) ==> k == 0
    ensures NotFarther(max, s, Step(max, s, t), round, t, u)
  {
    RoundsAt(max, s, round, k, t);
    RoundsAt(max, s, round, k, u);
  }

  lemma SumCloser(max: nat, s: State, round: int, k: int, t: nat)
    requires Shape(max, s) && Rounds(max, s, round, k) && t < max && CanRun(s, t)
    requires k == 0 <==> s.onBarrier % max == 0
    requires s.owner.None? ==> s.arrivals[t] == round
    requires Mutex(max, s) && (s.owner.Some? ==> s.owner == Some(t))
    requires s.arrivals[t] == round && InLoop(s.pcs[t]) ==> k == 0
    ensures Sum(Distances(max, Step(max, s, t), round)) < Sum(Distances(max, s, round))
  {
    forall u: nat | u < max ensures NotFarther(max, s, Step(max, s, t), round, t, u) {
      CloserAt(max, s, round, k, t, u);
    }
    DistancesFall(max, s, Step(max, s, t), round, t);
  }

  lemma Closer(max: nat, s: State, t: nat)
    requires Inv(max, s) && !Doomed(max, s) && Chosen(max, s, t)
    requires Round(max, Step(max, s, t)) == Round(max, s)
    ensures Left(max, Step(max, s, t)) < Left(max, s)
  {
    assert s.arrivals[t] == s.onBarrier / max && InLoop(s.pcs[t]) ==> Straggler(s, max, t);
    SumCloser(max, s, s.onBarrier / max, s.onBarrier % max, t);
  }

  lemma NextEvent(max: nat, s: State) returns (e: Event)
    requires Inv(max, s) && !Doomed(max, s)
    ensures Possible(max, s, e) && Inv(max, Apply(max, s, e)) && Advanced(max, s, Apply(max, s, e))
  {
    var t := NextToRun(max, s);
    e := Run(t);
    CloserToComplete(max, s, t);
    ApplyInv(max, s, e);
  }

  lemma {:induction false} CompleteFrom(max: nat, s: State) returns (s': State)
    requires Inv(max, s) && !Doomed(max, s)
    ensures Leads(max, s, s') && Shape(max, s') && Round(max, s') > Round(max, s)
    decreases Left(max, s)
  {
    var e := NextEvent(max, s);
    var next := Apply(max, s, e);
    if Round(max, next) > Round(max, s) {
      s' := next;
      LeadsNowhere(max, next);
    } else {
      s' := CompleteFrom(max, next);
    }
    LeadsBefore(max, s, e, s');
  }

  /** In a reachable state another round can complete if and only if no thread is still in the loop of
      the last round when somebody has arrived, or holds the mutex to arrive, for the next one. */
  lemma RoundCanCompleteIffNobodyOvertaken(max: nat, s: State)
    requires Reachable(max, s)
    ensures Shape(max, s) && (CanComplete(max, s) <==> !Doomed(max, s))
  {
    ReachableGood(max, s);
    if Doomed(max, s) {
      var t: nat :| t < max && Straggler(s, max, t);
      forall s' | Leads(max, s, s') ensures s'.onBarrier / max == s.onBarrier / max {
        var states, events :| IsPath(max, states, events) && states[0] == s && states[|events|] == s';
        DoomIsForever(max, states, events, |events|, t);
      }
    } else {
      var s' := CompleteFrom(max, s);
    }
  }
}
