/** Safety of the two-phase barrier over all runs, spurious wakeups included. */
module FixedBarrierSafety {
  import opened Prelude
  import opened FixedBarrier

  predicate Outside(pc: Pc) { pc in {Print, Lock, Arrive} }

  /** Between taking the mutex and giving it up. */
  predicate Holding(pc: Pc) {
    !(pc in {Print, Lock}) && !pc.Asleep? && !pc.Woken?
  }

  predicate InFirst(pc: Pc) {
    (pc.Check? || pc.Asleep? || pc.Woken?) && pc.site.First?
  }

  predicate InSecond(pc: Pc) {
    (pc.Check? || pc.Asleep? || pc.Woken?) && !pc.site.First?
  }

  predicate Passed(pc: Pc) {
    InSecond(pc) || pc in {TestWoken, WakeSecond}
  }

  /** Threads that made the arrival number `round + 1`. */
  ghost function Arrived(max: nat, s: State, round: int): (r: set<nat>)
    requires Shape(max, s)
    ensures forall t: nat :: t in r <==> t < max && s.arrivals[t] == round + 1
  {
    set t | t in Below(max) && s.arrivals[t] == round + 1
  }

  ghost function PassedSet(max: nat, s: State): (r: set<nat>)
    requires Shape(max, s)
    ensures forall t: nat :: t in r <==> t < max && Passed(s.pcs[t])
  {
    set t | t in Below(max) && Passed(s.pcs[t])
  }

  /** The mutex is owned by the one thread, if any, that stands between lock and unlock. */
  ghost predicate Mutex(max: nat, s: State)
    requires Shape(max, s)
  {
    && (forall t: nat :: t < max ==> (Holding(s.pcs[t]) <==> s.owner == Some(t)))
    && (s.owner.Some? ==> s.owner.value < max)
  }

  /** Threads gather: some have arrived, some have not, some still leave the previous round. */
  ghost predicate GatheringThread(s: State, max: nat, round: int, t: nat)
    requires Shape(max, s) && t < max
  {
    var pc := s.pcs[t];
    || (Outside(pc) && s.arrivals[t] == s.exits[t] == round)
    || ((pc.Test? || InFirst(pc)) && s.arrivals[t] == round + 1 && s.exits[t] == round)
    || (((InSecond(pc) && !pc.Asleep? && s.wokenup == max) || pc.Unlock?)
        && s.arrivals[t] == round && s.exits[t] == round - 1)
  }

  /** `round` rounds are complete and `k` threads have arrived for the next one. */
  ghost predicate Gathering(max: nat, s: State, round: int, k: int)
    requires Shape(max, s)
  {
    && (forall t: nat :: t < max ==> GatheringThread(s, max, round, t))
    && |Arrived(max, s, round)| == k
  }

  ghost predicate TurningThread(s: State, max: nat, round: int, t: nat)
    requires Shape(max, s) && t < max
  {
    var pc := s.pcs[t];
    && s.arrivals[t] == round && s.exits[t] == round - 1
    && if s.owner == Some(t) then pc in {Test, NewLine, SetWoken, WakeFirst}
       else InFirst(pc) && !pc.Check?
  }

  /** The last thread has arrived and has not broadcast yet. */
  ghost predicate Turning(max: nat, s: State, round: int)
    requires Shape(max, s)
  {
    && s.owner.Some? && s.owner.value < max
    && (forall t: nat :: t < max ==> TurningThread(s, max, round, t))
    && (s.pcs[s.owner.value].WakeFirst? ==> s.wokenup == 1)
  }

  ghost predicate DrainingThread(s: State, max: nat, round: int, t: nat)
    requires Shape(max, s) && t < max
  {
    var pc := s.pcs[t];
    && s.arrivals[t] == round && s.exits[t] == round - 1
    && (Passed(pc) || pc.CountWoken? || (InFirst(pc) && !pc.Asleep?))
    && (pc.WakeSecond? ==> s.wokenup == max)
  }

  /** The threads go from the first loop to the second. */
  ghost predicate Draining(max: nat, s: State, round: int)
    requires Shape(max, s)
  {
    && (forall t: nat :: t < max ==> DrainingThread(s, max, round, t))
    && 1 <= s.wokenup == |PassedSet(max, s)|
    && (s.wokenup == max ==> s.owner.Some? && s.owner.value < max && s.pcs[s.owner.value] in {TestWoken, WakeSecond})
  }

  ghost predicate Phase(max: nat, s: State, round: int, k: int)
    requires Shape(max, s)
  {
    || Gathering(max, s, round, k)
    || (k == 0 && round >= 1 && (Turning(max, s, round) || Draining(max, s, round)))
  }

  ghost predicate Inv(max: nat, s: State) {
    && Shape(max, s)
    && Mutex(max, s)
    && Phase(max, s, s.onBarrier / max, s.onBarrier % max)
  }

  lemma InitInv(max: nat)
    requires max >= 2
    ensures Inv(max, Init(max))
  {
    var s := Init(max);
    DivModUnique(0, max, 0, 0);
    assert Arrived(max, s, 0) == {};
  }

  // ---- one step within, or out of, each phase ----

  lemma GatheringAt(max: nat, s: State, round: int, k: int, t: nat)
    requires Shape(max, s) && Gathering(max, s, round, k) && t < max
    ensures GatheringThread(s, max, round, t)
    ensures s.arrivals[t] == round + 1 ==> k >= 1
  {
    if s.arrivals[t] == round + 1 {
      assert t in Arrived(max, s, round);
    }
  }

  /** A step that neither arrives nor completes a round keeps the threads gathering. */
  lemma GatheringKept(max: nat, s: State, s': State, round: int, k: int, t: nat)
    requires Shape(max, s) && Shape(max, s') && t < max
    requires Gathering(max, s, round, k)
    requires s'.pcs == s.pcs[t := s'.pcs[t]] && s'.arrivals == s.arrivals && s'.wokenup == s.wokenup
    requires s'.exits == s.exits[t := s'.exits[t]]
    requires GatheringThread(s', max, round, t)
    ensures Gathering(max, s', round, k)
  {
    assert Arrived(max, s', round) == Arrived(max, s, round);
    forall i: nat | i < max ensures GatheringThread(s', max, round, i) {
      assert GatheringThread(s, max, round, i);
    }
  }

  lemma ArrivedGrows(max: nat, s: State, s': State, round: int, t: nat)
    requires Shape(max, s) && Shape(max, s') && t < max && s.arrivals[t] == round
    requires s'.arrivals == s.arrivals[t := round + 1]
    ensures |Arrived(max, s', round)| == |Arrived(max, s, round)| + 1
  {
    OneMore(Arrived(max, s, round), Arrived(max, s', round), t);
  }

  lemma ArrivalCounted(max: nat, s: State, round: int, k: int, t: nat)
    requires Shape(max, s) && Gathering(max, s, round, k) && t < max && s.pcs[t].Arrive?
    ensures |Arrived(max, Step(max, s, t), round)| == k + 1 <= max
    ensures k + 1 == max ==> Arrived(max, Step(max, s, t), round) == Below(max)
  {
    var s' := Step(max, s, t);
    GatheringAt(max, s, round, k, t);
    ArrivedGrows(max, s, s', round, t);
    BelowFull(max, Arrived(max, s', round));
  }

  lemma GatheringArrives(max: nat, s: State, round: int, k: int, t: nat)
    requires Shape(max, s) && Mutex(max, s) && Gathering(max, s, round, k) && t < max
    requires s.pcs[t].Arrive? && k + 1 < max
    ensures Gathering(max, Step(max, s, t), round, k + 1)
  {
    var s' := Step(max, s, t);
    ArrivalCounted(max, s, round, k, t);
    forall i: nat | i < max ensures GatheringThread(s', max, round, i) {
      assert GatheringThread(s, max, round, i);
    }
  }

  lemma LastArrives(max: nat, s: State, round: int, k: int, t: nat)
    requires Shape(max, s) && Mutex(max, s) && Gathering(max, s, round, k) && t < max
    requires s.pcs[t].Arrive? && k + 1 >= max
    ensures Turning(max, Step(max, s, t), round + 1)
  {
    var s', next := Step(max, s, t), round + 1;
    ArrivalCounted(max, s, round, k, t);
    forall i: nat | i < max ensures TurningThread(s', max, next, i) {
      assert i in Arrived(max, s', round);
      assert GatheringThread(s, max, round, i);
      LastArrival(max, s, round, t, i);
    }
  }

  lemma LastArrival(max: nat, s: State, round: int, t: nat, i: nat)
    requires Shape(max, s) && Mutex(max, s) && t < max && s.pcs[t].Arrive? && i < max
    requires GatheringThread(s, max, round, i) && Step(max, s, t).arrivals[i] == round + 1
    ensures TurningThread(Step(max, s, t), max, round + 1, i)
  {
    assert s.owner == Some(t);
  }

  lemma GatheringSteps(max: nat, s: State, round: int, k: int, t: nat)
    requires Shape(max, s) && Gathering(max, s, round, k) && t < max && CanRun(s, t)
    requires !s.pcs[t].Arrive? && (k == 0 <==> s.onBarrier % max == 0)
    ensures Gathering(max, Step(max, s, t), round, k)
  {
    GatheringAt(max, s, round, k, t);
    GatheringKept(max, s, Step(max, s, t), round, k, t);
  }

  /** The first broadcast. */
  lemma TurningEnds(max: nat, s: State, round: int, t: nat)
    requires Shape(max, s) && Mutex(max, s) && Turning(max, s, round) && t < max && s.pcs[t].WakeFirst?
    ensures Draining(max, Step(max, s, t), round)
  {
    var s' := Step(max, s, t);
    forall i: nat | i < max ensures DrainingThread(s', max, round, i) && (Passed(s'.pcs[i]) <==> i == t) {
      assert TurningThread(s, max, round, i);
    }
    assert PassedSet(max, s') == {t};
  }

  lemma TurningGoesOn(max: nat, s: State, round: int, t: nat)
    requires Shape(max, s) && Mutex(max, s) && Turning(max, s, round) && t < max && CanRun(s, t)
    requires s.onBarrier % max == 0 && !s.pcs[t].WakeFirst?
    ensures Turning(max, Step(max, s, t), round)
  {
    var s' := Step(max, s, t);
    assert TurningThread(s, max, round, t);
    forall i: nat | i < max ensures TurningThread(s', max, round, i) {
      assert TurningThread(s, max, round, i);
    }
  }

  lemma TurningSteps(max: nat, s: State, round: int, t: nat)
    requires Shape(max, s) && Mutex(max, s) && Turning(max, s, round) && t < max && CanRun(s, t)
    requires s.onBarrier % max == 0
    ensures var s' := Step(max, s, t); Turning(max, s', round) || Draining(max, s', round)
  {
    if s.pcs[t].WakeFirst? {
      TurningEnds(max, s, round, t);
    } else {
      TurningGoesOn(max, s, round, t);
    }
  }

  /** A step of `t` that does not move it past the first loop keeps the threads draining. */
  lemma DrainingKept(max: nat, s: State, s': State, round: int, t: nat)
    requires Shape(max, s) && Shape(max, s') && t < max
    requires Draining(max, s, round)
    requires s'.pcs == s.pcs[t := s'.pcs[t]] && s'.arrivals == s.arrivals && s'.exits == s.exits
    requires s'.wokenup == s.wokenup && Passed(s'.pcs[t]) == Passed(s.pcs[t])
    requires DrainingThread(s', max, round, t)
    requires s'.wokenup == max ==>
               s'.owner.Some? && s'.owner.value < max && s'.pcs[s'.owner.value] in {TestWoken, WakeSecond}
    ensures Draining(max, s', round)
  {
    assert PassedSet(max, s') == PassedSet(max, s);
    forall i: nat | i < max ensures DrainingThread(s', max, round, i) {
      assert DrainingThread(s, max, round, i);
    }
  }

  lemma DrainingCounts(max: nat, s: State, round: int, t: nat)
    requires Shape(max, s) && Mutex(max, s) && Draining(max, s, round) && t < max
    requires s.pcs[t].CountWoken?
    ensures Draining(max, Step(max, s, t), round)
  {
    var s' := Step(max, s, t);
    assert DrainingThread(s, max, round, t);
    OneMore(PassedSet(max, s), PassedSet(max, s'), t);
    forall i: nat | i < max ensures DrainingThread(s', max, round, i) {
      assert DrainingThread(s, max, round, i);
    }
  }

  /** The statements that keep the threads draining: everything but the second broadcast. */
  lemma DrainingStays(max: nat, s: State, round: int, t: nat)
    requires Shape(max, s) && Mutex(max, s) && Draining(max, s, round) && t < max && CanRun(s, t)
    requires s.onBarrier % max == 0 && !s.pcs[t].WakeSecond?
    ensures Draining(max, Step(max, s, t), round)
  {
    assert DrainingThread(s, max, round, t);
    if s.pcs[t].CountWoken? {
      DrainingCounts(max, s, round, t);
    } else {
      PassedSoFar(max, s, round, t);
      DrainingOne(max, s, round, t);
      DrainingKept(max, s, Step(max, s, t), round, t);
    }
  }

  lemma DrainingOne(max: nat, s: State, round: int, t: nat)
    requires Shape(max, s) && t < max && DrainingThread(s, max, round, t) && CanRun(s, t)
    requires s.onBarrier % max == 0 && !(s.pcs[t] in {CountWoken, WakeSecond})
    requires s.wokenup < max || s.pcs[t].TestWoken?
    ensures var s' := Step(max, s, t);
            DrainingThread(s', max, round, t) && Passed(s'.pcs[t]) == Passed(s.pcs[t])
  {
  }

  lemma PassedSoFar(max: nat, s: State, round: int, t: nat)
    requires Shape(max, s) && Mutex(max, s) && Draining(max, s, round) && t < max && CanRun(s, t)
    ensures s.wokenup < max || (s.wokenup == max && s.owner == Some(t) && s.pcs[t] in {TestWoken, WakeSecond})
  {
    BelowFull(max, PassedSet(max, s));
    if s.wokenup == max {
      WhenAllPassed(max, s, round, t);
    }
  }

  /** When all have passed, only the one that is to broadcast can run. */
  lemma WhenAllPassed(max: nat, s: State, round: int, t: nat)
    requires Shape(max, s) && Mutex(max, s) && Draining(max, s, round) && t < max && CanRun(s, t)
    requires s.wokenup == max
    ensures s.owner == Some(t) && s.pcs[t] in {TestWoken, WakeSecond}
  {
    BelowFull(max, PassedSet(max, s));
    assert t in PassedSet(max, s);
  }

  /** The second broadcast finds every thread past the first loop. */
  lemma DrainingEnds(max: nat, s: State, round: int, t: nat)
    requires Shape(max, s) && Mutex(max, s) && Draining(max, s, round) && t < max
    requires s.pcs[t].WakeSecond?
    ensures Gathering(max, Step(max, s, t), round, 0)
  {
    var s' := Step(max, s, t);
    assert DrainingThread(s, max, round, t);
    BelowFull(max, PassedSet(max, s));
    forall i: nat | i < max ensures GatheringThread(s', max, round, i) && s'.arrivals[i] == round {
      assert i in PassedSet(max, s);
      assert DrainingThread(s, max, round, i);
      ReleasedThread(max, s, round, t, i);
    }
    assert Arrived(max, s', round) == {};
  }

  lemma ReleasedThread(max: nat, s: State, round: int, t: nat, i: nat)
    requires Shape(max, s) && Mutex(max, s) && t < max && s.pcs[t].WakeSecond? && s.wokenup == max
    requires i < max && Passed(s.pcs[i]) && DrainingThread(s, max, round, i)
    ensures GatheringThread(Step(max, s, t), max, round, i) && Step(max, s, t).arrivals[i] == round
  {
    assert s.owner == Some(t);
  }

  lemma StepKeepsMutex(max: nat, s: State, t: nat)
    requires Shape(max, s) && Mutex(max, s) && t < max && CanRun(s, t)
    ensures Mutex(max, Step(max, s, t))
  {
  }

  lemma StepKeepsPhase(max: nat, s: State, t: nat, round: int, k: int)
    requires Shape(max, s) && Mutex(max, s) && Phase(max, s, round, k) && t < max && CanRun(s, t)
    requires !s.pcs[t].Arrive? && (k == 0 <==> s.onBarrier % max == 0)
    ensures Phase(max, Step(max, s, t), round, k)
  {
    if Gathering(max, s, round, k) {
      GatheringSteps(max, s, round, k, t);
    } else if Turning(max, s, round) {
      TurningSteps(max, s, round, t);
    } else if s.pcs[t].WakeSecond? {
      DrainingEnds(max, s, round, t);
    } else {
      DrainingStays(max, s, round, t);
    }
  }

  /** A thread outside the barrier proves that the threads are gathering. */
  lemma OutsideMeansGathering(max: nat, s: State, t: nat, round: int, k: int)
    requires Shape(max, s) && Phase(max, s, round, k) && t < max
    requires Outside(s.pcs[t]) || s.pcs[t].Unlock?
    ensures Gathering(max, s, round, k)
    ensures GatheringThread(s, max, round, t)
  {
    assert Turning(max, s, round) ==> TurningThread(s, max, round, t);
    assert Draining(max, s, round) ==> DrainingThread(s, max, round, t);
  }

  /** So does a thread between its arrival as the last one and its broadcast ... */
  lemma LeaderMeansTurning(max: nat, s: State, t: nat)
    requires Inv(max, s) && t < max && s.pcs[t] in {NewLine, SetWoken, WakeFirst}
    ensures s.onBarrier % max == 0 && Turning(max, s, s.onBarrier / max)
  {
    var round, k := s.onBarrier / max, s.onBarrier % max;
    assert Gathering(max, s, round, k) ==> GatheringThread(s, max, round, t);
    assert Draining(max, s, round) ==> DrainingThread(s, max, round, t);
  }

  /** ... and one between the two loops, for the other two phases. */
  lemma CountingMeansDraining(max: nat, s: State, t: nat)
    requires Inv(max, s) && t < max && s.pcs[t] in {CountWoken, TestWoken, WakeSecond}
    ensures s.onBarrier % max == 0 && Draining(max, s, s.onBarrier / max)
  {
    var round, k := s.onBarrier / max, s.onBarrier % max;
    assert Gathering(max, s, round, k) ==> GatheringThread(s, max, round, t);
    assert Turning(max, s, round) ==> TurningThread(s, max, round, t);
  }

  lemma ArriveKeepsPhase(max: nat, s: State, t: nat, round: int, k: int)
    requires Shape(max, s) && Mutex(max, s) && Phase(max, s, round, k) && t < max && s.pcs[t].Arrive?
    requires k < max
    ensures var s' := Step(max, s, t);
            if k == max - 1 then Phase(max, s', round + 1, 0) else Phase(max, s', round, k + 1)
  {
    OutsideMeansGathering(max, s, t, round, k);
    if k + 1 < max {
      GatheringArrives(max, s, round, k, t);
    } else {
      LastArrives(max, s, round, k, t);
    }
  }

  lemma ArriveInv(max: nat, s: State, t: nat)
    requires Inv(max, s) && t < max && s.pcs[t].Arrive?
    ensures Inv(max, Step(max, s, t))
  {
    StepKeepsMutex(max, s, t);
    DivModSucc(s.onBarrier, max);
    ArriveKeepsPhase(max, s, t, s.onBarrier / max, s.onBarrier % max);
  }

  lemma OtherInv(max: nat, s: State, t: nat)
    requires Inv(max, s) && t < max && CanRun(s, t) && !s.pcs[t].Arrive?
    ensures Inv(max, Step(max, s, t))
  {
    StepKeepsMutex(max, s, t);
    StepKeepsPhase(max, s, t, s.onBarrier / max, s.onBarrier % max);
    assert Step(max, s, t).onBarrier == s.onBarrier;
  }

  lemma StepInv(max: nat, s: State, t: nat)
    requires Inv(max, s) && t < max && CanRun(s, t)
    ensures Inv(max, Step(max, s, t))
  {
    if s.pcs[t].Arrive? {
      ArriveInv(max, s, t);
    } else {
      OtherInv(max, s, t);
    }
  }

  lemma SpuriousKeepsPhase(max: nat, s: State, t: nat, round: int, k: int)
    requires Shape(max, s) && Mutex(max, s) && Phase(max, s, round, k) && t < max && s.pcs[t].Asleep?
    ensures Phase(max, Apply(max, s, Spurious(t)), round, k)
  {
    var s' := Apply(max, s, Spurious(t));
    if Gathering(max, s, round, k) {
      GatheringAt(max, s, round, k, t);
      GatheringKept(max, s, s', round, k, t);
    } else if Turning(max, s, round) {
      forall i: nat | i < max ensures TurningThread(s', max, round, i) {
        assert TurningThread(s, max, round, i);
      }
    } else {
      assert DrainingThread(s, max, round, t);
      DrainingKept(max, s, s', round, t);
    }
  }

  lemma SpuriousInv(max: nat, s: State, t: nat)
    requires Inv(max, s) && t < max && s.pcs[t].Asleep?
    ensures Inv(max, Apply(max, s, Spurious(t)))
  {
    assert Mutex(max, Apply(max, s, Spurious(t)));
    SpuriousKeepsPhase(max, s, t, s.onBarrier / max, s.onBarrier % max);
  }

  lemma ApplyInv(max: nat, s: State, e: Event)
    requires Inv(max, s) && Possible(max, s, e)
    ensures Inv(max, Apply(max, s, e))
  {
    if e.Run? {
      StepInv(max, s, e.thread);
    } else {
      SpuriousInv(max, s, e.thread);
    }
  }
}
