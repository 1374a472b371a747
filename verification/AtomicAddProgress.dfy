/** Every run of the two adders is finite, and can be continued until both threads are done. */
module AtomicAddProgress {
  import opened Prelude
  import opened AtomicAdd
  import opened AtomicAddTheorems

  /** Statements of `cycles` cycles.  A cycle is the loop test, and the load and the store, with the lock and
      the unlock around them or the atomic operation instead of them. */
  function Statements(mode: Mode, cycles: int): int {
    match mode
    case Racy => 3 * cycles
    case Atomic => 2 * cycles
    case Mutex => 5 * cycles
  }

  /** Statements executed in the present cycle. */
  function Position(mode: Mode, pc: Pc): nat {
    match pc
    case LoopTest => 0
    case Lock => 1
    case Load => if mode.Mutex? then 2 else 1
    case Store => if mode.Mutex? then 3 else 2
    case FetchAdd => 1
    case Unlock => 4
    case Done => 1
  }

  ghost predicate Control(s: State, mode: Mode, n: nat, t: nat)
    requires Shape(s) && t < 2
  {
    && s.pcs[t] in (match mode
                    case Racy => {LoopTest, Load, Store, Done}
                    case Atomic => {LoopTest, FetchAdd, Done}
                    case Mutex => {LoopTest, Lock, Load, Store, Unlock, Done})
    && 1 <= s.cur[t] && (s.cur[t] <= n || s.cur[t] == 1)
    && (!(s.pcs[t] in {LoopTest, Done}) ==> s.cur[t] < n)
    && (s.pcs[t].Done? ==> s.cur[t] >= n)
    && (s.owner == Some(t) <==> mode.Mutex? && s.pcs[t] in {Load, Store, Unlock})
  }

  ghost predicate Controlled(mode: Mode, n: nat, s: State) {
    Shape(s) && Control(s, mode, n, 0) && Control(s, mode, n, 1) && (s.owner.Some? ==> s.owner.value < 2)
  }

  lemma SelfControlled(mode: Mode, n: nat, s: State, t: nat)
    requires Shape(s) && t < 2 && CanRun(s, t) && Control(s, mode, n, t)
    ensures Control(Step(mode, n, s, t), mode, n, t)
  {
  }

  lemma PeerControlled(mode: Mode, n: nat, s: State, t: nat)
    requires Shape(s) && t < 2 && CanRun(s, t) && Control(s, mode, n, t) && Control(s, mode, n, 1 - t)
    ensures Control(Step(mode, n, s, t), mode, n, 1 - t)
  {
  }

  lemma StepControlled(mode: Mode, n: nat, s: State, t: nat)
    requires Controlled(mode, n, s) && t < 2 && CanRun(s, t)
    ensures Controlled(mode, n, Step(mode, n, s, t))
  {
    assert Control(s, mode, n, t) && Control(s, mode, n, 1 - t);
    SelfControlled(mode, n, s, t);
    PeerControlled(mode, n, s, t);
    var s' := Step(mode, n, s, t);
    assert Control(s', mode, n, t) && Control(s', mode, n, 1 - t);
  }

  lemma {:induction false} RunControlled(mode: Mode, n: nat, states: seq<State>, threads: seq<nat>, i: nat)
    requires IsRun(mode, n, states, threads) && i < |states|
    ensures Controlled(mode, n, states[i])
  {
    if i > 0 {
      RunControlled(mode, n, states, threads, i - 1);
      StepControlled(mode, n, states[i - 1], threads[i - 1]);
    }
  }

  /** Statements that thread `t` has executed to be where it is. */
  ghost function Executed(mode: Mode, s: State, t: nat): int
    requires Shape(s) && t < 2
  {
    Statements(mode, s.cur[t] as int - 1) + Position(mode, s.pcs[t])
  }

  lemma Advances(mode: Mode, n: nat, s: State, t: nat)
    requires Shape(s) && t < 2 && CanRun(s, t) && Control(s, mode, n, t)
    ensures Executed(mode, Step(mode, n, s, t), t) == Executed(mode, s, t) + 1
    ensures Executed(mode, Step(mode, n, s, t), 1 - t) == Executed(mode, s, 1 - t)
  {
  }

  lemma RunAdvances(mode: Mode, n: nat, states: seq<State>, threads: seq<nat>, i: nat, t: nat)
    requires IsRun(mode, n, states, threads) && i < |threads| && t < 2
    ensures Executed(mode, states[i + 1], t) == Executed(mode, states[i], t) + if threads[i] == t then 1 else 0
  {
    RunControlled(mode, n, states, threads, i);
    assert Control(states[i], mode, n, threads[i]);
    Advances(mode, n, states[i], threads[i]);
  }

  /** How often thread `t` is among the first `i` to run. */
  ghost function Turns(threads: seq<nat>, t: nat, i: nat): nat
    requires i <= |threads|
  {
    if i == 0 then 0 else Turns(threads, t, i - 1) + if threads[i - 1] == t then 1 else 0
  }

  /** Whatever the other thread does, a thread executes exactly the statements of its cycles: three, two or
      five for each. */
  lemma {:induction false} TurnsCounted(mode: Mode, n: nat, states: seq<State>, threads: seq<nat>, i: nat, t: nat)
    requires IsRun(mode, n, states, threads) && i <= |threads| && t < 2
    ensures Turns(threads, t, i) == Executed(mode, states[i], t)
  {
    if i > 0 {
      TurnsCounted(mode, n, states, threads, i - 1, t);
      RunAdvances(mode, n, states, threads, i - 1, t);
    }
  }

  lemma {:induction false} TurnsSum(threads: seq<nat>, i: nat)
    requires i <= |threads| && forall k :: 0 <= k < |threads| ==> threads[k] < 2
    ensures Turns(threads, 0, i) + Turns(threads, 1, i) == i
  {
    if i > 0 {
      TurnsSum(threads, i - 1);
    }
  }

  /** Statements of one thread from its start to its end. */
  function Lifetime(mode: Mode, n: nat): nat {
    Statements(mode, if n == 0 then 0 else n - 1) + 1
  }

  lemma ExecutedBound(mode: Mode, n: nat, s: State, t: nat)
    requires Shape(s) && t < 2 && Control(s, mode, n, t)
    ensures Executed(mode, s, t) <= Lifetime(mode, n)
    ensures s.pcs[t].Done? <==> Executed(mode, s, t) == Lifetime(mode, n)
  {
  }

  /** No run is longer than the lifetimes of both threads; exactly the finished ones are that long. */
  lemma RunLength(mode: Mode, n: nat, states: seq<State>, threads: seq<nat>)
    requires IsRun(mode, n, states, threads)
    ensures |threads| <= 2 * Lifetime(mode, n)
    ensures Finished(states[|threads|]) <==> |threads| == 2 * Lifetime(mode, n)
  {
    var last := |threads|;
    RunControlled(mode, n, states, threads, last);
    forall t: nat | t < 2
      ensures Turns(threads, t, last) <= Lifetime(mode, n)
      ensures states[last].pcs[t].Done? <==> Turns(threads, t, last) == Lifetime(mode, n)
    {
      TurnsCounted(mode, n, states, threads, last, t);
      assert Control(states[last], mode, n, t);
      ExecutedBound(mode, n, states[last], t);
    }
    TurnsSum(threads, last);
  }

  /** Until both threads are done some thread can run, in every mode. */
  lemma NeverStuck(mode: Mode, n: nat, states: seq<State>, threads: seq<nat>)
    requires IsRun(mode, n, states, threads) && !Finished(states[|threads|])
    ensures CanRun(states[|threads|], 0) || CanRun(states[|threads|], 1)
  {
    RunControlled(mode, n, states, threads, |threads|);
  }

  /** Every run can be continued until both threads are done. */
  lemma {:induction false} RunFinishes(mode: Mode, n: nat, states: seq<State>, threads: seq<nat>)
    returns (states': seq<State>, threads': seq<nat>)
    requires IsRun(mode, n, states, threads)
    ensures IsRun(mode, n, states', threads') && Finished(states'[|threads'|])
    ensures states <= states' && threads <= threads'
    decreases 2 * Lifetime(mode, n) - |threads|
  {
    RunLength(mode, n, states, threads);
    if Finished(states[|threads|]) {
      states', threads' := states, threads;
    } else {
      NeverStuck(mode, n, states, threads);
      var t := if CanRun(states[|threads|], 0) then 0 else 1;
      RunOn(mode, n, states, threads, t);
      var longer, ran := states + [Step(mode, n, states[|threads|], t)], threads + [t];
      RunLength(mode, n, longer, ran);
      states', threads' := RunFinishes(mode, n, longer, ran);
    }
  }

  /** For every mode and every number of cycles the program has a finished run. */
  lemma FinishedRun(mode: Mode, n: nat) returns (states: seq<State>, threads: seq<nat>)
    ensures IsRun(mode, n, states, threads) && Finished(states[|threads|])
  {
    states, threads := RunFinishes(mode, n, [Init()], []);
  }

  // ---- what a race is, told by the run alone ----

  /** At step `i` thread `t` stores. */
  ghost predicate Stores(states: seq<State>, threads: seq<nat>, i: nat, t: nat) {
    i < |threads| && |states| == |threads| + 1 && threads[i] == t < 2 && |states[i].pcs| == 2 && states[i].pcs[t].Store?
  }

  ghost predicate Loads(states: seq<State>, threads: seq<nat>, i: nat, t: nat) {
    i < |threads| && |states| == |threads| + 1 && threads[i] == t < 2 && |states[i].pcs| == 2 && states[i].pcs[t].Load?
  }

  /** Before step `i` the other thread has stored, at step `j`, and thread `t` has not loaded since. */
  ghost predicate Overtaken(states: seq<State>, threads: seq<nat>, t: nat, j: nat, i: nat)
    requires t < 2
  {
    j < i && Stores(states, threads, j, 1 - t) && forall k: nat :: j < k < i ==> !Loads(states, threads, k, t)
  }

  /** An update was lost at step `i`: a thread stored what it had computed before the store at step `j`. */
  ghost predicate LostUpdate(states: seq<State>, threads: seq<nat>, j: nat, i: nat) {
    && i < |threads| && threads[i] < 2
    && Stores(states, threads, i, threads[i]) && Overtaken(states, threads, threads[i], j, i)
  }

  ghost predicate SomeOvertaken(states: seq<State>, threads: seq<nat>, t: nat, i: nat)
    requires t < 2
  {
    exists j: nat :: Overtaken(states, threads, t, j, i)
  }

  lemma OvertakenNext(states: seq<State>, threads: seq<nat>, t: nat, i: nat)
    requires t < 2
    ensures SomeOvertaken(states, threads, t, i + 1) ==
            if Stores(states, threads, i, 1 - t) then true
            else !Loads(states, threads, i, t) && SomeOvertaken(states, threads, t, i)
  {
    if Stores(states, threads, i, 1 - t) {
      assert Overtaken(states, threads, t, i, i + 1);
    } else if SomeOvertaken(states, threads, t, i + 1) {
      var j: nat :| Overtaken(states, threads, t, j, i + 1);
      assert Overtaken(states, threads, t, j, i);
    } else if SomeOvertaken(states, threads, t, i) {
      var j: nat :| Overtaken(states, threads, t, j, i);
      assert !Overtaken(states, threads, t, j, i + 1);
    }
  }

  lemma StepOvertaken(n: nat, s: State, u: nat, t: nat)
    requires Shape(s) && u < 2 && t < 2 && CanRun(s, u)
    ensures Step(Racy, n, s, u).overtaken[t] ==
            if u != t && s.pcs[u].Store? then true
            else !(u == t && s.pcs[u].Load?) && s.overtaken[t]
  {
  }

  lemma {:induction false} OvertakenIff(n: nat, states: seq<State>, threads: seq<nat>, t: nat, i: nat)
    requires IsRun(Racy, n, states, threads) && i < |states| && t < 2
    ensures states[i].overtaken[t] == SomeOvertaken(states, threads, t, i)
  {
    if i > 0 {
      OvertakenIff(n, states, threads, t, i - 1);
      OvertakenNext(states, threads, t, i - 1);
      StepOvertaken(n, states[i - 1], threads[i - 1], t);
    }
  }

  ghost predicate SomeUpdateLost(states: seq<State>, threads: seq<nat>, i: nat) {
    exists j: nat, k: nat :: k < i && LostUpdate(states, threads, j, k)
  }

  lemma LostNext(states: seq<State>, threads: seq<nat>, i: nat)
    requires i < |threads| && threads[i] < 2
    ensures SomeUpdateLost(states, threads, i + 1) ==
            (SomeUpdateLost(states, threads, i)
             || (Stores(states, threads, i, threads[i]) && SomeOvertaken(states, threads, threads[i], i)))
  {
    if Stores(states, threads, i, threads[i]) && SomeOvertaken(states, threads, threads[i], i) {
      var j: nat :| Overtaken(states, threads, threads[i], j, i);
      assert LostUpdate(states, threads, j, i);
    } else if SomeUpdateLost(states, threads, i + 1) {
      var j: nat, k: nat :| k < i + 1 && LostUpdate(states, threads, j, k);
      assert k != i;
    }
  }

  lemma StepRaced(n: nat, s: State, t: nat)
    requires Shape(s) && t < 2 && CanRun(s, t)
    ensures Step(Racy, n, s, t).raced == (s.raced || (s.pcs[t].Store? && s.overtaken[t]))
  {
  }

  /** The history in the state tells exactly whether an update has been lost. */
  lemma {:induction false} RacedIff(n: nat, states: seq<State>, threads: seq<nat>, i: nat)
    requires IsRun(Racy, n, states, threads) && i < |states|
    ensures states[i].raced == SomeUpdateLost(states, threads, i)
  {
    if i > 0 {
      RacedIff(n, states, threads, i - 1);
      LostNext(states, threads, i - 1);
      OvertakenIff(n, states, threads, threads[i - 1], i - 1);
      StepRaced(n, states[i - 1], threads[i - 1]);
    }
  }

  /** The whole program: after a run in which both threads finish it reports no race if they are
      synchronised, and otherwise, without overflow, exactly if an update was lost. */
  method Program(mode: Mode, n: nat, threads: seq<nat>, ghost states: seq<State>) returns (race: bool)
    requires IsRun(mode, n, states, threads) && Finished(states[|threads|])
    ensures !mode.Racy? ==> !race
    ensures mode.Racy? && n * (n - 1) < 0x8000_0000 ==>
              (race <==> SomeUpdateLost(states, threads, |threads|))
  {
    var adder := new Adder(mode, n);
    adder.Replay(threads, states);
    ghost var last := states[|threads|];
    assert Reachable(mode, n, last);
    RunBelowWord(mode, n, states, threads, |threads|);
    race := RaceDetected(adder.x, n);
    if !mode.Racy? {
      SynchronisedAddersAgree(mode, n, last);
    } else if n * (n - 1) < 0x8000_0000 {
      DetectorExact(n, last);
      RacedIff(n, states, threads, |threads|);
    }
  }
}
