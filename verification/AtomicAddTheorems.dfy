/** What the two adders compute, and when the main thread notices a lost update. */
module AtomicAddTheorems {
  import opened Prelude
  import opened AtomicAdd

  ghost function Total(s: State): nat
    requires Shape(s)
  {
    s.added[0] + s.added[1]
  }

  /** What has been lost so far. */
  ghost function Deficit(s: State): int
    requires Shape(s)
  {
    Total(s) - s.x
  }

  // ---- without synchronisation ----

  ghost predicate RacyThread(s: State, n: nat, t: nat)
    requires Shape(s) && t < 2
  {
    && s.pcs[t] in {LoopTest, Load, Store, Done}
    && 1 <= s.cur[t] && (s.cur[t] <= n || s.cur[t] == 1)
    && (s.pcs[t] in {Load, Store} ==> s.cur[t] < n)
    && (s.pcs[t].Done? ==> s.cur[t] >= n)
    && s.added[t] == Triangle(s.cur[t])
    && (s.cur[t] >= 2 ==> s.x >= 1)
    && (s.pcs[t].Store? ==>
          && (if s.overtaken[t] then s.loaded[t] < Total(s) else s.loaded[t] == s.x)
          && (s.cur[t] >= 2 ==> s.loaded[t] >= 1))
  }

  ghost predicate RacyInv(n: nat, s: State) {
    && Shape(s)
    && RacyThread(s, n, 0) && RacyThread(s, n, 1)
    && (s.raced <==> Deficit(s) > 0)
    && (!s.raced <==> Deficit(s) == 0)
    && (s.cur[0] >= n && s.cur[1] >= n && n >= 3 ==> s.x >= n)
  }

  lemma TotalBound(n: nat, s: State)
    requires Shape(s) && RacyThread(s, n, 0) && RacyThread(s, n, 1)
    ensures Total(s) <= 2 * Triangle(n)
    ensures forall t: nat :: t < 2 && s.pcs[t].Store? ==> Total(s) + s.cur[t] <= 2 * Triangle(n)
  {
    forall t: nat | t < 2
      ensures s.added[t] <= Triangle(n)
      ensures s.pcs[t].Store? ==> s.added[t] + s.cur[t] <= Triangle(n)
    {
      if s.cur[t] < n {
        TriangleMonotone(s.cur[t] + 1, n);
      }
    }
  }

  /** A store that does not wrap around. */
  lemma StoreAdds(n: nat, s: State, t: nat)
    requires RacyInv(n, s) && t < 2 && s.pcs[t].Store? && Total(s) + s.cur[t] < WORD
    ensures var s' := Step(Racy, n, s, t);
            && s'.x == s.loaded[t] + s.cur[t]
            && Total(s') == Total(s) + s.cur[t]
            && Triangle(s'.cur[t]) == s'.added[t]
            && (if s.overtaken[t] then Deficit(s') > 0 else Deficit(s') == Deficit(s))
  {
    assert RacyThread(s, n, t);
  }

  lemma RacyStore(n: nat, s: State, t: nat)
    requires RacyInv(n, s) && t < 2 && s.pcs[t].Store? && Total(s) + s.cur[t] < WORD
    ensures RacyInv(n, Step(Racy, n, s, t))
  {
    var s', u := Step(Racy, n, s, t), 1 - t;
    StoreAdds(n, s, t);
    assert RacyThread(s, n, t) && RacyThread(s, n, u);
    assert RacyThread(s', n, t);
    assert RacyThread(s', n, u);
  }

  lemma RacyOtherPeer(n: nat, s: State, t: nat)
    requires Shape(s) && t < 2 && CanRun(s, t) && !(s.pcs[t] in {Store, FetchAdd})
    requires RacyThread(s, n, 1 - t)
    ensures RacyThread(Step(Racy, n, s, t), n, 1 - t)
    ensures Total(Step(Racy, n, s, t)) == Total(s) && Step(Racy, n, s, t).x == s.x
  {
  }

  lemma RacyOtherSelf(n: nat, s: State, t: nat)
    requires Shape(s) && t < 2 && CanRun(s, t) && !s.pcs[t].Store?
    requires RacyThread(s, n, t)
    ensures RacyThread(Step(Racy, n, s, t), n, t)
    ensures Step(Racy, n, s, t).cur == s.cur && Step(Racy, n, s, t).raced == s.raced
  {
  }

  lemma RacyOther(n: nat, s: State, t: nat)
    requires RacyInv(n, s) && t < 2 && CanRun(s, t) && !s.pcs[t].Store?
    ensures RacyInv(n, Step(Racy, n, s, t))
  {
    assert RacyThread(s, n, t) && RacyThread(s, n, 1 - t);
    RacyOtherSelf(n, s, t);
    RacyOtherPeer(n, s, t);
    var s' := Step(Racy, n, s, t);
    assert RacyThread(s', n, t) && RacyThread(s', n, 1 - t);
  }

  lemma RacyStep(n: nat, s: State, t: nat)
    requires RacyInv(n, s) && n * (n - 1) < WORD && t < 2 && CanRun(s, t)
    ensures RacyInv(n, Step(Racy, n, s, t))
    ensures s.raced ==> Step(Racy, n, s, t).raced
  {
    if s.pcs[t].Store? {
      TriangleFormula(n);
      TotalBound(n, s);
      RacyStore(n, s, t);
    } else {
      RacyOther(n, s, t);
    }
  }

  lemma RacyInit(n: nat)
    ensures RacyInv(n, Init())
  {
  }

  lemma {:induction false} RacyRun(n: nat, states: seq<State>, threads: seq<nat>, i: nat)
    requires IsRun(Racy, n, states, threads) && i < |states| && n * (n - 1) < WORD
    ensures RacyInv(n, states[i])
  {
    if i == 0 {
      RacyInit(n);
    } else {
      RacyRun(n, states, threads, i - 1);
      RacyStep(n, states[i - 1], threads[i - 1]);
    }
  }

  lemma RacyReachable(n: nat, s: State)
    requires Reachable(Racy, n, s) && n * (n - 1) < WORD
    ensures RacyInv(n, s)
  {
    var states, threads :| IsRun(Racy, n, states, threads) && states[|threads|] == s;
    RacyRun(n, states, threads, |threads|);
  }

  /** The detector is exact: the final comparison fails if and only if some thread stored after the
      other one had stored since its load. */
  lemma DetectorExact(n: nat, s: State)
    requires Reachable(Racy, n, s) && Finished(s) && n * (n - 1) < 0x8000_0000
    ensures s.x != n * (n - 1) <==> s.raced
  {
    TriangleFormula(n);
    RacyReachable(n, s);
    TotalBound(n, s);
    assert RacyThread(s, n, 0) && RacyThread(s, n, 1);
    assert Total(s) == n * (n - 1);
  }

  /** Once an update is lost the deficit never returns to zero. */
  lemma DeficitStays(n: nat, s: State, t: nat)
    requires Reachable(Racy, n, s) && n * (n - 1) < 0x8000_0000 && t < 2 && CanRun(s, t)
    ensures Deficit(s) >= 0
    ensures Deficit(s) > 0 ==> Deficit(Step(Racy, n, s, t)) > 0
  {
    TriangleFormula(n);
    RacyReachable(n, s);
    RacyStep(n, s, t);
  }

  /** However the threads interleave, the result is at least n and at most n (n - 1). */
  lemma RacyBounds(n: nat, s: State)
    requires Reachable(Racy, n, s) && Finished(s) && n >= 3 && n * (n - 1) < 0x8000_0000
    ensures n <= s.x <= n * (n - 1)
  {
    TriangleFormula(n);
    RacyReachable(n, s);
    TotalBound(n, s);
    assert RacyThread(s, n, 0) && RacyThread(s, n, 1);
  }

  // ---- both bounds are reached ----

  /** Thread `t` is back at its loop test with `i` next to add; the other thread has not moved since
      `s`. */
  ghost predicate Between(n: nat, s: State, t: nat, i: nat, x: int) {
    && Reachable(Racy, n, s) && t < 2
    && s.pcs[t].LoopTest? && s.cur[t] == i && s.x == x
  }

  ghost predicate SameOther(s: State, s': State, t: nat)
    requires Shape(s) && Shape(s') && t < 2
  {
    var u := 1 - t;
    s'.pcs[u] == s.pcs[u] && s'.cur[u] == s.cur[u] && s'.loaded[u] == s.loaded[u]
  }

  lemma LoadAlone(n: nat, s: State, t: nat, i: nat, x: int) returns (s': State)
    requires Between(n, s, t, i, x) && i < n
    ensures Reachable(Racy, n, s') && SameOther(s, s', t)
    ensures s'.pcs[t].Store? && s'.cur[t] == i && s'.loaded[t] == x == s'.x
  {
    s' := ReachableNext(Racy, n, s, t);
    s' := ReachableNext(Racy, n, s', t);
  }

  lemma StoreAlone(n: nat, s: State, t: nat)
    requires Shape(s) && t < 2 && s.pcs[t].Store? && s.loaded[t] + s.cur[t] < WORD
    ensures var s' := Step(Racy, n, s, t);
            && SameOther(s, s', t)
            && s'.pcs[t].LoopTest? && s'.cur[t] == s.cur[t] + 1 && s'.x == s.loaded[t] + s.cur[t]
  {
  }

  lemma OneCycle(n: nat, s: State, t: nat, i: nat, x: int) returns (s': State)
    requires Between(n, s, t, i, x) && i < n && x + i < WORD
    ensures Between(n, s', t, i + 1, x + i) && SameOther(s, s', t)
  {
    var mid := LoadAlone(n, s, t, i, x);
    StoreAlone(n, mid, t);
    s' := ReachableNext(Racy, n, mid, t);
  }

  /** Thread `t` alone does its cycles up to the one before `last`. */
  lemma {:induction false} Cycles(n: nat, s: State, t: nat, i: nat, x: int, last: nat) returns (s': State)
    requires Between(n, s, t, i, x) && 1 <= i <= last <= n && x + Triangle(last) - Triangle(i) < WORD
    ensures Between(n, s', t, last, x + Triangle(last) - Triangle(i)) && SameOther(s, s', t)
    decreases last
  {
    if i == last {
      s' := s;
    } else {
      TriangleMonotone(i, last - 1);
      s' := Cycles(n, s, t, i, x, last - 1);
      s' := OneCycle(n, s', t, last - 1, x + Triangle(last - 1) - Triangle(i));
    }
  }

  lemma Finish(n: nat, s: State, t: nat, x: int) returns (s': State)
    requires Between(n, s, t, n, x)
    ensures Reachable(Racy, n, s') && s'.x == x && s'.pcs[t].Done? && SameOther(s, s', t)
  {
    s' := ReachableNext(Racy, n, s, t);
  }

  lemma Start(n: nat) returns (s: State)
    ensures Between(n, s, 0, 1, 0) && Between(n, s, 1, 1, 0)
  {
    s := Init();
    var states, threads := [s], [];
    assert IsRun(Racy, n, states, threads) && states[|threads|] == s;
  }

  lemma UpperBoundReached(n: nat) returns (s: State)
    requires n >= 3 && n * (n - 1) < 0x8000_0000
    ensures Reachable(Racy, n, s) && Finished(s) && s.x == n * (n - 1)
  {
    TriangleFormula(n);
    s := Start(n);
    s := Cycles(n, s, 0, 1, 0, n);
    s := Finish(n, s, 0, Triangle(n));
    s := Cycles(n, s, 1, 1, Triangle(n), n);
    s := Finish(n, s, 1, 2 * Triangle(n));
  }

  /** Thread 0 has loaded 0 and stores 1 over all that thread 1 has added in all its cycles but the
      last; then thread 1 loads that 1. */
  lemma LowerBoundHalf(n: nat) returns (s: State)
    requires n >= 3 && Triangle(n) < WORD
    ensures Between(n, s, 0, 2, 1) && s.pcs[1].Store? && s.cur[1] == n - 1 && s.loaded[1] == 1
  {
    TriangleMonotone(n - 1, n);
    s := Start(n);
    s := ReachableNext(Racy, n, s, 0);
    s := ReachableNext(Racy, n, s, 0);
    s := Cycles(n, s, 1, 1, 0, n - 1);
    s := ReachableNext(Racy, n, s, 0);
    assert Between(n, s, 0, 2, 1);
    s := ReachableNext(Racy, n, s, 1);
    s := ReachableNext(Racy, n, s, 1);
  }

  /** Thread 1 stores 1 + (n - 1) over the result of thread 0. */
  lemma LastStore(n: nat, s: State) returns (s': State)
    requires Reachable(Racy, n, s) && 1 <= n < WORD && s.pcs[0].Done?
    requires s.pcs[1].Store? && s.cur[1] == n - 1 && s.loaded[1] == 1
    ensures Reachable(Racy, n, s') && Finished(s') && s'.x == n
  {
    s' := ReachableNext(Racy, n, s, 1);
    s' := ReachableNext(Racy, n, s', 1);
  }

  lemma LowerBoundReached(n: nat) returns (s: State)
    requires n >= 3 && n * (n - 1) < 0x8000_0000
    ensures Reachable(Racy, n, s) && Finished(s) && s.x == n
  {
    TriangleFormula(n);
    assert n <= n * (n - 1);
    s := LowerBoundHalf(n);
    s := Cycles(n, s, 0, 2, 1, n);
    s := Finish(n, s, 0, s.x);
    s := LastStore(n, s);
  }

  // ---- with the mutex, or with the atomic operation ----

  ghost predicate SyncThread(s: State, mode: Mode, n: nat, t: nat)
    requires Shape(s) && t < 2
  {
    && s.pcs[t] in (if mode.Atomic? then {LoopTest, FetchAdd, Done} else {LoopTest, Lock, Load, Store, Unlock, Done})
    && 1 <= s.cur[t] && (s.cur[t] <= n || s.cur[t] == 1)
    && (!(s.pcs[t] in {LoopTest, Done}) ==> s.cur[t] < n)
    && (s.pcs[t].Done? ==> s.cur[t] >= n)
    && s.added[t] == Triangle(s.cur[t] + if s.pcs[t].Unlock? then 1 else 0)
    && (s.pcs[t] in {Load, Store, Unlock} <==> s.owner == Some(t))
    && (s.pcs[t].Store? ==> s.loaded[t] == s.x)
  }

  ghost predicate SyncInv(mode: Mode, n: nat, s: State) {
    Shape(s) && SyncThread(s, mode, n, 0) && SyncThread(s, mode, n, 1) && s.x == Total(s) % WORD
    && (s.owner.Some? ==> s.owner.value < 2)
  }

  lemma SyncPeer(mode: Mode, n: nat, s: State, t: nat)
    requires Shape(s) && !mode.Racy? && t < 2 && CanRun(s, t)
    requires SyncThread(s, mode, n, t) && SyncThread(s, mode, n, 1 - t)
    ensures SyncThread(Step(mode, n, s, t), mode, n, 1 - t)
  {
  }

  lemma SyncSelf(mode: Mode, n: nat, s: State, t: nat)
    requires Shape(s) && !mode.Racy? && t < 2 && CanRun(s, t)
    requires SyncThread(s, mode, n, t)
    ensures SyncThread(Step(mode, n, s, t), mode, n, t)
  {
  }

  lemma SyncStep(mode: Mode, n: nat, s: State, t: nat)
    requires SyncInv(mode, n, s) && !mode.Racy? && t < 2 && CanRun(s, t)
    ensures SyncInv(mode, n, Step(mode, n, s, t))
  {
    var s' := Step(mode, n, s, t);
    assert SyncThread(s, mode, n, t) && SyncThread(s, mode, n, 1 - t);
    SyncPeer(mode, n, s, t);
    SyncSelf(mode, n, s, t);
    SyncTotal(mode, n, s, t);
    assert SyncThread(s', mode, n, t) && SyncThread(s', mode, n, 1 - t);
  }

  lemma SyncTotal(mode: Mode, n: nat, s: State, t: nat)
    requires Shape(s) && !mode.Racy? && t < 2 && CanRun(s, t) && SyncThread(s, mode, n, t)
    requires s.x == Total(s) % WORD && (s.owner.Some? ==> s.owner.value < 2)
    ensures var s' := Step(mode, n, s, t);
            s'.x == Total(s') % WORD && (s'.owner.Some? ==> s'.owner.value < 2)
  {
    AddMod(Total(s), s.cur[t]);
  }

  lemma {:induction false} SyncRun(mode: Mode, n: nat, states: seq<State>, threads: seq<nat>, i: nat)
    requires IsRun(mode, n, states, threads) && i < |states| && !mode.Racy?
    ensures SyncInv(mode, n, states[i])
  {
    if i > 0 {
      SyncRun(mode, n, states, threads, i - 1);
      SyncStep(mode, n, states[i - 1], threads[i - 1]);
    }
  }

  lemma SyncReachable(mode: Mode, n: nat, s: State)
    requires Reachable(mode, n, s) && !mode.Racy?
    ensures SyncInv(mode, n, s)
  {
    var states, threads :| IsRun(mode, n, states, threads) && states[|threads|] == s;
    SyncRun(mode, n, states, threads, |threads|);
  }

  /** For every number of cycles, overflow included, the synchronised adders end with n (n - 1) modulo
      2^32, so the final comparison reports no race. */
  lemma SynchronisedAddersAgree(mode: Mode, n: nat, s: State)
    requires Reachable(mode, n, s) && Finished(s) && !mode.Racy?
    ensures s.x == (n * (n - 1)) % 0x1_0000_0000 == (2 * (Triangle(n) % 0x1_0000_0000)) % 0x1_0000_0000
  {
    SyncReachable(mode, n, s);
    assert SyncThread(s, mode, n, 0) && SyncThread(s, mode, n, 1);
    TriangleFormula(n);
    DoubleMod(Triangle(n));
    assert Total(s) == 2 * Triangle(n);
  }

  lemma {:induction false} RunBelowWord(mode: Mode, n: nat, states: seq<State>, threads: seq<nat>, i: nat)
    requires IsRun(mode, n, states, threads) && i < |states|
    ensures states[i].x < WORD
  {
    if i > 0 {
      RunBelowWord(mode, n, states, threads, i - 1);
    }
  }
}
