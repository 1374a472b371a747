/** Two threads each add 1 .. n - 1 to a shared 32-bit variable, in one of three ways, and the main
    thread compares the result with twice the sum. */
module AtomicAdd {
  import opened Prelude

  const WORD: nat := 0x1_0000_0000

  function Add32(a: nat, b: nat): nat { (a + b) % WORD }

  datatype Mode = Racy | Atomic | Mutex

  datatype Pc =
    | LoopTest   // i < n ?
    | Lock       // take the mutex
    | Load       // read x
    | Store      // write x
    | FetchAdd   // atomic_fetch_add(&x, i)
    | Unlock     // release the mutex
    | Done

  /** `added` is history: what each thread has added so far.  `overtaken` says for a thread between
      its load and its store whether the other one has stored meanwhile; `raced` whether a store has
      ever been made by an overtaken thread. */
  datatype State = State(
    x: nat, owner: Option<nat>, pcs: seq<Pc>, cur: seq<nat>, loaded: seq<nat>,
    added: seq<nat>, overtaken: seq<bool>, raced: bool)

  ghost predicate Shape(s: State) {
    |s.pcs| == |s.cur| == |s.loaded| == |s.added| == |s.overtaken| == 2
  }

  ghost function Init(): State {
    State(0, None, [LoopTest, LoopTest], [1, 1], [0, 0], [0, 0], [false, false], false)
  }

  predicate CanRun(s: State, t: nat)
    requires t < |s.pcs|
  {
    match s.pcs[t]
    case Done => false
    case Lock => s.owner.None?
    case _ => true
  }

  function FirstStatement(mode: Mode): Pc {
    match mode
    case Racy => Load
    case Atomic => FetchAdd
    case Mutex => Lock
  }

  ghost function Goto(s: State, t: nat, pc: Pc): State
    requires t < |s.pcs|
  {
    s.(pcs := s.pcs[t := pc])
  }

  /** One statement of thread `t`, for `n` cycles. */
  ghost function Step(mode: Mode, n: nat, s: State, t: nat): (r: State)
    requires Shape(s) && t < 2 && CanRun(s, t)
    ensures Shape(r)
  {
    match s.pcs[t]
    case LoopTest => Goto(s, t, if s.cur[t] < n then FirstStatement(mode) else Done)
    case Lock => Goto(s, t, Load).(owner := Some(t))
    case Load => Goto(s, t, Store).(loaded := s.loaded[t := s.x], overtaken := s.overtaken[t := false])
    case Store =>
      var after := Goto(s, t, if mode.Mutex? then Unlock else LoopTest).(
        x := Add32(s.loaded[t], s.cur[t]),
        added := s.added[t := s.added[t] + s.cur[t]],
        overtaken := s.overtaken[1 - t := true],
        raced := s.raced || s.overtaken[t]);
      if mode.Mutex? then after else after.(cur := s.cur[t := s.cur[t] + 1])
    case FetchAdd =>
      Goto(s, t, LoopTest).(
        x := Add32(s.x, s.cur[t]), added := s.added[t := s.added[t] + s.cur[t]], cur := s.cur[t := s.cur[t] + 1])
    case Unlock => Goto(s, t, LoopTest).(owner := None, cur := s.cur[t := s.cur[t] + 1])
    case Done => s
  }

  /** `states` are the successive states of a run from the start, `threads` the threads that ran. */
  ghost predicate IsRun(mode: Mode, n: nat, states: seq<State>, threads: seq<nat>) {
    && |states| == |threads| + 1
    && states[0] == Init()
    && (forall i :: 0 <= i < |states| ==> Shape(states[i]))
    && forall i :: 0 <= i < |threads| ==>
         && threads[i] < 2 && CanRun(states[i], threads[i])
         && states[i + 1] == Step(mode, n, states[i], threads[i])
  }

  ghost predicate Reachable(mode: Mode, n: nat, s: State) {
    Shape(s) && exists states, threads :: IsRun(mode, n, states, threads) && states[|threads|] == s
  }

  lemma ReachableNext(mode: Mode, n: nat, s: State, t: nat) returns (s': State)
    requires Reachable(mode, n, s) && t < 2 && CanRun(s, t)
    ensures s' == Step(mode, n, s, t) && Reachable(mode, n, s')
  {
    var states, threads :| IsRun(mode, n, states, threads) && states[|threads|] == s;
    s' := Step(mode, n, s, t);
    RunOn(mode, n, states, threads, t);
    var states', threads' := states + [s'], threads + [t];
    assert IsRun(mode, n, states', threads') && states'[|threads'|] == s';
  }

  lemma RunOn(mode: Mode, n: nat, states: seq<State>, threads: seq<nat>, t: nat)
    requires IsRun(mode, n, states, threads) && t < 2 && CanRun(states[|threads|], t)
    ensures IsRun(mode, n, states + [Step(mode, n, states[|threads|], t)], threads + [t])
  {
  }

  predicate Finished(s: State)
    requires |s.pcs| == 2
  {
    s.pcs[0].Done? && s.pcs[1].Done?
  }

  /** 1 + 2 + ... + (n - 1) */
  function Triangle(n: nat): nat {
    if n <= 1 then 0 else Triangle(n - 1) + (n - 1)
  }

  lemma {:induction false} TriangleFormula(n: nat)
    ensures 2 * Triangle(n) == n * (n - 1)
  {
    if n > 1 {
      TriangleFormula(n - 1);
    }
  }

  lemma {:induction false} TriangleMonotone(m: nat, n: nat)
    requires m <= n
    ensures Triangle(m) <= Triangle(n)
  {
    if m < n {
      TriangleMonotone(m, n - 1);
    }
  }

  /** The variables of the program, updated in place. */
  class Adder {
    const mode: Mode
    const n: nat
    var x: nat
    var owner: Option<nat>
    var pcs: seq<Pc>
    var cur: seq<nat>
    var loaded: seq<nat>
    ghost var added: seq<nat>
    ghost var overtaken: seq<bool>
    ghost var raced: bool

    ghost function View(): State
      reads this
    {
      State(x, owner, pcs, cur, loaded, added, overtaken, raced)
    }

    constructor (mode: Mode, n: nat)
      ensures this.mode == mode && this.n == n && View() == Init()
    {
      this.mode, this.n := mode, n;
      x, owner, pcs, cur, loaded := 0, None, [LoopTest, LoopTest], [1, 1], [0, 0];
      added, overtaken, raced := [0, 0], [false, false], false;
    }

    /** The store of `x = x + i`. */
    method StoreSum(t: nat)
      requires Shape(View()) && t < 2 && pcs[t].Store?
      modifies this
      ensures View() == Step(mode, n, old(View()), t)
    {
      x := Add32(loaded[t], cur[t]);
      added := added[t := added[t] + cur[t]];
      raced := raced || overtaken[t];
      overtaken := overtaken[1 - t := true];
      if mode.Mutex? {
        pcs := pcs[t := Unlock];
      } else {
        cur := cur[t := cur[t] + 1];
        pcs := pcs[t := LoopTest];
      }
    }

    /** The statement at which thread `t` stands. */
    method Execute(t: nat)
      requires Shape(View()) && t < 2 && CanRun(View(), t)
      modifies this
      ensures View() == Step(mode, n, old(View()), t)
    {
      match pcs[t] {
        case LoopTest =>
          pcs := pcs[t := if cur[t] < n then FirstStatement(mode) else Done];
        case Lock =>
          owner := Some(t);
          pcs := pcs[t := Load];
        case Load =>
          loaded := loaded[t := x];
          overtaken := overtaken[t := false];
          pcs := pcs[t := Store];
        case Store =>
          StoreSum(t);
        case FetchAdd =>
          x := Add32(x, cur[t]);
          added := added[t := added[t] + cur[t]];
          cur := cur[t := cur[t] + 1];
          pcs := pcs[t := LoopTest];
        case Unlock =>
          owner := None;
          cur := cur[t := cur[t] + 1];
          pcs := pcs[t := LoopTest];
        case Done =>
          assert false;
      }
    }

    /** A whole run on the program's variables. */
    method Replay(threads: seq<nat>, ghost states: seq<State>)
      requires IsRun(mode, n, states, threads) && View() == Init()
      modifies this
      ensures View() == states[|threads|]
    {
      for i := 0 to |threads|
        invariant View() == states[i]
      {
        Execute(threads[i]);
      }
    }
  }

  lemma AddMod(total: nat, i: nat)
    ensures Add32(total % WORD, i) == (total + i) % WORD
  {
  }

  /** The sum of one thread, as the main thread computes it. */
  method ExpectedSum(n: nat) returns (x2: nat)
    ensures x2 == Triangle(n) % 0x1_0000_0000
  {
    var i := 1;
    x2 := 0;
    while i < n
      invariant 1 <= i && (i <= n || i == 1)
      invariant x2 == Triangle(i) % WORD
    {
      AddMod(Triangle(i), i);
      x2 := Add32(x2, i);
      i := i + 1;
    }
  }

  /** The test at the end of main: unsigned comparison of `x` with twice the sum. */
  method RaceDetected(x: nat, n: nat) returns (race: bool)
    requires x < WORD
    ensures race <==> x != (n * (n - 1)) % 0x1_0000_0000
  {
    var x2 := ExpectedSum(n);
    race := x != (2 * x2) % WORD;
    TriangleFormula(n);
    DoubleMod(Triangle(n));
  }

  lemma DoubleMod(a: nat)
    ensures (2 * (a % WORD)) % WORD == (2 * a) % WORD
  {
    var q := a / WORD;
    assert 2 * a == 2 * (a % WORD) + (2 * q) * WORD;
  }
}
