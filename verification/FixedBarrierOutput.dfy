/** What the two-phase barrier prints: every ended line has every thread's id, once. */
module FixedBarrierOutput {
  import opened Prelude
  import opened FixedBarrier
  import opened FixedBarrierSafety

  ghost predicate Distinct(line: seq<nat>) {
    forall i, j :: 0 <= i < j < |line| ==> line[i] != line[j]
  }

  /** `line` shows exactly the ids in `ids`, once each. */
  ghost predicate Shows(line: seq<nat>, ids: set<nat>) {
    Distinct(line) && (forall t: nat :: t in ids <==> t in line)
  }

  /** A permutation of 0 .. max - 1. */
  ghost predicate Permutation(max: nat, line: seq<nat>) {
    Shows(line, Below(max))
  }

  /** How often thread `t` has printed its id. */
  ghost function Prints(s: State, t: nat): nat
    requires t < |s.pcs| == |s.arrivals|
  {
    s.arrivals[t] + if s.pcs[t] in {Lock, Arrive} then 1 else 0
  }

  ghost function OnLine(max: nat, s: State): (r: set<nat>)
    requires Shape(max, s)
    ensures forall t: nat :: t in r <==> t < max && Prints(s, t) == |s.lines| + 1
  {
    set t | t in Below(max) && Prints(s, t) == |s.lines| + 1
  }

  /** Between the last arrival and the end of the line, if the round is complete. */
  ghost predicate OwnerAtLine(max: nat, s: State)
    requires Shape(max, s)
  {
    s.owner.Some? && s.owner.value < max && s.pcs[s.owner.value] in {Test, NewLine}
  }

  /** The last thread has arrived but the line has not been ended. */
  ghost predicate LineDue(max: nat, s: State)
    requires Shape(max, s)
  {
    OwnerAtLine(max, s) && s.onBarrier % max == 0
  }

  ghost predicate EndedLines(max: nat, s: State)
    requires Shape(max, s)
  {
    && |s.lines| + (if LineDue(max, s) then 1 else 0) == s.onBarrier / max
    && forall i :: 0 <= i < |s.lines| ==> Permutation(max, s.lines[i])
  }

  ghost predicate CurrentLine(max: nat, s: State)
    requires Shape(max, s)
  {
    Shows(s.line, OnLine(max, s))
  }

  ghost predicate OutputInv(max: nat, s: State) {
    Inv(max, s) && EndedLines(max, s) && CurrentLine(max, s)
  }

  lemma InitOutput(max: nat)
    requires max >= 2
    ensures OutputInv(max, Init(max))
  {
    InitInv(max);
    DivModUnique(0, max, 0, 0);
  }

  /** A step that changes neither the output nor anybody's number of prints. */
  lemma LineKept(max: nat, s: State, s': State)
    requires Shape(max, s) && Shape(max, s') && CurrentLine(max, s)
    requires s'.lines == s.lines && s'.line == s.line
    requires forall i: nat :: i < max ==> Prints(s', i) == Prints(s, i)
    ensures CurrentLine(max, s')
  {
    assert OnLine(max, s') == OnLine(max, s);
  }

  /** A thread about to print has printed for every ended line, and no line is due. */
  lemma BeforePrint(max: nat, s: State, t: nat)
    requires OutputInv(max, s) && t < max && s.pcs[t].Print?
    ensures Prints(s, t) == |s.lines| && !LineDue(max, s)
  {
    var round, k := s.onBarrier / max, s.onBarrier % max;
    OutsideMeansGathering(max, s, t, round, k);
    if LineDue(max, s) {
      GatheringAt(max, s, round, k, s.owner.value);
    }
  }

  lemma PrintAppends(max: nat, s: State, t: nat)
    requires OutputInv(max, s) && t < max && s.pcs[t].Print?
    ensures CurrentLine(max, Step(max, s, t)) && EndedLines(max, Step(max, s, t))
  {
    BeforePrint(max, s, t);
    PrintShows(max, s, t);
    LinesKept(max, s, Step(max, s, t));
  }

  lemma PrintShows(max: nat, s: State, t: nat)
    requires Shape(max, s) && CurrentLine(max, s) && t < max && s.pcs[t].Print? && Prints(s, t) == |s.lines|
    ensures CurrentLine(max, Step(max, s, t))
  {
    var s' := Step(max, s, t);
    forall i: nat | i < max ensures i in OnLine(max, s') <==> i in OnLine(max, s) || i == t {
      assert i != t ==> Prints(s', i) == Prints(s, i);
    }
    assert OnLine(max, s') == OnLine(max, s) + {t};
    AppendShows(s.line, OnLine(max, s), t);
  }

  lemma AppendShows(line: seq<nat>, ids: set<nat>, t: nat)
    requires Shows(line, ids) && t !in ids
    ensures Shows(line + [t], ids + {t})
  {
    assert forall i: nat :: i in line + [t] <==> i in line || i == t;
  }

  lemma EveryIdIsOnLine(max: nat, s: State, t: nat)
    requires OutputInv(max, s) && t < max && s.pcs[t].NewLine?
    ensures LineDue(max, s) && OnLine(max, s) == Below(max)
    ensures OnLine(max, Step(max, s, t)) == {} && !LineDue(max, Step(max, s, t))
  {
    var s', round := Step(max, s, t), s.onBarrier / max;
    LeaderMeansTurning(max, s, t);
    assert LineDue(max, s);
    forall i: nat | i < max ensures Prints(s, i) == |s.lines| + 1 && Prints(s', i) == |s'.lines| {
      assert TurningThread(s, max, round, i);
      PrintsInTurning(max, s, round, t, i);
    }
    assert OnLine(max, s) == Below(max);
  }

  lemma PrintsInTurning(max: nat, s: State, round: int, t: nat, i: nat)
    requires Shape(max, s) && t < max && s.pcs[t].NewLine? && i < max && TurningThread(s, max, round, i)
    ensures Prints(s, i) == round == Prints(Step(max, s, t), i)
  {
  }

  lemma NewLineEndsPermutation(max: nat, s: State, t: nat)
    requires OutputInv(max, s) && t < max && s.pcs[t].NewLine?
    ensures CurrentLine(max, Step(max, s, t)) && EndedLines(max, Step(max, s, t))
  {
    EveryIdIsOnLine(max, s, t);
    LineAdded(max, s, Step(max, s, t));
  }

  lemma LineAdded(max: nat, s: State, s': State)
    requires Shape(max, s) && Shape(max, s') && EndedLines(max, s) && LineDue(max, s) && !LineDue(max, s')
    requires s'.lines == s.lines + [s.line] && s'.onBarrier == s.onBarrier && Permutation(max, s.line)
    ensures EndedLines(max, s')
  {
  }

  lemma ArriveKeepsLine(max: nat, s: State, t: nat)
    requires OutputInv(max, s) && t < max && s.pcs[t].Arrive?
    ensures CurrentLine(max, Step(max, s, t)) && EndedLines(max, Step(max, s, t))
  {
    var s' := Step(max, s, t);
    DivModSucc(s.onBarrier, max);
    assert s.owner == Some(t);
    LineKept(max, s, s');
  }

  /** What is due stays due when neither the owner nor its statement changes in a relevant way. */
  lemma OtherKeepsLine(max: nat, s: State, e: Event)
    requires OutputInv(max, s) && Possible(max, s, e)
    requires e.Run? ==> !(s.pcs[e.thread] in {Print, Arrive, NewLine})
    ensures var s' := Apply(max, s, e); CurrentLine(max, s') && EndedLines(max, s')
  {
    var s' := Apply(max, s, e);
    NothingPrinted(max, s, e);
    LineKept(max, s, s');
    OwnerStatement(max, s, e);
    LinesKept(max, s, s');
  }

  lemma NothingPrinted(max: nat, s: State, e: Event)
    requires Shape(max, s) && Possible(max, s, e)
    requires e.Run? ==> !(s.pcs[e.thread] in {Print, Arrive, NewLine})
    ensures var s' := Apply(max, s, e);
            && Shape(max, s') && s'.lines == s.lines && s'.line == s.line && s'.onBarrier == s.onBarrier
            && forall i: nat :: i < max ==> Prints(s', i) == Prints(s, i)
  {
  }

  lemma LinesKept(max: nat, s: State, s': State)
    requires Shape(max, s) && Shape(max, s') && EndedLines(max, s)
    requires s'.lines == s.lines && s'.onBarrier == s.onBarrier && LineDue(max, s') == LineDue(max, s)
    ensures EndedLines(max, s')
  {
  }

  lemma OwnerStatement(max: nat, s: State, e: Event)
    requires Inv(max, s) && Possible(max, s, e)
    requires e.Run? ==> !(s.pcs[e.thread] in {Print, Arrive, NewLine})
    ensures var s' := Apply(max, s, e); LineDue(max, s') == LineDue(max, s)
  {
    if e.Run? && Holding(s.pcs[e.thread]) {
      assert s.owner == Some(e.thread);
    }
    if e.Run? && s.pcs[e.thread].Test? {
      TestStatement(max, s, e.thread);
    } else {
      OwnerPlace(max, s, e);
    }
  }

  lemma TestStatement(max: nat, s: State, t: nat)
    requires Shape(max, s) && t < max && s.pcs[t].Test? && s.owner == Some(t)
    ensures LineDue(max, Step(max, s, t)) == LineDue(max, s)
  {
  }

  lemma OwnerPlace(max: nat, s: State, e: Event)
    requires Shape(max, s) && Possible(max, s, e)
    requires e.Run? ==> !(s.pcs[e.thread] in {Print, Arrive, Test, NewLine})
    requires e.Run? && Holding(s.pcs[e.thread]) ==> s.owner == Some(e.thread)
    ensures var s' := Apply(max, s, e);
            OwnerAtLine(max, s') == OwnerAtLine(max, s) && s'.onBarrier == s.onBarrier
  {
  }

  lemma ApplyOutput(max: nat, s: State, e: Event)
    requires OutputInv(max, s) && Possible(max, s, e)
    ensures OutputInv(max, Apply(max, s, e))
  {
    ApplyInv(max, s, e);
    if e.Run? && s.pcs[e.thread].Print? {
      PrintAppends(max, s, e.thread);
    } else if e.Run? && s.pcs[e.thread].Arrive? {
      ArriveKeepsLine(max, s, e.thread);
    } else if e.Run? && s.pcs[e.thread].NewLine? {
      NewLineEndsPermutation(max, s, e.thread);
    } else {
      OtherKeepsLine(max, s, e);
    }
  }
}
