/** Processes share a semaphore; whoever has passed it talks.  Up to the first SIGINT. */
module TalkingHeads {
  import opened Prelude

  const MAXSECS: nat := 7

  /** Talk(said, total): inside talk(), `said` of `total` ids printed. */
  datatype Pc = Wait | Talk(said: nat, total: nat) | Post | Rest

  datatype Out = Plain(id: nat) | Parenthesised(id: nat)

  datatype State = State(value: nat, pcs: seq<Pc>, out: seq<Out>)

  /** `secs` is what rand() % (MAXSECS - 1) + 1 gives when a process begins to talk. */
  datatype Event = Event(p: nat, secs: nat)

  ghost function Init(nproc: nat, sinit: nat): State {
    State(sinit, seq(nproc, i => Wait), [])
  }

  predicate Possible(s: State, e: Event) {
    && e.p < |s.pcs|
    && 1 <= e.secs <= MAXSECS - 1
    && (s.pcs[e.p].Wait? ==> s.value > 0)
  }

  /** One semaphore operation, or one print, of a process. */
  function Apply(s: State, e: Event): State
    requires Possible(s, e)
  {
    match s.pcs[e.p]
    case Wait => s.(value := s.value - 1, pcs := s.pcs[e.p := Talk(0, e.secs)])
    case Talk(said, total) =>
      s.(out := s.out + [if said == total - 1 then Parenthesised(e.p) else Plain(e.p)],
         pcs := s.pcs[e.p := if said + 1 >= total then Post else Talk(said + 1, total)])
    case Post => s.(value := s.value + 1, pcs := s.pcs[e.p := Rest])
    case Rest => s.(pcs := s.pcs[e.p := Wait])
  }

  /** `states` are the successive states of a run from the start, `events` what happened between them. */
  ghost predicate IsRun(nproc: nat, sinit: nat, states: seq<State>, events: seq<Event>) {
    && |states| == |events| + 1
    && states[0] == Init(nproc, sinit)
    && forall i :: 0 <= i < |events| ==>
         Possible(states[i], events[i]) && states[i + 1] == Apply(states[i], events[i])
  }

  /** The semaphore, the processes and the terminal, updated in place. */
  class Processes {
    var value: nat
    var pcs: seq<Pc>
    var out: seq<Out>

    function View(): State
      reads this
    {
      State(value, pcs, out)
    }

    constructor (nproc: nat, sinit: nat)
      ensures View() == Init(nproc, sinit)
    {
      value, pcs, out := sinit, seq(nproc, i => Wait), [];
    }

    /** The body of the loop in talk(). */
    method Say(id: nat, i: nat, nsecs: nat)
      modifies this`out
      ensures out == old(out) + [if i == nsecs - 1 then Parenthesised(id) else Plain(id)]
    {
      if i == nsecs - 1 {
        out := out + [Parenthesised(id)];
      } else {
        out := out + [Plain(id)];
      }
    }

    method Execute(e: Event)
      requires Possible(View(), e)
      modifies this
      ensures View() == Apply(old(View()), e)
    {
      match pcs[e.p] {
        case Wait =>
          value := value - 1;
          pcs := pcs[e.p := Talk(0, e.secs)];
        case Talk(i, nsecs) =>
          Say(e.p, i, nsecs);
          pcs := pcs[e.p := if i + 1 >= nsecs then Post else Talk(i + 1, nsecs)];
        case Post =>
          value := value + 1;
          pcs := pcs[e.p := Rest];
        case Rest =>
          pcs := pcs[e.p := Wait];
      }
    }

    /** A whole run on the semaphore, the processes and the terminal. */
    method Replay(events: seq<Event>, ghost nproc: nat, ghost sinit: nat, ghost states: seq<State>)
      requires IsRun(nproc, sinit, states, events) && View() == Init(nproc, sinit)
      modifies this
      ensures View() == states[|events|]
    {
      for i := 0 to |events|
        invariant View() == states[i]
      {
        Execute(events[i]);
      }
    }
  }

  predicate Inside(pc: Pc) { pc.Talk? || pc.Post? }

  /** The processes between wait and post. */
  ghost function Talkers(pcs: seq<Pc>): (r: set<nat>)
    ensures forall p: nat :: p in r <==> p < |pcs| && Inside(pcs[p])
  {
    set p | p in Below(|pcs|) && Inside(pcs[p])
  }

  lemma TalkersUpdate(pcs: seq<Pc>, p: nat, pc: Pc)
    requires p < |pcs|
    ensures var before, after := |Talkers(pcs)|, |Talkers(pcs[p := pc])|;
            after == before - (if Inside(pcs[p]) then 1 else 0) + if Inside(pc) then 1 else 0
  {
    var after := pcs[p := pc];
    CountWithout(Talkers(pcs), p);
    CountWithout(Talkers(after), p);
    TalkersElsewhere(pcs, p, pc);
  }

  lemma TalkersElsewhere(pcs: seq<Pc>, p: nat, pc: Pc)
    requires p < |pcs|
    ensures Talkers(pcs[p := pc]) - {p} == Talkers(pcs) - {p}
  {
    var after := pcs[p := pc];
    forall q: nat | q != p ensures q in Talkers(after) <==> q in Talkers(pcs) {
    }
  }

  lemma CountWithout(s: set<nat>, x: nat)
    ensures |s| == |s - {x}| + if x in s then 1 else 0
  {
    if x in s {
      assert s == (s - {x}) + {x};
    } else {
      assert s == s - {x};
    }
  }

  lemma TalkersNext(s: State, e: Event)
    requires Possible(s, e)
    ensures var s' := Apply(s, e);
            |Talkers(s'.pcs)| + s'.value == |Talkers(s.pcs)| + s.value && |s'.pcs| == |s.pcs|
  {
    TalkersUpdate(s.pcs, e.p, Apply(s, e).pcs[e.p]);
  }

  lemma TalkersInit(nproc: nat, sinit: nat)
    ensures |Talkers(Init(nproc, sinit).pcs)| == 0
  {
    assert Talkers(Init(nproc, sinit).pcs) == {};
  }

  /** The semaphore counts the processes that may still enter: never more than `sinit` talk. */
  lemma {:induction false} SemaphoreCounts(nproc: nat, sinit: nat, states: seq<State>, events: seq<Event>, i: nat)
    requires IsRun(nproc, sinit, states, events) && i < |states|
    ensures states[i].value + |Talkers(states[i].pcs)| == sinit
    ensures |Talkers(states[i].pcs)| <= sinit
    ensures |states[i].pcs| == nproc
  {
    if i == 0 {
      TalkersInit(nproc, sinit);
    } else {
      SemaphoreCounts(nproc, sinit, states, events, i - 1);
      TalkersNext(states[i - 1], events[i - 1]);
    }
  }

  // ---- the output with one talker at a time ----

  /** What one turn prints: `plain` plain ids, then one in parentheses. */
  datatype Block = Block(id: nat, plain: nat)

  function Plains(id: nat, k: nat): (r: seq<Out>)
    ensures |r| == k
    ensures forall i :: 0 <= i < k ==> r[i] == Plain(id)
  {
    seq(k, i => Plain(id))
  }

  function Render(blocks: seq<Block>): seq<Out>
    decreases |blocks|
  {
    if blocks == [] then []
    else
      var last := |blocks| - 1;
      Render(blocks[..last]) + (Plains(blocks[last].id, blocks[last].plain) + [Parenthesised(blocks[last].id)])
  }

  /** A turn begins when a process passes the semaphore, as long as its random number of seconds says. */
  ghost function TurnOf(s: State, e: Event): (r: seq<Block>)
    requires Possible(s, e)
    ensures |r| <= 1
  {
    if s.pcs[e.p].Wait? then [Block(e.p, e.secs - 1)] else []
  }

  /** The turns begun in the first `i` steps of a run. */
  ghost function Turns(nproc: nat, sinit: nat, states: seq<State>, events: seq<Event>, i: nat): seq<Block>
    requires IsRun(nproc, sinit, states, events) && i <= |events|
  {
    if i == 0 then []
    else Turns(nproc, sinit, states, events, i - 1) + TurnOf(states[i - 1], events[i - 1])
  }

  /** The output is that of all turns, or, while a process talks, that of all turns but the last, which is
      the talker's and of which a part has been printed. */
  ghost predicate OutputIs(nproc: nat, s: State, turns: seq<Block>) {
    && |s.pcs| == nproc
    && (forall j :: 0 <= j < |turns| ==> turns[j].id < nproc && turns[j].plain <= 5)
    && (forall p: nat :: p < nproc && s.pcs[p].Talk? ==>
          && s.pcs[p].said < s.pcs[p].total
          && turns != [] && turns[|turns| - 1] == Block(p, s.pcs[p].total - 1)
          && s.out == Render(turns[..|turns| - 1]) + Plains(p, s.pcs[p].said))
    && ((forall p: nat :: p < nproc ==> !s.pcs[p].Talk?) ==> s.out == Render(turns))
  }

  lemma OnlyTalker(s: State, p: nat, q: nat)
    requires |Talkers(s.pcs)| <= 1 && p < |s.pcs| && q < |s.pcs| && p != q && Inside(s.pcs[p])
    ensures !Inside(s.pcs[q])
  {
    if Inside(s.pcs[q]) {
      assert {p, q} <= Talkers(s.pcs);
      SubsetSize({p, q}, Talkers(s.pcs));
    }
  }

  lemma TurnBegins(nproc: nat, s: State, e: Event, turns: seq<Block>)
    requires OutputIs(nproc, s, turns) && Possible(s, e) && s.pcs[e.p].Wait? && Talkers(s.pcs) == {}
    ensures OutputIs(nproc, Apply(s, e), turns + [Block(e.p, e.secs - 1)])
  {
    forall q: nat | q < nproc ensures !Inside(s.pcs[q]) {
      assert q !in Talkers(s.pcs);
    }
    var more := turns + [Block(e.p, e.secs - 1)];
    assert more[..|turns|] == turns;
    assert s.out == Render(turns) + Plains(e.p, 0);
    assert Apply(s, e).pcs[e.p].Talk?;
  }

  lemma PrintInTurn(nproc: nat, s: State, e: Event, turns: seq<Block>)
    requires OutputIs(nproc, s, turns) && Possible(s, e) && s.pcs[e.p].Talk?
    requires forall q: nat :: q < nproc && q != e.p ==> !Inside(s.pcs[q])
    ensures OutputIs(nproc, Apply(s, e), turns)
  {
    var said, before := s.pcs[e.p].said, Render(turns[..|turns| - 1]);
    if said + 1 < s.pcs[e.p].total {
      assert Apply(s, e).pcs[e.p].Talk?;
      assert before + Plains(e.p, said) + [Plain(e.p)] == before + Plains(e.p, said + 1);
    } else {
      assert before + Plains(e.p, said) + [Parenthesised(e.p)] == before + (Plains(e.p, said) + [Parenthesised(e.p)]);
    }
  }

  lemma Silent(nproc: nat, s: State, e: Event, turns: seq<Block>)
    requires OutputIs(nproc, s, turns) && Possible(s, e) && (s.pcs[e.p].Post? || s.pcs[e.p].Rest?)
    ensures OutputIs(nproc, Apply(s, e), turns)
  {
    var pcs := Apply(s, e).pcs;
    assert |pcs| == |s.pcs| && forall p: nat :: p < nproc && p != e.p ==> pcs[p] == s.pcs[p];
  }

  lemma OutputNext(nproc: nat, s: State, e: Event, turns: seq<Block>)
    requires OutputIs(nproc, s, turns) && s.value + |Talkers(s.pcs)| == 1 && Possible(s, e)
    ensures OutputIs(nproc, Apply(s, e), turns + TurnOf(s, e))
  {
    forall q: nat | q < nproc && q != e.p && Inside(s.pcs[e.p]) ensures !Inside(s.pcs[q]) {
      OnlyTalker(s, e.p, q);
    }
    match s.pcs[e.p] {
      case Wait =>
        assert Talkers(s.pcs) == {};
        TurnBegins(nproc, s, e, turns);
      case Talk(said, total) =>
        PrintInTurn(nproc, s, e, turns);
        assert turns + [] == turns;
      case _ =>
        Silent(nproc, s, e, turns);
        assert turns + [] == turns;
    }
  }

  /** With the semaphore at 1 the output is a sequence of turns that do not mix: those of the processes in the
      order in which they have passed the semaphore, each as long as its random number says, which is up to
      5 plain ids and one in parentheses, and of the last one as much as its process has said. */
  lemma {:induction false} TurnsDoNotMix(nproc: nat, states: seq<State>, events: seq<Event>, i: nat)
    requires IsRun(nproc, 1, states, events) && i < |states|
    ensures OutputIs(nproc, states[i], Turns(nproc, 1, states, events, i))
  {
    if i > 0 {
      TurnsDoNotMix(nproc, states, events, i - 1);
      SemaphoreCounts(nproc, 1, states, events, i - 1);
      OutputNext(nproc, states[i - 1], events[i - 1], Turns(nproc, 1, states, events, i - 1));
    }
  }

  // ---- progress, with any number of talkers ----

  /** What process `p` has yet to do of its turn: the rest of its ids, the post and the pause. */
  ghost function Left(s: State, p: nat): int
    requires p < |s.pcs|
  {
    match s.pcs[p]
    case Wait => 0
    case Talk(said, total) => total - said + 2
    case Post => 2
    case Rest => 1
  }

  /** How many of the first `i` steps were of process `p`. */
  ghost function Executed(events: seq<Event>, p: nat, i: nat): nat
    requires i <= |events|
  {
    if i == 0 then 0 else Executed(events, p, i - 1) + if events[i - 1].p == p then 1 else 0
  }

  /** The steps of all turns of process `p`: the wait, the ids, the post and the pause. */
  ghost function Owed(turns: seq<Block>, p: nat): nat
    decreases |turns|
  {
    if turns == [] then 0
    else
      var last := turns[|turns| - 1];
      Owed(turns[..|turns| - 1], p) + if last.id == p then last.plain + 4 else 0
  }

  lemma OwedNext(turns: seq<Block>, more: seq<Block>, p: nat)
    requires |more| <= 1
    ensures Owed(turns + more, p) == Owed(turns, p) + if more != [] && more[0].id == p then more[0].plain + 4 else 0
  {
    if more != [] {
      assert (turns + more)[..|turns|] == turns;
    } else {
      assert turns + more == turns;
    }
  }

  ghost predicate TalkShape(s: State) {
    forall p: nat :: p < |s.pcs| && s.pcs[p].Talk? ==> s.pcs[p].said < s.pcs[p].total
  }

  lemma StepCounted(s: State, e: Event, p: nat)
    requires TalkShape(s) && Possible(s, e) && p < |s.pcs|
    ensures |Apply(s, e).pcs| == |s.pcs| && TalkShape(Apply(s, e))
    ensures var turn := TurnOf(s, e);
            Left(Apply(s, e), p) == Left(s, p) - (if e.p == p then 1 else 0)
                                    + if turn != [] && turn[0].id == p then turn[0].plain + 4 else 0
  {
  }

  /** Whatever the others do, a process takes exactly the steps of its turns: with any value of the semaphore,
      for each turn the wait, as many ids as its random number says, the post and the pause. */
  lemma {:induction false} StepsCounted(
    nproc: nat, sinit: nat, states: seq<State>, events: seq<Event>, i: nat, p: nat)
    requires IsRun(nproc, sinit, states, events) && i < |states| && p < nproc
    ensures |states[i].pcs| == nproc && TalkShape(states[i])
    ensures Executed(events, p, i) + Left(states[i], p) == Owed(Turns(nproc, sinit, states, events, i), p)
  {
    if i > 0 {
      var s, e := states[i - 1], events[i - 1];
      StepsCounted(nproc, sinit, states, events, i - 1, p);
      OwedNext(Turns(nproc, sinit, states, events, i - 1), TurnOf(s, e), p);
      StepCounted(s, e, p);
    }
  }

  /** Process `p` can take its next step, and if that begins a turn the turn may be of any length from 1 to 6. */
  ghost predicate CanGoOn(s: State, p: nat) {
    forall secs: nat :: 1 <= secs <= 6 ==> Possible(s, Event(p, secs))
  }

  /** Some process can go on, in every reachable state, unless there is no process or the semaphore has
      begun at 0. */
  lemma NeverStuckIff(nproc: nat, sinit: nat, states: seq<State>, events: seq<Event>, i: nat)
    requires IsRun(nproc, sinit, states, events) && i < |states|
    ensures (exists p: nat :: CanGoOn(states[i], p)) <==> nproc > 0 && sinit > 0
  {
    var s := states[i];
    SemaphoreCounts(nproc, sinit, states, events, i);
    if p: nat :| CanGoOn(s, p) {
      assert Possible(s, Event(p, 1));
      if |events| > 0 {
        FirstStep(nproc, sinit, states, events);
      }
    }
    if nproc > 0 && sinit > 0 {
      if p: nat :| p < nproc && !s.pcs[p].Wait? {
        assert CanGoOn(s, p);
      } else {
        assert Talkers(s.pcs) == {};
        assert CanGoOn(s, 0);
      }
    }
  }

  lemma FirstStep(nproc: nat, sinit: nat, states: seq<State>, events: seq<Event>)
    requires IsRun(nproc, sinit, states, events) && |events| > 0
    ensures sinit > 0
  {
    assert Possible(states[0], events[0]) && states[0].pcs[events[0].p].Wait?;
  }

  /** The program itself: what any run with the semaphore at 1 has printed. */
  method Program(nproc: nat, events: seq<Event>, ghost states: seq<State>) returns (out: seq<Out>)
    requires IsRun(nproc, 1, states, events)
    ensures out == states[|events|].out
    ensures OutputIs(nproc, states[|events|].(out := out), Turns(nproc, 1, states, events, |events|))
  {
    var p := new Processes(nproc, 1);
    p.Replay(events, nproc, 1, states);
    out := p.out;
    TurnsDoNotMix(nproc, states, events, |events|);
  }
}
