/** A thread forks while the main thread may hold a mutex, with or without fork handlers that take the
    mutex before the fork and release it after, in both copies of the program. */
module ForkHandlers {
  import opened Prelude

  datatype Actor = Main | Forker | Child

  datatype MainPc = MLock | MCreate | MUnlock | MJoin | MCancel | MDestroy | MWait | MDone

  datatype ForkerPc =
    | NotStarted
    | Before      // handler: take the mutex
    | Fork        // copy the program
    | After       // handler in the parent: release the mutex
    | FLock | FUnlock | FDone

  datatype ChildPc =
    | Absent
    | CAfter      // handler in the child: release the mutex
    | CLock | CUnlock | CDone

  /** The owner of each copy of the mutex is a thread of that copy's program at the time it was taken:
      the main thread or the forking one.  In the child only the forking thread exists. */
  datatype State = State(
    main: MainPc, forker: ForkerPc, child: ChildPc,
    owner: Option<Actor>, childOwner: Option<Actor>, destroyed: bool)

  const START := State(MLock, NotStarted, Absent, None, None, false)

  predicate CanRun(s: State, a: Actor) {
    match a
    case Main =>
      (match s.main
       case MLock => s.owner.None?
       case MJoin => s.forker.FDone?
       case MWait => s.child.CDone?
       case MDone => false
       case _ => true)
    case Forker =>
      (match s.forker
       case NotStarted => false
       case Before => s.owner.None?
       case FLock => s.owner.None?
       case FDone => false
       case _ => true)
    case Child =>
      (match s.child
       case Absent => false
       case CLock => s.childOwner.None?
       case CDone => false
       case _ => true)
  }

  function MainStep(handlers: bool, s: State): State {
    match s.main
    case MLock => s.(main := MCreate, owner := Some(Main))
    case MCreate => s.(main := MUnlock, forker := if handlers then Before else Fork)
    case MUnlock => s.(main := MJoin, owner := None)
    case MJoin => s.(main := MCancel)
    case MCancel => s.(main := MDestroy)
    case MDestroy => s.(main := MWait, destroyed := true)
    case MWait => s.(main := MDone)
    case MDone => s
  }

  function ForkerStep(handlers: bool, s: State): State {
    match s.forker
    case NotStarted => s
    case Before => s.(forker := Fork, owner := Some(Forker))
    case Fork => s.(forker := if handlers then After else FLock,
                    child := if handlers then CAfter else CLock, childOwner := s.owner)
    case After => s.(forker := FLock, owner := None)
    case FLock => s.(forker := FUnlock, owner := Some(Forker))
    case FUnlock => s.(forker := FDone, owner := None)
    case FDone => s
  }

  function ChildStep(s: State): State {
    match s.child
    case Absent => s
    case CAfter => s.(child := CLock, childOwner := None)
    case CLock => s.(child := CUnlock, childOwner := Some(Forker))
    case CUnlock => s.(child := CDone, childOwner := None)
    case CDone => s
  }

  /** One statement of an actor. */
  function Step(handlers: bool, s: State, a: Actor): State
    requires CanRun(s, a)
  {
    match a
    case Main => MainStep(handlers, s)
    case Forker => ForkerStep(handlers, s)
    case Child => ChildStep(s)
  }

  /** `states` are successive states, `actors` those that did a step between them. */
  ghost predicate IsPath(handlers: bool, states: seq<State>, actors: seq<Actor>) {
    && |states| == |actors| + 1
    && forall i :: 0 <= i < |actors| ==>
         CanRun(states[i], actors[i]) && states[i + 1] == Step(handlers, states[i], actors[i])
  }

  ghost predicate IsRun(handlers: bool, states: seq<State>, actors: seq<Actor>) {
    IsPath(handlers, states, actors) && states[0] == START
  }

  ghost predicate Reachable(handlers: bool, s: State) {
    exists states, actors :: IsRun(handlers, states, actors) && states[|actors|] == s
  }

  predicate AllDone(s: State) { s.main.MDone? && s.forker.FDone? && s.child.CDone? }

  /** The two copies of the program, updated in place. */
  class Program {
    const handlers: bool
    var main: MainPc
    var forker: ForkerPc
    var child: ChildPc
    var owner: Option<Actor>
    var childOwner: Option<Actor>
    var destroyed: bool

    function View(): State
      reads this
    {
      State(main, forker, child, owner, childOwner, destroyed)
    }

    constructor (handlers: bool)
      ensures this.handlers == handlers && View() == START
    {
      this.handlers := handlers;
      main, forker, child, owner, childOwner, destroyed := MLock, NotStarted, Absent, None, None, false;
    }

    method RunMain()
      requires CanRun(View(), Main)
      modifies this
      ensures View() == Step(handlers, old(View()), Main)
    {
      match main {
        case MLock => owner := Some(Main); main := MCreate;
        case MCreate => forker := if handlers then Before else Fork; main := MUnlock;
        case MUnlock => owner := None; main := MJoin;
        case MJoin => main := MCancel;
        case MCancel => main := MDestroy;
        case MDestroy => destroyed := true; main := MWait;
        case MWait => main := MDone;
        case MDone => assert false;
      }
    }

    method RunForker()
      requires CanRun(View(), Forker)
      modifies this
      ensures View() == Step(handlers, old(View()), Forker)
    {
      match forker {
        case NotStarted => assert false;
        case Before => owner := Some(Forker); forker := Fork;
        case Fork =>
          childOwner := owner;
          child := if handlers then CAfter else CLock;
          forker := if handlers then After else FLock;
        case After => owner := None; forker := FLock;
        case FLock => owner := Some(Forker); forker := FUnlock;
        case FUnlock => owner := None; forker := FDone;
        case FDone => assert false;
      }
    }

    method RunChild()
      requires CanRun(View(), Child)
      modifies this
      ensures View() == Step(handlers, old(View()), Child)
    {
      match child {
        case Absent => assert false;
        case CAfter => childOwner := None; child := CLock;
        case CLock => childOwner := Some(Forker); child := CUnlock;
        case CUnlock => childOwner := None; child := CDone;
        case CDone => assert false;
      }
    }

    method Perform(a: Actor)
      requires CanRun(View(), a)
      modifies this
      ensures View() == Step(handlers, old(View()), a)
    {
      match a {
        case Main => RunMain();
        case Forker => RunForker();
        case Child => RunChild();
      }
    }

    /** A whole run on the variables of both copies. */
    method Replay(actors: seq<Actor>, ghost states: seq<State>)
      requires IsRun(handlers, states, actors) && View() == START
      modifies this
      ensures View() == states[|actors|]
    {
      for i := 0 to |actors|
        invariant View() == states[i]
      {
        Perform(actors[i]);
      }
    }
  }

  ghost predicate Inv(handlers: bool, s: State) {
    && (s.owner == Some(Main) <==> s.main in {MCreate, MUnlock})
    && (s.owner == Some(Forker) <==> s.forker in {After, FUnlock} || (handlers && s.forker.Fork?))
    && (s.owner.None? || s.owner == Some(Main) || s.owner == Some(Forker))
    && (s.forker.NotStarted? <==> s.main in {MLock, MCreate})
    && (s.child.Absent? <==> s.forker in {NotStarted, Before, Fork})
    && (!handlers ==> !(s.forker in {Before, After}) && !s.child.CAfter?)
    && (s.main in {MCancel, MDestroy, MWait, MDone} ==> s.forker.FDone?)
    && (s.main.MDone? ==> s.child.CDone?)
    && (s.destroyed <==> s.main in {MWait, MDone})
    && (s.child in {CAfter, CUnlock} ==> s.childOwner == Some(Forker))
    && (s.child.CDone? ==> s.childOwner.None?)
    && (s.child.CLock? ==> s.childOwner.None? || (!handlers && s.childOwner == Some(Main)))
  }

  /** The statements that the three actors have executed to be where they are. */
  function Executed(handlers: bool, s: State): nat {
    var h := if handlers then 1 else 0;
    (match s.main
     case MLock => 0 case MCreate => 1 case MUnlock => 2 case MJoin => 3
     case MCancel => 4 case MDestroy => 5 case MWait => 6 case MDone => 7)
    + (match s.forker
       case NotStarted => 0 case Before => 0 case Fork => h case After => 2
       case FLock => 2 * h + 1 case FUnlock => 2 * h + 2 case FDone => 2 * h + 3)
    + (match s.child
       case Absent => 0 case CAfter => 0 case CLock => h case CUnlock => h + 1 case CDone => h + 2)
  }

  lemma DoneWhenAllExecuted(handlers: bool, s: State)
    requires Inv(handlers, s)
    ensures Executed(handlers, s) <= if handlers then 15 else 12
    ensures AllDone(s) <==> Executed(handlers, s) == if handlers then 15 else 12
  {
  }

  lemma MainKeeps(handlers: bool, s: State)
    requires Inv(handlers, s) && CanRun(s, Main)
    ensures Inv(handlers, MainStep(handlers, s))
    ensures Executed(handlers, MainStep(handlers, s)) == Executed(handlers, s) + 1
  {
  }

  lemma ForkerKeeps(handlers: bool, s: State)
    requires Inv(handlers, s) && CanRun(s, Forker)
    ensures Inv(handlers, ForkerStep(handlers, s))
    ensures Executed(handlers, ForkerStep(handlers, s)) == Executed(handlers, s) + 1
  {
  }

  lemma ChildKeeps(handlers: bool, s: State)
    requires Inv(handlers, s) && CanRun(s, Child)
    ensures Inv(handlers, ChildStep(s)) && Executed(handlers, ChildStep(s)) == Executed(handlers, s) + 1
  {
  }

  lemma StepKeeps(handlers: bool, s: State, a: Actor)
    requires Inv(handlers, s) && CanRun(s, a)
    ensures Inv(handlers, Step(handlers, s, a)) && Executed(handlers, Step(handlers, s, a)) == Executed(handlers, s) + 1
  {
    match a {
      case Main => MainKeeps(handlers, s);
      case Forker => ForkerKeeps(handlers, s);
      case Child => ChildKeeps(handlers, s);
    }
  }

  /** Every step keeps the invariant, and every statement is executed once: a run has at most 15 steps with
      the handlers and 12 without, and everybody is done after exactly so many. */
  lemma {:induction false} RunInv(handlers: bool, states: seq<State>, actors: seq<Actor>, i: nat)
    requires IsRun(handlers, states, actors) && i < |states|
    ensures Inv(handlers, states[i])
    ensures i == Executed(handlers, states[i])
    ensures i <= if handlers then 15 else 12
    ensures AllDone(states[i]) <==> i == if handlers then 15 else 12
  {
    if i > 0 {
      RunInv(handlers, states, actors, i - 1);
      StepKeeps(handlers, states[i - 1], actors[i - 1]);
    }
    DoneWhenAllExecuted(handlers, states[i]);
  }

  lemma ReachableInv(handlers: bool, s: State)
    requires Reachable(handlers, s)
    ensures Inv(handlers, s)
  {
    var states, actors :| IsRun(handlers, states, actors) && states[|actors|] == s;
    RunInv(handlers, states, actors, |actors|);
  }

  /** With the handlers the forking thread owns the mutex at the instant of the copy, whoever releases
      or takes a mutex may, and the parent destroys it only when it is free and nobody will use it. */
  lemma HandlersProtectTheCopy(s: State)
    requires Reachable(true, s)
    ensures s.forker.Fork? ==> s.owner == Some(Forker)
    ensures s.forker in {After, FUnlock} ==> s.owner == Some(Forker)
    ensures s.child in {CAfter, CUnlock} ==> s.childOwner == Some(Forker)
    ensures s.child.CLock? ==> s.childOwner.None?
    ensures s.main.MDestroy? ==> s.owner.None? && s.forker.FDone?
  {
    ReachableInv(true, s);
  }

  /** The child's copy of the mutex is owned by a thread that the child does not have. */
  predicate Orphaned(s: State) { s.child.CLock? && s.childOwner == Some(Main) }

  /** A run that cannot go on has ended well, if and only if the child's copy of the mutex was not
      taken by the main thread; with the handlers that is always so. */
  lemma StoppedMeansDone(handlers: bool, s: State)
    requires Reachable(handlers, s)
    requires forall a :: !CanRun(s, a)
    ensures AllDone(s) <==> !Orphaned(s)
    ensures handlers ==> AllDone(s)
  {
    ReachableInv(handlers, s);
    assert !CanRun(s, Main) && !CanRun(s, Forker) && !CanRun(s, Child);
  }

  /** Without handlers a fork dooms the child exactly when the main thread holds the mutex. */
  lemma ForkOrphans(handlers: bool, s: State)
    requires Reachable(handlers, s) && s.forker.Fork?
    ensures Orphaned(Step(handlers, s, Forker)) <==> !handlers && s.main in {MCreate, MUnlock}
  {
    ReachableInv(handlers, s);
  }

  lemma OrphanStep(handlers: bool, s: State, a: Actor)
    requires Inv(handlers, s) && !s.child.Absent? && CanRun(s, a)
    ensures Orphaned(Step(handlers, s, a)) <==> Orphaned(s)
    ensures !Step(handlers, s, a).child.Absent?
  {
  }

  /** For ever: over any continuation, an orphaned child stays before its lock and the parent does not get
      past waiting for it, while a child that is not orphaned never becomes so. */
  lemma {:induction false} OrphanedForever(handlers: bool, states: seq<State>, actors: seq<Actor>, i: nat)
    requires IsPath(handlers, states, actors) && i < |states|
    requires Reachable(handlers, states[0]) && !states[0].child.Absent?
    ensures Inv(handlers, states[i]) && !states[i].child.Absent?
    ensures Orphaned(states[i]) <==> Orphaned(states[0])
    ensures Orphaned(states[0]) ==> states[i].child.CLock? && !states[i].main.MDone? && !CanRun(states[i], Child)
  {
    ReachableInv(handlers, states[0]);
    if i > 0 {
      OrphanedForever(handlers, states, actors, i - 1);
      StepKeeps(handlers, states[i - 1], actors[i - 1]);
      OrphanStep(handlers, states[i - 1], actors[i - 1]);
    }
  }

  lemma OrphanReachable() returns (s: State)
    ensures Reachable(false, s) && Orphaned(s)
  {
    var s1 := Step(false, START, Main);
    var s2 := Step(false, s1, Main);
    s := Step(false, s2, Forker);
    var states, actors := [START, s1, s2, s], [Main, Main, Forker];
    assert IsRun(false, states, actors) && states[|actors|] == s;
  }

  /** The program itself: with the handlers, after any run the child is not orphaned, and a run that
      cannot go on has ended well. */
  method RunProgram(handlers: bool, actors: seq<Actor>, ghost states: seq<State>) returns (p: Program)
    requires IsRun(handlers, states, actors)
    ensures fresh(p) && p.handlers == handlers && p.View() == states[|actors|]
    ensures handlers ==> !Orphaned(p.View())
    ensures handlers && (forall a :: !CanRun(p.View(), a)) ==> AllDone(p.View())
  {
    p := new Program(handlers);
    p.Replay(actors, states);
    assert Reachable(handlers, p.View());
    ReachableInv(handlers, p.View());
    if handlers && forall a :: !CanRun(p.View(), a) {
      StoppedMeansDone(handlers, p.View());
    }
  }
}
