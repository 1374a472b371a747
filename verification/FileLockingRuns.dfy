/** What the reader sees and how far the writers get, with private descriptors and with a shared one. */
module FileLockingRuns {
  import opened Prelude
  import opened FileLocking
  import opened FileLockingTheorems

  // ---- what the reader reads ----

  /** The first 2 * half bytes of the file, or all of it if it is shorter. */
  ghost function Snapshot(c: Config, file: seq<Byte>): seq<Byte> {
    if |file| <= 2 * c.half then file else file[..2 * c.half]
  }

  ghost predicate IsRead(s: State, e: Event) { e == Reader && s.readerPc.ReadR? }

  lemma {:induction false} ReaderAtStart(c: Config, states: seq<State>, events: seq<Event>, i: nat)
    requires IsRun(c, states, events) && i < |states|
    ensures states[i].readerPc.ReadR? ==> states[i].readerOffset == 0
  {
    if i > 0 {
      ReaderAtStart(c, states, events, i - 1);
    }
  }

  /** A read gives the reader the whole file as it is then, and changes nothing in it. */
  lemma ReadsWhatIsThere(c: Config, states: seq<State>, events: seq<Event>, i: nat)
    requires IsRun(c, states, events) && i < |events| && IsRead(states[i], events[i])
    ensures states[i + 1].seen == Snapshot(c, states[i].file)
    ensures states[i + 1].file == states[i].file
  {
    ReaderAtStart(c, states, events, i);
  }

  /** Until it reads again, the reader keeps that. */
  lemma {:induction false} SeenStays(c: Config, states: seq<State>, events: seq<Event>, i: nat, n: nat)
    requires IsRun(c, states, events) && i < n <= |events| && IsRead(states[i], events[i])
    requires forall k :: i < k < n ==> !IsRead(states[k], events[k])
    ensures states[n].seen == Snapshot(c, states[i].file)
    decreases n
  {
    if n == i + 1 {
      ReadsWhatIsThere(c, states, events, i);
    } else {
      SeenStays(c, states, events, i, n - 1);
    }
  }

  // ---- where writes go ----

  predicate Moves(pc: Pc) { pc in {SeekBar, WriteBar, Seek, Write} }

  /** Step `i` is a seek or a write through the descriptor `slot`. */
  ghost predicate MovesOffset(c: Config, s: State, e: Event, slot: nat)
    requires Shape(c, s)
  {
    e.Writer? && e.i < c.writers && c.Slot(e.i) == slot && Moves(s.pcs[e.i])
  }

  lemma OffsetNext(c: Config, s: State, e: Event, slot: nat)
    requires Shape(c, s) && Possible(c, s, e) && slot < |s.offsets|
    ensures Apply(c, s, e).offsets[slot] ==
            if !MovesOffset(c, s, e, slot) then s.offsets[slot]
            else if s.pcs[e.i] in {SeekBar, Seek} then s.js[e.i]
            else s.offsets[slot] + 1
  {
  }

  /** Until the next seek or write through the same descriptor, its offset is where the last seek has put it,
      or right behind what has been written last. */
  lemma {:induction false} OffsetIs(c: Config, states: seq<State>, events: seq<Event>, i: nat, n: nat, slot: nat)
    requires IsRun(c, states, events) && i < n <= |events| && slot < |states[i].offsets|
    requires MovesOffset(c, states[i], events[i], slot)
    requires forall k :: i < k < n ==> !MovesOffset(c, states[k], events[k], slot)
    ensures |states[n].offsets| == |states[i].offsets|
    ensures states[n].offsets[slot] ==
            if states[i].pcs[events[i].i] in {SeekBar, Seek} then states[i].js[events[i].i]
            else states[i].offsets[slot] + 1
    decreases n
  {
    if n > i + 1 {
      OffsetIs(c, states, events, i, n - 1, slot);
    }
    OffsetNext(c, states[n - 1], events[n - 1], slot);
  }

  // ---- what the lock holder leaves behind ----

  /** With private descriptors a writer that is about to give the lock back has filled the second half with
      its own character. */
  lemma HolderLeavesItsMark(c: Config, s: State, w: nat)
    requires Reachable(c, s) && Private(c) && w < c.writers && s.pcs[w].Unlock?
    ensures s.writeLock == Some(w) && |s.file| == 2 * c.half && s.file[c.half] == Bar
    ensures forall p :: c.half < p < |s.file| ==> s.file[p] == Mark(w)
  {
    ReachableInv(c, s);
    assert WriterInv(s, c, w);
  }

  // ---- how far a writer is ----

  /** The positions at which a writer can be at each statement; independent of the descriptors. */
  ghost predicate Control(s: State, c: Config, i: nat)
    requires Shape(c, s) && i < c.writers
  {
    var pc, j := s.pcs[i], s.js[i];
    && (Holding(c, s, i) <==> s.writeLock == Some(i))
    && (pc.Top? ==> j < c.Len())
    && (pc in {TakeLock, SeekBar} ==> j == c.half)
    && (pc.WriteBar? ==> j == c.half + 1)
    && (pc.Seek? ==> j != c.half && j < c.Len())
    && (pc in {Write, EndTest} ==> j != c.half + 1 && 1 <= j <= c.Len())
    && (pc.Unlock? ==> j == 0)
  }

  ghost predicate Controlled(c: Config, s: State)
    requires Shape(c, s)
  {
    && (forall i: nat :: i < c.writers ==> Control(s, c, i))
    && (s.writeLock.Some? ==> s.writeLock.value < c.writers)
    && (s.readLock ==> s.writeLock.None?)
    && (s.readLock <==> !s.readerPc.LockR?)
  }

  lemma SelfControlled(c: Config, s: State, i: nat)
    requires Shape(c, s) && i < c.writers && CanWrite(c, s, i) && Control(s, c, i)
    ensures Control(WriterStep(c, s, i), c, i)
  {
  }

  lemma OtherControlled(c: Config, s: State, i: nat, u: nat)
    requires Shape(c, s) && i < c.writers && u < c.writers && u != i && CanWrite(c, s, i)
    requires Control(s, c, i) && Control(s, c, u)
    ensures Control(WriterStep(c, s, i), c, u)
  {
  }

  lemma ApplyControlled(c: Config, s: State, e: Event)
    requires Shape(c, s) && Controlled(c, s) && Possible(c, s, e)
    ensures Controlled(c, Apply(c, s, e))
  {
    var s' := Apply(c, s, e);
    forall u: nat | u < c.writers ensures Control(s', c, u) {
      assert Control(s, c, u);
      if e.Writer? {
        assert Control(s, c, e.i);
        if u == e.i {
          SelfControlled(c, s, u);
        } else {
          OtherControlled(c, s, e.i, u);
        }
      }
    }
  }

  lemma {:induction false} RunControlled(c: Config, states: seq<State>, events: seq<Event>, n: nat)
    requires IsRun(c, states, events) && n < |states|
    ensures Controlled(c, states[n])
  {
    if n > 0 {
      RunControlled(c, states, events, n - 1);
      ApplyControlled(c, states[n - 1], events[n - 1]);
    }
  }

  /** Statements left from the top of the loop at position `j` to the end of the pass: four for each
      byte, and one for giving the lock back, which at the middle makes up for the statements that
      are not executed there. */
  function FromTop(half: nat, j: nat): int {
    4 * (2 * half - j) + if j > half then 1 else 0
  }

  function Remaining(half: nat, pc: Pc, j: nat): int {
    match pc
    case Top => FromTop(half, j)
    case TakeLock => FromTop(half, half) - 1
    case SeekBar => FromTop(half, half) - 2
    case WriteBar => FromTop(half, half) - 3
    case Seek => 3 + FromTop(half, j + 1)
    case Write => 2 + FromTop(half, j)
    case EndTest => 1 + FromTop(half, j)
    case Unlock => 1
  }

  ghost function Left(c: Config, s: State, i: nat): int
    requires Shape(c, s) && i < c.writers
  {
    Remaining(c.half, s.pcs[i], s.js[i])
  }

  /** Every statement of a writer brings the end of its pass one statement closer; nothing else does. */
  ghost predicate Advances(c: Config, s: State, s': State, e: Event, i: nat)
    requires Shape(c, s) && Shape(c, s') && i < c.writers
  {
    if e != Writer(i) then Left(c, s', i) == Left(c, s, i)
    else if s.pcs[i].Unlock? then Left(c, s, i) == 1 && Left(c, s', i) == 8 * c.half
    else Left(c, s', i) == Left(c, s, i) - 1
  }

  lemma WriterAdvances(c: Config, s: State, i: nat)
    requires Shape(c, s) && i < c.writers && CanWrite(c, s, i) && Control(s, c, i)
    ensures Advances(c, s, WriterStep(c, s, i), Writer(i), i)
  {
  }

  lemma RunAdvances(c: Config, states: seq<State>, events: seq<Event>, i: nat, n: nat)
    requires IsRun(c, states, events) && n < |events| && i < c.writers
    ensures Advances(c, states[n], states[n + 1], events[n], i)
  {
    RunControlled(c, states, events, n);
    assert Control(states[n], c, i);
    if events[n] == Writer(i) {
      WriterAdvances(c, states[n], i);
    }
  }

  /** Statements executed by writer `i` among the first `n` events, and passes it has ended. */
  ghost function Statements(events: seq<Event>, i: nat, n: nat): nat
    requires n <= |events|
  {
    if n == 0 then 0 else Statements(events, i, n - 1) + if events[n - 1] == Writer(i) then 1 else 0
  }

  ghost function Passes(c: Config, states: seq<State>, events: seq<Event>, i: nat, n: nat): nat
    requires IsRun(c, states, events) && n <= |events| && i < c.writers
  {
    if n == 0 then 0
    else Passes(c, states, events, i, n - 1)
         + if events[n - 1] == Writer(i) && states[n - 1].pcs[i].Unlock? then 1 else 0
  }

  /** The statements of `passes` passes. */
  ghost function Total(half: nat, passes: nat): nat {
    if passes == 0 then 0 else Total(half, passes - 1) + 8 * half
  }

  lemma {:induction false} TotalIsProduct(half: nat, passes: nat)
    ensures Total(half, passes) == 8 * half * passes
  {
    if passes > 0 {
      TotalIsProduct(half, passes - 1);
    }
  }

  /** The books of writer `i` after `n` events. */
  ghost predicate AddsUp(c: Config, s: State, i: nat, statements: nat, passes: nat)
    requires Shape(c, s) && i < c.writers
  {
    statements + Left(c, s, i) == Total(c.half, passes + 1)
  }

  lemma AddsUpNext(c: Config, s: State, s': State, e: Event, i: nat, statements: nat, passes: nat)
    requires Shape(c, s) && Shape(c, s') && i < c.writers
    requires AddsUp(c, s, i, statements, passes) && Advances(c, s, s', e, i)
    ensures e != Writer(i) ==> AddsUp(c, s', i, statements, passes)
    ensures e == Writer(i) && !s.pcs[i].Unlock? ==> AddsUp(c, s', i, statements + 1, passes)
    ensures e == Writer(i) && s.pcs[i].Unlock? ==> AddsUp(c, s', i, statements + 1, passes + 1)
  {
    TotalNext(c.half, passes + 1);
  }

  lemma {:induction false} StatementsAdd(c: Config, states: seq<State>, events: seq<Event>, i: nat, n: nat)
    requires IsRun(c, states, events) && n <= |events| && i < c.writers
    ensures AddsUp(c, states[n], i, Statements(events, i, n), Passes(c, states, events, i, n))
  {
    if n == 0 {
      InitLeft(c, i);
    } else {
      StatementsAdd(c, states, events, i, n - 1);
      RunAdvances(c, states, events, i, n - 1);
      AddsUpNext(c, states[n - 1], states[n], events[n - 1], i,
                 Statements(events, i, n - 1), Passes(c, states, events, i, n - 1));
    }
  }

  lemma TotalNext(half: nat, passes: nat)
    ensures Total(half, passes + 1) == Total(half, passes) + 8 * half
  {
  }

  lemma InitLeft(c: Config, i: nat)
    requires c.Valid() && i < c.writers
    ensures Left(c, Init(c), i) == 8 * c.half == Total(c.half, 1)
  {
  }

  lemma AddsUpMeans(c: Config, s: State, i: nat, statements: nat, passes: nat)
    requires Shape(c, s) && i < c.writers && AddsUp(c, s, i, statements, passes)
    ensures statements + Left(c, s, i) == 8 * c.half * (passes + 1)
  {
    TotalIsProduct(c.half, passes + 1);
  }

  /** Whatever the others do, each pass of a writer over the file takes 8 * half statements. */
  lemma StatementsCounted(c: Config, states: seq<State>, events: seq<Event>, i: nat, n: nat)
    requires IsRun(c, states, events) && n <= |events| && i < c.writers
    ensures Statements(events, i, n) + Left(c, states[n], i) == 8 * c.half * (Passes(c, states, events, i, n) + 1)
  {
    StatementsAdd(c, states, events, i, n);
    AddsUpMeans(c, states[n], i, Statements(events, i, n), Passes(c, states, events, i, n));
  }

  /** Nobody waits for ever: if the lock is held its holder can go on, or the reader can, and then give
      it back. */
  lemma SomebodyCanGoOn(c: Config, states: seq<State>, events: seq<Event>, n: nat)
    requires IsRun(c, states, events) && n < |states|
    ensures var s := states[n];
            if s.writeLock.Some? then s.writeLock.value < c.writers && CanWrite(c, s, s.writeLock.value)
            else CanRead(s)
    ensures forall i: nat :: i < c.writers && !states[n].pcs[i].TakeLock? ==> CanWrite(c, states[n], i)
  {
    RunControlled(c, states, events, n);
    if states[n].writeLock.Some? {
      assert Control(states[n], c, states[n].writeLock.value);
    }
  }

  // ---- a whole pass with private descriptors ----

  /** Writer 0 alone has written the first `j` bytes. */
  ghost predicate OnePass(c: Config, file: seq<Byte>, j: nat) {
    |file| == j && forall p :: 0 <= p < j ==> file[p] == if p == c.half then Bar else Mark(0)
  }

  ghost predicate Alone(c: Config, s: State, pc: Pc, j: nat) {
    && Reachable(c, s) && !c.shared
    && s.pcs[0] == pc && s.js[0] == j && OnePass(c, s.file, j)
    && s.writeLock == (if j > c.half then Some(0) else None)
    && s.readerPc.LockR? && !s.readLock
  }

  lemma WriteNext(c: Config, s: State) returns (s': State)
    requires Reachable(c, s) && !c.shared && s.pcs[0].Seek? && s.js[0] == |s.file| != c.half
    requires OnePass(c, s.file, |s.file|)
    ensures Reachable(c, s') && s'.pcs[0].EndTest? && s'.js[0] == |s.file| + 1
    ensures OnePass(c, s'.file, |s.file| + 1)
    ensures s'.writeLock == s.writeLock && s'.readLock == s.readLock && s'.readerPc == s.readerPc
  {
    s' := ReachableNext(c, s, Writer(0));
    assert s'.pcs[0].Write? && s'.offsets[0] == |s.file|;
    s' := ReachableNext(c, s', Writer(0));
  }

  lemma NextByte(c: Config, s: State, j: nat) returns (s': State)
    requires Alone(c, s, Top, j) && j != c.half && j < c.Len()
    ensures Alone(c, s', EndTest, j + 1)
  {
    s' := ReachableNext(c, s, Writer(0));
    s' := WriteNext(c, s');
  }

  lemma MarkMiddle(c: Config, s: State) returns (s': State)
    requires Alone(c, s, Top, c.half)
    ensures Reachable(c, s') && s'.pcs[0].Seek? && s'.js[0] == c.half + 1 && OnePass(c, s'.file, c.half + 1)
    ensures s'.writeLock == Some(0) && !s'.readLock && s'.readerPc.LockR?
  {
    s' := ReachableNext(c, s, Writer(0));
    s' := ReachableNext(c, s', Writer(0));
    s' := ReachableNext(c, s', Writer(0));
    assert s'.pcs[0].WriteBar? && s'.offsets[0] == c.half;
    s' := ReachableNext(c, s', Writer(0));
  }

  lemma {:induction false} UpTo(c: Config, j: nat) returns (s: State)
    requires c.Valid() && !c.shared && 1 <= j <= c.Len() && j != c.half + 1
    ensures Alone(c, s, EndTest, j)
  {
    if j == 1 {
      ReachableStart(c);
      s := NextByte(c, Init(c), 0);
    } else if j == c.half + 2 {
      s := UpTo(c, c.half);
      s := ReachableNext(c, s, Writer(0));
      s := MarkMiddle(c, s);
      s := WriteNext(c, s);
    } else {
      s := UpTo(c, j - 1);
      s := ReachableNext(c, s, Writer(0));
      s := NextByte(c, s, j - 1);
    }
  }

  /** With private descriptors the reader can see a whole pass: one writer's characters in both halves, and
      the mark between them. */
  lemma WholePassSeen(c: Config) returns (s: State)
    requires c.Valid() && !c.shared
    ensures Reachable(c, s) && s.readLock && s.readerPc.UnlockR?
    ensures |s.seen| == 2 * c.half && s.seen[c.half] == Bar
    ensures forall p :: 0 <= p < |s.seen| && p != c.half ==> s.seen[p] == Mark(0)
  {
    s := UpTo(c, c.Len());
    s := ReachableNext(c, s, Writer(0));
    s := ReachableNext(c, s, Writer(0));
    assert OnePass(c, s.file, c.Len()) && s.writeLock.None?;
    s := ReachableNext(c, s, Reader);
    s := ReachableNext(c, s, Reader);
    assert s.readerOffset == 0;
    s := ReachableNext(c, s, Reader);
    assert s.seen == s.file;
  }

  /** The program itself, with private descriptors or a shared one: what the reader has seen is the whole
      file as it was at its last read; with private descriptors the file is in order whenever the
      reader holds its lock, and so is what it has seen. */
  method Program(c: Config, events: seq<Event>, ghost states: seq<State>) returns (p: Processes)
    requires IsRun(c, states, events)
    ensures fresh(p) && p.c == c && p.View() == states[|events|]
    ensures forall i :: 0 <= i < |events| && IsRead(states[i], events[i])
                        && (forall k :: i < k < |events| ==> !IsRead(states[k], events[k])) ==>
              p.seen == Snapshot(c, states[i].file)
    ensures Private(c) ==> UpperOk(c, p.seen) && (p.readLock ==> UpperOk(c, p.file))
  {
    p := new Processes(c);
    p.Replay(events, states);
    forall i | 0 <= i < |events| && IsRead(states[i], events[i])
               && (forall k :: i < k < |events| ==> !IsRead(states[k], events[k]))
      ensures p.seen == Snapshot(c, states[i].file)
    {
      SeenStays(c, states, events, i, |events|);
    }
    if Private(c) {
      assert Reachable(c, p.View());
      PrivateDescriptorsWork(c, p.View());
    }
  }
}
