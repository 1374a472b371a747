/** When the lock on the second half of the file does what it is for. */
module FileLockingTheorems {
  import opened Prelude
  import opened FileLocking

  /** The second half is not there yet, or it is the mark followed by copies of one writer's
      character up to the end. */
  ghost predicate UpperOk(c: Config, file: seq<Byte>) {
    || |file| <= c.half
    || (|file| == c.Len() && file[c.half] == Bar
        && exists w: nat :: w < c.writers && OneWriter(c, file, w))
  }

  ghost predicate OneWriter(c: Config, file: seq<Byte>, w: nat) {
    forall p :: c.half < p < |file| ==> file[p] == Mark(w)
  }

  /** No two writers share an offset. */
  predicate Private(c: Config) { !c.shared || c.writers == 1 }

  /** How many bytes, from the start, writer `i` has written in its present pass over the file. */
  ghost function Written(c: Config, s: State, i: nat): int
    requires Shape(c, s) && i < c.writers
  {
    match s.pcs[i]
    case WriteBar => s.js[i] - 1
    case Write => s.js[i] - 1
    case Unlock => c.Len()
    case _ => s.js[i]
  }

  /** The statements a writer executes with the lock held. */
  ghost predicate Holding(c: Config, s: State, i: nat)
    requires Shape(c, s) && i < c.writers
  {
    || s.pcs[i] in {SeekBar, WriteBar, Unlock}
    || (s.pcs[i] in {Top, Seek} && s.js[i] > c.half)
    || (s.pcs[i] in {Write, EndTest} && s.js[i] > c.half + 1)
  }

  ghost predicate WriterInv(s: State, c: Config, i: nat)
    requires Shape(c, s) && i < c.writers
  {
    var pc, j, o := s.pcs[i], s.js[i], s.offsets[c.Slot(i)];
    && (Holding(c, s, i) <==> s.writeLock == Some(i))
    && 0 <= Written(c, s, i) <= c.Len()
    && (pc.Top? ==> j < c.Len())
    && (pc in {TakeLock, SeekBar} ==> j == c.half)
    && (pc.WriteBar? ==> j == c.half + 1 && o == c.half)
    && (pc.Seek? ==> j != c.half && j < c.Len())
    && (pc.Write? ==> j != c.half + 1 && 1 <= j <= c.Len() && o == j - 1)
    && (pc.EndTest? ==> j != c.half + 1 && 1 <= j <= c.Len())
    && (pc.Unlock? ==> j == 0)
    && Written(c, s, i) <= |s.file|
  }

  /** What the writer that holds the lock has put into the second half so far. */
  ghost predicate HolderFile(c: Config, s: State, w: nat)
    requires Shape(c, s) && w < c.writers
  {
    var done := Written(c, s, w);
    && done >= c.half
    && (|s.file| == c.Len() || |s.file| == done)
    && (done > c.half ==> |s.file| > c.half && s.file[c.half] == Bar)
    && forall p :: c.half < p < done && p < |s.file| ==> s.file[p] == Mark(w)
  }

  ghost predicate FileInv(c: Config, s: State)
    requires Shape(c, s)
  {
    && |s.file| <= c.Len()
    && if s.writeLock.None? then UpperOk(c, s.file)
       else s.writeLock.value < c.writers && HolderFile(c, s, s.writeLock.value)
  }

  ghost predicate ReaderInv(c: Config, s: State) {
    && (s.readLock <==> !s.readerPc.LockR?)
    && (s.readLock ==> s.writeLock.None?)
    && (s.readerPc.ReadR? ==> s.readerOffset == 0)
    && UpperOk(c, s.seen)
  }

  ghost predicate Inv(c: Config, s: State) {
    && Shape(c, s)
    && (forall i: nat :: i < c.writers ==> WriterInv(s, c, i))
    && FileInv(c, s)
    && ReaderInv(c, s)
  }

  lemma InitInv(c: Config)
    requires c.Valid()
    ensures Inv(c, Init(c))
  {
  }

  /** A step of writer `i` with private offsets: what it may touch. */
  lemma OthersUnchanged(c: Config, s: State, i: nat, u: nat)
    requires Shape(c, s) && Private(c) && i < c.writers && u < c.writers && u != i && CanWrite(c, s, i)
    ensures var s' := WriterStep(c, s, i);
            && s'.pcs[u] == s.pcs[u] && s'.js[u] == s.js[u]
            && s'.offsets[c.Slot(u)] == s.offsets[c.Slot(u)]
            && |s'.file| >= |s.file|
  {
  }

  lemma OtherKept(c: Config, s: State, i: nat, u: nat)
    requires Inv(c, s) && Private(c) && i < c.writers && u < c.writers && u != i && CanWrite(c, s, i)
    ensures WriterInv(WriterStep(c, s, i), c, u)
  {
    assert WriterInv(s, c, i) && WriterInv(s, c, u);
    OthersUnchanged(c, s, i, u);
  }

  lemma SelfKept(c: Config, s: State, i: nat)
    requires Inv(c, s) && i < c.writers && CanWrite(c, s, i)
    ensures WriterInv(WriterStep(c, s, i), c, i)
  {
    assert WriterInv(s, c, i);
    if s.pcs[i] in {WriteBar, Write} {
      WriteKept(c, s, i);
    } else {
      MoveKept(c, s, i);
    }
  }

  lemma WriteKept(c: Config, s: State, i: nat)
    requires Shape(c, s) && i < c.writers && s.pcs[i] in {WriteBar, Write} && WriterInv(s, c, i)
    ensures WriterInv(WriterStep(c, s, i), c, i)
  {
  }

  lemma MoveKept(c: Config, s: State, i: nat)
    requires Shape(c, s) && i < c.writers && CanWrite(c, s, i) && !(s.pcs[i] in {WriteBar, Write})
    requires WriterInv(s, c, i)
    ensures WriterInv(WriterStep(c, s, i), c, i)
  {
  }

  lemma WritersKept(c: Config, s: State, i: nat)
    requires Inv(c, s) && Private(c) && i < c.writers && CanWrite(c, s, i)
    ensures var s' := WriterStep(c, s, i); forall u: nat :: u < c.writers ==> WriterInv(s', c, u)
  {
    SelfKept(c, s, i);
    var s' := WriterStep(c, s, i);
    forall u: nat | u < c.writers && u != i ensures WriterInv(s', c, u) {
      OtherKept(c, s, i, u);
    }
  }

  /** A byte goes to the second half exactly when its writer holds the lock. */
  lemma WritesWhereAllowed(c: Config, s: State, i: nat)
    requires Inv(c, s) && i < c.writers && s.pcs[i] in {WriteBar, Write}
    ensures s.offsets[c.Slot(i)] <= |s.file|
    ensures s.offsets[c.Slot(i)] >= c.half <==> s.writeLock == Some(i)
    ensures s.offsets[c.Slot(i)] < c.Len()
  {
    assert WriterInv(s, c, i);
  }

  /** Writes to the first half leave the second half as it is. */
  lemma LowerWrite(c: Config, file: seq<Byte>, o: nat, b: Byte)
    requires o < c.half && o <= |file| && UpperOk(c, file)
    ensures UpperOk(c, WriteAt(file, o, b))
  {
    var file' := WriteAt(file, o, b);
    if |file| > c.half {
      var w: nat :| w < c.writers && OneWriter(c, file, w);
      assert OneWriter(c, file', w);
    }
  }

  lemma FileKeptFree(c: Config, s: State, i: nat)
    requires Inv(c, s) && Private(c) && i < c.writers && CanWrite(c, s, i)
    requires s.writeLock.None?
    ensures FileInv(c, WriterStep(c, s, i))
  {
    assert WriterInv(s, c, i);
    if s.pcs[i].Write? {
      WritesWhereAllowed(c, s, i);
      LowerWrite(c, s.file, s.offsets[c.Slot(i)], Mark(i));
    }
  }

  lemma FileKeptHolder(c: Config, s: State, i: nat)
    requires Inv(c, s) && Private(c) && i < c.writers && CanWrite(c, s, i)
    requires s.writeLock == Some(i)
    ensures FileInv(c, WriterStep(c, s, i))
  {
    var s' := WriterStep(c, s, i);
    assert WriterInv(s, c, i);
    if s.pcs[i].Unlock? {
      assert OneWriter(c, s.file, i);
    }
  }

  lemma FileKeptOther(c: Config, s: State, i: nat, w: nat)
    requires Inv(c, s) && Private(c) && i < c.writers && CanWrite(c, s, i)
    requires s.writeLock == Some(w) && w != i
    ensures FileInv(c, WriterStep(c, s, i))
  {
    var s' := WriterStep(c, s, i);
    assert WriterInv(s, c, i);
    if s.pcs[i] in {WriteBar, Write} {
      WritesWhereAllowed(c, s, i);
    }
    OthersUnchanged(c, s, i, w);
  }

  lemma ApplyInv(c: Config, s: State, e: Event)
    requires Inv(c, s) && Private(c) && Possible(c, s, e)
    ensures Inv(c, Apply(c, s, e))
  {
    match e {
      case Writer(i) =>
        WritersKept(c, s, i);
        if s.writeLock.None? {
          FileKeptFree(c, s, i);
        } else if s.writeLock == Some(i) {
          FileKeptHolder(c, s, i);
        } else {
          FileKeptOther(c, s, i, s.writeLock.value);
        }
      case Reader =>
        ReaderKeeps(c, s);
    }
  }

  lemma ReaderSees(c: Config, s: State)
    requires ReaderInv(c, s) && CanRead(s) && |s.file| <= c.Len()
    requires s.readerPc.ReadR? ==> UpperOk(c, s.file)
    ensures ReaderInv(c, ReaderStep(c, s))
  {
    assert s.readerPc.ReadR? ==> ReaderStep(c, s).seen == s.file;
  }

  lemma ReaderKeeps(c: Config, s: State)
    requires Inv(c, s) && CanRead(s)
    ensures Inv(c, ReaderStep(c, s))
  {
    var s' := ReaderStep(c, s);
    ReaderSees(c, s);
    forall u: nat | u < c.writers ensures WriterInv(s', c, u) {
      assert WriterInv(s, c, u);
    }
  }

  lemma {:induction false} RunInv(c: Config, states: seq<State>, events: seq<Event>, i: nat)
    requires IsRun(c, states, events) && i < |states| && Private(c)
    ensures Inv(c, states[i])
  {
    if i == 0 {
      InitInv(c);
    } else {
      RunInv(c, states, events, i - 1);
      ApplyInv(c, states[i - 1], events[i - 1]);
    }
  }

  lemma ReachableInv(c: Config, s: State)
    requires Reachable(c, s) && Private(c)
    ensures Inv(c, s)
  {
    var states, events :| IsRun(c, states, events) && states[|events|] == s;
    RunInv(c, states, events, |events|);
  }

  /** With private descriptors the reader, while it holds its lock, finds the second half as one
      writer left it, and so does everything it has read. */
  lemma PrivateDescriptorsWork(c: Config, s: State)
    requires Reachable(c, s) && Private(c)
    ensures s.readLock ==> UpperOk(c, s.file)
    ensures UpperOk(c, s.seen)
  {
    ReachableInv(c, s);
  }

  /** With private descriptors the lock holder writes only to the second half, the other writers only
      to the first, and nobody past the end. */
  lemma LockHolderWritesUpperHalf(c: Config, s: State, i: nat)
    requires Reachable(c, s) && Private(c) && i < c.writers && s.pcs[i] in {WriteBar, Write}
    ensures s.offsets[c.Slot(i)] >= c.half <==> s.writeLock == Some(i)
    ensures s.offsets[c.Slot(i)] < c.Len()
    ensures s.writeLock == Some(i) ==> !s.readLock
  {
    ReachableInv(c, s);
    WritesWhereAllowed(c, s, i);
  }

  // ---- one offset for all writers ----

  /** Writer 1 has sought to the start and not written yet; writer 0 alone is in the first half. */
  ghost predicate Stage(c: Config, s: State, j: nat) {
    && Reachable(c, s)
    && c.shared && c.writers >= 2
    && s.pcs[0].Top? && s.js[0] == j
    && s.pcs[1].Write?
    && s.writeLock.None? && !s.readLock && s.readerPc.LockR?
    && |s.file| == if j == 0 then 1 else j
  }

  /** Writer 0 seeks to its position and writes there, undisturbed. */
  lemma SeekAndWrite(c: Config, s: State) returns (s': State)
    requires Reachable(c, s) && c.shared && s.pcs[0].Seek?
    ensures Reachable(c, s')
    ensures s'.pcs == s.pcs[0 := EndTest] && s'.js == s.js[0 := s.js[0] + 1]
    ensures s'.file == WriteAt(s.file, s.js[0], Mark(0))
    ensures s'.writeLock == s.writeLock && s'.readLock == s.readLock && s'.readerPc == s.readerPc
  {
    s' := ReachableNext(c, s, Writer(0));
    assert s'.pcs == s.pcs[0 := Write] && s'.offsets[0] == s.js[0];
    s' := ReachableNext(c, s', Writer(0));
  }

  lemma FirstHalfRound(c: Config, s: State, j: nat) returns (s': State)
    requires Stage(c, s, j) && j < c.half
    ensures Stage(c, s', j + 1)
  {
    s' := ReachableNext(c, s, Writer(0));
    s' := SeekAndWrite(c, s');
    s' := ReachableNext(c, s', Writer(0));
  }

  lemma {:induction false} FirstHalf(c: Config, j: nat) returns (s: State)
    requires c.Valid() && c.shared && c.writers >= 2 && j <= c.half
    ensures Stage(c, s, j)
  {
    if j == 0 {
      s := Init(c);
      ReachableStart(c);
      s := ReachableNext(c, s, Writer(1));
      s := ReachableNext(c, s, Writer(1));
    } else {
      s := FirstHalf(c, j - 1);
      s := FirstHalfRound(c, s, j - 1);
    }
  }

  /** Writer 0 holds the lock, and the second half has characters of writers 1 and 0. */
  ghost predicate Mixed(c: Config, s: State) {
    && Reachable(c, s)
    && |s.file| >= c.half + 2
    && s.file[c.half] == Mark(1) && s.file[c.half + 1] == Mark(0)
    && s.readerPc.LockR?
  }

  /** Writer 0 takes the lock and seeks to the middle; writer 1 writes there. */
  lemma Intrusion(c: Config) returns (s: State)
    requires c.Valid() && c.shared && c.writers >= 2
    ensures Reachable(c, s) && s.pcs[0].WriteBar? && s.js[0] == c.half + 1 && s.writeLock == Some(0)
    ensures s.readerPc.LockR? && |s.file| == c.half + 1 && s.file[c.half] == Mark(1) && s.offsets[0] == c.half + 1
  {
    s := FirstHalf(c, c.half);
    s := ReachableNext(c, s, Writer(0));
    s := ReachableNext(c, s, Writer(0));
    s := ReachableNext(c, s, Writer(0));
    assert s.offsets[0] == c.half == |s.file|;
    s := ReachableNext(c, s, Writer(1));
  }

  lemma SecondHalfStart(c: Config) returns (s: State)
    requires c.Valid() && c.shared && c.writers >= 2
    ensures Mixed(c, s) && s.pcs[0].EndTest? && s.js[0] == c.half + 2 && s.writeLock == Some(0)
  {
    s := Intrusion(c);
    s := ReachableNext(c, s, Writer(0));
    s := SeekAndWrite(c, s);
  }

  lemma SecondHalfRound(c: Config, s: State) returns (s': State)
    requires Mixed(c, s) && c.shared && s.writeLock == Some(0)
    requires s.pcs[0].EndTest? && c.half + 2 <= s.js[0] < c.Len()
    ensures Mixed(c, s') && s'.pcs[0].EndTest? && s'.js[0] == s.js[0] + 1 && s'.writeLock == Some(0)
  {
    s' := ReachableNext(c, s, Writer(0));
    s' := ReachableNext(c, s', Writer(0));
    s' := SeekAndWrite(c, s');
  }

  lemma {:induction false} SecondHalf(c: Config, j: nat) returns (s: State)
    requires c.Valid() && c.shared && c.writers >= 2 && c.half + 2 <= j <= c.Len()
    ensures Mixed(c, s) && s.pcs[0].EndTest? && s.js[0] == j && s.writeLock == Some(0)
  {
    if j == c.half + 2 {
      s := SecondHalfStart(c);
    } else {
      s := SecondHalf(c, j - 1);
      s := SecondHalfRound(c, s);
    }
  }

  /** With a shared descriptor and at least two writers the reader can hold its lock while the second
      half of the file has characters of two writers. */
  lemma SharedDescriptorFails(c: Config) returns (s: State)
    requires c.Valid() && c.shared && c.writers >= 2
    ensures Reachable(c, s) && s.readLock && c.half + 1 < |s.file|
    ensures s.file[c.half] == Mark(1) && s.file[c.half + 1] == Mark(0)
  {
    s := SecondHalf(c, c.Len());
    s := ReachableNext(c, s, Writer(0));
    s := ReachableNext(c, s, Writer(0));
    s := ReachableNext(c, s, Reader);
  }

  /** The lock works if and only if no two writers share an offset. */
  lemma LockWorksIffPrivate(c: Config)
    requires c.Valid()
    ensures (forall s :: Reachable(c, s) && s.readLock ==> UpperOk(c, s.file)) <==> (!c.shared || c.writers == 1)
  {
    if Private(c) {
      forall s | Reachable(c, s) && s.readLock ensures UpperOk(c, s.file) {
        PrivateDescriptorsWork(c, s);
      }
    } else {
      var s := SharedDescriptorFails(c);
      assert !UpperOk(c, s.file);
    }
  }
}
