/** Writers and one reader of a shared file, with a lock on the second half of the file.

    Each system call is one step.  `shared` says whether the writers inherited one open file, and so
    one file offset, or opened the file each. */
module FileLocking {
  import opened Prelude

  /** A byte of the file: NUL, the mark of the middle, or the character of a writer. */
  datatype Byte = Nul | Bar | Mark(writer: nat)

  /** The file has 2 * half bytes when it is full. */
  datatype Config = Config(writers: nat, half: nat, shared: bool) {
    predicate Valid() { writers >= 1 && half >= 2 }

    function Len(): nat { 2 * half }

    /** Which offset the descriptor of writer `i` uses. */
    function Slot(i: nat): nat { if shared then 0 else i }
  }

  datatype Pc =
    | Top        // j == FILE_LEN / 2 ?
    | TakeLock   // lock the second half
    | SeekBar    // seek to the middle, ++j
    | WriteBar   // write '|'
    | Seek       // seek to j, ++j
    | Write      // write the writer's character
    | EndTest    // j == FILE_LEN ?
    | Unlock     // release the lock

  datatype ReaderPc = LockR | SeekR | ReadR | UnlockR

  datatype State = State(
    file: seq<Byte>, offsets: seq<nat>, js: seq<nat>, pcs: seq<Pc>, writeLock: Option<nat>,
    readLock: bool, readerPc: ReaderPc, readerOffset: nat, seen: seq<Byte>)

  datatype Event = Writer(i: nat) | Reader

  ghost predicate Shape(c: Config, s: State) {
    c.Valid() && |s.offsets| == |s.js| == |s.pcs| == c.writers
  }

  /** With private descriptors the parent's seek and write fail on descriptor -1 and the file is
      empty.  With a shared one the seek fails on its swapped arguments and one NUL byte is written. */
  ghost function Init(c: Config): State {
    State(if c.shared then [Nul] else [], seq(c.writers, i => if c.shared then 1 else 0),
          seq(c.writers, i => 0), seq(c.writers, i => Top), None, false, LockR, 0, [])
  }

  /** write(2) of one byte; a gap after the end of the file fills with zeros. */
  function WriteAt(file: seq<Byte>, offset: nat, b: Byte): (r: seq<Byte>)
    ensures |r| == if offset < |file| then |file| else offset + 1
    ensures r[offset] == b
    ensures forall p :: 0 <= p < |file| && p != offset ==> r[p] == file[p]
    ensures forall p :: |file| <= p < offset ==> r[p] == Nul
  {
    if offset < |file| then file[offset := b]
    else file + seq(offset - |file|, i => Nul) + [b]
  }

  predicate CanWrite(c: Config, s: State, i: nat)
    requires i < |s.pcs|
  {
    s.pcs[i].TakeLock? ==> s.writeLock.None? && !s.readLock
  }

  ghost function SeekTo(c: Config, s: State, i: nat, pc: Pc): State
    requires Shape(c, s) && i < c.writers
  {
    s.(offsets := s.offsets[c.Slot(i) := s.js[i]], js := s.js[i := s.js[i] + 1], pcs := s.pcs[i := pc])
  }

  ghost function Put(c: Config, s: State, i: nat, b: Byte, pc: Pc): State
    requires Shape(c, s) && i < c.writers
  {
    var o := s.offsets[c.Slot(i)];
    s.(file := WriteAt(s.file, o, b), offsets := s.offsets[c.Slot(i) := o + 1], pcs := s.pcs[i := pc])
  }

  /** One statement of writer `i`. */
  ghost function WriterStep(c: Config, s: State, i: nat): State
    requires Shape(c, s) && i < c.writers && CanWrite(c, s, i)
  {
    match s.pcs[i]
    case Top => s.(pcs := s.pcs[i := if s.js[i] == c.half then TakeLock else Seek])
    case TakeLock => s.(pcs := s.pcs[i := SeekBar], writeLock := Some(i))
    case SeekBar => SeekTo(c, s, i, WriteBar)
    case WriteBar => Put(c, s, i, Bar, Seek)
    case Seek => SeekTo(c, s, i, Write)
    case Write => Put(c, s, i, Mark(i), EndTest)
    case EndTest =>
      if s.js[i] == c.Len() then s.(pcs := s.pcs[i := Unlock], js := s.js[i := 0])
      else s.(pcs := s.pcs[i := Top])
    case Unlock =>
      s.(pcs := s.pcs[i := Top], writeLock := if s.writeLock == Some(i) then None else s.writeLock)
  }

  function Min(a: nat, b: nat): nat { if a <= b then a else b }

  predicate CanRead(s: State) {
    s.readerPc.LockR? ==> s.writeLock.None?
  }

  /** One system call of the reader. */
  ghost function ReaderStep(c: Config, s: State): State
    requires CanRead(s)
  {
    match s.readerPc
    case LockR => s.(readerPc := SeekR, readLock := true)
    case SeekR => s.(readerPc := ReadR, readerOffset := 0)
    case ReadR =>
      var first := Min(s.readerOffset, |s.file|);
      var last := Min(s.readerOffset + c.Len(), |s.file|);
      s.(readerPc := UnlockR, seen := s.file[first..last], readerOffset := s.readerOffset + (last - first))
    case UnlockR => s.(readerPc := LockR, readLock := false)
  }

  ghost predicate Possible(c: Config, s: State, e: Event)
    requires Shape(c, s)
  {
    match e
    case Writer(i) => i < c.writers && CanWrite(c, s, i)
    case Reader => CanRead(s)
  }

  ghost function Apply(c: Config, s: State, e: Event): (r: State)
    requires Shape(c, s) && Possible(c, s, e)
    ensures Shape(c, r)
  {
    match e
    case Writer(i) => WriterStep(c, s, i)
    case Reader => ReaderStep(c, s)
  }

  /** `states` are the successive states of a run from the start, `events` what happened between them. */
  ghost predicate IsRun(c: Config, states: seq<State>, events: seq<Event>) {
    && c.Valid()
    && |states| == |events| + 1
    && states[0] == Init(c)
    && (forall i :: 0 <= i < |states| ==> Shape(c, states[i]))
    && forall i :: 0 <= i < |events| ==>
         Possible(c, states[i], events[i]) && states[i + 1] == Apply(c, states[i], events[i])
  }

  ghost predicate Reachable(c: Config, s: State) {
    Shape(c, s) && exists states, events :: IsRun(c, states, events) && states[|events|] == s
  }

  lemma RunOn(c: Config, states: seq<State>, events: seq<Event>, e: Event)
    requires IsRun(c, states, events) && Possible(c, states[|events|], e)
    ensures IsRun(c, states + [Apply(c, states[|events|], e)], events + [e])
  {
  }

  lemma ReachableNext(c: Config, s: State, e: Event) returns (s': State)
    requires Reachable(c, s) && Possible(c, s, e)
    ensures s' == Apply(c, s, e) && Reachable(c, s')
  {
    var states, events :| IsRun(c, states, events) && states[|events|] == s;
    s' := Apply(c, s, e);
    RunOn(c, states, events, e);
    var states', events' := states + [s'], events + [e];
    assert IsRun(c, states', events') && states'[|events'|] == s';
  }

  lemma ReachableStart(c: Config)
    requires c.Valid()
    ensures Reachable(c, Init(c))
  {
    var states, events := [Init(c)], [];
    assert IsRun(c, states, events) && states[|events|] == Init(c);
  }

  /** The file, the descriptors, the locks and the writers' variables, updated in place. */
  class Processes {
    const c: Config
    var file: seq<Byte>
    var offsets: seq<nat>
    var js: seq<nat>
    var pcs: seq<Pc>
    var writeLock: Option<nat>
    var readLock: bool
    var readerPc: ReaderPc
    var readerOffset: nat
    var seen: seq<Byte>

    ghost function View(): State
      reads this
    {
      State(file, offsets, js, pcs, writeLock, readLock, readerPc, readerOffset, seen)
    }

    constructor (c: Config)
      requires c.Valid()
      ensures this.c == c && View() == Init(c)
    {
      this.c := c;
      file := if c.shared then [Nul] else [];
      offsets := seq(c.writers, i => if c.shared then 1 else 0);
      js, pcs := seq(c.writers, i => 0), seq(c.writers, i => Top);
      writeLock, readLock, readerPc, readerOffset, seen := None, false, LockR, 0, [];
    }

    /** lseek(fd, j++, SEEK_SET) */
    method Lseek(i: nat, pc: Pc)
      requires Shape(c, View()) && i < c.writers
      modifies this
      ensures View() == SeekTo(c, old(View()), i, pc)
    {
      offsets := offsets[c.Slot(i) := js[i]];
      js := js[i := js[i] + 1];
      pcs := pcs[i := pc];
    }

    /** write(fd, &b, 1) */
    method WriteByte(i: nat, b: Byte, pc: Pc)
      requires Shape(c, View()) && i < c.writers
      modifies this
      ensures View() == Put(c, old(View()), i, b, pc)
    {
      var o := offsets[c.Slot(i)];
      file := WriteAt(file, o, b);
      offsets := offsets[c.Slot(i) := o + 1];
      pcs := pcs[i := pc];
    }

    /** The statement at which writer `i` stands. */
    method Execute(i: nat)
      requires Shape(c, View()) && i < c.writers && CanWrite(c, View(), i)
      modifies this
      ensures View() == WriterStep(c, old(View()), i)
    {
      match pcs[i] {
        case Top =>
          pcs := pcs[i := if js[i] == c.half then TakeLock else Seek];
        case TakeLock =>
          writeLock := Some(i);
          pcs := pcs[i := SeekBar];
        case SeekBar =>
          Lseek(i, WriteBar);
        case WriteBar =>
          WriteByte(i, Bar, Seek);
        case Seek =>
          Lseek(i, Write);
        case Write =>
          WriteByte(i, Mark(i), EndTest);
        case EndTest =>
          if js[i] == c.Len() {
            js := js[i := 0];
            pcs := pcs[i := Unlock];
          } else {
            pcs := pcs[i := Top];
          }
        case Unlock =>
          if writeLock == Some(i) {
            writeLock := None;
          }
          pcs := pcs[i := Top];
      }
    }

    /** The system call at which the reader stands. */
    method Dump()
      requires Shape(c, View()) && CanRead(View())
      modifies this
      ensures View() == ReaderStep(c, old(View()))
    {
      match readerPc {
        case LockR =>
          readLock := true;
          readerPc := SeekR;
        case SeekR =>
          readerOffset := 0;
          readerPc := ReadR;
        case ReadR =>
          var first, last := Min(readerOffset, |file|), Min(readerOffset + c.Len(), |file|);
          seen := file[first..last];
          readerOffset := readerOffset + (last - first);
          readerPc := UnlockR;
        case UnlockR =>
          readLock := false;
          readerPc := LockR;
      }
    }

    method Perform(e: Event)
      requires Shape(c, View()) && Possible(c, View(), e)
      modifies this
      ensures View() == Apply(c, old(View()), e)
    {
      match e {
        case Writer(i) => Execute(i);
        case Reader => Dump();
      }
    }

    /** A whole run on the file, the descriptors and the processes' variables. */
    method Replay(events: seq<Event>, ghost states: seq<State>)
      requires IsRun(c, states, events) && View() == Init(c)
      modifies this
      ensures View() == states[|events|]
    {
      for i := 0 to |events|
        invariant View() == states[i]
      {
        Perform(events[i]);
      }
    }
  }
}
