/** The wait loop of the asynchronous connects: what one iteration does, any number of iterations, and
    when every socket gets a verdict. */
module ConnectsWaiting {
  import opened Prelude
  import opened Connects

  const TIMEOUT: nat := 10

  datatype Verdict = Connected | Failed | TimedOut

  /** What getsockopt() says decides: 0 means connected. */
  function Outcome(optval: int -> int, fd: int): Verdict {
    if optval(fd) == 0 then Connected else Failed
  }

  /** The sockets that select reports before its first timeout, when `ready(k)` are the writable ones at
      the k-th call. */
  ghost function Resolved(pending: set<int>, ready: nat -> set<int>, k: nat): (r: set<int>)
    ensures r <= pending
    decreases |pending|
  {
    var now := ready(k) * pending;
    if now == {} then {}
    else
      assert |pending - now| < |pending| by { assert pending == (pending - now) + now; }
      now + Resolved(pending - now, ready, k + 1)
  }

  /** What becomes of a socket: its connect ends at once, or select reports it before the first timeout,
      or it is given up. */
  function Fate(a: Address, resolved: set<int>, optval: int -> int): Verdict
    requires a.Socket?
  {
    match a.result
    case ConnectedAtOnce => Connected
    case RefusedAtOnce => Failed
    case InProgress => if a.fd as int in resolved then Outcome(optval, a.fd) else TimedOut
  }

  /** The verdicts known when the connects of `done` have been started. */
  ghost predicate KnownAtOnce(verdicts: map<int, Verdict>, done: seq<Address>) {
    && verdicts.Keys == Fds(done) - Pending(done)
    && forall a :: a in done && a.Socket? && !a.result.InProgress? && a.fd as int in verdicts ==>
         verdicts[a.fd as int] == if a.result.ConnectedAtOnce? then Connected else Failed
  }

  lemma KnownGrows(verdicts: map<int, Verdict>, done: seq<Address>, fd: nat, result: Result)
    requires KnownAtOnce(verdicts, done) && Distinct(done + [Socket(fd, result)])
    ensures fd as int !in verdicts
    ensures var all := done + [Socket(fd, result)];
            match result
            case InProgress => KnownAtOnce(verdicts, all)
            case ConnectedAtOnce => KnownAtOnce(verdicts[fd as int := Connected], all)
            case RefusedAtOnce => KnownAtOnce(verdicts[fd as int := Failed], all)
  {
    Snoc(done, Socket(fd, result));
    assert forall a :: a in done && a.Socket? ==> a.fd as int in Fds(done);
    assert fd as int !in Pending(done);
  }

  /** The bookkeeping after the addresses `done`. */
  ghost predicate Begun(n: nat, numSockets: nat, wrfds: set<int>, verdicts: map<int, Verdict>, done: seq<Address>) {
    && wrfds == Pending(done)
    && KnownAtOnce(verdicts, done)
    && numSockets == |Fds(done)|
    && n + |wrfds| == numSockets
  }

  lemma BegunGrows(n: nat, numSockets: nat, wrfds: set<int>, verdicts: map<int, Verdict>, done: seq<Address>,
                   fd: nat, result: Result)
    requires Begun(n, numSockets, wrfds, verdicts, done) && Distinct(done + [Socket(fd, result)])
    ensures fd as int !in verdicts
    ensures var all := done + [Socket(fd, result)];
            match result
            case InProgress => Begun(n, numSockets + 1, wrfds + {fd as int}, verdicts, all)
            case ConnectedAtOnce => Begun(n + 1, numSockets + 1, wrfds, verdicts[fd as int := Connected], all)
            case RefusedAtOnce => Begun(n + 1, numSockets + 1, wrfds, verdicts[fd as int := Failed], all)
  {
    Snoc(done, Socket(fd, result));
    KnownGrows(verdicts, done, fd, result);
    assert wrfds <= Fds(done);
  }

  // ---- one pass over the slots ----

  /** What the wait loop updates: the count of finished connects, the sockets still waited for, and what
      has been printed. */
  datatype Books = Books(n: nat, orig: set<int>, verdicts: map<int, Verdict>)

  /** The sockets waited for have no verdict yet. */
  ghost predicate Open(b: Books) {
    (forall fd :: fd in b.orig ==> fd >= 0) && b.orig !! b.verdicts.Keys
  }

  /** They make up `total` with the finished ones, which have a verdict each. */
  ghost predicate Counted(b: Books, total: nat) {
    b.n == |b.verdicts| && b.n + |b.orig| == total
  }

  /** The slots that are looked at hold every socket waited for, and none twice. */
  ghost predicate Watches(slots: seq<int>, b: Books) {
    NoRepeat(slots) && b.orig <= Elements(slots) && Open(b)
  }

  ghost function TestSlot(b: Books, sel: set<int>, fd: int, optval: int -> int): Books {
    if fd in sel then Books(b.n + 1, b.orig - {fd}, b.verdicts[fd := Outcome(optval, fd)]) else b
  }

  ghost function TestSlots(b: Books, sel: set<int>, slots: seq<int>, optval: int -> int): Books
    decreases |slots|
  {
    if slots == [] then b
    else
      var last := |slots| - 1;
      TestSlot(TestSlots(b, sel, slots[..last], optval), sel, slots[last], optval)
  }

  lemma TestSlotsNext(b: Books, sel: set<int>, slots: seq<int>, fd: int, optval: int -> int)
    ensures TestSlots(b, sel, slots + [fd], optval) == TestSlot(TestSlots(b, sel, slots, optval), sel, fd, optval)
  {
    assert (slots + [fd])[..|slots|] == slots;
  }

  /** `after` differs from `before` in that the sockets `resolved` have got their verdicts. */
  ghost predicate Settled(before: Books, after: Books, resolved: set<int>, optval: int -> int) {
    && resolved <= before.orig
    && after.orig == before.orig - resolved
    && after.n == before.n + |resolved|
    && after.verdicts == Decided(before.verdicts, resolved, optval)
  }

  /** `known`, and the outcome of each socket in `resolved`. */
  ghost function Decided(known: map<int, Verdict>, resolved: set<int>, optval: int -> int): map<int, Verdict> {
    map fd | fd in known.Keys + resolved :: if fd in resolved then Outcome(optval, fd) else known[fd]
  }

  lemma DecidedTwice(known: map<int, Verdict>, r1: set<int>, r2: set<int>, optval: int -> int)
    ensures Decided(Decided(known, r1, optval), r2, optval) == Decided(known, r1 + r2, optval)
  {
  }

  lemma DecidedOne(known: map<int, Verdict>, r: set<int>, fd: int, optval: int -> int)
    ensures Decided(known, r, optval)[fd := Outcome(optval, fd)] == Decided(known, r + {fd}, optval)
  {
  }

  lemma SettledSlot(b: Books, now: Books, sel: set<int>, handled: set<int>, fd: int, optval: int -> int)
    requires Settled(b, now, handled, optval)
    requires fd in sel ==> fd in b.orig && fd !in handled
    ensures Settled(b, TestSlot(now, sel, fd, optval), if fd in sel then handled + {fd} else handled, optval)
  {
    DecidedOne(b.verdicts, handled, fd, optval);
  }

  lemma HandledNext(sel: set<int>, before: seq<int>, fd: int)
    requires NoRepeat(before + [fd]) && (fd in sel ==> fd >= 0)
    ensures NoRepeat(before)
    ensures sel * Elements(before + [fd]) == if fd in sel then sel * Elements(before) + {fd} else sel * Elements(before)
    ensures fd in sel ==> fd !in Elements(before)
  {
    NoRepeatPrefix(before, before + [fd]);
    var all := before + [fd];
    assert forall i :: 0 <= i < |before| ==> all[i] == before[i];
    assert all[|before|] == fd;
  }

  lemma SettleNext(b: Books, sel: set<int>, before: seq<int>, fd: int, optval: int -> int)
    requires NoRepeat(before + [fd]) && sel <= b.orig && (forall fd :: fd in b.orig ==> fd >= 0)
    requires Settled(b, TestSlots(b, sel, before, optval), sel * Elements(before), optval)
    ensures Settled(b, TestSlots(b, sel, before + [fd], optval), sel * Elements(before + [fd]), optval)
  {
    HandledNext(sel, before, fd);
    TestSlotsNext(b, sel, before, fd, optval);
    SettledSlot(b, TestSlots(b, sel, before, optval), sel, sel * Elements(before), fd, optval);
  }

  lemma {:induction false} TestSlotsSettle(b: Books, sel: set<int>, slots: seq<int>, optval: int -> int)
    requires NoRepeat(slots) && sel <= b.orig && (forall fd :: fd in b.orig ==> fd >= 0)
    ensures Settled(b, TestSlots(b, sel, slots, optval), sel * Elements(slots), optval)
    decreases |slots|
  {
    if slots == [] {
      assert sel * Elements(slots) == {};
      assert Decided(b.verdicts, {}, optval) == b.verdicts;
    } else {
      var before, fd := slots[..|slots| - 1], slots[|slots| - 1];
      assert slots == before + [fd];
      NoRepeatPrefix(before, slots);
      TestSlotsSettle(b, sel, before, optval);
      SettleNext(b, sel, before, fd, optval);
    }
  }

  lemma SettledTwice(a: Books, b: Books, c: Books, r1: set<int>, r2: set<int>, optval: int -> int)
    requires Settled(a, b, r1, optval) && Settled(b, c, r2, optval)
    ensures Settled(a, c, r1 + r2, optval)
  {
    assert r1 !! r2;
    assert |r1 + r2| == |r1| + |r2|;
    DecidedTwice(a.verdicts, r1, r2, optval);
  }

  lemma SettledOpen(b: Books, c: Books, r: set<int>, optval: int -> int)
    requires Settled(b, c, r, optval) && Open(b)
    ensures Open(c)
  {
    assert c.verdicts.Keys == b.verdicts.Keys + r;
  }

  lemma SettledCounted(b: Books, c: Books, r: set<int>, total: nat, optval: int -> int)
    requires Settled(b, c, r, optval) && Open(b) && Counted(b, total)
    ensures Counted(c, total)
  {
    MovedSize(b.orig, b.verdicts.Keys, r);
    assert c.verdicts.Keys == b.verdicts.Keys + r;
    assert |c.verdicts| == |c.verdicts.Keys| && |b.verdicts| == |b.verdicts.Keys|;
  }

  lemma MovedSize(from: set<int>, to: set<int>, r: set<int>)
    requires from !! to && r <= from
    ensures |from - r| == |from| - |r| && |to + r| == |to| + |r|
  {
    assert from == (from - r) + r;
  }

  /** One pass over the slots after select has reported `sel`: the reported sockets that it sees get
      their verdicts. */
  lemma PassKeepsOpen(b: Books, sel: set<int>, slots: seq<int>, optval: int -> int)
    requires NoRepeat(slots) && Open(b) && sel <= b.orig
    ensures Settled(b, TestSlots(b, sel, slots, optval), sel * Elements(slots), optval)
    ensures Open(TestSlots(b, sel, slots, optval))
  {
    TestSlotsSettle(b, sel, slots, optval);
    SettledOpen(b, TestSlots(b, sel, slots, optval), sel * Elements(slots), optval);
  }

  /** When it sees every socket waited for, all reported ones get their verdicts. */
  lemma PassSettles(now: Books, sel: set<int>, slots: seq<int>, optval: int -> int)
    requires Watches(slots, now) && sel <= now.orig
    ensures var next := TestSlots(now, sel, slots, optval);
            Settled(now, next, sel, optval) && Watches(slots, next)
  {
    PassKeepsOpen(now, sel, slots, optval);
    assert sel * Elements(slots) == sel;
  }

  /** No pass gives a verdict to a socket that it does not see. */
  lemma {:induction false} UnseenNotJudged(b: Books, sel: set<int>, slots: seq<int>, optval: int -> int)
    ensures TestSlots(b, sel, slots, optval).verdicts.Keys <= b.verdicts.Keys + Elements(slots)
    decreases |slots|
  {
    if slots != [] {
      UnseenNotJudged(b, sel, slots[..|slots| - 1], optval);
    }
  }

  // ---- the loop, iteration by iteration ----

  /** `watched` is the set that select is given. */
  datatype Loop = Loop(books: Books, watched: set<int>, timeouts: nat)

  /** One iteration, with `answer` the sockets that are writable now.  A timeout clears the set. */
  ghost function Iterate(l: Loop, slots: seq<int>, answer: set<int>, optval: int -> int): Loop {
    if answer * l.watched == {} then l.(watched := {}, timeouts := l.timeouts + 1)
    else
      var books := TestSlots(l.books, answer * l.watched, slots, optval);
      Loop(books, books.orig, l.timeouts)
  }

  predicate Stopped(l: Loop, total: nat) {
    l.books.n == total || l.timeouts == TIMEOUT
  }

  /** After at most `k` iterations, when `ready(i)` are the sockets that are writable at the i-th call. */
  ghost function After(l: Loop, slots: seq<int>, total: nat, ready: nat -> set<int>, optval: int -> int, k: nat): Loop {
    if k == 0 then l
    else Next(After(l, slots, total, ready, optval, k - 1), slots, total, ready(k - 1), optval)
  }

  ghost predicate LoopInv(l: Loop, slots: seq<int>) {
    && NoRepeat(slots) && Open(l.books)
    && l.timeouts <= TIMEOUT
    && l.watched == if l.timeouts == 0 then l.books.orig else {}
  }

  ghost predicate SeesAll(l: Loop, slots: seq<int>) {
    l.books.orig <= Elements(slots)
  }

  function Left(l: Loop, total: nat): int {
    (total - l.books.n) + (TIMEOUT - l.timeouts)
  }

  lemma IterateKeeps(l: Loop, slots: seq<int>, answer: set<int>, optval: int -> int)
    requires LoopInv(l, slots) && l.timeouts < TIMEOUT
    ensures var next := Iterate(l, slots, answer, optval);
            && LoopInv(next, slots)
            && next.books.orig <= l.books.orig
            && next.books.verdicts.Keys + next.books.orig == l.books.verdicts.Keys + l.books.orig
  {
    var sel := answer * l.watched;
    if sel != {} {
      PassKeepsOpen(l.books, sel, slots, optval);
      SettledKeys(l.books, TestSlots(l.books, sel, slots, optval), sel * Elements(slots), optval);
    }
  }

  lemma IterateCounted(l: Loop, slots: seq<int>, total: nat, answer: set<int>, optval: int -> int)
    requires LoopInv(l, slots) && Counted(l.books, total)
    ensures Counted(Iterate(l, slots, answer, optval).books, total)
  {
    var sel := answer * l.watched;
    if sel != {} {
      PassKeepsOpen(l.books, sel, slots, optval);
      SettledCounted(l.books, TestSlots(l.books, sel, slots, optval), sel * Elements(slots), total, optval);
    }
  }

  /** With every socket seen, an iteration counts a timeout or finishes a connect. */
  lemma IterateProgresses(l: Loop, slots: seq<int>, total: nat, answer: set<int>, optval: int -> int)
    requires LoopInv(l, slots) && SeesAll(l, slots)
    ensures var next := Iterate(l, slots, answer, optval);
            && Left(next, total) < Left(l, total)
            && SeesAll(next, slots)
            && (answer * l.watched != {} ==> Settled(l.books, next.books, answer * l.books.orig, optval))
  {
    if answer * l.watched != {} {
      PassSettles(l.books, answer * l.watched, slots, optval);
    }
  }

  /** What every iteration keeps. */
  ghost predicate Kept(l: Loop, now: Loop, slots: seq<int>) {
    && LoopInv(now, slots)
    && now.books.orig <= l.books.orig
    && now.books.verdicts.Keys + now.books.orig == l.books.verdicts.Keys + l.books.orig
  }

  /** One more iteration, unless the loop has stopped. */
  ghost function Next(l: Loop, slots: seq<int>, total: nat, answer: set<int>, optval: int -> int): Loop {
    if Stopped(l, total) then l else Iterate(l, slots, answer, optval)
  }

  lemma NextKeeps(l: Loop, now: Loop, slots: seq<int>, total: nat, answer: set<int>, optval: int -> int)
    requires Kept(l, now, slots)
    ensures Kept(l, Next(now, slots, total, answer, optval), slots)
  {
    if !Stopped(now, total) {
      IterateKeeps(now, slots, answer, optval);
    }
  }

  lemma {:induction false} AfterKeeps(l: Loop, slots: seq<int>, total: nat, ready: nat -> set<int>,
                                      optval: int -> int, k: nat)
    requires LoopInv(l, slots)
    ensures Kept(l, After(l, slots, total, ready, optval, k), slots)
  {
    if k == 0 {
      assert Kept(l, l, slots);
    } else {
      AfterKeeps(l, slots, total, ready, optval, k - 1);
      NextKeeps(l, After(l, slots, total, ready, optval, k - 1), slots, total, ready(k - 1), optval);
    }
  }

  lemma NextCounted(now: Loop, slots: seq<int>, total: nat, answer: set<int>, optval: int -> int)
    requires LoopInv(now, slots) && Counted(now.books, total)
    ensures Counted(Next(now, slots, total, answer, optval).books, total)
  {
    if !Stopped(now, total) {
      IterateCounted(now, slots, total, answer, optval);
    }
  }

  /** The finished connects and the sockets waited for make up `total` at every head of the loop. */
  lemma {:induction false} AfterCounted(l: Loop, slots: seq<int>, total: nat, ready: nat -> set<int>,
                                        optval: int -> int, k: nat)
    requires LoopInv(l, slots) && Counted(l.books, total)
    ensures Counted(After(l, slots, total, ready, optval, k).books, total)
  {
    if k > 0 {
      AfterCounted(l, slots, total, ready, optval, k - 1);
      AfterKeeps(l, slots, total, ready, optval, k - 1);
      NextCounted(After(l, slots, total, ready, optval, k - 1), slots, total, ready(k - 1), optval);
    }
  }

  lemma {:induction false} AfterStopped(l: Loop, slots: seq<int>, total: nat, ready: nat -> set<int>,
                                        optval: int -> int, k: nat, more: nat)
    requires k <= more && Stopped(After(l, slots, total, ready, optval, k), total)
    ensures After(l, slots, total, ready, optval, more) == After(l, slots, total, ready, optval, k)
    decreases more
  {
    if k < more {
      AfterStopped(l, slots, total, ready, optval, k, more - 1);
    }
  }

  /** The loop has stopped, or at least `k` of what was left at its start is done. */
  ghost predicate Done(l: Loop, now: Loop, slots: seq<int>, total: nat, k: nat) {
    && LoopInv(now, slots) && SeesAll(now, slots)
    && (Stopped(now, total) || Left(now, total) + k <= Left(l, total))
  }

  lemma NextProgresses(l: Loop, now: Loop, slots: seq<int>, total: nat, answer: set<int>, optval: int -> int, k: nat)
    requires Done(l, now, slots, total, k)
    ensures Done(l, Next(now, slots, total, answer, optval), slots, total, k + 1)
  {
    if !Stopped(now, total) {
      IterateKeeps(now, slots, answer, optval);
      IterateProgresses(now, slots, total, answer, optval);
    }
  }

  lemma {:induction false} AfterProgresses(l: Loop, slots: seq<int>, total: nat, ready: nat -> set<int>,
                                           optval: int -> int, k: nat)
    requires LoopInv(l, slots) && SeesAll(l, slots)
    ensures Done(l, After(l, slots, total, ready, optval, k), slots, total, k)
  {
    if k > 0 {
      AfterProgresses(l, slots, total, ready, optval, k - 1);
      NextProgresses(l, After(l, slots, total, ready, optval, k - 1), slots, total, ready(k - 1), optval, k - 1);
    }
  }

  /** What has been said when the loop is left in this state: a timeout for each socket seen that is
      still waited for. */
  ghost function Said(l: Loop, slots: seq<int>): map<int, Verdict> {
    GivenUp(l.books.verdicts, l.books.orig * Elements(slots))
  }

  /** A socket that is not seen gets no verdict in any number of iterations, nor at the end. */
  lemma {:induction false} UnseenNeverJudged(l: Loop, slots: seq<int>, total: nat, ready: nat -> set<int>,
                                             optval: int -> int, k: nat, fd: int)
    requires fd !in l.books.verdicts && fd !in Elements(slots)
    ensures fd !in After(l, slots, total, ready, optval, k).books.verdicts
    ensures fd !in Said(After(l, slots, total, ready, optval, k), slots)
  {
    if k > 0 {
      UnseenNeverJudged(l, slots, total, ready, optval, k - 1, fd);
      var before := After(l, slots, total, ready, optval, k - 1);
      UnseenNotJudged(before.books, ready(k - 1) * before.watched, slots, optval);
    }
  }

  /** The loop ends, and then exactly the sockets `all` have a verdict. */
  ghost predicate AllJudged(l: Loop, slots: seq<int>, total: nat, ready: nat -> set<int>, optval: int -> int,
                            all: set<int>) {
    exists k: nat :: JudgedBy(After(l, slots, total, ready, optval, k), slots, total, all)
  }

  ghost predicate JudgedBy(l: Loop, slots: seq<int>, total: nat, all: set<int>) {
    Stopped(l, total) && Said(l, slots).Keys == all
  }

  lemma AllJudgedIfSeen(l: Loop, slots: seq<int>, total: nat, ready: nat -> set<int>, optval: int -> int)
    requires LoopInv(l, slots) && SeesAll(l, slots) && Counted(l.books, total)
    ensures AllJudged(l, slots, total, ready, optval, l.books.verdicts.Keys + l.books.orig)
  {
    var k := LoopStops(l, slots, total, ready, optval);
    AfterKeeps(l, slots, total, ready, optval, k);
    var now := After(l, slots, total, ready, optval, k);
    SaidKeys(now, slots);
    assert JudgedBy(now, slots, total, l.books.verdicts.Keys + l.books.orig);
  }

  lemma AllJudgedOnlyIfSeen(l: Loop, slots: seq<int>, total: nat, ready: nat -> set<int>, optval: int -> int, fd: int)
    requires LoopInv(l, slots) && fd in l.books.orig && fd !in Elements(slots)
    ensures !AllJudged(l, slots, total, ready, optval, l.books.verdicts.Keys + l.books.orig)
  {
    forall k: nat
      ensures !JudgedBy(After(l, slots, total, ready, optval, k), slots, total, l.books.verdicts.Keys + l.books.orig)
    {
      UnseenNeverJudged(l, slots, total, ready, optval, k, fd);
    }
  }

  /** Still waiting for `fd`, and no timeout so far. */
  ghost predicate Waits(now: Loop, slots: seq<int>, total: nat, fd: int) {
    && LoopInv(now, slots) && Counted(now.books, total) && now.timeouts == 0
    && fd in now.books.orig && fd !in Elements(slots)
    && !Stopped(now, total)
  }

  lemma StillOpen(now: Loop, slots: seq<int>, total: nat, fd: int)
    requires LoopInv(now, slots) && Counted(now.books, total) && now.timeouts == 0
    requires fd in now.books.orig && fd !in Elements(slots)
    ensures Waits(now, slots, total, fd)
  {
    assert |now.books.orig| > 0;
  }

  lemma NextWaits(now: Loop, slots: seq<int>, total: nat, answer: set<int>, optval: int -> int, fd: int)
    requires Waits(now, slots, total, fd) && fd in answer
    ensures Waits(Next(now, slots, total, answer, optval), slots, total, fd)
  {
    assert fd in answer * now.watched;
    PassKeepsOpen(now.books, answer * now.watched, slots, optval);
    IterateCounted(now, slots, total, answer, optval);
    IterateKeeps(now, slots, answer, optval);
    StillOpen(Next(now, slots, total, answer, optval), slots, total, fd);
  }

  /** If a socket that is not seen stays writable, as a connected one does, the loop never ends. */
  lemma {:induction false} NeverStops(l: Loop, slots: seq<int>, total: nat, ready: nat -> set<int>,
                                      optval: int -> int, fd: int, k: nat)
    requires Waits(l, slots, total, fd) && forall i :: fd in ready(i)
    ensures Waits(After(l, slots, total, ready, optval, k), slots, total, fd)
  {
    if k > 0 {
      NeverStops(l, slots, total, ready, optval, fd, k - 1);
      NextWaits(After(l, slots, total, ready, optval, k - 1), slots, total, ready(k - 1), optval, fd);
    }
  }

  /** Before the k-th call of select on `watched`: the sockets no longer waited for have their verdicts,
      and what is still to be resolved depends on `watched` alone. */
  ghost predicate SoFar(start: Books, now: Books, watched: set<int>, ready: nat -> set<int>, k: nat,
                        optval: int -> int) {
    && Settled(start, now, start.orig - now.orig, optval)
    && Resolved(start.orig, ready, 0) == (start.orig - now.orig) + Resolved(watched, ready, k)
  }

  lemma SoFarStart(start: Books, ready: nat -> set<int>, optval: int -> int)
    ensures SoFar(start, start, start.orig, ready, 0, optval)
  {
    assert Decided(start.verdicts, {}, optval) == start.verdicts;
    assert start.orig - start.orig == {};
  }

  /** A timeout clears the set that select is given from then on: nothing more gets resolved. */
  lemma SoFarTimeout(start: Books, now: Books, watched: set<int>, ready: nat -> set<int>, k: nat,
                     optval: int -> int)
    requires SoFar(start, now, watched, ready, k, optval) && ready(k) * watched == {}
    ensures SoFar(start, now, {}, ready, k + 1, optval)
  {
    assert Resolved(watched, ready, k) == {} == Resolved({}, ready, k + 1);
  }

  lemma SoFarReported(start: Books, now: Books, next: Books, ready: nat -> set<int>, k: nat, optval: int -> int)
    requires SoFar(start, now, now.orig, ready, k, optval)
    requires ready(k) * now.orig != {} && Settled(now, next, ready(k) * now.orig, optval)
    ensures SoFar(start, next, next.orig, ready, k + 1, optval)
  {
    var sel := ready(k) * now.orig;
    SettledTwice(start, now, next, start.orig - now.orig, sel, optval);
    NoLongerWaitedFor(start.orig, now.orig, sel);
    ResolvedMoves(start.orig, now.orig, ready, k);
  }

  lemma ResolvedMoves(start: set<int>, now: set<int>, ready: nat -> set<int>, k: nat)
    requires now <= start && ready(k) * now != {}
    requires Resolved(start, ready, 0) == (start - now) + Resolved(now, ready, k)
    ensures var next := now - ready(k) * now;
            Resolved(start, ready, 0) == (start - next) + Resolved(next, ready, k + 1)
  {
    NoLongerWaitedFor(start, now, ready(k) * now);
    ResolvedNext(now, ready, k);
  }

  lemma NoLongerWaitedFor(start: set<int>, now: set<int>, sel: set<int>)
    requires sel <= now <= start
    ensures start - (now - sel) == (start - now) + sel
  {
  }

  lemma ResolvedNext(pending: set<int>, ready: nat -> set<int>, k: nat)
    requires ready(k) * pending != {}
    ensures Resolved(pending, ready, k) == ready(k) * pending + Resolved(pending - ready(k) * pending, ready, k + 1)
  {
  }

  /** The same for a loop that sees every socket waited for. */
  ghost predicate LoopSoFar(start: Books, l: Loop, slots: seq<int>, ready: nat -> set<int>, k: nat,
                            optval: int -> int) {
    && LoopInv(l, slots) && SeesAll(l, slots)
    && SoFar(start, l.books, l.watched, ready, k, optval)
  }

  lemma NextSoFar(start: Books, now: Loop, slots: seq<int>, total: nat, ready: nat -> set<int>, k: nat,
                  optval: int -> int)
    requires LoopSoFar(start, now, slots, ready, k, optval) && Counted(now.books, total)
    ensures LoopSoFar(start, Next(now, slots, total, ready(k), optval), slots, ready, k + 1, optval)
  {
    if Stopped(now, total) {
      assert ready(k) * now.watched == {};
      SoFarTimeout(start, now.books, now.watched, ready, k, optval);
    } else {
      IterateKeeps(now, slots, ready(k), optval);
      IterateProgresses(now, slots, total, ready(k), optval);
      if ready(k) * now.watched == {} {
        SoFarTimeout(start, now.books, now.watched, ready, k, optval);
      } else {
        SoFarReported(start, now.books, Iterate(now, slots, ready(k), optval).books, ready, k, optval);
      }
    }
  }

  lemma {:induction false} AfterSoFar(l: Loop, slots: seq<int>, total: nat, ready: nat -> set<int>,
                                      optval: int -> int, k: nat)
    requires LoopInv(l, slots) && SeesAll(l, slots) && Counted(l.books, total) && l.timeouts == 0
    ensures LoopSoFar(l.books, After(l, slots, total, ready, optval, k), slots, ready, k, optval)
  {
    if k == 0 {
      SoFarStart(l.books, ready, optval);
    } else {
      AfterSoFar(l, slots, total, ready, optval, k - 1);
      AfterCounted(l, slots, total, ready, optval, k - 1);
      NextSoFar(l.books, After(l, slots, total, ready, optval, k - 1), slots, total, ready, k - 1, optval);
    }
  }

  lemma SoFarStopped(start: Books, now: Loop, slots: seq<int>, total: nat, ready: nat -> set<int>, k: nat,
                     optval: int -> int)
    requires LoopSoFar(start, now, slots, ready, k, optval) && Stopped(now, total) && Counted(now.books, total)
    ensures Settled(start, now.books, Resolved(start.orig, ready, 0), optval)
  {
    assert Resolved({}, ready, k) == {};
    assert now.watched == {};
  }

  /** `known`, and a timeout for each socket in `late`. */
  ghost function GivenUp(known: map<int, Verdict>, late: set<int>): map<int, Verdict> {
    map fd | fd in known.Keys + late :: if fd in late then TimedOut else known[fd]
  }

  lemma GivenUpNone(known: map<int, Verdict>, late: set<int>)
    requires late == {}
    ensures GivenUp(known, late) == known
  {
  }

  lemma GivenUpOne(known: map<int, Verdict>, late: set<int>, fd: int)
    ensures GivenUp(known, late)[fd := TimedOut] == GivenUp(known, late + {fd})
  {
  }

  lemma StartedOpen(done: seq<Address>, b: Books, total: nat)
    requires b.orig == Pending(done) && KnownAtOnce(b.verdicts, done) && total == |Fds(done)|
    requires b.n + |b.orig| == total
    ensures Open(b) && Counted(b, total) && b.orig <= Fds(done)
  {
    assert Fds(done) == b.verdicts.Keys + b.orig;
    assert |Fds(done)| == |b.verdicts.Keys| + |b.orig|;
  }

  lemma SettledKeys(before: Books, after: Books, resolved: set<int>, optval: int -> int)
    requires Settled(before, after, resolved, optval)
    ensures after.verdicts.Keys + after.orig == before.verdicts.Keys + before.orig
  {
  }

  lemma GivenUpCounts(b: Books, total: nat)
    requires Open(b) && Counted(b, total)
    ensures GivenUp(b.verdicts, b.orig).Keys == b.verdicts.Keys + b.orig
    ensures |GivenUp(b.verdicts, b.orig)| == total
  {
    assert GivenUp(b.verdicts, b.orig).Keys == b.verdicts.Keys + b.orig;
    assert |b.verdicts.Keys + b.orig| == |b.verdicts.Keys| + |b.orig|;
  }

  /** What has been said of a socket: connected or failed if connect() said so; else, if select reported it
      before the first timeout, connected if getsockopt() gave 0 and failed if it gave an error; else
      timed out. */
  ghost predicate Truthful(a: Address, v: Verdict, resolved: set<int>, optval: int -> int)
    requires a.Socket?
  {
    && (a.result.ConnectedAtOnce? ==> v == Connected)
    && (a.result.RefusedAtOnce? ==> v == Failed)
    && (a.result.InProgress? && a.fd as int in resolved && optval(a.fd) == 0 ==> v == Connected)
    && (a.result.InProgress? && a.fd as int in resolved && optval(a.fd) != 0 ==> v == Failed)
    && (a.result.InProgress? && a.fd as int !in resolved ==> v == TimedOut)
  }

  /** Of every socket of `done` the truth has been said, and of nothing else anything. */
  ghost predicate AllFated(done: seq<Address>, verdicts: map<int, Verdict>, resolved: set<int>, optval: int -> int) {
    && verdicts.Keys == Fds(done)
    && forall a :: a in done && a.Socket? && a.fd as int in verdicts ==>
         Truthful(a, verdicts[a.fd as int], resolved, optval)
  }

  /** The fate of each socket. */
  ghost function Fates(done: seq<Address>, resolved: set<int>, optval: int -> int): map<int, Verdict>
    decreases |done|
  {
    if done == [] then map[]
    else
      var last := |done| - 1;
      var before := Fates(done[..last], resolved, optval);
      if done[last].Socket? then before[done[last].fd as int := Fate(done[last], resolved, optval)] else before
  }

  lemma FatesSnoc(done: seq<Address>, verdicts: map<int, Verdict>, a: Address, resolved: set<int>, optval: int -> int)
    requires AllFated(done, verdicts, resolved, optval) && Distinct(done + [a])
    ensures AllFated(done + [a], if a.Socket? then verdicts[a.fd as int := Fate(a, resolved, optval)] else verdicts,
                     resolved, optval)
  {
    Snoc(done, a);
    assert forall b :: b in done && b.Socket? ==> b.fd as int in Fds(done);
  }

  lemma {:induction false} FatesMean(done: seq<Address>, resolved: set<int>, optval: int -> int)
    requires Distinct(done)
    ensures AllFated(done, Fates(done, resolved, optval), resolved, optval)
    decreases |done|
  {
    if done != [] {
      var last := |done| - 1;
      assert done == done[..last] + [done[last]];
      DistinctPrefix(done[..last], done);
      FatesMean(done[..last], resolved, optval);
      FatesSnoc(done[..last], Fates(done[..last], resolved, optval), done[last], resolved, optval);
    }
  }

  /** No other verdicts do. */
  lemma FatesUnique(done: seq<Address>, verdicts: map<int, Verdict>, resolved: set<int>, optval: int -> int)
    requires AllFated(done, verdicts, resolved, optval) && Distinct(done)
    ensures verdicts == Fates(done, resolved, optval)
  {
    FatesMean(done, resolved, optval);
    var fates := Fates(done, resolved, optval);
    forall fd | fd in verdicts ensures verdicts[fd] == fates[fd] {
      var a :| a in done && a.Socket? && a.fd as int == fd;
    }
  }

  lemma FatesKeys(done: seq<Address>, start: Books, now: Books, resolved: set<int>, optval: int -> int)
    requires start.orig == Pending(done) && start.verdicts.Keys == Fds(done) - Pending(done)
    requires Settled(start, now, resolved, optval)
    ensures GivenUp(now.verdicts, now.orig).Keys == Fds(done)
  {
    SettledKeys(start, now, resolved, optval);
    PendingWithin(done);
    GivenUpKeys(now.verdicts, now.orig);
  }

  lemma PendingWithin(done: seq<Address>)
    ensures Fds(done) - Pending(done) + Pending(done) == Fds(done)
  {
    assert Pending(done) <= Fds(done);
  }

  lemma GivenUpKeys(known: map<int, Verdict>, late: set<int>)
    ensures GivenUp(known, late).Keys == known.Keys + late
  {
  }

  /** Put together: who had a verdict at the start, who got one from select, and who timed out. */
  lemma FatesDecided(done: seq<Address>, start: Books, now: Books, resolved: set<int>, optval: int -> int)
    requires start.orig == Pending(done) && KnownAtOnce(start.verdicts, done)
    requires Settled(start, now, resolved, optval)
    requires Distinct(done)
    ensures AllFated(done, GivenUp(now.verdicts, now.orig), resolved, optval)
  {
    var verdicts := GivenUp(now.verdicts, now.orig);
    FatesKeys(done, start, now, resolved, optval);
    forall a | a in done && a.Socket?
      ensures a.fd as int in verdicts && verdicts[a.fd as int] == Fate(a, resolved, optval)
    {
      FateDecided(done, start, now, verdicts, resolved, optval, a);
    }
  }

  lemma SaidFates(l: Loop, slots: seq<int>, done: seq<Address>, start: Books, resolved: set<int>, optval: int -> int)
    requires SeesAll(l, slots) && Distinct(done)
    requires start.orig == Pending(done) && KnownAtOnce(start.verdicts, done)
    requires Settled(start, l.books, resolved, optval)
    ensures AllFated(done, Said(l, slots), resolved, optval)
  {
    assert l.books.orig * Elements(slots) == l.books.orig;
    FatesDecided(done, start, l.books, resolved, optval);
  }

  lemma FateDecided(done: seq<Address>, start: Books, now: Books, verdicts: map<int, Verdict>,
                    resolved: set<int>, optval: int -> int, a: Address)
    requires start.orig == Pending(done) && KnownAtOnce(start.verdicts, done)
    requires Settled(start, now, resolved, optval) && verdicts == GivenUp(now.verdicts, now.orig)
    requires Distinct(done) && a in done && a.Socket?
    ensures a.fd as int in verdicts && verdicts[a.fd as int] == Fate(a, resolved, optval)
  {
    var fd := a.fd as int;
    assert fd in Fds(done);
    if a.result.InProgress? {
      assert fd in Pending(done);
    } else if fd in Pending(done) {
      var b :| b in done && b.Socket? && b.result.InProgress? && b.fd as int == fd;
      SameFd(done, a, b);
    }
  }

  lemma SameFd(done: seq<Address>, a: Address, b: Address)
    requires Distinct(done) && a in done && b in done && a.Socket? && b.Socket? && a.fd == b.fd
    ensures a == b
  {
    var i, j :| 0 <= i < |done| && 0 <= j < |done| && done[i] == a && done[j] == b;
  }

  // ---- when every socket gets a verdict ----

  /** Main at the head of the loop, when all connects have been started. */
  ghost function LoopStart(n: nat, verdicts: map<int, Verdict>, done: seq<Address>): Loop {
    Loop(Books(n, Pending(done), verdicts), Pending(done), 0)
  }

  lemma LoopStarts(sockets: seq<seq<int>>, numsock: seq<nat>, hosts: seq<seq<Address>>,
                   n: nat, total: nat, verdicts: map<int, Verdict>)
    requires Filled(sockets, numsock, hosts) && Distinct(Flatten(hosts))
    requires Begun(n, total, Pending(Flatten(hosts)), verdicts, Flatten(hosts))
    ensures LoopInv(LoopStart(n, verdicts, Flatten(hosts)), Visible(sockets, numsock))
    ensures Counted(LoopStart(n, verdicts, Flatten(hosts)).books, total)
    ensures SeesAll(LoopStart(n, verdicts, Flatten(hosts)), Visible(sockets, numsock)) <==> PendingSeen(hosts)
    ensures verdicts.Keys + Pending(Flatten(hosts)) == Fds(Flatten(hosts))
  {
    var done := Flatten(hosts);
    VisibleNoRepeat(sockets, numsock, hosts);
    StartedOpen(done, Books(n, Pending(done), verdicts), total);
    PendingSeenIff(sockets, numsock, hosts);
    PendingWithin(done);
  }

  /** Whatever select and getsockopt answer, the program ends with a verdict for every socket if and only
      if no address whose connect is still going on is missed. */
  lemma EverySocketJudgedIff(sockets: seq<seq<int>>, numsock: seq<nat>, hosts: seq<seq<Address>>,
                             n: nat, total: nat, verdicts: map<int, Verdict>,
                             ready: nat -> set<int>, optval: int -> int)
    requires Filled(sockets, numsock, hosts) && Distinct(Flatten(hosts))
    requires Begun(n, total, Pending(Flatten(hosts)), verdicts, Flatten(hosts))
    ensures AllJudged(LoopStart(n, verdicts, Flatten(hosts)), Visible(sockets, numsock), total, ready, optval,
                      Fds(Flatten(hosts)))
            <==> PendingSeen(hosts)
  {
    var start, slots := LoopStart(n, verdicts, Flatten(hosts)), Visible(sockets, numsock);
    LoopStarts(sockets, numsock, hosts, n, total, verdicts);
    if PendingSeen(hosts) {
      AllJudgedIfSeen(start, slots, total, ready, optval);
    } else {
      var g: nat, i: nat :| g < |hosts| && i < |hosts[g]| && Missed(hosts[g], i);
      MissedUnseen(sockets, numsock, hosts, g, i);
      AllJudgedOnlyIfSeen(start, slots, total, ready, optval, hosts[g][i].fd);
    }
  }

  /** A missed socket that stays writable keeps the program in the loop for ever. */
  lemma MissedSocketLoopsForever(sockets: seq<seq<int>>, numsock: seq<nat>, hosts: seq<seq<Address>>,
                                 n: nat, total: nat, verdicts: map<int, Verdict>,
                                 ready: nat -> set<int>, optval: int -> int, g: nat, i: nat, k: nat)
    requires Filled(sockets, numsock, hosts) && Distinct(Flatten(hosts))
    requires Begun(n, total, Pending(Flatten(hosts)), verdicts, Flatten(hosts))
    requires g < |hosts| && i < |hosts[g]| && Missed(hosts[g], i)
    requires forall j :: hosts[g][i].fd as int in ready(j)
    ensures !Stopped(After(LoopStart(n, verdicts, Flatten(hosts)), Visible(sockets, numsock), total,
                           ready, optval, k), total)
  {
    LoopStarts(sockets, numsock, hosts, n, total, verdicts);
    MissedUnseen(sockets, numsock, hosts, g, i);
    var start, slots := LoopStart(n, verdicts, Flatten(hosts)), Visible(sockets, numsock);
    StillOpen(start, slots, total, hosts[g][i].fd);
    NeverStops(start, slots, total, ready, optval, hosts[g][i].fd, k);
  }

  /** No address that is missed has a verdict. */
  ghost predicate NoneForMissed(hosts: seq<seq<Address>>, verdicts: map<int, Verdict>) {
    forall g: nat, i: nat :: g < |hosts| && i < |hosts[g]| && Missed(hosts[g], i) ==>
      hosts[g][i].fd as int !in verdicts
  }

  /** After any number of iterations no missed address has a verdict, nor has it one if the loop is left
      then; without missed addresses everybody has. */
  lemma AfterStart(sockets: seq<seq<int>>, numsock: seq<nat>, hosts: seq<seq<Address>>,
                   n: nat, total: nat, verdicts: map<int, Verdict>,
                   ready: nat -> set<int>, optval: int -> int, k: nat)
    requires Filled(sockets, numsock, hosts) && Distinct(Flatten(hosts))
    requires Begun(n, total, Pending(Flatten(hosts)), verdicts, Flatten(hosts))
    ensures var slots := Visible(sockets, numsock);
            var now := After(LoopStart(n, verdicts, Flatten(hosts)), slots, total, ready, optval, k);
            && LoopInv(now, slots)
            && NoneForMissed(hosts, now.books.verdicts) && NoneForMissed(hosts, Said(now, slots))
            && (PendingSeen(hosts) ==> Said(now, slots).Keys == Fds(Flatten(hosts)))
  {
    var start, slots := LoopStart(n, verdicts, Flatten(hosts)), Visible(sockets, numsock);
    LoopStarts(sockets, numsock, hosts, n, total, verdicts);
    AfterKeeps(start, slots, total, ready, optval, k);
    forall g: nat, i: nat | g < |hosts| && i < |hosts[g]| && Missed(hosts[g], i)
      ensures hosts[g][i].fd as int !in After(start, slots, total, ready, optval, k).books.verdicts
      ensures hosts[g][i].fd as int !in Said(After(start, slots, total, ready, optval, k), slots)
    {
      MissedUnseen(sockets, numsock, hosts, g, i);
      UnseenNeverJudged(start, slots, total, ready, optval, k, hosts[g][i].fd);
    }
    if PendingSeen(hosts) {
      SaidKeys(After(start, slots, total, ready, optval, k), slots);
    }
  }

  // ---- which sockets select reports before its first timeout ----

  /** `g` is ready at the j-th call and was not at any call from the m-th on. */
  ghost predicate FirstReady(pending: set<int>, ready: nat -> set<int>, m: nat, j: nat, g: int) {
    g in pending && g in ready(j) && forall i: nat :: m <= i < j ==> g !in ready(i)
  }

  /** At the j-th call there is such a socket. */
  ghost predicate NewReady(pending: set<int>, ready: nat -> set<int>, m: nat, j: nat) {
    exists g :: FirstReady(pending, ready, m, j, g)
  }

  /** `fd` is ready at the k-th call, and no call from the m-th to that one finds nothing new. */
  ghost predicate ReportedAt(pending: set<int>, ready: nat -> set<int>, m: nat, fd: int, k: nat) {
    m <= k && fd in ready(k) && forall j: nat :: m <= j <= k ==> NewReady(pending, ready, m, j)
  }

  ghost predicate Reported(pending: set<int>, ready: nat -> set<int>, m: nat, fd: int) {
    fd in pending && exists k: nat :: ReportedAt(pending, ready, m, fd, k)
  }

  lemma NewReadyNext(pending: set<int>, ready: nat -> set<int>, m: nat, j: nat)
    requires m < j
    ensures NewReady(pending, ready, m, j) <==> NewReady(pending - ready(m) * pending, ready, m + 1, j)
  {
    var rest := pending - ready(m) * pending;
    if NewReady(pending, ready, m, j) {
      var g :| FirstReady(pending, ready, m, j, g);
      assert FirstReady(rest, ready, m + 1, j, g);
    }
    if NewReady(rest, ready, m + 1, j) {
      var g :| FirstReady(rest, ready, m + 1, j, g);
      assert FirstReady(pending, ready, m, j, g);
    }
  }

  lemma NewReadyAtOnce(pending: set<int>, ready: nat -> set<int>, m: nat)
    ensures NewReady(pending, ready, m, m) <==> ready(m) * pending != {}
  {
    var now := ready(m) * pending;
    forall g ensures FirstReady(pending, ready, m, m, g) <==> g in now {
    }
    if now != {} {
      var g := Member(now);
      assert FirstReady(pending, ready, m, m, g);
    }
  }

  lemma ReportedNext(pending: set<int>, ready: nat -> set<int>, m: nat, fd: int)
    requires ready(m) * pending != {} && fd in pending && fd !in ready(m)
    ensures Reported(pending, ready, m, fd) <==> Reported(pending - ready(m) * pending, ready, m + 1, fd)
  {
    var rest := pending - ready(m) * pending;
    forall j: nat | m < j ensures NewReady(pending, ready, m, j) <==> NewReady(rest, ready, m + 1, j) {
      NewReadyNext(pending, ready, m, j);
    }
    NewReadyAtOnce(pending, ready, m);
    if Reported(pending, ready, m, fd) {
      var k: nat :| ReportedAt(pending, ready, m, fd, k);
      var m' := m + 1;
      forall j: nat | m' <= j <= k ensures NewReady(rest, ready, m', j) {
        assert NewReady(pending, ready, m, j);
      }
      assert ReportedAt(rest, ready, m', fd, k);
    }
    if Reported(rest, ready, m + 1, fd) {
      var k: nat :| ReportedAt(rest, ready, m + 1, fd, k);
      assert ReportedAt(pending, ready, m, fd, k);
    }
  }

  /** The sockets that the wait loop resolves are those that are ready at some call before the first one that
      finds no further socket ready. */
  lemma {:induction false} ResolvedIff(pending: set<int>, ready: nat -> set<int>, m: nat, fd: int)
    ensures fd in Resolved(pending, ready, m) <==> Reported(pending, ready, m, fd)
    decreases |pending|
  {
    var now := ready(m) * pending;
    NewReadyAtOnce(pending, ready, m);
    if now == {} {
      forall k: nat ensures !ReportedAt(pending, ready, m, fd, k) {
      }
    } else if fd in now {
      assert ReportedAt(pending, ready, m, fd, m);
    } else {
      assert pending == (pending - now) + now;
      ResolvedIff(pending - now, ready, m + 1, fd);
      if fd in pending {
        ReportedNext(pending, ready, m, fd);
      }
    }
  }

  /** What is to hold when the loop is left. */
  ghost predicate WellEnded(end: Loop, slots: seq<int>, total: nat, fates: map<int, Verdict>) {
    && LoopInv(end, slots) && Stopped(end, total)
    && end.books.n + |end.books.orig| == total == |Said(end, slots)|
    && Said(end, slots) == fates
  }

  /** Without missed addresses the loop stops, and then every socket has the verdict it deserves. */
  lemma LoopEndsWell(sockets: seq<seq<int>>, numsock: seq<nat>, hosts: seq<seq<Address>>,
                     n: nat, total: nat, verdicts: map<int, Verdict>,
                     ready: nat -> set<int>, optval: int -> int) returns (k: nat)
    requires Filled(sockets, numsock, hosts) && Distinct(Flatten(hosts)) && PendingSeen(hosts)
    requires Begun(n, total, Pending(Flatten(hosts)), verdicts, Flatten(hosts))
    ensures WellEnded(After(LoopStart(n, verdicts, Flatten(hosts)), Visible(sockets, numsock), total, ready, optval, k),
                      Visible(sockets, numsock), total,
                      Fates(Flatten(hosts), Resolved(Pending(Flatten(hosts)), ready, 0), optval))
  {
    var start, slots := LoopStart(n, verdicts, Flatten(hosts)), Visible(sockets, numsock);
    LoopStarts(sockets, numsock, hosts, n, total, verdicts);
    k := LoopStops(start, slots, total, ready, optval);
    var end := After(start, slots, total, ready, optval, k);
    AfterSoFar(start, slots, total, ready, optval, k);
    AfterCounted(start, slots, total, ready, optval, k);
    EndFates(Flatten(hosts), start.books, end, slots, total, ready, k, optval);
  }

  lemma LoopStops(l: Loop, slots: seq<int>, total: nat, ready: nat -> set<int>, optval: int -> int) returns (k: nat)
    requires LoopInv(l, slots) && SeesAll(l, slots) && Counted(l.books, total)
    ensures Stopped(After(l, slots, total, ready, optval, k), total)
  {
    k := Left(l, total) + 1;
    AfterProgresses(l, slots, total, ready, optval, k);
    AfterCounted(l, slots, total, ready, optval, k);
  }

  lemma EndFates(done: seq<Address>, start: Books, end: Loop, slots: seq<int>, total: nat,
                 ready: nat -> set<int>, k: nat, optval: int -> int)
    requires Distinct(done) && start.orig == Pending(done) && KnownAtOnce(start.verdicts, done)
    requires LoopSoFar(start, end, slots, ready, k, optval) && Stopped(end, total) && Counted(end.books, total)
    ensures WellEnded(end, slots, total, Fates(done, Resolved(Pending(done), ready, 0), optval))
  {
    var resolved := Resolved(start.orig, ready, 0);
    SoFarStopped(start, end, slots, total, ready, k, optval);
    SaidFates(end, slots, done, start, resolved, optval);
    FatesUnique(done, Said(end, slots), resolved, optval);
    SaidCount(end, slots, total);
  }

  lemma SaidCount(l: Loop, slots: seq<int>, total: nat)
    requires Open(l.books) && Counted(l.books, total) && SeesAll(l, slots)
    ensures |Said(l, slots)| == total
  {
    assert l.books.orig * Elements(slots) == l.books.orig;
    GivenUpCounts(l.books, total);
  }

  lemma SaidKeys(l: Loop, slots: seq<int>)
    requires SeesAll(l, slots)
    ensures Said(l, slots).Keys == l.books.verdicts.Keys + l.books.orig
  {
    assert l.books.orig * Elements(slots) == l.books.orig;
    GivenUpKeys(l.books.verdicts, l.books.orig);
  }

  /** A pass after select has reported `sel` finishes no connect if and only if the loops see none of the
      sockets reported, and then it changes nothing. */
  lemma PassStallsIffUnseen(sockets: seq<seq<int>>, numsock: seq<nat>, hosts: seq<seq<Address>>,
                            b: Books, sel: set<int>, optval: int -> int)
    requires Filled(sockets, numsock, hosts) && Distinct(Flatten(hosts))
    requires Open(b) && sel <= b.orig
    ensures var slots := Visible(sockets, numsock);
            && (TestSlots(b, sel, slots, optval).n == b.n <==> sel !! Elements(slots))
            && (sel !! Elements(slots) ==> TestSlots(b, sel, slots, optval) == b)
  {
    var slots := Visible(sockets, numsock);
    VisibleNoRepeat(sockets, numsock, hosts);
    TestSlotsSettle(b, sel, slots, optval);
    if sel !! Elements(slots) {
      assert sel * Elements(slots) == {};
      assert Decided(b.verdicts, {}, optval) == b.verdicts;
    }
  }
}
