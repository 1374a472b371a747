/** The program: start all connects, wait for them with select, give up after some timeouts, and say of
    each socket what became of it. */
module ConnectsProgram {
  import opened Connects
  import opened ConnectsWaiting

  /** The variables of main, updated in place. */
  class Connector {
    var sockets: seq<seq<int>>
    var numsock: seq<nat>
    var n: nat
    var numSockets: nat
    var timeouts: nat
    var wrfds: set<int>
    var wrfdsOrig: set<int>
    var verdicts: map<int, Verdict>

    constructor (hosts: nat)
      ensures Tables(sockets, numsock) && |sockets| == hosts
      ensures forall h :: 0 <= h < hosts ==> Unused(sockets[h], numsock[h])
      ensures n == numSockets == timeouts == 0 && wrfds == wrfdsOrig == {} && verdicts == map[]
    {
      sockets := seq(hosts, h => [-1, -1, -1]);
      numsock := seq(hosts, h => 0);
      n, numSockets, timeouts := 0, 0, 0;
      wrfds, wrfdsOrig, verdicts := {}, {}, map[];
    }

    /** Prints the fate of a socket that has none yet. */
    method Say(fd: int, v: Verdict)
      requires fd !in verdicts
      modifies this`verdicts
      ensures verdicts == old(verdicts)[fd := v]
    {
      verdicts := verdicts[fd := v];
    }

    // ---- starting the connects ----

    /** The bookkeeping after the addresses `done`. */
    ghost predicate Started(done: seq<Address>)
      reads `n, `numSockets, `wrfds, `verdicts
    {
      Begun(n, numSockets, wrfds, verdicts, done)
    }

    lemma StartedSkips(done: seq<Address>, a: Address)
      requires Started(done) && !a.Socket?
      ensures Started(done + [a])
    {
      Snoc(done, a);
    }

    /** connect() has answered for a new socket. */
    method NoteResult(fd: nat, result: Result, ghost done: seq<Address>)
      requires Started(done) && Distinct(done + [Socket(fd, result)])
      modifies this`n, this`numSockets, this`wrfds, this`verdicts
      ensures Started(done + [Socket(fd, result)])
    {
      BegunGrows(n, numSockets, wrfds, verdicts, done, fd, result);
      match result {
        case InProgress =>
          wrfds := wrfds + {fd};
        case RefusedAtOnce =>
          Say(fd, Failed);
          n := n + 1;
        case ConnectedAtOnce =>
          Say(fd, Connected);
          n := n + 1;
      }
      numSockets := numSockets + 1;
    }

    /** socket() has answered: remember the descriptor. */
    method NoteSocket(h: nat, i: nat, fd: nat)
      requires Tables(sockets, numsock) && h < |sockets| && i < MAX_SOCKETS && numsock[h] < MAX_SOCKETS
      modifies this`sockets, this`numsock
      ensures Tables(sockets, numsock)
      ensures sockets == old(sockets)[h := old(sockets)[h][i := fd]]
      ensures numsock == old(numsock)[h := old(numsock)[h] + 1]
    {
      sockets := sockets[h := sockets[h][i := fd]];
      numsock := numsock[h := numsock[h] + 1];
    }

    /** One address of a host, after the addresses `row` of that host and `done` of all hosts. */
    method InitiateOne(h: nat, a: Address, ghost row: seq<Address>, i: nat, ghost done: seq<Address>)
      requires Tables(sockets, numsock) && h < |sockets| && i == |row| < MAX_SOCKETS
      requires Started(done) && Distinct(done + [a])
      requires RowHas(sockets[h], numsock[h], row)
      modifies this`sockets, this`numsock, this`n, this`numSockets, this`wrfds, this`verdicts
      ensures Tables(sockets, numsock) && |sockets| == old(|sockets|)
      ensures sockets == old(sockets)[h := sockets[h]] && numsock == old(numsock)[h := numsock[h]]
      ensures Started(done + [a])
      ensures RowHas(sockets[h], numsock[h], row + [a])
    {
      match a {
        case Socket(fd, result) =>
          RowGrows(sockets[h], numsock[h], row, fd, result);
          NoteSocket(h, i, fd);
          NoteResult(fd, result, done);
        case SocketFails =>
          RowSkips(sockets[h], numsock[h], row, a);
          StartedSkips(done, a);
          sockets := sockets[h := sockets[h][i := -1]];
        case OtherFamily =>
          RowSkips(sockets[h], numsock[h], row, a);
          StartedSkips(done, a);
      }
    }

    /** All addresses of one host. */
    method InitiateHost(h: nat, addresses: seq<Address>, ghost done: seq<Address>)
      requires Tables(sockets, numsock) && h < |sockets| && Unused(sockets[h], numsock[h])
      requires |addresses| <= MAX_SOCKETS
      requires Started(done) && Distinct(done + addresses)
      modifies this`sockets, this`numsock, this`n, this`numSockets, this`wrfds, this`verdicts
      ensures Tables(sockets, numsock) && |sockets| == old(|sockets|)
      ensures sockets == old(sockets)[h := sockets[h]] && numsock == old(numsock)[h := numsock[h]]
      ensures Started(done + addresses)
      ensures RowHas(sockets[h], numsock[h], addresses)
    {
      var i := 0;
      ghost var row, all := [], done;
      while i < |addresses|
        invariant 0 <= i <= |addresses|
        invariant Tables(sockets, numsock) && |sockets| == old(|sockets|)
        invariant sockets == old(sockets)[h := sockets[h]] && numsock == old(numsock)[h := numsock[h]]
        invariant row == addresses[..i] && all == done + row
        invariant Started(all)
        invariant RowHas(sockets[h], numsock[h], row)
      {
        assert all + [addresses[i]] <= done + addresses;
        InitiateOne(h, addresses[i], row, i, all);
        row, all := row + [addresses[i]], all + [addresses[i]];
        i := i + 1;
      }
      assert row == addresses;
    }

    /** All hosts.  The sockets still connecting and the finished ones add up to `numSockets`, and the
        tables hold what the addresses gave. */
    method InitiateAll(hosts: seq<seq<Address>>)
      requires Fresh(hosts)
      requires forall h :: 0 <= h < |hosts| ==> |hosts[h]| <= MAX_SOCKETS
      requires Distinct(Flatten(hosts))
      modifies this
      ensures Tables(sockets, numsock)
      ensures timeouts == old(timeouts)
      ensures Started(Flatten(hosts)) && wrfdsOrig == wrfds
      ensures Filled(sockets, numsock, hosts)
    {
      var h := 0;
      ghost var done := [];
      while h < |hosts|
        invariant 0 <= h <= |hosts|
        invariant Tables(sockets, numsock) && |sockets| == |hosts| && timeouts == old(timeouts)
        invariant forall g :: h <= g < |hosts| ==> Unused(sockets[g], numsock[g])
        invariant forall g :: 0 <= g < h ==> RowHas(sockets[g], numsock[g], hosts[g])
        invariant done == Flatten(hosts[..h]) && Started(done)
      {
        FlattenNext(hosts, h);
        FlattenPrefix(hosts, h + 1);
        DistinctPrefix(done + hosts[h], Flatten(hosts));
        InitiateHost(h, hosts[h], done);
        done := done + hosts[h];
        h := h + 1;
      }
      assert hosts[..h] == hosts;
      wrfdsOrig := wrfds;
    }

    // ---- waiting ----

    ghost function Now(): Books
      reads `n, `wrfdsOrig, `verdicts
    {
      Books(n, wrfdsOrig, verdicts)
    }

    ghost function LoopState(): Loop
      reads `n, `timeouts, `wrfds, `wrfdsOrig, `verdicts
    {
      Loop(Now(), wrfds, timeouts)
    }

    ghost function Slots(): seq<int>
      requires Tables(sockets, numsock)
      reads `sockets, `numsock
    {
      Visible(sockets, numsock)
    }

    /** Main at the head of the wait loop. */
    ghost predicate Waiting()
      reads this
    {
      Tables(sockets, numsock) && LoopInv(LoopState(), Slots())
    }

    /** The test of one slot after select has returned. */
    method CheckSlot(fd: int, optval: int -> int)
      modifies this`n, this`wrfdsOrig, this`verdicts
      ensures Now() == TestSlot(old(Now()), wrfds, fd, optval)
    {
      if fd in wrfds {
        verdicts := verdicts[fd := Outcome(optval, fd)];
        wrfdsOrig := wrfdsOrig - {fd};
        n := n + 1;
      }
    }

    /** All slots of one host. */
    method CheckHost(h: nat, optval: int -> int, ghost before: seq<int>, ghost start: Books)
      requires Tables(sockets, numsock) && h < |sockets|
      requires Now() == TestSlots(start, wrfds, before, optval)
      modifies this`n, this`wrfdsOrig, this`verdicts
      ensures Now() == TestSlots(start, wrfds, before + sockets[h][..numsock[h]], optval)
    {
      var i := 0;
      ghost var looked := before;
      while i < numsock[h]
        invariant 0 <= i <= numsock[h]
        invariant looked == before + sockets[h][..i]
        invariant Now() == TestSlots(start, wrfds, looked, optval)
      {
        TestSlotsNext(start, wrfds, looked, sockets[h][i], optval);
        CheckSlot(sockets[h][i], optval);
        looked := looked + [sockets[h][i]];
        i := i + 1;
      }
    }

    /** One pass over all hosts after select has reported the sockets in `wrfds`. */
    method CheckAll(optval: int -> int)
      requires Tables(sockets, numsock)
      modifies this`n, this`wrfdsOrig, this`verdicts
      ensures Now() == TestSlots(old(Now()), wrfds, Slots(), optval)
    {
      var h := 0;
      ghost var looked, rows := [], Rows(sockets, numsock);
      while h < |sockets|
        invariant 0 <= h <= |sockets|
        invariant looked == Flatten(rows[..h])
        invariant Now() == TestSlots(old(Now()), wrfds, looked, optval)
      {
        FlattenNext(rows, h);
        CheckHost(h, optval, looked, old(Now()));
        looked := looked + rows[h];
        h := h + 1;
      }
      assert rows[..h] == rows;
    }

    /** One iteration of the select loop, with `answer` the sockets that are writable now. */
    method SelectOnce(answer: set<int>, optval: int -> int)
      requires Tables(sockets, numsock)
      modifies this`n, this`timeouts, this`wrfds, this`wrfdsOrig, this`verdicts
      ensures LoopState() == Iterate(old(LoopState()), Slots(), answer, optval)
    {
      wrfds := answer * wrfds;
      if wrfds == {} {
        timeouts := timeouts + 1;
      } else {
        CheckAll(optval);
        wrfds := wrfdsOrig;
      }
    }

    /** At most `bound` iterations; `ready(i)` are the sockets that are writable at the i-th call. */
    method WaitAtMost(bound: nat, ready: nat -> set<int>, optval: int -> int) returns (ended: bool)
      requires Tables(sockets, numsock)
      modifies this`n, this`timeouts, this`wrfds, this`wrfdsOrig, this`verdicts
      ensures LoopState() == After(old(LoopState()), Slots(), numSockets, ready, optval, bound)
      ensures ended <==> Stopped(LoopState(), numSockets)
    {
      var k: nat := 0;
      while k < bound && n != numSockets && timeouts != TIMEOUT
        invariant k <= bound
        invariant LoopState() == After(old(LoopState()), Slots(), numSockets, ready, optval, k)
      {
        SelectOnce(ready(k), optval);
        k := k + 1;
      }
      ended := n == numSockets || timeouts == TIMEOUT;
      if ended {
        AfterStopped(old(LoopState()), Slots(), numSockets, ready, optval, k, bound);
      }
    }

    /** The select loop, when it stops after some number of iterations. */
    method Wait(ready: nat -> set<int>, optval: int -> int, ghost k: nat)
      requires Tables(sockets, numsock)
      requires Stopped(After(LoopState(), Slots(), numSockets, ready, optval, k), numSockets)
      modifies this`n, this`timeouts, this`wrfds, this`wrfdsOrig, this`verdicts
      ensures LoopState() == After(old(LoopState()), Slots(), numSockets, ready, optval, k)
    {
      var i: nat := 0;
      while n != numSockets && timeouts != TIMEOUT
        invariant i <= k
        invariant LoopState() == After(old(LoopState()), Slots(), numSockets, ready, optval, i)
        decreases k - i
      {
        SelectOnce(ready(i), optval);
        i := i + 1;
      }
      AfterStopped(old(LoopState()), Slots(), numSockets, ready, optval, i, k);
    }

    // ---- giving up ----

    method GiveUpHost(h: nat, ghost before: seq<int>, ghost known: map<int, Verdict>)
      requires Tables(sockets, numsock) && h < |sockets|
      requires NoRepeat(before + sockets[h][..numsock[h]])
      requires wrfdsOrig !! known.Keys && (forall fd :: fd in wrfdsOrig ==> fd >= 0)
      requires verdicts == GivenUp(known, wrfdsOrig * Elements(before))
      modifies this`verdicts
      ensures verdicts == GivenUp(known, wrfdsOrig * Elements(before + sockets[h][..numsock[h]]))
    {
      var i := 0;
      ghost var looked := before;
      while i < numsock[h]
        invariant 0 <= i <= numsock[h]
        invariant looked == before + sockets[h][..i]
        invariant verdicts == GivenUp(known, wrfdsOrig * Elements(looked))
      {
        var fd := sockets[h][i];
        NoRepeatPrefix(looked + [fd], before + sockets[h][..numsock[h]]);
        HandledNext(wrfdsOrig, looked, fd);
        if fd in wrfdsOrig {
          GivenUpOne(known, wrfdsOrig * Elements(looked), fd);
          Say(fd, TimedOut);
        }
        looked := looked + [fd];
        i := i + 1;
      }
    }

    /** The last loop: the sockets seen that are still waited for timed out. */
    method GiveUp()
      requires Waiting()
      modifies this`verdicts
      ensures verdicts == Said(old(LoopState()), Slots())
    {
      var h := 0;
      ghost var looked, known, rows := [], verdicts, Rows(sockets, numsock);
      GivenUpNone(known, wrfdsOrig * Elements(looked));
      while h < |sockets|
        invariant 0 <= h <= |sockets|
        invariant looked == Flatten(rows[..h])
        invariant verdicts == GivenUp(known, wrfdsOrig * Elements(looked))
      {
        FlattenNext(rows, h);
        FlattenPrefix(rows, h + 1);
        NoRepeatPrefix(looked + rows[h], Flatten(rows));
        GiveUpHost(h, looked, known);
        looked := looked + rows[h];
        h := h + 1;
      }
      assert rows[..h] == rows;
    }

    /** The state from which main starts. */
    ghost predicate Fresh(hosts: seq<seq<Address>>)
      reads this
    {
      && Tables(sockets, numsock) && |sockets| == |hosts|
      && (forall h :: 0 <= h < |hosts| ==> Unused(sockets[h], numsock[h]))
      && n == numSockets == timeouts == 0 && wrfds == {} && verdicts == map[]
    }

    /** Everything up to the wait loop. */
    method Begin(hosts: seq<seq<Address>>)
      requires Fresh(hosts) && Distinct(Flatten(hosts))
      requires forall h :: 0 <= h < |hosts| ==> |hosts[h]| <= MAX_SOCKETS
      modifies this
      ensures Filled(sockets, numsock, hosts) && Started(Flatten(hosts))
      ensures Waiting() && LoopState() == LoopStart(n, verdicts, Flatten(hosts))
    {
      InitiateAll(hosts);
      LoopStarts(sockets, numsock, hosts, n, numSockets, verdicts);
    }

    /** Without missed addresses the loop will stop, with the verdicts that the sockets deserve. */
    method BeginWell(hosts: seq<seq<Address>>, ready: nat -> set<int>, optval: int -> int) returns (ghost k: nat)
      requires Fresh(hosts) && Distinct(Flatten(hosts))
      requires forall h :: 0 <= h < |hosts| ==> |hosts[h]| <= MAX_SOCKETS
      requires PendingSeen(hosts)
      modifies this
      ensures Tables(sockets, numsock)
      ensures WellEnded(After(LoopState(), Slots(), numSockets, ready, optval, k), Slots(), numSockets,
                        Fates(Flatten(hosts), Resolved(Pending(Flatten(hosts)), ready, 0), optval))
    {
      Begin(hosts);
      k := LoopEndsWell(sockets, numsock, hosts, n, numSockets, verdicts, ready, optval);
    }

    /** Everything after the connects have been started, when the loop stops after `k` iterations. */
    method Finish(ready: nat -> set<int>, optval: int -> int, ghost k: nat, ghost end: Loop)
      requires Tables(sockets, numsock)
      requires end == After(LoopState(), Slots(), numSockets, ready, optval, k)
      requires Stopped(end, numSockets) && LoopInv(end, Slots())
      modifies this`n, this`timeouts, this`wrfds, this`wrfdsOrig, this`verdicts
      ensures verdicts == Said(end, Slots())
      ensures n == end.books.n && wrfdsOrig == end.books.orig && timeouts == end.timeouts
    {
      Wait(ready, optval, k);
      GiveUp();
    }

    /** The whole program, when no address whose connect is still going on is missed: it ends, and every
        socket gets exactly one verdict, the one it deserves. */
    method Run(hosts: seq<seq<Address>>, ready: nat -> set<int>, optval: int -> int)
      requires Fresh(hosts) && Distinct(Flatten(hosts))
      requires forall h :: 0 <= h < |hosts| ==> |hosts[h]| <= MAX_SOCKETS
      requires PendingSeen(hosts)
      modifies this
      ensures verdicts == Fates(Flatten(hosts), Resolved(Pending(Flatten(hosts)), ready, 0), optval)
      ensures n + |wrfdsOrig| == numSockets == |verdicts|
      ensures n == numSockets || timeouts == 10
    {
      ghost var k := BeginWell(hosts, ready, optval);
      ghost var end := After(LoopState(), Slots(), numSockets, ready, optval, k);
      Finish(ready, optval, k, end);
    }

    /** The whole program on any hosts, cut off after `bound` iterations of its wait loop: no missed
        socket has a verdict, whether or not the loop has ended by then. */
    method RunAtMost(hosts: seq<seq<Address>>, bound: nat, ready: nat -> set<int>, optval: int -> int)
      returns (ended: bool)
      requires Fresh(hosts) && Distinct(Flatten(hosts))
      requires forall h :: 0 <= h < |hosts| ==> |hosts[h]| <= MAX_SOCKETS
      modifies this
      ensures NoneForMissed(hosts, verdicts)
      ensures ended && PendingSeen(hosts) ==> verdicts.Keys == Fds(Flatten(hosts))
    {
      Begin(hosts);
      AfterStart(sockets, numsock, hosts, n, numSockets, verdicts, ready, optval, bound);
      ended := WaitAtMost(bound, ready, optval);
      if ended {
        GiveUp();
      }
    }
  }

  /** The whole program, when no address whose connect is still going on is missed: what it says of each
      socket. */
  method Program(hosts: seq<seq<Address>>, ready: nat -> set<int>, optval: int -> int)
    returns (verdicts: map<int, Verdict>)
    requires Distinct(Flatten(hosts)) && PendingSeen(hosts)
    requires forall h :: 0 <= h < |hosts| ==> |hosts[h]| <= MAX_SOCKETS
    ensures verdicts.Keys == Fds(Flatten(hosts))
    ensures forall a :: a in Flatten(hosts) && a.Socket? && a.fd as int in verdicts ==>
              && (a.result.ConnectedAtOnce? ==> verdicts[a.fd as int] == Connected)
              && (a.result.RefusedAtOnce? ==> verdicts[a.fd as int] == Failed)
    ensures forall a :: a in Flatten(hosts) && a.Socket? && a.result.InProgress? && a.fd as int in verdicts ==>
              if !Reported(Pending(Flatten(hosts)), ready, 0, a.fd) then verdicts[a.fd as int] == TimedOut
              else if optval(a.fd) == 0 then verdicts[a.fd as int] == Connected
              else verdicts[a.fd as int] == Failed
  {
    var c := new Connector(|hosts|);
    c.Run(hosts, ready, optval);
    verdicts := c.verdicts;
    ghost var resolved := Resolved(Pending(Flatten(hosts)), ready, 0);
    FatesMean(Flatten(hosts), resolved, optval);
    forall a | a in Flatten(hosts) && a.Socket?
      ensures a.fd as int in resolved <==> Reported(Pending(Flatten(hosts)), ready, 0, a.fd)
      ensures a.fd as int in verdicts ==> Truthful(a, verdicts[a.fd as int], resolved, optval)
    {
      ResolvedIff(Pending(Flatten(hosts)), ready, 0, a.fd);
    }
  }
}
