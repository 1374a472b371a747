/** The addresses and sockets of the asynchronous connects, the tables of sockets, and which sockets the
    loops over the tables see. */
module Connects {
  import opened Prelude

  const MAX_SOCKETS: nat := 3

  datatype Result = InProgress | ConnectedAtOnce | RefusedAtOnce

  /** What an address of a host leads to: nothing, because its family is not wanted or socket() fails,
      or a socket and the result of the non-blocking connect. */
  datatype Address = OtherFamily | SocketFails | Socket(fd: nat, result: Result)

  /** The sockets created for some addresses. */
  ghost function Fds(done: seq<Address>): set<int> {
    set a | a in done && a.Socket? :: a.fd as int
  }

  /** Those whose connect is still going on. */
  ghost function Pending(done: seq<Address>): set<int> {
    set a | a in done && a.Socket? && a.result.InProgress? :: a.fd as int
  }

  /** Descriptors of open sockets differ. */
  ghost predicate Distinct(done: seq<Address>) {
    forall i, j :: 0 <= i < j < |done| && done[i].Socket? && done[j].Socket? ==> done[i].fd != done[j].fd
  }

  lemma DistinctPrefix(a: seq<Address>, b: seq<Address>)
    requires a <= b && Distinct(b)
    ensures Distinct(a)
  {
    assert forall i :: 0 <= i < |a| ==> a[i] == b[i];
  }

  /** No address gives a socket after one that gave none. */
  ghost predicate SocketsFirst(done: seq<Address>) {
    forall i, j :: 0 <= i < j < |done| && done[j].Socket? ==> done[i].Socket?
  }

  ghost function Count(done: seq<Address>): (c: nat)
    ensures c <= |done|
  {
    if done == [] then 0
    else Count(done[..|done| - 1]) + if done[|done| - 1].Socket? then 1 else 0
  }

  lemma CountSnoc(done: seq<Address>, a: Address)
    ensures Count(done + [a]) == Count(done) + if a.Socket? then 1 else 0
  {
    assert (done + [a])[..|done|] == done;
  }

  lemma {:induction false} CountFull(done: seq<Address>)
    ensures Count(done) == |done| <==> forall i :: 0 <= i < |done| ==> done[i].Socket?
    decreases |done|
  {
    if done != [] {
      var last := |done| - 1;
      CountFull(done[..last]);
      assert forall i :: 0 <= i < last ==> done[..last][i] == done[i];
    }
  }

  /** Exactly then the sockets are the first Count(done) addresses. */
  lemma {:induction false} CountPrefix(done: seq<Address>)
    ensures SocketsFirst(done) <==> forall i :: Count(done) <= i < |done| ==> !done[i].Socket?
    decreases |done|
  {
    if done != [] {
      var last := |done| - 1;
      var init := done[..last];
      CountPrefix(init);
      CountFull(init);
      assert forall i :: 0 <= i < last ==> init[i] == done[i];
      if done[last].Socket? {
        assert SocketsFirst(done) <==> forall i :: 0 <= i < last ==> done[i].Socket?;
      }
    }
  }

  /** One more socket. */
  lemma Snoc(done: seq<Address>, a: Address)
    ensures Fds(done + [a]) == Fds(done) + if a.Socket? then {a.fd as int} else {}
    ensures Pending(done + [a]) == Pending(done) + if a.Socket? && a.result.InProgress? then {a.fd as int} else {}
    ensures Distinct(done + [a]) && a.Socket? ==> a.fd as int !in Fds(done)
  {
    assert forall b :: b in done + [a] <==> b in done || b == a;
    if Distinct(done + [a]) && a.Socket? {
      forall b | b in done && b.Socket? ensures b.fd != a.fd {
        var i :| 0 <= i < |done| && done[i] == b;
        assert (done + [a])[i] == b && (done + [a])[|done|] == a;
      }
    }
  }

  // ---- rows of socket slots ----

  ghost function Flatten<T>(rows: seq<seq<T>>): seq<T>
    decreases |rows|
  {
    if rows == [] then [] else Flatten(rows[..|rows| - 1]) + rows[|rows| - 1]
  }

  lemma FlattenNext<T>(rows: seq<seq<T>>, h: nat)
    requires h < |rows|
    ensures Flatten(rows[..h + 1]) == Flatten(rows[..h]) + rows[h]
  {
    assert rows[..h + 1][..h] == rows[..h];
  }

  lemma {:induction false} FlattenPrefix<T>(rows: seq<seq<T>>, k: nat)
    requires k <= |rows|
    ensures Flatten(rows[..k]) <= Flatten(rows)
    decreases |rows| - k
  {
    if k == |rows| {
      assert rows[..k] == rows;
    } else {
      FlattenPrefix(rows, k + 1);
      FlattenNext(rows, k);
    }
  }

  ghost function Elements(slots: seq<int>): (r: set<int>)
    ensures forall x :: x in r <==> x in slots
  {
    set x | x in slots
  }

  ghost predicate NoRepeat(slots: seq<int>) {
    forall i, j :: 0 <= i < j < |slots| && slots[i] >= 0 ==> slots[i] != slots[j]
  }

  lemma NoRepeatPrefix(a: seq<int>, b: seq<int>)
    requires a <= b && NoRepeat(b)
    ensures NoRepeat(a)
  {
    assert forall i :: 0 <= i < |a| ==> a[i] == b[i];
  }

  ghost predicate Tables(sockets: seq<seq<int>>, numsock: seq<nat>) {
    && |sockets| == |numsock|
    && (forall h :: 0 <= h < |sockets| ==> |sockets[h]| == MAX_SOCKETS)
    && (forall h :: 0 <= h < |numsock| ==> numsock[h] <= MAX_SOCKETS)
  }

  ghost function Rows(sockets: seq<seq<int>>, numsock: seq<nat>): seq<seq<int>>
    requires Tables(sockets, numsock)
  {
    seq(|sockets|, h requires 0 <= h < |sockets| && Tables(sockets, numsock) => sockets[h][..numsock[h]])
  }

  /** The socket slots that the loops over `numsock` look at. */
  ghost function Visible(sockets: seq<seq<int>>, numsock: seq<nat>): seq<int>
    requires Tables(sockets, numsock)
  {
    Flatten(Rows(sockets, numsock))
  }

  /** A host's slots after the addresses `done`: the descriptors in their places, -1 elsewhere; and
      `numsock`, which counts the sockets. */
  ghost predicate RowHas(row: seq<int>, count: nat, done: seq<Address>) {
    && |done| <= MAX_SOCKETS == |row|
    && count == Count(done)
    && forall i :: 0 <= i < |row| ==> row[i] == if i < |done| && done[i].Socket? then done[i].fd as int else -1
  }

  /** The slots of a host as the program initialises them. */
  ghost predicate Unused(row: seq<int>, count: nat) {
    row == [-1, -1, -1] && count == 0
  }

  lemma RowGrows(row: seq<int>, count: nat, done: seq<Address>, fd: nat, result: Result)
    requires RowHas(row, count, done) && |done| < MAX_SOCKETS
    ensures RowHas(row[|done| := fd], count + 1, done + [Socket(fd, result)])
  {
    CountSnoc(done, Socket(fd, result));
  }

  lemma RowSkips(row: seq<int>, count: nat, done: seq<Address>, a: Address)
    requires RowHas(row, count, done) && |done| < MAX_SOCKETS && !a.Socket?
    ensures RowHas(row, count, done + [a]) && row[|done| := -1] == row
  {
    CountSnoc(done, a);
  }

  // ---- which sockets the loops over `numsock` see ----

  /** A host's loop looks at no socket twice, and at those whose index is below the number of sockets. */
  lemma RowSeen(row: seq<int>, count: nat, done: seq<Address>)
    requires RowHas(row, count, done) && Distinct(done)
    ensures NoRepeat(row[..count])
    ensures forall x :: x in row[..count] && x >= 0 ==> x in Fds(done)
    ensures forall i :: 0 <= i < |done| && done[i].Socket? ==> (done[i].fd as int in row[..count] <==> i < count)
  {
    var seen := row[..count];
    forall x | x in seen && x >= 0 ensures x in Fds(done) {
      var j :| 0 <= j < count && seen[j] == x;
      assert done[j] in done;
    }
    forall i | 0 <= i < |done| && done[i].Socket? ensures done[i].fd as int in seen <==> i < count {
      if i < count {
        assert seen[i] == done[i].fd;
      }
    }
  }

  lemma FdsConcat(a: seq<Address>, b: seq<Address>)
    ensures Fds(a + b) == Fds(a) + Fds(b)
    ensures Distinct(a + b) ==> Distinct(a) && Distinct(b) && Fds(a) !! Fds(b)
  {
    var all := a + b;
    assert forall x :: x in all <==> x in a || x in b;
    if Distinct(all) {
      assert forall i :: 0 <= i < |a| ==> all[i] == a[i];
      assert forall i :: 0 <= i < |b| ==> all[|a| + i] == b[i];
      forall x, y | x in a && x.Socket? && y in b && y.Socket? ensures x.fd != y.fd {
        var i :| 0 <= i < |a| && a[i] == x;
        var j :| 0 <= j < |b| && b[j] == y;
        assert all[i] == x && all[|a| + j] == y;
      }
    }
  }

  lemma JoinSeen(a: seq<int>, b: seq<int>)
    requires NoRepeat(a) && NoRepeat(b)
    requires forall x :: x in a && x >= 0 ==> x !in b
    ensures NoRepeat(a + b)
  {
    forall i, j | 0 <= i < j < |a + b| && (a + b)[i] >= 0 ensures (a + b)[i] != (a + b)[j] {
      if i < |a| <= j {
        assert a[i] in a && b[j - |a|] in b;
      }
    }
  }

  /** What the addresses have left in the tables. */
  ghost predicate Filled(sockets: seq<seq<int>>, numsock: seq<nat>, hosts: seq<seq<Address>>) {
    && Tables(sockets, numsock) && |sockets| == |hosts|
    && (forall h :: 0 <= h < |hosts| ==> RowHas(sockets[h], numsock[h], hosts[h]))
  }

  lemma FilledUpTo(sockets: seq<seq<int>>, numsock: seq<nat>, hosts: seq<seq<Address>>, h: nat)
    requires Filled(sockets, numsock, hosts) && h < |hosts|
    ensures Rows(sockets, numsock)[h] == sockets[h][..numsock[h]]
    ensures Flatten(Rows(sockets, numsock)[..h + 1]) == Flatten(Rows(sockets, numsock)[..h]) + sockets[h][..numsock[h]]
    ensures Flatten(hosts[..h + 1]) == Flatten(hosts[..h]) + hosts[h]
  {
    FlattenNext(Rows(sockets, numsock), h);
    FlattenNext(hosts, h);
  }

  /** What has been looked at after `h` hosts. */
  lemma {:induction false} VisibleUpTo(sockets: seq<seq<int>>, numsock: seq<nat>, hosts: seq<seq<Address>>, h: nat)
    requires Filled(sockets, numsock, hosts) && Distinct(Flatten(hosts)) && h <= |hosts|
    ensures NoRepeat(Flatten(Rows(sockets, numsock)[..h]))
    ensures forall x :: x in Flatten(Rows(sockets, numsock)[..h]) && x >= 0 ==> x in Fds(Flatten(hosts[..h]))
  {
    if h > 0 {
      var g := h - 1;
      VisibleUpTo(sockets, numsock, hosts, g);
      FilledUpTo(sockets, numsock, hosts, g);
      FlattenPrefix(hosts, h);
      DistinctPrefix(Flatten(hosts[..h]), Flatten(hosts));
      FdsConcat(Flatten(hosts[..g]), hosts[g]);
      RowSeen(sockets[g], numsock[g], hosts[g]);
      JoinSeen(Flatten(Rows(sockets, numsock)[..g]), sockets[g][..numsock[g]]);
    }
  }

  /** The loops over `numsock` never look at a socket twice. */
  lemma VisibleNoRepeat(sockets: seq<seq<int>>, numsock: seq<nat>, hosts: seq<seq<Address>>)
    requires Filled(sockets, numsock, hosts) && Distinct(Flatten(hosts))
    ensures NoRepeat(Visible(sockets, numsock))
  {
    VisibleUpTo(sockets, numsock, hosts, |hosts|);
    assert Rows(sockets, numsock)[..|hosts|] == Rows(sockets, numsock);
  }

  lemma {:induction false} FlattenHas<T>(rows: seq<seq<T>>, h: nat, x: T)
    requires h < |rows| && x in rows[h]
    ensures x in Flatten(rows)
    decreases |rows|
  {
    if h < |rows| - 1 {
      FlattenHas(rows[..|rows| - 1], h, x);
    }
  }

  lemma {:induction false} FlattenWhere<T>(rows: seq<seq<T>>, x: T) returns (h: nat, i: nat)
    requires x in Flatten(rows)
    ensures h < |rows| && i < |rows[h]| && rows[h][i] == x
    decreases |rows|
  {
    var last := |rows| - 1;
    if x in rows[last] {
      h := last;
      i :| i < |rows[last]| && rows[last][i] == x;
    } else {
      h, i := FlattenWhere(rows[..last], x);
    }
  }

  lemma HostsApart(hosts: seq<seq<Address>>, g: nat, h: nat)
    requires Distinct(Flatten(hosts)) && g < h < |hosts|
    ensures Fds(hosts[g]) !! Fds(hosts[h])
  {
    FlattenNext(hosts, h);
    FlattenPrefix(hosts, h + 1);
    DistinctPrefix(Flatten(hosts[..h + 1]), Flatten(hosts));
    FdsConcat(Flatten(hosts[..h]), hosts[h]);
    forall x | x in Fds(hosts[g]) ensures x in Fds(Flatten(hosts[..h])) {
      var a :| a in hosts[g] && a.Socket? && a.fd as int == x;
      FlattenHas(hosts[..h], g, a);
    }
  }

  lemma HostDistinct(hosts: seq<seq<Address>>, h: nat)
    requires Distinct(Flatten(hosts)) && h < |hosts|
    ensures Distinct(hosts[h])
  {
    FlattenNext(hosts, h);
    FlattenPrefix(hosts, h + 1);
    DistinctPrefix(Flatten(hosts[..h + 1]), Flatten(hosts));
    FdsConcat(Flatten(hosts[..h]), hosts[h]);
  }

  /** The slots of host `h` show the socket of address `i` of host `g` only if the hosts are the same. */
  lemma RowShows(sockets: seq<seq<int>>, numsock: seq<nat>, hosts: seq<seq<Address>>, h: nat, g: nat, i: nat)
    requires Filled(sockets, numsock, hosts) && Distinct(Flatten(hosts)) && h < |hosts|
    requires g < |hosts| && i < |hosts[g]| && hosts[g][i].Socket?
    ensures hosts[g][i].fd as int in sockets[h][..numsock[h]] <==> h == g && i < Count(hosts[g])
  {
    HostDistinct(hosts, h);
    RowSeen(sockets[h], numsock[h], hosts[h]);
    if h != g {
      HostsApart(hosts, if g < h then g else h, if g < h then h else g);
      assert hosts[g][i] in hosts[g];
      assert hosts[g][i].fd as int in Fds(hosts[g]);
    }
  }

  lemma {:induction false} SeenUpTo(sockets: seq<seq<int>>, numsock: seq<nat>, hosts: seq<seq<Address>>, h: nat,
                                    g: nat, i: nat)
    requires Filled(sockets, numsock, hosts) && Distinct(Flatten(hosts)) && h <= |hosts|
    requires g < |hosts| && i < |hosts[g]| && hosts[g][i].Socket?
    ensures hosts[g][i].fd as int in Flatten(Rows(sockets, numsock)[..h]) <==> g < h && i < Count(hosts[g])
  {
    if h > 0 {
      SeenUpTo(sockets, numsock, hosts, h - 1, g, i);
      FilledUpTo(sockets, numsock, hosts, h - 1);
      RowShows(sockets, numsock, hosts, h - 1, g, i);
    }
  }

  /** The loops see a socket if and only if the index of its address is below the number of sockets of
      its host. */
  lemma SocketSeenIff(sockets: seq<seq<int>>, numsock: seq<nat>, hosts: seq<seq<Address>>, g: nat, i: nat)
    requires Filled(sockets, numsock, hosts) && Distinct(Flatten(hosts))
    requires g < |hosts| && i < |hosts[g]| && hosts[g][i].Socket?
    ensures hosts[g][i].fd as int in Visible(sockets, numsock) <==> i < Count(hosts[g])
  {
    SeenUpTo(sockets, numsock, hosts, |hosts|, g, i);
    assert Rows(sockets, numsock)[..|hosts|] == Rows(sockets, numsock);
  }

  /** They see all sockets if and only if, for every host, no address gives a socket after one that gave
      none. */
  lemma AllSeenIffSocketsFirst(sockets: seq<seq<int>>, numsock: seq<nat>, hosts: seq<seq<Address>>)
    requires Filled(sockets, numsock, hosts) && Distinct(Flatten(hosts))
    ensures Fds(Flatten(hosts)) <= Elements(Visible(sockets, numsock)) <==>
            forall g :: 0 <= g < |hosts| ==> SocketsFirst(hosts[g])
  {
    forall g | 0 <= g < |hosts| && Fds(Flatten(hosts)) <= Elements(Visible(sockets, numsock))
      ensures SocketsFirst(hosts[g])
    {
      CountPrefix(hosts[g]);
      forall i | Count(hosts[g]) <= i < |hosts[g]| ensures !hosts[g][i].Socket? {
        if hosts[g][i].Socket? {
          FlattenHas(hosts, g, hosts[g][i]);
          assert hosts[g][i].fd as int in Fds(Flatten(hosts));
          SocketSeenIff(sockets, numsock, hosts, g, i);
        }
      }
    }
    forall x | x in Fds(Flatten(hosts)) && forall g :: 0 <= g < |hosts| ==> SocketsFirst(hosts[g])
      ensures x in Elements(Visible(sockets, numsock))
    {
      var a :| a in Flatten(hosts) && a.Socket? && a.fd as int == x;
      var g, i := FlattenWhere(hosts, a);
      CountPrefix(hosts[g]);
      SocketSeenIff(sockets, numsock, hosts, g, i);
    }
  }

  /** The connect of address `i` is still going on, and the loops do not reach its index. */
  ghost predicate Missed(done: seq<Address>, i: nat)
    requires i < |done|
  {
    done[i].Socket? && done[i].result.InProgress? && i >= Count(done)
  }

  /** Of every host, no address is missed. */
  ghost predicate PendingSeen(hosts: seq<seq<Address>>) {
    forall g: nat, i: nat :: g < |hosts| && i < |hosts[g]| ==> !Missed(hosts[g], i)
  }

  lemma MissedUnseen(sockets: seq<seq<int>>, numsock: seq<nat>, hosts: seq<seq<Address>>, g: nat, i: nat)
    requires Filled(sockets, numsock, hosts) && Distinct(Flatten(hosts))
    requires g < |hosts| && i < |hosts[g]| && Missed(hosts[g], i)
    ensures hosts[g][i].fd as int in Pending(Flatten(hosts)) - Elements(Visible(sockets, numsock))
  {
    SocketSeenIff(sockets, numsock, hosts, g, i);
    FlattenHas(hosts, g, hosts[g][i]);
  }

  /** The loops see every socket still connecting if and only if no address is missed. */
  lemma PendingSeenIff(sockets: seq<seq<int>>, numsock: seq<nat>, hosts: seq<seq<Address>>)
    requires Filled(sockets, numsock, hosts) && Distinct(Flatten(hosts))
    ensures Pending(Flatten(hosts)) <= Elements(Visible(sockets, numsock)) <==> PendingSeen(hosts)
  {
    if g: nat, i: nat :| g < |hosts| && i < |hosts[g]| && Missed(hosts[g], i) {
      MissedUnseen(sockets, numsock, hosts, g, i);
    } else {
      forall x | x in Pending(Flatten(hosts)) ensures x in Elements(Visible(sockets, numsock)) {
        var a :| a in Flatten(hosts) && a.Socket? && a.result.InProgress? && a.fd as int == x;
        var g, i := FlattenWhere(hosts, a);
        assert !Missed(hosts[g], i);
        SocketSeenIff(sockets, numsock, hosts, g, i);
      }
    }
  }
}
