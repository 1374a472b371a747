/** Options, sums over sequences, sets of thread numbers and the one fact about division by a
    symbolic divisor that the barriers need. */
module Prelude {

  datatype Option<+T> = None | Some(value: T)

  function Sum(xs: seq<int>): int {
    if xs == [] then 0 else xs[0] + Sum(xs[1..])
  }

  lemma {:induction false} SumAtMost(xs: seq<int>, bound: int)
    requires forall i :: 0 <= i < |xs| ==> xs[i] <= bound
    ensures Sum(xs) <= |xs| * bound
  {
    if xs != [] {
      SumAtMost(xs[1..], bound);
      assert |xs| * bound == bound + (|xs| - 1) * bound;
    }
  }

  lemma {:induction false} SumMonotone(xs: seq<int>, ys: seq<int>)
    requires |xs| == |ys|
    requires forall i :: 0 <= i < |xs| ==> xs[i] <= ys[i]
    ensures Sum(xs) <= Sum(ys)
  {
    if xs != [] {
      SumMonotone(xs[1..], ys[1..]);
    }
  }

  /** A sequence that grows everywhere, and strictly at `k`, has a strictly larger sum. */
  lemma {:induction false} SumGrows(xs: seq<int>, ys: seq<int>, k: nat)
    requires |xs| == |ys| && k < |xs|
    requires forall i :: 0 <= i < |xs| ==> xs[i] <= ys[i]
    requires xs[k] < ys[k]
    ensures Sum(xs) < Sum(ys)
  {
    if k == 0 {
      SumMonotone(xs[1..], ys[1..]);
    } else {
      SumGrows(xs[1..], ys[1..], k - 1);
    }
  }

  lemma {:induction false} SumUpdate(xs: seq<int>, k: nat, x: int)
    requires k < |xs|
    ensures Sum(xs[k := x]) == Sum(xs) - xs[k] + x
  {
    if k == 0 {
      assert xs[k := x][1..] == xs[1..];
    } else {
      assert xs[k := x][1..] == xs[1..][k - 1 := x];
      SumUpdate(xs[1..], k - 1, x);
    }
  }

  lemma {:induction false} SumConstant(xs: seq<int>, c: int)
    requires forall i :: 0 <= i < |xs| ==> xs[i] == c
    ensures Sum(xs) == |xs| * c
  {
    if xs != [] {
      SumConstant(xs[1..], c);
      assert |xs| * c == c + (|xs| - 1) * c;
    }
  }

  /** The numbers below `n`: the threads of a program that starts `n` of them. */
  function Below(n: nat): (s: set<nat>)
    ensures forall i: nat :: i in s <==> i < n
    ensures |s| == n
  {
    if n == 0 then {} else Below(n - 1) + {n - 1}
  }

  lemma BelowFull(n: nat, s: set<nat>)
    requires s <= Below(n)
    ensures |s| <= n
    ensures |s| == n <==> s == Below(n)
  {
    var rest := Below(n) - s;
    assert Below(n) == s + rest;
    assert |Below(n)| == |s| + |rest|;
    if |s| == n {
      assert rest == {};
    }
  }

  lemma OneMore(before: set<nat>, after: set<nat>, x: nat)
    requires x !in before
    requires forall i: nat :: i in after <==> i in before || i == x
    ensures |after| == |before| + 1
  {
    assert after == before + {x};
  }

  lemma Member<T>(s: set<T>) returns (x: T)
    requires s != {}
    ensures x in s
  {
    x :| x in s;
  }

  lemma SubsetSize<T>(a: set<T>, b: set<T>)
    requires a <= b
    ensures |a| <= |b|
    ensures |a| == |b| ==> a == b
  {
    assert b == a + (b - a);
    assert |b| == |a| + |b - a|;
  }

  /** Quotient and remainder of the successor. */
  lemma DivModSucc(x: nat, m: nat)
    requires m >= 2
    ensures x % m == m - 1 ==> (x + 1) % m == 0 && (x + 1) / m == x / m + 1
    ensures x % m != m - 1 ==> (x + 1) % m == x % m + 1 && (x + 1) / m == x / m
  {
    var q, r := x / m, x % m;
    assert x == q * m + r;
    if r == m - 1 {
      assert x + 1 == (q + 1) * m;
      DivModUnique(x + 1, m, q + 1, 0);
    } else {
      DivModUnique(x + 1, m, q, r + 1);
    }
  }

  lemma DivModUnique(x: nat, m: nat, q: nat, r: nat)
    requires m >= 1 && r < m && x == q * m + r
    ensures x / m == q && x % m == r
  {
    var q', r' := x / m, x % m;
    assert (q - q') * m == r' - r by {
      assert x == q' * m + r';
      assert (q - q') * m == q * m - q' * m;
    }
    if q != q' {
      MultipleIsLarge(q - q', m);
    }
  }

  lemma MultipleIsLarge(d: int, m: int)
    requires d != 0 && m >= 1
    ensures d * m >= m || d * m <= -m
  {
    if d >= 1 {
      MultipleAtLeast(d, m);
    } else {
      MultipleAtLeast(-d, m);
      assert (-d) * m == -(d * m);
    }
  }

  lemma MultipleAtLeast(d: int, m: int)
    requires d >= 1 && m >= 1
    ensures d * m >= m
  {
    assert d * m == (d - 1) * m + m;
  }
}
