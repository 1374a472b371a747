/** Balanced strings of ( ) and [ ], by a grammar and by a stack. */
module Brackets {
  import opened Prelude

  predicate Opener(c: char) { c == '(' || c == '[' }

  predicate Closer(c: char) { c == ')' || c == ']' }

  /** The opener a closer matches, as in tr/\)\]/\(\[/. */
  function Open(c: char): char { if c == ')' then '(' else if c == ']' then '[' else c }

  function Close(c: char): char { if c == '(' then ')' else if c == '[' then ']' else c }

  /** Derivations of the grammar  B ::= empty | ( B ) B | [ B ] B. */
  datatype Derivation = Empty | Nest(opener: char, inner: Derivation, next: Derivation)

  ghost predicate WellFormed(d: Derivation) {
    d.Nest? ==> Opener(d.opener) && WellFormed(d.inner) && WellFormed(d.next)
  }

  ghost function Yield(d: Derivation): string {
    match d
    case Empty => ""
    case Nest(o, inner, next) => [o] + Yield(inner) + [Close(o)] + Yield(next)
  }

  ghost predicate Balanced(s: string) {
    exists d :: WellFormed(d) && Yield(d) == s
  }

  /** `s` is the beginning of a balanced string. */
  ghost predicate Viable(s: string) {
    exists rest :: Balanced(s + rest)
  }

  /** One character of the stack machine; the top of the stack is its last element. */
  ghost function Push(stack: string, c: char): Option<string> {
    if Opener(c) then Some(stack + [c])
    else if Closer(c) && stack != [] && stack[|stack| - 1] == Open(c) then Some(stack[..|stack| - 1])
    else None
  }

  ghost function Scan(stack: string, s: string): Option<string>
    decreases |s|
  {
    if s == [] then Some(stack)
    else match Push(stack, s[0])
      case None => None
      case Some(next) => Scan(next, s[1..])
  }

  lemma {:induction false} ScanConcat(stack: string, a: string, b: string)
    ensures Scan(stack, a + b) == match Scan(stack, a) case None => None case Some(mid) => Scan(mid, b)
    decreases |a|
  {
    if a == [] {
      assert a + b == b;
    } else {
      assert (a + b)[1..] == a[1..] + b;
      match Push(stack, a[0]) {
        case None =>
        case Some(next) => ScanConcat(next, a[1..], b);
      }
    }
  }

  lemma ScanOne(stack: string, a: string, c: char)
    requires Scan([], a) == Some(stack)
    ensures Scan([], a + [c]) == Push(stack, c)
  {
    ScanConcat([], a, [c]);
    ScanSingle(stack, c);
  }

  /** A balanced string leaves any stack as it was. */
  lemma {:induction false} ScanYield(stack: string, d: Derivation)
    requires WellFormed(d)
    ensures Scan(stack, Yield(d)) == Some(stack)
    decreases d
  {
    if d.Nest? {
      ScanYield(stack + [d.opener], d.inner);
      ScanYield(stack, d.next);
      ScanNest(stack, d.opener, Yield(d.inner), Yield(d.next));
    }
  }

  lemma ScanNest(stack: string, o: char, inner: string, next: string)
    requires Opener(o)
    requires Scan(stack + [o], inner) == Some(stack + [o]) && Scan(stack, next) == Some(stack)
    ensures Scan(stack, [o] + inner + [Close(o)] + next) == Some(stack)
  {
    var c := Close(o);
    assert [o] + inner + [c] + next == [o] + (inner + ([c] + next));
    ScanSingle(stack, o);
    ScanSingle(stack + [o], c);
    assert (stack + [o])[..|stack|] == stack;
    ScanConcat(stack, [o], inner + ([c] + next));
    ScanConcat(stack + [o], inner, [c] + next);
    ScanConcat(stack + [o], [c], next);
  }

  lemma ScanSingle(stack: string, c: char)
    ensures Scan(stack, [c]) == Push(stack, c)
  {
    assert forall next :: Scan(next, [c][1..]) == Some(next);
  }

  /** What takes `stack` away: a balanced string, the closer of the top, a balanced string, and so on. */
  ghost function Unwind(stack: string, parts: seq<Derivation>): string
    requires |parts| == |stack| + 1
    decreases |stack|, 1
  {
    Yield(parts[0]) + UnwindRest(stack, parts[1..])
  }

  ghost function UnwindRest(stack: string, parts: seq<Derivation>): string
    requires |parts| == |stack|
    decreases |stack|, 0
  {
    if stack == [] then [] else [Close(stack[|stack| - 1])] + Unwind(stack[..|stack| - 1], parts)
  }

  ghost predicate AllWellFormed(parts: seq<Derivation>) {
    forall i :: 0 <= i < |parts| ==> WellFormed(parts[i])
  }

  lemma {:induction false} Parse(stack: string, s: string) returns (parts: seq<Derivation>)
    requires forall i :: 0 <= i < |stack| ==> Opener(stack[i])
    requires Scan(stack, s) == Some([])
    ensures |parts| == |stack| + 1 && AllWellFormed(parts) && Unwind(stack, parts) == s
    decreases |s|
  {
    if s == [] {
      parts := [Empty];
    } else if Opener(s[0]) {
      var inner := Parse(stack + [s[0]], s[1..]);
      assert (stack + [s[0]])[..|stack|] == stack;
      parts := [Nest(s[0], inner[0], inner[1])] + inner[2..];
      UnwindNest(stack, s[0], inner, parts);
      assert s == [s[0]] + s[1..];
    } else {
      var top := |stack| - 1;
      var rest := Parse(stack[..top], s[1..]);
      parts := [Empty] + rest;
      assert parts[1..] == rest;
      assert s == [s[0]] + s[1..];
    }
  }

  lemma Regroup(o: string, a: string, c: string, b: string, x: string)
    ensures (o + a + c + b) + x == o + (a + c + (b + x))
  {
  }

  /** A nest in front of what unwinds the stack unwinds the stack with the opener on top. */
  lemma UnwindNest(stack: string, o: char, inner: seq<Derivation>, parts: seq<Derivation>)
    requires Opener(o) && |inner| == |stack| + 2 && |parts| == |stack| + 1
    requires parts[0] == Nest(o, inner[0], inner[1]) && parts[1..] == inner[1..][1..]
    ensures Unwind(stack, parts) == [o] + Unwind(stack + [o], inner)
  {
    var a, c, b := Yield(inner[0]), [Close(o)], Yield(inner[1]);
    UnwindPushed(stack, o, inner);
    Regroup([o], a, c, b, UnwindRest(stack, parts[1..]));
  }

  lemma UnwindPushed(stack: string, o: char, inner: seq<Derivation>)
    requires |inner| == |stack| + 2
    ensures Unwind(stack + [o], inner) == Yield(inner[0]) + [Close(o)] + Unwind(stack, inner[1..])
  {
    assert (stack + [o])[..|stack|] == stack;
    Regroup([], Yield(inner[0]), [Close(o)], [], Unwind(stack, inner[1..]));
  }

  /** The stack machine recognises the grammar. */
  lemma BalancedIffScan(s: string)
    ensures Balanced(s) <==> Scan([], s) == Some([])
  {
    if Balanced(s) {
      var d :| WellFormed(d) && Yield(d) == s;
      ScanYield([], d);
    }
    if Scan([], s) == Some([]) {
      var parts := Parse([], s);
      assert WellFormed(parts[0]) && Yield(parts[0]) == s;
    }
  }

  lemma {:induction false} ScanStackOpeners(stack: string, s: string)
    requires forall i :: 0 <= i < |stack| ==> Opener(stack[i])
    ensures Scan(stack, s).Some? ==> forall i :: 0 <= i < |Scan(stack, s).value| ==> Opener(Scan(stack, s).value[i])
    decreases |s|
  {
    if s != [] && Push(stack, s[0]).Some? {
      ScanStackOpeners(Push(stack, s[0]).value, s[1..]);
    }
  }

  lemma {:induction false} CloseAll(stack: string) returns (rest: string)
    requires forall i :: 0 <= i < |stack| ==> Opener(stack[i])
    ensures Scan(stack, rest) == Some([])
    decreases |stack|
  {
    if stack == [] {
      rest := [];
    } else {
      var top := |stack| - 1;
      var below := CloseAll(stack[..top]);
      rest := [Close(stack[top])] + below;
      assert rest[1..] == below;
    }
  }

  /** It fails exactly when no continuation can make the string balanced. */
  lemma ViableIffScan(s: string)
    ensures Viable(s) <==> Scan([], s).Some?
  {
    if Viable(s) {
      var rest :| Balanced(s + rest);
      BalancedIffScan(s + rest);
      ScanConcat([], s, rest);
    }
    if Scan([], s).Some? {
      ScanStackOpeners([], s);
      var rest := CloseAll(Scan([], s).value);
      ScanConcat([], s, rest);
      BalancedIffScan(s + rest);
    }
  }
}
