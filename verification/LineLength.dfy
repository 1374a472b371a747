/** The line-length check of cstyle: a quick test that counts each tab as 7 extra columns, then the
    exact length after tabs have been expanded a run at a time. */
module LineLength {

  const LIMIT := 80

  function Spaces(n: nat): (r: string)
    ensures |r| == n
    ensures '\t' !in r
  {
    seq(n, i => ' ')
  }

  /** One tab at a time: from column `col` a tab goes to the next multiple of 8. */
  function Expand(s: string, col: nat): string
    decreases |s|
  {
    if s == [] then []
    else if s[0] == '\t' then Spaces(8 - col % 8) + Expand(s[1..], col + 8 - col % 8)
    else [s[0]] + Expand(s[1..], col + 1)
  }

  function Tabs(s: string): nat {
    if s == [] then 0 else (if s[0] == '\t' then 1 else 0) + Tabs(s[1..])
  }

  lemma {:induction false} ExpandConcat(a: string, b: string, col: nat)
    ensures Expand(a + b, col) == Expand(a, col) + Expand(b, col + |Expand(a, col)|)
    decreases |a|
  {
    if a == [] {
      assert a + b == b;
    } else {
      assert (a + b)[1..] == a[1..] + b;
      ExpandConcat(a[1..], b, if a[0] == '\t' then col + 8 - col % 8 else col + 1);
    }
  }

  lemma {:induction false} ExpandNoTabs(s: string, col: nat)
    requires '\t' !in s
    ensures Expand(s, col) == s
    decreases |s|
  {
    if s != [] {
      ExpandNoTabs(s[1..], col + 1);
    }
  }

  function Run(n: nat): (r: string)
    ensures |r| == n
    ensures forall i :: 0 <= i < n ==> r[i] == '\t'
  {
    seq(n, i => '\t')
  }

  /** A whole run of tabs becomes length * 8 - column % 8 spaces. */
  lemma {:induction false} ExpandRun(n: nat, col: nat)
    requires n >= 1
    ensures Expand(Run(n), col) == Spaces(n * 8 - col % 8)
    decreases n
  {
    assert Run(n)[1..] == Run(n - 1);
    var next := col + 8 - col % 8;
    assert next % 8 == 0;
    if n == 1 {
      assert Expand(Run(1), col) == Spaces(8 - col % 8) + [];
    } else {
      ExpandRun(n - 1, next);
      assert Spaces(8 - col % 8) + Spaces((n - 1) * 8) == Spaces(n * 8 - col % 8);
    }
  }

  /** Replacing the first run of tabs does not change what the line expands to. */
  lemma ReplaceRun(before: string, n: nat, after: string)
    requires '\t' !in before && n >= 1
    ensures Expand(before + Run(n) + after, 0) == Expand(before + Spaces(n * 8 - |before| % 8) + after, 0)
  {
    var spaces := Spaces(n * 8 - |before| % 8);
    ExpandConcat(before + Run(n), after, 0);
    ExpandConcat(before, Run(n), 0);
    ExpandNoTabs(before, 0);
    ExpandRun(n, |before|);
    ExpandConcat(before + spaces, after, 0);
    ExpandConcat(before, spaces, 0);
    ExpandNoTabs(spaces, |before|);
  }

  lemma {:induction false} TabsConcat(a: string, b: string)
    ensures Tabs(a + b) == Tabs(a) + Tabs(b)
    decreases |a|
  {
    if a == [] {
      assert a + b == b;
    } else {
      assert (a + b)[1..] == a[1..] + b;
      TabsConcat(a[1..], b);
    }
  }

  lemma {:induction false} NoTabs(s: string)
    ensures Tabs(s) == 0 <==> '\t' !in s
    decreases |s|
  {
    if s != [] {
      NoTabs(s[1..]);
      assert s == [s[0]] + s[1..];
    }
  }

  lemma RunReplacedLowersTabs(before: string, n: nat, after: string, spaces: nat)
    requires n >= 1
    ensures Tabs(before + Spaces(spaces) + after) < Tabs(before + Run(n) + after)
  {
    TabsConcat(before + Spaces(spaces), after);
    TabsConcat(before, Spaces(spaces));
    TabsConcat(before + Run(n), after);
    TabsConcat(before, Run(n));
    NoTabs(Spaces(spaces));
    NoTabs(Run(n));
    assert Run(n)[0] in Run(n);
  }

  /** line[start..end] is what the pattern /\t+/ finds: the first run of tabs, empty if there is none. */
  ghost predicate FirstRun(line: string, start: nat, end: nat) {
    && start <= end <= |line|
    && '\t' !in line[..start]
    && line[start..end] == Run(end - start)
    && (start == end <==> '\t' !in line)
  }

  method FindRun(line: string) returns (start: nat, end: nat)
    ensures FirstRun(line, start, end)
    ensures start < end < |line| ==> line[end] != '\t'
  {
    start := 0;
    while start < |line| && line[start] != '\t'
      invariant start <= |line|
      invariant forall i :: 0 <= i < start ==> line[i] != '\t'
    {
      start := start + 1;
    }
    end := start;
    while end < |line| && line[end] == '\t'
      invariant start <= end <= |line|
      invariant forall i :: start <= i < end ==> line[i] == '\t'
    {
      end := end + 1;
    }
  }

  /** What one substitution does. */
  lemma Substitution(line: string, start: nat, end: nat)
    requires FirstRun(line, start, end) && start < end
    ensures var next := line[..start] + Spaces((end - start) * 8 - start % 8) + line[end..];
            Expand(next, 0) == Expand(line, 0) && Tabs(next) < Tabs(line)
  {
    var before, n, after := line[..start], end - start, line[end..];
    assert line == before + Run(n) + after;
    ReplaceRun(before, n, after);
    RunReplacedLowersTabs(before, n, after, n * 8 - start % 8);
  }

  /** The loop of substitutions: it ends, and gives what one tab at a time gives. */
  method ExpandTabs(line: string) returns (eline: string)
    ensures eline == Expand(line, 0)
    ensures '\t' !in eline
  {
    eline := line;
    var start, end := FindRun(eline);
    while start < end
      invariant FirstRun(eline, start, end)
      invariant Expand(eline, 0) == Expand(line, 0)
      decreases Tabs(eline)
    {
      Substitution(eline, start, end);
      eline := eline[..start] + Spaces((end - start) * 8 - start % 8) + eline[end..];
      start, end := FindRun(eline);
    }
    ExpandNoTabs(eline, 0);
  }

  /** Each tab adds at most 7 columns. */
  lemma {:induction false} ExpandLength(s: string, col: nat)
    ensures |s| <= |Expand(s, col)| <= |s| + 7 * Tabs(s)
    decreases |s|
  {
    if s != [] {
      ExpandLength(s[1..], if s[0] == '\t' then col + 8 - col % 8 else col + 1);
    }
  }

  lemma ExpandedStops(a: string, b: string)
    ensures |Expand(a + "\t" + b, 0)| == (|Expand(a, 0)| / 8 + 1) * 8 + |Expand(b, (|Expand(a, 0)| / 8 + 1) * 8)|
  {
    ExpandConcat(a + "\t", b, 0);
    ExpandConcat(a, "\t", 0);
    assert "\t"[1..] == [];
  }

  method CountTabs(line: string) returns (n: nat)
    ensures n == Tabs(line)
  {
    n := 0;
    for i := 0 to |line|
      invariant n == Tabs(line[..i])
    {
      assert line[..i + 1] == line[..i] + [line[i]];
      TabsConcat(line[..i], [line[i]]);
      if line[i] == '\t' {
        n := n + 1;
      }
    }
    assert line[..|line|] == line;
  }

  /** The check: the quick test never hides a line that is too long. */
  method TooLong(line: string) returns (err: bool)
    ensures err <==> |Expand(line, 0)| > 80
  {
    ExpandLength(line, 0);
    err := false;
    var tabs := CountTabs(line);
    if tabs * 7 + |line| > LIMIT {
      var eline := ExpandTabs(line);
      err := |eline| > LIMIT;
    }
  }
}
