/** Exactly when a continuation ends and what is reported, and what the checker makes of a file of
    statements. */
module ContinuationStatements {
  import opened Prelude
  import opened Brackets
  import opened ContinuationChecker
  import opened ContinuationTheorems

  // ---- one token ----

  /** What has been consumed when the token has been. */
  function After(s: State, c: char): string {
    if IsParen(c) then s.consumed + [c] else s.consumed
  }

  /** What a token leaves possible: a balanced string after it, and whether what has been consumed is
      balanced before it and after it. */
  datatype Reading = Reading(viable: bool, before: bool, after: bool)

  ghost function Read(s: State, c: char): Reading {
    Reading(Viable(After(s, c)), Balanced(s.consumed), Balanced(After(s, c)))
  }

  /** The tokens that end an open continuation: a closer after which no balanced string is possible; the
      closer that balances an if, for, while or switch when the line has only a brace or a semicolon left,
      or a macro call when it has nothing left; a semicolon that ends a plain statement and the line; an
      opening brace; a closing brace unless a condition or a while or else follows; the colon of a case. */
  predicate EndsAs(s: State, t: Token, r: Reading) {
    || !r.viable
    || (Closer(t.c) && r.after
        && if s.special then t.rest.braceOrEnd || t.rest.onlySemicolon else s.macro && t.rest.empty)
    || (t.c == ';' && !s.caseLabel && !s.special && t.rest.empty)
    || t.c == '{'
    || (t.c == '}' && !s.special && !t.rest.whileOrElse)
    || (t.c == ':' && s.caseLabel && r.before)
  }

  function If(cond: bool, e: Error): seq<Error> { if cond then [e] else [] }

  /** A second segment of a continuation ends on a line that is not its first one. */
  predicate TooMany(s: State) { !s.first && s.multiseg == 1 }

  /** The innermost unmatched opener, if there is one. */
  function Innermost(s: State): char {
    if s.paren == [] then ' ' else s.paren[|s.paren| - 1]
  }

  /** What is reported at a token. */
  function ReportsAs(s: State, t: Token, r: Reading): seq<Error> {
    if !r.viable then
      [if r.before then UnexpectedCloser(t.c) else Mismatched(t.c, Innermost(s))]
    else if Closer(t.c) && r.after && s.special && !t.rest.braceOrEnd then
      if t.rest.onlySemicolon then [EmptyBody] else If(TooMany(s), ManyStatements)
    else if t.c == ';' then
      if s.caseLabel then [UnexpectedSemicolon]
      else if s.special then []
      else If(!r.before, UnexpectedSemicolon) + If(TooMany(s), ManyStatements)
           + If(!t.rest.empty && t.rest.saysSpecial, NotStarted)
    else if t.c == '{' then
      If(!r.before, OpenInParens) + If(t.rest.nonBlank, StuffAfterOpen)
    else if t.c == '}' then
      If(!r.before, CloseInParens)
      + If(!s.special && !t.rest.whileOrElse, if t.rest.empty then UnexpectedClose else StuffAfterClose)
    else
      If(t.c == ':' && s.caseLabel && r.before && !t.rest.caseEnd, StuffAfterCase)
  }

  /** A section of the continuation ends and another begins, of the kind that the rest of the line says. */
  predicate NewSectionAs(s: State, t: Token, r: Reading) {
    || (Closer(t.c) && r.after && s.special && !t.rest.braceOrEnd && !t.rest.onlySemicolon)
    || (t.c == ';' && !s.caseLabel && !s.special && !t.rest.empty)
  }

  /** A segment of the continuation ends: a plain statement, or the parentheses of an if, for, while or
      switch with more on the line. */
  predicate SegmentEndsAs(s: State, t: Token, r: Reading) {
    || (Closer(t.c) && r.after && s.special && !t.rest.braceOrEnd && !t.rest.onlySemicolon)
    || (t.c == ';' && !s.caseLabel && !s.special)
  }

  predicate SameKind(s: State, s': State) {
    s'.special == s.special && s'.macro == s.macro && s'.caseLabel == s.caseLabel
  }

  /** `multiseg` says whether a segment has ended, and whether too many have been reported. */
  predicate SegmentsCounted(s: State, s': State, ends: bool) {
    && s'.first == s.first && s'.noErr == s.noErr && s'.contOff == s.contOff
    && s'.multiseg == if ends && TooMany(s) then 2 else if ends && s.multiseg == 0 then 1 else s.multiseg
  }

  /** From `s` to `s'` the token has done exactly that. */
  predicate Exact(s: State, s': State, t: Token, r: Reading) {
    && (s'.contIn <==> !EndsAs(s, t, r))
    && s'.errors == s.errors + ReportsAs(s, t, r)
    && (if NewSectionAs(s, t, r) then s'.special == t.rest.special && s'.macro == t.rest.macro && !s'.caseLabel
        else SameKind(s, s'))
    && SegmentsCounted(s, s', SegmentEndsAs(s, t, r))
  }

  /** An open continuation, as it is in every reachable state. */
  ghost predicate Tracked(s: State) {
    s.contIn && Scan([], s.consumed) == Some(s.paren)
  }

  /** The reading, told by the stack. */
  ghost function ByStack(s: State, c: char): Reading {
    var next := if IsParen(c) then Push(s.paren, c) else Some(s.paren);
    Reading(next.Some?, s.paren == [], next == Some([]))
  }

  lemma ReadByStack(s: State, c: char)
    requires Tracked(s)
    ensures Read(s, c) == ByStack(s, c)
  {
    BalancedIffScan(s.consumed);
    ViableIffScan(s.consumed);
    ScanOne(s.paren, s.consumed, c);
    BalancedIffScan(After(s, c));
    ViableIffScan(After(s, c));
  }

  lemma OpenerExact(s: State, t: Token)
    requires s.contIn && Opener(t.c)
    ensures Exact(s, Consume(s, t), t, ByStack(s, t.c))
  {
    assert |s.paren + [t.c]| > 0;
  }

  lemma PoppedExact(s: State, r: Rest)
    requires s.contIn
    ensures var s' := Popped(s, r);
            && s'.contIn == (s.paren != []
                             || !(if s.special then r.braceOrEnd || r.onlySemicolon else s.macro && r.empty))
            && s'.errors == s.errors + (if s.paren != [] || !s.special || r.braceOrEnd then []
                                        else if r.onlySemicolon then [EmptyBody] else If(TooMany(s), ManyStatements))
            && (if s.paren == [] && s.special && !r.braceOrEnd && !r.onlySemicolon then
                  s'.special == r.special && s'.macro == r.macro && !s'.caseLabel
                else SameKind(s, s'))
            && SegmentsCounted(s, s', s.paren == [] && s.special && !r.braceOrEnd && !r.onlySemicolon)
  {
  }

  lemma MatchedExact(s: State, t: Token)
    requires s.contIn && Closer(t.c) && Push(s.paren, t.c).Some?
    ensures Exact(s, Consume(s, t), t, ByStack(s, t.c))
  {
    PoppedExact(Moved(s, t.c), t.rest);
  }

  lemma UnmatchedExact(s: State, t: Token)
    requires s.contIn && Closer(t.c) && Push(s.paren, t.c).None?
    ensures Exact(s, Consume(s, t), t, ByStack(s, t.c))
  {
    UnmatchedCloser(s, t);
  }

  lemma CloserExact(s: State, t: Token)
    requires s.contIn && Closer(t.c)
    ensures Exact(s, Consume(s, t), t, ByStack(s, t.c))
  {
    if Push(s.paren, t.c).Some? {
      MatchedExact(s, t);
    } else {
      UnmatchedExact(s, t);
    }
  }

  lemma ReportedIf(s: State, cond: bool, e: Error)
    ensures ReportIf(s, cond, e) == s.(errors := s.errors + If(cond, e))
  {
  }

  lemma SegmentExact(s: State)
    ensures Segment(s) == s.(errors := s.errors + If(TooMany(s), ManyStatements), multiseg := Segment(s).multiseg)
    ensures SegmentsCounted(s, Segment(s), true)
  {
    ReportedIf(s, TooMany(s), ManyStatements);
  }

  lemma Appended(e: seq<Error>, a: seq<Error>, b: seq<Error>, c: seq<Error>)
    ensures e + a + b == e + (a + b)
    ensures e + a + b + c == e + (a + b + c)
  {
  }

  /** A semicolon that is not inside the parentheses of a for, nor in a case. */
  lemma PlainSemicolon(s: State, r: Rest)
    requires !s.caseLabel && !s.special
    ensures AtSemicolon(s, r).errors == s.errors
            + (If(s.paren != [], UnexpectedSemicolon) + If(TooMany(s), ManyStatements)
               + If(!r.empty && r.saysSpecial, NotStarted))
    ensures AtSemicolon(s, r).contIn == (s.contIn && !r.empty)
    ensures if r.empty then SameKind(s, AtSemicolon(s, r))
            else AtSemicolon(s, r) == SectionEnded(AtSemicolon(s, r), r)
    ensures SegmentsCounted(s, AtSemicolon(s, r), true)
  {
    var a, b := If(s.paren != [], UnexpectedSemicolon), If(TooMany(s), ManyStatements);
    var reported := ReportIf(s, s.paren != [], UnexpectedSemicolon);
    var counted := Segment(reported);
    ReportedIf(s, s.paren != [], UnexpectedSemicolon);
    SegmentExact(reported);
    ReportedIf(counted, r.saysSpecial, NotStarted);
    Appended(s.errors, a, b, If(!r.empty && r.saysSpecial, NotStarted));
  }

  lemma SemicolonExact(s: State, t: Token)
    requires s.contIn && t.c == ';'
    ensures Exact(s, Consume(s, t), t, ByStack(s, t.c))
  {
    if s.caseLabel {
      ReportedIf(s, true, UnexpectedSemicolon);
    } else if !s.special {
      PlainSemicolon(s, t.rest);
    }
  }

  lemma OpenBraceErrors(s: State, r: Rest)
    ensures AtOpenBrace(s, r)
            == Leave(s.(errors := s.errors + (If(s.paren != [], OpenInParens) + If(r.nonBlank, StuffAfterOpen))))
  {
    var reported := ReportIf(s, s.paren != [], OpenInParens);
    ReportedIf(s, s.paren != [], OpenInParens);
    ReportedIf(reported, r.nonBlank, StuffAfterOpen);
    Appended(s.errors, If(s.paren != [], OpenInParens), If(r.nonBlank, StuffAfterOpen), []);
  }

  lemma OpenBraceExact(s: State, t: Token)
    requires s.contIn && t.c == '{'
    ensures Exact(s, Consume(s, t), t, ByStack(s, t.c))
  {
    OpenBraceErrors(s, t.rest);
  }

  lemma CloseBraceErrors(s: State, r: Rest)
    ensures var out := !s.special && !r.whileOrElse;
            AtCloseBrace(s, r)
            == s.(contIn := s.contIn && !out,
                  errors := s.errors + (If(s.paren != [], CloseInParens)
                                        + If(out, if r.empty then UnexpectedClose else StuffAfterClose)))
  {
    var out, e := !s.special && !r.whileOrElse, if r.empty then UnexpectedClose else StuffAfterClose;
    var reported := ReportIf(s, s.paren != [], CloseInParens);
    ReportedIf(s, s.paren != [], CloseInParens);
    ReportedIf(reported, out, e);
    Appended(s.errors, If(s.paren != [], CloseInParens), If(out, e), []);
  }

  lemma CloseBraceExact(s: State, t: Token)
    requires s.contIn && t.c == '}'
    ensures Exact(s, Consume(s, t), t, ByStack(s, t.c))
  {
    CloseBraceErrors(s, t.rest);
  }

  lemma OtherExact(s: State, t: Token)
    requires s.contIn && !IsParen(t.c) && !(t.c in ";{}")
    ensures Exact(s, Consume(s, t), t, ByStack(s, t.c))
  {
  }

  lemma TokenIsExact(s: State, t: Token)
    requires s.contIn
    ensures Exact(s, Consume(s, t), t, ByStack(s, t.c))
  {
    if Opener(t.c) {
      OpenerExact(s, t);
    } else if Closer(t.c) {
      CloserExact(s, t);
    } else if t.c == ';' {
      SemicolonExact(s, t);
    } else if t.c == '{' {
      OpenBraceExact(s, t);
    } else if t.c == '}' {
      CloseBraceExact(s, t);
    } else {
      OtherExact(s, t);
    }
  }

  lemma TrackedAt(inputs: seq<Input>, l: Line, k: nat)
    requires k <= |l.tokens| && Prepare(Process(START, inputs), l).Enter? && At(inputs, l, k).contIn
    ensures Tracked(At(inputs, l, k))
  {
    StackIsUnmatchedOpeners(inputs, l, k);
  }

  /** In every file, exactly which token ends an open continuation, what is reported at it, and of which kind
      the section after it is. */
  lemma TokenExact(inputs: seq<Input>, l: Line, k: nat)
    requires k < |l.tokens| && Prepare(Process(START, inputs), l).Enter? && At(inputs, l, k).contIn
    ensures Exact(At(inputs, l, k), At(inputs, l, k + 1), l.tokens[k], Read(At(inputs, l, k), l.tokens[k].c))
  {
    TrackedAt(inputs, l, k);
    AtNext(inputs, l, k);
    ReadByStack(At(inputs, l, k), l.tokens[k].c);
    TokenIsExact(At(inputs, l, k), l.tokens[k]);
  }

  // ---- one line ----

  /** A definition or an initializer begins or goes on: its lines are skipped. */
  predicate Skipped(s: State, l: Line) { l.blank || (s.contOff <= 0 && l.initializer) || s.contOff != 0 }

  /** The first line of a continuation. */
  predicate Begins(s: State, l: Line) {
    && s.special == l.special && s.macro == l.macro && s.caseLabel == l.caseLabel
    && s.contIn && s.first && s.multiseg == 0 && s.paren == [] && s.consumed == []
  }

  lemma BeginExact(s: State, l: Line)
    ensures Begin(s, l).s.errors == s.errors
            + (If(l.halfIndent, HalfIndented) + If(!l.complete && l.hasBrace, StuffAfterOpen))
    ensures Begin(s, l).Enter? <==> !l.complete && !l.hasBrace
    ensures Begin(s, l).Enter? ==> Begins(Begin(s, l).s, l)
    ensures Begin(s, l).s.noErr == (s.noErr || l.halfIndent) && Begin(s, l).s.contOff == s.contOff
  {
    var s' := if l.halfIndent then Report(s, HalfIndented).(noErr := true) else s;
    ReportedIf(s, l.halfIndent, HalfIndented);
    ReportedIf(s', !l.complete && l.hasBrace, StuffAfterOpen);
    Appended(s.errors, If(l.halfIndent, HalfIndented), If(!l.complete && l.hasBrace, StuffAfterOpen), []);
  }

  /** Lines skipped for a definition or an initializer are counted down by their braces. */
  lemma SkippedExact(s: State, l: Line)
    requires Skipped(s, l)
    ensures Prepare(s, l).Skip?
    ensures Prepare(s, l).s.errors == s.errors && Prepare(s, l).s.noErr == s.noErr
    ensures Prepare(s, l).s.contIn == (s.contIn && (l.blank || s.contOff > 0 || !l.initializer))
    ensures Prepare(s, l).s.contOff == if l.blank then s.contOff
                                       else if s.contOff <= 0 && l.initializer then l.braces
                                       else s.contOff + l.braces
  {
  }

  lemma GoOnExact(s: State, l: Line)
    requires !Skipped(s, l) && s.contIn
    ensures Prepare(s, l)
            == Enter(s.(first := false, errors := s.errors + If(!s.noErr && l.badIndent, NotIndented)))
  {
    ReportedIf(s.(first := false), !s.noErr && l.badIndent, NotIndented);
  }

  /** What is reported at a line before its tokens are looked at. */
  function LineReports(s: State, l: Line): seq<Error> {
    if Skipped(s, l) then []
    else if s.contIn then If(!s.noErr && l.badIndent, NotIndented)
    else If(l.halfIndent, HalfIndented) + If(!l.complete && l.hasBrace, StuffAfterOpen)
  }

  predicate LineAs(s: State, entry: Entry, l: Line) {
    && entry.s.errors == s.errors + LineReports(s, l)
    && (entry.Enter? <==> !Skipped(s, l) && (s.contIn || (!l.complete && !l.hasBrace)))
    && (entry.Enter? ==> if s.contIn then entry.s == s.(first := false, errors := entry.s.errors)
                         else Begins(entry.s, l))
    && (entry.Skip? ==> entry.s.contIn == (s.contIn && (l.blank || s.contOff > 0 || !l.initializer)))
    && entry.s.noErr == (s.noErr || (!Skipped(s, l) && !s.contIn && l.halfIndent))
    && entry.s.contOff == (if l.blank then s.contOff
                           else if s.contOff <= 0 && l.initializer then l.braces
                           else if s.contOff != 0 then s.contOff + l.braces else 0)
  }

  lemma LineIsExact(s: State, l: Line)
    ensures LineAs(s, Prepare(s, l), l)
  {
    if Skipped(s, l) {
      SkippedExact(s, l);
    } else if s.contIn {
      GoOnExact(s, l);
    } else {
      BeginExact(s, l);
    }
  }

  /** In every file, exactly what a line gets reported before its tokens are looked at, and exactly when they
      are: a line of an open continuation that is badly indented is reported as such unless a bad indentation
      has been reported before, and a line that begins a statement never is.  A line that ends a continuation
      ends that suppression as well. */
  lemma LineExact(inputs: seq<Input>, l: Line)
    ensures var s, entry := Process(START, inputs), Prepare(Process(START, inputs), l);
            && LineAs(s, entry, l)
            && (ProcessLine(s, l).noErr <==> entry.s.noErr && (entry.Enter? ==> ProcessLine(s, l).contIn))
  {
    LineIsExact(Process(START, inputs), l);
    if Prepare(Process(START, inputs), l).Enter? {
      SuppressionKept(Prepare(Process(START, inputs), l).s, l.tokens);
    }
  }

  lemma {:induction false} SuppressionKept(s: State, tokens: seq<Token>)
    ensures ConsumeAll(s, tokens).noErr == s.noErr
    decreases |tokens|
  {
    if tokens != [] && s.contIn {
      TokenIsExact(s, tokens[0]);
      SuppressionKept(Consume(s, tokens[0]), tokens[1..]);
    }
  }

  // ---- a file of statements ----

  function Chars(tokens: seq<Token>): string {
    seq(|tokens|, i requires 0 <= i < |tokens| => tokens[i].c)
  }

  predicate AllParens(tokens: seq<Token>) {
    forall i :: 0 <= i < |tokens| ==> IsParen(tokens[i].c)
  }

  /** The parentheses and brackets of the first `k` lines of a statement. */
  function Parens(lines: seq<Line>, k: nat): string
    requires k <= |lines|
  {
    if k == 0 then [] else Parens(lines, k - 1) + ParensOf(lines, k - 1)
  }

  /** Those of one line: all its tokens, but for the semicolon that ends the last one. */
  function ParensOf(lines: seq<Line>, i: nat): string
    requires i < |lines|
  {
    Chars(if i == |lines| - 1 then Inside(lines[i].tokens) else lines[i].tokens)
  }

  /** All tokens but the last. */
  function Inside(tokens: seq<Token>): seq<Token> {
    if tokens == [] then [] else tokens[..|tokens| - 1]
  }

  /** A line that begins a plain statement which is not complete, and not a definition. */
  predicate BeginsPlain(l: Line) {
    && !l.blank && !l.initializer && !l.halfIndent && !l.complete && !l.hasBrace
    && !l.special && !l.macro && !l.caseLabel
  }

  /** A plain statement over one or more lines: balanced parentheses and brackets, and a semicolon at the end
      of the last line. */
  ghost predicate Statement(lines: seq<Line>) {
    && lines != []
    && BeginsPlain(lines[0])
    && (forall i :: 0 <= i < |lines| ==> !lines[i].blank && !lines[i].initializer)
    && (forall i :: 0 <= i < |lines| - 1 ==> AllParens(lines[i].tokens))
    && (var last := lines[|lines| - 1].tokens;
        && last != [] && AllParens(Inside(last))
        && last[|last| - 1].c == ';' && last[|last| - 1].rest.empty)
    && Balanced(Parens(lines, |lines|))
  }

  /** The lines that are to be reported: those after the first one that are not indented as they should be. */
  function BadLines(lines: seq<Line>, k: nat): seq<Error>
    requires k <= |lines|
  {
    if k <= 1 then [] else BadLines(lines, k - 1) + If(lines[k - 1].badIndent, NotIndented)
  }

  lemma {:induction false} ConsumeParens(s: State, tokens: seq<Token>)
    requires s.contIn && !s.special && !s.macro && AllParens(tokens)
    requires Scan(s.paren, Chars(tokens)).Some?
    ensures ConsumeAll(s, tokens)
            == s.(paren := Scan(s.paren, Chars(tokens)).value, consumed := s.consumed + Chars(tokens))
    decreases |tokens|
  {
    if tokens == [] {
      assert s.consumed + Chars(tokens) == s.consumed;
    } else {
      var c, rest := tokens[0].c, tokens[1..];
      assert Chars(tokens)[0] == c && Chars(tokens)[1..] == Chars(rest);
      assert Chars(tokens) == [c] + Chars(rest);
      var next := Consume(s, tokens[0]);
      assert next == Moved(s, c);
      ConsumeParens(next, rest);
      assert s.consumed + [c] + Chars(rest) == s.consumed + Chars(tokens);
    }
  }

  /** Inside a plain statement, after the parentheses and brackets `parens`, with `errors` reported so far. */
  ghost predicate Within(s: State, parens: string, errors: seq<Error>) {
    && s.contIn && s.contOff == 0 && !s.noErr
    && !s.special && !s.macro && !s.caseLabel && s.multiseg == 0
    && s.consumed == parens && Scan([], parens) == Some(s.paren)
    && s.errors == errors
  }

  /** Between two statements. */
  ghost predicate Between(s: State, errors: seq<Error>) {
    !s.contIn && s.contOff == 0 && !s.noErr && s.errors == errors
  }

  lemma ScanPrefix(a: string, b: string)
    requires Scan([], a + b).Some?
    ensures Scan([], a).Some? && Scan(Scan([], a).value, b).Some?
    ensures Scan([], a + b) == Scan(Scan([], a).value, b)
  {
    ScanConcat([], a, b);
  }

  lemma ParensInside(s: State, parens: string, errors: seq<Error>, tokens: seq<Token>)
    requires Within(s, parens, errors) && AllParens(tokens)
    requires Scan([], parens + Chars(tokens)).Some?
    ensures Within(ConsumeAll(s, tokens), parens + Chars(tokens), errors)
  {
    ScanPrefix(parens, Chars(tokens));
    ConsumeParens(s, tokens);
  }

  lemma LastTokens(s: State, parens: string, errors: seq<Error>, tokens: seq<Token>)
    requires Within(s, parens, errors) && tokens != [] && AllParens(Inside(tokens))
    requires tokens[|tokens| - 1].c == ';' && tokens[|tokens| - 1].rest.empty
    requires Scan([], parens + Chars(Inside(tokens))) == Some([])
    ensures Between(ConsumeAll(s, tokens), errors)
  {
    var inside, semi := Inside(tokens), tokens[|tokens| - 1];
    ParensInside(s, parens, errors, inside);
    assert tokens == inside + [semi];
    ConsumeLast(s, inside, semi);
    var before := ConsumeAll(s, inside);
    assert before.paren == [];
  }

  function Texts(lines: seq<Line>): seq<Input> {
    seq(|lines|, i requires 0 <= i < |lines| => Text(lines[i]))
  }

  lemma ProcessNext(inputs: seq<Input>, l: Line)
    ensures Process(START, inputs + [Text(l)]) == ProcessLine(Process(START, inputs), l)
  {
    assert (inputs + [Text(l)])[..|inputs|] == inputs;
  }

  lemma TextsNext(inputs: seq<Input>, lines: seq<Line>, k: nat)
    requires k < |lines|
    ensures inputs + Texts(lines[..k + 1]) == inputs + Texts(lines[..k]) + [Text(lines[k])]
  {
  }

  lemma FirstLine(s: State, l: Line, errors: seq<Error>)
    requires Between(s, errors) && BeginsPlain(l)
    ensures Prepare(s, l).Enter? && Within(Prepare(s, l).s, [], errors)
  {
  }

  lemma NextLine(s: State, l: Line, parens: string, errors: seq<Error>)
    requires Within(s, parens, errors) && !l.blank && !l.initializer
    ensures Prepare(s, l).Enter? && Within(Prepare(s, l).s, parens, errors + If(l.badIndent, NotIndented))
  {
    ReportedIf(s.(first := false), l.badIndent, NotIndented);
  }

  /** Before the tokens of the line `k` of a statement. */
  ghost predicate Entered(s: State, lines: seq<Line>, k: nat, errors: seq<Error>)
    requires k < |lines|
  {
    && Prepare(s, lines[k]).Enter?
    && Within(Prepare(s, lines[k]).s, Parens(lines, k), errors + BadLines(lines, k + 1))
  }

  lemma {:induction false} ParensGrow(lines: seq<Line>, k: nat, n: nat)
    requires k <= n <= |lines|
    ensures Parens(lines, k) <= Parens(lines, n)
    decreases n
  {
    if k < n {
      ParensGrow(lines, k, n - 1);
    }
  }

  lemma ParensPrefix(lines: seq<Line>, k: nat)
    requires k <= |lines| && Scan([], Parens(lines, |lines|)).Some?
    ensures Scan([], Parens(lines, k)).Some?
  {
    ParensGrow(lines, k, |lines|);
    ScanOfPrefix(Parens(lines, k), Parens(lines, |lines|));
  }

  lemma ScanOfPrefix(a: string, whole: string)
    requires a <= whole && Scan([], whole).Some?
    ensures Scan([], a).Some?
  {
    assert whole == a + whole[|a|..];
    ScanPrefix(a, whole[|a|..]);
  }

  lemma InnerLine(s: State, lines: seq<Line>, k: nat, errors: seq<Error>)
    requires Statement(lines) && k < |lines| - 1 && Entered(s, lines, k, errors)
    ensures Within(ProcessLine(s, lines[k]), Parens(lines, k + 1), errors + BadLines(lines, k + 1))
  {
    BalancedIffScan(Parens(lines, |lines|));
    ParensPrefix(lines, k + 1);
    ParensInside(Prepare(s, lines[k]).s, Parens(lines, k), errors + BadLines(lines, k + 1), lines[k].tokens);
  }

  lemma LastLine(s: State, lines: seq<Line>, errors: seq<Error>)
    requires Statement(lines) && Entered(s, lines, |lines| - 1, errors)
    ensures Between(ProcessLine(s, lines[|lines| - 1]), errors + BadLines(lines, |lines|))
  {
    var last := |lines| - 1;
    BalancedIffScan(Parens(lines, |lines|));
    LastTokens(Prepare(s, lines[last]).s, Parens(lines, last), errors + BadLines(lines, |lines|), lines[last].tokens);
  }

  lemma EnteredNext(s: State, lines: seq<Line>, k: nat, errors: seq<Error>)
    requires Statement(lines) && 0 < k < |lines| && Entered(s, lines, k - 1, errors)
    ensures Entered(ProcessLine(s, lines[k - 1]), lines, k, errors)
  {
    InnerLine(s, lines, k - 1, errors);
    NextLine(ProcessLine(s, lines[k - 1]), lines[k], Parens(lines, k), errors + BadLines(lines, k));
    Appended(errors, BadLines(lines, k), If(lines[k].badIndent, NotIndented), []);
  }

  /** The line `k` of a statement, in a file. */
  ghost predicate Begun(inputs: seq<Input>, lines: seq<Line>, k: nat, errors: seq<Error>)
    requires k < |lines|
  {
    Entered(Process(START, inputs + Texts(lines[..k])), lines, k, errors)
  }

  lemma StatementBegins(inputs: seq<Input>, lines: seq<Line>, errors: seq<Error>)
    requires Between(Process(START, inputs), errors) && Statement(lines)
    ensures Begun(inputs, lines, 0, errors)
  {
    assert inputs + Texts(lines[..0]) == inputs;
    FirstLine(Process(START, inputs), lines[0], errors);
    assert errors + BadLines(lines, 1) == errors;
  }

  lemma LineProcessed(inputs: seq<Input>, lines: seq<Line>, k: nat)
    requires 0 < k <= |lines|
    ensures Process(START, inputs + Texts(lines[..k]))
            == ProcessLine(Process(START, inputs + Texts(lines[..k - 1])), lines[k - 1])
  {
    TextsNext(inputs, lines, k - 1);
    ProcessNext(inputs + Texts(lines[..k - 1]), lines[k - 1]);
  }

  lemma StatementGoesOn(inputs: seq<Input>, lines: seq<Line>, k: nat, errors: seq<Error>)
    requires Statement(lines) && 0 < k < |lines| && Begun(inputs, lines, k - 1, errors)
    ensures Begun(inputs, lines, k, errors)
  {
    LineProcessed(inputs, lines, k);
    EnteredNext(Process(START, inputs + Texts(lines[..k - 1])), lines, k, errors);
  }

  lemma {:induction false} StatementUpTo(inputs: seq<Input>, lines: seq<Line>, k: nat, errors: seq<Error>)
    requires Between(Process(START, inputs), errors) && Statement(lines) && k < |lines|
    ensures Begun(inputs, lines, k, errors)
    decreases k
  {
    if k == 0 {
      StatementBegins(inputs, lines, errors);
    } else {
      StatementUpTo(inputs, lines, k - 1, errors);
      StatementGoesOn(inputs, lines, k, errors);
    }
  }

  lemma WholeStatement(inputs: seq<Input>, lines: seq<Line>, errors: seq<Error>)
    requires Between(Process(START, inputs), errors) && Statement(lines)
    ensures Between(Process(START, inputs + Texts(lines)), errors + BadLines(lines, |lines|))
  {
    var last := |lines| - 1;
    StatementUpTo(inputs, lines, last, errors);
    LastLine(Process(START, inputs + Texts(lines[..last])), lines, errors);
    LineProcessed(inputs, lines, last + 1);
    assert lines[..last + 1] == lines;
  }

  function FileOf(statements: seq<seq<Line>>): seq<Input>
    decreases |statements|
  {
    if statements == [] then []
    else FileOf(statements[..|statements| - 1]) + Texts(statements[|statements| - 1])
  }

  function Faults(statements: seq<seq<Line>>): seq<Error>
    decreases |statements|
  {
    if statements == [] then []
    else
      var last := statements[|statements| - 1];
      Faults(statements[..|statements| - 1]) + BadLines(last, |last|)
  }

  /** A file of plain statements gets exactly one report for each line, other than the first one of a
      statement, that is badly indented, and ends with no continuation open. */
  lemma {:induction false} FileOfStatements(statements: seq<seq<Line>>)
    requires forall i :: 0 <= i < |statements| ==> Statement(statements[i])
    ensures Between(Process(START, FileOf(statements)), Faults(statements))
    decreases |statements|
  {
    if statements != [] {
      var last := |statements| - 1;
      FileOfStatements(statements[..last]);
      WholeStatement(FileOf(statements[..last]), statements[last], Faults(statements[..last]));
    }
  }

  /** If each statement is on one line, nothing is reported, however the lines are indented. */
  lemma {:induction false} NoFaults(statements: seq<seq<Line>>)
    requires forall i :: 0 <= i < |statements| ==> |statements[i]| == 1
    ensures Faults(statements) == []
    decreases |statements|
  {
    if statements != [] {
      NoFaults(statements[..|statements| - 1]);
    }
  }

  /** The checker itself over a whole file; what it makes of a file of statements. */
  method CheckFile(inputs: seq<Input>) returns (checker: Checker)
    ensures fresh(checker) && checker.View() == Process(START, inputs)
    ensures checker.contIn ==> Scan([], checker.consumed) == Some(checker.paren)
    ensures forall statements :: inputs == FileOf(statements)
                                 && (forall i :: 0 <= i < |statements| ==> Statement(statements[i])) ==>
              && checker.errors == Faults(statements) && !checker.contIn
              && ((forall i :: 0 <= i < |statements| ==> |statements[i]| == 1) ==> checker.errors == [])
  {
    checker := new Checker();
    for i := 0 to |inputs|
      invariant fresh(checker) && checker.View() == Process(START, inputs[..i])
    {
      assert inputs[..i + 1][..i] == inputs[..i];
      match inputs[i] {
        case Reset => checker.ResetIndent();
        case Text(line) => checker.ProcessIndent(line);
      }
    }
    assert inputs[..|inputs|] == inputs;
    ProcessValid(START, inputs);
    forall statements | inputs == FileOf(statements)
                        && (forall i :: 0 <= i < |statements| ==> Statement(statements[i]))
      ensures checker.errors == Faults(statements) && !checker.contIn
      ensures (forall i :: 0 <= i < |statements| ==> |statements[i]| == 1) ==> checker.errors == []
    {
      FileOfStatements(statements);
      if forall i :: 0 <= i < |statements| ==> |statements[i]| == 1 {
        NoFaults(statements);
      }
    }
  }
}
