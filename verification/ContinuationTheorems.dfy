/** The continuation checker recognises brackets. */
module ContinuationTheorems {
  import opened Prelude
  import opened Brackets
  import opened ContinuationChecker

  /** While a continuation is open, `paren` is what a stack machine keeps of the parentheses and
      brackets consumed since it began: the unmatched openers. */
  ghost predicate Valid(s: State) {
    && (s.contIn ==> Scan([], s.consumed) == Some(s.paren))
    && (s.contOff != 0 ==> !s.contIn)
  }

  ghost predicate BracketError(e: Error) { e.UnexpectedCloser? || e.Mismatched? }

  /** No bracket error among the errors of the step. */
  ghost predicate NoBracketError(before: State, after: State) {
    && before.errors <= after.errors
    && forall i :: |before.errors| <= i < |after.errors| ==> !BracketError(after.errors[i])
  }

  /** What every token but an opener or an unmatched closer does, given the state after any push or
      pop: the stack stays, no bracket error is reported, and a clean end needs an empty stack. */
  ghost predicate Framed(before: State, after: State) {
    && after.paren == before.paren && after.consumed == before.consumed && after.contOff == before.contOff
    && NoBracketError(before, after)
    && (before.contIn && !after.contIn && after.errors == before.errors ==> after.paren == [])
  }

  lemma FramedTwice(a: State, b: State, c: State)
    requires Framed(a, b) && Framed(b, c)
    ensures Framed(a, c)
  {
  }

  lemma SectionEndedFramed(s: State, r: Rest)
    ensures Framed(s, SectionEnded(s, r))
  {
  }

  lemma ReportedFramed(s: State, cond: bool, e: Error)
    requires !BracketError(e)
    ensures Framed(s, ReportIf(s, cond, e))
    ensures cond ==> |ReportIf(s, cond, e).errors| > |s.errors|
  {
  }

  lemma SegmentFramed(s: State)
    ensures Framed(s, Segment(s)) && Segment(s).contIn == s.contIn
  {
    ReportedFramed(s, true, ManyStatements);
  }

  /** The continuation may end where the stack is empty or an error has been reported. */
  lemma LeaveFramed(s: State, s': State)
    requires Framed(s, s') && (s'.paren == [] || |s'.errors| > |s.errors|)
    ensures Framed(s, Leave(s'))
  {
  }

  /** The end of one section of a continuation. */
  lemma SectionFramed(s: State, r: Rest)
    ensures Framed(s, SectionEnded(Segment(s), r))
  {
    SegmentFramed(s);
    SectionEndedFramed(Segment(s), r);
    FramedTwice(s, Segment(s), SectionEnded(Segment(s), r));
  }

  lemma PoppedFramed(s: State, r: Rest)
    ensures Framed(s, Popped(s, r))
  {
    if s.paren == [] && s.special && !r.braceOrEnd {
      if r.onlySemicolon {
        ReportedFramed(s, true, EmptyBody);
        LeaveFramed(s, Report(s, EmptyBody));
      } else {
        SectionFramed(s, r);
      }
    }
  }

  lemma SemicolonFramed(s: State, r: Rest)
    ensures Framed(s, AtSemicolon(s, r))
  {
    if s.caseLabel {
      ReportedFramed(s, true, UnexpectedSemicolon);
    } else if !s.special {
      var reported := ReportIf(s, s.paren != [], UnexpectedSemicolon);
      var counted := Segment(reported);
      ReportedFramed(s, s.paren != [], UnexpectedSemicolon);
      SegmentFramed(reported);
      FramedTwice(s, reported, counted);
      if r.empty {
        LeaveFramed(s, counted);
      } else {
        var again := ReportIf(counted, r.saysSpecial, NotStarted);
        ReportedFramed(counted, r.saysSpecial, NotStarted);
        SectionEndedFramed(again, r);
        FramedTwice(s, counted, again);
        FramedTwice(s, again, SectionEnded(again, r));
      }
    }
  }

  lemma OpenBraceFramed(s: State, r: Rest)
    ensures Framed(s, AtOpenBrace(s, r))
  {
    var reported := ReportIf(s, s.paren != [], OpenInParens);
    var again := ReportIf(reported, r.nonBlank, StuffAfterOpen);
    ReportedFramed(s, s.paren != [], OpenInParens);
    ReportedFramed(reported, r.nonBlank, StuffAfterOpen);
    FramedTwice(s, reported, again);
    LeaveFramed(s, again);
  }

  lemma CloseBraceFramed(s: State, r: Rest)
    ensures Framed(s, AtCloseBrace(s, r))
  {
    var reported := ReportIf(s, s.paren != [], CloseInParens);
    var e := if r.empty then UnexpectedClose else StuffAfterClose;
    ReportedFramed(s, s.paren != [], CloseInParens);
    ReportedFramed(reported, true, e);
    FramedTwice(s, reported, Report(reported, e));
  }

  lemma OtherFramed(s: State, t: Token)
    requires !IsParen(t.c)
    ensures Framed(s, Consume(s, t))
  {
    if t.c == ';' {
      SemicolonFramed(s, t.rest);
    } else if t.c == '{' {
      OpenBraceFramed(s, t.rest);
    } else if t.c == '}' {
      CloseBraceFramed(s, t.rest);
    }
  }

  /** The state after the push or pop of a parenthesis that fits. */
  ghost function Moved(s: State, c: char): State
    requires IsParen(c) && Push(s.paren, c).Some?
  {
    s.(paren := Push(s.paren, c).value, consumed := s.consumed + [c])
  }

  lemma ParenFramed(s: State, t: Token)
    requires IsParen(t.c) && Push(s.paren, t.c).Some?
    ensures Framed(Moved(s, t.c), Consume(s, t))
  {
    PoppedFramed(Moved(s, t.c), t.rest);
  }

  /** An unmatched closer is reported and ends the continuation. */
  lemma UnmatchedCloser(s: State, t: Token)
    requires IsParen(t.c) && Push(s.paren, t.c).None?
    ensures var s' := Consume(s, t);
            && !s'.contIn
            && s'.contOff == s.contOff && s'.consumed == s.consumed + [t.c]
            && s'.errors == s.errors + [if s.paren == [] then UnexpectedCloser(t.c)
                                        else Mismatched(t.c, s.paren[|s.paren| - 1])]
  {
  }

  /** One token of an open continuation. */
  lemma OneToken(s: State, t: Token)
    requires Scan([], s.consumed) == Some(s.paren)
    ensures var s' := Consume(s, t);
            && s'.contOff == s.contOff
            && match Scan([], s'.consumed)
               case Some(paren) => s'.paren == paren && NoBracketError(s, s')
               case None =>
                 && !s'.contIn
                 && s'.errors == s.errors + [if s.paren == [] then UnexpectedCloser(t.c)
                                             else Mismatched(t.c, s.paren[|s.paren| - 1])]
  {
    ScanOne(s.paren, s.consumed, t.c);
    if !IsParen(t.c) {
      OtherFramed(s, t);
    } else if Push(s.paren, t.c).Some? {
      ParenFramed(s, t);
    } else {
      UnmatchedCloser(s, t);
    }
  }

  lemma ConsumeValid(s: State, t: Token)
    requires Valid(s) && s.contIn
    ensures Valid(Consume(s, t))
  {
    OneToken(s, t);
  }

  lemma {:induction false} ConsumeAllValid(s: State, tokens: seq<Token>)
    requires Valid(s)
    ensures Valid(ConsumeAll(s, tokens))
    decreases |tokens|
  {
    if tokens != [] && s.contIn {
      ConsumeValid(s, tokens[0]);
      ConsumeAllValid(Consume(s, tokens[0]), tokens[1..]);
    }
  }

  lemma PrepareValid(s: State, l: Line)
    requires Valid(s)
    ensures Valid(Prepare(s, l).s)
    ensures Prepare(s, l).Enter? ==> Prepare(s, l).s.contIn
  {
  }

  lemma {:induction false} ProcessValid(s: State, inputs: seq<Input>)
    requires Valid(s)
    ensures Valid(Process(s, inputs))
    decreases |inputs|
  {
    if inputs != [] {
      var last := |inputs| - 1;
      ProcessValid(s, inputs[..last]);
      var before := Process(s, inputs[..last]);
      if inputs[last].Text? {
        var l := inputs[last].line;
        PrepareValid(before, l);
        ConsumeAllValid(Prepare(before, l).s, l.tokens);
      }
    }
  }

  /** The state of the token loop after the lines `inputs` and the first `k` tokens of the line `l`. */
  function At(inputs: seq<Input>, l: Line, k: nat): State
    requires k <= |l.tokens| && Prepare(Process(START, inputs), l).Enter?
  {
    ConsumeAll(Prepare(Process(START, inputs), l).s, l.tokens[..k])
  }

  /** Over any number of lines, the stack is the unmatched openers consumed since the continuation
      began, and what was consumed can be extended to a balanced string. */
  lemma StackIsUnmatchedOpeners(inputs: seq<Input>, l: Line, k: nat)
    requires k <= |l.tokens| && Prepare(Process(START, inputs), l).Enter?
    ensures var s := At(inputs, l, k);
            s.contIn ==>
              && Scan([], s.consumed) == Some(s.paren)
              && (forall i :: 0 <= i < |s.paren| ==> Opener(s.paren[i]))
              && Viable(s.consumed)
              && (s.paren == [] <==> Balanced(s.consumed))
  {
    ProcessValid(START, inputs);
    PrepareValid(Process(START, inputs), l);
    ConsumeAllValid(Prepare(Process(START, inputs), l).s, l.tokens[..k]);
    var s := At(inputs, l, k);
    if s.contIn {
      ScanStackOpeners([], s.consumed);
      ViableIffScan(s.consumed);
      BalancedIffScan(s.consumed);
    }
  }

  /** A closer is reported as unexpected or mismatched exactly when it is the first character after
      which the continuation cannot be extended to a balanced string; as unexpected exactly when what
      came before it was balanced. */
  lemma BracketErrorExact(inputs: seq<Input>, l: Line, k: nat)
    requires k < |l.tokens| && Prepare(Process(START, inputs), l).Enter? && At(inputs, l, k).contIn
    ensures var s, s' := At(inputs, l, k), At(inputs, l, k + 1);
            && Viable(s.consumed)
            && (s.paren == [] <==> Balanced(s.consumed))
            && (Viable(s'.consumed) ==> NoBracketError(s, s'))
            && (!Viable(s'.consumed) ==>
                  && !s'.contIn
                  && s'.errors == s.errors + [if s.paren == [] then UnexpectedCloser(l.tokens[k].c)
                                              else Mismatched(l.tokens[k].c, s.paren[|s.paren| - 1])])
  {
    StackIsUnmatchedOpeners(inputs, l, k);
    AtNext(inputs, l, k);
    var s, s' := At(inputs, l, k), At(inputs, l, k + 1);
    OneToken(s, l.tokens[k]);
    ViableIffScan(s'.consumed);
  }

  lemma AtNext(inputs: seq<Input>, l: Line, k: nat)
    requires k < |l.tokens| && Prepare(Process(START, inputs), l).Enter? && At(inputs, l, k).contIn
    ensures At(inputs, l, k + 1) == Consume(At(inputs, l, k), l.tokens[k])
  {
    ConsumeLast(Prepare(Process(START, inputs), l).s, l.tokens[..k], l.tokens[k]);
    assert l.tokens[..k + 1] == l.tokens[..k] + [l.tokens[k]];
  }

  lemma {:induction false} ConsumeLast(s: State, tokens: seq<Token>, t: Token)
    requires ConsumeAll(s, tokens).contIn
    ensures ConsumeAll(s, tokens + [t]) == Consume(ConsumeAll(s, tokens), t)
    decreases |tokens|
  {
    if tokens == [] {
      var one := tokens + [t];
      assert one[0] == t && one[1..] == [];
    } else {
      assert (tokens + [t])[1..] == tokens[1..] + [t];
      ConsumeLast(Consume(s, tokens[0]), tokens[1..], t);
    }
  }

  /** The ends that report nothing leave the stack empty. */
  lemma CleanEndStack(s: State, t: Token)
    requires s.contIn && !Consume(s, t).contIn && Consume(s, t).errors == s.errors
    requires Scan([], s.consumed) == Some(s.paren)
    ensures Scan([], Consume(s, t).consumed) == Some([])
  {
    OneToken(s, t);
    if !IsParen(t.c) {
      OtherFramed(s, t);
    } else if Push(s.paren, t.c).Some? {
      ParenFramed(s, t);
    } else {
      UnmatchedCloser(s, t);
    }
  }

  /** A token that ends the continuation without an error ends a balanced string. */
  lemma CleanEndIsBalanced(inputs: seq<Input>, l: Line, k: nat)
    requires k < |l.tokens| && Prepare(Process(START, inputs), l).Enter? && At(inputs, l, k).contIn
    requires !At(inputs, l, k + 1).contIn
    requires At(inputs, l, k + 1).errors == At(inputs, l, k).errors
    ensures Balanced(At(inputs, l, k + 1).consumed)
  {
    StackIsUnmatchedOpeners(inputs, l, k);
    AtNext(inputs, l, k);
    var s, t := At(inputs, l, k), l.tokens[k];
    CleanEndStack(s, t);
    BalancedIffScan(Consume(s, t).consumed);
  }
}
