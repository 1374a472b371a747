/** The continuation-line checker of cstyle: a state machine over the tokens ( ) [ ] { } ; : of the
    lines of a function.  A line is abstracted to its tokens and to what the checker's patterns say
    about it, and about what follows each token. */
module ContinuationChecker {
  import opened Brackets

  /** What the patterns say about the rest of the line after a token. */
  datatype Rest = Rest(
    braceOrEnd: bool,    // /^\s*{?$/
    onlySemicolon: bool, // /^\s*;$/
    empty: bool,         // /^$/
    caseEnd: bool,       // /$^/
    saysSpecial: bool,   // /^\s*special/
    nonBlank: bool,      // /[^\s}]/
    whileOrElse: bool,   // /^\s*(while|else)\b/
    special: bool,       // starts with if, for, while or switch
    macro: bool)         // starts with a macro call

  datatype Token = Token(c: char, rest: Rest)

  datatype Line = Line(
    blank: bool,         // nothing but blanks and comments
    initializer: bool,   // opens an enumeration, a structure or an initializer
    braces: int,         // opening braces minus closing ones
    halfIndent: bool,    // tabs, then a space
    complete: bool,      // a statement that needs no continuation
    hasBrace: bool,      // contains an opening brace
    special: bool, macro: bool, caseLabel: bool,
    badIndent: bool,     // not indented as a continuation of the current statement
    tokens: seq<Token>)

  datatype Error =
    | HalfIndented | StuffAfterOpen | NotIndented
    | UnexpectedCloser(c: char) | Mismatched(c: char, opener: char)
    | EmptyBody | ManyStatements | UnexpectedSemicolon | NotStarted
    | OpenInParens | CloseInParens | UnexpectedClose | StuffAfterClose | StuffAfterCase

  /** The file-scope variables of the checker.  `consumed` is history: the parentheses and brackets
      consumed since the continuation began. */
  datatype State = State(
    contIn: bool, contOff: int, noErr: bool, first: bool, multiseg: nat,
    special: bool, macro: bool, caseLabel: bool, paren: string,
    errors: seq<Error>, consumed: string)

  const START := State(false, 0, false, false, 0, false, false, false, [], [], [])

  predicate IsParen(c: char) { Opener(c) || Closer(c) }

  function Report(s: State, e: Error): State {
    s.(errors := s.errors + [e])
  }

  function ReportIf(s: State, cond: bool, e: Error): State {
    if cond then Report(s, e) else s
  }

  function Leave(s: State): State { s.(contIn := false) }

  /** End of a statement, or of the parentheses of an if, for, while or switch. */
  function SectionEnded(s: State, r: Rest): State {
    s.(special := r.special, macro := r.macro, caseLabel := false)
  }

  /** One more segment of the same continuation. */
  function Segment(s: State): State {
    if !s.first && s.multiseg == 1 then Report(s, ManyStatements).(multiseg := 2)
    else if s.multiseg == 0 then s.(multiseg := 1)
    else s
  }

  /** After a closer has been popped. */
  function Popped(s: State, r: Rest): State {
    if s.paren != [] then s
    else if s.special then
      if r.braceOrEnd then Leave(s)
      else if r.onlySemicolon then Leave(Report(s, EmptyBody))
      else SectionEnded(Segment(s), r)
    else if s.macro && r.empty then Leave(s)
    else s
  }

  function AtCloser(s: State, t: Token): State {
    if s.paren == [] then Leave(Report(s, UnexpectedCloser(t.c)))
    else
      var top, popped := s.paren[|s.paren| - 1], s.(paren := s.paren[..|s.paren| - 1]);
      if top != Open(t.c) then Leave(Report(popped, Mismatched(t.c, top)))
      else Popped(popped, t.rest)
  }

  function AtSemicolon(s: State, r: Rest): State {
    if s.caseLabel then Report(s, UnexpectedSemicolon)
    else if s.special then s
    else
      var counted := Segment(ReportIf(s, s.paren != [], UnexpectedSemicolon));
      if r.empty then Leave(counted)
      else SectionEnded(ReportIf(counted, r.saysSpecial, NotStarted), r)
  }

  function AtOpenBrace(s: State, r: Rest): State {
    Leave(ReportIf(ReportIf(s, s.paren != [], OpenInParens), r.nonBlank, StuffAfterOpen))
  }

  function AtCloseBrace(s: State, r: Rest): State {
    var s' := ReportIf(s, s.paren != [], CloseInParens);
    if !s.special && !r.whileOrElse then
      Leave(Report(s', if r.empty then UnexpectedClose else StuffAfterClose))
    else s'
  }

  /** The body of the token loop. */
  function Consume(s: State, t: Token): State {
    var seen := if IsParen(t.c) then s.(consumed := s.consumed + [t.c]) else s;
    if Opener(t.c) then seen.(paren := s.paren + [t.c])
    else if Closer(t.c) then AtCloser(seen, t)
    else if t.c == ';' then AtSemicolon(s, t.rest)
    else if t.c == '{' then AtOpenBrace(s, t.rest)
    else if t.c == '}' then AtCloseBrace(s, t.rest)
    else if t.c == ':' && s.caseLabel && s.paren == [] then Leave(ReportIf(s, !t.rest.caseEnd, StuffAfterCase))
    else s
  }

  /** The token loop; leaving a continuation is always followed by `last`. */
  function ConsumeAll(s: State, tokens: seq<Token>): State
    decreases |tokens|
  {
    if tokens == [] || !s.contIn then s else ConsumeAll(Consume(s, tokens[0]), tokens[1..])
  }

  datatype Entry = Skip(s: State) | Enter(s: State)

  /** A continuation begins. */
  function Opened(s: State, l: Line): State {
    s.(contIn := true, paren := [], first := true, multiseg := 0, consumed := [],
       special := l.special, macro := l.macro, caseLabel := l.caseLabel)
  }

  /** The beginning of a statement: what comes before the token loop when no continuation is open. */
  function Begin(s: State, l: Line): Entry {
    var s' := if l.halfIndent then Report(s, HalfIndented).(noErr := true) else s;
    if l.complete then Skip(s')
    else if l.hasBrace then Skip(Report(s', StuffAfterOpen))
    else Enter(Opened(s', l))
  }

  /** What process_indent does before the token loop. */
  function Prepare(s: State, l: Line): Entry {
    if l.blank then Skip(s)
    else if s.contOff <= 0 && l.initializer then Skip(s.(contIn := false, contOff := l.braces))
    else if s.contOff != 0 then Skip(s.(contOff := s.contOff + l.braces))
    else if !s.contIn then Begin(s, l)
    else Enter(ReportIf(s.(first := false), !s.noErr && l.badIndent, NotIndented))
  }

  function ProcessLine(s: State, l: Line): State {
    match Prepare(s, l)
    case Skip(s') => s'
    case Enter(s') =>
      var done := ConsumeAll(s', l.tokens);
      if done.contIn then done else done.(noErr := false)
  }

  /** A file is a sequence of lines and of calls of reset_indent between functions. */
  datatype Input = Reset | Text(line: Line)

  function Process(s: State, inputs: seq<Input>): State
    decreases |inputs|
  {
    if inputs == [] then s
    else
      var last := |inputs| - 1;
      var before := Process(s, inputs[..last]);
      match inputs[last]
      case Reset => before.(contIn := false, contOff := 0)
      case Text(l) => ProcessLine(before, l)
  }

  /** The checker, with its variables updated in place. */
  class Checker {
    var contIn: bool
    var contOff: int
    var noErr: bool
    var first: bool
    var multiseg: nat
    var special: bool
    var macro: bool
    var caseLabel: bool
    var paren: string
    var errors: seq<Error>
    ghost var consumed: string

    ghost function View(): State
      reads this
    {
      State(contIn, contOff, noErr, first, multiseg, special, macro, caseLabel, paren, errors, consumed)
    }

    constructor ()
      ensures View() == START
    {
      contIn, contOff, noErr, first, multiseg := false, 0, false, false, 0;
      special, macro, caseLabel, paren, errors, consumed := false, false, false, [], [], [];
    }

    method ResetIndent()
      modifies this`contIn, this`contOff
      ensures View() == old(View()).(contIn := false, contOff := 0)
    {
      contIn, contOff := false, 0;
    }

    method Err(e: Error)
      modifies this`errors
      ensures errors == old(errors) + [e]
    {
      errors := errors + [e];
    }

    method CountSegment()
      modifies this`errors, this`multiseg
      ensures View() == Segment(old(View()))
    {
      if !first && multiseg == 1 {
        Err(ManyStatements);
        multiseg := 2;
      } else if multiseg == 0 {
        multiseg := 1;
      }
    }

    method EndSection(r: Rest)
      modifies this`special, this`macro, this`caseLabel
      ensures View() == SectionEnded(old(View()), r)
    {
      special, macro, caseLabel := r.special, r.macro, false;
    }

    method CloserToken(t: Token)
      modifies this
      ensures View() == AtCloser(old(View()), t)
    {
      if paren == [] {
        Err(UnexpectedCloser(t.c));
        contIn := false;
        return;
      }
      var top := paren[|paren| - 1];
      paren := paren[..|paren| - 1];
      if top != Open(t.c) {
        Err(Mismatched(t.c, top));
        contIn := false;
        return;
      }
      if paren != [] {
        return;
      }
      if special {
        if t.rest.braceOrEnd {
          contIn := false;
        } else if t.rest.onlySemicolon {
          Err(EmptyBody);
          contIn := false;
        } else {
          CountSegment();
          EndSection(t.rest);
        }
      } else if macro && t.rest.empty {
        contIn := false;
      }
    }

    method SemicolonToken(r: Rest)
      modifies this
      ensures View() == AtSemicolon(old(View()), r)
    {
      if caseLabel {
        Err(UnexpectedSemicolon);
      } else if !special {
        if paren != [] {
          Err(UnexpectedSemicolon);
        }
        CountSegment();
        if r.empty {
          contIn := false;
          return;
        }
        if r.saysSpecial {
          Err(NotStarted);
        }
        EndSection(r);
      }
    }

    method OpenBraceToken(r: Rest)
      modifies this
      ensures View() == AtOpenBrace(old(View()), r)
    {
      if paren != [] {
        Err(OpenInParens);
      }
      if r.nonBlank {
        Err(StuffAfterOpen);
      }
      contIn := false;
    }

    method CloseBraceToken(r: Rest)
      modifies this
      ensures View() == AtCloseBrace(old(View()), r)
    {
      if paren != [] {
        Err(CloseInParens);
      }
      if !special && !r.whileOrElse {
        Err(if r.empty then UnexpectedClose else StuffAfterClose);
        contIn := false;
      }
    }

    method OneToken(t: Token)
      modifies this
      ensures View() == Consume(old(View()), t)
    {
      if IsParen(t.c) {
        consumed := consumed + [t.c];
      }
      if Opener(t.c) {
        paren := paren + [t.c];
      } else if Closer(t.c) {
        CloserToken(t);
      } else if t.c == ';' {
        SemicolonToken(t.rest);
      } else if t.c == '{' {
        OpenBraceToken(t.rest);
      } else if t.c == '}' {
        CloseBraceToken(t.rest);
      } else if t.c == ':' && caseLabel && paren == [] {
        if !t.rest.caseEnd {
          Err(StuffAfterCase);
        }
        contIn := false;
      }
    }

    /** Set up the state machine. */
    method OpenContinuation(l: Line)
      modifies this
      ensures View() == Opened(old(View()), l)
    {
      contIn, paren, first, multiseg, consumed := true, [], true, 0, [];
      special, macro, caseLabel := l.special, l.macro, l.caseLabel;
    }

    /** The first line of a statement. */
    method BeginStatement(l: Line) returns (enter: bool)
      modifies this
      ensures Begin(old(View()), l) == if enter then Enter(View()) else Skip(View())
    {
      if l.halfIndent {
        Err(HalfIndented);
        noErr := true;
      }
      if l.complete {
        return false;
      }
      if l.hasBrace {
        Err(StuffAfterOpen);
        return false;
      }
      OpenContinuation(l);
      return true;
    }

    /** The part of process_indent before the token loop; `enter` says whether the loop is reached. */
    method BeforeTokens(l: Line) returns (enter: bool)
      modifies this
      ensures Prepare(old(View()), l) == if enter then Enter(View()) else Skip(View())
    {
      if l.blank {
        return false;
      }
      if contOff <= 0 && l.initializer {
        contIn, contOff := false, l.braces;
        return false;
      }
      if contOff != 0 {
        contOff := contOff + l.braces;
        return false;
      }
      if !contIn {
        enter := BeginStatement(l);
        return;
      }
      first := false;
      if !noErr && l.badIndent {
        Err(NotIndented);
      }
      return true;
    }

    /** The token loop. */
    method TokenLoop(tokens: seq<Token>)
      modifies this
      ensures View() == ConsumeAll(old(View()), tokens)
    {
      var i := 0;
      while i < |tokens| && contIn
        invariant 0 <= i <= |tokens|
        invariant ConsumeAll(View(), tokens[i..]) == ConsumeAll(old(View()), tokens)
      {
        assert tokens[i..][1..] == tokens[i + 1..];
        OneToken(tokens[i]);
        i := i + 1;
      }
    }

    method ProcessIndent(l: Line)
      modifies this
      ensures View() == ProcessLine(old(View()), l)
    {
      var enter := BeforeTokens(l);
      if enter {
        TokenLoop(l.tokens);
        if !contIn {
          noErr := false;
        }
      }
    }
  }
}
