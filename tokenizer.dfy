/** The character-level state machine of lib/tokenizer.js (`Tokenizer` and
    its `nextToken` closure).

    `Step` is one iteration of the `while` loop of `nextToken` as a pure
    transition on a `Machine` (the closure variables); `Next` is one call of
    `nextToken`; `Run` is the loop of callers that ask for tokens until
    `null`. The class `Tokenizer` keeps the closure variables as fields and
    its `NextToken` is proved to be `Next`. */
module TemplateTokenizer {
  import opened Text

  /** `TokenizerStatus`, plus `Dead`: the value `Tokenizer.COMMENT` that
      lib/tokenizer.js:240 assigns is undefined, so no `case` matches it. */
  datatype Status =
    | Static | MaybeControl | Control | ControlQuoteDouble | ControlQuoteSingle
    | Comment | CommentMaybeEnd | Dead

  /** `TokenHtmlContext`; `NotApplicable` is its `N_A` (null). */
  datatype HtmlContext = NotApplicable | Normal | Element | CommentOrCdata

  /** A token as `nextToken` creates it; a comment token has null content. */
  datatype Token =
    | StaticToken(text: string, line: nat)
    | ControlToken(text: string, context: HtmlContext, line: nat)
    | CommentToken(line: nat)

  datatype TokenizerException = TokenizerException(message: string, line: nat)

  /** The character read by one loop iteration; `Eof` is the source's -1. */
  datatype Input = Char(c: char) | Eof

  /** The closure variables of `Tokenizer` (the unused `identifierStatus`
      left out). */
  datatype Machine = Machine(
    status: Status,
    pos: nat,
    tokenStart: nat,
    tokenLength: nat,
    tokenReturned: bool,
    braces: int,
    quotesEscape: bool,
    currentLine: nat,
    html: HtmlContext,
    htmlTagJustOpened: bool)

  /** What one loop iteration does: go on, return a token, return null, or throw. */
  datatype Signal = Continue | Emit(token: Token) | Stop | Fail(message: string, line: nat)

  function Initial(): Machine {
    Machine(Static, 0, 0, 0, false, 0, false, 1, Normal, false)
  }

  /** The characters after `{` that keep the brace literal (lib/tokenizer.js:130). */
  predicate KeepsBraceLiteral(c: char) {
    c == ' ' || c == '\U{000C}' || c == '\n' || c == '\r' || c == '\t' || c == '}'
  }

  /** `changeHtmlContext`: the new (context, tag-just-opened) pair. */
  function HtmlTransition(ctx: HtmlContext, justOpened: bool, c: Input): (HtmlContext, bool) {
    if c == Char('<') then (Element, true)
    else
      var ctx' := if c == Char('!') && justOpened then CommentOrCdata
                  else if c == Char('>') then Normal
                  else ctx;
      (ctx', false)
  }

  /** Whether the loop bumps the line counter on the character at `i`:
      a `\n`, or a `\r` not followed by `\n`. */
  predicate IsLineBreak(t: string, i: nat)
    requires i < |t|
  {
    t[i] == '\n' || (t[i] == '\r' && !(i + 1 < |t| && t[i + 1] == '\n'))
  }

  /** The number of line breaks among the first `k` characters. */
  function Breaks(t: string, k: nat): nat
    requires k <= |t|
  {
    if k == 0 then 0 else Breaks(t, k - 1) + (if IsLineBreak(t, k - 1) then 1 else 0)
  }

  /** A bound that every iteration of the loop lowers: a re-read keeps `pos`
      but sets `tokenReturned`; every other iteration advances `pos`. */
  function Measure(t: string, m: Machine): nat
    requires m.pos <= |t| + 1
  {
    2 * (|t| + 1 - m.pos) + (if m.tokenReturned then 0 else 1)
  }

  function StaticStep(t: string, m: Machine, c: Input): (Machine, Signal) {
    if c == Eof && m.tokenLength > 0 then
      (m, Emit(StaticToken(Substr(t, m.tokenStart, m.tokenLength), m.currentLine)))
    else if c == Char('{') then
      (m.(status := MaybeControl, tokenLength := m.tokenLength + 1), Continue)
    else
      var (ctx, justOpened) := HtmlTransition(m.html, m.htmlTagJustOpened, c);
      (m.(html := ctx, htmlTagJustOpened := justOpened, tokenLength := m.tokenLength + 1), Continue)
  }

  function MaybeControlStep(t: string, m: Machine, c: Input): (Machine, Signal)
    requires m.pos >= 1
  {
    if c == Eof then
      (m, Emit(StaticToken(Substr(t, m.tokenStart, m.tokenLength), m.currentLine)))
    else if KeepsBraceLiteral(c.c) then
      (m.(status := Static, tokenLength := m.tokenLength + 1), Continue)
    else if m.tokenLength > 1 && !m.tokenReturned then
      // return the static text before `{` and read this character again
      (m.(pos := m.pos - 1, tokenReturned := true),
       Emit(StaticToken(Substr(t, m.tokenStart, m.tokenLength - 1), m.currentLine)))
    else
      var m := if m.tokenLength > 1 then m.(tokenReturned := false) else m;
      if c.c != '*' then
        var st := if c.c == '"' then ControlQuoteDouble
                  else if c.c == '\'' then ControlQuoteSingle
                  else Control;
        (m.(status := st, tokenStart := m.pos - 1, tokenLength := 1,
            braces := if c.c == '{' then 2 else 1), Continue)
      else
        (m.(status := Comment), Continue)
  }

  function ControlStep(t: string, m: Machine, c: Input): (Machine, Signal)
    requires m.pos >= 1
  {
    if c == Eof then (m, Fail("Unexpected EOF", m.currentLine))
    else if c.c == '}' && m.braces == 1 then
      if !m.tokenReturned then
        // return the tag and read the closing brace again
        (m.(pos := m.pos - 1, tokenReturned := true),
         Emit(ControlToken(Substr(t, m.tokenStart, m.tokenLength), m.html, m.currentLine)))
      else
        (m.(tokenReturned := false, status := Static, tokenStart := m.tokenStart + 1,
            tokenLength := 0, braces := 0), Continue)
    else
      var m := m.(tokenLength := m.tokenLength + 1);
      if c.c == '{' then (m.(braces := m.braces + 1), Continue)
      else if c.c == '}' then (m.(braces := m.braces - 1), Continue)
      else if c.c == '"' then (m.(status := ControlQuoteDouble), Continue)
      else if c.c == '\'' then (m.(status := ControlQuoteSingle), Continue)
      else (m, Continue)
  }

  /** The two quote states; `quote` is the character that closes the string. */
  function QuoteStep(m: Machine, c: Input, quote: char): (Machine, Signal) {
    if c == Eof then (m, Fail("Unexpected EOF", m.currentLine))
    else
      var m := m.(tokenLength := m.tokenLength + 1);
      if c.c == '\\' then (m.(quotesEscape := !m.quotesEscape), Continue)
      else
        (m.(status := if c.c == quote && !m.quotesEscape then Control else m.status,
            quotesEscape := false), Continue)
  }

  function CommentStep(m: Machine, c: Input): (Machine, Signal) {
    if c == Eof then (m, Stop)
    else if c.c == '*' then (m.(status := CommentMaybeEnd), Continue)
    else (m, Continue)
  }

  function CommentMaybeEndStep(m: Machine, c: Input): (Machine, Signal)
    requires m.pos >= 1
  {
    if c == Eof then (m, Stop)
    else if c.c == '}' then
      if !m.tokenReturned then
        (m.(pos := m.pos - 1, tokenReturned := true), Emit(CommentToken(m.currentLine)))
      else
        (m.(tokenReturned := false, status := Static, tokenStart := m.pos, tokenLength := 0), Continue)
    else if c.c != '*' then (m.(status := Dead), Continue)
    else (m, Continue)
  }

  /** The character the loop reads at `i`, or `Eof` past the end. */
  function CharAt(t: string, i: nat): Input {
    if i < |t| then Char(t[i]) else Eof
  }

  /** The start of every iteration: `pos++` and the line counter
      (lib/tokenizer.js:106-109). */
  function Advance(t: string, m: Machine): (n: Machine)
    requires m.pos <= |t|
  {
    var c := CharAt(t, m.pos);
    var bump := c == Char('\n') || (c == Char('\r') && !(m.pos + 1 < |t| && t[m.pos + 1] == '\n'));
    m.(pos := m.pos + 1, currentLine := m.currentLine + (if bump then 1 else 0))
  }

  /** The `switch (status)` of lib/tokenizer.js:111-242. */
  function Dispatch(t: string, n: Machine, c: Input): (Machine, Signal)
    requires n.pos >= 1
  {
    match n.status
    case Static => StaticStep(t, n, c)
    case MaybeControl => MaybeControlStep(t, n, c)
    case Control => ControlStep(t, n, c)
    case ControlQuoteDouble => QuoteStep(n, c, '"')
    case ControlQuoteSingle => QuoteStep(n, c, '\'')
    case Comment => CommentStep(n, c)
    case CommentMaybeEnd => CommentMaybeEndStep(n, c)
    case Dead => (n, Continue)
  }

  /** One iteration of the `while` loop of `nextToken` (lib/tokenizer.js:105-242). */
  function Step(t: string, m: Machine): (r: (Machine, Signal))
    requires m.pos <= |t|
    ensures r.0.pos <= |t| + 1
    ensures (r.1 == Continue || r.1.Emit?) ==> Measure(t, r.0) < Measure(t, m)
  {
    Dispatch(t, Advance(t, m), CharAt(t, m.pos))
  }

  /** The `while` loop of `nextToken`, from the given state on. */
  function Loop(t: string, m: Machine): (r: (Machine, Signal))
    requires m.pos <= |t| + 1
    decreases Measure(t, m)
    ensures r.1 != Continue
    ensures r.0.pos <= |t| + 1
    ensures r.1.Emit? ==> Measure(t, r.0) < Measure(t, m)
  {
    if m.pos > |t| then (m, Stop)
    else
      var (n, sig) := Step(t, m);
      if sig == Continue then Loop(t, n) else (n, sig)
  }

  /** An iteration that goes on leaves the rest to the loop. */
  lemma LoopContinues(t: string, m: Machine)
    requires m.pos <= |t| && Step(t, m).1 == Continue
    ensures Loop(t, m) == Loop(t, Step(t, m).0)
  {
  }

  /** One call of `nextToken`: `tokenStart = pos`, then the loop. */
  function Next(t: string, m: Machine): (r: (Machine, Signal))
    requires m.pos <= |t| + 1
  {
    Loop(t, m.(tokenStart := m.pos))
  }

  /** Calls `nextToken` until it returns null (or throws), collecting the tokens. */
  function Run(t: string, m: Machine, acc: seq<Token>): Result<seq<Token>, TokenizerException>
    requires m.pos <= |t| + 1
    decreases Measure(t, m)
  {
    var (n, sig) := Next(t, m);
    if sig.Emit? then Run(t, n, acc + [sig.token])
    else if sig.Fail? then Err(TokenizerException(sig.message, sig.line))
    else Ok(acc)
  }

  /** All tokens of a template, or the tokenizer's exception. */
  function Tokenize(t: string): Result<seq<Token>, TokenizerException> {
    Run(t, Initial(), [])
  }

  function Min(a: nat, b: nat): nat { if a <= b then a else b }

  /** The line counter is one more than the line breaks read so far; a
      re-read character is never a line break, so stepping back keeps this. */
  ghost predicate LinesOk(t: string, m: Machine) {
    m.pos <= |t| + 1 && m.currentLine == 1 + Breaks(t, Min(m.pos, |t|))
  }

  lemma {:induction false} BreaksMonotone(t: string, i: nat, j: nat)
    requires i <= j <= |t|
    ensures Breaks(t, i) <= Breaks(t, j)
    decreases j - i
  {
    if i < j {
      BreaksMonotone(t, i, j - 1);
    }
  }

  /** The `switch` never touches the line counter; it steps back at most one
      character, and only over a `}` or a character that opens a tag. */
  lemma DispatchLines(t: string, n: Machine, c: Input)
    requires n.pos >= 1
    ensures var (n', sig) := Dispatch(t, n, c);
            && n'.currentLine == n.currentLine
            && (n'.pos == n.pos || (n'.pos == n.pos - 1 && c.Char? && (!KeepsBraceLiteral(c.c) || c.c == '}')))
            && (sig.Emit? ==> sig.token.line == n.currentLine)
            && (sig.Fail? ==> sig.line == n.currentLine && c == Eof)
  {
    match n.status
    case Static =>
    case MaybeControl =>
    case Control =>
    case ControlQuoteDouble =>
    case ControlQuoteSingle =>
    case Comment =>
    case CommentMaybeEnd =>
    case Dead =>
  }

  /** Only the STATIC case moves the HTML context: every other case leaves
      it and the just-opened flag alone, so a tag is stamped with the
      context of the text before it. */
  lemma HtmlOnlyInStatic(t: string, n: Machine, c: Input)
    requires n.pos >= 1 && n.status != Static
    ensures var (n', sig) := Dispatch(t, n, c);
            && n'.html == n.html && n'.htmlTagJustOpened == n.htmlTagJustOpened
            && (sig.Emit? && sig.token.ControlToken? ==> sig.token.context == n.html)
  {
    match n.status
    case MaybeControl =>
    case Control =>
    case ControlQuoteDouble =>
    case ControlQuoteSingle =>
    case Comment =>
    case CommentMaybeEnd =>
    case Dead =>
  }

  /** One iteration keeps the counter right, never lowers it, and stamps a
      returned token with it. */
  lemma StepLines(t: string, m: Machine)
    requires m.pos <= |t| && LinesOk(t, m)
    ensures LinesOk(t, Step(t, m).0)
    ensures m.currentLine <= Step(t, m).0.currentLine
    ensures Step(t, m).1.Emit? ==> Step(t, m).1.token.line == Step(t, m).0.currentLine
    ensures Step(t, m).1.Fail? ==> Step(t, m).1.line == Step(t, m).0.currentLine && Step(t, m).0.pos == |t| + 1
  {
    var a := Advance(t, m);
    var c := CharAt(t, m.pos);
    assert a.pos == m.pos + 1;
    assert a.currentLine == 1 + Breaks(t, Min(a.pos, |t|)) by {
      if m.pos < |t| {
        assert Breaks(t, m.pos + 1) == Breaks(t, m.pos) + (if IsLineBreak(t, m.pos) then 1 else 0);
      }
    }
    DispatchLines(t, a, c);
    var (n, sig) := Dispatch(t, a, c);
    assert Step(t, m) == (n, sig);
    if n.pos == m.pos {
      assert m.pos < |t| && !IsLineBreak(t, m.pos);
      assert Breaks(t, m.pos + 1) == Breaks(t, m.pos);
    }
  }

  lemma {:induction false} LoopLines(t: string, m: Machine)
    requires LinesOk(t, m)
    decreases Measure(t, m)
    ensures var (n, sig) := Loop(t, m);
            && LinesOk(t, n)
            && m.currentLine <= n.currentLine
            && (sig.Emit? ==> sig.token.line == n.currentLine)
            && (sig.Fail? ==> sig.line == n.currentLine && n.pos == |t| + 1)
  {
    if m.pos <= |t| {
      StepLines(t, m);
      var (n, sig) := Step(t, m);
      if sig == Continue {
        LoopLines(t, n);
      } else if sig.Fail? {
        assert n.pos == |t| + 1;
      }
    }
  }

  ghost predicate LinesSorted(ts: seq<Token>) {
    forall i, j :: 0 <= i < j < |ts| ==> ts[i].line <= ts[j].line
  }

  /** The line numbers of all tokens a run collects never decrease, lie
      between 1 and the input's line count, and a failed run reports the
      input's last line. */
  lemma {:induction false} RunLines(t: string, m: Machine, acc: seq<Token>)
    requires LinesOk(t, m)
    requires LinesSorted(acc) && forall i :: 0 <= i < |acc| ==> 1 <= acc[i].line <= m.currentLine
    decreases Measure(t, m)
    ensures var r := Run(t, m, acc);
            && (r.Ok? ==> && LinesSorted(r.value)
                          && forall i :: 0 <= i < |r.value| ==> 1 <= r.value[i].line <= 1 + Breaks(t, |t|))
            && (r.Err? ==> r.error.line == 1 + Breaks(t, |t|))
  {
    var m' := m.(tokenStart := m.pos);
    LoopLines(t, m');
    BreaksMonotone(t, Min(m.pos, |t|), |t|);
    var (n, sig) := Next(t, m);
    if sig.Emit? {
      var acc' := acc + [sig.token];
      assert forall i :: 0 <= i < |acc'| ==> 1 <= acc'[i].line <= n.currentLine;
      RunLines(t, n, acc');
    }
  }

  /** Every token of a template carries a line between 1 and the number of
      lines, in non-decreasing order; "Unexpected EOF" is reported on the
      last line (lib/tokenizer.js:106-109, 138, 170). */
  lemma TokenLines(t: string)
    ensures var r := Tokenize(t);
            && (r.Ok? ==> && LinesSorted(r.value)
                          && forall i :: 0 <= i < |r.value| ==> 1 <= r.value[i].line <= 1 + Breaks(t, |t|))
            && (r.Err? ==> r.error.line == 1 + Breaks(t, |t|))
  {
    RunLines(t, Initial(), []);
  }

  /** `Tokenizer(template)`: the closure variables as fields. */
  class Tokenizer {
    const template: string
    var status: Status
    var pos: nat
    var tokenStart: nat
    var tokenLength: nat
    var tokenReturned: bool
    var braces: int
    var quotesEscape: bool
    var currentLine: nat
    var currentHtmlContext: HtmlContext
    var htmlTagJustOpened: bool

    function State(): Machine
      reads this
    {
      Machine(status, pos, tokenStart, tokenLength, tokenReturned, braces, quotesEscape,
              currentLine, currentHtmlContext, htmlTagJustOpened)
    }

    ghost predicate Valid()
      reads this
    {
      LinesOk(template, State())
    }

    constructor (template: string)
      ensures this.template == template
      ensures Valid() && State() == Initial()
    {
      this.template := template;
      status := Static;
      pos := 0;
      tokenStart := 0;
      tokenLength := 0;
      tokenReturned := false;
      braces := 0;
      quotesEscape := false;
      currentLine := 1;
      currentHtmlContext := Normal;
      htmlTagJustOpened := false;
    }

    /** `changeHtmlContext(c)` (lib/tokenizer.js:85-99). */
    method ChangeHtmlContext(c: Input)
      modifies this
      ensures var (ctx, justOpened) := HtmlTransition(old(currentHtmlContext), old(htmlTagJustOpened), c);
              State() == old(State()).(html := ctx, htmlTagJustOpened := justOpened)
    {
      if c == Char('<') {
        currentHtmlContext := Element;
        htmlTagJustOpened := true;
      } else {
        if c == Char('!') && htmlTagJustOpened {
          currentHtmlContext := CommentOrCdata;
        } else if c == Char('>') {
          currentHtmlContext := Normal;
        }
        if htmlTagJustOpened {
          htmlTagJustOpened := false;
        }
      }
    }

    /** `nextToken()` (lib/tokenizer.js:102-246): `Emit` is a token, `Stop`
        is null, `Fail` is the thrown `TokenizerException`. The cases of the
        `switch` are the methods below, one per status. */
    method NextToken() returns (r: Signal)
      requires Valid()
      modifies this
      ensures Valid()
      ensures (State(), r) == Next(template, old(State()))
    {
      tokenStart := pos;
      ghost var start := State();
      r := ReadLoop();
      LoopLines(template, start);
    }

    /** The `while` loop of `nextToken`, from the current state on. */
    method ReadLoop() returns (r: Signal)
      requires pos <= |template| + 1
      modifies this
      ensures (State(), r) == Loop(template, old(State()))
    {
      ghost var goal := Loop(template, State());
      r := Stop;
      while pos < |template| + 1
        invariant pos <= |template| + 1
        invariant Loop(template, State()) == goal
        decreases Measure(template, State())
      {
        var sig := ReadOne();
        if sig != Continue {
          r := sig;
          break;
        }
      }
    }

    /** One pass of the loop body: read a character, count lines, and run
        the `case` of the current status. */
    method ReadOne() returns (sig: Signal)
      requires pos <= |template|
      modifies this
      ensures (State(), sig) == Step(template, old(State()))
    {
      ghost var before := State();
      var c := if pos < |template| then Char(template[pos]) else Eof;
      pos := pos + 1;
      if c == Char('\n') {
        currentLine := currentLine + 1;
      } else if c == Char('\r') && !(pos < |template| && template[pos] == '\n') {
        currentLine := currentLine + 1;
      }
      assert State() == Advance(template, before) && c == CharAt(template, before.pos);
      sig := Continue;
      match status {
        case Static =>
          sig := InStatic(c);
        case MaybeControl =>
          sig := InMaybeControl(c);
        case Control =>
          sig := InControl(c);
        case ControlQuoteDouble =>
          sig := InQuotes(c, '"');
        case ControlQuoteSingle =>
          sig := InQuotes(c, '\'');
        case Comment =>
          sig := InComment(c);
        case CommentMaybeEnd =>
          sig := InCommentMaybeEnd(c);
        case Dead =>
      }
    }

    method InStatic(c: Input) returns (sig: Signal)
      modifies this
      ensures (State(), sig) == StaticStep(template, old(State()), c)
    {
      if c == Eof && tokenLength > 0 {
        return Emit(StaticToken(Substr(template, tokenStart, tokenLength), currentLine));
      }
      if c == Char('{') {
        status := MaybeControl;
      } else {
        ChangeHtmlContext(c);
      }
      tokenLength := tokenLength + 1;
      sig := Continue;
    }

    method InMaybeControl(c: Input) returns (sig: Signal)
      requires pos >= 1
      modifies this
      ensures (State(), sig) == MaybeControlStep(template, old(State()), c)
    {
      if c == Eof {
        return Emit(StaticToken(Substr(template, tokenStart, tokenLength), currentLine));
      }
      sig := Continue;
      if KeepsBraceLiteral(c.c) {
        status := Static;
        tokenLength := tokenLength + 1;
      } else {
        if tokenLength > 1 {
          if !tokenReturned {
            pos := pos - 1;
            tokenReturned := true;
            return Emit(StaticToken(Substr(template, tokenStart, tokenLength - 1), currentLine));
          }
          tokenReturned := false;
        }
        if c.c != '*' {
          status := Control;
          tokenStart := pos - 1;
          tokenLength := 1;
          braces := if c.c == '{' then 2 else 1;
          if c.c == '"' {
            status := ControlQuoteDouble;
          } else if c.c == '\'' {
            status := ControlQuoteSingle;
          }
        } else {
          status := Comment;
        }
      }
    }

    method InControl(c: Input) returns (sig: Signal)
      requires pos >= 1
      modifies this
      ensures (State(), sig) == ControlStep(template, old(State()), c)
    {
      if c == Eof {
        return Fail("Unexpected EOF", currentLine);
      }
      sig := Continue;
      if c.c == '}' && braces == 1 {
        if !tokenReturned {
          pos := pos - 1;
          tokenReturned := true;
          return Emit(ControlToken(Substr(template, tokenStart, tokenLength), currentHtmlContext, currentLine));
        }
        tokenReturned := false;
        status := Static;
        tokenStart := tokenStart + 1;
        tokenLength := 0;
        braces := 0;
      } else {
        tokenLength := tokenLength + 1;
        if c.c == '{' {
          braces := braces + 1;
        } else if c.c == '}' {
          braces := braces - 1;
        } else if c.c == '"' {
          status := ControlQuoteDouble;
        } else if c.c == '\'' {
          status := ControlQuoteSingle;
        }
      }
    }

    /** The two quote cases, which differ only in the closing character. */
    method InQuotes(c: Input, quote: char) returns (sig: Signal)
      modifies this
      ensures (State(), sig) == QuoteStep(old(State()), c, quote)
    {
      if c == Eof {
        return Fail("Unexpected EOF", currentLine);
      }
      tokenLength := tokenLength + 1;
      if c.c == '\\' {
        quotesEscape := !quotesEscape;
      } else {
        if c.c == quote && !quotesEscape {
          status := Control;
        }
        quotesEscape := false;
      }
      sig := Continue;
    }

    method InComment(c: Input) returns (sig: Signal)
      modifies this
      ensures (State(), sig) == CommentStep(old(State()), c)
    {
      if c == Eof {
        return Stop;
      }
      if c.c == '*' {
        status := CommentMaybeEnd;
      }
      sig := Continue;
    }

    method InCommentMaybeEnd(c: Input) returns (sig: Signal)
      requires pos >= 1
      modifies this
      ensures (State(), sig) == CommentMaybeEndStep(old(State()), c)
    {
      if c == Eof {
        return Stop;
      }
      sig := Continue;
      if c.c == '}' {
        if !tokenReturned {
          pos := pos - 1;
          tokenReturned := true;
          return Emit(CommentToken(currentLine));
        }
        tokenReturned := false;
        status := Static;
        tokenStart := pos;
        tokenLength := 0;
      } else if c.c != '*' {
        status := Dead;
      }
    }
  }

  /** The loop of callers that ask `nextToken` for tokens until it returns
      null (lib/compiler.js:73-83, lib/cutter.js:31-42). */
  method TokenizeAll(template: string) returns (r: Result<seq<Token>, TokenizerException>)
    ensures r == Tokenize(template)
  {
    var tokenizer := new Tokenizer(template);
    var tokens: seq<Token> := [];
    while true
      invariant tokenizer.template == template && tokenizer.Valid()
      invariant Run(template, tokenizer.State(), tokens) == Tokenize(template)
      decreases Measure(template, tokenizer.State())
    {
      ghost var before := tokenizer.State();
      var sig := tokenizer.NextToken();
      if sig.Emit? {
        tokens := tokens + [sig.token];
      } else if sig.Fail? {
        return Err(TokenizerException(sig.message, sig.line));
      } else {
        return Ok(tokens);
      }
    }
  }
}
