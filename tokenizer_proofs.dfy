/** Properties of the lib/tokenizer.js state machine, proved over `Step`,
    `Loop`, `Next` and `Run`. */
module TokenizerProofs {
  import opened Text
  import opened TemplateTokenizer

  /** The source text a token stands for: a tag gets its braces back; a
      comment's text is not kept. */
  function RenderToken(tok: Token): string {
    match tok
    case StaticToken(s, _) => s
    case ControlToken(s, _, _) => "{" + s + "}"
    case CommentToken(_) => ""
  }

  function Render(ts: seq<Token>): string {
    if ts == [] then "" else Render(ts[..|ts| - 1]) + RenderToken(ts[|ts| - 1])
  }

  lemma RenderSnoc(e: seq<Token>, tok: Token)
    ensures Render(e + [tok]) == Render(e) + RenderToken(tok)
  {
    assert (e + [tok])[..|e|] == e;
  }

  /** No `{` is directly followed by `*`, so no comment can open. */
  predicate NoCommentOpen(t: string) {
    forall i :: 0 <= i < |t| - 1 && t[i] == '{' ==> t[i + 1] != '*'
  }

  /** Inside a tag: the text since the opening `{` is the pending token. */
  ghost predicate InTag(t: string, m: Machine, e: seq<Token>) {
    && !m.tokenReturned
    && 1 <= m.tokenStart && m.tokenStart + m.tokenLength == m.pos <= |t|
    && t[m.tokenStart - 1] == '{'
    && Render(e) == t[..m.tokenStart - 1]
  }

  ghost predicate StaticInv(t: string, m: Machine, e: seq<Token>) {
    !m.tokenReturned && m.tokenStart + m.tokenLength == m.pos <= |t| && Render(e) == t[..m.tokenStart]
  }

  /** Just after a `{`: either the brace is still part of the pending static
      text, or that text was returned and the character after it is re-read. */
  ghost predicate MaybeControlInv(t: string, m: Machine, e: seq<Token>) {
    && 1 <= m.pos <= |t| && t[m.pos - 1] == '{'
    && (if m.tokenReturned then
          m.tokenLength > 1 && m.pos < |t| && !KeepsBraceLiteral(t[m.pos]) && Render(e) == t[..m.pos - 1]
        else
          1 <= m.tokenLength && m.tokenStart + m.tokenLength == m.pos && Render(e) == t[..m.tokenStart])
  }

  /** In a tag, or about to re-read its closing `}` after returning it. */
  ghost predicate ControlInv(t: string, m: Machine, e: seq<Token>) {
    if m.tokenReturned then
      m.pos < |t| && t[m.pos] == '}' && m.braces == 1 && m.tokenStart == m.pos && Render(e) == t[..m.pos + 1]
    else InTag(t, m, e)
  }

  /** What the tokens returned so far, `e`, and the pending token account for
      at the start of a loop iteration, in input without comments. */
  ghost predicate Recon(t: string, m: Machine, e: seq<Token>) {
    && m.pos <= |t| + 1
    && (m.pos == |t| + 1 ==> Render(e) == t)
    && (m.pos <= |t| ==>
      match m.status
      case Static => StaticInv(t, m, e)
      case MaybeControl => MaybeControlInv(t, m, e)
      case Control => ControlInv(t, m, e)
      case ControlQuoteDouble => InTag(t, m, e)
      case ControlQuoteSingle => InTag(t, m, e)
      case Comment => false
      case CommentMaybeEnd => false
      case Dead => false)
  }

  /** The invariant after one iteration that returned `sig`. */
  ghost predicate After(t: string, n: Machine, sig: Signal, e: seq<Token>) {
    && (sig == Continue ==> Recon(t, n, e))
    && (sig.Emit? ==> Recon(t, n.(tokenStart := n.pos), e + [sig.token]))
    && sig != Stop
  }

  /** Appending a static token for `t[i..j]` after a rendering of `t[..i]`. */
  lemma RenderStatic(t: string, e: seq<Token>, tok: Token, i: nat, j: nat)
    requires i <= j <= |t| && Render(e) == t[..i]
    requires tok.StaticToken? && tok.text == t[i..j]
    ensures Render(e + [tok]) == t[..j]
  {
    RenderSnoc(e, tok);
    assert t[..j] == t[..i] + t[i..j];
  }

  /** Appending a control token for the text between the `{` at `i` and the
      `}` at `j` after a rendering of `t[..i]`. */
  lemma Bracketed(t: string, i: nat, j: nat)
    requires i < j < |t| && t[i] == '{' && t[j] == '}'
    ensures t[..j + 1] == t[..i] + ("{" + t[i + 1..j] + "}")
  {
    assert t[..j + 1] == t[..i] + [t[i]] + t[i + 1..j] + [t[j]];
  }

  lemma RenderTag(t: string, e: seq<Token>, tok: Token, i: nat, j: nat)
    requires i < j < |t| && t[i] == '{' && t[j] == '}' && Render(e) == t[..i]
    requires tok.ControlToken? && tok.text == t[i + 1..j]
    ensures Render(e + [tok]) == t[..j + 1]
  {
    RenderSnoc(e, tok);
    Bracketed(t, i, j);
  }

  lemma StaticRecon(t: string, m: Machine, e: seq<Token>)
    requires m.pos <= |t| && m.status == Static && StaticInv(t, m, e)
    ensures After(t, Step(t, m).0, Step(t, m).1, e)
  {
    var n := Advance(t, m);
    var c := CharAt(t, m.pos);
    assert Step(t, m) == StaticStep(t, n, c);
    if c == Eof {
      if m.tokenLength > 0 {
        var tok := StaticToken(Substr(t, m.tokenStart, m.tokenLength), n.currentLine);
        assert Step(t, m) == (n, Emit(tok));
        assert tok.text == t[m.tokenStart..|t|];
        RenderStatic(t, e, tok, m.tokenStart, |t|);
      } else {
        assert t[..m.tokenStart] == t;
      }
    } else if c == Char('{') {
      var r := n.(status := MaybeControl, tokenLength := m.tokenLength + 1);
      assert Step(t, m) == (r, Continue);
      assert MaybeControlInv(t, r, e);
    } else {
      var x := HtmlTransition(m.html, m.htmlTagJustOpened, c);
      var r := n.(html := x.0, htmlTagJustOpened := x.1, tokenLength := m.tokenLength + 1);
      assert Step(t, m) == (r, Continue);
      assert r.pos <= |t| ==> StaticInv(t, r, e);
    }
  }

  lemma MaybeControlRecon(t: string, m: Machine, e: seq<Token>)
    requires NoCommentOpen(t)
    requires m.pos <= |t| && m.status == MaybeControl && MaybeControlInv(t, m, e)
    ensures After(t, Step(t, m).0, Step(t, m).1, e)
  {
    if m.pos == |t| {
      MaybeControlAtEnd(t, m, e);
    } else if KeepsBraceLiteral(t[m.pos]) {
      MaybeControlLiteral(t, m, e);
    } else if m.tokenLength > 1 && !m.tokenReturned {
      MaybeControlReturnsStatic(t, m, e);
    } else {
      MaybeControlOpens(t, m, e);
    }
  }

  lemma MaybeControlAtEnd(t: string, m: Machine, e: seq<Token>)
    requires m.pos == |t| && m.status == MaybeControl && MaybeControlInv(t, m, e)
    ensures After(t, Step(t, m).0, Step(t, m).1, e)
  {
    assert !m.tokenReturned && m.tokenStart + m.tokenLength == |t|;
    var n := Advance(t, m);
    assert Step(t, m) == MaybeControlStep(t, n, Eof);
    var tok := StaticToken(Substr(t, m.tokenStart, m.tokenLength), n.currentLine);
    assert Step(t, m) == (n, Emit(tok));
    assert tok.text == t[m.tokenStart..|t|];
    RenderStatic(t, e, tok, m.tokenStart, |t|);
    assert t[..|t|] == t;
  }

  lemma MaybeControlLiteral(t: string, m: Machine, e: seq<Token>)
    requires m.pos < |t| && m.status == MaybeControl && MaybeControlInv(t, m, e)
    requires KeepsBraceLiteral(t[m.pos])
    ensures After(t, Step(t, m).0, Step(t, m).1, e)
  {
    var n := Advance(t, m);
    assert Step(t, m) == MaybeControlStep(t, n, Char(t[m.pos]));
    var r := n.(status := Static, tokenLength := m.tokenLength + 1);
    assert Step(t, m) == (r, Continue);
  }

  lemma MaybeControlOpens(t: string, m: Machine, e: seq<Token>)
    requires NoCommentOpen(t)
    requires m.pos < |t| && m.status == MaybeControl && MaybeControlInv(t, m, e)
    requires !KeepsBraceLiteral(t[m.pos]) && !(m.tokenLength > 1 && !m.tokenReturned)
    ensures After(t, Step(t, m).0, Step(t, m).1, e)
  {
    var n := Advance(t, m);
    var c := t[m.pos];
    assert Step(t, m) == MaybeControlStep(t, n, Char(c));
    assert c != '*';
    var st := if c == '"' then ControlQuoteDouble else if c == '\'' then ControlQuoteSingle else Control;
    var r := n.(status := st, tokenStart := m.pos, tokenLength := 1, tokenReturned := false,
                braces := if c == '{' then 2 else 1);
    assert Step(t, m) == (r, Continue);
    assert InTag(t, r, e);
  }

  lemma MaybeControlReturnsStatic(t: string, m: Machine, e: seq<Token>)
    requires m.pos < |t| && m.status == MaybeControl && MaybeControlInv(t, m, e)
    requires !KeepsBraceLiteral(t[m.pos]) && m.tokenLength > 1 && !m.tokenReturned
    ensures After(t, Step(t, m).0, Step(t, m).1, e)
  {
    var r := Step(t, m);
    assert r.1.Emit? && r.1.token.StaticToken? && r.1.token.text == t[m.tokenStart..m.pos - 1];
    assert r.0.pos == m.pos && r.0.tokenReturned && r.0.status == MaybeControl;
    RenderStatic(t, e, r.1.token, m.tokenStart, m.pos - 1);
    assert MaybeControlInv(t, r.0.(tokenStart := r.0.pos), e + [r.1.token]);
  }

  lemma ControlRecon(t: string, m: Machine, e: seq<Token>)
    requires m.pos <= |t| && m.status == Control && ControlInv(t, m, e)
    ensures After(t, Step(t, m).0, Step(t, m).1, e)
  {
    if m.pos < |t| && t[m.pos] == '}' && m.braces == 1 {
      if !m.tokenReturned {
        ControlClosesRecon(t, m, e);
      } else {
        ControlResumesRecon(t, m, e);
      }
    } else if m.pos < |t| {
      ControlReadsRecon(t, m, e);
    }
  }

  /** The `}` at depth 1: the tag is returned and the `}` read again. */
  lemma ControlClosesRecon(t: string, m: Machine, e: seq<Token>)
    requires m.pos < |t| && m.status == Control && InTag(t, m, e)
    requires t[m.pos] == '}' && m.braces == 1
    ensures After(t, Step(t, m).0, Step(t, m).1, e)
  {
    var n := Advance(t, m);
    assert CharAt(t, m.pos) == Char('}');
    assert Step(t, m) == ControlStep(t, n, Char('}'));
    assert t[m.tokenStart..m.tokenStart + m.tokenLength] == t[m.tokenStart..m.pos];
    var tok := ControlToken(t[m.tokenStart..m.pos], n.html, n.currentLine);
    var n' := n.(pos := m.pos, tokenReturned := true);
    assert Step(t, m) == (n', Emit(tok));
    RenderTag(t, e, tok, m.tokenStart - 1, m.pos);
    assert ControlInv(t, n'.(tokenStart := n'.pos), e + [tok]);
  }

  /** The `}` read again: static text starts after it. */
  lemma ControlResumesRecon(t: string, m: Machine, e: seq<Token>)
    requires m.pos < |t| && m.status == Control && m.tokenReturned && ControlInv(t, m, e)
    ensures After(t, Step(t, m).0, Step(t, m).1, e)
  {
    var r := Step(t, m);
    assert r.1 == Continue;
    assert r.0.status == Static && r.0.pos == m.pos + 1 && r.0.tokenStart == m.pos + 1 && r.0.tokenLength == 0;
    assert r.0.pos <= |t| ==> StaticInv(t, r.0, e);
  }

  /** Any other character stays in the tag. */
  lemma ControlReadsRecon(t: string, m: Machine, e: seq<Token>)
    requires m.pos < |t| && m.status == Control && ControlInv(t, m, e)
    requires !(t[m.pos] == '}' && m.braces == 1)
    ensures After(t, Step(t, m).0, Step(t, m).1, e)
  {
    var r := Step(t, m);
    assert r.1 == Continue;
    assert r.0.pos == m.pos + 1 && r.0.tokenLength == m.tokenLength + 1 && r.0.tokenStart == m.tokenStart;
    assert r.0.status == Control || r.0.status == ControlQuoteDouble || r.0.status == ControlQuoteSingle;
    assert InTag(t, r.0, e);
  }

  lemma QuoteRecon(t: string, m: Machine, e: seq<Token>)
    requires m.pos <= |t| && InTag(t, m, e)
    requires m.status == ControlQuoteDouble || m.status == ControlQuoteSingle
    ensures After(t, Step(t, m).0, Step(t, m).1, e)
  {
    var n := Advance(t, m);
    var c := CharAt(t, m.pos);
    var q := if m.status == ControlQuoteDouble then '"' else '\'';
    var r := QuoteStep(n, c, q);
    var n', sig := r.0, r.1;
    assert Step(t, m) == (n', sig);
    if c != Eof {
      assert n'.pos == m.pos + 1 && n'.tokenLength == m.tokenLength + 1 && n'.tokenStart == m.tokenStart;
      assert n'.status == Control || n'.status == m.status;
      assert InTag(t, n', e);
      assert After(t, n', sig, e);
    }
  }

  lemma StepRecon(t: string, m: Machine, e: seq<Token>)
    requires NoCommentOpen(t)
    requires Recon(t, m, e) && m.pos <= |t|
    ensures After(t, Step(t, m).0, Step(t, m).1, e)
  {
    match m.status
    case Static => StaticRecon(t, m, e);
    case MaybeControl => MaybeControlRecon(t, m, e);
    case Control => ControlRecon(t, m, e);
    case ControlQuoteDouble => QuoteRecon(t, m, e);
    case ControlQuoteSingle => QuoteRecon(t, m, e);
  }

  lemma {:induction false} LoopRecon(t: string, m: Machine, e: seq<Token>)
    requires NoCommentOpen(t)
    requires Recon(t, m, e)
    decreases Measure(t, m)
    ensures var (n, sig) := Loop(t, m);
            && (sig.Emit? ==> Recon(t, n.(tokenStart := n.pos), e + [sig.token]))
            && (sig == Stop ==> Render(e) == t)
  {
    if m.pos <= |t| {
      StepRecon(t, m, e);
      var (n, sig) := Step(t, m);
      if sig == Continue {
        LoopRecon(t, n, e);
      }
    }
  }

  lemma {:induction false} RunRecon(t: string, m: Machine, e: seq<Token>)
    requires NoCommentOpen(t)
    requires m.pos <= |t| + 1 && Recon(t, m.(tokenStart := m.pos), e)
    decreases Measure(t, m)
    ensures Run(t, m, e).Ok? ==> Render(Run(t, m, e).value) == t
  {
    LoopRecon(t, m.(tokenStart := m.pos), e);
    var (n, sig) := Next(t, m);
    if sig.Emit? {
      RunRecon(t, n, e + [sig.token]);
    }
  }

  /** In input where no comment opens, the tokens give the input back: each
      Static token's text, and each Control token's text inside `{` `}`
      (lib/tokenizer.js:114, 126, 136-139, 147-149, 171-177). */
  lemma Reconstruction(t: string)
    requires NoCommentOpen(t)
    ensures Tokenize(t).Ok? ==> Render(Tokenize(t).value) == t
  {
    RunRecon(t, Initial(), []);
  }

  /** Every `{` is followed by a character that keeps it literal (or ends
      the input), so no tag or comment opens. */
  predicate NoTagOpen(t: string) {
    forall i :: 0 <= i < |t| - 1 && t[i] == '{' ==> KeepsBraceLiteral(t[i + 1])
  }

  /** While no tag opens, the whole input read so far is the pending token. */
  ghost predicate PlainInv(t: string, m: Machine) {
    && LinesOk(t, m) && m.pos <= |t|
    && !m.tokenReturned && m.tokenStart == 0 && m.tokenLength == m.pos
    && (m.status == Static || (m.status == MaybeControl && 1 <= m.pos && t[m.pos - 1] == '{'))
  }

  lemma {:induction false} PlainLoop(t: string, m: Machine)
    requires NoTagOpen(t) && PlainInv(t, m)
    decreases |t| - m.pos
    ensures Loop(t, m).0.pos == |t| + 1
    ensures Loop(t, m).1 == if |t| == 0 then Stop else Emit(StaticToken(t, 1 + Breaks(t, |t|)))
  {
    StepLines(t, m);
    var r := Step(t, m);
    if m.pos == |t| {
      assert Min(r.0.pos, |t|) == |t|;
      if |t| > 0 {
        assert Substr(t, 0, |t|) == t;
        assert r.1 == Emit(StaticToken(t, r.0.currentLine));
      } else {
        assert r.1 == Continue && r.0.pos == |t| + 1;
      }
    } else {
      assert r.1 == Continue;
      assert r.0.pos == m.pos + 1 && r.0.tokenLength == m.tokenLength + 1 && !r.0.tokenReturned;
      assert r.0.status == Static || (r.0.status == MaybeControl && t[m.pos] == '{');
      PlainLoop(t, r.0);
    }
  }

  /** Input in which no tag or comment opens is one Static token holding all
      of it, stamped with its last line; empty input has no tokens
      (lib/tokenizer.js:112-121, 130-133, 245). */
  lemma NoTagSingleStatic(t: string)
    requires NoTagOpen(t)
    ensures Tokenize(t) == Ok(if t == "" then [] else [StaticToken(t, 1 + Breaks(t, |t|))])
  {
    PlainLoop(t, Initial());
    assert Initial().(tokenStart := 0) == Initial();
    var (n, sig) := Next(t, Initial());
    if sig.Emit? {
      assert Next(t, n).1 == Stop;
      assert [] + [sig.token] == [sig.token];
      assert Run(t, n, [sig.token]) == Ok([sig.token]);
    }
  }

  /** Inside a comment, the characters up to the next `*` are skipped. */
  lemma {:induction false} CommentScan(t: string, m: Machine, j: nat)
    requires m.status == Comment && LinesOk(t, m)
    requires m.pos <= j < |t| && t[j] == '*'
    requires forall k :: m.pos <= k < j ==> t[k] != '*'
    decreases j - m.pos
    ensures Loop(t, m) == Loop(t, m.(status := CommentMaybeEnd, pos := j + 1, currentLine := 1 + Breaks(t, j + 1)))
  {
    StepLines(t, m);
    var r := Step(t, m);
    assert r.1 == Continue;
    if m.pos == j {
      assert r.0 == m.(status := CommentMaybeEnd, pos := j + 1, currentLine := 1 + Breaks(t, j + 1));
    } else {
      assert r.0 == m.(pos := m.pos + 1, currentLine := r.0.currentLine);
      CommentScan(t, r.0, j);
    }
  }

  /** The state just inside `{*` at the start of the input. */
  lemma CommentOpens(t: string)
    requires 2 <= |t| && t[0] == '{' && t[1] == '*'
    ensures Loop(t, Initial()) == Loop(t, Initial().(status := Comment, pos := 2, tokenLength := 1))
  {
    var r1 := Step(t, Initial());
    assert r1 == (Initial().(status := MaybeControl, pos := 1, tokenLength := 1), Continue);
    var r2 := Step(t, r1.0);
    assert r2 == (Initial().(status := Comment, pos := 2, tokenLength := 1), Continue);
  }

  /** The `}` ending a comment: the Comment token is returned and the `}`
      is read again. */
  lemma CommentCloses(t: string, m: Machine)
    requires m.status == CommentMaybeEnd && !m.tokenReturned && m.pos < |t| && t[m.pos] == '}'
    ensures Loop(t, m) == (m.(tokenReturned := true), Emit(CommentToken(m.currentLine)))
  {
    assert Step(t, m) == (m.(tokenReturned := true), Emit(CommentToken(m.currentLine)));
  }

  /** Reading the `}` again resumes static text after it. */
  lemma CommentResumes(t: string, m: Machine)
    requires m.status == CommentMaybeEnd && m.tokenReturned && m.pos < |t| && t[m.pos] == '}'
    ensures Loop(t, m) == Loop(t, m.(pos := m.pos + 1, tokenReturned := false, status := Static,
                                     tokenStart := m.pos + 1, tokenLength := 0))
  {
    assert Step(t, m) == (m.(pos := m.pos + 1, tokenReturned := false, status := Static,
                             tokenStart := m.pos + 1, tokenLength := 0), Continue);
  }

  /** Static state at the end of the input with nothing pending: null. */
  lemma StaticEndsBlank(t: string, m: Machine)
    requires m.status == Static && m.pos == |t| && m.tokenLength == 0
    ensures Loop(t, m).1 == Stop
  {
    assert Step(t, m).1 == Continue && Step(t, m).0.pos == |t| + 1;
  }

  /** The end of the input in each state (lib/tokenizer.js:113-114, 124-126,
      163-164, 191-192, 207-208, 223, 228): inside a tag or a string it is
      "Unexpected EOF" on the current line, in a comment it is null, and in
      static text the pending text is returned, or null if there is none. */
  lemma EndOfInput(t: string, m: Machine)
    requires m.pos == |t|
    ensures var sig := Loop(t, m).1;
      && (m.status == Control || m.status == ControlQuoteDouble || m.status == ControlQuoteSingle ==>
            sig == Fail("Unexpected EOF", m.currentLine))
      && (m.status == Comment || m.status == CommentMaybeEnd || m.status == Dead ==> sig == Stop)
      && ((m.status == Static && m.tokenLength > 0) || m.status == MaybeControl ==>
            sig == Emit(StaticToken(Substr(t, m.tokenStart, m.tokenLength), m.currentLine)))
      && (m.status == Static && m.tokenLength == 0 ==> sig == Stop)
  {
    var n := Advance(t, m);
    assert n == m.(pos := |t| + 1);
    assert Step(t, m) == Dispatch(t, n, Eof);
  }

  /** From the start of a template that opens with `{*`, the loop reads up
      to the first `*` of the comment. */
  lemma CommentToFirstStar(t: string, j: nat)
    requires 2 <= j < |t| && t[0] == '{' && t[1] == '*' && t[j] == '*'
    requires forall k :: 2 <= k < j ==> t[k] != '*'
    ensures Loop(t, Initial()) == Loop(t, Initial().(status := CommentMaybeEnd, pos := j + 1, tokenLength := 1,
                                                     currentLine := 1 + Breaks(t, j + 1)))
  {
    CommentOpens(t);
    assert Breaks(t, 2) == 0 by {
      assert Breaks(t, 1) == 0;
    }
    CommentScan(t, Initial().(status := Comment, pos := 2, tokenLength := 1), j);
  }

  /** The last `}` of a template, ending a comment: once it is read again
      the run stops with what it has. */
  lemma CommentEndsTemplate(t: string, m: Machine, acc: seq<Token>)
    requires m.status == CommentMaybeEnd && m.tokenReturned && m.pos == |t| - 1 && t[m.pos] == '}'
    ensures Run(t, m, acc) == Ok(acc)
  {
    var m2 := m.(tokenStart := m.pos);
    CommentResumes(t, m2);
    StaticEndsBlank(t, m2.(pos := |t|, tokenReturned := false, status := Static, tokenStart := |t|, tokenLength := 0));
  }

  /** A template that is one comment `{*` ... `*}` with no `*` inside is a
      single Comment token (lib/tokenizer.js:156-158, 222-239). */
  lemma CommentOnly(t: string, body: string)
    requires t == "{*" + body + "*}" && '*' !in body
    ensures Tokenize(t) == Ok([CommentToken(1 + Breaks(t, |t|))])
  {
    var j := |t| - 2;
    assert forall k :: 2 <= k < j ==> t[k] == body[k - 2];
    CommentToFirstStar(t, j);
    var line := 1 + Breaks(t, |t|);
    assert Breaks(t, |t|) == Breaks(t, j + 1);
    var m1 := Initial().(status := CommentMaybeEnd, pos := j + 1, tokenLength := 1, currentLine := line);
    CommentCloses(t, m1);
    assert Initial().(tokenStart := 0) == Initial();
    assert Next(t, Initial()) == (m1.(tokenReturned := true), Emit(CommentToken(line)));
    CommentEndsTemplate(t, m1.(tokenReturned := true), [CommentToken(line)]);
    assert [] + [CommentToken(line)] == [CommentToken(line)];
  }

  /** Reading on in the state no `case` matches never returns a token: the
      loop runs to the end of the input and `nextToken` returns null. */
  lemma {:induction false} DeadLoop(t: string, m: Machine)
    requires m.status == Dead && m.pos <= |t| + 1
    decreases |t| + 1 - m.pos
    ensures Loop(t, m).1 == Stop
  {
    if m.pos <= |t| {
      DeadLoop(t, Step(t, m).0);
    }
  }

  /** A comment in which a `*` is followed by a character other than `*` or
      `}` switches to the undefined status of lib/tokenizer.js:240: the rest
      of the template yields no tokens and no error. */
  lemma CommentStarSwallowsTemplate(t: string, body: string, c: char, rest: string)
    requires t == "{*" + body + "*" + [c] + rest && '*' !in body && c != '*' && c != '}'
    ensures Tokenize(t) == Ok([])
  {
    var j := 2 + |body|;
    assert forall k :: 2 <= k < j ==> t[k] == body[k - 2];
    CommentToFirstStar(t, j);
    var m1 := Initial().(status := CommentMaybeEnd, pos := j + 1, tokenLength := 1, currentLine := 1 + Breaks(t, j + 1));
    var r := Step(t, m1);
    assert r.1 == Continue && r.0.status == Dead;
    DeadLoop(t, r.0);
    assert Initial().(tokenStart := 0) == Initial();
  }
}
