/** How the tokenizer reads a stretch of static text, a quoted string and a
    tag, each stated against an independent description of that stretch. */
module TokenizerScans {
  import opened Text
  import opened TemplateTokenizer

  // ---------------------------------------------------------------- HTML

  /** `changeHtmlContext` applied to each character of `t[p..j]` in turn,
      from the context `ctx` and tag-just-opened flag `justOpened`. */
  function HtmlFold(t: string, p: nat, j: nat, ctx: HtmlContext, justOpened: bool): (HtmlContext, bool)
    requires p <= j <= |t|
    decreases j - p
  {
    if j == p then (ctx, justOpened)
    else
      var h := HtmlFold(t, p, j - 1, ctx, justOpened);
      HtmlTransition(h.0, h.1, Char(t[j - 1]))
  }

  /** Whether position `k` sets the context: `<`, `>`, or `!` right after
      `<` (or first, when a tag had just opened before `p`). */
  predicate IsMarker(t: string, p: nat, k: nat, justOpened: bool)
    requires p <= k < |t|
  {
    t[k] == '<' || t[k] == '>' || (t[k] == '!' && (if k == p then justOpened else t[k - 1] == '<'))
  }

  function MarkerContext(c: char): HtmlContext {
    if c == '<' then Element else if c == '>' then Normal else CommentOrCdata
  }

  /** The context after `t[p..j]`: set by its last marker, else `ctx`. */
  function LastMarkerContext(t: string, p: nat, j: nat, ctx: HtmlContext, justOpened: bool): HtmlContext
    requires p <= j <= |t|
    decreases j - p
  {
    if j == p then ctx
    else if IsMarker(t, p, j - 1, justOpened) then MarkerContext(t[j - 1])
    else LastMarkerContext(t, p, j - 1, ctx, justOpened)
  }

  /** The fold of `changeHtmlContext` is the last-marker rule, and a tag has
      just opened exactly when the last character was `<`
      (lib/tokenizer.js:85-99). */
  lemma {:induction false} HtmlFoldIsLastMarker(t: string, p: nat, j: nat, ctx: HtmlContext, justOpened: bool)
    requires p <= j <= |t|
    decreases j - p
    ensures HtmlFold(t, p, j, ctx, justOpened).0 == LastMarkerContext(t, p, j, ctx, justOpened)
    ensures HtmlFold(t, p, j, ctx, justOpened).1 == if j == p then justOpened else t[j - 1] == '<'
  {
    if j > p {
      HtmlFoldIsLastMarker(t, p, j - 1, ctx, justOpened);
    }
  }

  /** One character of static text other than `{`. */
  lemma StaticStepAt(t: string, m: Machine)
    requires m.status == Static && LinesOk(t, m) && m.pos < |t| && t[m.pos] != '{'
    ensures var h := HtmlTransition(m.html, m.htmlTagJustOpened, Char(t[m.pos]));
            Step(t, m) == (m.(pos := m.pos + 1, tokenLength := m.tokenLength + 1, html := h.0,
                              htmlTagJustOpened := h.1, currentLine := 1 + Breaks(t, m.pos + 1)), Continue)
  {
    StepLines(t, m);
  }

  /** Reading static text with no `{` from `p` on advances over it, folding
      the HTML context over each character; nothing is returned before its
      end (lib/tokenizer.js:112-121). */
  lemma {:induction false} StaticScan(t: string, m: Machine, p: nat, k: nat, ctx: HtmlContext, justOpened: bool)
    returns (n: Machine)
    requires m.status == Static && LinesOk(t, m)
    requires p <= m.pos <= k <= |t| && forall j :: m.pos <= j < k ==> t[j] != '{'
    requires (m.html, m.htmlTagJustOpened) == HtmlFold(t, p, m.pos, ctx, justOpened)
    decreases k - m.pos
    ensures n.status == Static && n.pos == k && n.tokenLength == m.tokenLength + (k - m.pos)
    ensures (n.html, n.htmlTagJustOpened) == HtmlFold(t, p, k, ctx, justOpened)
    ensures n.currentLine == 1 + Breaks(t, k)
    ensures n.tokenStart == m.tokenStart && n.tokenReturned == m.tokenReturned && n.braces == m.braces
    ensures n.quotesEscape == m.quotesEscape
    ensures Loop(t, m) == Loop(t, n)
  {
    n := m;
    if m.pos < k {
      StaticStepAt(t, m);
      n := Step(t, m).0;
      LoopContinues(t, m);
      n := StaticScan(t, n, p, k, ctx, justOpened);
    }
  }

  // ------------------------------------------------------------- strings

  /** The number of backslashes that end `t[p..j]`. */
  function TrailingBackslashes(t: string, p: nat, j: nat): nat
    requires p <= j <= |t|
    decreases j - p
  {
    if j == p || t[j - 1] != '\\' then 0 else 1 + TrailingBackslashes(t, p, j - 1)
  }

  /** A character at `j` in a string whose text starts at `p` is escaped:
      an odd run of backslashes comes before it. */
  predicate Escaped(t: string, p: nat, j: nat)
    requires p <= j <= |t|
  {
    TrailingBackslashes(t, p, j) % 2 == 1
  }

  /** The unescaped quote character at `j` ends a string started at `p`. */
  predicate EndsString(t: string, p: nat, j: nat, q: char)
    requires p <= j < |t|
  {
    t[j] == q && !Escaped(t, p, j)
  }

  /** One character inside a quoted string whose text starts at `p`: the
      escape flag afterwards is the parity of the trailing backslashes, and
      the string ends on an unescaped quote character. */
  lemma QuoteStepAt(t: string, m: Machine, p: nat, q: char)
    requires (m.status == ControlQuoteDouble && q == '"') || (m.status == ControlQuoteSingle && q == '\'')
    requires LinesOk(t, m) && p <= m.pos < |t|
    requires m.quotesEscape == Escaped(t, p, m.pos)
    ensures Step(t, m).1 == Continue
    ensures Step(t, m).0 == m.(status := if EndsString(t, p, m.pos, q) then Control else m.status,
                               pos := m.pos + 1, tokenLength := m.tokenLength + 1,
                               quotesEscape := Escaped(t, p, m.pos + 1), currentLine := 1 + Breaks(t, m.pos + 1))
  {
    StepLines(t, m);
  }

  /** Inside a quoted string whose text starts at `p`, the loop reads on,
      flipping the escape flag on each backslash, up to the first quote
      character `k` that is not escaped, and goes back to the tag state
      there; a `}` on the way closes nothing (lib/tokenizer.js:185-186,
      190-220). */
  lemma {:induction false} QuoteScan(t: string, m: Machine, p: nat, k: nat, q: char) returns (n: Machine)
    requires (m.status == ControlQuoteDouble && q == '"') || (m.status == ControlQuoteSingle && q == '\'')
    requires LinesOk(t, m) && p <= m.pos <= k < |t|
    requires m.quotesEscape == Escaped(t, p, m.pos)
    requires EndsString(t, p, k, q) && forall j :: m.pos <= j < k ==> !EndsString(t, p, j, q)
    decreases k - m.pos
    ensures n.status == Control && n.pos == k + 1 && n.tokenLength == m.tokenLength + (k + 1 - m.pos)
    ensures !n.quotesEscape && n.currentLine == 1 + Breaks(t, k + 1)
    ensures n.tokenStart == m.tokenStart && n.tokenReturned == m.tokenReturned && n.braces == m.braces
    ensures n.html == m.html && n.htmlTagJustOpened == m.htmlTagJustOpened
    ensures Loop(t, m) == Loop(t, n)
  {
    QuoteStepAt(t, m, p, q);
    n := Step(t, m).0;
    LoopContinues(t, m);
    if m.pos < k {
      assert !EndsString(t, p, m.pos, q);
      n := QuoteScan(t, n, p, k, q);
    }
  }

  // ---------------------------------------------------------------- tags

  /** Opening braces minus closing braces in `t[p..j]`. */
  function Net(t: string, p: nat, j: nat): int
    requires p <= j <= |t|
    decreases j - p
  {
    if j == p then 0
    else Net(t, p, j - 1) + (if t[j - 1] == '{' then 1 else if t[j - 1] == '}' then -1 else 0)
  }

  /** Whether the `}` at `j` of a tag whose text starts at `p` is at depth 1. */
  predicate ClosesTag(t: string, p: nat, j: nat)
    requires p <= j < |t|
  {
    t[j] == '}' && Net(t, p, j) == 0
  }

  /** One character of a tag without quotes whose text starts at `p`. */
  lemma TagStepAt(t: string, m: Machine, p: nat)
    requires m.status == Control && !m.tokenReturned && LinesOk(t, m)
    requires m.tokenStart == p && p + m.tokenLength == m.pos < |t|
    requires m.braces == 1 + Net(t, p, m.pos) && t[m.pos] != '"' && t[m.pos] != '\''
    ensures ClosesTag(t, p, m.pos) ==>
      Step(t, m) == (m.(tokenReturned := true, currentLine := 1 + Breaks(t, m.pos)),
                     Emit(ControlToken(t[p..m.pos], m.html, 1 + Breaks(t, m.pos))))
    ensures !ClosesTag(t, p, m.pos) ==>
      Step(t, m) == (m.(pos := m.pos + 1, tokenLength := m.tokenLength + 1, braces := 1 + Net(t, p, m.pos + 1),
                        currentLine := 1 + Breaks(t, m.pos + 1)), Continue)
  {
    StepLines(t, m);
    assert Breaks(t, m.pos + 1) == Breaks(t, m.pos) + (if IsLineBreak(t, m.pos) then 1 else 0);
  }

  /** In a tag without quotes whose text starts at `p`, the loop counts the
      brace depth and reads on to the first `}` at depth 1; it returns the
      tag's text there and steps back onto that `}` (lib/tokenizer.js:160-189). */
  lemma {:induction false} TagScan(t: string, m: Machine, p: nat, k: nat)
    requires m.status == Control && !m.tokenReturned && LinesOk(t, m)
    requires m.tokenStart == p && p + m.tokenLength == m.pos && m.pos <= k < |t|
    requires m.braces == 1 + Net(t, p, m.pos)
    requires forall j :: m.pos <= j <= k ==> t[j] != '"' && t[j] != '\''
    requires ClosesTag(t, p, k) && forall j :: m.pos <= j < k ==> !ClosesTag(t, p, j)
    decreases k - m.pos
    ensures Loop(t, m) == (m.(pos := k, tokenReturned := true, tokenLength := k - p, braces := 1,
                              currentLine := 1 + Breaks(t, k)),
                           Emit(ControlToken(t[p..k], m.html, 1 + Breaks(t, k))))
  {
    TagStepAt(t, m, p);
    if m.pos < k {
      var n := Step(t, m).0;
      LoopContinues(t, m);
      TagScan(t, n, p, k);
    }
  }

  // ------------------------------------------------------- a first tag

  /** A `{` followed by a character that opens a tag, with nothing pending
      before the `{` (or that text already returned): the tag state starts
      on that character, at depth 2 if it is another `{` (lib/tokenizer.js:141-158). */
  lemma OpensTag(t: string, m: Machine)
    requires m.status == MaybeControl && LinesOk(t, m) && m.pos < |t|
    requires !KeepsBraceLiteral(t[m.pos]) && t[m.pos] != '*' && t[m.pos] != '"' && t[m.pos] != '\''
    requires m.tokenLength <= 1 || m.tokenReturned
    ensures Step(t, m).1 == Continue
    ensures Step(t, m).0 == m.(status := Control, pos := m.pos + 1, tokenStart := m.pos, tokenLength := 1,
                               tokenReturned := m.tokenReturned && m.tokenLength <= 1,
                               braces := 1 + Net(t, m.pos, m.pos + 1), currentLine := 1 + Breaks(t, m.pos + 1))
  {
    StepLines(t, m);
  }

  /** A `{` followed by a character that opens a tag, after pending static
      text: that text is returned and the character read again
      (lib/tokenizer.js:134-139). */
  lemma ReturnsTextBeforeTag(t: string, m: Machine)
    requires m.status == MaybeControl && LinesOk(t, m) && m.pos < |t|
    requires !KeepsBraceLiteral(t[m.pos]) && m.tokenLength > 1 && !m.tokenReturned
    requires m.tokenStart + m.tokenLength == m.pos
    ensures Step(t, m) == (m.(tokenReturned := true), Emit(StaticToken(t[m.tokenStart..m.pos - 1], m.currentLine)))
  {
    StepLines(t, m);
    assert Breaks(t, m.pos + 1) == Breaks(t, m.pos);
  }

  /** Every run that succeeds keeps the tokens it was given in front. */
  lemma {:induction false} RunKeepsPrefix(t: string, m: Machine, acc: seq<Token>)
    requires m.pos <= |t| + 1
    decreases Measure(t, m)
    ensures Run(t, m, acc).Ok? ==> acc <= Run(t, m, acc).value
  {
    var r := Next(t, m);
    if r.1.Emit? {
      RunKeepsPrefix(t, r.0, acc + [r.1.token]);
    }
  }

  /** From the start of a template whose first `{` is at `b`, the loop reads
      the text before it as static text and stops in the maybe-tag state just
      after it. */
  lemma TextThenBrace(t: string, b: nat) returns (n: Machine)
    requires b < |t| && t[b] == '{' && forall j :: 0 <= j < b ==> t[j] != '{'
    ensures n == Initial().(status := MaybeControl, pos := b + 1, tokenLength := b + 1,
                            html := LastMarkerContext(t, 0, b, Normal, false),
                            htmlTagJustOpened := HtmlFold(t, 0, b, Normal, false).1,
                            currentLine := 1 + Breaks(t, b + 1))
    ensures Next(t, Initial()) == Loop(t, n)
  {
    assert Initial().(tokenStart := 0) == Initial();
    var a := StaticScan(t, Initial(), 0, b, Normal, false);
    HtmlFoldIsLastMarker(t, 0, b, Normal, false);
    StepLines(t, a);
    assert Breaks(t, b + 1) == Breaks(t, b);
    n := Step(t, a).0;
    LoopContinues(t, a);
  }

  /** From the maybe-tag state on a character that opens a tag without
      quotes, the loop reads the tag to its first `}` at depth 1 and returns
      its text with the context the HTML scan is in. */
  lemma TagAfterBrace(t: string, m: Machine, k: nat) returns (n: Machine)
    requires m.status == MaybeControl && LinesOk(t, m) && m.pos < k < |t|
    requires if m.tokenLength <= 1 then !m.tokenReturned else m.tokenReturned
    requires !KeepsBraceLiteral(t[m.pos]) && t[m.pos] != '*'
    requires forall j :: m.pos <= j <= k ==> t[j] != '"' && t[j] != '\''
    requires ClosesTag(t, m.pos, k) && forall j :: m.pos <= j < k ==> !ClosesTag(t, m.pos, j)
    ensures n.pos == k
    ensures Loop(t, m) == (n, Emit(ControlToken(t[m.pos..k], m.html, 1 + Breaks(t, k))))
  {
    OpensTag(t, m);
    var c := Step(t, m).0;
    LoopContinues(t, m);
    TagScan(t, c, m.pos, k);
    n := Loop(t, c).0;
  }

  /** A template whose first `{` is at `p - 1` and opens a tag without
      quotes whose text runs from `p` to a `}` at `k`: its first tokens are
      the text before the `{` (when there is any) and the tag's text, stamped
      with the HTML context that the last marker in that text set
      (lib/tokenizer.js:85-99, 112-121, 134-171). */
  lemma FirstTag(t: string, p: nat, k: nat)
    requires 1 <= p < k < |t| && t[p - 1] == '{' && forall j :: 0 <= j < p - 1 ==> t[j] != '{'
    requires !KeepsBraceLiteral(t[p]) && t[p] != '*'
    requires forall j :: p <= j <= k ==> t[j] != '"' && t[j] != '\''
    requires ClosesTag(t, p, k) && forall j :: p <= j < k ==> !ClosesTag(t, p, j)
    ensures var text := if p == 1 then [] else [StaticToken(t[..p - 1], 1 + Breaks(t, p - 1))];
            var tag := ControlToken(t[p..k], LastMarkerContext(t, 0, p - 1, Normal, false), 1 + Breaks(t, k));
            Tokenize(t).Ok? ==> text + [tag] <= Tokenize(t).value
  {
    var tag := ControlToken(t[p..k], LastMarkerContext(t, 0, p - 1, Normal, false), 1 + Breaks(t, k));
    if p == 1 {
      TagAtStart(t, k);
      assert [] + [tag] == [tag];
    } else {
      TagAfterText(t, p, k);
    }
  }

  /** The tag when the template starts with `{`. */
  lemma TagAtStart(t: string, k: nat)
    requires 1 < k < |t| && t[0] == '{'
    requires !KeepsBraceLiteral(t[1]) && t[1] != '*'
    requires forall j :: 1 <= j <= k ==> t[j] != '"' && t[j] != '\''
    requires ClosesTag(t, 1, k) && forall j :: 1 <= j < k ==> !ClosesTag(t, 1, j)
    ensures Tokenize(t).Ok? ==>
      [ControlToken(t[1..k], LastMarkerContext(t, 0, 0, Normal, false), 1 + Breaks(t, k))] <= Tokenize(t).value
  {
    var m := TextThenBrace(t, 0);
    var tag := ControlToken(t[1..k], LastMarkerContext(t, 0, 0, Normal, false), 1 + Breaks(t, k));
    var n := TagAfterBrace(t, m, k);
    RunEmit(t, Initial(), [], n, tag);
    assert [] + [tag] == [tag];
    RunKeepsPrefix(t, n, [tag]);
  }

  /** The text and the tag when text comes before the first `{`. */
  lemma TagAfterText(t: string, p: nat, k: nat)
    requires 2 <= p < k < |t| && t[p - 1] == '{' && forall j :: 0 <= j < p - 1 ==> t[j] != '{'
    requires !KeepsBraceLiteral(t[p]) && t[p] != '*'
    requires forall j :: p <= j <= k ==> t[j] != '"' && t[j] != '\''
    requires ClosesTag(t, p, k) && forall j :: p <= j < k ==> !ClosesTag(t, p, j)
    ensures Tokenize(t).Ok? ==>
      [StaticToken(t[..p - 1], 1 + Breaks(t, p - 1)),
       ControlToken(t[p..k], LastMarkerContext(t, 0, p - 1, Normal, false), 1 + Breaks(t, k))] <= Tokenize(t).value
  {
    var b := p - 1;
    var m' := TextFirst(t, b);
    var text := StaticToken(t[..b], 1 + Breaks(t, b));
    var tag := ControlToken(t[b + 1..k], LastMarkerContext(t, 0, b, Normal, false), 1 + Breaks(t, k));
    var n := TagAfterBrace(t, m'.(tokenStart := b + 1), k);
    assert Next(t, m') == (n, Emit(tag));
    RunEmit(t, m', [text], n, tag);
    assert [text] + [tag] == [text, tag];
    RunKeepsPrefix(t, n, [text, tag]);
  }

  /** The text before the first `{`, returned when the next character
      opens a tag; the `{` is then read again. */
  lemma TextFirst(t: string, b: nat) returns (m: Machine)
    requires 1 <= b && b + 1 < |t| && t[b] == '{' && forall j :: 0 <= j < b ==> t[j] != '{'
    requires !KeepsBraceLiteral(t[b + 1])
    ensures m == Initial().(status := MaybeControl, pos := b + 1, tokenLength := b + 1,
                            html := LastMarkerContext(t, 0, b, Normal, false),
                            htmlTagJustOpened := HtmlFold(t, 0, b, Normal, false).1,
                            currentLine := 1 + Breaks(t, b + 1), tokenReturned := true)
    ensures Run(t, Initial(), []) == Run(t, m, [StaticToken(t[..b], 1 + Breaks(t, b))])
  {
    var a := TextThenBrace(t, b);
    ReturnsTextBeforeTag(t, a);
    assert Breaks(t, b + 1) == Breaks(t, b);
    m := a.(tokenReturned := true);
    var text := StaticToken(t[..b], 1 + Breaks(t, b));
    assert Loop(t, a) == (m, Emit(text));
    RunEmit(t, Initial(), [], m, text);
    assert [] + [text] == [text];
  }

  /** A call of `nextToken` that returns a token adds it to the list. */
  lemma RunEmit(t: string, m: Machine, acc: seq<Token>, n: Machine, tok: Token)
    requires m.pos <= |t| + 1 && Next(t, m) == (n, Emit(tok))
    ensures Run(t, m, acc) == Run(t, n, acc + [tok])
  {
  }
}
