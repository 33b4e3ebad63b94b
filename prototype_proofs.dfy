/** Properties of the cutter.js tokenizer: the state machine is proved equal
    to `Lex`, a direct reading of a template (text, then `{` up to the first
    `}`), and the documented behaviour is proved about `Lex`. */
module PrototypeProofs {
  import opened Text
  import opened PrototypeTokenizer

  /** The tokens `ts` put ahead of a result. */
  function Prepend(ts: seq<Token>, r: Result<seq<Token>, Thrown>): Result<seq<Token>, Thrown> {
    match r
    case Ok(us) => Ok(ts + us)
    case Err(e) => Err(e)
  }

  /** Pending static text as the tokens it becomes: none when it is empty. */
  function Pending(s: string): seq<Token> {
    if s == [] then [] else [EchoToken(s)]
  }

  /** The first `}` at or after `k`, or `|t|` when there is none. */
  function CloseFrom(t: string, k: nat): (j: nat)
    requires k <= |t|
    decreases |t| - k
    ensures k <= j <= |t|
    ensures j < |t| ==> t[j] == '}'
    ensures forall q :: k <= q < j ==> t[q] != '}'
  {
    if k == |t| || t[k] == '}' then k else CloseFrom(t, k + 1)
  }

  /** A `{` at `i` followed by a character that does not keep it literal. */
  predicate OpensTag(t: string, i: nat) {
    i + 1 < |t| && t[i] == '{' && !KeepsBraceLiteral(t[i + 1])
  }

  /** The reference reading of `t` from index `i`, with `t[s..i]` pending as
      static text: a `{` that opens a tag ends the pending text, and the
      first `}` after it closes the tag; a tag that is never closed throws;
      everything else is static text. */
  function Lex(t: string, i: nat, s: nat): Result<seq<Token>, Thrown>
    requires s <= i <= |t|
    decreases |t| - i, 1
  {
    if i == |t| then Ok(Pending(t[s..]))
    else if OpensTag(t, i) then LexTag(t, i, s)
    else Lex(t, i + 1, s)
  }

  /** A tag opened at `i`. */
  function LexTag(t: string, i: nat, s: nat): Result<seq<Token>, Thrown>
    requires s <= i && OpensTag(t, i)
    decreases |t| - i, 0
  {
    var j := CloseFrom(t, i + 1);
    if j == |t| then Err(EmptyObject)
    else Prepend(Pending(t[s..i]) + [ControlToken(t[i + 1..j])], Lex(t, j + 1, j + 1))
  }

  // ------------------------------------------------ the machine is Lex

  /** The rest of a run from inside a call of `nextToken`: finish the loop,
      then go on calling. */
  function Cont(t: string, m: Machine, acc: seq<Token>): Result<seq<Token>, Thrown>
    requires m.pos <= |t| + 1
  {
    var (n, sig) := Loop(t, m);
    if sig.Emit? then Run(t, n, acc + [sig.token])
    else if sig == Throw then Err(EmptyObject)
    else Ok(acc)
  }

  lemma PrependConcat(a: seq<Token>, b: seq<Token>, r: Result<seq<Token>, Thrown>)
    ensures Prepend(a, Prepend(b, r)) == Prepend(a + b, r)
  {
    if r.Ok? {
      assert a + (b + r.value) == (a + b) + r.value;
    }
  }

  /** One iteration of the loop, as seen by the rest of the run. */
  lemma ContStep(t: string, m: Machine, acc: seq<Token>)
    requires m.pos <= |t|
    ensures var (n, sig) := Step(t, m);
      Cont(t, m, acc) ==
        if sig == Continue then Cont(t, n, acc)
        else if sig.Emit? then Cont(t, n.(tokenStart := n.pos), acc + [sig.token])
        else if sig == Throw then Err(EmptyObject)
        else Ok(acc)
  {
  }

  /** Static text: `t[tokenStart..pos]` is pending. */
  lemma {:induction false} EchoSim(t: string, m: Machine, acc: seq<Token>)
    requires m.status == Echo && !m.tokenReturned
    requires m.tokenStart + m.tokenLength == m.pos <= |t|
    ensures Cont(t, m, acc) == Prepend(acc, Lex(t, m.pos, m.tokenStart))
    decreases |t| + 1 - m.pos
  {
    ContStep(t, m, acc);
    var (n, sig) := Step(t, m);
    if m.pos == |t| {
      if m.tokenLength > 0 {
        EchoAtEnd(t, m, acc);
      } else {
        assert sig == Continue && n.pos == |t| + 1;
        assert Cont(t, n, acc) == Ok(acc);
        assert acc + [] == acc;
      }
    } else if t[m.pos] == '{' {
      MaybeSim(t, n, acc);
    } else {
      EchoSim(t, n, acc);
    }
  }

  /** At the end of the input the pending text is the last token. */
  lemma EchoAtEnd(t: string, m: Machine, acc: seq<Token>)
    requires m.status == Echo || m.status == MaybeControl
    requires 0 < m.tokenLength && m.tokenStart + m.tokenLength == m.pos == |t|
    ensures Cont(t, m, acc) == Ok(acc + [EchoToken(t[m.tokenStart..])])
  {
    var tok := EchoToken(t[m.tokenStart..]);
    assert t[m.tokenStart..m.tokenStart + m.tokenLength] == t[m.tokenStart..];
    var n := m.(pos := m.pos + 1);
    assert Step(t, m) == (n, Emit(tok));
    assert Cont(t, n.(tokenStart := n.pos), acc + [tok]) == Ok(acc + [tok]);
  }

  /** Just after a `{` whose static text `t[tokenStart..pos]` includes it. */
  lemma {:induction false} MaybeSim(t: string, m: Machine, acc: seq<Token>)
    requires m.status == MaybeControl && !m.tokenReturned
    requires 1 <= m.pos <= |t| && t[m.pos - 1] == '{'
    requires 1 <= m.tokenLength && m.tokenStart + m.tokenLength == m.pos
    ensures Cont(t, m, acc) == Prepend(acc, Lex(t, m.pos - 1, m.tokenStart))
    decreases |t| + 1 - m.pos
  {
    var i, s := m.pos - 1, m.tokenStart;
    if m.pos == |t| {
      EchoAtEnd(t, m, acc);
      assert Lex(t, i, s) == Lex(t, |t|, s);
    } else if KeepsBraceLiteral(t[m.pos]) {
      ContStep(t, m, acc);
      EchoSim(t, Step(t, m).0, acc);
      assert Lex(t, i, s) == Lex(t, m.pos, s);
    } else {
      TagSim(t, m, acc);
    }
  }

  /** A `{` that opens a tag: the pending text before it, if any, is
      returned, then the tag is read. */
  lemma TagSim(t: string, m: Machine, acc: seq<Token>)
    requires m.status == MaybeControl && !m.tokenReturned
    requires 1 <= m.pos < |t| && t[m.pos - 1] == '{' && !KeepsBraceLiteral(t[m.pos])
    requires 1 <= m.tokenLength && m.tokenStart + m.tokenLength == m.pos
    ensures Cont(t, m, acc) == Prepend(acc, Lex(t, m.pos - 1, m.tokenStart))
    decreases |t| + 1 - m.pos, 0
  {
    var i, s, k := m.pos - 1, m.tokenStart, m.pos;
    var e := Pending(t[s..i]);
    TagOpens(t, m, acc);
    ControlSim(t, Machine(Control, k + 1, k, 1, false), acc + e);
    TagClosed(t, i, s, acc);
  }

  /** The first character of a tag: the machine returns the pending text
      (and reads the character again) or, with none pending, goes on. */
  lemma TagOpens(t: string, m: Machine, acc: seq<Token>)
    requires m.status == MaybeControl && !m.tokenReturned
    requires 1 <= m.pos < |t| && t[m.pos - 1] == '{' && !KeepsBraceLiteral(t[m.pos])
    requires 1 <= m.tokenLength && m.tokenStart + m.tokenLength == m.pos
    ensures Cont(t, m, acc) ==
      Cont(t, Machine(Control, m.pos + 1, m.pos, 1, false), acc + Pending(t[m.tokenStart..m.pos - 1]))
  {
    var i, s, k := m.pos - 1, m.tokenStart, m.pos;
    var e := Pending(t[s..i]);
    var c := Machine(Control, k + 1, k, 1, false);
    ContStep(t, m, acc);
    var (n, sig) := Step(t, m);
    if m.tokenLength > 1 {
      assert t[s..s + (m.tokenLength - 1)] == t[s..i];
      assert sig == Emit(EchoToken(t[s..i]));
      var n' := n.(tokenStart := n.pos);
      ContStep(t, n', acc + e);
      assert Step(t, n').0 == c;
    } else {
      assert e == [];
      assert n == c;
      assert acc + e == acc;
    }
  }

  /** What the reading of a tag gives, as `Lex` has it. */
  lemma TagClosed(t: string, i: nat, s: nat, acc: seq<Token>)
    requires s <= i && OpensTag(t, i)
    ensures Closed(t, i + 1, acc + Pending(t[s..i])) == Prepend(acc, Lex(t, i, s))
  {
    var e := Pending(t[s..i]);
    var j := CloseFrom(t, i + 1);
    assert Lex(t, i, s) == LexTag(t, i, s);
    if j < |t| {
      var tag := [ControlToken(t[i + 1..j])];
      PrependConcat(acc, e + tag, Lex(t, j + 1, j + 1));
      assert acc + e + tag == acc + (e + tag);
    }
  }

  /** In a tag that starts at `k`: the first `}` returns it, or the input
      ends and the tokenizer throws. */
  function Closed(t: string, k: nat, acc: seq<Token>): Result<seq<Token>, Thrown>
    requires k <= |t|
  {
    var j := CloseFrom(t, k);
    if j == |t| then Err(EmptyObject)
    else Prepend(acc + [ControlToken(t[k..j])], Lex(t, j + 1, j + 1))
  }

  lemma {:induction false} ControlSim(t: string, m: Machine, acc: seq<Token>)
    requires m.status == Control && !m.tokenReturned
    requires m.tokenStart + m.tokenLength == m.pos <= |t|
    requires forall q :: m.tokenStart <= q < m.pos ==> t[q] != '}'
    ensures Cont(t, m, acc) == Closed(t, m.tokenStart, acc)
    decreases |t| + 1 - m.pos, 1
  {
    ContStep(t, m, acc);
    var (n, sig) := Step(t, m);
    var k := m.tokenStart;
    if m.pos < |t| && t[m.pos] == '}' {
      var tok := ControlToken(t[k..m.pos]);
      assert sig == Emit(tok);
      var n' := n.(tokenStart := n.pos);
      ContStep(t, n', acc + [tok]);
      var n2 := Step(t, n').0;
      assert n2 == Machine(Echo, m.pos + 1, m.pos + 1, 0, false);
      EchoSim(t, n2, acc + [tok]);
    } else if m.pos < |t| {
      ControlSim(t, n, acc);
    }
  }

  /** The tokens the machine returns, or its throw, are those of the
      reference reading (cutter.js:56-126). */
  lemma TokenizeIsLex(t: string)
    ensures Tokenize(t) == Lex(t, 0, 0)
  {
    assert Tokenize(t) == Cont(t, Initial(), []);
    EchoSim(t, Initial(), []);
    var r := Lex(t, 0, 0);
    if r.Ok? {
      assert [] + r.value == r.value;
    }
  }

  // ------------------------------------------------ reconstruction

  /** The source text a token stands for: a tag gets its braces back. */
  function RenderToken(tok: Token): string {
    match tok
    case EchoToken(s) => s
    case ControlToken(s) => "{" + s + "}"
  }

  function Render(ts: seq<Token>): string {
    if ts == [] then "" else RenderToken(ts[0]) + Render(ts[1..])
  }

  lemma {:induction false} RenderConcat(a: seq<Token>, b: seq<Token>)
    ensures Render(a + b) == Render(a) + Render(b)
  {
    if a != [] {
      assert (a + b)[1..] == a[1..] + b;
      RenderConcat(a[1..], b);
    } else {
      assert a + b == b;
    }
  }

  /** The text of a tag at `i..j` with its braces, between what comes
      before and after it. */
  lemma Bracketed(t: string, s: nat, i: nat, j: nat)
    requires s <= i < j < |t| && t[i] == '{' && t[j] == '}'
    ensures t[s..] == t[s..i] + ("{" + t[i + 1..j] + "}") + t[j + 1..]
  {
    assert t[s..] == t[s..i] + [t[i]] + t[i + 1..j] + [t[j]] + t[j + 1..];
  }

  lemma RenderTag(t: string, s: nat, i: nat, j: nat, us: seq<Token>)
    requires s <= i < j < |t| && t[i] == '{' && t[j] == '}'
    requires Render(us) == t[j + 1..]
    ensures Render(Pending(t[s..i]) + [ControlToken(t[i + 1..j])] + us) == t[s..]
  {
    var tag := [ControlToken(t[i + 1..j])];
    RenderConcat(Pending(t[s..i]) + tag, us);
    RenderConcat(Pending(t[s..i]), tag);
    assert Render(tag) == "{" + t[i + 1..j] + "}";
    Bracketed(t, s, i, j);
  }

  lemma {:induction false} LexRender(t: string, i: nat, s: nat)
    requires s <= i <= |t|
    ensures Lex(t, i, s).Ok? ==> Render(Lex(t, i, s).value) == t[s..]
    decreases |t| - i, 1
  {
    if i == |t| {
      RenderPending(t[s..]);
    } else if OpensTag(t, i) {
      LexTagRender(t, i, s);
    } else {
      LexRender(t, i + 1, s);
    }
  }

  lemma {:induction false} LexTagRender(t: string, i: nat, s: nat)
    requires s <= i && OpensTag(t, i)
    ensures LexTag(t, i, s).Ok? ==> Render(LexTag(t, i, s).value) == t[s..]
    decreases |t| - i, 0
  {
    var j := CloseFrom(t, i + 1);
    if j < |t| {
      LexRender(t, j + 1, j + 1);
      var rest := Lex(t, j + 1, j + 1);
      var pre := Pending(t[s..i]) + [ControlToken(t[i + 1..j])];
      assert LexTag(t, i, s) == Prepend(pre, rest);
      if rest.Ok? {
        assert LexTag(t, i, s).value == pre + rest.value;
        RenderTag(t, s, i, j, rest.value);
      }
    }
  }

  lemma RenderPending(s: string)
    ensures Render(Pending(s)) == s
  {
    if s != [] {
      assert Render([EchoToken(s)]) == s + Render([]);
    }
  }

  /** The tokens give the template back: each ECHO token's text, and each
      CONTROL token's text between `{` and `}` (cutter.js:85-97, 106-116). */
  lemma Reconstruction(t: string)
    ensures Tokenize(t).Ok? ==> Render(Tokenize(t).value) == t
  {
    TokenizeIsLex(t);
    LexRender(t, 0, 0);
    assert t[0..] == t;
  }

  // ------------------------------------------------ text without tags

  /** Every `{` is followed by a character that keeps it literal, or ends
      the input, so no tag opens. */
  predicate NoTagOpen(t: string) {
    forall i :: 0 <= i < |t| - 1 && t[i] == '{' ==> KeepsBraceLiteral(t[i + 1])
  }

  predicate NoControl(ts: seq<Token>) {
    forall k :: 0 <= k < |ts| ==> ts[k].EchoToken?
  }

  lemma {:induction false} LexPlain(t: string, i: nat, s: nat)
    requires s <= i <= |t| && NoTagOpen(t)
    ensures Lex(t, i, s) == Ok(Pending(t[s..]))
    decreases |t| - i
  {
    if i < |t| {
      LexPlain(t, i + 1, s);
    }
  }

  /** A tag always gives a CONTROL token or a throw. */
  lemma LexTagControl(t: string, i: nat, s: nat)
    requires s <= i && OpensTag(t, i)
    ensures LexTag(t, i, s).Ok? ==> !NoControl(LexTag(t, i, s).value)
  {
    var j := CloseFrom(t, i + 1);
    if j < |t| && Lex(t, j + 1, j + 1).Ok? {
      var head := Pending(t[s..i]) + [ControlToken(t[i + 1..j])];
      var us := Lex(t, j + 1, j + 1).value;
      assert (head + us)[|head| - 1] == ControlToken(t[i + 1..j]);
    }
  }

  /** A run that gives no CONTROL token opened no tag after `i`. */
  lemma {:induction false} LexPlainOnly(t: string, i: nat, s: nat)
    requires s <= i <= |t|
    requires Lex(t, i, s).Ok? && NoControl(Lex(t, i, s).value)
    ensures forall k :: i <= k < |t| - 1 && t[k] == '{' ==> KeepsBraceLiteral(t[k + 1])
    decreases |t| - i
  {
    if i < |t| {
      if OpensTag(t, i) {
        LexTagControl(t, i, s);
      } else {
        LexPlainOnly(t, i + 1, s);
      }
    }
  }

  /** Input in which no `{` starts a tag is one ECHO token equal to the
      input, or no token at all when it is empty (cutter.js:63-71, 79-82,
      125); and only such input gives no CONTROL token. */
  lemma PlainText(t: string)
    ensures NoTagOpen(t) ==> Tokenize(t) == Ok(if t == [] then [] else [EchoToken(t)])
    ensures Tokenize(t).Ok? && NoControl(Tokenize(t).value) ==> NoTagOpen(t)
  {
    TokenizeIsLex(t);
    assert t[0..] == t;
    if NoTagOpen(t) {
      LexPlain(t, 0, 0);
    }
    if Tokenize(t).Ok? && NoControl(Tokenize(t).value) {
      LexPlainOnly(t, 0, 0);
    }
  }

  // ------------------------------------------------ the first tag

  /** Text without `{` is skipped as pending static text. */
  lemma {:induction false} LexSkip(t: string, i: nat, j: nat, s: nat)
    requires s <= i <= j <= |t|
    requires forall k :: i <= k < j ==> t[k] != '{'
    ensures Lex(t, i, s) == Lex(t, j, s)
    decreases j - i
  {
    if i < j {
      LexSkip(t, i + 1, j, s);
    }
  }

  /** Finding `}` after a prefix `p` is finding it in the rest. */
  lemma {:induction false} CloseShift(p: string, b: string, k: nat)
    requires k <= |b|
    ensures CloseFrom(p + b, |p| + k) == |p| + CloseFrom(b, k)
    decreases |b| - k
  {
    if k < |b| {
      assert (p + b)[|p| + k] == b[k];
      CloseShift(p, b, k + 1);
    }
  }

  /** Reading after a prefix `p` is reading the rest on its own. */
  lemma {:induction false} LexShift(p: string, b: string, i: nat, s: nat)
    requires s <= i <= |b|
    ensures Lex(p + b, |p| + i, |p| + s) == Lex(b, i, s)
    decreases |b| - i
  {
    var t := p + b;
    if i == |b| {
      assert t[|p| + s..] == b[s..];
    } else {
      assert t[|p| + i] == b[i];
      if i + 1 < |b| {
        assert t[|p| + i + 1] == b[i + 1];
      }
      if OpensTag(b, i) {
        assert OpensTag(t, |p| + i);
        LexTagShift(p, b, i, s);
      } else {
        assert !OpensTag(t, |p| + i);
        LexShift(p, b, i + 1, s);
      }
    }
  }

  lemma {:induction false} LexTagShift(p: string, b: string, i: nat, s: nat)
    requires s <= i && OpensTag(b, i) && OpensTag(p + b, |p| + i)
    ensures LexTag(p + b, |p| + i, |p| + s) == LexTag(b, i, s)
    decreases |b| - i, 0
  {
    var t := p + b;
    CloseShift(p, b, i + 1);
    var j := CloseFrom(b, i + 1);
    if j < |b| {
      LexShift(p, b, j + 1, j + 1);
      SliceShift(p, b, s, i);
      SliceShift(p, b, i + 1, j);
    }
  }

  lemma SliceShift(p: string, b: string, x: nat, y: nat)
    requires x <= y <= |b|
    ensures (p + b)[|p| + x..|p| + y] == b[x..y]
  {
  }

  /** Where the pieces of `a + "{" + x + c` are. */
  lemma TagLayout(a: string, x: string, c: string)
    ensures var t := a + "{" + x + c; var i := |a|;
      && |t| == i + 1 + |x| + |c| && t[i] == '{'
      && (forall k :: 0 <= k < i ==> t[k] == a[k])
      && (forall q :: i + 1 <= q < i + 1 + |x| ==> t[q] == x[q - i - 1])
      && (forall q :: i + 1 + |x| <= q < |t| ==> t[q] == c[q - i - 1 - |x|])
      && t[0..i] == a && t[i + 1..i + 1 + |x|] == x
  {
    var t := a + "{" + x + c;
    var i := |a|;
    assert t[0..i] == a;
    assert t[i + 1..i + 1 + |x|] == x;
  }

  /** The first `}` after a tag opens closes it: quotes and braces inside
      are not tracked. The static text before the tag loses its `{`, the
      tag's text loses both braces, and the rest is read on its own
      (cutter.js:83-98, 105-116). */
  lemma FirstBraceCloses(a: string, x: string, b: string)
    requires '{' !in a
    requires |x| > 0 && !KeepsBraceLiteral(x[0]) && '}' !in x
    ensures Tokenize(a + "{" + x + "}" + b) == Prepend(Pending(a) + [ControlToken(x)], Tokenize(b))
  {
    var p := a + "{" + x + "}";
    var t := p + b;
    var i := |a|;
    var j := i + 1 + |x|;
    TokenizeIsLex(t);
    TokenizeIsLex(b);
    TagLayout(a, x, "}" + b);
    assert t == a + "{" + x + ("}" + b);
    LexSkip(t, 0, i, 0);
    assert t[j] == '}';
    assert CloseFrom(t, i + 1) == j;
    LexShift(p, b, 0, 0);
  }

  /** A tag the input ends inside throws (cutter.js:100-103). */
  lemma UnclosedTagThrows(a: string, x: string)
    requires '{' !in a
    requires |x| > 0 && !KeepsBraceLiteral(x[0]) && '}' !in x
    ensures Tokenize(a + "{" + x) == Err(EmptyObject)
  {
    var t := a + "{" + x;
    var i := |a|;
    TokenizeIsLex(t);
    TagLayout(a, x, []);
    assert t == a + "{" + x + [];
    LexSkip(t, 0, i, 0);
    assert CloseFrom(t, i + 1) == |t|;
  }
}
