/** Whole templates through the compiler: a block tag alone on its line
    leaves no trace of its line in the output, and an unclosed block is an
    error. */
module CompilerExamples {
  import opened Text
  import Tok = TemplateTokenizer
  import opened TokenClassifier
  import opened CompilerSpec
  import opened CompilerProofs

  /** The last whitespace-only line of `s` starts right after its last line
      break when only spaces and tabs follow it. */
  lemma LastEmptyLineAt(s: string, k: nat)
    requires 0 < k <= |s| && IsNewline(s[k - 1])
    requires forall j :: k <= j < |s| ==> IsBlank(s[j])
    ensures LastEmptyLineIndex(s) == k
  {
    EmptyLineFromAt(s, k, |s|);
  }

  lemma {:induction false} EmptyLineFromAt(s: string, k: nat, i: nat)
    requires 0 < k <= i <= |s| && IsNewline(s[k - 1])
    requires forall j :: k <= j < i ==> IsBlank(s[j])
    ensures EmptyLineFrom(s, i) == k
    decreases i
  {
    if i > k {
      EmptyLineFromAt(s, k, i - 1);
    }
  }

  function Line(kind: TokenType, content: string, line: nat): Option<Typed> {
    Some(Typed(kind, content, Tok.Normal, line))
  }

  /** The header `compileTemplate` writes before the tokens. */
  function Header(env: Env): seq<Instr> {
    [Prologue, RunOpen, InitWrite(None), Variables(env.identifiers)]
  }

  /** Text that ends with a line break. */
  predicate EndsLine(s: string) {
    |s| > 0 && IsNewline(s[|s| - 1])
  }

  /** Spaces and tabs only. */
  predicate Indent(s: string) {
    forall j :: 0 <= j < |s| ==> IsBlank(s[j])
  }

  /** Static text ending in a line break and indentation: the text is
      written and the indentation held back. */
  lemma StaticLine(st: CState, l: string, ind: string)
    requires st.leadingSpaces == "" && st.skip == 0 && EndsLine(l) && Indent(ind)
    ensures StaticStep(st, l + ind) == Emit(st, EmitStatic(l)).(firstOnLine := true, leadingSpaces := ind)
  {
    var a := l + ind;
    LastEmptyLineAt(a, |l|);
    assert Suffix(a, 0) == a;
    assert Substr(a, 0, |l|) == l;
    assert Suffix(a, |l|) == ind;
  }

  /** The same after a tag alone on its line, whose line break is skipped. */
  lemma StaticAfterBreak(st: CState, l: string, ind: string)
    requires st.leadingSpaces == "" && st.skip == 1 && EndsLine(l) && Indent(ind)
    ensures StaticStep(st, "\n" + l + ind) == Emit(st, EmitStatic(l)).(firstOnLine := true, leadingSpaces := ind, skip := 0)
  {
    var a := l + ind;
    assert Suffix("\n" + l + ind, 1) == a;
    LastEmptyLineAt(a, |l|);
    assert Substr(a, 0, |l|) == l;
    assert Suffix(a, |l|) == ind;
  }

  /** A template `l1 ind1 {if cond} \n body ind2 {/} \n l2` whose three
      lines of text end in line breaks and whose indentations are spaces and
      tabs, such as "line1\n    {if true}\n    text\n    {/}\nline2\n". */
  datatype Layout = Layout(l1: string, ind1: string, cond: string, body: string, ind2: string, l2: string)

  predicate ElisionText(t: Layout) {
    EndsLine(t.l1) && Indent(t.ind1) && EndsLine(t.body) && Indent(t.ind2) && EndsLine(t.l2)
  }

  /** "line1\n    {if true}\n    text\n    {/}\nline2\n" has that layout, and
      the text it should write is "line1\n    text\nline2\n". */
  lemma LayoutExample(t: Layout)
    requires t == Layout("line1\n", "    ", "true", "    text\n", "    ", "line2\n")
    ensures ElisionText(t)
    ensures t.l1 + t.body + t.l2 == "line1\n    text\nline2\n"
  {
  }

  /** The tokens of that template. */
  predicate ElisionTokens(env: Env, t: Layout) {
    ElisionText(t)
    && env.tokens == [Line(Static, t.l1 + t.ind1, 2), Line(If, t.cond, 2), Line(Static, "\n" + t.body + t.ind2, 4),
                      Line(End, "", 4), Line(Static, "\n" + t.l2, 6), None]
  }

  /** The first line's text up to its break is written; its indentation is
      held back, since a tag may follow alone on the line. */
  lemma ElisionLine1(env: Env, t: Layout, st: CState)
    requires ElisionTokens(env, t) && st == Start().(output := Header(env))
    ensures TokensStep(env, st) == Ok(Go(CState(st.output + [EmitStatic(t.l1)], 1, 0, [], [], t.ind1, true, 0, 2)))
  {
    var s := st.(offset := 1, currentLine := 2);
    StaticLine(s, t.l1, t.ind1);
    assert TokensStep(env, st) == Ok(Go(PlainStep(env, s, env.tokens[0].value)));
  }

  /** `{if cond}` alone on its line: the held-back indentation and the line
      break after the tag are both dropped. */
  lemma ElisionOpen(env: Env, t: Layout, o: seq<Instr>, st: CState)
    requires ElisionTokens(env, t) && st == CState(o, 2, 0, [], [], t.ind1, true, 0, 2)
    ensures OpenBlock(env, st, "if", t.cond) == CState(o + [Open("if", t.cond)], 2, 1, [], [], "", false, 1, 2)
  {
    assert ("\n" + t.body + t.ind2)[0] == '\n';
  }

  /** The body's text after the skipped line break is written up to its
      last line break; the indentation before `{/}` is held back. */
  lemma ElisionBody(env: Env, t: Layout, o: seq<Instr>, st: CState)
    requires ElisionTokens(env, t) && st == CState(o, 2, 1, [], [], "", false, 1, 2)
    ensures TokensStep(env, st) == Ok(Go(CState(o + [EmitStatic(t.body)], 3, 1, [], [], t.ind2, true, 0, 4)))
  {
    var s := st.(offset := 3, currentLine := 4);
    var tok := env.tokens[2].value;
    assert tok == Typed(Static, "\n" + t.body + t.ind2, Tok.Normal, 4);
    StaticAfterBreak(s, t.body, t.ind2);
    var r := CState(o + [EmitStatic(t.body)], 3, 1, [], [], t.ind2, true, 0, 4);
    assert StaticStep(s, tok.content) == r;
    assert PlainStep(env, s, tok) == r;
    assert TokensStep(env, st) == Ok(Go(PlainStep(env, s, tok)));
  }

  /** `{/}` alone on its line: again indentation and line break are dropped. */
  lemma ElisionEnd(env: Env, t: Layout, o: seq<Instr>, st: CState)
    requires ElisionTokens(env, t) && st == CState(o, 3, 1, [], [], t.ind2, true, 0, 4)
    ensures TokensStep(env, st) == Ok(Done(CState(o, 4, 1, [], [], "", false, 1, 4)))
  {
    assert ("\n" + t.l2)[0] == '\n';
    var s := st.(offset := 4, currentLine := 4);
    assert TokensStep(env, st) == EndStep(env, s, "");
  }

  /** The body of the block, compiled from the open tag to the block end. */
  lemma ElisionBlockBody(env: Env, t: Layout, o: seq<Instr>, st: CState)
    requires ElisionTokens(env, t) && st == CState(o, 2, 1, [], [], "", false, 1, 2)
    ensures CompileTokens(env, st) == Ok(CState(o + [EmitStatic(t.body)], 4, 1, [], [], "", false, 1, 4))
  {
    ElisionBody(env, t, o, st);
    var s3 := CState(o + [EmitStatic(t.body)], 3, 1, [], [], t.ind2, true, 0, 4);
    ElisionEnd(env, t, o + [EmitStatic(t.body)], s3);
    assert CompileTokens(env, st) == CompileTokens(env, s3);
  }

  /** The whole block, from `{if cond}` to `{/}`, once its tag is read. */
  lemma ElisionIf(env: Env, t: Layout, o: seq<Instr>, s: CState)
    requires ElisionTokens(env, t) && s == CState(o, 2, 0, [], [], t.ind1, true, 0, 2)
    ensures CompileBlock(env, s, "if", t.cond) ==
      Ok(CState(o + [Open("if", t.cond)] + [EmitStatic(t.body)] + [CloseBlock], 4, 0, [], [], "", false, 1, 4))
  {
    ElisionOpen(env, t, o, s);
    var o1 := o + [Open("if", t.cond)];
    var b := CState(o1, 2, 1, [], [], "", false, 1, 2);
    ElisionBlockBody(env, t, o1, b);
    var e := CState(o1 + [EmitStatic(t.body)], 4, 1, [], [], "", false, 1, 4);
    assert CompileTokens(env, b) == Ok(e);
  }

  /** The step of the token loop that reads the block. */
  lemma ElisionBlock(env: Env, t: Layout, o: seq<Instr>, st: CState)
    requires ElisionTokens(env, t) && st == CState(o, 1, 0, [], [], t.ind1, true, 0, 2)
    ensures TokensStep(env, st) ==
      Ok(Go(CState(o + [Open("if", t.cond)] + [EmitStatic(t.body)] + [CloseBlock], 4, 0, [], [], "", false, 1, 4)))
  {
    var s := st.(offset := 2, currentLine := 2);
    ElisionIf(env, t, o, s);
    var tok := env.tokens[1].value;
    assert tok == Typed(If, t.cond, Tok.Normal, 2);
    assert TokensStep(env, st) == Wrap(NestedStep(env, s, tok));
  }

  /** The last line, after the skipped line break. */
  lemma ElisionLine2(env: Env, t: Layout, o: seq<Instr>, st: CState)
    requires ElisionTokens(env, t) && st == CState(o, 4, 0, [], [], "", false, 1, 4)
    ensures TokensStep(env, st) == Ok(Go(CState(o + [EmitStatic(t.l2)], 5, 0, [], [], "", true, 0, 6)))
  {
    var s := st.(offset := 5, currentLine := 6);
    assert t.l2 + "" == t.l2;
    assert Indent("");
    StaticAfterBreak(s, t.l2, "");
    assert TokensStep(env, st) == Ok(Go(PlainStep(env, s, env.tokens[4].value)));
  }

  /** The last line and the end of input. */
  lemma ElisionTail(env: Env, t: Layout, o: seq<Instr>, st: CState)
    requires ElisionTokens(env, t) && st == CState(o, 4, 0, [], [], "", false, 1, 4)
    ensures CompileTokens(env, st) == Ok(CState(o + [EmitStatic(t.l2)], 6, 0, [], [], "", true, 0, 6))
  {
    var r := CState(o + [EmitStatic(t.l2)], 5, 0, [], [], "", true, 0, 6);
    ElisionLine2(env, t, o, st);
    assert TokensStep(env, r) == Ok(Done(r.(offset := 6)));
    assert CompileTokens(env, st) == CompileTokens(env, r);
  }

  /** The token loop over the whole template. */
  lemma ElisionRun(env: Env, t: Layout)
    requires ElisionTokens(env, t)
    ensures CompileTokens(env, Start().(output := Header(env))) ==
      Ok(CState(Header(env) + [EmitStatic(t.l1)] + [Open("if", t.cond)] + [EmitStatic(t.body)] + [CloseBlock] + [EmitStatic(t.l2)],
                6, 0, [], [], "", true, 0, 6))
  {
    var st := Start().(output := Header(env));
    ElisionLine1(env, t, st);
    var o1 := Header(env) + [EmitStatic(t.l1)];
    var s1 := CState(o1, 1, 0, [], [], t.ind1, true, 0, 2);
    ElisionBlock(env, t, o1, s1);
    var o2 := o1 + [Open("if", t.cond)] + [EmitStatic(t.body)] + [CloseBlock];
    var s2 := CState(o2, 4, 0, [], [], "", false, 1, 4);
    ElisionTail(env, t, o2, s2);
    assert CompileTokens(env, st) == CompileTokens(env, s1);
  }

  /** A block tag alone on its line takes its line with it: a template
      such as "line1\n    {if true}\n    text\n    {/}\nline2\n" writes the
      first line, the body inside the `if` and the last line, and neither
      the indentation before a tag nor the line break after it. */
  lemma StandaloneElision(env: Env, t: Layout)
    requires ElisionTokens(env, t)
    ensures CompileTemplate(env) ==
      Ok(Header(env) + [EmitStatic(t.l1), Open("if", t.cond), EmitStatic(t.body), CloseBlock, EmitStatic(t.l2), RunClose, Epilogue([])])
    ensures StaticText(CompileTemplate(env).value) == t.l1 + t.body + t.l2
  {
    ElisionRun(env, t);
    var h := Header(env);
    var o := h + [EmitStatic(t.l1)] + [Open("if", t.cond)] + [EmitStatic(t.body)] + [CloseBlock] + [EmitStatic(t.l2)];
    assert CompileTemplate(env) == Ok(o + [RunClose, Epilogue([])]);
    assert o + [RunClose, Epilogue([])] == o + [RunClose] + [Epilogue([])];
    Appends(h, EmitStatic(t.l1), Open("if", t.cond), EmitStatic(t.body), CloseBlock, EmitStatic(t.l2), RunClose, Epilogue([]));
    HeaderText(env);
    ElisionStaticText(h, t.l1, t.cond, t.body, t.l2);
  }

  lemma Appends(h: seq<Instr>, x1: Instr, x2: Instr, x3: Instr, x4: Instr, x5: Instr, x6: Instr, x7: Instr)
    ensures h + [x1] + [x2] + [x3] + [x4] + [x5] + [x6] + [x7] == h + [x1, x2, x3, x4, x5, x6, x7]
  {
  }

  /** The text written by the instructions of that template. */
  lemma ElisionStaticText(h: seq<Instr>, l1: string, cond: string, body: string, l2: string)
    requires StaticText(h) == ""
    ensures StaticText(h + [EmitStatic(l1)] + [Open("if", cond)] + [EmitStatic(body)] + [CloseBlock]
                         + [EmitStatic(l2)] + [RunClose] + [Epilogue([])]) == l1 + body + l2
  {
    var o1 := h + [EmitStatic(l1)];
    StaticTextEmit(h, EmitStatic(l1));
    assert StaticText(o1) == l1;
    var o2 := o1 + [Open("if", cond)];
    StaticTextEmit(o1, Open("if", cond));
    assert StaticText(o2) == l1;
    var o3 := o2 + [EmitStatic(body)];
    StaticTextEmit(o2, EmitStatic(body));
    assert StaticText(o3) == l1 + body;
    var o4 := o3 + [CloseBlock];
    StaticTextEmit(o3, CloseBlock);
    assert StaticText(o4) == l1 + body;
    var o5 := o4 + [EmitStatic(l2)];
    StaticTextEmit(o4, EmitStatic(l2));
    assert StaticText(o5) == l1 + body + l2;
    var o6 := o5 + [RunClose];
    StaticTextEmit(o5, RunClose);
    assert StaticText(o6) == l1 + body + l2;
    StaticTextEmit(o6, Epilogue([]));
  }

  /** The header writes no text. */
  lemma HeaderText(env: Env)
    ensures StaticText(Header(env)) == ""
  {
    StaticTextEmit([], Prologue);
    assert [] + [Prologue] == [Prologue];
    StaticTextEmit([Prologue], RunOpen);
    assert [Prologue] + [RunOpen] == [Prologue, RunOpen];
    StaticTextEmit([Prologue, RunOpen], InitWrite(None));
    assert [Prologue, RunOpen] + [InitWrite(None)] == [Prologue, RunOpen, InitWrite(None)];
    StaticTextEmit([Prologue, RunOpen, InitWrite(None)], Variables(env.identifiers));
    assert [Prologue, RunOpen, InitWrite(None)] + [Variables(env.identifiers)] == Header(env);
  }

  /** A block left open at the end of input is an error at the line of the
      last token. */
  lemma UnclosedBlock(env: Env, cond: string, line: nat)
    requires env.tokens == [Line(If, cond, line), None]
    ensures CompileTemplate(env) == Err(CompilerException("Unexpected EOF", env.filename, line))
  {
    var st := Start().(output := Header(env));
    var s := st.(offset := 1, currentLine := line);
    var o := OpenBlock(env, s, "if", cond);
    assert o.offset == 1 && o.blocks == 1 && o.currentLine == line;
    var e := CompilerException("Unexpected EOF", env.filename, line);
    assert TokensStep(env, o) == Err(e);
    assert CompileTokens(env, o) == Err(e);
    assert CompileBlock(env, s, "if", cond) == Err(e);
    assert TokensStep(env, st) == Wrap(NestedStep(env, s, env.tokens[0].value));
    assert TokensStep(env, st) == Err(e);
    assert CompileTokens(env, st) == Err(e);
  }
}
