/** Properties of the compiler: the whitespace policy, the error cases and
    the dependency list. */
module CompilerProofs {
  import opened Text
  import opened TokenClassifier
  import opened CompilerSpec

  // ------------------------------------------------------- static text

  /** The text the `EmitStatic` instructions of `out` write, in order. */
  function StaticText(out: seq<Instr>): string {
    if out == [] then ""
    else StaticText(out[..|out| - 1]) + (if out[|out| - 1].EmitStatic? then out[|out| - 1].text else "")
  }

  lemma StaticTextEmit(out: seq<Instr>, i: Instr)
    ensures StaticText(out + [i]) == StaticText(out) + (if i.EmitStatic? then i.text else "")
  {
    assert (out + [i])[..|out|] == out;
  }

  /** What `addStaticText` adds to the written text is exactly its argument. */
  lemma AddStaticTextWrites(st: CState, text: string)
    ensures StaticText(AddStaticText(st, text).output) == StaticText(st.output) + text
  {
    if text != "" {
      StaticTextEmit(st.output, EmitStatic(text));
    }
  }

  lemma SubstrSuffix(c: string, k: nat)
    ensures Substr(c, 0, k) + Suffix(c, k) == c
  {
    if k <= |c| {
      assert c[..k] + c[k..] == c;
    }
  }

  // ------------------------------------------------------- whitespace

  /** The first character from `i` on that is neither a space nor a tab. */
  function FirstNonBlank(s: string, i: nat): (j: nat)
    requires i <= |s|
    ensures i <= j <= |s|
    ensures forall k :: i <= k < j ==> IsBlank(s[k])
    ensures j < |s| ==> !IsBlank(s[j])
    decreases |s| - i
  {
    if i == |s| || !IsBlank(s[i]) then i else FirstNonBlank(s, i + 1)
  }

  /** What `skipWhitespaces` assigns, in terms of the first non-blank
      character of the next static text: past a `\n`, a `\r\n` or a lone
      `\r`; 0 when another character comes first; nothing when the text is
      blank to its end. */
  lemma {:induction false} SkipScanCases(s: string, i: nat)
    requires i <= |s|
    ensures var j := FirstNonBlank(s, i);
      SkipScan(s, i) ==
        if j == |s| then None
        else if s[j] == '\n' then Some(j + 1)
        else if s[j] == '\r' then Some(if j + 1 < |s| && s[j + 1] == '\n' then j + 2 else j + 1)
        else Some(0)
    decreases |s| - i
  {
    if i < |s| && IsBlank(s[i]) {
      SkipScanCases(s, i + 1);
    }
  }

  /** With `firstOnLine` false, what `handleWhitespaces` writes of the next
      static text is exactly the prefix that text loses to `skip`: no
      character is lost and none written twice. */
  lemma NoTextLost(env: Env, st: CState, t: Typed)
    requires TokenAt(env, st.offset) == Some(t) && t.kind == Static
    requires SpacesInv(st) && !st.firstOnLine
    ensures StaticText(HandleWhitespaces(env, st).output) + Suffix(t.content, HandleWhitespaces(env, st).skip)
            == StaticText(st.output) + t.content
  {
    var s := SkipWhitespaces(env, st);
    var h := HandleWhitespaces(env, st);
    assert s.output == st.output && s.leadingSpaces == "";
    if s.skip == 0 {
      assert h == s;
      assert Suffix(t.content, 0) == t.content;
    } else {
      var a := AddStaticText(s, Substr(t.content, 0, s.skip));
      assert AddTrailingSpaces(env, s) == a;
      assert h == a.(leadingSpaces := "", firstOnLine := false);
      AddStaticTextWrites(s, Substr(t.content, 0, s.skip));
      SubstrSuffix(t.content, s.skip);
    }
  }

  /** A tag alone on its line: the indentation held back before it and the
      line break after it are both dropped. */
  lemma StandaloneTagElided(env: Env, st: CState, t: Typed, k: nat)
    requires TokenAt(env, st.offset) == Some(t) && t.kind == Static && st.firstOnLine
    requires SkipScan(t.content, 0) == Some(k) && k != 0
    ensures HandleWhitespaces(env, st) == st.(skip := k, leadingSpaces := "", firstOnLine := false)
  {
  }

  /** The static branch writes its text up to the last whitespace-only line
      and holds that line back: nothing of the text after the skipped prefix
      is lost. */
  lemma StaticStepKeepsText(st: CState, content: string)
    requires st.leadingSpaces == ""
    ensures StaticText(StaticStep(st, content).output) + StaticStep(st, content).leadingSpaces
            == StaticText(st.output) + Suffix(content, st.skip)
  {
    var c := Suffix(content, st.skip);
    var idx := LastEmptyLineIndex(c);
    var index: nat := if idx != -1 then idx else |c|;
    AddStaticTextWrites(st.(firstOnLine := idx != -1), Substr(c, 0, index));
    SubstrSuffix(c, index);
  }

  // ------------------------------------------------------- errors

  /** The end of input inside an open block. */
  lemma EofInsideBlock(env: Env, st: CState)
    requires st.offset < |env.tokens| && env.tokens[st.offset].None? && st.blocks != 0
    ensures CompileTokens(env, st) == Err(CompilerException("Unexpected EOF", env.filename, st.currentLine))
    ensures CompileChildTemplate(env, st) == Err(CompilerException("Unexpected EOF", env.filename, st.currentLine))
  {
  }

  /** A block end with no block open. */
  lemma EndOutsideBlock(env: Env, st: CState, t: Typed)
    requires st.offset < |env.tokens| && env.tokens[st.offset] == Some(t) && t.kind == End && st.blocks == 0
    ensures CompileTokens(env, st) == Err(CompilerException("Unexpected block end", env.filename, t.line))
    ensures CompileChildTemplate(env, st) == Err(CompilerException("Unexpected block end", env.filename, t.line))
  {
    var s := st.(offset := st.offset + 1, currentLine := t.line);
    assert TokensStep(env, st) == EndStep(env, s, t.content);
    assert ChildStep(env, st) == ChildToken(env, s, t);
  }

  /** A block end with text after the slash. */
  lemma EndWithContent(env: Env, st: CState, t: Typed)
    requires st.offset < |env.tokens| && env.tokens[st.offset] == Some(t) && t.kind == End
    requires st.blocks != 0 && t.content != ""
    ensures CompileTokens(env, st) ==
            Err(CompilerException("Unexpected '" + t.content + "' after '/'", env.filename, t.line))
    ensures CompileChildTemplate(env, st) ==
            Err(CompilerException("Unexpected '" + t.content + "' after '/'", env.filename, t.line))
  {
    var s := st.(offset := st.offset + 1, currentLine := t.line);
    assert TokensStep(env, st) == EndStep(env, s, t.content);
    assert ChildStep(env, st) == ChildToken(env, s, t);
  }

  /** Kinds with no branch: a raw control token, `foreach`, and the
      classifier's `write_js_escape`, since the compiler's branch tests the
      undefined `TokenType.WRITE_ESC` instead. */
  lemma NoBranch(env: Env, st: CState, t: Typed)
    requires st.offset < |env.tokens| && env.tokens[st.offset] == Some(t)
    requires t.kind == Control || t.kind == Foreach || t.kind == WriteJsEscape
    ensures CompileTokens(env, st) ==
            Err(CompilerException("Unexpected token '" + TypeName(t.kind) + "'", env.filename, t.line))
  {
    var s := st.(offset := st.offset + 1, currentLine := t.line);
    assert TokensStep(env, st) == Wrap(NestedStep(env, s, t));
  }

  /** In a child template, text other than whitespace is an error. */
  lemma ChildRejectsText(env: Env, st: CState, t: Typed)
    requires st.offset < |env.tokens| && env.tokens[st.offset] == Some(t)
    requires t.kind == Static && Trim(t.content) != ""
    ensures CompileChildTemplate(env, st) ==
            Err(CompilerException("Unexpected non-empty static content", env.filename, t.line))
  {
    var s := st.(offset := st.offset + 1, currentLine := t.line);
    assert ChildStep(env, st) == ChildToken(env, s, t);
  }

  /** The kinds a child template may hold. */
  predicate ChildKind(k: TokenType) {
    k.Static? || k.Comment? || k.InlineJs? || k.End? || k.Section? || k.If? || k.ElseIf? || k.Else? || k.Export?
  }

  /** In a child template, any other kind is an error. */
  lemma ChildRejectsKind(env: Env, st: CState, t: Typed)
    requires st.offset < |env.tokens| && env.tokens[st.offset] == Some(t) && !ChildKind(t.kind)
    ensures CompileChildTemplate(env, st) ==
            Err(CompilerException("Unexpected token '" + TypeName(t.kind) + "'", env.filename, t.line))
  {
    var s := st.(offset := st.offset + 1, currentLine := t.line);
    assert ChildStep(env, st) == Wrap(ChildNested(env, s, t));
  }

  // ------------------------------------------------------- block structure

  /** One iteration of `compileTokens` returns from the loop only on the EOF
      token or on a block end closing an open block, and consumes just that token. */
  lemma StepDone(env: Env, st: CState)
    requires st.offset < |env.tokens| && TokensStep(env, st).Ok? && TokensStep(env, st).value.Done?
    ensures TokensStep(env, st).value.st.offset == st.offset + 1
    ensures env.tokens[st.offset].None? || (st.blocks != 0 && env.tokens[st.offset].value.kind == End)
  {
    var tok := env.tokens[st.offset];
    if tok.Some? {
      assert !IsPlain(tok.value.kind);
    }
  }

  /** `compileTokens` returns normally at the end of the token list, right
      after the EOF token, or right after a block end when it was called
      inside an open block. */
  lemma {:induction false} BodyEnds(env: Env, st: CState)
    requires st.offset <= |env.tokens| && CompileTokens(env, st).Ok?
    ensures var r := CompileTokens(env, st).value;
      r.offset == |env.tokens| ||
      (0 < r.offset && (env.tokens[r.offset - 1].None? || (st.blocks != 0 && env.tokens[r.offset - 1].value.kind == End)))
    decreases |env.tokens| - st.offset
  {
    if st.offset < |env.tokens| {
      var f := TokensStep(env, st).value;
      if f.Done? {
        StepDone(env, st);
      } else {
        BodyEnds(env, f.st);
      }
    }
  }

  /** At the top level, where no block is open, compiling runs to the EOF
      token: a stray block end is an error, never a way out. */
  lemma TopLevelRunsToEof(env: Env, st: CState)
    requires st.offset <= |env.tokens| && st.blocks == 0 && CompileTokens(env, st).Ok?
    ensures var r := CompileTokens(env, st).value;
      r.offset == |env.tokens| || (0 < r.offset && env.tokens[r.offset - 1].None?)
  {
    BodyEnds(env, st);
  }

  // ------------------------------------------------------- calls and dependencies

  /** The target of a call is the text before the first `|`, trimmed, and
      the rest, trimmed, becomes the parameter object; with no `|` the whole
      text is the target and the parameters are `{}`. */
  lemma SplitTargetCases(content: string)
    ensures '|' !in content ==> SplitTarget(content) == (content, "{}")
    ensures forall i :: 0 <= i < |content| && content[i] == '|' && '|' !in content[..i] ==>
      SplitTarget(content) == (Trim(content[..i]), "{" + Trim(content[i + 1..]) + "}")
  {
    forall i | 0 <= i < |content| && content[i] == '|' && '|' !in content[..i]
      ensures SplitTarget(content) == (Trim(content[..i]), "{" + Trim(content[i + 1..]) + "}")
    {
      IndexOfFirst(content, '|', i);
    }
  }

  /** An include adds its file to the dependencies once, except `include this`,
      which calls the template's own run function. */
  lemma IncludeDeps(st: CState, content: string)
    ensures var file := SplitTarget(content).0;
      CompileInclude(st, content).deps == if file == "this" then st.deps else st.deps + [file]
  {
  }

  /** A parent call adds its file once, after the whole child template is
      compiled, and its call is the last code emitted. */
  lemma ParentDeps(env: Env, st: CState, content: string)
    requires st.offset <= |env.tokens|
    ensures CompileParent(env, st, content).Ok? <==> CompileChildTemplate(env, st).Ok?
    ensures CompileParent(env, st, content).Ok? ==>
      var c := CompileChildTemplate(env, st).value;
      var r := CompileParent(env, st, content).value;
      var (file, params) := SplitTarget(content);
      r.deps == c.deps + [file] && r.output == c.output + [RunParent(file, params)]
  {
  }

  /** `trim` leaves alone a string that starts and ends with a character it
      does not remove. */
  lemma TrimKeeps(s: string)
    requires |s| > 0 && !IsJsWhitespace(s[0]) && !IsJsWhitespace(s[|s| - 1])
    ensures Trim(s) == s
  {
    assert TrimStart(s) == s;
    assert TrimEnd(s) == s;
  }

  /** The section a virtual call runs, for every target: the next override
      for `parent`, the current one for `this`, the first one of the section
      of that name otherwise; each passes the parameter object after `|`. */
  lemma VirtualCallTargets(st: CState, content: string)
    ensures var (name, params) := SplitTarget(content);
      var out := CompileVirtualCall(st, content).output;
      && (name == "parent" ==> out == st.output + [CallNextSection(params)])
      && (name == "this" ==> out == st.output + [CallThisSection(params)])
      && (name != "parent" && name != "this" ==> out == st.output + [CallSection(name, params)])
    ensures '|' !in content && content !in {"parent", "this"} ==>
      CompileVirtualCall(st, content).output == st.output + [CallSection(content, "{}")]
  {
  }

  // ------------------------------------------------------- exports and macros

  /** An export assigns the trimmed text after the first `=` to the
      trimmed variable before it. */
  lemma ExportAt(content: string, i: nat)
    requires i < |content| && content[i] == '=' && '=' !in content[..i]
    ensures ExportParts(content) == (Trim(content[..i]), Trim(content[i + 1..]))
  {
    IndexOfFirst(content, '=', i);
    assert Substr(content, 0, i) == content[..i];
    assert Suffix(content, i + 1) == content[i + 1..];
  }

  /** With no `=` the variable is empty and the export is refused. */
  lemma ExportWithoutAssignment(env: Env, st: CState, content: string)
    requires '=' !in content
    ensures CompileExport(env, st, content) == Err(CompilerException("Cannot export local variable ''", env.filename, st.currentLine))
  {
    assert Trim("") == "";
    assert "Cannot export local variable '" + "" + "'" == "Cannot export local variable ''";
  }

  /** A macro name missing from the registry is an error. */
  lemma UndefinedMacro(env: Env, st: CState, content: string)
    requires st.offset <= |env.tokens| && MacroCall(content).name !in env.macros
    ensures CompileMacro(env, st, content) ==
      Err(CompilerException("Undefined macro '" + MacroCall(content).name + "'", env.filename, st.currentLine))
  {
  }

  /** The token kinds a filter macro can be applied to. */
  predicate FilterInput(k: TokenType) {
    k == Static || k == Write || k == WriteRaw || k == WriteEsc
  }

  /** A filter macro takes exactly one static or write token and then needs
      a block end; anything else is one of its two errors. */
  lemma FilterMacroShape(env: Env, st: CState, m: MacroTag)
    ensures FilterMacro(env, st, m).Ok? <==>
      st.offset + 1 < |env.tokens| && env.tokens[st.offset].Some? && FilterInput(env.tokens[st.offset].value.kind)
      && env.tokens[st.offset + 1].Some? && env.tokens[st.offset + 1].value.kind == End
    ensures FilterMacro(env, st, m).Err? ==>
      FilterMacro(env, st, m).error.message in {"Unexpected filter macro content.", "Block end expected."}
  {
  }

  /** Where a macro tag is split: at its first space or tab, provided a
      space comes there or later; the name and the main parameter are the
      trimmed parts before and after it. */
  lemma MacroNameSplit(content: string, i: nat)
    requires var name := SplitTarget(content).0;
      && i < |name| && (name[i] == ' ' || name[i] == '\t') && ' ' in name[i..]
      && forall j :: 0 <= j < i ==> name[j] != ' ' && name[j] != '\t'
    ensures var (name, params) := SplitTarget(content);
      MacroCall(content) == MacroTag(Trim(name[..i]), Trim(name[i + 1..]), params)
  {
    var name := SplitTarget(content).0;
    assert ' ' !in name[..i] && '\t' !in name[..i];
    if name[i] == ' ' {
      IndexOfFirst(name, ' ', i);
    } else {
      IndexOfFirst(name, '\t', i);
      var k :| i <= k < |name| && name[i..][k - i] == ' ';
      assert name[k] == ' ';
      assert IndexOf(name, ' ') > i;
    }
    assert Substr(name, 0, i) == name[..i];
    assert Suffix(name, i + 1) == name[i + 1..];
  }

  /** A macro tag without a space is all name, with `null` as its main
      parameter, even when it holds a tab. */
  lemma MacroWithoutSpace(content: string)
    requires ' ' !in SplitTarget(content).0
    ensures var (name, params) := SplitTarget(content);
      MacroCall(content) == MacroTag(name, "null", params)
  {
  }

  /** A tab separates the macro name from its main parameter only when a
      space comes later in the tag. */
  lemma MacroTabSplit(a: string, b: string)
    requires a == "m\tx" && b == "m\tx y"
    ensures MacroCall(a) == MacroTag(a, "null", "{}")
    ensures MacroCall(b) == MacroTag("m", "x y", "{}")
  {
    assert '|' !in a && '|' !in b;
    assert IndexOf(a, ' ') == -1;
    IndexOfFirst(b, ' ', 3);
    IndexOfFirst(b, '\t', 1);
    assert Substr(b, 0, 1) == "m";
    TrimKeeps("m");
    assert Suffix(b, 2) == "x y";
    TrimKeeps("x y");
  }
}
