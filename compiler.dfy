/** The `Compiler` object of lib/compiler.js: its methods update the
    compiler's fields in place, and each is proved to leave the state (or
    raise the exception) that the functions of CompilerSpec describe. */
module TemplateCompiler {
  import opened Text
  import opened TokenClassifier
  import opened CompilerSpec
  import Tok = TemplateTokenizer

  /** A method's outcome (`err` set when it threw) as a specification result. */
  function Outcome(err: Option<CompilerException>, st: CState): Result<CState, CompilerException> {
    if err.Some? then Err(err.value) else Ok(st)
  }

  /** The outcome of one loop iteration: threw, returned, or went on. */
  function StepOutcome(done: bool, err: Option<CompilerException>, st: CState): Result<Flow, CompilerException> {
    if err.Some? then Err(err.value) else if done then Ok(Done(st)) else Ok(Go(st))
  }

  /** The loop of `lastEmptyLineIndex` (lib/compiler.js:566-575). */
  method FindLastEmptyLine(s: string) returns (r: int)
    ensures r == LastEmptyLineIndex(s)
  {
    var i := |s|;
    while i > 0
      invariant 0 <= i <= |s|
      invariant EmptyLineFrom(s, i) == EmptyLineFrom(s, |s|)
    {
      var c := s[i - 1];
      if c != ' ' && c != '\t' {
        if c == '\r' || c == '\n' {
          return i;
        }
        return -1;
      }
      i := i - 1;
    }
    return 0;
  }

  class Compiler {
    const tokens: seq<Option<Typed>>
    const identifiers: seq<string>
    const macros: map<string, MacroShape>
    const filename: string

    var output: seq<Instr>
    var offset: nat
    var blocks: int
    var macroLevels: seq<int>
    var deps: seq<string>
    var leadingSpaces: string
    var firstOnLine: bool
    var skip: nat
    var currentLine: nat

    function Context(): Env {
      Env(tokens, identifiers, macros, filename)
    }

    function State(): CState
      reads this
    {
      CState(output, offset, blocks, macroLevels, deps, leadingSpaces, firstOnLine, skip, currentLine)
    }

    /** `new Compiler(status)` (lib/compiler.js:121-125). */
    constructor(env: Env, st: CState)
      ensures Context() == env && State() == st
    {
      tokens, identifiers, macros, filename := env.tokens, env.identifiers, env.macros, env.filename;
      output, offset, blocks, macroLevels, deps := st.output, st.offset, st.blocks, st.macroLevels, st.deps;
      leadingSpaces, firstOnLine, skip, currentLine := st.leadingSpaces, st.firstOnLine, st.skip, st.currentLine;
    }

    method Append(i: Instr)
      modifies this
      ensures State() == Emit(old(State()), i)
    {
      output := output + [i];
    }

    method Fail(message: string) returns (err: Option<CompilerException>)
      ensures err == Some(CompilerException(message, filename, currentLine))
    {
      err := Some(CompilerException(message, filename, currentLine));
    }

    /** `initWrite` (lib/compiler.js:165-169). */
    method InitWrite(name: Option<string>)
      modifies this
      ensures State() == Emit(old(State()), Instr.InitWrite(name))
    {
      Append(Instr.InitWrite(name));
    }

    /** `addVariables` (lib/compiler.js:172-179). */
    method AddVariables()
      modifies this
      ensures State() == Emit(old(State()), Variables(identifiers))
    {
      Append(Variables(identifiers));
    }

    /** `addStaticText` (lib/compiler.js:182-184). */
    method AddStaticText(text: string)
      modifies this
      ensures State() == CompilerSpec.AddStaticText(old(State()), text)
    {
      if text != "" {
        Append(EmitStatic(text));
      }
    }

    /** `addLeadingSpaces` (lib/compiler.js:614-620). */
    method AddLeadingSpaces()
      modifies this
      ensures State() == CompilerSpec.AddLeadingSpaces(old(State()))
    {
      if leadingSpaces != "" {
        AddStaticText(leadingSpaces);
        leadingSpaces := "";
        firstOnLine := false;
      }
    }

    /** `skipWhitespaces` (lib/compiler.js:581-608). */
    method SkipWhitespaces() returns (k: nat)
      modifies this
      ensures State() == CompilerSpec.SkipWhitespaces(Context(), old(State())) && k == skip
    {
      if offset < |tokens| && tokens[offset].Some? && tokens[offset].value.kind == Static {
        var count := 0;
        var content := tokens[offset].value.content;
        var i := 0;
        while i < |content|
          invariant 0 <= i <= |content| && count == i
          invariant SkipScan(content, i) == SkipScan(content, 0)
          invariant State() == old(State())
        {
          var c := content[i];
          if c == ' ' || c == '\t' {
            count := count + 1;
          } else if c == '\n' {
            skip := count + 1;
            break;
          } else if c == '\r' {
            if i < |content| - 1 && content[i + 1] == '\n' {
              skip := count + 2;
            } else {
              skip := count + 1;
            }
            break;
          } else {
            skip := 0;
            break;
          }
          i := i + 1;
        }
      } else {
        skip := 0;
      }
      k := skip;
    }

    /** `addTrailingSpaces` (lib/compiler.js:626-631). */
    method AddTrailingSpaces()
      modifies this
      ensures State() == CompilerSpec.AddTrailingSpaces(Context(), old(State()))
    {
      if skip != 0 && TokenAt(Context(), offset).Some? {
        AddStaticText(Substr(tokens[offset].value.content, 0, skip));
      }
    }

    /** `handleWhitespaces` (lib/compiler.js:634-644). */
    method HandleWhitespaces()
      modifies this
      ensures State() == CompilerSpec.HandleWhitespaces(Context(), old(State()))
    {
      var k := SkipWhitespaces();
      if k == 0 {
        AddLeadingSpaces();
      } else {
        if !firstOnLine {
          AddTrailingSpaces();
        }
        leadingSpaces := "";
        firstOnLine := false;
      }
    }

    /** The static-token branch of `compileTokens` (lib/compiler.js:199-213). */
    method StaticStep(content: string)
      modifies this
      ensures State() == CompilerSpec.StaticStep(old(State()), content)
    {
      AddLeadingSpaces();
      var c := Suffix(content, skip);
      var idx := FindLastEmptyLine(c);
      var index: nat;
      if idx != -1 {
        firstOnLine := true;
        index := idx;
      } else {
        firstOnLine := false;
        index := |c|;
      }
      AddStaticText(Substr(c, 0, index));
      leadingSpaces := Suffix(c, index);
      skip := 0;
    }

    /** `compileVirtualCall` (lib/compiler.js:401-422). */
    method CompileVirtualCall(content: string)
      modifies this
      ensures State() == CompilerSpec.CompileVirtualCall(old(State()), content)
    {
      var (name, params) := SplitTarget(content);
      if name == "parent" {
        Append(CallNextSection(params));
      } else if name == "this" {
        Append(CallThisSection(params));
      } else {
        Append(CallSection(name, params));
      }
    }

    /** `compileInclude` (lib/compiler.js:425-443). */
    method CompileInclude(content: string)
      modifies this
      ensures State() == CompilerSpec.CompileInclude(old(State()), content)
    {
      var (file, params) := SplitTarget(content);
      if file == "this" {
        Append(RunSelf(params));
      } else {
        Append(RunFile(file, params));
        deps := deps + [file];
      }
    }

    /** `compileExport` (lib/compiler.js:477-484). */
    method CompileExport(content: string) returns (err: Option<CompilerException>)
      modifies this
      ensures Outcome(err, State()) == CompilerSpec.CompileExport(Context(), old(State()), content)
    {
      var eq := IndexOf(content, '=');
      var name := Trim(if eq == -1 then "" else Substr(content, 0, eq));
      var value := Trim(Suffix(content, eq + 1));
      assert (name, value) == ExportParts(content);
      if |name| == 0 || name[0] != '$' {
        err := Fail("Cannot export local variable '" + name + "'");
        return;
      }
      Append(Assign(name[1..], value));
      err := None;
    }

    /** The non-nesting branches of `compileTokens`. */
    method PlainStep(t: Typed)
      requires IsPlain(t.kind)
      modifies this
      ensures State() == CompilerSpec.PlainStep(Context(), old(State()), t)
    {
      match t.kind
      case Static => StaticStep(t.content);
      case Comment => HandleWhitespaces();
      case Write =>
        AddLeadingSpaces();
        Append(EmitHtml(t.content, t.context == Tok.Element));
      case WriteRaw =>
        AddLeadingSpaces();
        Append(EmitRaw(t.content));
      case WriteEsc =>
        AddLeadingSpaces();
        Append(EmitJsEscaped(t.content));
      case InlineJs =>
        HandleWhitespaces();
        Append(Code(t.content));
      case Virtual =>
        HandleWhitespaces();
        CompileVirtualCall(t.content);
      case Include =>
        HandleWhitespaces();
        CompileInclude(t.content);
      case ElseIf =>
        Append(OpenElseIf(t.content));
        HandleWhitespaces();
      case Else =>
        Append(OpenElse);
        HandleWhitespaces();
      case Break =>
        Append(BreakStmt);
        HandleWhitespaces();
      case Continue =>
        Append(ContinueStmt);
        HandleWhitespaces();
      case _ =>
    }

    /** The block-end branch of `compileTokens` (lib/compiler.js:217-230). */
    method EndStep(content: string) returns (done: bool, err: Option<CompilerException>)
      modifies this
      ensures StepOutcome(done, err, State()) == CompilerSpec.EndStep(Context(), old(State()), content)
    {
      done := true;
      if blocks == 0 {
        err := Fail("Unexpected block end");
        return;
      }
      if content != "" {
        err := Fail("Unexpected '" + content + "' after '/'");
        return;
      }
      var handle := true;
      if |macroLevels| > 0 {
        if macroLevels[|macroLevels| - 1] == blocks {
          handle := false;
        }
      }
      if handle {
        HandleWhitespaces();
      }
      err := None;
    }

    /** `compileTokens` (lib/compiler.js:187-325). */
    method CompileTokens() returns (err: Option<CompilerException>)
      requires offset <= |tokens|
      modifies this
      decreases |tokens| - offset, 1
      ensures Outcome(err, State()) == CompilerSpec.CompileTokens(Context(), old(State()))
    {
      while offset < |tokens|
        invariant offset <= |tokens|
        invariant CompilerSpec.CompileTokens(Context(), State()) == CompilerSpec.CompileTokens(Context(), old(State()))
        decreases |tokens| - offset
      {
        var done;
        done, err := TokensStep();
        if err.Some? || done {
          return;
        }
      }
      err := None;
    }

    /** One iteration of the loop of `compileTokens`. */
    method TokensStep() returns (done: bool, err: Option<CompilerException>)
      requires offset < |tokens|
      modifies this
      decreases |tokens| - offset, 0
      ensures StepOutcome(done, err, State()) == CompilerSpec.TokensStep(Context(), old(State()))
    {
      ghost var s0 := State();
      var tok := tokens[offset];
      offset := offset + 1;
      if tok.Some? {
        currentLine := tok.value.line;
      }
      assert State() == s0.(offset := s0.offset + 1, currentLine := if tok.Some? then tok.value.line else s0.currentLine);
      done, err := false, None;
      if tok.None? {
        if blocks != 0 {
          err := Fail("Unexpected EOF");
          return;
        }
        AddLeadingSpaces();
        done := true;
        return;
      }
      var t := tok.value;
      ghost var s := State();
      assert CompilerSpec.TokensStep(Context(), s0) ==
        if IsPlain(t.kind) then Ok(Go(CompilerSpec.PlainStep(Context(), s, t)))
        else if t.kind == End then CompilerSpec.EndStep(Context(), s, t.content)
        else Wrap(CompilerSpec.NestedStep(Context(), s, t));
      if IsPlain(t.kind) {
        PlainStep(t);
      } else if t.kind == End {
        done, err := EndStep(t.content);
      } else {
        err := NestedStep(t);
      }
    }

    /** The branches of `compileTokens` that compile further tokens. */
    method NestedStep(t: Typed) returns (err: Option<CompilerException>)
      requires offset <= |tokens|
      modifies this
      decreases |tokens| - offset, 4
      ensures Outcome(err, State()) == CompilerSpec.NestedStep(Context(), old(State()), t)
    {
      match t.kind
      case Parent =>
        HandleWhitespaces();
        err := CompileParent(t.content);
      case Section =>
        HandleWhitespaces();
        err := CompileSection(t.content);
      case If => err := CompileBlock("if", t.content);
      case While => err := CompileBlock("while", t.content);
      case For => err := CompileBlock("for", t.content);
      case Cutout => err := CompileCutout(t.content);
      case Export =>
        HandleWhitespaces();
        err := CompileExport(t.content);
      case Macro => err := CompileMacro(t.content);
      case _ => err := Fail("Unexpected token '" + TypeName(t.kind) + "'");
    }

    /** An `if`, `while` or `for` block (lib/compiler.js:268-276, 285-302). */
    method CompileBlock(keyword: string, cond: string) returns (err: Option<CompilerException>)
      requires offset <= |tokens|
      modifies this
      decreases |tokens| - offset, 2
      ensures Outcome(err, State()) == CompilerSpec.CompileBlock(Context(), old(State()), keyword, cond)
    {
      OpenBlock(keyword, cond);
      err := CompileTokens();
      if err.Some? {
        return;
      }
      Append(CloseBlock);
      blocks := blocks - 1;
    }

    method OpenBlock(keyword: string, cond: string)
      modifies this
      ensures State() == CompilerSpec.OpenBlock(Context(), old(State()), keyword, cond)
    {
      blocks := blocks + 1;
      Append(Open(keyword, cond));
      HandleWhitespaces();
    }

    /** `compileParent` (lib/compiler.js:382-398). */
    method CompileParent(content: string) returns (err: Option<CompilerException>)
      requires offset <= |tokens|
      modifies this
      decreases |tokens| - offset, 2
      ensures Outcome(err, State()) == CompilerSpec.CompileParent(Context(), old(State()), content)
    {
      var (file, params) := SplitTarget(content);
      err := CompileChildTemplate();
      if err.Some? {
        return;
      }
      Append(RunParent(file, params));
      deps := deps + [file];
    }

    /** `compileSection` (lib/compiler.js:446-460). */
    method CompileSection(name: string) returns (err: Option<CompilerException>)
      requires offset <= |tokens|
      modifies this
      decreases |tokens| - offset, 2
      ensures Outcome(err, State()) == CompilerSpec.CompileSection(Context(), old(State()), name)
    {
      OpenSection(name);
      err := CompileTokens();
      if err.Some? {
        return;
      }
      Append(SectionClose);
      blocks := blocks - 1;
    }

    method OpenSection(name: string)
      modifies this
      ensures State() == CompilerSpec.OpenSection(Context(), old(State()), name)
    {
      blocks := blocks + 1;
      Append(SectionOpen(name));
      InitWrite(None);
      AddVariables();
    }

    /** `compileCutout` (lib/compiler.js:463-474). */
    method CompileCutout(name: string) returns (err: Option<CompilerException>)
      requires offset <= |tokens|
      modifies this
      decreases |tokens| - offset, 2
      ensures Outcome(err, State()) == CompilerSpec.CompileCutout(Context(), old(State()), name)
    {
      OpenCutout(name);
      err := CompileTokens();
      if err.Some? {
        return;
      }
      Append(CutoutClose);
      blocks := blocks - 1;
    }

    method OpenCutout(name: string)
      modifies this
      ensures State() == CompilerSpec.OpenCutout(Context(), old(State()), name)
    {
      ghost var s0 := State();
      var cutout := if name == "" then None else Some(name);
      blocks := blocks + 1;
      Append(CutoutOpen);
      InitWrite(cutout);
      AddVariables();
      assert State() == s0.(blocks := s0.blocks + 1,
                            output := s0.output + [CutoutOpen, Instr.InitWrite(cutout), Variables(identifiers)]);
      HandleWhitespaces();
    }

    /** `compileMacro` (lib/compiler.js:487-562). */
    method CompileMacro(content: string) returns (err: Option<CompilerException>)
      requires offset <= |tokens|
      modifies this
      decreases |tokens| - offset, 3
      ensures Outcome(err, State()) == CompilerSpec.CompileMacro(Context(), old(State()), content)
    {
      var m := MacroCall(content);
      if m.name !in macros {
        err := Fail("Undefined macro '" + m.name + "'");
        return;
      }
      match macros[m.name]
      case Single =>
        AddLeadingSpaces();
        Append(MacroRender(m.name, m.main, m.params));
        err := None;
      case Filter =>
        AddLeadingSpaces();
        err := FilterMacro(m);
      case Paired =>
        AddLeadingSpaces();
        err := PairedMacro(m);
    }

    /** The paired-macro branch of `compileMacro` (lib/compiler.js:520-530). */
    method PairedMacro(m: MacroTag) returns (err: Option<CompilerException>)
      requires offset <= |tokens|
      modifies this
      decreases |tokens| - offset, 2
      ensures Outcome(err, State()) == CompilerSpec.PairedMacro(Context(), old(State()), m)
    {
      OpenMacro(m);
      err := CompileTokens();
      if err.Some? {
        return;
      }
      CloseMacro(m);
    }

    method OpenMacro(m: MacroTag)
      modifies this
      ensures State() == CompilerSpec.OpenMacro(old(State()), m)
    {
      blocks := blocks + 1;
      macroLevels := macroLevels + [blocks];
      Append(MacroOpen(m.name, m.main, m.params));
    }

    method CloseMacro(m: MacroTag)
      modifies this
      ensures State() == CompilerSpec.CloseMacro(old(State()), m)
    {
      AddLeadingSpaces();
      Append(MacroClose(m.name));
      blocks := blocks - 1;
      macroLevels := Pop(macroLevels);
    }

    /** The filter-macro branch of `compileMacro` (lib/compiler.js:532-557). */
    method FilterMacro(m: MacroTag) returns (err: Option<CompilerException>)
      modifies this
      ensures Outcome(err, State()) == CompilerSpec.FilterMacro(Context(), old(State()), m)
    {
      var next := TokenAt(Context(), offset);
      if next.None? || (next.value.kind != Static && next.value.kind != Write
                        && next.value.kind != WriteRaw && next.value.kind != WriteEsc) {
        err := Fail("Unexpected filter macro content.");
        return;
      }
      offset := offset + 1;
      var t := next.value;
      if t.kind == Static {
        Append(FilterText(m.name, m.main, m.params, t.content));
      } else if t.kind == WriteRaw {
        Append(FilterRaw(m.name, m.main, m.params, t.content));
      } else if t.kind == WriteEsc {
        Append(FilterJsEscaped(m.name, m.main, m.params, t.content));
      } else {
        Append(FilterHtml(m.name, m.main, m.params, t.content, t.context == Tok.Element));
      }
      var end := TokenAt(Context(), offset);
      if end.None? || end.value.kind != End {
        err := Fail("Block end expected.");
        return;
      }
      offset := offset + 1;
      err := None;
    }

    /** `compileChildTemplate` (lib/compiler.js:328-379). */
    method CompileChildTemplate() returns (err: Option<CompilerException>)
      requires offset <= |tokens|
      modifies this
      decreases |tokens| - offset, 1
      ensures Outcome(err, State()) == CompilerSpec.CompileChildTemplate(Context(), old(State()))
    {
      while offset < |tokens|
        invariant offset <= |tokens|
        invariant CompilerSpec.CompileChildTemplate(Context(), State()) == CompilerSpec.CompileChildTemplate(Context(), old(State()))
        decreases |tokens| - offset
      {
        var done;
        done, err := ChildStep();
        if err.Some? || done {
          return;
        }
      }
      err := None;
    }

    /** One iteration of the loop of `compileChildTemplate`. */
    method ChildStep() returns (done: bool, err: Option<CompilerException>)
      requires offset < |tokens|
      modifies this
      decreases |tokens| - offset, 0
      ensures StepOutcome(done, err, State()) == CompilerSpec.ChildStep(Context(), old(State()))
    {
      ghost var s0 := State();
      var tok := tokens[offset];
      offset := offset + 1;
      if tok.Some? {
        currentLine := tok.value.line;
      }
      assert State() == s0.(offset := s0.offset + 1, currentLine := if tok.Some? then tok.value.line else s0.currentLine);
      done, err := false, None;
      if tok.None? {
        if blocks != 0 {
          err := Fail("Unexpected EOF");
          return;
        }
        done := true;
        return;
      }
      done, err := ChildToken(tok.value);
    }

    /** The branch of `compileChildTemplate` for one token. */
    method ChildToken(t: Typed) returns (done: bool, err: Option<CompilerException>)
      requires offset <= |tokens|
      modifies this
      decreases |tokens| - offset, 4
      ensures StepOutcome(done, err, State()) == CompilerSpec.ChildToken(Context(), old(State()), t)
    {
      done, err := false, None;
      match t.kind
      case Static =>
        if Trim(t.content) != "" {
          err := Fail("Unexpected non-empty static content");
        }
      case Comment =>
      case InlineJs => Append(Code(t.content));
      case End =>
        done := true;
        if blocks == 0 {
          err := Fail("Unexpected block end");
        } else if t.content != "" {
          err := Fail("Unexpected '" + t.content + "' after '/'");
        }
      case ElseIf =>
        Append(OpenElseIf(t.content));
        HandleWhitespaces();
      case Else => Append(OpenElse);
      case _ => err := ChildNested(t);
    }

    /** The branches of `compileChildTemplate` that compile further tokens. */
    method ChildNested(t: Typed) returns (err: Option<CompilerException>)
      requires offset <= |tokens|
      modifies this
      decreases |tokens| - offset, 3
      ensures Outcome(err, State()) == CompilerSpec.ChildNested(Context(), old(State()), t)
    {
      match t.kind
      case Section =>
        firstOnLine := true;
        HandleWhitespaces();
        err := CompileSection(t.content);
      case If => err := ChildBlock(t.content);
      case Export =>
        HandleWhitespaces();
        err := CompileExport(t.content);
      case _ => err := Fail("Unexpected token '" + TypeName(t.kind) + "'");
    }

    /** An `if` in a child template (lib/compiler.js:356-363). */
    method ChildBlock(cond: string) returns (err: Option<CompilerException>)
      requires offset <= |tokens|
      modifies this
      decreases |tokens| - offset, 2
      ensures Outcome(err, State()) == CompilerSpec.ChildBlock(Context(), old(State()), cond)
    {
      blocks := blocks + 1;
      Append(Open("if", cond));
      err := CompileChildTemplate();
      if err.Some? {
        return;
      }
      Append(CloseBlock);
      blocks := blocks - 1;
    }

    /** `compileTemplate` (lib/compiler.js:140-161), on the state `compile`
        creates the compiler with. */
    method CompileTemplate() returns (err: Option<CompilerException>)
      requires State() == Start()
      modifies this
      ensures err.None? <==> CompilerSpec.CompileTemplate(Context()).Ok?
      ensures err.Some? ==> CompilerSpec.CompileTemplate(Context()) == Err(err.value)
      ensures err.None? ==> CompilerSpec.CompileTemplate(Context()) == Ok(output)
    {
      output := [Prologue, RunOpen];
      InitWrite(None);
      AddVariables();
      assert State() == Start().(output := [Prologue, RunOpen, Instr.InitWrite(None), Variables(identifiers)]);
      err := CompileTokens();
      if err.Some? {
        return;
      }
      output := output + [RunClose, Epilogue(deps)];
    }
  }
}
