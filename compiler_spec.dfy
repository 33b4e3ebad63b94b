/** What lib/compiler.js does to a list of classified tokens, as functions
    on the compiler's state: the emitted JavaScript is a sequence of
    instructions, one per emitted statement or per group of statements the
    source emits together, with embedded expressions kept as opaque
    strings. */
module CompilerSpec {
  import opened Text
  import Tok = TemplateTokenizer
  import opened TokenClassifier

  /** The kinds of macro in the registry (lib/macro.js:4-8). */
  datatype MacroShape = Single | Paired | Filter

  /** One piece of emitted code. */
  datatype Instr =
    | Prologue                                  // "use strict" and `var __d = {}`
    | RunOpen                                   // function run($, __x, __s, __c, __n, __o, __p, __$) {
    | InitWrite(cutout: Option<string>)         // var __w = __e.getWrite(...)
    | Variables(ids: seq<string>)               // one `var $x = ...` per identifier
    | RunClose
    | Epilogue(deps: seq<string>)               // __t.run, __t.deps, __t.compiledDeps
    | EmitStatic(text: string)                  // __w("...")
    | EmitHtml(expr: string, inElement: bool)   // __w(__e.html(...)) or __e.htmlEl
    | EmitRaw(expr: string)
    | EmitJsEscaped(expr: string)
    | Code(js: string)
    | Open(keyword: string, cond: string)       // if (...) {, while (...) {, for (...) {
    | OpenElseIf(cond: string)
    | OpenElse
    | BreakStmt
    | ContinueStmt
    | CloseBlock
    | RunParent(file: string, params: string)
    | CallNextSection(params: string)           // __a[__i + 1](...)
    | CallThisSection(params: string)           // __a[__i](...)
    | CallSection(name: string, params: string) // __s[name][0](...)
    | RunSelf(params: string)
    | RunFile(file: string, params: string)
    | SectionOpen(name: string)
    | SectionClose
    | CutoutOpen
    | CutoutClose
    | Assign(name: string, value: string)       // $["name"] = value
    | MacroRender(name: string, main: string, params: string)
    | MacroOpen(name: string, main: string, params: string)
    | MacroClose(name: string)
    | FilterText(name: string, main: string, params: string, text: string)
    | FilterRaw(name: string, main: string, params: string, expr: string)
    | FilterJsEscaped(name: string, main: string, params: string, expr: string)
    | FilterHtml(name: string, main: string, params: string, expr: string, inElement: bool)

  datatype CompilerException = CompilerException(message: string, filename: string, line: nat)

  /** What never changes while compiling: the token list (ending in the
      null EOF token), the global identifiers, the macro registry and the
      file name. */
  datatype Env = Env(tokens: seq<Option<Typed>>, identifiers: seq<string>,
                     macros: map<string, MacroShape>, filename: string)

  /** The fields of the `Compiler` object that compiling updates. */
  datatype CState = CState(
    output: seq<Instr>,
    offset: nat,
    blocks: int,
    macroLevels: seq<int>,
    deps: seq<string>,
    leadingSpaces: string,
    firstOnLine: bool,
    skip: nat,
    currentLine: nat)

  /** A step of the token loop either goes on or returns from the loop. */
  datatype Flow = Go(st: CState) | Done(st: CState)

  /** `this.tokens[i]`, where both null and a missing entry are falsy. */
  function TokenAt(env: Env, i: nat): Option<Typed> {
    if i < |env.tokens| then env.tokens[i] else None
  }

  function Fail<T>(env: Env, st: CState, message: string): Result<T, CompilerException> {
    Err(CompilerException(message, env.filename, st.currentLine))
  }

  function Emit(st: CState, i: Instr): CState {
    st.(output := st.output + [i])
  }

  /** The block depth and the paired-macro levels are as they were. */
  predicate Nested(a: CState, b: CState) {
    b.blocks == a.blocks && b.macroLevels == a.macroLevels
  }

  /** Code and dependencies are only ever appended. */
  predicate Extends(a: CState, b: CState) {
    a.output <= b.output && a.deps <= b.deps
  }

  /** Indentation is held back only at the start of a line. */
  predicate SpacesInv(st: CState) {
    st.leadingSpaces != "" ==> st.firstOnLine
  }

  // ------------------------------------------------------- whitespace

  predicate IsBlank(c: char) {
    c == ' ' || c == '\t'
  }

  predicate IsNewline(c: char) {
    c == '\r' || c == '\n'
  }

  /** The backward scan of `lastEmptyLineIndex` looking at `s[..i]`. */
  function EmptyLineFrom(s: string, i: nat): (r: int)
    requires i <= |s|
    ensures -1 <= r <= i
    ensures r >= 0 ==> forall j :: r <= j < i ==> IsBlank(s[j])
    ensures r > 0 ==> IsNewline(s[r - 1])
    ensures r == 0 <==> forall j :: 0 <= j < i ==> IsBlank(s[j])
    ensures r == -1 <==> exists j :: 0 <= j < i && !IsBlank(s[j]) && !IsNewline(s[j])
                                && forall k :: j < k < i ==> IsBlank(s[k])
  {
    if i == 0 then 0
    else if IsBlank(s[i - 1]) then EmptyLineFrom(s, i - 1)
    else if IsNewline(s[i - 1]) then i
    else -1
  }

  /** `lastEmptyLineIndex(s)` (lib/compiler.js:566-575). */
  function LastEmptyLineIndex(s: string): (r: int)
    ensures -1 <= r <= |s|
    ensures r == 0 <==> forall j :: 0 <= j < |s| ==> IsBlank(s[j])
    ensures r > 0 ==> IsNewline(s[r - 1]) && forall j :: r <= j < |s| ==> IsBlank(s[j])
    ensures r == -1 <==> exists j :: 0 <= j < |s| && !IsBlank(s[j]) && !IsNewline(s[j])
                                && forall k :: j < k < |s| ==> IsBlank(s[k])
  {
    EmptyLineFrom(s, |s|)
  }

  /** The loop of `skipWhitespaces` over `s[i..]` after `i` spaces and tabs:
      the value it assigns to `this.skip`, or None when it never assigns. */
  function SkipScan(s: string, i: nat): (r: Option<nat>)
    requires i <= |s|
    ensures r.Some? ==> r.value <= |s|
    decreases |s| - i
  {
    if i == |s| then None
    else if IsBlank(s[i]) then SkipScan(s, i + 1)
    else if s[i] == '\n' then Some(i + 1)
    else if s[i] == '\r' then
      if i < |s| - 1 && s[i + 1] == '\n' then Some(i + 2) else Some(i + 1)
    else Some(0)
  }

  function AddStaticText(st: CState, text: string): (r: CState)
    ensures r == if text == "" then st else Emit(st, EmitStatic(text))
  {
    if text != "" then Emit(st, EmitStatic(text)) else st
  }

  /** `addLeadingSpaces` (lib/compiler.js:614-620). */
  function AddLeadingSpaces(st: CState): (r: CState)
    ensures r.leadingSpaces == "" && Nested(st, r) && Extends(st, r)
    ensures r.offset == st.offset && r.skip == st.skip
  {
    if st.leadingSpaces != "" then
      AddStaticText(st, st.leadingSpaces).(leadingSpaces := "", firstOnLine := false)
    else st
  }

  /** `skipWhitespaces`, as the state it leaves (lib/compiler.js:581-608). */
  function SkipWhitespaces(env: Env, st: CState): CState {
    match TokenAt(env, st.offset)
    case Some(t) =>
      if t.kind == Static then
        match SkipScan(t.content, 0)
        case Some(k) => st.(skip := k)
        case None => st
      else st.(skip := 0)
    case None => st.(skip := 0)
  }

  /** `addTrailingSpaces` (lib/compiler.js:626-631). */
  function AddTrailingSpaces(env: Env, st: CState): CState {
    if st.skip != 0 && TokenAt(env, st.offset).Some? then
      AddStaticText(st, Substr(TokenAt(env, st.offset).value.content, 0, st.skip))
    else st
  }

  /** `handleWhitespaces` (lib/compiler.js:634-644). */
  function HandleWhitespaces(env: Env, st: CState): (r: CState)
    ensures r.leadingSpaces == "" && Nested(st, r) && Extends(st, r) && r.offset == st.offset
  {
    var s := SkipWhitespaces(env, st);
    if s.skip == 0 then AddLeadingSpaces(s)
    else
      var s' := if !s.firstOnLine then AddTrailingSpaces(env, s) else s;
      s'.(leadingSpaces := "", firstOnLine := false)
  }

  /** The static-token branch of `compileTokens` (lib/compiler.js:199-213):
      flush held-back indentation, cut the prefix `skip` marks, emit up to the
      last whitespace-only line and hold that line back. */
  function StaticStep(st: CState, content: string): (r: CState)
    ensures SpacesInv(r) && Nested(st, r) && Extends(st, r) && r.offset == st.offset
  {
    var s1 := AddLeadingSpaces(st);
    var c := Suffix(content, s1.skip);
    var idx := LastEmptyLineIndex(c);
    var index: nat := if idx != -1 then idx else |c|;
    var s2 := AddStaticText(s1.(firstOnLine := idx != -1), Substr(c, 0, index));
    s2.(leadingSpaces := Suffix(c, index), skip := 0)
  }

  // ------------------------------------------------------- calls

  /** The text before the first `|`, and the rest in braces as the
      parameter object (lib/compiler.js:383-392). */
  function SplitTarget(content: string): (string, string) {
    var pipe := IndexOf(content, '|');
    if pipe == -1 then (content, "{}")
    else (Trim(Substr(content, 0, pipe)), "{" + Trim(Suffix(content, pipe + 1)) + "}")
  }

  /** `compileVirtualCall` (lib/compiler.js:401-422). */
  function CompileVirtualCall(st: CState, content: string): (r: CState)
    ensures Nested(st, r) && Extends(st, r) && r.offset == st.offset && r.leadingSpaces == st.leadingSpaces
  {
    var target := SplitTarget(content);
    var name, params := target.0, target.1;
    if name == "parent" then Emit(st, CallNextSection(params))
    else if name == "this" then Emit(st, CallThisSection(params))
    else Emit(st, CallSection(name, params))
  }

  /** `compileInclude` (lib/compiler.js:425-443). */
  function CompileInclude(st: CState, content: string): (r: CState)
    ensures Nested(st, r) && Extends(st, r) && r.offset == st.offset && r.leadingSpaces == st.leadingSpaces
  {
    var target := SplitTarget(content);
    var file, params := target.0, target.1;
    if file == "this" then Emit(st, RunSelf(params))
    else Emit(st, RunFile(file, params)).(deps := st.deps + [file])
  }

  /** The variable and the value of an export tag (lib/compiler.js:479-482):
      `substr(0, -1)` is empty, so content without `=` names the empty
      variable. */
  function ExportParts(content: string): (string, string) {
    var eq := IndexOf(content, '=');
    (Trim(if eq == -1 then "" else Substr(content, 0, eq)), Trim(Suffix(content, eq + 1)))
  }

  /** `compileExport` (lib/compiler.js:477-484). */
  function CompileExport(env: Env, st: CState, content: string): (r: Result<CState, CompilerException>)
    ensures r.Err? <==> var name := ExportParts(content).0; name == "" || name[0] != '$'
    ensures r.Err? ==> r.error.message == "Cannot export local variable '" + ExportParts(content).0 + "'"
    ensures r.Ok? ==> r.value.output == st.output + [Assign(ExportParts(content).0[1..], ExportParts(content).1)]
                      && r.value == st.(output := r.value.output)
  {
    var parts := ExportParts(content);
    var name := parts.0;
    if |name| == 0 || name[0] != '$' then Fail(env, st, "Cannot export local variable '" + name + "'")
    else Ok(Emit(st, Assign(name[1..], parts.1)))
  }

  /** A macro tag: the macro's name, its main parameter (the JavaScript
      literal `null` when absent) and the parameter object. */
  datatype MacroTag = MacroTag(name: string, main: string, params: string)

  /** The parts of a macro tag (lib/compiler.js:489-510): a tab separates the
      name only when it comes before the first space. */
  function MacroCall(content: string): MacroTag {
    var target := SplitTarget(content);
    var name := target.0;
    var space := IndexOf(name, ' ');
    var tab := IndexOf(name, '\t');
    var cut := if tab != -1 && tab < space then tab else space;
    if cut == -1 then MacroTag(name, "null", target.1)
    else MacroTag(Trim(Substr(name, 0, cut)), Trim(Suffix(name, cut + 1)), target.1)
  }

  /** The filter-macro branch of `compileMacro` (lib/compiler.js:532-557):
      exactly one static or write token, then a block end. */
  function FilterMacro(env: Env, st: CState, m: MacroTag): (r: Result<CState, CompilerException>)
    ensures r.Ok? ==> st.offset + 2 == r.value.offset <= |env.tokens| && Nested(st, r.value) && Extends(st, r.value)
    ensures r.Ok? ==> r.value.leadingSpaces == st.leadingSpaces && r.value.firstOnLine == st.firstOnLine
  {
    var next := TokenAt(env, st.offset);
    if next.None? || (next.value.kind != Static && next.value.kind != Write
                      && next.value.kind != WriteRaw && next.value.kind != WriteEsc) then
      Fail(env, st, "Unexpected filter macro content.")
    else
      var t := next.value;
      var i := if t.kind == Static then FilterText(m.name, m.main, m.params, t.content)
               else if t.kind == WriteRaw then FilterRaw(m.name, m.main, m.params, t.content)
               else if t.kind == WriteEsc then FilterJsEscaped(m.name, m.main, m.params, t.content)
               else FilterHtml(m.name, m.main, m.params, t.content, t.context == Tok.Element);
      var s1 := Emit(st.(offset := st.offset + 1), i);
      var end := TokenAt(env, s1.offset);
      if end.None? || end.value.kind != End then Fail(env, s1, "Block end expected.")
      else Ok(s1.(offset := s1.offset + 1))
  }

  function Pop(l: seq<int>): seq<int> {
    if |l| > 0 then l[..|l| - 1] else l
  }

  function Wrap(r: Result<CState, CompilerException>): (f: Result<Flow, CompilerException>)
    ensures f.Ok? <==> r.Ok?
    ensures f.Ok? ==> f.value == Go(r.value)
  {
    match r
    case Ok(s) => Ok(Go(s))
    case Err(e) => Err(e)
  }

  /** After a nested body: the closing code, one block fewer. */
  function Close(r: Result<CState, CompilerException>, i: Instr): Result<CState, CompilerException> {
    match r
    case Err(e) => Err(e)
    case Ok(s) => Ok(Emit(s, i).(blocks := s.blocks - 1))
  }

  /** Every token-reading function returns the block depth and macro levels
      it started with, never moves back over a token, only appends code and
      dependencies, and keeps indentation held back only at a line start. */
  predicate Returns(env: Env, a: CState, b: CState) {
    a.offset <= b.offset <= |env.tokens| && Nested(a, b) && Extends(a, b) && (SpacesInv(a) ==> SpacesInv(b))
  }

  // ------------------------------------------------------- the token loops

  /** `compileTokens` (lib/compiler.js:187-325): the loop over tokens. */
  function CompileTokens(env: Env, st: CState): (r: Result<CState, CompilerException>)
    requires st.offset <= |env.tokens|
    decreases |env.tokens| - st.offset, 1
    ensures r.Ok? ==> Returns(env, st, r.value)
  {
    if st.offset == |env.tokens| then Ok(st)
    else
      match TokensStep(env, st)
      case Err(e) => Err(e)
      case Ok(f) => if f.Done? then Ok(f.st) else CompileTokens(env, f.st)
  }

  /** One iteration of the loop of `compileTokens`. */
  function TokensStep(env: Env, st: CState): (r: Result<Flow, CompilerException>)
    requires st.offset < |env.tokens|
    decreases |env.tokens| - st.offset, 0
    ensures r.Ok? ==> st.offset < r.value.st.offset && Returns(env, st, r.value.st)
  {
    var tok := env.tokens[st.offset];
    var s := st.(offset := st.offset + 1, currentLine := if tok.Some? then tok.value.line else st.currentLine);
    if tok.None? then
      if s.blocks != 0 then Fail(env, s, "Unexpected EOF") else Ok(Done(AddLeadingSpaces(s)))
    else
      var t := tok.value;
      if IsPlain(t.kind) then Ok(Go(PlainStep(env, s, t)))
      else
        if t.kind == End then EndStep(env, s, t.content)
        else Wrap(NestedStep(env, s, t))
  }

  /** The branches of `compileTokens` that hand the following tokens to
      another compiling function (lib/compiler.js:252-255, 260-263, 268-276,
      285-302, 311-323), and the unknown kinds. */
  function NestedStep(env: Env, s: CState, t: Typed): (r: Result<CState, CompilerException>)
    requires s.offset <= |env.tokens|
    decreases |env.tokens| - s.offset, 4
    ensures r.Ok? ==> Returns(env, s, r.value)
  {
    match t.kind
    case Parent => CompileParent(env, HandleWhitespaces(env, s), t.content)
    case Section => CompileSection(env, HandleWhitespaces(env, s), t.content)
    case If => CompileBlock(env, s, "if", t.content)
    case While => CompileBlock(env, s, "while", t.content)
    case For => CompileBlock(env, s, "for", t.content)
    case Cutout => CompileCutout(env, s, t.content)
    case Export => CompileExport(env, HandleWhitespaces(env, s), t.content)
    case Macro => CompileMacro(env, s, t.content)
    case _ => Fail(env, s, "Unexpected token '" + TypeName(t.kind) + "'")
  }

  /** The kinds whose branch of `compileTokens` reads no further tokens. */
  predicate IsPlain(k: TokenType) {
    k.Static? || k.Comment? || k.Write? || k.WriteRaw? || k.WriteEsc? || k.InlineJs?
    || k.Virtual? || k.Include? || k.ElseIf? || k.Else? || k.Break? || k.Continue?
  }

  /** Those branches (lib/compiler.js:199-216, 231-251, 256-259, 264-267, 277-284, 303-310). */
  function PlainStep(env: Env, s: CState, t: Typed): (r: CState)
    requires IsPlain(t.kind)
    ensures r.offset == s.offset && Nested(s, r) && Extends(s, r) && (SpacesInv(s) ==> SpacesInv(r))
  {
    match t.kind
    case Static => StaticStep(s, t.content)
    case Comment => HandleWhitespaces(env, s)
    case Write => Emit(AddLeadingSpaces(s), EmitHtml(t.content, t.context == Tok.Element))
    case WriteRaw => Emit(AddLeadingSpaces(s), EmitRaw(t.content))
    case WriteEsc => Emit(AddLeadingSpaces(s), EmitJsEscaped(t.content))
    case InlineJs => Emit(HandleWhitespaces(env, s), Code(t.content))
    case Virtual => CompileVirtualCall(HandleWhitespaces(env, s), t.content)
    case Include => CompileInclude(HandleWhitespaces(env, s), t.content)
    case ElseIf => HandleWhitespaces(env, Emit(s, OpenElseIf(t.content)))
    case Else => HandleWhitespaces(env, Emit(s, OpenElse))
    case Break => HandleWhitespaces(env, Emit(s, BreakStmt))
    case Continue => HandleWhitespaces(env, Emit(s, ContinueStmt))
    case _ => s
  }

  /** The block-end branch of `compileTokens` (lib/compiler.js:217-230):
      whitespace after the end of a paired macro's body is left alone. */
  function EndStep(env: Env, s: CState, content: string): (r: Result<Flow, CompilerException>)
    ensures r.Ok? ==> r.value.Done? && Nested(s, r.value.st) && Extends(s, r.value.st)
    ensures r.Ok? ==> r.value.st.offset == s.offset && (SpacesInv(s) ==> SpacesInv(r.value.st))
  {
    if s.blocks == 0 then Fail(env, s, "Unexpected block end")
    else if content != "" then Fail(env, s, "Unexpected '" + content + "' after '/'")
    else
      var macroEnd := |s.macroLevels| > 0 && s.macroLevels[|s.macroLevels| - 1] == s.blocks;
      Ok(Done(if macroEnd then s else HandleWhitespaces(env, s)))
  }

  /** An `if`, `while` or `for` block (lib/compiler.js:268-276, 285-302). */
  function CompileBlock(env: Env, st: CState, keyword: string, cond: string): (r: Result<CState, CompilerException>)
    requires st.offset <= |env.tokens|
    decreases |env.tokens| - st.offset, 2
    ensures r.Ok? ==> Returns(env, st, r.value)
  {
    Close(CompileTokens(env, OpenBlock(env, st, keyword, cond)), CloseBlock)
  }

  /** The opening of a block: one block deeper, the keyword and condition
      emitted, then the whitespace after the tag handled. */
  function OpenBlock(env: Env, st: CState, keyword: string, cond: string): (r: CState)
    ensures r.offset == st.offset && r.blocks == st.blocks + 1 && r.macroLevels == st.macroLevels
    ensures Extends(st, r) && SpacesInv(r)
  {
    HandleWhitespaces(env, Emit(st.(blocks := st.blocks + 1), Open(keyword, cond)))
  }

  /** `compileParent` (lib/compiler.js:382-398): the child template is
      compiled first, then the parent call is emitted and its file added. */
  function CompileParent(env: Env, st: CState, content: string): (r: Result<CState, CompilerException>)
    requires st.offset <= |env.tokens|
    decreases |env.tokens| - st.offset, 2
    ensures r.Ok? ==> Returns(env, st, r.value)
  {
    var (file, params) := SplitTarget(content);
    match CompileChildTemplate(env, st)
    case Err(e) => Err(e)
    case Ok(s) => Ok(Emit(s, RunParent(file, params)).(deps := s.deps + [file]))
  }

  /** `compileSection` (lib/compiler.js:446-460). */
  function CompileSection(env: Env, st: CState, name: string): (r: Result<CState, CompilerException>)
    requires st.offset <= |env.tokens|
    decreases |env.tokens| - st.offset, 2
    ensures r.Ok? ==> Returns(env, st, r.value)
  {
    Close(CompileTokens(env, OpenSection(env, st, name)), SectionClose)
  }

  /** The start of a section's function, with its own write callback and
      local variables. */
  function OpenSection(env: Env, st: CState, name: string): (r: CState)
    ensures r.offset == st.offset && r.blocks == st.blocks + 1 && r.macroLevels == st.macroLevels
    ensures Extends(st, r) && (SpacesInv(st) ==> SpacesInv(r))
  {
    st.(blocks := st.blocks + 1,
        output := st.output + [SectionOpen(name), InitWrite(None), Variables(env.identifiers)])
  }

  /** `compileCutout` (lib/compiler.js:463-474): an empty name is falsy and
      gives `getWrite(null, ...)`. */
  function CompileCutout(env: Env, st: CState, name: string): (r: Result<CState, CompilerException>)
    requires st.offset <= |env.tokens|
    decreases |env.tokens| - st.offset, 2
    ensures r.Ok? ==> Returns(env, st, r.value)
  {
    Close(CompileTokens(env, OpenCutout(env, st, name)), CutoutClose)
  }

  /** The start of a cutout's function, writing under the cutout's name. */
  function OpenCutout(env: Env, st: CState, name: string): (r: CState)
    ensures r.offset == st.offset && r.blocks == st.blocks + 1 && r.macroLevels == st.macroLevels
    ensures Extends(st, r) && SpacesInv(r)
  {
    var s0 := st.(blocks := st.blocks + 1,
                  output := st.output + [CutoutOpen, InitWrite(if name == "" then None else Some(name)),
                                         Variables(env.identifiers)]);
    HandleWhitespaces(env, s0)
  }

  /** `compileMacro` (lib/compiler.js:487-562), with the registry given. */
  function CompileMacro(env: Env, st: CState, content: string): (r: Result<CState, CompilerException>)
    requires st.offset <= |env.tokens|
    decreases |env.tokens| - st.offset, 3
    ensures r.Ok? ==> Returns(env, st, r.value)
  {
    var m := MacroCall(content);
    if m.name !in env.macros then Fail(env, st, "Undefined macro '" + m.name + "'")
    else
      match env.macros[m.name]
      case Single => Ok(Emit(AddLeadingSpaces(st), MacroRender(m.name, m.main, m.params)))
      case Filter => FilterMacro(env, AddLeadingSpaces(st), m)
      case Paired => PairedMacro(env, AddLeadingSpaces(st), m)
  }

  /** A paired macro: its level is pushed while its body is compiled, so
      that the body's block end is recognised as the macro's. */
  function PairedMacro(env: Env, st: CState, m: MacroTag): (r: Result<CState, CompilerException>)
    requires st.offset <= |env.tokens|
    decreases |env.tokens| - st.offset, 2
    ensures r.Ok? ==> Returns(env, st, r.value)
  {
    match CompileTokens(env, OpenMacro(st, m))
    case Err(e) => Err(e)
    case Ok(s2) => Ok(CloseMacro(s2, m))
  }

  /** The start of a paired macro: one block deeper, that depth pushed as
      a macro level. */
  function OpenMacro(st: CState, m: MacroTag): (r: CState)
    ensures r.offset == st.offset && r.blocks == st.blocks + 1 && r.macroLevels == st.macroLevels + [r.blocks]
    ensures Extends(st, r) && (SpacesInv(st) ==> SpacesInv(r))
  {
    Emit(st.(blocks := st.blocks + 1, macroLevels := st.macroLevels + [st.blocks + 1]),
         MacroOpen(m.name, m.main, m.params))
  }

  /** The end of a paired macro: held-back indentation goes inside, then the
      macro's level is popped. */
  function CloseMacro(st: CState, m: MacroTag): (r: CState)
    ensures r.offset == st.offset && r.blocks == st.blocks - 1 && r.macroLevels == Pop(st.macroLevels)
    ensures Extends(st, r) && SpacesInv(r)
  {
    var s := Emit(AddLeadingSpaces(st), MacroClose(m.name));
    s.(blocks := s.blocks - 1, macroLevels := Pop(s.macroLevels))
  }

  /** `compileChildTemplate` (lib/compiler.js:328-379): the loop after
      `{parent}`, where only blank static text, sections, conditions, inline
      code and exports may appear. */
  function CompileChildTemplate(env: Env, st: CState): (r: Result<CState, CompilerException>)
    requires st.offset <= |env.tokens|
    decreases |env.tokens| - st.offset, 1
    ensures r.Ok? ==> Returns(env, st, r.value)
  {
    if st.offset == |env.tokens| then Ok(st)
    else
      match ChildStep(env, st)
      case Err(e) => Err(e)
      case Ok(f) => if f.Done? then Ok(f.st) else CompileChildTemplate(env, f.st)
  }

  /** One iteration of the loop of `compileChildTemplate`. */
  function ChildStep(env: Env, st: CState): (r: Result<Flow, CompilerException>)
    requires st.offset < |env.tokens|
    decreases |env.tokens| - st.offset, 0
    ensures r.Ok? ==> st.offset < r.value.st.offset && Returns(env, st, r.value.st)
  {
    var tok := env.tokens[st.offset];
    var s := st.(offset := st.offset + 1, currentLine := if tok.Some? then tok.value.line else st.currentLine);
    if tok.None? then
      if s.blocks != 0 then Fail(env, s, "Unexpected EOF") else Ok(Done(s))
    else ChildToken(env, s, tok.value)
  }

  /** The branch of `compileChildTemplate` for one token. */
  function ChildToken(env: Env, s: CState, t: Typed): (r: Result<Flow, CompilerException>)
    requires s.offset <= |env.tokens|
    decreases |env.tokens| - s.offset, 4
    ensures r.Ok? ==> s.offset <= r.value.st.offset && Returns(env, s, r.value.st)
  {
    match t.kind
    case Static =>
      if Trim(t.content) != "" then Fail(env, s, "Unexpected non-empty static content") else Ok(Go(s))
    case Comment => Ok(Go(s))
    case InlineJs => Ok(Go(Emit(s, Code(t.content))))
    case End =>
      if s.blocks == 0 then Fail(env, s, "Unexpected block end")
      else if t.content != "" then Fail(env, s, "Unexpected '" + t.content + "' after '/'")
      else Ok(Done(s))
    case ElseIf => Ok(Go(HandleWhitespaces(env, Emit(s, OpenElseIf(t.content)))))
    case Else => Ok(Go(Emit(s, OpenElse)))
    case _ => Wrap(ChildNested(env, s, t))
  }

  /** The branches of `compileChildTemplate` that hand the following tokens
      on, and the kinds a child template may not hold. */
  function ChildNested(env: Env, s: CState, t: Typed): (r: Result<CState, CompilerException>)
    requires s.offset <= |env.tokens|
    decreases |env.tokens| - s.offset, 3
    ensures r.Ok? ==> Returns(env, s, r.value)
  {
    match t.kind
    case Section => CompileSection(env, HandleWhitespaces(env, s.(firstOnLine := true)), t.content)
    case If => ChildBlock(env, s, t.content)
    case Export => CompileExport(env, HandleWhitespaces(env, s), t.content)
    case _ => Fail(env, s, "Unexpected token '" + TypeName(t.kind) + "'")
  }

  /** An `if` in a child template (lib/compiler.js:356-363). */
  function ChildBlock(env: Env, st: CState, cond: string): (r: Result<CState, CompilerException>)
    requires st.offset <= |env.tokens|
    decreases |env.tokens| - st.offset, 2
    ensures r.Ok? ==> Returns(env, st, r.value)
  {
    var s1 := Emit(st.(blocks := st.blocks + 1), Open("if", cond));
    Close(CompileChildTemplate(env, s1), CloseBlock)
  }

  // ------------------------------------------------------- the template

  /** The state `compile` creates the `Compiler` with (lib/compiler.js:91-107). */
  function Start(): CState {
    CState([], 0, 0, [], [], "", true, 0, 0)
  }

  /** `compileTemplate` (lib/compiler.js:140-161): header, the run function
      around the compiled tokens, and the footer listing the dependencies. */
  function CompileTemplate(env: Env): (r: Result<seq<Instr>, CompilerException>)
    ensures r.Ok? ==> |r.value| >= 6 && r.value[..4] == [Prologue, RunOpen, InitWrite(None), Variables(env.identifiers)]
    ensures r.Ok? ==> r.value[|r.value| - 2] == RunClose && r.value[|r.value| - 1].Epilogue?
  {
    var st := Start().(output := [Prologue, RunOpen, InitWrite(None), Variables(env.identifiers)]);
    match CompileTokens(env, st)
    case Err(e) => Err(e)
    case Ok(s) => Ok(s.output + [RunClose, Epilogue(s.deps)])
  }
}
