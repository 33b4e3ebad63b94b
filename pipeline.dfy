/** `compile(template, filename)` of lib/compiler.js:66-111: tokenize the
    template, collect the global identifiers, give each token its kind, and
    compile the token list with the `Compiler`. */
module Pipeline {
  import opened Text
  import Tok = TemplateTokenizer
  import opened TokenClassifier
  import opened CompilerSpec
  import TemplateCompiler
  import TokenizerScans
  import CompilerProofs

  // ------------------------------------------------- global identifiers

  predicate NoDuplicates(s: seq<string>) {
    forall i, j :: 0 <= i < j < |s| ==> s[i] != s[j]
  }

  /** `globalIdentifiers[ids[i]] = true` for each `i` in turn, where `keys`
      is `Object.keys(globalIdentifiers)` before: a new key goes last, and a
      key already there keeps its place (string keys that are not array
      indices, as `$name` never is, are listed in insertion order). */
  function AddKeys(keys: seq<string>, ids: seq<string>): (r: seq<string>)
    decreases |ids|
    ensures keys <= r
    ensures forall x :: x in r <==> x in keys || x in ids
    ensures NoDuplicates(keys) ==> NoDuplicates(r)
  {
    if ids == [] then keys
    else AddKeys(if ids[0] in keys then keys else keys + [ids[0]], ids[1..])
  }

  /** The identifiers `token.identifiers()` lists, or none when it returns null. */
  function IdentifiersOf(tok: Tok.Token): seq<string> {
    match Identifiers(ToTyped(tok))
    case Some(ids) => ids
    case None => []
  }

  /** The identifier lists of the tokens, in order. */
  function IdLists(ts: seq<Tok.Token>): (r: seq<seq<string>>)
    ensures |r| == |ts|
  {
    seq(|ts|, i requires 0 <= i < |ts| => IdentifiersOf(ts[i]))
  }

  /** The keys after adding the lists `ls` one after the other to no keys. */
  function KeysAfter(ls: seq<seq<string>>): seq<string> {
    if ls == [] then [] else AddKeys(KeysAfter(ls[..|ls| - 1]), ls[|ls| - 1])
  }

  /** `Object.keys(globalIdentifiers)` after the tokens `ts`. */
  function Globals(ts: seq<Tok.Token>): seq<string> {
    KeysAfter(IdLists(ts))
  }

  /** Each token adds its identifiers to the keys so far (lib/compiler.js:74-79). */
  lemma GlobalsSnoc(ts: seq<Tok.Token>, tok: Tok.Token)
    ensures Globals(ts + [tok]) == AddKeys(Globals(ts), IdentifiersOf(tok))
  {
    var ls := IdLists(ts + [tok]);
    assert ls[..|ts|] == IdLists(ts);
  }

  /** The keys after the lists are the members of the lists, each once. */
  lemma {:induction false} KeysAfterMembers(ls: seq<seq<string>>)
    ensures NoDuplicates(KeysAfter(ls))
    ensures forall x :: x in KeysAfter(ls) <==> exists i :: 0 <= i < |ls| && x in ls[i]
  {
    KeysAfterUnique(ls);
    forall x | x in KeysAfter(ls)
      ensures exists i :: 0 <= i < |ls| && x in ls[i]
    {
      var i := KeysAfterWitness(ls, x);
    }
    forall x, i | 0 <= i < |ls| && x in ls[i]
      ensures x in KeysAfter(ls)
    {
      KeysAfterContain(ls, i, x);
    }
  }

  lemma {:induction false} KeysAfterUnique(ls: seq<seq<string>>)
    ensures NoDuplicates(KeysAfter(ls))
  {
    if ls != [] {
      KeysAfterUnique(ls[..|ls| - 1]);
    }
  }

  lemma {:induction false} KeysAfterWitness(ls: seq<seq<string>>, x: string) returns (i: nat)
    requires x in KeysAfter(ls)
    ensures i < |ls| && x in ls[i]
  {
    var init, last := ls[..|ls| - 1], ls[|ls| - 1];
    var keys := KeysAfter(init);
    assert KeysAfter(ls) == AddKeys(keys, last);
    if x in last {
      i := |ls| - 1;
    } else {
      assert x in keys;
      i := KeysAfterWitness(init, x);
      assert ls[i] == init[i];
    }
  }

  lemma {:induction false} KeysAfterContain(ls: seq<seq<string>>, i: nat, x: string)
    requires i < |ls| && x in ls[i]
    ensures x in KeysAfter(ls)
  {
    var init := ls[..|ls| - 1];
    if i < |init| {
      assert init[i] == ls[i];
      KeysAfterContain(init, i, x);
    }
  }

  /** The global identifiers are exactly the identifiers of the control
      tokens, each once (lib/compiler.js:74-79, 100). */
  lemma GlobalsAreIdentifiers(ts: seq<Tok.Token>)
    ensures NoDuplicates(Globals(ts))
    ensures forall x :: x in Globals(ts) <==> exists i :: 0 <= i < |ts| && x in IdentifiersOf(ts[i])
  {
    var ls := IdLists(ts);
    KeysAfterMembers(ls);
    assert forall i :: 0 <= i < |ts| ==> ls[i] == IdentifiersOf(ts[i]);
  }

  /** The keys of earlier tokens keep their place: the identifiers are
      listed by first occurrence. */
  lemma GlobalsExtend(ts: seq<Tok.Token>, tok: Tok.Token)
    ensures Globals(ts) <= Globals(ts + [tok])
  {
    GlobalsSnoc(ts, tok);
  }

  // ------------------------------------------------- the token list

  /** A token after `transform`: the kind by sigil or keyword, and the
      content with them cut off (lib/cutter.js:39-40). */
  function Classify(tok: Tok.Token): (r: Typed)
    ensures r.line == tok.line && r.context == ToTyped(tok).context
    ensures tok.ControlToken? ==> r.kind !in {Control, Static, Comment}
    ensures !tok.ControlToken? ==> r == ToTyped(tok)
  {
    var t := ToTyped(tok);
    if tok.ControlToken? then
      TransformedKind(t.kind, t.content);
      var x := Transformed(t.kind, t.content);
      Typed(x.0, x.1, t.context, t.line)
    else t
  }

  /** The token list the `Compiler` gets: every token, then the null EOF
      token (lib/compiler.js:81-83). */
  function Prepared(ts: seq<Tok.Token>): (r: seq<Option<Typed>>)
    ensures |r| == |ts| + 1 && r[|ts|] == None
  {
    Classified(ts) + [None]
  }

  function Classified(ts: seq<Tok.Token>): (r: seq<Option<Typed>>)
    ensures |r| == |ts|
  {
    seq(|ts|, i requires 0 <= i < |ts| => Some(Classify(ts[i])))
  }

  lemma ClassifiedSnoc(ts: seq<Tok.Token>, tok: Tok.Token)
    ensures Classified(ts + [tok]) == Classified(ts) + [Some(Classify(tok))]
  {
  }

  /** What compiling a template gives: the tokenizer's exception as a
      `CompilerException` for `filename`, or `compileTemplate` on the
      prepared tokens (lib/compiler.js:66-111). */
  function CompileSource(template: string, filename: string, macros: map<string, MacroShape>)
    : Result<seq<Instr>, CompilerException>
  {
    match Tok.Tokenize(template)
    case Err(e) => Err(CompilerException(e.message, filename, e.line))
    case Ok(ts) => CompileTemplate(Env(Prepared(ts), Globals(ts), macros, filename))
  }

  /** `compile(template, filename)`, with the registry of macros given. */
  method Compile(template: string, filename: string, macros: map<string, MacroShape>)
    returns (r: Result<seq<Instr>, CompilerException>)
    ensures r == CompileSource(template, filename, macros)
  {
    var tokenizer := new Tok.Tokenizer(template);
    var globalIdentifiers: seq<string> := [];
    var tokens: seq<Option<Typed>> := [];
    ghost var read: seq<Tok.Token> := [];
    while true
      invariant tokenizer.template == template && tokenizer.Valid()
      invariant Tok.Run(template, tokenizer.State(), read) == Tok.Tokenize(template)
      invariant globalIdentifiers == Globals(read)
      invariant tokens == Classified(read)
      decreases Tok.Measure(template, tokenizer.State())
    {
      var sig := tokenizer.NextToken();
      if sig.Fail? {
        return Err(CompilerException(sig.message, filename, sig.line));
      } else if !sig.Emit? {
        break;
      }
      var token := sig.token;
      globalIdentifiers := Collect(globalIdentifiers, token);
      GlobalsSnoc(read, token);
      var typed := Transform(token);
      tokens := tokens + [Some(typed)];
      ClassifiedSnoc(read, token);
      read := read + [token];
    }
    tokens := tokens + [None];
    var comp := new TemplateCompiler.Compiler(Env(tokens, globalIdentifiers, macros, filename), Start());
    var err := comp.CompileTemplate();
    if err.Some? {
      return Err(err.value);
    }
    return Ok(comp.output);
  }

  /** `token.transform()` on the token object `nextToken` made. */
  method Transform(token: Tok.Token) returns (r: Typed)
    ensures r == Classify(token)
  {
    var obj := new TokenObject(ToTyped(token));
    obj.Transform();
    r := Typed(obj.kind, obj.content, obj.context, obj.line);
  }

  /** The loop over `token.identifiers()` (lib/compiler.js:74-79). */
  method Collect(keys: seq<string>, token: Tok.Token) returns (r: seq<string>)
    ensures r == AddKeys(keys, IdentifiersOf(token))
  {
    r := keys;
    var identifiers := Identifiers(ToTyped(token));
    if identifiers.Some? {
      var ids := identifiers.value;
      for i := 0 to |ids|
        invariant AddKeys(r, ids[i..]) == AddKeys(keys, ids)
      {
        assert ids[i..][1..] == ids[i + 1..];
        if ids[i] !in r {
          r := r + [ids[i]];
        }
      }
    }
  }

  // ------------------------------------------------- as written

  /** The token list lib/compiler.js:73-83 builds: `transform` is never
      called, so every tag keeps the kind `control`. */
  function Unclassified(ts: seq<Tok.Token>): (r: seq<Option<Typed>>)
    ensures |r| == |ts| + 1 && r[|ts|] == None
    ensures forall i :: 0 <= i < |ts| ==> r[i] == Some(ToTyped(ts[i]))
  {
    if ts == [] then [None] else [Some(ToTyped(ts[0]))] + Unclassified(ts[1..])
  }

  function CompileSourceAsWritten(template: string, filename: string, macros: map<string, MacroShape>)
    : Result<seq<Instr>, CompilerException>
  {
    match Tok.Tokenize(template)
    case Err(e) => Err(CompilerException(e.message, filename, e.line))
    case Ok(ts) => CompileTemplate(Env(Unclassified(ts), Globals(ts), macros, filename))
  }

  /** A token of kind `control` reaches the last branch of `compileTokens`. */
  lemma ControlTokenRejected(env: Env, st: CState, t: Typed)
    requires st.offset < |env.tokens| && env.tokens[st.offset] == Some(t) && t.kind == Control
    ensures TokensStep(env, st) == Err(CompilerException("Unexpected token 'control'", env.filename, t.line))
  {
    var s := st.(offset := st.offset + 1, currentLine := t.line);
    var e := CompilerException("Unexpected token 'control'", env.filename, t.line);
    assert !IsPlain(t.kind) && t.kind != End;
    assert "Unexpected token '" + TypeName(Control) + "'" == "Unexpected token 'control'";
    assert NestedStep(env, s, t) == Err(e);
    assert TokensStep(env, st) == Wrap(NestedStep(env, s, t));
  }

  /** As written, a template that starts with a tag does not compile: the
      tag reaches the compiler as a `control` token, for which no branch of
      `compileTokens` exists. */
  lemma AsWrittenRejectsTags(template: string, filename: string, macros: map<string, MacroShape>)
    requires Tok.Tokenize(template).Ok? && |Tok.Tokenize(template).value| > 0
    requires Tok.Tokenize(template).value[0].ControlToken?
    ensures CompileSourceAsWritten(template, filename, macros) ==
      Err(CompilerException("Unexpected token 'control'", filename, Tok.Tokenize(template).value[0].line))
  {
    var ts := Tok.Tokenize(template).value;
    var env := Env(Unclassified(ts), Globals(ts), macros, filename);
    var st := Start().(output := [Prologue, RunOpen, InitWrite(None), Variables(env.identifiers)]);
    ControlTokenRejected(env, st, ToTyped(ts[0]));
    assert CompileTokens(env, st) == Err(CompilerException("Unexpected token 'control'", filename, ts[0].line));
  }

  /** `{x}`, the smallest template with a tag, does not compile as written. */
  lemma AsWrittenTagExample(template: string, filename: string, macros: map<string, MacroShape>)
    requires template == "{x}"
    ensures CompileSourceAsWritten(template, filename, macros).Err?
  {
    var t := template;
    assert TokenizerScans.Net(t, 1, 2) == 0 by {
      assert TokenizerScans.Net(t, 1, 1) == 0;
    }
    TokenizerScans.FirstTag(t, 1, 2);
    if Tok.Tokenize(t).Ok? {
      AsWrittenRejectsTags(t, filename, macros);
    }
  }

  /** The tokenizer reads `{\x}` as one tag on line 1. */
  lemma EscapeTagTokenized(t: string)
    requires t == "{\\x}"
    ensures Tok.Tokenize(t).Ok? ==>
      |Tok.Tokenize(t).value| > 0 && Tok.Tokenize(t).value[0].ControlToken? &&
      Tok.Tokenize(t).value[0].text == "\\x" && Tok.Tokenize(t).value[0].line == 1
  {
    assert TokenizerScans.Net(t, 1, 3) == 0 by {
      assert TokenizerScans.Net(t, 1, 1) == 0;
      assert TokenizerScans.Net(t, 1, 2) == 0;
    }
    assert !TokenizerScans.ClosesTag(t, 1, 1) && !TokenizerScans.ClosesTag(t, 1, 2);
    assert Tok.Breaks(t, 3) == 0 by {
      assert Tok.Breaks(t, 1) == 0;
      assert Tok.Breaks(t, 2) == 0;
    }
    assert t[1..3] == "\\x";
    TokenizerScans.FirstTag(t, 1, 3);
  }

  /** `transform` turns the tag content `\x` into `write_js_escape` `x`. */
  lemma EscapeSigilTransformed(c: string)
    requires |c| == 2 && c[0] == '\\' && c[1] == 'x'
    ensures Transformed(Control, c) == (WriteJsEscape, "x")
  {
    assert !IsWordChar(c[0]);
    assert WordRun(c, 0) == 0;
    assert SigilKind(c[0]) == Some(WriteJsEscape);
    TransformedSigil(Control, c);
    assert Suffix(c, 1) == "x";
    assert !IsJsWhitespace('x');
    assert TrimStart("x") == "x";
  }

  /** The tag `\x` becomes a `write_js_escape` token with content `x`. */
  lemma EscapeTagClassified(tok: Tok.Token)
    requires tok.ControlToken? && tok.text == "\\x"
    ensures Classify(tok).kind == WriteJsEscape && Classify(tok).content == "x"
  {
    EscapeSigilTransformed(tok.text);
  }

  /** The message of an unexpected `write_js_escape` token. */
  lemma EscapeMessage()
    ensures "Unexpected token '" + TypeName(WriteJsEscape) + "'" == "Unexpected token 'write_js_escape'"
  {
    assert TypeName(WriteJsEscape) == "write_js_escape";
  }

  /** `{\x}` does not compile, even with `transform` called: it is a
      `write_js_escape` token, which `compileTokens` rejects. */
  lemma JsEscapeTagRejected(template: string, filename: string, macros: map<string, MacroShape>)
    requires template == "{\\x}"
    ensures CompileSource(template, filename, macros).Err?
    ensures Tok.Tokenize(template).Ok? ==>
      CompileSource(template, filename, macros) == Err(CompilerException("Unexpected token 'write_js_escape'", filename, 1))
  {
    EscapeTagTokenized(template);
    if Tok.Tokenize(template).Ok? {
      var ts := Tok.Tokenize(template).value;
      EscapeTagClassified(ts[0]);
      var env := Env(Prepared(ts), Globals(ts), macros, filename);
      var st := Start().(output := [Prologue, RunOpen, InitWrite(None), Variables(env.identifiers)]);
      assert env.tokens[0] == Some(Classify(ts[0]));
      CompilerProofs.NoBranch(env, st, Classify(ts[0]));
      EscapeMessage();
      assert CompileTokens(env, st) == Err(CompilerException("Unexpected token 'write_js_escape'", filename, 1));
    }
  }

  /** With `transform` called after `identifiers`, as lib/cutter.js:31-40
      does, no token of kind `control` reaches the compiler, and every
      other token is passed on as the tokenizer made it. */
  lemma ClassifiedHasNoControl(template: string)
    requires Tok.Tokenize(template).Ok?
    ensures var ts := Tok.Tokenize(template).value;
      forall i :: 0 <= i < |ts| ==>
        && Prepared(ts)[i].Some? && Prepared(ts)[i].value.kind != Control
        && Prepared(ts)[i].value.line == ts[i].line
        && (!ts[i].ControlToken? ==> Prepared(ts)[i].value == ToTyped(ts[i]))
  {
    var ts := Tok.Tokenize(template).value;
    forall i | 0 <= i < |ts|
      ensures Prepared(ts)[i] == Some(Classify(ts[i]))
    {
      assert Prepared(ts)[i] == Classified(ts)[i];
    }
  }
}
