/** What the tokenizer's token objects do after they are read: `transform`
    gives a control token its kind by sigil or leading keyword, and
    `identifiers` lists the `$name` references in it (lib/tokenizer.js:249-357). */
module TokenClassifier {
  import opened Text
  import Tok = TemplateTokenizer

  /** The kinds of `TokenType` (lib/tokenizer.js:13-42), with the two kinds
      that only the compiler names: `TokenType.WRITE_ESC` and
      `TokenType.MACRO` (lib/compiler.js:244, 318) are not defined there, so
      no token the classifier makes has them. */
  datatype TokenType =
    | Static | Control | Comment
    | InlineJs | Write | WriteRaw | WriteJsEscape
    | Parent | Virtual | Section | Include | End
    | If | ElseIf | Else | For | Foreach | While | Break | Continue
    | Cutout | Export
    | WriteEsc | Macro

  /** The string each kind stands for, which the compiler's "Unexpected
      token" message quotes. */
  function TypeName(k: TokenType): string {
    match k
    case Static => "static"
    case Control => "control"
    case Comment => "comment"
    case InlineJs => "inline js"
    case Write => "write"
    case WriteRaw => "write_raw"
    case WriteJsEscape => "write_js_escape"
    case Parent => "parent"
    case Virtual => "virtual"
    case Section => "section"
    case Include => "include"
    case End => "block end"
    case If => "if"
    case ElseIf => "elseif"
    case Else => "else"
    case For => "for"
    case Foreach => "foreach"
    case While => "while"
    case Break => "break"
    case Continue => "continue"
    case Cutout => "cutout"
    case Export => "export"
    case WriteEsc => "undefined"
    case Macro => "undefined"
  }

  /** A token object: its kind and content, which `transform` rewrites, and
      the HTML context and line the tokenizer gave it. */
  datatype Typed = Typed(kind: TokenType, content: string, context: Tok.HtmlContext, line: nat)

  /** The token object `nextToken` creates for a token (lib/tokenizer.js:114,
      126, 137, 171, 234): a comment's null content is the empty string here,
      and only a control token has an HTML context. */
  function ToTyped(tok: Tok.Token): (r: Typed)
    ensures r.line == tok.line
    ensures r.kind == Static <==> tok.StaticToken?
    ensures r.kind == Control <==> tok.ControlToken?
    ensures tok.ControlToken? ==> r.content == tok.text && r.context == tok.context
    ensures tok.StaticToken? ==> r.content == tok.text && r.context == Tok.NotApplicable
  {
    match tok
    case StaticToken(s, l) => Typed(Static, s, Tok.NotApplicable, l)
    case ControlToken(s, c, l) => Typed(Control, s, c, l)
    case CommentToken(l) => Typed(Comment, "", Tok.NotApplicable, l)
  }

  // ---------------------------------------------------------- first word

  /** The length of the run of `[a-zA-Z0-9_]` characters starting at `i`. */
  function WordRun(s: string, i: nat): (n: nat)
    requires i <= |s|
    decreases |s| - i
    ensures i + n <= |s|
    ensures forall j :: i <= j < i + n ==> IsWordChar(s[j])
    ensures i + n < |s| ==> !IsWordChar(s[i + n])
  {
    if i < |s| && IsWordChar(s[i]) then 1 + WordRun(s, i + 1) else 0
  }

  /** `findFirstWord`: the leading run of word characters, or null when the
      content does not start with one (lib/tokenizer.js:263-276). */
  method FindFirstWord(content: string) returns (r: Option<string>)
    ensures r == if WordRun(content, 0) > 0 then Some(content[..WordRun(content, 0)]) else None
  {
    var pos := 0;
    var wordLength := 0;
    while pos < |content|
      invariant wordLength == pos <= |content|
      invariant forall j :: 0 <= j < pos ==> IsWordChar(content[j])
    {
      var c := content[pos];
      pos := pos + 1;
      if IsWordChar(c) {
        wordLength := wordLength + 1;
      } else {
        break;
      }
    }
    r := if wordLength > 0 then Some(Substr(content, 0, wordLength)) else None;
  }

  // ------------------------------------------------------------ transform

  /** The kind a leading sigil gives a token whose content has no first word
      (lib/tokenizer.js:282-297). */
  function SigilKind(c: char): Option<TokenType> {
    if c == '>' then Some(InlineJs)
    else if c == '/' then Some(End)
    else if c == '@' then Some(WriteRaw)
    else if c == '\\' then Some(WriteJsEscape)
    else None
  }

  /** The kind a first word gives, with the number of characters the source
      cuts off before trimming the rest (lib/tokenizer.js:298-353). */
  function KeywordKind(w: string): Option<(TokenType, nat)> {
    if w == "parent" then Some((Parent, 6))
    else if w == "section" then Some((Section, 7))
    else if w == "virtual" then Some((Virtual, 7))
    else if w == "include" then Some((Include, 7))
    else if w == "if" then Some((If, 2))
    else if w == "elseif" then Some((ElseIf, 6))
    else if w == "else" then Some((Else, 4))
    else if w == "for" then Some((For, 3))
    else if w == "foreach" then Some((Foreach, 7))
    else if w == "while" then Some((While, 5))
    else if w == "break" then Some((Break, 5))
    else if w == "continue" then Some((Continue, 8))
    else if w == "cutout" then Some((Cutout, 6))
    else if w == "export" then Some((Export, 6))
    else None
  }

  /** The kind and content a token object has after `transform`
      (lib/tokenizer.js:259-357). */
  function Transformed(kind: TokenType, content: string): (TokenType, string) {
    if kind == Static || kind == Comment then (kind, content)
    else
      var n := WordRun(content, 0);
      if n == 0 && |content| > 0 && SigilKind(content[0]).Some? then
        (SigilKind(content[0]).value, Trim(Suffix(content, 1)))
      else if n > 0 && KeywordKind(content[..n]).Some? then
        var (k, cut) := KeywordKind(content[..n]).value;
        (k, Trim(Suffix(content, cut)))
      else (Write, content)
  }

  /** A token object whose kind and content `transform` rewrites in place. */
  class TokenObject {
    var kind: TokenType
    var content: string
    const context: Tok.HtmlContext
    const line: nat

    constructor (t: Typed)
      ensures kind == t.kind && content == t.content && context == t.context && line == t.line
    {
      kind := t.kind;
      content := t.content;
      context := t.context;
      line := t.line;
    }

    /** `Token.prototype.transform` (lib/tokenizer.js:259-357). */
    method Transform()
      modifies this
      ensures (kind, content) == Transformed(old(kind), old(content))
    {
      if kind == Static || kind == Comment {
        return;
      }
      var c := content;
      var firstWord := FindFirstWord(c);
      if firstWord == None && |c| > 0 && SigilKind(c[0]).Some? {
        kind := SigilKind(c[0]).value;
        content := Trim(Suffix(c, 1));
      } else if firstWord.Some? && KeywordKind(firstWord.value).Some? {
        var (k, cut) := KeywordKind(firstWord.value).value;
        kind := k;
        content := Trim(Suffix(c, cut));
      } else {
        kind := Write;
      }
    }
  }

  // ----------------------------------------------- the keyword table

  /** Every sigil and keyword with its kind: the reference `transform` is
      stated against. */
  const Sigils: map<char, TokenType> :=
    map['>' := InlineJs, '/' := End, '@' := WriteRaw, '\\' := WriteJsEscape]

  const Keywords: map<string, TokenType> :=
    map["parent" := Parent, "section" := Section, "virtual" := Virtual, "include" := Include,
        "if" := If, "elseif" := ElseIf, "else" := Else, "for" := For, "foreach" := Foreach,
        "while" := While, "break" := Break, "continue" := Continue, "cutout" := Cutout,
        "export" := Export]

  /** The sigil chain is the sigil table, and no sigil is a word character. */
  lemma SigilKindIsTable(c: char)
    ensures SigilKind(c) == if c in Sigils then Some(Sigils[c]) else None
    ensures c in Sigils ==> !IsWordChar(c)
  {
  }

  /** The keyword chain is the keyword table, and each count of characters
      the source cuts off is the length of its keyword. */
  lemma KeywordKindIsTable(w: string)
    ensures KeywordKind(w) == if w in Keywords then Some((Keywords[w], |w|)) else None
  {
  }

  /** `transform` on a token that is neither static nor a comment: a leading
      sigil from the table gives its kind and the trimmed rest; a first word
      that is, exactly, a keyword of the table gives its kind and the trimmed
      rest after the word; anything else is a write with its content unchanged. */
  lemma TransformByTable(kind: TokenType, content: string)
    requires kind != Static && kind != Comment
    ensures var n := WordRun(content, 0);
      Transformed(kind, content) ==
        if |content| > 0 && content[0] in Sigils then (Sigils[content[0]], Trim(content[1..]))
        else if n > 0 && content[..n] in Keywords then (Keywords[content[..n]], Trim(content[n..]))
        else (Write, content)
  {
    var n := WordRun(content, 0);
    if |content| > 0 {
      SigilKindIsTable(content[0]);
    }
    if |content| > 0 && content[0] in Sigils {
      assert n == 0;
      assert Transformed(kind, content) == (Sigils[content[0]], Trim(content[1..]));
    } else if n > 0 && content[..n] in Keywords {
      KeywordKindIsTable(content[..n]);
      assert Transformed(kind, content) == (Keywords[content[..n]], Trim(content[n..]));
    } else {
      if n > 0 {
        KeywordKindIsTable(content[..n]);
      }
      assert Transformed(kind, content) == (Write, content);
    }
  }

  /** The first word of `s` from `i` is `n` characters long when those are
      word characters and the next one is not. */
  lemma WordRunIs(s: string, i: nat, n: nat)
    requires i + n <= |s| && (forall j :: i <= j < i + n ==> IsWordChar(s[j]))
    requires i + n == |s| || !IsWordChar(s[i + n])
    ensures WordRun(s, i) == n
  {
  }

  /** The keyword must be the whole first word: `iffy` is a write. */
  lemma KeywordWholeWord(s: string)
    requires s == "iffy"
    ensures Transformed(Control, s) == (Write, s)
  {
    WordRunIs(s, 0, 4);
    assert s[..4] == s;
    assert KeywordKind(s) == None;
  }

  /** `_` is a word character: `if_x > 1` is a write. */
  lemma KeywordUnderscore(s: string)
    requires s == "if_x > 1"
    ensures Transformed(Control, s) == (Write, s)
  {
    WordRunIs(s, 0, 4);
    var w := s[..4];
    assert w == "if_x";
    assert KeywordKind(w) == None;
  }

  /** A keyword followed by a non-word character counts: `if($a)` starts an `if`. */
  lemma KeywordBeforeParen(s: string)
    requires s == "if($a)"
    ensures Transformed(Control, s).0 == If
  {
    WordRunIs(s, 0, 2);
    var w := s[..2];
    assert w == "if";
    assert KeywordKind(w) == Some((If, 2));
  }

  /** No keyword gives the kinds a token has before `transform`, nor the
      fallback `write`. */
  lemma NoKeywordIsWrite(w: string)
    ensures KeywordKind(w).Some? ==> KeywordKind(w).value.0 !in {Write, Control, Static, Comment}
  {
  }

  /** `Transformed` on content that starts with a sigil. */
  lemma TransformedSigil(kind: TokenType, content: string)
    requires kind != Static && kind != Comment
    requires WordRun(content, 0) == 0 && |content| > 0 && SigilKind(content[0]).Some?
    ensures Transformed(kind, content) == (SigilKind(content[0]).value, Trim(Suffix(content, 1)))
    ensures Transformed(kind, content).0 != Write
  {
  }

  /** `Transformed` on content whose first word is a keyword. */
  lemma TransformedKeyword(kind: TokenType, content: string)
    requires kind != Static && kind != Comment
    requires WordRun(content, 0) > 0 && KeywordKind(content[..WordRun(content, 0)]).Some?
    ensures var x := KeywordKind(content[..WordRun(content, 0)]).value;
      Transformed(kind, content) == (x.0, Trim(Suffix(content, x.1)))
    ensures Transformed(kind, content).0 != Write
  {
    NoKeywordIsWrite(content[..WordRun(content, 0)]);
  }

  /** `transform` gives every token that is neither static nor a comment a
      kind of its own: none is left a `control` token. */
  lemma TransformedKind(kind: TokenType, content: string)
    requires kind != Static && kind != Comment
    ensures Transformed(kind, content).0 !in {Control, Static, Comment}
  {
    var n := WordRun(content, 0);
    if n == 0 && |content| > 0 && SigilKind(content[0]).Some? {
      TransformedSigil(kind, content);
      var k := SigilKind(content[0]).value;
      assert Transformed(kind, content).0 == k;
      assert k != Control && k != Static && k != Comment;
    } else if n > 0 && KeywordKind(content[..n]).Some? {
      TransformedKeyword(kind, content);
      NoKeywordIsWrite(content[..n]);
      assert Transformed(kind, content).0 == KeywordKind(content[..n]).value.0;
    } else {
      assert Transformed(kind, content) == (Write, content);
    }
  }

  /** Static and comment token objects are left as they are; a token that
      becomes a write keeps its content, and every other kind gets content
      trimmed at both ends. */
  lemma TransformShape(kind: TokenType, content: string)
    ensures kind == Static || kind == Comment ==> Transformed(kind, content) == (kind, content)
    ensures kind != Static && kind != Comment && Transformed(kind, content).0 != Write ==>
      var c := Transformed(kind, content).1;
      c == [] || (!IsJsWhitespace(c[0]) && !IsJsWhitespace(c[|c| - 1]))
    ensures kind != Static && kind != Comment && Transformed(kind, content).0 == Write ==>
      Transformed(kind, content).1 == content
  {
    var n := WordRun(content, 0);
    if kind != Static && kind != Comment {
      if n == 0 && |content| > 0 && SigilKind(content[0]).Some? {
        TransformedSigil(kind, content);
      } else if n > 0 && KeywordKind(content[..n]).Some? {
        TransformedKeyword(kind, content);
      }
    }
  }

  // ------------------------------------------------------- identifiers

  /** Whether `$` at `j` starts an identifier: a word character follows. */
  predicate IdentifierAt(s: string, j: nat)
    requires j < |s|
  {
    s[j] == '$' && WordRun(s, j + 1) > 0
  }

  /** The identifier starting at `j`: `$` and the whole run of word
      characters after it. */
  function IdentifierText(s: string, j: nat): string
    requires j < |s| && IdentifierAt(s, j)
  {
    s[j..j + 1 + WordRun(s, j + 1)]
  }

  /** What `match(/\$[a-zA-Z0-9_]+/g)` finds from `i` on: each match is a `$`
      and the longest run of word characters after it, and the search goes on
      after the match. */
  function Matches(s: string, i: nat): (r: seq<string>)
    requires i <= |s|
    decreases |s| - i
    ensures forall k :: 0 <= k < |r| ==> |r[k]| >= 2 && r[k][0] == '$'
    ensures forall k, j :: 0 <= k < |r| && 1 <= j < |r[k]| ==> IsWordChar(r[k][j])
  {
    if i == |s| then []
    else if IdentifierAt(s, i) then
      var e := i + 1 + WordRun(s, i + 1);
      [IdentifierText(s, i)] + Matches(s, e)
    else Matches(s, i + 1)
  }

  /** `Token.prototype.identifiers`: null for a token that is not a control
      token or holds no identifier, otherwise every match in order
      (lib/tokenizer.js:251-256). */
  function Identifiers(t: Typed): (r: Option<seq<string>>)
    ensures r.Some? ==> t.kind == Control && |r.value| > 0
  {
    if t.kind != Control then None
    else
      var ms := Matches(t.content, 0);
      if ms == [] then None else Some(ms)
  }

  /** The positions from `i` on where an identifier starts, checking every
      position (the reference `Matches` is stated against). */
  function Starts(s: string, i: nat): (r: seq<nat>)
    requires i <= |s|
    decreases |s| - i
    ensures forall k :: 0 <= k < |r| ==> i <= r[k] < |s| && IdentifierAt(s, r[k])
  {
    if i == |s| then []
    else if IdentifierAt(s, i) then [i] + Starts(s, i + 1)
    else Starts(s, i + 1)
  }

  /** The identifiers at a list of start positions. */
  function TextsAt(s: string, ps: seq<nat>): (r: seq<string>)
    requires forall k :: 0 <= k < |ps| ==> ps[k] < |s| && IdentifierAt(s, ps[k])
    ensures |r| == |ps|
  {
    if ps == [] then [] else [IdentifierText(s, ps[0])] + TextsAt(s, ps[1..])
  }

  /** No identifier starts inside the word after a `$`, since no word
      character is a `$`. */
  lemma {:induction false} NoStartInWord(s: string, j: nat, e: nat)
    requires j <= e <= |s| && forall k :: j <= k < e ==> IsWordChar(s[k])
    decreases e - j
    ensures Starts(s, j) == Starts(s, e)
  {
    if j < e {
      assert !IdentifierAt(s, j);
      NoStartInWord(s, j + 1, e);
    }
  }

  /** The start positions from an identifier on: it, then those after its word. */
  lemma StartsAfterIdentifier(s: string, i: nat)
    requires i < |s| && IdentifierAt(s, i)
    ensures Starts(s, i) == [i] + Starts(s, i + 1 + WordRun(s, i + 1))
  {
    NoStartInWord(s, i + 1, i + 1 + WordRun(s, i + 1));
  }

  lemma TextsAtCons(s: string, p: nat, ps: seq<nat>)
    requires p < |s| && IdentifierAt(s, p)
    requires forall k :: 0 <= k < |ps| ==> ps[k] < |s| && IdentifierAt(s, ps[k])
    ensures TextsAt(s, [p] + ps) == [IdentifierText(s, p)] + TextsAt(s, ps)
  {
    assert ([p] + ps)[1..] == ps;
  }

  /** One match, given that the search after it finds every identifier. */
  lemma MatchAtStart(s: string, i: nat)
    requires i < |s| && IdentifierAt(s, i)
    requires Matches(s, i + 1 + WordRun(s, i + 1)) == TextsAt(s, Starts(s, i + 1 + WordRun(s, i + 1)))
    ensures Matches(s, i) == TextsAt(s, Starts(s, i))
  {
    var e := i + 1 + WordRun(s, i + 1);
    var id := IdentifierText(s, i);
    var ps := Starts(s, e);
    assert Matches(s, i) == [id] + Matches(s, e);
    StartsAfterIdentifier(s, i);
    assert Starts(s, i) == [i] + ps;
    TextsAtCons(s, i, ps);
    calc {
      TextsAt(s, Starts(s, i));
      TextsAt(s, [i] + ps);
      [id] + TextsAt(s, ps);
      [id] + Matches(s, e);
    }
  }

  /** The global search finds the identifier at every position where one
      starts, in order: skipping over each match loses none. */
  lemma {:induction false} MatchesAreAllStarts(s: string, i: nat)
    requires i <= |s|
    decreases |s| - i
    ensures Matches(s, i) == TextsAt(s, Starts(s, i))
  {
    if i < |s| {
      if IdentifierAt(s, i) {
        MatchesAreAllStarts(s, i + 1 + WordRun(s, i + 1));
        MatchAtStart(s, i);
      } else {
        MatchesAreAllStarts(s, i + 1);
      }
    }
  }

  /** Every position where an identifier starts is among the start positions. */
  lemma {:induction false} StartsComplete(s: string, i: nat, j: nat)
    requires i <= j < |s| && IdentifierAt(s, j)
    decreases j - i
    ensures j in Starts(s, i)
  {
    if i < j {
      StartsComplete(s, i + 1, j);
    }
  }

  /** `identifiers` is null exactly when the token is not a control token or
      no `$` in it is followed by a word character. */
  lemma IdentifiersNull(t: Typed)
    ensures Identifiers(t) == None <==>
      t.kind != Control || forall j :: 0 <= j < |t.content| ==> !IdentifierAt(t.content, j)
  {
    if t.kind == Control {
      MatchesAreAllStarts(t.content, 0);
      var ps := Starts(t.content, 0);
      if exists j :: 0 <= j < |t.content| && IdentifierAt(t.content, j) {
        var j :| 0 <= j < |t.content| && IdentifierAt(t.content, j);
        StartsComplete(t.content, 0, j);
      }
    }
  }
}
