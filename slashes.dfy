/** `addSlashes`, which the compiler uses to put text inside a JavaScript
    string literal (lib/compiler.js:127-137), and the reading of such a
    literal's body that it is meant to invert. */
module Slashes {
  import opened Text

  const Backspace: char := '\U{0008}'
  const FormFeed: char := '\U{000C}'

  /** `s.replace(/c/g, r)` for a pattern matching a single character. */
  function ReplaceAll(s: string, c: char, r: string): (o: string)
    ensures c !in s ==> o == s
  {
    if s == [] then [] else (if s[0] == c then r else [s[0]]) + ReplaceAll(s[1..], c, r)
  }

  /** The chain of replacements, backslash first (lib/compiler.js:127-137). */
  function AddSlashes(s: string): string {
    var s1 := ReplaceAll(s, '\\', "\\\\");
    var s2 := ReplaceAll(s1, Backspace, "\\b");
    var s3 := ReplaceAll(s2, '\t', "\\t");
    var s4 := ReplaceAll(s3, '\n', "\\n");
    var s5 := ReplaceAll(s4, FormFeed, "\\f");
    var s6 := ReplaceAll(s5, '\r', "\\r");
    var s7 := ReplaceAll(s6, '\'', "\\'");
    ReplaceAll(s7, '"', "\\\"")
  }

  /** What `addSlashes` writes for one character: the reference the chain is
      stated against. */
  function EscapeChar(x: char): string {
    if x == '\\' then "\\\\"
    else if x == Backspace then "\\b"
    else if x == '\t' then "\\t"
    else if x == '\n' then "\\n"
    else if x == FormFeed then "\\f"
    else if x == '\r' then "\\r"
    else if x == '\'' then "\\'"
    else if x == '"' then "\\\""
    else [x]
  }

  /** Each character escaped on its own, in order. */
  function Escaped(s: string): string {
    if s == [] then [] else EscapeChar(s[0]) + Escaped(s[1..])
  }

  lemma {:induction false} ReplaceAllConcat(a: string, b: string, c: char, r: string)
    ensures ReplaceAll(a + b, c, r) == ReplaceAll(a, c, r) + ReplaceAll(b, c, r)
  {
    if a == [] {
      assert a + b == b;
    } else {
      assert (a + b)[1..] == a[1..] + b;
      ReplaceAllConcat(a[1..], b, c, r);
    }
  }

  /** `addSlashes` works character by character. */
  lemma AddSlashesConcat(a: string, b: string)
    ensures AddSlashes(a + b) == AddSlashes(a) + AddSlashes(b)
  {
    var a1, b1 := ReplaceAll(a, '\\', "\\\\"), ReplaceAll(b, '\\', "\\\\");
    ReplaceAllConcat(a, b, '\\', "\\\\");
    var a2, b2 := ReplaceAll(a1, Backspace, "\\b"), ReplaceAll(b1, Backspace, "\\b");
    ReplaceAllConcat(a1, b1, Backspace, "\\b");
    var a3, b3 := ReplaceAll(a2, '\t', "\\t"), ReplaceAll(b2, '\t', "\\t");
    ReplaceAllConcat(a2, b2, '\t', "\\t");
    var a4, b4 := ReplaceAll(a3, '\n', "\\n"), ReplaceAll(b3, '\n', "\\n");
    ReplaceAllConcat(a3, b3, '\n', "\\n");
    var a5, b5 := ReplaceAll(a4, FormFeed, "\\f"), ReplaceAll(b4, FormFeed, "\\f");
    ReplaceAllConcat(a4, b4, FormFeed, "\\f");
    var a6, b6 := ReplaceAll(a5, '\r', "\\r"), ReplaceAll(b5, '\r', "\\r");
    ReplaceAllConcat(a5, b5, '\r', "\\r");
    var a7, b7 := ReplaceAll(a6, '\'', "\\'"), ReplaceAll(b6, '\'', "\\'");
    ReplaceAllConcat(a6, b6, '\'', "\\'");
    ReplaceAllConcat(a7, b7, '"', "\\\"");
  }

  lemma ReplaceAllOne(x: char, c: char, r: string)
    ensures ReplaceAll([x], c, r) == if x == c then r else [x]
  {
    assert [x][1..] == [];
  }

  /** One later step of the chain on what the earlier steps made of one
      character: the character itself, or an escape the step leaves alone. */
  lemma ChainStep(v: string, x: char, c: char, r: string)
    requires c != '\\'
    requires v == [x] || (|v| == 2 && v[0] == '\\' && v[1] != c)
    ensures ReplaceAll(v, c, r) == if v == [x] && x == c then r else v
  {
    if v == [x] {
      ReplaceAllOne(x, c, r);
    } else {
      assert c !in v;
    }
  }

  /** On one character the chain writes that character's escape: the
      backslashes it adds are never escaped again, because backslash goes first. */
  lemma AddSlashesChar(x: char)
    ensures AddSlashes([x]) == EscapeChar(x)
  {
    var s1 := ReplaceAll([x], '\\', "\\\\");
    ReplaceAllOne(x, '\\', "\\\\");
    ChainStep(s1, x, Backspace, "\\b");
    var s2 := ReplaceAll(s1, Backspace, "\\b");
    ChainStep(s2, x, '\t', "\\t");
    var s3 := ReplaceAll(s2, '\t', "\\t");
    ChainStep(s3, x, '\n', "\\n");
    var s4 := ReplaceAll(s3, '\n', "\\n");
    ChainStep(s4, x, FormFeed, "\\f");
    var s5 := ReplaceAll(s4, FormFeed, "\\f");
    ChainStep(s5, x, '\r', "\\r");
    var s6 := ReplaceAll(s5, '\r', "\\r");
    ChainStep(s6, x, '\'', "\\'");
    var s7 := ReplaceAll(s6, '\'', "\\'");
    ChainStep(s7, x, '"', "\\\"");
  }

  /** The chain of replacements is the character-by-character escape. */
  lemma {:induction false} AddSlashesIsEscaped(s: string)
    ensures AddSlashes(s) == Escaped(s)
  {
    if s != [] {
      assert s == [s[0]] + s[1..];
      AddSlashesConcat([s[0]], s[1..]);
      AddSlashesChar(s[0]);
      AddSlashesIsEscaped(s[1..]);
    }
  }

  // ------------------------------------------------- reading it back

  /** The character a JavaScript escape `\e` stands for, for the escapes
      `addSlashes` writes (section 12.9.4 of ECMA-262). */
  function SingleEscape(e: char): Option<char> {
    if e == '\\' then Some('\\')
    else if e == 'b' then Some(Backspace)
    else if e == 't' then Some('\t')
    else if e == 'n' then Some('\n')
    else if e == 'f' then Some(FormFeed)
    else if e == 'r' then Some('\r')
    else if e == '\'' then Some('\'')
    else if e == '"' then Some('"')
    else None
  }

  /** The string a double-quoted JavaScript literal with body `s` denotes,
      or None when `s` cannot be such a body: a raw `"`, line feed or carriage
      return ends the literal or is an error, and a backslash must start one
      of the escapes above. */
  function ReadLiteralBody(s: string): Option<string>
    decreases |s|
  {
    if s == [] then Some([])
    else if s[0] == '"' || s[0] == '\n' || s[0] == '\r' then None
    else if s[0] == '\\' then
      if |s| >= 2 && SingleEscape(s[1]).Some? then
        match ReadLiteralBody(s[2..])
        case Some(rest) => Some([SingleEscape(s[1]).value] + rest)
        case None => None
      else None
    else
      match ReadLiteralBody(s[1..])
      case Some(rest) => Some([s[0]] + rest)
      case None => None
  }

  /** Reading one escaped character then the rest. */
  lemma ReadEscapedChar(x: char, rest: string)
    ensures ReadLiteralBody(EscapeChar(x) + rest) ==
      match ReadLiteralBody(rest)
      case Some(r) => Some([x] + r)
      case None => None
  {
    var e := EscapeChar(x) + rest;
    if |EscapeChar(x)| == 2 {
      assert e[2..] == rest;
    } else {
      assert e[1..] == rest;
    }
  }

  /** Put between double quotes, the output of `addSlashes` denotes the
      original string. */
  lemma {:induction false} AddSlashesReadsBack(s: string)
    ensures ReadLiteralBody(AddSlashes(s)) == Some(s)
  {
    AddSlashesIsEscaped(s);
    EscapedReadsBack(s);
  }

  lemma {:induction false} EscapedReadsBack(s: string)
    ensures ReadLiteralBody(Escaped(s)) == Some(s)
  {
    if s != [] {
      EscapedReadsBack(s[1..]);
      ReadEscapedChar(s[0], Escaped(s[1..]));
      assert [s[0]] + s[1..] == s;
    }
  }

  /** The characters `addSlashes` escapes because they cannot appear raw. */
  predicate IsEscapedControl(c: char) {
    c == Backspace || c == '\t' || c == '\n' || c == FormFeed || c == '\r'
  }

  /** The output of `addSlashes` holds none of those characters raw. */
  lemma {:induction false} AddSlashesNoControls(s: string)
    ensures forall i :: 0 <= i < |AddSlashes(s)| ==> !IsEscapedControl(AddSlashes(s)[i])
  {
    AddSlashesIsEscaped(s);
    EscapedNoControls(s);
  }

  lemma {:induction false} EscapedNoControls(s: string)
    ensures forall i :: 0 <= i < |Escaped(s)| ==> !IsEscapedControl(Escaped(s)[i])
  {
    if s != [] {
      EscapedNoControls(s[1..]);
      var e := EscapeChar(s[0]);
      assert forall i :: 0 <= i < |e| ==> !IsEscapedControl(e[i]);
      assert forall i :: |e| <= i < |Escaped(s)| ==> Escaped(s)[i] == Escaped(s[1..])[i - |e|];
    }
  }
}
