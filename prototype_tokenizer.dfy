/** The first, two-token-type tokenizer of the root cutter.js (`Tokenizer`
    and its `nextToken` closure, cutter.js:29-127): static text is ECHO,
    text between `{` and the first `}` is CONTROL, with no quote, nesting,
    comment, line or HTML tracking.

    As for lib/tokenizer.js, `Step` is one iteration of the `while` loop as
    a pure transition on the closure variables, `Next` one call of
    `nextToken`, and `Run` the callers that ask for tokens until `null`; the
    class `Tokenizer` keeps the closure variables as fields and its
    `NextToken` is proved to be `Next`. */
module PrototypeTokenizer {
  import opened Text

  /** `TokenizerStatus` (cutter.js:29-33). */
  datatype Status = Echo | MaybeControl | Control

  /** A `Token` with its `TokenType` (cutter.js:35-44). */
  datatype Token = EchoToken(text: string) | ControlToken(text: string)

  /** `throw {}`: the prototype throws an empty object (cutter.js:102). */
  datatype Thrown = EmptyObject

  /** The character read by one loop iteration; `Eof` is the source's -1. */
  datatype Input = Char(c: char) | Eof

  /** The closure variables of `Tokenizer`; `template` and `length` are the
      input, which never changes. */
  datatype Machine = Machine(
    status: Status,
    pos: nat,
    tokenStart: nat,
    tokenLength: nat,
    tokenReturned: bool)

  /** What one loop iteration does: go on, return a token, return null, or throw. */
  datatype Signal = Continue | Emit(token: Token) | Stop | Throw

  /** The closure variables when `Tokenizer` returns; `tokenStart` starts
      undefined, and `nextToken` sets it before reading it. */
  function Initial(): Machine {
    Machine(Echo, 0, 0, 0, false)
  }

  /** The characters after `{` that keep the brace literal (cutter.js:79). */
  predicate KeepsBraceLiteral(c: char) {
    c == ' ' || c == '\U{000C}' || c == '\n' || c == '\r' || c == '\t' || c == '}'
  }

  /** A bound that every iteration of the loop lowers: a re-read keeps `pos`
      but sets `tokenReturned`; every other iteration advances `pos`. */
  function Measure(t: string, m: Machine): nat
    requires m.pos <= |t| + 1
  {
    2 * (|t| + 1 - m.pos) + (if m.tokenReturned then 0 else 1)
  }

  /** `case TokenizerStatus.ECHO` (cutter.js:63-71): at the end of the input
      the pending text is returned if there is any; otherwise the character
      joins it, and `{` may start a tag. */
  function EchoStep(t: string, m: Machine, c: Input): (Machine, Signal) {
    if c == Eof && m.tokenLength > 0 then
      (m, Emit(EchoToken(Substr(t, m.tokenStart, m.tokenLength))))
    else
      (m.(status := if c == Char('{') then MaybeControl else m.status,
          tokenLength := m.tokenLength + 1), Continue)
  }

  /** `case TokenizerStatus.MAYBE_CONTROL` (cutter.js:72-99), just after a `{`. */
  function MaybeControlStep(t: string, m: Machine, c: Input): (Machine, Signal)
    requires m.pos >= 1
  {
    if c == Eof then
      (m, Emit(EchoToken(Substr(t, m.tokenStart, m.tokenLength))))
    else if KeepsBraceLiteral(c.c) then
      (m.(status := Echo, tokenLength := m.tokenLength + 1), Continue)
    else if m.tokenLength > 1 && !m.tokenReturned then
      // return the text before `{` and read this character again
      (m.(pos := m.pos - 1, tokenReturned := true),
       Emit(EchoToken(Substr(t, m.tokenStart, m.tokenLength - 1))))
    else
      var m := if m.tokenLength > 1 then m.(tokenReturned := false) else m;
      (m.(status := Control, tokenStart := m.pos - 1, tokenLength := 1), Continue)
  }

  /** `case TokenizerStatus.CONTROL` (cutter.js:100-121): any `}` ends the tag. */
  function ControlStep(t: string, m: Machine, c: Input): (Machine, Signal)
    requires m.pos >= 1
  {
    if c == Eof then (m, Throw)
    else if c.c == '}' then
      if !m.tokenReturned then
        // return the tag and read the closing brace again
        (m.(pos := m.pos - 1, tokenReturned := true),
         Emit(ControlToken(Substr(t, m.tokenStart, m.tokenLength))))
      else
        (m.(tokenReturned := false, status := Echo, tokenStart := m.tokenStart + 1,
            tokenLength := 0), Continue)
    else
      (m.(tokenLength := m.tokenLength + 1), Continue)
  }

  /** The character the loop reads at `i`, or `Eof` past the end (cutter.js:60). */
  function CharAt(t: string, i: nat): Input {
    if i < |t| then Char(t[i]) else Eof
  }

  /** One iteration of the `while` loop of `nextToken` (cutter.js:59-123):
      `pos++`, then the `switch (status)`. */
  function Step(t: string, m: Machine): (r: (Machine, Signal))
    requires m.pos <= |t|
    ensures r.0.pos <= |t| + 1
    ensures (r.1 == Continue || r.1.Emit?) ==> Measure(t, r.0) < Measure(t, m)
  {
    var n := m.(pos := m.pos + 1);
    var c := CharAt(t, m.pos);
    match m.status
    case Echo => EchoStep(t, n, c)
    case MaybeControl => MaybeControlStep(t, n, c)
    case Control => ControlStep(t, n, c)
  }

  /** The `while` loop of `nextToken`, from the given state on. */
  function Loop(t: string, m: Machine): (r: (Machine, Signal))
    requires m.pos <= |t| + 1
    decreases Measure(t, m)
    ensures r.1 != Continue
    ensures r.0.pos <= |t| + 1
    ensures r.1.Emit? ==> Measure(t, r.0) < Measure(t, m)
  {
    if m.pos > |t| then (m, Stop)
    else
      var (n, sig) := Step(t, m);
      if sig == Continue then Loop(t, n) else (n, sig)
  }

  /** One call of `nextToken`: `tokenStart = pos`, then the loop (cutter.js:56-126). */
  function Next(t: string, m: Machine): (r: (Machine, Signal))
    requires m.pos <= |t| + 1
  {
    Loop(t, m.(tokenStart := m.pos))
  }

  /** Calls `nextToken` until it returns null (or throws), collecting the tokens. */
  function Run(t: string, m: Machine, acc: seq<Token>): Result<seq<Token>, Thrown>
    requires m.pos <= |t| + 1
    decreases Measure(t, m)
  {
    var (n, sig) := Next(t, m);
    if sig.Emit? then Run(t, n, acc + [sig.token])
    else if sig == Throw then Err(EmptyObject)
    else Ok(acc)
  }

  /** All tokens of a template, or the thrown object. */
  function Tokenize(t: string): Result<seq<Token>, Thrown> {
    Run(t, Initial(), [])
  }

  /** `new Tokenizer(template)` and its closure. */
  class Tokenizer {
    const template: string
    var status: Status
    var pos: nat
    var tokenStart: nat
    var tokenLength: nat
    var tokenReturned: bool

    function State(): Machine
      reads this
    {
      Machine(status, pos, tokenStart, tokenLength, tokenReturned)
    }

    /** The loop `while (pos < length + 1)` never leaves `pos` past `length + 1`. */
    ghost predicate Valid()
      reads this
    {
      pos <= |template| + 1
    }

    constructor (template: string)
      ensures this.template == template
      ensures Valid() && State() == Initial()
    {
      this.template := template;
      status := Echo;
      pos := 0;
      tokenStart := 0;
      tokenLength := 0;
      tokenReturned := false;
    }

    /** `nextToken()` (cutter.js:56-126): `Emit` is a token, `Stop` is null,
        `Throw` is the thrown `{}`. */
    method NextToken() returns (r: Signal)
      requires Valid()
      modifies this
      ensures Valid()
      ensures (State(), r) == Next(template, old(State()))
    {
      tokenStart := pos;
      ghost var goal := Loop(template, State());
      r := Stop;
      while pos < |template| + 1
        invariant pos <= |template| + 1
        invariant Loop(template, State()) == goal
        decreases Measure(template, State())
      {
        var sig := ReadOne();
        if sig != Continue {
          r := sig;
          break;
        }
      }
    }

    /** One pass of the loop body: read a character and run the `case` of
        the current status. */
    method ReadOne() returns (sig: Signal)
      requires pos <= |template|
      modifies this
      ensures (State(), sig) == Step(template, old(State()))
    {
      var c := if pos < |template| then Char(template[pos]) else Eof;
      pos := pos + 1;
      match status {
        case Echo =>
          sig := InEcho(c);
        case MaybeControl =>
          sig := InMaybeControl(c);
        case Control =>
          sig := InControl(c);
      }
    }

    method InEcho(c: Input) returns (sig: Signal)
      modifies this
      ensures (State(), sig) == EchoStep(template, old(State()), c)
    {
      if c == Eof && tokenLength > 0 {
        return Emit(EchoToken(Substr(template, tokenStart, tokenLength)));
      }
      if c == Char('{') {
        status := MaybeControl;
      }
      tokenLength := tokenLength + 1;
      return Continue;
    }

    method InMaybeControl(c: Input) returns (sig: Signal)
      requires pos >= 1
      modifies this
      ensures (State(), sig) == MaybeControlStep(template, old(State()), c)
    {
      if c == Eof {
        return Emit(EchoToken(Substr(template, tokenStart, tokenLength)));
      }
      if KeepsBraceLiteral(c.c) {
        status := Echo;
        tokenLength := tokenLength + 1;
      } else {
        if tokenLength > 1 {
          if !tokenReturned {
            pos := pos - 1;
            tokenReturned := true;
            return Emit(EchoToken(Substr(template, tokenStart, tokenLength - 1)));
          }
          tokenReturned := false;
        }
        status := Control;
        tokenStart := pos - 1;
        tokenLength := 1;
      }
      return Continue;
    }

    method InControl(c: Input) returns (sig: Signal)
      requires pos >= 1
      modifies this
      ensures (State(), sig) == ControlStep(template, old(State()), c)
    {
      if c == Eof {
        return Throw;
      }
      if c.c == '}' {
        if !tokenReturned {
          pos := pos - 1;
          tokenReturned := true;
          return Emit(ControlToken(Substr(template, tokenStart, tokenLength)));
        }
        tokenReturned := false;
        status := Echo;
        tokenStart := tokenStart + 1;
        tokenLength := 0;
      } else {
        tokenLength := tokenLength + 1;
      }
      return Continue;
    }
  }

  /** The loop of `compile` that asks `nextToken` for tokens until it
      returns null (cutter.js:130-142); the tokens it logs are returned
      here, and what it throws is the error. */
  method TokenizeAll(template: string) returns (r: Result<seq<Token>, Thrown>)
    ensures r == Tokenize(template)
  {
    var tokenizer := new Tokenizer(template);
    var tokens: seq<Token> := [];
    while true
      invariant tokenizer.template == template && tokenizer.Valid()
      invariant Run(template, tokenizer.State(), tokens) == Tokenize(template)
      decreases Measure(template, tokenizer.State())
    {
      var sig := tokenizer.NextToken();
      if sig.Emit? {
        tokens := tokens + [sig.token];
      } else if sig == Throw {
        return Err(EmptyObject);
      } else {
        return Ok(tokens);
      }
    }
  }
}
