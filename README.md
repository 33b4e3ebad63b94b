# cutter template compiler, in Dafny

cutter compiles a text template into a JavaScript render program. Tags in braces are mixed with literal text: `{$name}` or `{@expr}` write a value, `{if …}` … `{/}` is a block, and `{parent …}`, `{section …}`, `{virtual …}`, `{include …}`, `{cutout …}` and `{export …}` handle inheritance and partial output.

The work happens in three stages:

- **Tokenizer** (lib/tokenizer.js). It is a character-level state machine with a one-character re-read trick. It splits the template into Static, Control and Comment tokens. It tracks brace depth and quoted strings inside tags, a line counter, and the HTML context that each tag is written in.
- **Classifier** (lib/tokenizer.js). `transform` gives a Control token its kind from a leading sigil or keyword. `identifiers` collects the `$name` references.
- **Compiler** (lib/compiler.js). This is a single recursive pass over the token list. It emits code, keeps a block counter and a stack of paired-macro levels, builds the dependency list, and applies a whitespace policy that removes the lines of tags standing alone on a line.

Two small parts complete the core:

- `getWrite` (lib/exec_utils.js) decides where the writes of a template, section or cutout go.
- The root cutter.js holds a simpler prototype of the tokenizer, with three statuses (ECHO, MAYBE_CONTROL, CONTROL) and two token types.

The model has these modules:

- `Text`: the JavaScript string operations the source relies on (`indexOf`, `substr`, `trim`).
- `TemplateTokenizer`: `nextToken` as a pure transition `Step` on a `Machine` (the closure variables). `Next` is one call and `Run`/`Tokenize` are the whole input. The class `Tokenizer` keeps the closure variables as fields; its `NextToken` method is proved equal to `Next`, and `TokenizeAll` equal to `Tokenize`.
- `TokenizerProofs` and `TokenizerScans`: reconstruction of the input from the tokens, the no-tag case, end of input, comments, quotes, brace depth, line numbers and the HTML context.
- `TokenClassifier`: `transform` (pure `Transformed`, plus a `TokenObject` class whose `Transform` method rewrites its fields) and `identifiers`.
- `Slashes`: `addSlashes` and its reading back as a JavaScript string literal.
- `CompilerSpec`: the compiler as functions on its state `CState`. The emitted JavaScript is a sequence of `Instr` records, one per emitted statement or per group of statements the source emits together, and embedded expressions are opaque strings.
- `TemplateCompiler`: the `Compiler` class. Its fields are those of the source, and each method is proved to leave the state, or raise the exception, given by the matching `CompilerSpec` function.
- `CompilerProofs` and `CompilerExamples`: the whitespace policy, the error cases, the dependency list, and a whole template compiled with its standalone tag lines removed.
- `ExecUtils`: `getWrite` as a function returning a write target.
- `PrototypeTokenizer` and `PrototypeProofs`: the cutter.js tokenizer, its class, and its properties.
- `Pipeline`: `compile(template, filename)`. It tokenizes, collects the global identifiers, classifies each token, and runs the `Compiler`.

Behaviour of the source a reader may not expect:

- **Comments.** A comment yields a Comment token with null content (lib/tokenizer.js:232). The compiler's Comment branch runs `handleWhitespaces` (lib/compiler.js:214-216), so a comment takes part in whitespace elision.
- **Escapes and macros.** lib/tokenizer.js defines neither `TokenType.WRITE_ESC` nor `TokenType.MACRO`, which the compiler tests (lib/compiler.js:244, 318, 535, 544), and it has no `#` sigil. The classifier turns `{\x}` into `write_js_escape` (lib/tokenizer.js:282-297), a kind the compiler has no branch for: it fails with "Unexpected token 'write_js_escape'", and after a filter macro with "Unexpected filter macro content.". Both undefined names are the same value, `undefined`, and no classified token has it, so the `WRITE_ESC` branch (line 244) and the macro branch (line 318) are never taken, and `compileMacro` (lines 487-558) is unreachable as written. The model keeps the two as `WriteEsc` and `Macro`, which no classified token has either; see "## Left out" for what that does not capture.
- **Filter macros.** A filter macro's closing block end is only checked for its kind, not for empty content (lib/compiler.js:556).
- **Child templates.** Outside its sections a child template accepts static whitespace, comments, inline JavaScript, sections, `if`, `elseif`, `else`, exports and block ends, and nothing else (lib/compiler.js:331-377).
- **A status no case handles.** A comment in which `*` is followed by any character other than `*` or `}` moves to the undefined status `Tokenizer.COMMENT` (lib/tokenizer.js:240). It is modelled as the state `Dead`: no case matches it, so the rest of the template yields no tokens and no error.

## Model

| member | source | states |
|---|---|---|
| Text.IndexOf | lib/compiler.js:383 | -1 exactly when the character is absent; otherwise the index of its first occurrence |
| Text.Substr | lib/compiler.js:209 | `substr(start, len)`: the slice when it fits, never longer than `len` |
| Text.Suffix | lib/compiler.js:203 | `substr(start)`: the tail from `start`, or "" past the end |
| Text.Trim | lib/compiler.js:390 | the result neither starts nor ends with JavaScript whitespace |
| Text.TrimStart | lib/compiler.js:390 | removes exactly the leading whitespace run: a suffix of the input, with only whitespace cut off |
| Text.TrimEnd | lib/compiler.js:390 | removes exactly the trailing whitespace run: a prefix of the input, with only whitespace cut off |
| Text.TrimEmptyIffBlank | lib/compiler.js:338 | `trim()` is "" if and only if every character is whitespace |
| TemplateTokenizer.HtmlTransition | lib/tokenizer.js:85-99 | no contract; characterised by TemplateTokenizer.Tokenizer.ChangeHtmlContext and TokenizerScans.HtmlFoldIsLastMarker |
| TemplateTokenizer.StaticStep | lib/tokenizer.js:112-122 | no contract; characterised by TokenizerScans.StaticStepAt, TokenizerScans.StaticScan and TokenizerProofs.StaticRecon |
| TemplateTokenizer.MaybeControlStep | lib/tokenizer.js:123-161 | no contract; characterised by TokenizerScans.OpensTag, TokenizerScans.ReturnsTextBeforeTag, TokenizerProofs.CommentOpens and TokenizerProofs.MaybeControlRecon |
| TemplateTokenizer.ControlStep | lib/tokenizer.js:162-189 | no contract; characterised by TokenizerScans.TagStepAt and TokenizerProofs.ControlRecon |
| TemplateTokenizer.QuoteStep | lib/tokenizer.js:190-221 | no contract; characterised by TokenizerScans.QuoteStepAt, TokenizerScans.QuoteScan and TokenizerProofs.QuoteRecon |
| TemplateTokenizer.CommentStep | lib/tokenizer.js:222-226 | no contract; characterised by TokenizerProofs.CommentScan |
| TemplateTokenizer.CommentMaybeEndStep | lib/tokenizer.js:227-242 | no contract; characterised by TokenizerProofs.CommentCloses, TokenizerProofs.CommentResumes and TokenizerProofs.CommentStarSwallowsTemplate |
| TemplateTokenizer.Dispatch | lib/tokenizer.js:111-242 | no contract; characterised by TemplateTokenizer.DispatchLines and TemplateTokenizer.HtmlOnlyInStatic |
| TemplateTokenizer.Next | lib/tokenizer.js:102-246 | no contract; characterised by TemplateTokenizer.LoopLines and TemplateTokenizer.Tokenizer.NextToken |
| TemplateTokenizer.Run | lib/compiler.js:73-82 | no contract; characterised by TemplateTokenizer.RunLines, TokenizerProofs.RunRecon and TokenizerScans.RunKeepsPrefix |
| TemplateTokenizer.Tokenize | lib/compiler.js:67-83 | no contract; characterised by TemplateTokenizer.TokenLines, TokenizerProofs.Reconstruction, TokenizerProofs.NoTagSingleStatic, TokenizerProofs.EndOfInput and TemplateTokenizer.TokenizeAll |
| TemplateTokenizer.Step | lib/tokenizer.js:105-242 | one loop iteration keeps `pos` at most `length + 1` and lowers the termination measure whenever it goes on or returns a token, so the re-read trick cannot loop |
| TemplateTokenizer.Loop | lib/tokenizer.js:105-245 | the loop ends with a token, null or an exception, never mid-way |
| TemplateTokenizer.DispatchLines | lib/tokenizer.js:111-242 | the `switch` never changes the line counter; it steps back at most one character, and only over `}` or a character that opens a tag, never over a line break; tokens and the exception carry the current line, and the exception comes only at end of input |
| TemplateTokenizer.HtmlOnlyInStatic | lib/tokenizer.js:111-242 | no case other than STATIC changes the HTML context or the just-opened flag, and a Control token carries the context the machine held when the tag closed |
| TemplateTokenizer.StepLines | lib/tokenizer.js:106-109 | after each iteration the counter is 1 plus the line breaks read: `\n`, or `\r` not followed by `\n` |
| TemplateTokenizer.LoopLines | lib/tokenizer.js:105-245 | one call of `nextToken` keeps the counter right, never lowers it, and stamps its token with it |
| TemplateTokenizer.RunLines | lib/tokenizer.js:102-246 | the tokens of a run have non-decreasing lines between 1 and the line count; an exception is on the last line |
| TemplateTokenizer.TokenLines | lib/tokenizer.js:108-109 | the same for a whole template |
| TemplateTokenizer.Tokenizer.constructor | lib/tokenizer.js:65-82 | the initial closure variables: Static, position 0, line 1, context Normal |
| TemplateTokenizer.Tokenizer.ChangeHtmlContext | lib/tokenizer.js:85-99 | `<` sets Element and marks a tag as just opened, `!` right after it sets CommentOrCdata, `>` sets Normal; nothing else changes |
| TemplateTokenizer.Tokenizer.NextToken | lib/tokenizer.js:102-246 | one call updates the fields and returns what `Next` gives for the old fields |
| TemplateTokenizer.Tokenizer.ReadLoop | lib/tokenizer.js:105-245 | the `while` loop, with its invariant, returns what `Loop` gives |
| TemplateTokenizer.Tokenizer.ReadOne | lib/tokenizer.js:106-111 | the loop body is `Step`: read, `pos++`, count the line, dispatch |
| TemplateTokenizer.Tokenizer.InStatic | lib/tokenizer.js:112-121 | the STATIC case |
| TemplateTokenizer.Tokenizer.InMaybeControl | lib/tokenizer.js:123-160 | the MAYBE_CONTROL case |
| TemplateTokenizer.Tokenizer.InControl | lib/tokenizer.js:162-188 | the CONTROL case |
| TemplateTokenizer.Tokenizer.InQuotes | lib/tokenizer.js:190-220 | both quote cases |
| TemplateTokenizer.Tokenizer.InComment | lib/tokenizer.js:222-225 | the COMMENT case |
| TemplateTokenizer.Tokenizer.InCommentMaybeEnd | lib/tokenizer.js:227-241 | the COMMENT_MAYBE_END case, including the move to the undefined status |
| TemplateTokenizer.TokenizeAll | lib/compiler.js:73-83 | asking `nextToken` until null collects exactly the tokens `Tokenize` gives, or its exception |
| TokenizerProofs.Reconstruction | lib/tokenizer.js:136-139 | for a template without `{*`, the Static texts and the Control texts wrapped in `{` `}` concatenate back to the template; tag text excludes the braces and the text before a tag excludes its `{` |
| TokenizerProofs.RunRecon | lib/tokenizer.js:102-246 | the reconstruction invariant holds across the calls of `nextToken` |
| TokenizerProofs.LoopRecon | lib/tokenizer.js:105-245 | the reconstruction invariant holds across one call's loop |
| TokenizerProofs.StaticRecon | lib/tokenizer.js:112-121 | the STATIC case keeps the reconstruction invariant |
| TokenizerProofs.MaybeControlRecon | lib/tokenizer.js:123-160 | the MAYBE_CONTROL case keeps it |
| TokenizerProofs.ControlRecon | lib/tokenizer.js:162-188 | the CONTROL case keeps it |
| TokenizerProofs.QuoteRecon | lib/tokenizer.js:190-220 | the quote cases keep it |
| TokenizerProofs.NoTagSingleStatic | lib/tokenizer.js:112-121 | input with no `{` followed by a tag-opening character yields exactly one Static token equal to the input (on its last line); empty input yields none |
| TokenizerProofs.PlainLoop | lib/tokenizer.js:112-133 | in such input the loop reads to the end and returns the whole text |
| TokenizerProofs.EndOfInput | lib/tokenizer.js:113-114 | at end of input, a tag or string raises "Unexpected EOF" on the current line, a comment (or the undefined status) returns null, and static text returns the pending text, or null when there is none |
| TokenizerProofs.StaticEndsBlank | lib/tokenizer.js:113-115 | static state at the end with nothing pending returns null |
| TokenizerProofs.CommentOpens | lib/tokenizer.js:156-158 | `{*` enters the comment state |
| TokenizerProofs.CommentScan | lib/tokenizer.js:222-225 | a comment reads on to its first `*` |
| TokenizerProofs.CommentCloses | lib/tokenizer.js:229-233 | `*}` returns a Comment token and re-reads the `}` |
| TokenizerProofs.CommentResumes | lib/tokenizer.js:234-238 | the re-read `}` resumes static text after it |
| TokenizerProofs.CommentOnly | lib/tokenizer.js:222-239 | `{*` body `*}`, with no `*` in the body, is one Comment token with null content |
| TokenizerProofs.DeadLoop | lib/tokenizer.js:240 | in the undefined status the loop runs to the end and returns null |
| TokenizerProofs.CommentStarSwallowsTemplate | lib/tokenizer.js:240 | a comment with `*` followed by another character swallows the rest of the template: no tokens and no error |
| TokenizerScans.HtmlFoldIsLastMarker | lib/tokenizer.js:85-99 | folding `changeHtmlContext` over text gives the context of its last `<`, `<!` or `>` marker; a tag has just opened exactly when the last character was `<` |
| TokenizerScans.StaticStepAt | lib/tokenizer.js:112-121 | one static character other than `{` joins the pending text and updates the HTML context |
| TokenizerScans.StaticScan | lib/tokenizer.js:112-121 | static text with no `{` is read to its end, folding the HTML context, with no token returned |
| TokenizerScans.QuoteStepAt | lib/tokenizer.js:195-203 | inside a string the escape flag is the parity of the trailing backslashes, and the string ends on an unescaped quote |
| TokenizerScans.QuoteScan | lib/tokenizer.js:185-186 | a string is read to its first unescaped quote, so `\"` stays inside and `\\"` closes it; a `}` on the way closes nothing |
| TokenizerScans.TagStepAt | lib/tokenizer.js:168-187 | one tag character: `{` raises the depth, `}` lowers it, and `}` at depth 1 returns the tag with the current HTML context |
| TokenizerScans.TagScan | lib/tokenizer.js:162-188 | a tag without quotes is read to its first `}` at depth 1, whose text it returns before stepping back onto that `}` |
| TokenizerScans.OpensTag | lib/tokenizer.js:144-155 | a tag-opening character starts the tag state on itself, at depth 2 if it is another `{` |
| TokenizerScans.ReturnsTextBeforeTag | lib/tokenizer.js:136-139 | before a tag, the pending text without its `{` is returned and the character read again |
| TokenizerScans.RunKeepsPrefix | lib/tokenizer.js:102-246 | later calls of `nextToken` only add tokens after the ones already returned |
| TokenizerScans.TextThenBrace | lib/tokenizer.js:112-121 | from the start, the text before the first `{` is read as static text, ending in the maybe-tag state |
| TokenizerScans.TagAfterBrace | lib/tokenizer.js:144-188 | from the maybe-tag state the tag is read to its closing `}` and returned with the HTML context of the scan |
| TokenizerScans.FirstTag | lib/tokenizer.js:112-188 | a template's first tokens are the text before its first tag, if any, and that tag's text stamped with the HTML context set by the last marker before it |
| TokenizerScans.TagAtStart | lib/tokenizer.js:144-188 | the case of a template that starts with the tag |
| TokenizerScans.TagAfterText | lib/tokenizer.js:136-188 | the case of text before the tag |
| TokenClassifier.ToTyped | lib/tokenizer.js:52-57 | the token object: Static and Control kinds exactly for those tokens, their text as content, and the HTML context only on a Control token |
| TokenClassifier.TokenObject.constructor | lib/tokenizer.js:52-57 | `new Token(...)` holds the fields it was given |
| TokenClassifier.WordRun | lib/tokenizer.js:268-274 | the maximal run of `[a-zA-Z0-9_]` from a position |
| TokenClassifier.FindFirstWord | lib/tokenizer.js:263-276 | the counter loop returns the leading word, or null when there is none |
| TokenClassifier.SigilKind | lib/tokenizer.js:282-297 | no contract; characterised by TokenClassifier.SigilKindIsTable |
| TokenClassifier.KeywordKind | lib/tokenizer.js:298-353 | no contract; characterised by TokenClassifier.KeywordKindIsTable |
| TokenClassifier.Transformed | lib/tokenizer.js:259-357 | no contract; characterised by TokenClassifier.TransformByTable, TokenClassifier.TransformedKind, TokenClassifier.TransformShape and TokenClassifier.TokenObject.Transform |
| TokenClassifier.TokenObject.Transform | lib/tokenizer.js:259-357 | rewrites the kind and content as `Transformed` says |
| TokenClassifier.SigilKindIsTable | lib/tokenizer.js:282-297 | `>`, `/`, `@`, `\` map to InlineJs, End, WriteRaw and WriteJsEscape, none of which is a word character |
| TokenClassifier.KeywordKindIsTable | lib/tokenizer.js:298-353 | the fourteen keywords and their kinds, each cut off by exactly its own length |
| TokenClassifier.TransformByTable | lib/tokenizer.js:259-357 | a sigil first (with no leading word) takes its kind with the rest trimmed; a leading word in the keyword table takes its kind with the rest trimmed; anything else is Write with content unchanged |
| TokenClassifier.KeywordWholeWord | lib/tokenizer.js:314-317 | only a whole word matches: `iffy` is a Write |
| TokenClassifier.KeywordUnderscore | lib/tokenizer.js:270 | `_` is a word character, so `if_x > 1` is a Write |
| TokenClassifier.KeywordBeforeParen | lib/tokenizer.js:314-317 | `if($a)` is an If |
| TokenClassifier.NoKeywordIsWrite | lib/tokenizer.js:298-353 | no keyword gives Write, Control, Static or Comment |
| TokenClassifier.TransformedSigil | lib/tokenizer.js:282-297 | the sigil case |
| TokenClassifier.TransformedKeyword | lib/tokenizer.js:298-353 | the keyword case |
| TokenClassifier.TransformedKind | lib/tokenizer.js:278-356 | a transformed Control token is never Control, Static or Comment |
| TokenClassifier.TransformShape | lib/tokenizer.js:260 | Static and Comment tokens are untouched; a classified tag's content is trimmed; a Write keeps its content |
| TokenClassifier.Matches | lib/tokenizer.js:255 | each match of `/\$[a-zA-Z0-9_]+/g` is `$` followed by at least one word character |
| TokenClassifier.Starts | lib/tokenizer.js:255 | the match positions are positions of `$` followed by a word character |
| TokenClassifier.TextsAt | lib/tokenizer.js:255 | one text per match position |
| TokenClassifier.NoStartInWord | lib/tokenizer.js:255 | a global match resumes after the previous one, so no match starts inside a word run |
| TokenClassifier.MatchesAreAllStarts | lib/tokenizer.js:255 | the matches are, in order, the maximal identifiers at the match positions |
| TokenClassifier.StartsComplete | lib/tokenizer.js:255 | every `$` followed by a word character is a match position: a match never covers another `$` |
| TokenClassifier.Identifiers | lib/tokenizer.js:251-256 | a non-null result belongs to a Control token and is non-empty |
| TokenClassifier.IdentifiersNull | lib/tokenizer.js:251-256 | null if and only if the token is not Control or holds no match |
| Slashes.AddSlashes | lib/compiler.js:127-137 | no contract; characterised by Slashes.AddSlashesIsEscaped, Slashes.AddSlashesReadsBack and Slashes.AddSlashesNoControls |
| Slashes.ReplaceAll | lib/compiler.js:129 | `replace(/c/g, r)` leaves a string without `c` unchanged |
| Slashes.AddSlashesConcat | lib/compiler.js:127-137 | `addSlashes` of a concatenation is the concatenation of the results |
| Slashes.AddSlashesChar | lib/compiler.js:128-136 | on one character the chain of replacements is that character's escape |
| Slashes.AddSlashesIsEscaped | lib/compiler.js:127-137 | the chain of replacements is the per-character escape: backslash first, then BS, TAB, LF, FF, CR, `'` and `"` |
| Slashes.AddSlashesReadsBack | lib/compiler.js:127-137 | read back as the body of a JavaScript string literal, the result denotes the original string |
| Slashes.AddSlashesNoControls | lib/compiler.js:130-134 | the result holds no raw BS, TAB, LF, FF or CR |
| ExecUtils.GetWrite | lib/exec_utils.js:3-13 | a cutout target only for a requested name in a given set; Main exactly when there is no set; discard only without a parent write |
| ExecUtils.GetWriteCases | lib/exec_utils.js:4-11 | no set: Main; a truthy name that is requested: that cutout; otherwise the parent write if given, else discard |
| ExecUtils.NeverUnrequestedCutout | lib/exec_utils.js:6-9 | writes never go under a name absent from the active set, nor under the empty name |
| CompilerSpec.Start | lib/compiler.js:91-107 | no contract; characterised by CompilerSpec.CompileTemplate and TemplateCompiler.Compiler.CompileTemplate |
| CompilerSpec.AddStaticText | lib/compiler.js:182-184 | no contract beyond its body; characterised by CompilerProofs.AddStaticTextWrites |
| CompilerSpec.SkipWhitespaces | lib/compiler.js:581-608 | no contract; characterised by CompilerSpec.SkipScan, CompilerProofs.SkipScanCases and TemplateCompiler.Compiler.SkipWhitespaces |
| CompilerSpec.AddTrailingSpaces | lib/compiler.js:626-631 | no contract; characterised by CompilerProofs.NoTextLost and CompilerProofs.StandaloneTagElided |
| CompilerSpec.SplitTarget | lib/compiler.js:383-392 | no contract; characterised by CompilerProofs.SplitTargetCases |
| CompilerSpec.ExportParts | lib/compiler.js:479-482 | no contract; characterised by CompilerProofs.ExportAt, CompilerProofs.ExportWithoutAssignment and CompilerSpec.CompileExport |
| CompilerSpec.MacroCall | lib/compiler.js:489-510 | no contract; characterised by CompilerProofs.MacroNameSplit, CompilerProofs.MacroWithoutSpace, CompilerProofs.MacroTabSplit and CompilerProofs.UndefinedMacro |
| CompilerSpec.IsPlain | lib/compiler.js:199-310 | no contract; characterised by CompilerSpec.PlainStep and CompilerSpec.TokensStep |
| CompilerSpec.EmptyLineFrom | lib/compiler.js:567-574 | the backward scan's three outcomes over a prefix |
| CompilerSpec.LastEmptyLineIndex | lib/compiler.js:566-575 | -1 exactly when the last character other than space or tab is neither CR nor LF; 0 exactly when all are spaces or tabs; otherwise `r` with `s[r-1]` CR or LF and only spaces and tabs from `r` on |
| CompilerSpec.SkipScan | lib/compiler.js:585-604 | the assigned skip never exceeds the content |
| CompilerSpec.AddLeadingSpaces | lib/compiler.js:614-620 | held-back indentation is flushed and cleared; blocks, macro levels, offset and skip stay; code is only appended |
| CompilerSpec.HandleWhitespaces | lib/compiler.js:634-644 | leaves no held-back indentation; blocks, macro levels and offset stay; code is only appended |
| CompilerSpec.StaticStep | lib/compiler.js:199-213 | the Static branch restores `leadingSpaces ≠ "" ⟹ firstOnLine` and only appends code |
| CompilerSpec.CompileVirtualCall | lib/compiler.js:401-422 | a virtual call only appends code; depth, macro levels, offset and held-back indentation stay |
| CompilerSpec.CompileInclude | lib/compiler.js:425-443 | an include only appends code and dependencies; depth, macro levels, offset and held-back indentation stay |
| CompilerSpec.CompileExport | lib/compiler.js:477-484 | an error exactly when the name before the first `=` does not start with `$` (so content with no `=` is an error); otherwise one assignment into `$` is appended and nothing else changes |
| CompilerSpec.FilterMacro | lib/compiler.js:531-557 | on success it consumes exactly the content token and the block end, and keeps depth, macro levels and held-back indentation |
| CompilerSpec.CompileTokens | lib/compiler.js:187-325 | on success `blocks` and the macro levels are as on entry, the offset only moves forward, code and dependencies are only appended, and `leadingSpaces ≠ "" ⟹ firstOnLine` is preserved |
| CompilerSpec.TokensStep | lib/compiler.js:189-324 | one iteration consumes at least one token and keeps those properties |
| CompilerSpec.NestedStep | lib/compiler.js:252-323 | the branches that nest or may fail keep them |
| CompilerSpec.PlainStep | lib/compiler.js:199-310 | the branches that neither nest nor fail leave the offset, depth and macro levels, and only append code |
| CompilerSpec.EndStep | lib/compiler.js:217-230 | a block end returns from the loop and changes only whitespace state and code |
| CompilerSpec.CompileBlock | lib/compiler.js:268-302 | `if`, `while` and `for` blocks come back at the depth they started at |
| CompilerSpec.OpenBlock | lib/compiler.js:269-272 | a block opens one level deeper |
| CompilerSpec.CompileParent | lib/compiler.js:382-398 | `{parent}` compiles the child template and keeps the body properties |
| CompilerSpec.CompileSection | lib/compiler.js:446-460 | a section comes back at the depth it started at |
| CompilerSpec.OpenSection | lib/compiler.js:447-455 | a section opens one level deeper |
| CompilerSpec.CompileCutout | lib/compiler.js:463-474 | a cutout comes back at the depth it started at |
| CompilerSpec.OpenCutout | lib/compiler.js:464-469 | a cutout opens one level deeper |
| CompilerSpec.CompileMacro | lib/compiler.js:487-558 | a macro keeps the body properties |
| CompilerSpec.PairedMacro | lib/compiler.js:519-530 | a paired macro's body comes back at the depth and macro levels it started at |
| CompilerSpec.OpenMacro | lib/compiler.js:520-523 | a paired macro opens one level deeper and pushes that level |
| CompilerSpec.CloseMacro | lib/compiler.js:526-529 | closing it goes one level up and pops the level |
| CompilerSpec.CompileChildTemplate | lib/compiler.js:328-379 | child-template mode has the same properties as `compileTokens` |
| CompilerSpec.ChildStep | lib/compiler.js:329-378 | one iteration consumes at least one token |
| CompilerSpec.ChildToken | lib/compiler.js:331-377 | each branch keeps the body properties |
| CompilerSpec.ChildNested | lib/compiler.js:351-363 | the nesting branches of child mode keep them |
| CompilerSpec.ChildBlock | lib/compiler.js:356-363 | an `if` in child mode comes back at its depth |
| CompilerSpec.CompileTemplate | lib/compiler.js:140-162 | a compiled template starts with the header, the run function, `initWrite` and `addVariables`, and ends with the run function's close and the footer |
| CompilerProofs.AddStaticTextWrites | lib/compiler.js:182-184 | what `addStaticText` adds to the written text is exactly its argument |
| CompilerProofs.SkipScanCases | lib/compiler.js:581-608 | after the run of spaces and tabs, skip covers `\n`, `\r\n` or a lone `\r`; another character gives 0; blank content with no line break assigns nothing |
| CompilerProofs.NoTextLost | lib/compiler.js:626-644 | when `firstOnLine` is false, what `addTrailingSpaces` writes plus the text after `substr(skip)` is exactly the next token's text: no character is lost |
| CompilerProofs.StandaloneTagElided | lib/compiler.js:634-644 | a tag first on its line followed by a line break writes nothing and sets skip to cut that break |
| CompilerProofs.StaticStepKeepsText | lib/compiler.js:199-213 | the Static branch writes the text after skip, except the held-back indentation |
| CompilerProofs.EofInsideBlock | lib/compiler.js:194 | EOF with open blocks is "Unexpected EOF" (also in child mode, lib/compiler.js:334) |
| CompilerProofs.EndOutsideBlock | lib/compiler.js:218 | a block end with no open block is "Unexpected block end" (also in child mode) |
| CompilerProofs.EndWithContent | lib/compiler.js:219 | a block end with content is "Unexpected '…' after '/'" (also in child mode) |
| CompilerProofs.NoBranch | lib/compiler.js:321-322 | Control, Foreach and `write_js_escape` tokens have no branch: "Unexpected token '…'" with the token's type name |
| CompilerProofs.ChildRejectsText | lib/compiler.js:337-338 | non-blank static text in a child template is an error |
| CompilerProofs.ChildRejectsKind | lib/compiler.js:375-376 | in a child template, any kind other than static, comment, inline JS, block end, section, if, elseif, else or export is an error |
| CompilerProofs.StepDone | lib/compiler.js:193-230 | an iteration returns from the loop only on EOF or on a block end inside a block, and consumes just that token |
| CompilerProofs.BodyEnds | lib/compiler.js:187-325 | `compileTokens` stops at the end of the list, after EOF, or after a block end inside a block |
| CompilerProofs.TopLevelRunsToEof | lib/compiler.js:193-197 | at the top level it only stops at EOF |
| CompilerProofs.SplitTargetCases | lib/compiler.js:383-392 | with a `|`, the target is the trimmed text before the first one and the params are the trimmed rest in braces; without one, the target is the whole content and the params are `{}` |
| CompilerProofs.IncludeDeps | lib/compiler.js:436-442 | an include appends its file to the dependencies exactly once, except `include this` |
| CompilerProofs.ParentDeps | lib/compiler.js:394-397 | `{parent}` succeeds exactly when its child template does, then its run call and its file are appended after the child's code |
| CompilerProofs.VirtualCallTargets | lib/compiler.js:404-421 | for every target: `parent` calls the next section of the chain (`__i + 1`), `this` the current one (`__i`), any other name the first of that name's sections; each with the parameter object after `\|`, or `{}` without one |
| CompilerProofs.ExportAt | lib/compiler.js:479-482 | the export's name and value are the trimmed text around its first `=` |
| CompilerProofs.ExportWithoutAssignment | lib/compiler.js:479-481 | export content with no `=` names the empty variable and is an error |
| CompilerProofs.UndefinedMacro | lib/compiler.js:512-513 | a name not in the registry is "Undefined macro '…'" |
| CompilerProofs.FilterMacroShape | lib/compiler.js:535-556 | a filter macro succeeds exactly when followed by one Static, Write, WriteRaw or `WRITE_ESC` token and then a block end, so a `write_js_escape` token is refused; otherwise it fails with one of its two messages |
| CompilerProofs.MacroNameSplit | lib/compiler.js:489-506 | for every tag: it is split at its first space or tab provided a space comes there or later, into the trimmed name before and the trimmed main parameter after |
| CompilerProofs.MacroWithoutSpace | lib/compiler.js:489-503 | a tag with no space is all name, main parameter `null`, even if it holds a tab |
| CompilerProofs.MacroTabSplit | lib/compiler.js:500-502 | a tab separates the macro name only when a space comes later: `m\tx` is one name, `m\tx y` is `m` with `x y` |
| CompilerExamples.LastEmptyLineAt | lib/compiler.js:566-575 | after the last line break, only spaces and tabs: the index is just past that break |
| CompilerExamples.StaticLine | lib/compiler.js:203-212 | static text ending in a line break and indentation writes the text and holds the indentation back |
| CompilerExamples.StaticAfterBreak | lib/compiler.js:203-212 | the same after a standalone tag, whose line break is cut |
| CompilerExamples.LayoutExample | lib/compiler.js:199-230 | `"line1\n    {if true}\n    text\n    {/}\nline2\n"` has the standalone layout, with text `"line1\n    text\nline2\n"` |
| CompilerExamples.ElisionRun | lib/compiler.js:187-325 | the token loop over such a template writes the three text lines around the `if` block |
| CompilerExamples.StandaloneElision | lib/compiler.js:268-275 | the whole template compiles and its static output is exactly the three lines: the tag lines leave no trace |
| CompilerExamples.UnclosedBlock | lib/compiler.js:193-194 | `{if …}` with no `{/}` fails with "Unexpected EOF" |
| TemplateCompiler.FindLastEmptyLine | lib/compiler.js:566-575 | the backward loop returns `lastEmptyLineIndex` |
| TemplateCompiler.Compiler.constructor | lib/compiler.js:121-125 | the fields are those of the status object |
| TemplateCompiler.Compiler.InitWrite | lib/compiler.js:165-169 | appends the `getWrite` call |
| TemplateCompiler.Compiler.AddVariables | lib/compiler.js:172-179 | appends the bindings of the global identifiers |
| TemplateCompiler.Compiler.AddStaticText | lib/compiler.js:182-184 | the new fields are what `CompilerSpec.AddStaticText` gives for the old fields |
| TemplateCompiler.Compiler.AddLeadingSpaces | lib/compiler.js:614-620 | the new fields are what `CompilerSpec.AddLeadingSpaces` gives for the old fields |
| TemplateCompiler.Compiler.SkipWhitespaces | lib/compiler.js:581-608 | the scanning loop leaves the fields `CompilerSpec.SkipWhitespaces` gives and returns the new `skip` |
| TemplateCompiler.Compiler.AddTrailingSpaces | lib/compiler.js:626-631 | the new fields are what `CompilerSpec.AddTrailingSpaces` gives for the old fields |
| TemplateCompiler.Compiler.HandleWhitespaces | lib/compiler.js:634-644 | the new fields are what `CompilerSpec.HandleWhitespaces` gives for the old fields |
| TemplateCompiler.Compiler.StaticStep | lib/compiler.js:199-213 | the new fields are what `CompilerSpec.StaticStep` gives for the old fields |
| TemplateCompiler.Compiler.CompileVirtualCall | lib/compiler.js:401-422 | the new fields are what `CompilerSpec.CompileVirtualCall` gives for the old fields |
| TemplateCompiler.Compiler.CompileInclude | lib/compiler.js:425-443 | the new fields are what `CompilerSpec.CompileInclude` gives for the old fields |
| TemplateCompiler.Compiler.CompileExport | lib/compiler.js:477-484 | the new fields, or the exception, are what `CompilerSpec.CompileExport` gives for the old fields |
| TemplateCompiler.Compiler.PlainStep | lib/compiler.js:199-310 | the new fields are what `CompilerSpec.PlainStep` gives for the old fields |
| TemplateCompiler.Compiler.EndStep | lib/compiler.js:217-230 | the new fields, or the exception, are what `CompilerSpec.EndStep` gives for the old fields |
| TemplateCompiler.Compiler.CompileTokens | lib/compiler.js:187-325 | the loop and its recursion give the state or exception of `CompilerSpec.CompileTokens` |
| TemplateCompiler.Compiler.TokensStep | lib/compiler.js:189-324 | the new fields, the exception, or the end of the loop are what `CompilerSpec.TokensStep` gives for the old fields |
| TemplateCompiler.Compiler.NestedStep | lib/compiler.js:252-323 | the new fields, or the exception, are what `CompilerSpec.NestedStep` gives for the old fields |
| TemplateCompiler.Compiler.CompileBlock | lib/compiler.js:268-302 | the new fields, or the exception, are what `CompilerSpec.CompileBlock` gives for the old fields |
| TemplateCompiler.Compiler.OpenBlock | lib/compiler.js:269-272 | the new fields are what `CompilerSpec.OpenBlock` gives for the old fields |
| TemplateCompiler.Compiler.CompileParent | lib/compiler.js:382-398 | the new fields, or the exception, are what `CompilerSpec.CompileParent` gives for the old fields |
| TemplateCompiler.Compiler.CompileSection | lib/compiler.js:446-460 | the new fields, or the exception, are what `CompilerSpec.CompileSection` gives for the old fields |
| TemplateCompiler.Compiler.OpenSection | lib/compiler.js:447-455 | the new fields are what `CompilerSpec.OpenSection` gives for the old fields |
| TemplateCompiler.Compiler.CompileCutout | lib/compiler.js:463-474 | the new fields, or the exception, are what `CompilerSpec.CompileCutout` gives for the old fields |
| TemplateCompiler.Compiler.OpenCutout | lib/compiler.js:464-469 | the new fields are what `CompilerSpec.OpenCutout` gives for the old fields |
| TemplateCompiler.Compiler.CompileMacro | lib/compiler.js:487-558 | the new fields, or the exception, are what `CompilerSpec.CompileMacro` gives for the old fields |
| TemplateCompiler.Compiler.PairedMacro | lib/compiler.js:519-530 | the new fields, or the exception, are what `CompilerSpec.PairedMacro` gives for the old fields |
| TemplateCompiler.Compiler.OpenMacro | lib/compiler.js:520-523 | the new fields are what `CompilerSpec.OpenMacro` gives for the old fields |
| TemplateCompiler.Compiler.CloseMacro | lib/compiler.js:526-529 | the new fields are what `CompilerSpec.CloseMacro` gives for the old fields |
| TemplateCompiler.Compiler.FilterMacro | lib/compiler.js:531-557 | the new fields, or the exception, are what `CompilerSpec.FilterMacro` gives for the old fields |
| TemplateCompiler.Compiler.CompileChildTemplate | lib/compiler.js:328-379 | the new fields, or the exception, are what `CompilerSpec.CompileChildTemplate` gives for the old fields |
| TemplateCompiler.Compiler.ChildStep | lib/compiler.js:329-378 | the new fields, or the exception, are what `CompilerSpec.ChildStep` gives for the old fields |
| TemplateCompiler.Compiler.ChildToken | lib/compiler.js:331-377 | the new fields, or the exception, are what `CompilerSpec.ChildToken` gives for the old fields |
| TemplateCompiler.Compiler.ChildNested | lib/compiler.js:351-363 | the new fields, or the exception, are what `CompilerSpec.ChildNested` gives for the old fields |
| TemplateCompiler.Compiler.ChildBlock | lib/compiler.js:356-363 | the new fields, or the exception, are what `CompilerSpec.ChildBlock` gives for the old fields |
| TemplateCompiler.Compiler.CompileTemplate | lib/compiler.js:140-162 | the whole output, or the exception, of `CompilerSpec.CompileTemplate` |
| Pipeline.AddKeys | lib/compiler.js:76-78 | setting keys on `globalIdentifiers` keeps the old keys in place, adds exactly the new names, and never duplicates a key |
| Pipeline.GlobalsSnoc | lib/compiler.js:74-79 | each token adds its identifiers to the keys so far |
| Pipeline.GlobalsAreIdentifiers | lib/compiler.js:100 | `Object.keys(globalIdentifiers)` has no duplicates and holds exactly the identifiers of some token |
| Pipeline.GlobalsExtend | lib/compiler.js:73-79 | a later token never removes a key |
| Pipeline.Classify | lib/cutter.js:40 | a transformed tag is never Control, Static or Comment; other tokens pass unchanged; the line and context stay |
| Pipeline.Prepared | lib/compiler.js:81-83 | the compiler's token list is one entry per token, then the null EOF token |
| Pipeline.Globals | lib/compiler.js:74-79 | no contract; characterised by Pipeline.GlobalsSnoc, Pipeline.GlobalsAreIdentifiers and Pipeline.GlobalsExtend |
| Pipeline.Classified | lib/cutter.js:31-40 | one entry per token; otherwise characterised by Pipeline.ClassifiedHasNoControl |
| Pipeline.CompileSource | lib/compiler.js:66-111 | no contract; characterised by Pipeline.Compile and Pipeline.JsEscapeTagRejected |
| Pipeline.Compile | lib/compiler.js:66-111 | the loop over `nextToken` with identifier collection and classification, then the `Compiler`, gives what `CompileSource` gives |
| Pipeline.Transform | lib/cutter.js:40 | `token.transform()` on the token object gives `Classify` |
| Pipeline.Collect | lib/compiler.js:74-79 | the loop over `identifiers` adds them as keys |
| Pipeline.Unclassified | lib/compiler.js:73-83 | the token list as written: every token with its tokenizer kind, then EOF |
| Pipeline.CompileSourceAsWritten | lib/compiler.js:66-111 | no contract; characterised by Pipeline.AsWrittenRejectsTags and Pipeline.AsWrittenTagExample |
| Pipeline.ControlTokenRejected | lib/compiler.js:321-322 | a `control` token is "Unexpected token 'control'" |
| Pipeline.AsWrittenRejectsTags | lib/compiler.js:73-83 | as written, a template whose first token is a tag fails with "Unexpected token 'control'" |
| Pipeline.AsWrittenTagExample | lib/compiler.js:73-83 | as written, `{x}` does not compile |
| Pipeline.EscapeTagTokenized | lib/tokenizer.js:112-171 | `{\x}` is read as one tag `\x` on line 1 |
| Pipeline.EscapeSigilTransformed | lib/tokenizer.js:294-297 | `transform` makes `\x` a `write_js_escape` token with content `x` |
| Pipeline.EscapeTagClassified | lib/cutter.js:40 | the tag `\x` is classified as `write_js_escape` `x` |
| Pipeline.JsEscapeTagRejected | lib/compiler.js:66-111 | even with `transform` called, `{\x}` does not compile: "Unexpected token 'write_js_escape'" on line 1 |
| Pipeline.ClassifiedHasNoControl | lib/cutter.js:31-40 | with `transform` after `identifiers`, no `control` token reaches the compiler, and every other token passes as the tokenizer made it |
| PrototypeTokenizer.EchoStep | cutter.js:63-71 | no contract; characterised by PrototypeProofs.EchoSim, PrototypeProofs.EchoAtEnd and PrototypeTokenizer.Tokenizer.InEcho |
| PrototypeTokenizer.MaybeControlStep | cutter.js:72-99 | no contract; characterised by PrototypeProofs.MaybeSim, PrototypeProofs.TagOpens and PrototypeTokenizer.Tokenizer.InMaybeControl |
| PrototypeTokenizer.ControlStep | cutter.js:100-121 | no contract; characterised by PrototypeProofs.ControlSim and PrototypeTokenizer.Tokenizer.InControl |
| PrototypeTokenizer.Next | cutter.js:56-126 | no contract; characterised by PrototypeTokenizer.Tokenizer.NextToken |
| PrototypeTokenizer.Run | cutter.js:134-136 | no contract; characterised by PrototypeTokenizer.TokenizeAll |
| PrototypeTokenizer.Tokenize | cutter.js:130-142 | no contract; characterised by PrototypeProofs.TokenizeIsLex, PrototypeProofs.Reconstruction, PrototypeProofs.PlainText and PrototypeTokenizer.TokenizeAll |
| PrototypeTokenizer.Step | cutter.js:59-123 | one iteration keeps `pos` at most `length + 1` and lowers the measure whenever it goes on or returns a token |
| PrototypeTokenizer.Loop | cutter.js:59-125 | the loop ends with a token, null or the throw |
| PrototypeTokenizer.Tokenizer.constructor | cutter.js:47-54 | the initial closure variables |
| PrototypeTokenizer.Tokenizer.NextToken | cutter.js:56-126 | one call updates the fields and returns what `Next` gives |
| PrototypeTokenizer.Tokenizer.ReadOne | cutter.js:60-122 | the loop body is `Step` |
| PrototypeTokenizer.Tokenizer.InEcho | cutter.js:63-71 | the ECHO case |
| PrototypeTokenizer.Tokenizer.InMaybeControl | cutter.js:72-99 | the MAYBE_CONTROL case |
| PrototypeTokenizer.Tokenizer.InControl | cutter.js:100-121 | the CONTROL case |
| PrototypeTokenizer.TokenizeAll | cutter.js:130-142 | asking `nextToken` until null collects exactly the tokens `Tokenize` gives, or the throw |
| PrototypeProofs.CloseFrom | cutter.js:106 | the first `}` at or after a position |
| PrototypeProofs.TokenizeIsLex | cutter.js:56-126 | the state machine equals a direct lexer: text up to a tag-opening `{`, then the tag up to the first `}` |
| PrototypeProofs.EchoAtEnd | cutter.js:64-65 | at the end, pending text in ECHO or MAYBE_CONTROL is returned whole |
| PrototypeProofs.LexRender | cutter.js:56-126 | the lexer's tokens, with tags wrapped in braces, concatenate to the input |
| PrototypeProofs.Reconstruction | cutter.js:85-97 | the ECHO texts and the CONTROL texts wrapped in `{` `}` concatenate back to the template |
| PrototypeProofs.LexPlainOnly | cutter.js:79-82 | if no CONTROL token comes out, every `{` is followed by whitespace or `}` |
| PrototypeProofs.PlainText | cutter.js:63-71 | input with no tag-opening `{` is one ECHO token equal to it (none when empty), and conversely |
| PrototypeProofs.LexShift | cutter.js:56-126 | lexing from a position past a prefix does not depend on the prefix |
| PrototypeProofs.FirstBraceCloses | cutter.js:106-116 | `a{x}b`, with no `{` in `a` and no `}` in `x`, gives the text `a`, the tag `x`, then the tokens of `b`: the first `}` closes a tag, with no quote or nesting tracking |
| PrototypeProofs.UnclosedTagThrows | cutter.js:100-103 | `a{x` with the tag never closed throws at the end of input |

## Findings

| source | as written | input that shows it | evidently intended | confidence | as-written member | corrected member |
|---|---|---|---|---|---|---|
| lib/compiler.js:73-83 | `compile` collects the tokens but never calls `token.transform()`, so every tag reaches `compileTokens` with the kind `control`, for which no branch exists | the template `{x}`: "Unexpected token 'control'" | classify each token after collecting its identifiers, as lib/cutter.js:31-40 does | not executed | Pipeline.AsWrittenRejectsTags, Pipeline.AsWrittenTagExample | Pipeline.Compile, Pipeline.ClassifiedHasNoControl |

## Left out

- Emitted JavaScript is a sequence of `Instr` records, not text. The strings each `this.output +=` builds, including `addSlashes` applied to names and static text, are not assembled. `Slashes` proves separately that `addSlashes` output reads back as the original string.
- Embedded expressions, conditions and parameter objects are kept as opaque strings. Running the generated code is not modelled: the runtime section override chain, the macro `render`/`open`/`close`/`filter` bodies, and the `__e.html`, `htmlEl` and `jsEsc` escapes.
- The macro registry `cutter._macros` is a parameter mapping each name to its shape (lib/macro.js). Registering a macro stores callbacks only and is not modelled.
- CompilerSpec.CompileMacro models the body of `compileMacro` (lib/compiler.js:487-558) on its own, not the dispatch the program reaches. In the source `TokenType.MACRO` and `TokenType.WRITE_ESC` are both `undefined`, so the `WRITE_ESC` branch at line 244 takes every token the macro branch at line 318 would, and a token of that type is written as an escaped value. The model treats `Macro` and `WriteEsc` as two kinds and sends a `Macro` token in a token list given directly to `CompileMacro`.
- CompilerProofs.UndefinedMacro: the registry is a map with only its own keys. In the source `cutter._macros[name]` is also truthy for names inherited from `Object.prototype` (`constructor`, `toString`, …), whose `type` is none of the three macro types, so the source emits nothing for such a call where the model fails with "Undefined macro '…'".
- Several `Instr` records stand for a group of statements: `Prologue` for lib/compiler.js:142-144, `Epilogue` for 154-161, `Variables` for the whole loop and blank line of 174-178, and `SectionOpen` for 451-453.
- `path.resolve` and `path.relative` (lib/compiler.js:116, 143) are a foreign path library. `CompilerException.filename` is the given file name, and the `exec_utils.js` path of the header is not computed.
- Exceptions other than the tokenizer's are rethrown unchanged by `compile` (lib/compiler.js:89); such exceptions cannot arise in the model.
- `get` in lib/cutter.js and cutter.js reads and writes files and loads modules: I/O, not modelled.
- The demo scripts macros.js and test.js and the root test.js are drivers doing I/O and console output, and are not modelled.
- The `compile` of lib/cutter.js and of cutter.js only logs tokens to the console and returns a constant header. Their token loops are the modelled loops (`TemplateTokenizer.TokenizeAll`, `PrototypeTokenizer.TokenizeAll`), and the logged tokens are their results.
- lib/template.js is a thin wrapper around the generated `run`, and it passes 6 arguments where the header takes 8. It is a foreign call and is not modelled.
- The identifier scan keeps the source's lexical approximation: a `$name` inside a string literal of a tag counts too.
- The unused closure variable `identifierStatus` (lib/tokenizer.js:79) is left out.
- The tokenizer's `tokenStart` is undefined until the first `nextToken` sets it. The model starts it at 0, which the loop overwrites before reading it.
- A Comment token's null content is modelled as the empty string in the compiler's input. No compiler branch reads it.
- TokenizerProofs.Reconstruction: stated only for templates without `{*`, because comment text is dropped from the tokens and cannot be reconstructed.
- TokenizerScans.TagScan: stated for tags without quotes; quoted strings inside tags are covered by TokenizerScans.QuoteScan, and the two are not composed into one all-tags reconstruction of the HTML context.
- ExecUtils.GetWrite: the set of cutouts is a map with only its own keys. In the source `snippets[name]` is also truthy for names inherited from `Object.prototype` (`constructor`, `toString`, `hasOwnProperty`, …), which would get a cutout target without being requested; ExecUtils.GetWriteCases and ExecUtils.NeverUnrequestedCutout hold only for sets without such names.
- CompilerExamples.ElisionBlock and the other elision lemmas start from a token list given by hand, the one the tokenizer and classifier make for that template; that they do is not proved.
- Strings are sequences of Unicode scalar values, not of UTF-16 code units, so lone surrogates and `length` in code units are not modelled. Every character the source compares against is ASCII.
- TemplateTokenizer.Tokenizer.NextToken: the model has no concurrency and no shared state between tokenizers; each call of the source is sequential as well.
