# seu9cc front end in Dafny

This project models the front end of seu9cc, a small C compiler written in Rust, and proves properties of that model. The front end has four parts.

- **The token vocabulary** (`src/lexer/token.rs`, module `Token`). This is the `TokenKind` enumeration with the two lookup tables `from_str` and `from_char`. `from_str` maps operator spellings to kinds, and `from_char` maps symbol characters to `Symbol(c)`. The model proves each table's exact domain. It also proves that `from_str` is injective, gives its inverse (`Spelling`), and shows that only `<<=` and `>>=` are three characters long.
- **The scanner** (`src/lexer/mod.rs`). It is modelled at two levels.
  - `LexerSpec.Step` is one iteration of the `scan` loop as a pure function. It keeps the source's branch order: newline, whitespace, `//`, block comment, character literal, string literal, two-character operator, one-character symbol, identifier or keyword, number, and finally panic.
  - `LexerSpec.ScanFrom` is the whole loop. It carries the cursor and the running `start` counter exactly as the source updates them.
  - `Lexer.Lexer` is the imperative `Lexer`. It has a cursor `pos`, the counter `start` and the `tokens` vector as fields, with one method per branch. `Scan` is proved to push exactly the tokens of `ScanFrom` and to stop the way `ScanFrom` says.
  - A panic (`unwrap` on the end of input, `panic!`, an `i64` parse overflow) becomes a `Failed` status. A step that would repeat forever becomes a `Stuck` status.
- **Types and AST nodes** (`src/common.rs`, module `Common`). These are immutable `Type` values whose size and alignment are set by the `new_*` constructors, plus variables and AST node constructors. `Valid` says that every size and alignment is the one its kind determines. The scalar constructors establish it. `NewPtr`, `NewArray` and `NewFunc` give a valid type exactly when their argument types are valid; `NewArray` also needs the size times the length to fit in `u32`. Every valid type's size is a multiple of its alignment.
- **The declaration-head parser** (`src/parser/mod.rs`). `Parser.Parser` is the token cursor with `next`, `consume`, `decl_specifiers`, `ident` and `toplevel`. `Toplevel` and `Parse` are proved equal to the pure `ParseToplevel`, and `Named` to `ParseNamed`; the success and failure shapes of `ParseToplevel` are proved as lemmas. The smaller methods have contracts of their own: `NextToken` and `Consume` state the cursor move, `DeclSpecifiers` returns `BaseType`, `Ident` returns `IdentName`, and `PointerStars` consumes `StarRun` and wraps the type with `PtrTo`.

Module `LexerFixed` is a corrected scanner. It implements what the comments and tables of `src/lexer/mod.rs` evidently intend, and on it the round trip "every span spells its token" is proved. Module `LexerFindings` sets the two scanners side by side on small inputs (see "## Findings").

The scanner is meant for ASCII input: the Unicode character classes of the source are restricted to their ASCII members. No member requires this; what the model does on other input is listed under "## Left out".

## Model

The scanner of `src/lexer/mod.rs` is spread over six modules: `LexerSpec` (the loop as functions), `LexerProps` (what one iteration `Step` does on each kind of input, and the order of the emitted spans), `LexerSteps` (what each branch contributes to the whole scan `ScanFrom`), `Lexer` (the class), `LexerFixed` (the corrected scanner) and `LexerFindings` (the examples). The split keeps each proof small enough to check quickly; it does not follow the source's structure. Rows marked "proof step" unfold one definition for the proofs that follow and state no property of their own.

| member | source | states |
|---|---|---|
| Token.FromStr | src/lexer/token.rs:67-92 | accepts exactly the 21 operator spellings; every kind it gives is an operator kind and no keyword; any string of length 0 or 1 gives None |
| Token.FromChar | src/lexer/token.rs:94-121 | `Some` exactly for the 23 symbol characters, and then the value is `Symbol(c)` of the same character |
| Token.FromStrSpelling | src/lexer/token.rs:67-91 | `from_str(s) == Some(k)` if and only if `k` is an operator kind whose spelling is `s` (both directions) |
| Token.FromStrThenSpelling | src/lexer/token.rs:69-89 | an accepted spelling is the spelling of the kind it maps to |
| Token.SpellingThenFromStr | src/lexer/token.rs:69-89 | every operator kind is recovered from its spelling |
| Token.FromStrInjective | src/lexer/token.rs:69-89 | distinct accepted spellings map to distinct kinds |
| Token.FromStrLengths | src/lexer/token.rs:69-70 | only `<<=` and `>>=` have three characters, every other spelling has two, and no spelling of length at most 2 gives `ShlEq` or `ShrEq` |
| Token.FromCharNoneOutsideSymbols | src/lexer/token.rs:119 | letters, digits, `_`, whitespace and both quotes are not symbols, so the later scanner branches are reachable |
| Common.NewVoid | src/common.rs:23-29 | void has size 0 and alignment 0 and is valid |
| Common.NewBool | src/common.rs:31-37 | `_Bool` has size 1 and alignment 1 and is valid |
| Common.NewChar | src/common.rs:39-45 | char has size 1 and alignment 1 and is valid |
| Common.NewInt | src/common.rs:47-53 | int has size 4 and alignment 4 and is valid |
| Common.NewPtr | src/common.rs:55-61 | a pointer has size 8 and alignment 8 whatever it points to, and is valid exactly when its target is |
| Common.NewArray | src/common.rs:63-69 | the array keeps element and length, takes the element's alignment, and its size is `size * len` wrapped to `u32`; it is valid exactly when the element is valid and the product fits |
| Common.NewFunc | src/common.rs:71-77 | a function type has size 0 and alignment 0 whatever its return and parameter types, and is valid exactly when they all are |
| Common.AlignValues | src/common.rs:4-20 | in every valid type the alignment is 0, 1, 4 or 8 |
| Common.SizeMultipleOfAlign | src/common.rs:22-78 | in every valid type the size is a multiple of the alignment, and it is 0 when the alignment is 0 |
| Common.ArrayOfFiveInts | src/common.rs:47-69 | an array of five ints has size 20 and alignment 4; `char *` has size 8; void has size 0 |
| Common.NewVar | src/common.rs:90-96 | a new variable keeps its type and name and is `Local(0)` |
| Common.NewNum | src/common.rs:153-159 | `Num(v)` with type int, empty name and no children; well formed |
| Common.NewDefault | src/common.rs:121-127 | the default node equals `new_num(0)` |
| Common.NewVarDef | src/common.rs:161-167 | keeps the given type and name and owns `init` as its only child; well formed exactly when the type is valid and `init` is well formed |
| Common.NewAdd | src/common.rs:168-174 | an `Add` node with children `[lhs, rhs]` in that order, type int, empty name; well formed exactly when both operands are |
| Common.NewSub | src/common.rs:176-182 | the same for `Sub` |
| Common.NewMul | src/common.rs:184-190 | the same for `Mul` |
| Common.NewDiv | src/common.rs:192-198 | the same for `Div` |
| Common.NewEq | src/common.rs:200-206 | the same for `Eq` |
| Common.NewNe | src/common.rs:208-214 | the same for `Ne` |
| Common.NewLt | src/common.rs:216-222 | the same for `Lt` |
| Common.NewLe | src/common.rs:224-230 | the same for `Le` |
| LexerSpec.Window | src/lexer/mod.rs:200-212 | the lookahead holds `min(n, remaining)` characters, each the input character at the same offset from the cursor |
| LexerSpec.HasPrefixAt | src/lexer/mod.rs:196-198 | no contract of its own; see `HasPrefixAtIff` |
| LexerSpec.HasPrefixAtIff | src/lexer/mod.rs:196-198 | `starts_with(s)` holds exactly when `s` occurs in full at the cursor |
| LexerSpec.RunEnd | src/lexer/mod.rs:121-128 | the end of a character run lies between its start and the end of the input |
| LexerSpec.RunEndMaximal | src/lexer/mod.rs:121-128 | the run is maximal: every character in it is accepted, and the one after it (if any) is not |
| LexerSpec.BlockEnd | src/lexer/mod.rs:67-73 | the block comment loop ends within the input and consumes at least one character |
| LexerSpec.BlockEndCloses | src/lexer/mod.rs:66-75 | the comment stops right after the first `**/` at or after its opener, and consumes the rest of the input when there is none |
| LexerSpec.DigitValue | src/lexer/mod.rs:180 | a digit's value is at most 9, and the digit character is recovered from it |
| LexerSpec.DecimalValue | src/lexer/mod.rs:170-182 | no contract of its own; its bound is `DecimalValueBound` and its overflow threshold `ShortRunFits` |
| LexerSpec.DecimalValueBound | src/lexer/mod.rs:170-182 | a run of `n` digits has a value below `10^n` |
| LexerSpec.ShortRunFits | src/lexer/mod.rs:180 | a run of at most 18 digits always fits in `i64` |
| LexerSpec.Pow10Of18 | src/lexer/mod.rs:180 | proof step: `10^18` written out |
| LexerSpec.KeywordKind | src/lexer/mod.rs:129-151 | exactly the 20 reserved words have a kind, and each is a keyword kind |
| LexerSpec.KeywordOrIdent | src/lexer/mod.rs:129-151 | a reserved word gives its keyword and never `Ident`; any other word gives `Ident` of exactly that text |
| LexerSpec.Step | src/lexer/mod.rs:38-166 | one loop iteration never moves the cursor backwards or past the end, and a skip always moves it forward |
| LexerSpec.CharLiteral | src/lexer/mod.rs:77-86 | no contract of its own; see `LexerProps.StepCharLiteral`, `StepCharLiteralUnterminated` and `LexerSteps.ScanFromCharLiteral` |
| LexerSpec.StringLiteral | src/lexer/mod.rs:88-100 | no contract of its own; see `LexerProps.StepStringLiteral` and `LexerFixed.StringTextDenotes` |
| LexerSpec.IdentOrKeyword | src/lexer/mod.rs:116-154 | no contract of its own; see `LexerProps.StepWord` |
| LexerSpec.NumberLiteral | src/lexer/mod.rs:170-182 | no contract of its own; see `LexerProps.StepNumber` and `LexerProps.ShortNumberFits` |
| LexerSpec.ScanFrom | src/lexer/mod.rs:38-166 | no contract of its own; see `ScanFromStep`, the `LexerSteps.ScanFrom*` lemmas, `ScanSpansDisjoint`, and `Lexer.Lexer.Scan`, which is proved equal to it |
| LexerSpec.ScanFromStep | src/lexer/mod.rs:38-166 | proof step: the scan from a position continues as the iteration there says |
| LexerSpec.ScanAfterEmit | src/lexer/mod.rs:184-194 | proof step: after an emitting step the token covers `len` from the counter plus the characters consumed before the push, and the scan goes on from the new cursor and counter |
| LexerSpec.ScanFromSkip | src/lexer/mod.rs:39-75 | whitespace and comments advance the cursor and the counter together and push nothing |
| LexerSpec.ScanFromEmit | src/lexer/mod.rs:184-194 | an emitting step that consumes input pushes one token and continues after it |
| LexerProps.SpellingShape | src/lexer/token.rs:69-89 | every operator spelling has at least two characters and starts with a symbol character; one starting with `/` is `/=`, never a comment opener |
| LexerProps.NoCommentAt | src/lexer/mod.rs:55-66 | only a `/` can start a comment |
| LexerProps.NoOperatorAt | src/lexer/mod.rs:103-104 | a character that starts no operator spelling never makes the two-character lookahead an operator |
| LexerProps.StepWhitespace | src/lexer/mod.rs:41-52 | newlines and other whitespace are skipped one character at a time |
| LexerProps.StepLineComment | src/lexer/mod.rs:55-63 | `//` skips up to, not including, the next newline, or to the end of the input |
| LexerProps.StepBlockComment | src/lexer/mod.rs:66-75 | a block comment opener skips to `BlockEnd` |
| LexerProps.StepCharLiteral | src/lexer/mod.rs:78-86 | a quote, a character and a quote give `Number` of the character's code, length 3, pushed after consuming three characters |
| LexerProps.StepCharLiteralUnterminated | src/lexer/mod.rs:79-83 | a quote without a character and a closing quote after it panics |
| LexerProps.StepStringLiteral | src/lexer/mod.rs:89-100 | a string literal is `Str` of the raw characters up to the next `"` (none of them a quote) with length `|body| + 2`; without a closing quote it runs to the end of the input |
| LexerProps.StepWord | src/lexer/mod.rs:116-153 | a letter or `_` starts the maximal run of letters, digits and `_`, which gives its keyword or `Ident` |
| LexerProps.StepIsCharLiteral | src/lexer/mod.rs:77-78 | a quote reaches the character literal branch |
| LexerProps.StepIsStringLiteral | src/lexer/mod.rs:88-89 | a double quote reaches the string literal branch |
| LexerProps.StepIsLineComment | src/lexer/mod.rs:54-55 | `//` reaches the line comment branch |
| LexerProps.StepIsBlockComment | src/lexer/mod.rs:65-66 | a block comment opener reaches the block comment branch |
| LexerProps.StepIsIdentOrKeyword | src/lexer/mod.rs:116-118 | a letter or `_` reaches the identifier branch |
| LexerProps.StepIsNumberLiteral | src/lexer/mod.rs:156-159 | a digit reaches the number branch |
| LexerProps.StepNumber | src/lexer/mod.rs:170-182 | a maximal digit run gives `Number` of its decimal value, or panics when that does not fit in `i64` |
| LexerProps.ShortNumberFits | src/lexer/mod.rs:170-182 | a digit run of at most 18 characters is always a `Number` token of its decimal value, never the overflow panic |
| LexerProps.StepOperator | src/lexer/mod.rs:102-107 | an operator spelling in the two-character lookahead wins over every later branch, and nothing is consumed |
| LexerProps.NoSymbolBeforeOperator | src/lexer/mod.rs:102-114 | no `Symbol` is emitted where the next two characters spell an operator |
| LexerProps.StepSymbol | src/lexer/mod.rs:109-114 | a symbol character that starts no comment or operator is pushed with length 1, then consumed |
| LexerProps.StepLoneSymbol | src/lexer/mod.rs:109-114 | a symbol character that cannot start an operator is always pushed as itself |
| LexerProps.StepUnrecognized | src/lexer/mod.rs:162-165 | the scanner panics on a character exactly when no branch can start with it (both directions) |
| LexerProps.KeywordKindInjective | src/lexer/mod.rs:129-151 | distinct reserved words give distinct keyword kinds |
| LexerProps.OrderedFromEarlier | src/lexer/mod.rs:184-194 | spans ordered after a bound are also ordered after any earlier bound |
| LexerProps.OrderedPairwise | src/lexer/mod.rs:184-194 | ordered spans lie after the bound, and any two are in order and do not overlap |
| LexerProps.ScanFromOrdered | src/lexer/mod.rs:184-194 | because the counter never decreases, the spans a scan pushes are in order from the initial counter |
| LexerProps.ScanSpansDisjoint | src/lexer/mod.rs:184-194 | the spans of a whole scan are in order and pairwise disjoint |
| LexerProps.ScanTestProgram | src/lexer/mod.rs:219-229 | the scan of `int main(){ return 0;}` finishes and pushes exactly the nine listed tokens with their spans |
| LexerProps.TestProgramKinds | src/lexer/mod.rs:219-229 | that scan finishes with the kinds `Int, Ident("main"), (, ), {, Return, Number(0), ;, }` |
| LexerSteps.ScanFromEnd | src/lexer/mod.rs:39 | the loop ends at the end of the input with nothing pushed |
| LexerSteps.ScanFromWhitespace | src/lexer/mod.rs:41-52 | whitespace is consumed, counted and contributes nothing |
| LexerSteps.ScanFromLineComment | src/lexer/mod.rs:54-63 | a line comment is consumed up to the newline, counted, and contributes nothing |
| LexerSteps.ScanFromBlockComment | src/lexer/mod.rs:65-75 | a block comment is consumed up to `BlockEnd`, counted, and contributes nothing |
| LexerSteps.ScanFromCharLiteral | src/lexer/mod.rs:77-86 | a character literal pushes its code at counter + 3 .. counter + 6, and a malformed one stops the scan with the matching panic |
| LexerSteps.ScanFromStringLiteral | src/lexer/mod.rs:88-100 | a string literal pushes its body after the consumed characters, with length `|body| + 2` |
| LexerSteps.ScanFromOperator | src/lexer/mod.rs:102-107 | an operator spelling at the cursor leaves the scan stuck at that position |
| LexerSteps.ScanFromSymbol | src/lexer/mod.rs:109-114 | a symbol is pushed at the counter, then consumed, so the counter moves by 2 |
| LexerSteps.ScanFromWord | src/lexer/mod.rs:116-154 | a word is consumed whole and its token is recorded after the counter has already passed it |
| LexerSteps.ScanFromNumber | src/lexer/mod.rs:156-182 | a digit run that fits in `i64` pushes its value, recorded after the counter has passed it |
| LexerSteps.ScanFromNumberOverflow | src/lexer/mod.rs:180 | a digit run that does not fit in `i64` stops the scan with a panic |
| LexerSteps.ScanFromUnrecognized | src/lexer/mod.rs:162-165 | a character no branch accepts stops the scan with a panic naming it |
| LexerSteps.CharLiteralA | src/lexer/mod.rs:77-86 | `'a'` scans to `Number(97)` |
| Lexer.BlockEndAt | src/lexer/mod.rs:67-72 | proof step: one character of the block comment loop either closes the comment three characters on or leaves the end unchanged |
| Lexer.Lexer.constructor | src/lexer/mod.rs:17-26 | a new lexer has its cursor and counter at 0 and no tokens |
| Lexer.Lexer.NextChar | src/lexer/mod.rs:27-33 | returns the next character and advances cursor and counter by exactly 1; at the end returns None and changes nothing; tokens unchanged |
| Lexer.Lexer.PeekChar | src/lexer/mod.rs:34-36 | the character under the cursor, or None at the end, without changing state |
| Lexer.Lexer.PeekNChars | src/lexer/mod.rs:200-212 | the loop returns `Window(input, pos, n)`: the next `n` characters, fewer at the end |
| Lexer.Lexer.StartsWith | src/lexer/mod.rs:196-198 | true exactly when the next characters are `s` |
| Lexer.Lexer.PushToken | src/lexer/mod.rs:184-194 | appends exactly one token with span `[start, start + len)` and leaves earlier tokens unchanged; the counter becomes the span's end; the cursor does not move |
| Lexer.Lexer.TakeWhile | src/lexer/mod.rs:121-128 | the peek-and-consume loop stops at `RunEnd`, returns the run, and counts every consumed character |
| Lexer.Lexer.SkipSpace | src/lexer/mod.rs:41-52 | consumes exactly one whitespace character, counts it, and pushes nothing; the state stays on the way of `ScanFrom` |
| Lexer.Lexer.SkipLineComment | src/lexer/mod.rs:54-63 | the line comment loop moves the cursor to `RunEnd(NotNewline)`, just before the newline, counts every character and pushes nothing; the state stays on the way of `ScanFrom` |
| Lexer.Lexer.SkipBlockComment | src/lexer/mod.rs:65-75 | the block comment loop moves the cursor to `BlockEnd`, counts every character and pushes nothing; the state stays on the way of `ScanFrom` |
| Lexer.Lexer.ScanCharLiteral | src/lexer/mod.rs:77-86 | succeeds exactly when the third character is a quote; then it consumes three characters, moves the counter by 6 and pushes `Number` of the code at counter + 3 .. + 6; otherwise it reports the end-of-input or unterminated panic with nothing pushed |
| Lexer.Lexer.ScanStringLiteral | src/lexer/mod.rs:88-100 | the string loop consumes up to and including the closing quote (or to the end) and pushes `Str` of the raw body with length `|body| + 2`, after the counter has passed the consumed characters |
| Lexer.Lexer.TakeQuoted | src/lexer/mod.rs:92-97 | the string loop collects exactly the characters up to the first quote (the maximal non-quote run), and consumes that quote too when there is one |
| Lexer.Lexer.ScanSymbol | src/lexer/mod.rs:109-114 | pushes `Symbol(c)` at counter .. counter + 1, then consumes it: cursor + 1, counter + 2 |
| Lexer.Lexer.ScanWord | src/lexer/mod.rs:116-154 | moves the cursor to the end of the maximal word and pushes its keyword or `Ident`, spanning `|w|` after the counter has already passed the word; the counter moves by `2|w|` |
| Lexer.Lexer.ScanNumber | src/lexer/mod.rs:170-182 | moves the cursor to the end of the maximal digit run; panics exactly when its value exceeds `i64`, and otherwise pushes `Number` of that value with the same double-counted span as a word |
| Lexer.Lexer.Iterate | src/lexer/mod.rs:39-166 | one loop iteration, dispatched in the source's branch order, either makes progress along `ScanFrom` or stops with `ScanFrom`'s status |
| Lexer.Lexer.Scan | src/lexer/mod.rs:38-167 | appends exactly the tokens of `ScanFrom` from the current cursor and counter, and ends with its status (finished, panic, or stuck) |
| Lexer.Tokenize | src/lexer/mod.rs:17-26 | a fresh lexer, scanned, holds exactly `ScanAll(input)` |
| LexerFixed.CommentEnd | src/lexer/mod.rs:65-75 | the corrected comment end lies between the opener and the end of the input |
| LexerFixed.CommentEndFirst | src/lexer/mod.rs:65-75 | the corrected comment ends right after the first closing pair, or at the end of the input when there is none |
| LexerFixed.Settle | src/lexer/mod.rs:184-194 | an as-written literal or word step becomes a token whose end is the cursor after the characters consumed |
| LexerFixed.FixedStep | src/lexer/mod.rs:38-166 | every corrected iteration consumes at least one character and stays within the input |
| LexerFixed.FixedLexeme | src/lexer/mod.rs:77-100 | the literal branches consume at least one character and stay within the input |
| LexerFixed.FixedOperand | src/lexer/mod.rs:102-107 | a three-character spelling at the cursor is read whole; a two-character spelling is read only when no three-character one is there; either way the characters are consumed |
| LexerFixed.FixedShiftAssignAt | src/lexer/token.rs:69-70 | in any input, `<<=` and `>>=` are read as one `ShlEq` or `ShrEq` |
| LexerFixed.FixedWord | src/lexer/mod.rs:109-160 | the symbol, word and number branches consume at least one character |
| LexerFixed.FixedScanFromStep | src/lexer/mod.rs:38-166 | proof step: the corrected scan continues as the corrected iteration says |
| LexerFixed.FixedStepDenotes | src/lexer/mod.rs:38-166 | the characters a corrected token was read from spell that token |
| LexerFixed.FixedLexemeDenotes | src/lexer/mod.rs:77-100 | the same, for the literal branches |
| LexerFixed.FixedOperandDenotes | src/lexer/mod.rs:102-107 | the same, for the operator branch |
| LexerFixed.FixedWordDenotes | src/lexer/mod.rs:109-160 | the same, for symbols, words and numbers |
| LexerFixed.StringTextDenotes | src/lexer/mod.rs:89-100 | a string literal's text spells its `Str` token: its body between quotes, and the closing quote is part of the text exactly when the body stops before the end of the input |
| LexerFixed.QuotedSlice | src/lexer/mod.rs:92-97 | proof step: the characters from the opening quote to the closing one are the quote, the body and the quote |
| LexerFixed.StringTextClosed | src/lexer/mod.rs:92-97 | the closing quote is read exactly when the body stops before the end of the input |
| LexerFixed.FixedScanSourceSpans | src/lexer/mod.rs:184-194 | the corrected scan's spans are in order, within the input, and each spells its token; the scan is never stuck |
| LexerFindings.OperatorNeverAdvances | src/lexer/mod.rs:103-106 | on `a==b` the as-written scan pushes `a`, then is stuck at `==` |
| LexerFindings.FixedOperatorAdvances | src/lexer/mod.rs:103-106 | on `a==b` the corrected scan reads `a`, `==`, `b` at 0..1, 1..3, 3..4 and finishes |
| LexerFindings.ShiftAssignNeverPeeked | src/lexer/mod.rs:103-104 | whatever the input, the two-character lookahead never yields `ShlEq` or `ShrEq` |
| LexerFindings.ShiftAssignStuck | src/lexer/mod.rs:103-106 | `<<=` is read as `Shl`, which then repeats |
| LexerFindings.FixedShiftAssign | src/lexer/token.rs:69-70 | the corrected scan reads `<<=` as one `ShlEq` |
| LexerFindings.BlockCommentRunsOn | src/lexer/mod.rs:66-75 | the comment in `/* x */ int` never closes, and `int` is lost |
| LexerFindings.FixedBlockComment | src/lexer/mod.rs:66-75 | the corrected scan closes the comment at its closer and reads `int` at 8..11 |
| LexerFindings.SpanPastInput | src/lexer/mod.rs:185-192 | `int` alone is recorded at 3..6, past the end of the three-character input |
| LexerFindings.FixedSpanInInput | src/lexer/mod.rs:185-192 | the corrected scan records `int` at 0..3, and that span spells it |
| Parser.BaseType | src/parser/mod.rs:48-61 | no contract of its own; see `BaseTypeCases` and `BaseTypeValid` |
| Parser.BaseTypeCases | src/parser/mod.rs:48-60 | exactly void, `_Bool`, char and int give a base type, each its own constructor; `struct` fails as not implemented and any other kind as an invalid type |
| Parser.BaseTypeValid | src/parser/mod.rs:51-55 | every base type is valid |
| Parser.IdentName | src/parser/mod.rs:62-67 | succeeds exactly on an `Ident` and returns its text; otherwise fails as an invalid identifier |
| Parser.StarRun | src/parser/mod.rs:35-37 | the number of leading `*` tokens stays within the token sequence |
| Parser.StarRunMaximal | src/parser/mod.rs:35 | all tokens in the star run are `*`, and the token after it (if any) is not |
| Parser.PtrToShape | src/parser/mod.rs:35-37 | after `k >= 1` stars the type is a pointer of size 8 and alignment 8, and wrapping keeps validity both ways |
| Parser.ParseToplevel | src/parser/mod.rs:31-47 | the cursor never moves backwards or past the end |
| Parser.ParseNamed | src/parser/mod.rs:39-46 | the cursor never moves backwards or past the end |
| Parser.ToplevelSuccess | src/parser/mod.rs:31-47 | a success read a type keyword, `k` stars, an identifier, and `(` exactly when one follows; it consumed `1 + k + 1` tokens plus one for `(`; its type is the base under `k` pointers, valid, and of size 8 when `k >= 1` |
| Parser.ToplevelFailure | src/parser/mod.rs:48-67 | a missing token, `struct`, a non-type keyword, or a non-identifier name each give their own error and cursor |
| Parser.ToplevelTestProgram | src/parser/mod.rs:82-90 | on the test program's tokens the head is `int main` with `(` consumed and `)` next |
| Parser.Parser.constructor | src/parser/mod.rs:10-14 | the cursor starts at the first token |
| Parser.Parser.NextToken | src/parser/mod.rs:19-21 | returns the next token and advances by one, or returns None at the end and does not move |
| Parser.Parser.Consume | src/parser/mod.rs:22-30 | advances by exactly one and returns true exactly when the next token has kind `k`; otherwise does not move |
| Parser.Parser.DeclSpecifiers | src/parser/mod.rs:48-61 | consumes one token and returns its base type, or reports the end of input |
| Parser.Parser.Ident | src/parser/mod.rs:62-68 | consumes one token and returns its name, or reports the end of input |
| Parser.Parser.PointerStars | src/parser/mod.rs:35-37 | the loop consumes exactly the star run and wraps the type once per star |
| Parser.Parser.Toplevel | src/parser/mod.rs:31-47 | result and final cursor are those of `ParseToplevel` from the initial cursor |
| Parser.Parser.Named | src/parser/mod.rs:39-46 | result and final cursor are those of `ParseNamed` from the initial cursor |
| Parser.Parser.Parse | src/parser/mod.rs:15-17 | the same as `Toplevel` |

## Left out

- Unicode: the character classes `is_whitespace`, `is_alphabetic`, `is_alphanumeric` and `is_numeric` are restricted to ASCII. On input with non-ASCII characters the model reports `Unrecognized` where the source would treat a letter, digit or space as such. String lengths are counted in characters, which equals the source's byte count only for ASCII.
- The `file_name` and `file_content` references in `Span`, and the file name in the panic message, are not modelled; a span is its `start` and `end`.
- Panics are statuses (`Failed`) or `Err` values, not unwinding; the panic messages are not modelled.
- The two-character operator branch pushes a token without consuming anything, so the source loops forever and pushes without end. `ScanFrom` stops there with `Stuck(pos, kind)` and does not model the unbounded repetition of pushes.
- Lexer.Lexer.TakeWhile: one loop method stands for the three peek-and-consume loops of the line comment, the identifier and `scan_number`. The word loop builds a `String` char by char; the model returns the consumed run.
- The `Peekable` iterator and the iterator clone of `peek_n_chars` are a cursor and a slice of the input.
- LexerSpec.DecimalValue is total on any run of digits; the `i64` bound is checked by `NumberLiteral`, as `parse().unwrap()` does.
- Common.NewArray: the `u32` product follows the release-build wrap-around; the debug-build overflow panic is not modelled.
- Parser.Parser.Toplevel: the source discards the declared type and name; the model returns them, so that what `toplevel` computed can be stated.
- Parser.Parser.PointerStars and Parser.Parser.Named are separate methods for the pointer loop and the identifier tail of `toplevel`.
- `params`, `params_decl` and the body of the `(` branch of `toplevel` are empty or `unimplemented!` in the source and are not modelled.
- `src/main.rs`, the driver, is not part of this model, and neither are the example C file and the debug printing in the tests.
- The AST node kinds without a constructor in the source (`Assign`, `Addr`, `Deref`, `Return`, `If`, `For`, `Block`, `FuncCall`) are present as datatype variants only.

## Findings

The `Lexer` class models the code as written, including these four behaviours. The corrected scanner `LexerFixed.FixedScanFrom` applies all four corrections, and `LexerFixed.FixedScanSourceSpans` proves its intended property for every input.

| source | as written | input that shows it | evidently intended | confidence | as-written member | corrected member |
|---|---|---|---|---|---|---|
| src/lexer/mod.rs:103-106 | the two-character operator branch pushes the operator but never consumes it, so the loop repeats it forever | `a==b` | consume the two characters and continue with `b` | high, not executed | LexerFindings.OperatorNeverAdvances | LexerFindings.FixedOperatorAdvances |
| src/lexer/mod.rs:103-104 | only a two-character lookahead is passed to `from_str`, so its `<<=` and `>>=` entries are unreachable | `<<=` | read `<<=` as one `ShlEq` token | high, not executed | LexerFindings.ShiftAssignNeverPeeked | LexerFindings.FixedShiftAssign |
| src/lexer/mod.rs:67-72 | a block comment closes only when a consumed `*` is followed by `*/`, so an ordinary `*/` does not close it and the rest of the input is swallowed | `/* x */ int` | close the comment at the first `*/` and read `int` | high, not executed | LexerFindings.BlockCommentRunsOn | LexerFindings.FixedBlockComment |
| src/lexer/mod.rs:185-192 | `start` is advanced for each consumed character and again by `len` in `push_token`, so spans are not source offsets | `int` | the span of `int` is 0..3, the characters it was read from | high, not executed | LexerFindings.SpanPastInput | LexerFindings.FixedSpanInInput |
