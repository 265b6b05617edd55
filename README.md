# A verified model of the 3body-lang interpreter core

3body-lang is a small scripting language in the Monkey tradition, with keywords
taken from *The Three-Body Problem*. Source text goes through a pipeline:

- a character-level lexer produces tokens;
- a Pratt parser turns the tokens into a syntax tree;
- a tree-walking evaluator runs the tree in a chain of environments.

The repository holds three snapshots of this pipeline:

- `three_body_e2021`, whose model covers its lexer, parser, AST and builtins;
- `src`, whose model covers its lexer, object module, environment and builtins;
- `interpreter`, whose model covers its evaluator, object module, environment and builtins.

This project models those parts in Dafny and proves what they promise.

## How the model is built

Where the source changes state step by step, the model has two halves:

- a pure function that states the meaning;
- a class that keeps the source's fields and updates them in place. Each
  method of the class is proved to return what the function returns and to
  leave the state the function describes.

The lexers, the parser, the evaluator and the environments have this shape.
The properties are then proved as lemmas about the functions.

- **Lexers** (`E2021Lexer`, `SrcLexer`, sharing `Chars`, `Scanning` and `Tokens`).
  - A cursor at position `pos` reads NUL once it is past the end, as
    `read_char` does.
  - `NextTokenAt` gives the token that `next_token` returns from `pos`, and
    where the cursor stops.
  - The class `Lexer` holds `input`, `position`, `read_position` and `ch`.
- **Parser** (`Parsing`, `E2021Parser`).
  - The two-token window (`current_token`, `next_token`) is an index into a
    token sequence that reads as `Eof` past its end.
  - Every `parse_*` production is a function from a state (cursor and error
    list) to the value it returns and the state it leaves.
  - The class `Parser` has one method per production, proved equal to that
    production's function.
- **Objects** (`Objects`, `Builtins`).
  - `Show` is the `Display` implementation, which error messages and the
    deep-equal builtin rely on.
  - `Hashable` is the hash that decides which values can be hash keys.
  - The pure builtins are `len`, `first`, `last`, `rest`, `push` and
    `没关系的都一样`, together with each snapshot's registry of builtin names.
- **Environments** (`Environment`, `InterpreterEnv`, `SrcEnv`).
  - `Environment` gives chain semantics: a list of scopes, innermost first.
  - `InterpreterEnv.Env` and `SrcEnv.Env` are heap frames that share their
    outer frame, as `Rc<RefCell<Env>>` does. Both are proved against the chain
    semantics.
  - `Environment.Store` is a growing list of frames, each naming its outer
    frame by index. The evaluator runs on this store.
- **Evaluator** (`Evaluation`, `Evaluator`, `EvaluationProps`, `EvaluationExamples`).
  - `Evaluation` defines evaluation over a store and a current frame index.
  - `Evaluator.Evaluator` holds the store and its field `env`; a call moves
    `env` to a fresh frame and then restores it.
  - A `fuel` argument bounds the loop iterations and calls along any path.
  - `EvaluationExamples` states what the model gives for programs from the evaluator's own test suite.

The following are parameters of the model, so every property holds for any
choice of them:

- **Unicode services** (`Unicode.Tables`): the XID_Start and XID_Continue
  properties (Unicode Standard Annex #31), NFC normalisation (Unicode
  Standard Annex #15), and string unescaping.
- **`escape_str`**: the `esc` argument of `Show`.
- **Side-effecting builtins**: the `Host` argument of the evaluator.

Rust's `i64` is modelled by `I64.int64`, with checked arithmetic. Every
overflow, division by zero, `todo!()` and `unwrap()` of `None` is a `Panic`
outcome, as a debug build would panic.

### Where the code and its description differ

The model follows the code in each case.

- `interpreter/src/evaluator/env.rs` defines an `Info` type
  (`ConstantForbidden`, `NoIdentifier`, `Succeed`) and has no `check_inner`.
- The evaluator uses `env::CheckInnerInfo`, `env::UpdateInfo` and
  `check_inner()` (`interpreter/src/evaluator/mod.rs`, lines 50-63 and
  113-121).
  - The model derives these from how the evaluator uses them. `check_inner`
    looks in the current frame only.
  - It has three outcomes: `ConstantExist`, `VariableExist` and `Undeclared`.
    `Undeclared` is the same outcome as `NoIdentifier`.
- The `src` lexer gives no keyword token for `const` or `思想钢印`, so they
  lex as identifiers. `SrcLexerProps.DeclarationKeywords` states this.
- The message "uknown operator" is kept as written.

## Model

| member | source | states |
|---|---|---|
| Ast.PrefixSymbol | three_body_e2021/src/ast/mod.rs:22-30 | a prefix operator displays as one character: `+`, `-` or `!` |
| Ast.InfixSymbol | three_body_e2021/src/ast/mod.rs:47-62 | an infix operator displays as its one- or two-character spelling |
| Ast.PrefixSymbolInjective | three_body_e2021/src/ast/mod.rs:22-30 | two prefix operators display alike exactly when they are the same operator |
| Ast.InfixSymbolInjective | three_body_e2021/src/ast/mod.rs:47-62 | two of the ten infix operators display alike exactly when they are the same operator |
| Ast.Rank | three_body_e2021/src/ast/mod.rs:112-122 | each precedence level has a position below 8 in the declaration order |
| Ast.BelowIsStrictTotalOrder | three_body_e2021/src/ast/mod.rs:112-122 | the derived ordering of precedences is irreflexive, transitive and total on distinct levels |
| Ast.PrecedenceLadder | three_body_e2021/src/ast/mod.rs:113-122 | Lowest < Equals < LessGreater < Sum < Product < Prefix < Call < Index |
| Chars.CharAt | three_body_e2021/src/lexer/mod.rs:50-58 | a cursor inside the input reads that character, and past the end it reads NUL |
| Chars.WhitespaceIsTenCodePoints | src/lexer/mod.rs:19-42 | `is_whitespace` (repeated in the `three_body_e2021` `skip_whitespace`) holds for exactly ten code points, and not for newline or NUL |
| Chars.WhitespaceEnd | three_body_e2021/src/lexer/mod.rs:150-179 | skipping whitespace stops at the first non-whitespace position, having passed only whitespace |
| Chars.DigitsEnd | three_body_e2021/src/lexer/mod.rs:225-239 | the digit run stops at the first non-digit, having passed only ASCII digits |
| Chars.DigitsRun | three_body_e2021/src/lexer/mod.rs:239-242 | the characters a number token is read from are all decimal digits |
| Scanning.Blanks | three_body_e2021/src/lexer/mod.rs:117-124 | a run of blank tokens of length n holds exactly n `Blank` tokens |
| Scanning.ConsBlanks | three_body_e2021/src/lexer/mod.rs:117-124 | one more `Blank` in front of a run of k blanks is a run of k+1 blanks |
| Scanning.DigitsEndOfNumeral | three_body_e2021/src/lexer/mod.rs:225-243 | a numeral followed by a non-digit is scanned up to exactly its end |
| I64.Checked | interpreter/src/evaluator/mod.rs:366-368 | an exact result stays an `i64` exactly when it is in range, and overflow is the panic |
| I64.TruncDivRem | interpreter/src/evaluator/mod.rs:369 | quotient times divisor plus remainder is the dividend, the remainder is smaller than the divisor and has the dividend's sign, and the quotient rounds toward zero |
| I64.Div | interpreter/src/evaluator/mod.rs:369 | a zero divisor panics, and otherwise the quotient truncates toward zero and panics only out of range |
| I64.QuotientInRange | interpreter/src/evaluator/mod.rs:369 | a divisor other than 0 and -1 always gives an in-range quotient |
| I64.DivOverflowOnlyAtMin | interpreter/src/evaluator/mod.rs:369 | with a non-zero divisor, division panics exactly for `i64::MIN / -1` |
| I64.NatToDecimal | interpreter/src/evaluator/object.rs:44 | the rendering of a natural number is a non-empty string of digits |
| I64.DecimalRoundTrip | three_body_e2021/src/lexer/mod.rs:241-242 | parsing the digits a natural number renders to gives that number back |
| I64.DecimalHead | interpreter/src/evaluator/object.rs:44 | a negative number renders as `-` followed by the digits of its magnitude, a non-negative one as its digits |
| I64.DecimalInjective | interpreter/src/evaluator/object.rs:44 | distinct integers render as distinct text |
| E2021Lexer.IdentEnd | three_body_e2021/src/lexer/mod.rs:181-192 | an identifier extends over identifier-continue characters up to the first one that is not |
| E2021Lexer.QuoteFrom | three_body_e2021/src/lexer/mod.rs:245-259 | it finds the first double quote at or after a position, or reports that there is none |
| E2021Lexer.NextTokenAt | three_body_e2021/src/lexer/mod.rs:60-136 | every token scanned moves the cursor forward, and a scan that ends past the input is `Eof` |
| E2021Lexer.Lexer.constructor | three_body_e2021/src/lexer/mod.rs:36-48 | a new lexer starts at 0, looks ahead at 1, and reads the first character, or NUL for empty input |
| E2021Lexer.Lexer.WalkChar | three_body_e2021/src/lexer/mod.rs:50-58 | the cursor moves to the lookahead position and reads that character, or NUL past the end |
| E2021Lexer.Lexer.NextCh | three_body_e2021/src/lexer/mod.rs:142-148 | returns the character after the cursor, or NUL past the end |
| E2021Lexer.Lexer.NextIs | three_body_e2021/src/lexer/mod.rs:138-140 | true exactly when the character after the cursor is the one asked for |
| E2021Lexer.Lexer.SkipWhitespace | three_body_e2021/src/lexer/mod.rs:150-179 | the loop leaves the cursor at the first non-whitespace position |
| E2021Lexer.Lexer.ConsumeIdentifier | three_body_e2021/src/lexer/mod.rs:181-223 | the loop reads the maximal identifier and returns its keyword token or `Ident` of its text |
| E2021Lexer.Lexer.ConsumeNumber | three_body_e2021/src/lexer/mod.rs:225-243 | the loop reads the maximal digit run and returns its value as an `Int` token |
| E2021Lexer.Lexer.ConsumeString | three_body_e2021/src/lexer/mod.rs:245-259 | the loop returns the characters up to the closing quote verbatim and leaves the cursor after it |
| E2021Lexer.Lexer.NextToken | three_body_e2021/src/lexer/mod.rs:60-136 | each call returns the token the position-indexed scan gives and moves the cursor to where that scan ends |
| E2021LexerProps.EofForever | three_body_e2021/src/lexer/mod.rs:50-106 | once the cursor is past the end, every call yields `Eof` and moves one further |
| E2021LexerProps.StreamEndsWithEof | three_body_e2021/src/lexer/mod.rs:106 | a complete token stream is non-empty and its last token is `Eof` |
| E2021LexerProps.TwoCharOperators | three_body_e2021/src/lexer/mod.rs:68-105 | `<`, `>`, `=`, `!` followed by `=` give `LTEQ`, `GTEQ`, `Equal`, `NotEqual` and consume two characters, and otherwise give the one-character token |
| E2021LexerProps.NewlineRun | three_body_e2021/src/lexer/mod.rs:117-124 | a run of k newlines yields k-1 `Blank` tokens before the stream that follows it |
| E2021LexerProps.StreamStep | three_body_e2021/src/lexer/mod.rs:60-136 | the stream is the first token followed by the stream from where that token ends |
| E2021LexerProps.NewlineStep | three_body_e2021/src/lexer/mod.rs:117-124 | at a newline the lexer yields `Blank` when another newline follows and otherwise skips it |
| E2021LexerProps.SameScanSameStream | three_body_e2021/src/lexer/mod.rs:60-136 | two positions whose first scans agree start the same stream |
| E2021LexerProps.NumberRoundTrip | three_body_e2021/src/lexer/mod.rs:225-243 | the decimal digits of a non-negative `i64`, followed by a non-digit, lex as that `Int` and stop at the digits' end |
| E2021LexerProps.NumberOverflows | three_body_e2021/src/lexer/mod.rs:242 | a digit run beyond the `i64` range is the `unwrap` panic |
| E2021LexerProps.QuoteAfterText | three_body_e2021/src/lexer/mod.rs:249-254 | in a quoted text without quotes, the closing quote is found right after the text |
| E2021LexerProps.StringRoundTrip | three_body_e2021/src/lexer/mod.rs:245-259 | a quoted text without quotes lexes as exactly that text, with no escape processing, and the cursor ends after the closing quote |
| E2021LexerProps.UnterminatedString | three_body_e2021/src/lexer/mod.rs:249-258 | a string with no closing quote is the non-terminating case |
| E2021LexerProps.IllegalChar | three_body_e2021/src/lexer/mod.rs:125-134 | a character that starts no token yields `Illegal` and consumes exactly one character |
| E2021LexerProps.IdentEndOfWord | three_body_e2021/src/lexer/mod.rs:184-192 | a word of identifier characters followed by a non-identifier character is scanned to exactly its end |
| E2021LexerProps.WordRoundTrip | three_body_e2021/src/lexer/mod.rs:181-223 | an identifier-shaped word lexes as its keyword, or as `Ident` of the word unchanged when it is no keyword |
| E2021LexerProps.DeclarationKeywords | three_body_e2021/src/lexer/mod.rs:197-205 | `let`/`给` give `Let`, `const`/`思想钢印` give `Const`, `fn`/`法则` give `Function` |
| E2021LexerProps.OperatorWords | three_body_e2021/src/lexer/mod.rs:199-201 | `以`, `前进`, `降维` give `Assign`, `Plus`, `Minus` |
| E2021LexerProps.LoopKeywords | three_body_e2021/src/lexer/mod.rs:216-218 | `面壁`, `破壁`, `延绪` give `While`, `Break`, `Continue` |
| E2021LexerProps.BooleanWords | three_body_e2021/src/lexer/mod.rs:206-209 | both spellings of true and false give the boolean tokens |
| E2021LexerProps.LetFiveKeyword | three_body_e2021/src/lexer/mod.rs:279-281 | in `let five = 5;` the first token is `Let`, ending at 3 |
| E2021LexerProps.LetFiveName | three_body_e2021/src/lexer/mod.rs:282 | from 3, the next token is `Ident("five")`, ending at 8 |
| E2021LexerProps.LetFiveRest | three_body_e2021/src/lexer/mod.rs:283-286 | the remaining tokens are `Assign`, `Int(5)`, `Semicolon`, `Eof`, each ending where it should |
| E2021LexerProps.LetStatementTokens | three_body_e2021/src/lexer/mod.rs:278-287 | `let five = 5;` lexes to `Let, Ident("five"), Assign, Int(5), Semicolon, Eof` |
| E2021LexerProps.LetFiveTail | three_body_e2021/src/lexer/mod.rs:283-286 | the stream from after the name is `Assign, Int(5), Semicolon, Eof` |
| E2021LexerProps.IdentEndShift | three_body_e2021/src/lexer/mod.rs:184-192 | an identifier scan does not depend on the text before its start |
| SrcLexer.IdentEnd | src/lexer/mod.rs:227-238 | an identifier extends over identifier-continue characters up to the first one that is not |
| SrcLexer.StringEnd | src/lexer/mod.rs:284-307 | the string scan stops at a closing quote not preceded by a backslash, or at a NUL |
| SrcLexer.StringAt | src/lexer/mod.rs:284-310 | a string always yields a string token and moves the cursor forward: either the unescaped text between the quotes with the cursor after the closing quote, or the premature-EOF sentinel with the cursor on the NUL that ended the scan |
| SrcLexer.NextTokenAt | src/lexer/mod.rs:148-225 | every token scanned moves the cursor forward, a scan ending past the input is `Eof`, and the only failure is an out-of-range integer literal |
| SrcLexer.Lexer.constructor | src/lexer/mod.rs:102-114 | a new lexer starts at 0, looks ahead at 1, and reads the first character, or NUL for empty input |
| SrcLexer.Lexer.ReadChar | src/lexer/mod.rs:116-124 | the cursor moves to the lookahead position and reads that character, or NUL past the end |
| SrcLexer.Lexer.Nextch | src/lexer/mod.rs:126-132 | returns the character after the cursor, or NUL past the end |
| SrcLexer.Lexer.NextchIs | src/lexer/mod.rs:134-136 | true exactly when the character after the cursor is the one asked for |
| SrcLexer.Lexer.SkipWhitespace | src/lexer/mod.rs:138-146 | the loop leaves the cursor at the first non-whitespace position |
| SrcLexer.Lexer.ConsumeIdentifier | src/lexer/mod.rs:227-263 | the loop reads the maximal identifier and returns its keyword token or `Ident` of its normalised text |
| SrcLexer.Lexer.ConsumeNumber | src/lexer/mod.rs:265-282 | the loop reads the maximal digit run and returns its value as an `Int` token |
| SrcLexer.Lexer.ConsumeString | src/lexer/mod.rs:284-310 | the loop with its backslash flag returns the unescaped text up to the closing quote, or the premature-EOF sentinel |
| SrcLexer.Lexer.NextToken | src/lexer/mod.rs:148-225 | each call returns the token the position-indexed scan gives and moves the cursor to where that scan ends |
| SrcLexerProps.EofForever | src/lexer/mod.rs:116-212 | once the cursor is past the end, every call yields `Eof` and moves one further |
| SrcLexerProps.OnlyNumbersFail | src/lexer/mod.rs:281-309 | lexing never hangs: the only failure is the integer `unwrap`, and a complete stream ends with `Eof` |
| SrcLexerProps.TwoCharOperators | src/lexer/mod.rs:152-187 | `=`, `!`, `<`, `>` followed by `=` give the two-character token and consume two characters, and otherwise the one-character token |
| SrcLexerProps.NewlineRun | src/lexer/mod.rs:204-211 | a run of k newlines yields k-1 `Blank` tokens before the stream that follows it |
| SrcLexerProps.NewlineStep | src/lexer/mod.rs:204-211 | at a newline the lexer yields `Blank` when another newline follows and otherwise skips it |
| SrcLexerProps.BackslashSkipsNext | src/lexer/mod.rs:290-306 | after a backslash the next character is skipped when looking for the closing quote |
| SrcLexerProps.StringEndOfPlain | src/lexer/mod.rs:290-299 | in a quoted text without quotes, backslashes or NUL, the closing quote is found right after the text |
| SrcLexerProps.PlainStringRoundTrip | src/lexer/mod.rs:284-299 | such a quoted text lexes as the unescaped text and the cursor ends after the closing quote |
| SrcLexerProps.EscapedQuoteStaysInside | src/lexer/mod.rs:290-306 | the six characters `"a\"b"` form one string token whose raw text is `a\"b` |
| SrcLexerProps.StringEndWithoutNul | src/lexer/mod.rs:290-307 | without a quote or NUL, the string scan runs to the end of the input |
| SrcLexerProps.UnterminatedString | src/lexer/mod.rs:308-309 | a string with no closing quote yields the premature-EOF sentinel, and without NUL the cursor stops at the end of the input |
| SrcLexerProps.EmojiIsNotAscii | src/lexer/mod.rs:46-49 | no character up to U+007F is emoji-like |
| SrcLexerProps.IdContinueAddsDigits | src/lexer/mod.rs:71-92 | on ASCII, identifier-continue is identifier-start plus the digits, and an identifier start also continues one when the tables nest |
| SrcLexerProps.IdentEndOfWord | src/lexer/mod.rs:230-236 | a word of identifier characters followed by a non-identifier character is scanned to exactly its end |
| SrcLexerProps.WordRoundTrip | src/lexer/mod.rs:227-263 | an identifier-shaped word lexes as its keyword when it is one, matched on the raw text, and otherwise as `Ident` of its normalised text |
| SrcLexerProps.DeclarationKeywords | src/lexer/mod.rs:241-247 | `let`/`给` give `Let` and `fn`/`法则` give the function token, while `const` and `思想钢印` are ordinary identifiers here |
| SrcLexerProps.OperatorWords | src/lexer/mod.rs:244-246 | `以`, `前进`, `降维` give `Assign`, `Plus`, `Minus` |
| SrcLexerProps.WhileWords | src/lexer/mod.rs:253-258 | `while` and `面壁` give `While` |
| SrcLexerProps.LoopExitWords | src/lexer/mod.rs:256-260 | `break`/`破壁` give `Break` and `continue`/`延绪` give `Continue` |
| SrcLexerProps.BooleanWords | src/lexer/mod.rs:248-251 | both spellings of true and false give the boolean tokens |
| Parsing.TokAt | three_body_e2021/src/parser/mod.rs:74-77 | a token other than `Eof` can only come from inside the stream |
| Parsing.Walk | three_body_e2021/src/parser/mod.rs:74-77 | the lookahead becomes the current token; the cursor advances by one inside the stream and never moves back; the errors are unchanged |
| Parsing.Expected | three_body_e2021/src/parser/mod.rs:100-105 | the cursor stays; exactly one `UnexpectedToken` naming the wanted token and the lookahead is appended |
| Parsing.NoPrefix | three_body_e2021/src/parser/mod.rs:111-116 | the cursor stays; exactly one `UnexpectedToken` without a wanted token, carrying the lookahead, is appended |
| Parsing.SkipSemicolon | three_body_e2021/src/parser/mod.rs:146-148 | a lookahead `;` is consumed and nothing else moves; without one the state is unchanged |
| Parsing.Kept | three_body_e2021/src/parser/mod.rs:43-46 | a statement the production returned is kept and a missing one is dropped |
| Parsing.ProgramLoop | three_body_e2021/src/parser/mod.rs:38-50 | the loop stops on a current `Eof`, keeping every statement collected so far, and never moves back or drops an error |
| Parsing.Parse | three_body_e2021/src/parser/mod.rs:24-50 | parsing a token stream from a fresh parser ends with the cursor inside the stream |
| Parsing.ParseStmt | three_body_e2021/src/parser/mod.rs:53-67 | statement dispatch never moves the cursor back and never drops a recorded error |
| Parsing.ParseDeclaration | three_body_e2021/src/parser/mod.rs:125-184 | `let` and `const` never move the cursor back and never drop a recorded error |
| Parsing.ParseReassign | three_body_e2021/src/parser/mod.rs:187-210 | reassignment never moves the cursor back and never drops a recorded error |
| Parsing.ParseReturn | three_body_e2021/src/parser/mod.rs:317-330 | `return` never moves the cursor back and never drops a recorded error |
| Parsing.ParseLoopControl | three_body_e2021/src/parser/mod.rs:295-314 | `break` and `continue` always yield the statement and record no error |
| Parsing.ParseExprStmt | three_body_e2021/src/parser/mod.rs:358-369 | an expression statement never moves the cursor back and never drops a recorded error |
| Parsing.ParseExpr | three_body_e2021/src/parser/mod.rs:372-429 | the Pratt parser never moves the cursor back and never drops a recorded error |
| Parsing.ParseOperand | three_body_e2021/src/parser/mod.rs:375-392 | the prefix dispatch never moves the cursor back and never drops a recorded error |
| Parsing.ExprLoop | three_body_e2021/src/parser/mod.rs:396-425 | the Pratt loop never moves the cursor back and never drops a recorded error |
| Parsing.ParseSuffix | three_body_e2021/src/parser/mod.rs:407-420 | the infix, index, dot and call dispatch never moves the cursor back and never drops a recorded error |
| Parsing.ParseInfix | three_body_e2021/src/parser/mod.rs:565-586 | an infix expression never moves the cursor back and never drops a recorded error |
| Parsing.ParseIndex | three_body_e2021/src/parser/mod.rs:589-604 | an index expression never moves the cursor back and never drops a recorded error |
| Parsing.ParseDotIndex | three_body_e2021/src/parser/mod.rs:607-620 | a dot index never moves the cursor back and records no error |
| Parsing.ParseCall | three_body_e2021/src/parser/mod.rs:701-711 | a call never moves the cursor back and never drops a recorded error |
| Parsing.ParseGrouped | three_body_e2021/src/parser/mod.rs:623-634 | a grouped expression never moves the cursor back and never drops a recorded error |
| Parsing.ParsePrefix | three_body_e2021/src/parser/mod.rs:550-562 | a prefix expression never moves the cursor back and never drops a recorded error |
| Parsing.ParseCondition | three_body_e2021/src/parser/mod.rs:218-235 | the `(cond) {` head never moves back, and when it yields a condition the current token is `{` |
| Parsing.ParseIf | three_body_e2021/src/parser/mod.rs:218-260 | `if` with its optional `else` never moves the cursor back and never drops a recorded error |
| Parsing.ParseWhile | three_body_e2021/src/parser/mod.rs:263-292 | `while` never moves the cursor back and never drops a recorded error |
| Parsing.ParseBlock | three_body_e2021/src/parser/mod.rs:332-350 | a block never moves the cursor back and never drops a recorded error |
| Parsing.BlockLoop | three_body_e2021/src/parser/mod.rs:336-349 | the block loop keeps every statement collected so far and ends either on `}` or on `Eof` with a last error saying `}` was wanted; it never moves back or drops an error |
| Parsing.ParseFunction | three_body_e2021/src/parser/mod.rs:642-664 | a function literal never moves the cursor back and never drops a recorded error |
| Parsing.FunctionArgs | three_body_e2021/src/parser/mod.rs:667-699 | the parameter list never moves the cursor back and never drops a recorded error |
| Parsing.ArgsLoop | three_body_e2021/src/parser/mod.rs:681-691 | the `, name` loop never moves the cursor back and never drops a recorded error |
| Parsing.ParseArray | three_body_e2021/src/parser/mod.rs:461-464 | an array literal never moves the cursor back and never drops a recorded error |
| Parsing.ExprList | three_body_e2021/src/parser/mod.rs:511-547 | a lookahead closer gives `[]` at once; a list that is returned has the closer as current token; the cursor never moves back and no error is dropped |
| Parsing.ListLoop | three_body_e2021/src/parser/mod.rs:530-546 | a returned list extends the elements collected so far and ends on the closer; a lookahead that is neither `,` nor the closer records exactly the error that the closer was wanted |
| Parsing.ParseHash | three_body_e2021/src/parser/mod.rs:467-508 | a hash literal never moves the cursor back and never drops a recorded error |
| Parsing.HashLoop | three_body_e2021/src/parser/mod.rs:470-499 | the pair loop never moves back, and when it yields pairs the lookahead is `}` |
| Parsing.HashPair | three_body_e2021/src/parser/mod.rs:471-493 | one `key: value` pair always moves the cursor forward and never drops a recorded error |
| E2021Parser.Parser.constructor | three_body_e2021/src/parser/mod.rs:24-36 | a new parser holds the first two tokens, with the cursor at 0 and no errors |
| E2021Parser.Parser.WalkToken | three_body_e2021/src/parser/mod.rs:74-77 | the token fields and cursor move as `Walk` says |
| E2021Parser.Parser.ErrorNextToken | three_body_e2021/src/parser/mod.rs:100-105 | the parser records the error `Expected` describes |
| E2021Parser.Parser.ErrorNoPrefixParser | three_body_e2021/src/parser/mod.rs:111-116 | the parser records the error `NoPrefix` describes |
| E2021Parser.Parser.Parse | three_body_e2021/src/parser/mod.rs:38-50 | the program, the final cursor and the errors are those of `ProgramLoop` |
| E2021Parser.Parser.ParseStmt | three_body_e2021/src/parser/mod.rs:53-67 | the statement and the new parser state are those of `Parsing.ParseStmt` |
| E2021Parser.Parser.ParseDeclaration | three_body_e2021/src/parser/mod.rs:125-184 | the statement and the new state are those of `Parsing.ParseDeclaration` |
| E2021Parser.Parser.ParseReassignStmt | three_body_e2021/src/parser/mod.rs:187-210 | the statement and the new state are those of `ParseReassign` |
| E2021Parser.Parser.ParseReturnStmt | three_body_e2021/src/parser/mod.rs:317-330 | the statement and the new state are those of `ParseReturn` |
| E2021Parser.Parser.ParseLoopControl | three_body_e2021/src/parser/mod.rs:295-314 | the statement and the new state are those of `Parsing.ParseLoopControl` |
| E2021Parser.Parser.ParseExprStmt | three_body_e2021/src/parser/mod.rs:358-369 | the statement and the new state are those of `Parsing.ParseExprStmt` |
| E2021Parser.Parser.ParseExpr | three_body_e2021/src/parser/mod.rs:372-429 | the expression and the new state are those of `Parsing.ParseExpr` |
| E2021Parser.Parser.ParseSuffix | three_body_e2021/src/parser/mod.rs:407-420 | the expression and the new state are those of `Parsing.ParseSuffix` |
| E2021Parser.Parser.ParseOperand | three_body_e2021/src/parser/mod.rs:375-392 | the expression and the new state are those of `Parsing.ParseOperand` |
| E2021Parser.Parser.ParseInfixExpr | three_body_e2021/src/parser/mod.rs:565-586 | the expression and the new state are those of `ParseInfix` |
| E2021Parser.Parser.ParseIndexExpr | three_body_e2021/src/parser/mod.rs:589-604 | the expression and the new state are those of `ParseIndex` |
| E2021Parser.Parser.ParseDotIndexExpr | three_body_e2021/src/parser/mod.rs:607-620 | the expression and the new state are those of `ParseDotIndex` |
| E2021Parser.Parser.ParseCallExpr | three_body_e2021/src/parser/mod.rs:701-711 | the expression and the new state are those of `ParseCall` |
| E2021Parser.Parser.ParseGroupedExpr | three_body_e2021/src/parser/mod.rs:623-634 | the expression and the new state are those of `ParseGrouped` |
| E2021Parser.Parser.ParsePrefixExpr | three_body_e2021/src/parser/mod.rs:550-562 | the expression and the new state are those of `ParsePrefix` |
| E2021Parser.Parser.ParseCondition | three_body_e2021/src/parser/mod.rs:218-235 | the condition and the new state are those of `Parsing.ParseCondition` |
| E2021Parser.Parser.ParseIfExpr | three_body_e2021/src/parser/mod.rs:218-260 | the expression and the new state are those of `ParseIf` |
| E2021Parser.Parser.ParseWhileExpr | three_body_e2021/src/parser/mod.rs:263-292 | the expression and the new state are those of `ParseWhile` |
| E2021Parser.Parser.ParseBlockStmt | three_body_e2021/src/parser/mod.rs:332-350 | the block and the new state are those of `ParseBlock` |
| E2021Parser.Parser.ParseFunctionExpr | three_body_e2021/src/parser/mod.rs:642-664 | the expression and the new state are those of `ParseFunction` |
| E2021Parser.Parser.ParseFunctionArgs | three_body_e2021/src/parser/mod.rs:667-699 | the parameters and the new state are those of `FunctionArgs` |
| E2021Parser.Parser.ParseArrayExpr | three_body_e2021/src/parser/mod.rs:461-464 | the expression and the new state are those of `ParseArray` |
| E2021Parser.Parser.ParseExprList | three_body_e2021/src/parser/mod.rs:511-547 | the list and the new state are those of `ExprList` |
| E2021Parser.Parser.ParseHashExpr | three_body_e2021/src/parser/mod.rs:467-508 | the expression and the new state are those of `ParseHash` |
| E2021Parser.Parser.ParseHashPair | three_body_e2021/src/parser/mod.rs:471-493 | the pair and the new state are those of `HashPair` |
| ParsingProps.InfixPrecedenceRange | three_body_e2021/src/parser/mod.rs:718-730 | every infix operator's precedence lies strictly between `Lowest` and `Prefix`, and `;` is no infix operator |
| ParsingProps.AtomStops | three_body_e2021/src/parser/mod.rs:396-399 | an operand followed by a token that does not bind tighter than the current precedence is the whole expression, and nothing is consumed |
| ParsingProps.InfixFold | three_body_e2021/src/parser/mod.rs:396-425 | one round of the Pratt loop parses the right side at the operator's own precedence and continues with the folded operand |
| ParsingProps.ThreeOperands | three_body_e2021/src/parser/mod.rs:1403-1451 | `a o1 b o2 c` groups to the right exactly when `o2` binds tighter than `o1`, else to the left (so operators of equal precedence are left-associative) |
| ParsingProps.PrefixThenInfix | three_body_e2021/src/parser/mod.rs:1382 | a prefix operator takes only the operand after it: `-a * b` is `(-a) * b` |
| ParsingProps.NestedPrefix | three_body_e2021/src/parser/mod.rs:1393 | prefix operators nest: `!-a` is `!(-a)` |
| ParsingProps.DotIndexIsStringIndex | three_body_e2021/src/parser/mod.rs:1109-1123 | `a.b` parses as `a["b"]` |
| ParsingProps.ReassignStatement | three_body_e2021/src/parser/mod.rs:890-912 | `x = e` is a reassignment, with the trailing `;` consumed only when present |
| ParsingProps.BlankStatement | three_body_e2021/src/parser/mod.rs:53-67 | a `Blank` token is a statement of its own and consumes nothing |
| ParsingProps.ProgramLoopAppends | three_body_e2021/src/parser/mod.rs:38-50 | the program lists the statements in source order: starting with collected statements is the same as appending them in front |
| ParsingProps.BlockLoopAppends | three_body_e2021/src/parser/mod.rs:332-350 | the same append property for the statements of a block |
| ParsingProps.CallMissingParen | three_body_e2021/src/parser/mod.rs:1964-1972 | `add(3, 4, 5` yields no statement and one error saying `)` was wanted where `Eof` was found |
| ParsingProps.ArrayTrailingComma | three_body_e2021/src/parser/mod.rs:1942-1950 | `[3,4,5,` fails with one error saying an identifier was wanted where `Eof` was found |
| ParsingProps.WhileBlockAtEof | three_body_e2021/src/parser/mod.rs:1931-1938 | `while (a) { c = 1` keeps the loop with its one statement and records that `}` was wanted |
| Objects.Shown | interpreter/src/evaluator/object.rs:47-56 | the element renderings of an array, one per element |
| Objects.ShownEntries | interpreter/src/evaluator/object.rs:58-67 | the `key: value` renderings of a hash, one per entry |
| Objects.Names | interpreter/src/evaluator/object.rs:69-78 | the parameter names of a function, one per parameter |
| Objects.JoinSnoc | interpreter/src/evaluator/object.rs:49-55 | one more part adds `, part` to a non-empty join, and just the part to an empty one |
| Objects.BuiltIsJoin | interpreter/src/evaluator/object.rs:48-56 | after any number of rounds the rendering loop's text is the `, `-join of the parts seen so far |
| Objects.BuiltAll | interpreter/src/evaluator/object.rs:48-56 | the finished rendering loop yields the `, `-join of all parts |
| Objects.ArrayRendering | interpreter/src/evaluator/object.rs:47-57 | an array renders as its elements joined by `, ` in brackets, `[]` when empty |
| Objects.HashRendering | interpreter/src/evaluator/object.rs:58-68 | a hash renders its `key: value` pairs joined by `, ` in braces, in entry order |
| Objects.SingleEntryHash | interpreter/src/evaluator/object.rs:135-141 | a one-entry hash renders `{k: v}` |
| Objects.FunctionRendering | src/evaluator/object.rs:59-69 | a function (`Func` here, `Function` in the `interpreter` module) renders as `fn(` its parameter names joined by `, ` `) { ... }`, whatever its body and environment |
| Objects.TwoEntryHash | src/evaluator/object.rs:48-57 | a hash renders its two entries in the order the map yields them, separated by `, `, in braces |
| Objects.TwoEntryHashRendering | src/evaluator/object.rs:121-128 | the two-entry hash of the older tests renders `{"foo": 42, "bar": 1337}` when the map yields `foo` first |
| Objects.ScalarRenderings | interpreter/src/evaluator/object.rs:44-46 | integers render in decimal (with a sign when negative) and booleans as `true`/`false` |
| Objects.FixedRenderings | interpreter/src/evaluator/object.rs:45-85 | a string renders through `escape_str`; builtins, `null`, the loop signals, errors and return values render with their fixed text |
| Objects.ArrayTestRendering | interpreter/src/evaluator/object.rs:128-132 | `[1, 2, 3]` renders as the array test expects |
| Objects.FunctionTestRendering | interpreter/src/evaluator/object.rs:143-151 | `fn(x, y) { ... }` renders as the function test expects |
| Objects.ReturnTestRendering | interpreter/src/evaluator/object.rs:177-181 | `ReturnValue(42)` renders as the return-value test expects |
| Objects.Cut | interpreter/src/evaluator/object.rs:69-78 | the first comma of a rendering lies inside it |
| Objects.CutAfter | interpreter/src/evaluator/object.rs:69-78 | a comma-free prefix shifts the first comma by its length |
| Objects.SplitJoin | interpreter/src/evaluator/object.rs:69-78 | splitting the `, `-join of identifier names at the commas gives the names back |
| Objects.JoinInjective | interpreter/src/evaluator/object.rs:69-78 | two lists of identifier names render alike exactly when they are equal |
| Objects.ScalarHashExact | interpreter/src/evaluator/object.rs:93-100 | two Int, Bool or String values feed the hasher the same data exactly when they are equal |
| Objects.SharedBucket | src/evaluator/object.rs:82-91 | in both object modules, every value other than an Int, a Bool or a String feeds the hasher what the empty string does |
| Objects.Insert | interpreter/src/evaluator/mod.rs:539 | an insert keeps the entry count or adds one |
| Objects.LookupFinds | interpreter/src/evaluator/mod.rs:500-503 | a key is found exactly when some entry carries it |
| Objects.InsertLookup | interpreter/src/evaluator/mod.rs:539 | after an insert the key maps to the new value and every other key reads as before |
| Objects.Keys | interpreter/src/evaluator/mod.rs:539 | one key per entry |
| Objects.InsertKeys | interpreter/src/evaluator/mod.rs:539 | an insert leaves the keys alone when the key is present and appends it otherwise |
| Objects.InsertDistinct | interpreter/src/evaluator/mod.rs:525-543 | inserting keeps the keys pairwise distinct |
| Builtins.InterpreterRegistry | interpreter/src/evaluator/builtins.rs:10-33 | the `interpreter` registry binds the five list builtins at their arities and deep-equal at arity 2, has no `import`, and binds only builtins |
| Builtins.E2021Registry | three_body_e2021/src/evaluator/builtins.rs:21-45 | the `three_body_e2021` registry binds the list builtins and `import` at arity 1, has no deep-equal, and binds only builtins |
| Builtins.SrcRegistry | src/evaluator/builtins.rs:18-33 | the `src` registry binds the list builtins and one import function under both `import` and `引入`, has no deep-equal, and binds only builtins |
| Builtins.ListBuiltinsOf | interpreter/src/evaluator/builtins.rs:10-91 | a registry binding the list builtins gives, on an array, its length, its ends or Null, its tail or Null, the appended copy; `first` and `len` reject non-arrays with their messages |
| Builtins.E2021ListBuiltins | three_body_e2021/src/evaluator/builtins.rs:48-107 | the `three_body_e2021` registry's `first`, `last`, `rest` and `push` give the ends or Null, the tail or Null, and the appended copy |
| Builtins.SrcListBuiltins | src/evaluator/builtins.rs:35-91 | the `src` registry's `first`, `last`, `rest` and `push` give the ends or Null, the tail or Null, and the appended copy |
| Builtins.Utf8Width | interpreter/src/evaluator/builtins.rs:37 | a char takes one to four UTF-8 bytes |
| Builtins.Utf8Length | interpreter/src/evaluator/builtins.rs:37 | a string's UTF-8 length is between its char count and four times it |
| Builtins.Utf8LengthAppend | interpreter/src/evaluator/builtins.rs:37 | the UTF-8 length of a concatenation is the sum of the lengths |
| Builtins.AsciiLength | interpreter/src/evaluator/builtins.rs:37 | for ASCII text the byte length is the char count |
| Builtins.LengthAsI64 | interpreter/src/evaluator/builtins.rs:37-38 | `usize as i64` keeps every length up to the largest i64 |
| Builtins.LenResult | interpreter/src/evaluator/builtins.rs:35-41 | `len` gives the byte length of a string and the element count of an array, and the "not supported" error for any other value |
| Builtins.FirstLastResult | interpreter/src/evaluator/builtins.rs:43-67 | `first` and `last` give the ends of a non-empty array (the same element when there is one), Null for `[]`, and the "must be array" error otherwise |
| Builtins.RestResult | interpreter/src/evaluator/builtins.rs:69-80 | `rest` drops the first element, `[x]` gives `[]`, and `[]` gives Null |
| Builtins.FirstRestSplit | interpreter/src/evaluator/builtins.rs:43-80 | `first` and `rest` of a non-empty array put back together give the array |
| Builtins.PushResult | interpreter/src/evaluator/builtins.rs:82-91 | `push` appends the value, so the array grows by one, its last element is the value and its first is unchanged |
| Builtins.PushRejects | interpreter/src/evaluator/builtins.rs:89 | `push` onto a non-array gives the "must be array" error without reading the value |
| Builtins.DeepEqualIsEquivalence | interpreter/src/evaluator/builtins.rs:132-138 | deep-equal is reflexive and symmetric |
| Builtins.DeepEqualCallables | interpreter/src/evaluator/builtins.rs:132-138 | any two builtins are deep-equal, two functions are deep-equal exactly when their parameter names are, and a builtin never equals a function |
| Environment.SetBinds | interpreter/src/evaluator/env.rs:50-52 | `set` binds the name to the value, leaves every other binding as it was, and changes no constant flag |
| Environment.MarkConstantMarks | interpreter/src/evaluator/env.rs:84-101 | `constant` makes the name constant, leaves the other names' flags and all bindings alone, and nothing is constant in an empty scope |
| Environment.Update | interpreter/src/evaluator/env.rs:54-70 | `update` keeps the number of scopes in the chain |
| Environment.GetInnermost | interpreter/src/evaluator/env.rs:72-80 | `get` finds nothing exactly when no scope binds the name, and otherwise the binding of the innermost scope that has it |
| Environment.UpdateOutcome | interpreter/src/evaluator/env.rs:54-70 | `update` reports `NoIdentifier` exactly when `get` finds nothing and `ConstantForbidden` exactly when the innermost binding is constant; a failed update changes nothing |
| Environment.UpdateThenGet | interpreter/src/evaluator/env.rs:54-70 | after a successful update `get` of the name gives the new value, every other name reads as before, and no constant flag changes |
| Environment.OuterOf | interpreter/src/evaluator/env.rs:42-48 | a frame's outer frame comes before it in the store, so every chain is finite |
| Environment.ChainAt | interpreter/src/evaluator/env.rs:15 | the chain seen from a frame starts with that frame's own scope |
| Environment.StoreUpdate | interpreter/src/evaluator/env.rs:54-70 | an update through the store keeps its size and every outer link, and does not touch frames after the starting one |
| Environment.ChainBelow | interpreter/src/evaluator/env.rs:42-48 | frames added or changed after frame `i` do not change what frame `i` sees |
| Environment.StoreGetIsGet | interpreter/src/evaluator/env.rs:72-80 | a lookup through the store is `get` on the frame's chain |
| Environment.StoreUpdateIsUpdate | interpreter/src/evaluator/env.rs:54-70 | an update through the store reports what `update` on the frame's chain reports and leaves that chain as `update` does |
| InterpreterEnv.Env.Chain | interpreter/src/evaluator/env.rs:12-16 | a frame's chain has one scope per frame, its own first |
| InterpreterEnv.Env.constructor | interpreter/src/evaluator/env.rs:26-32 | `Env::new()` has no bindings, no constants and no outer frame |
| InterpreterEnv.Env.From | interpreter/src/evaluator/env.rs:34-40 | `Env::from(m)` binds exactly `m`, with no constants and no outer frame |
| InterpreterEnv.Env.WithOuter | interpreter/src/evaluator/env.rs:42-48 | `Env::new_with_outer(o)` is an empty frame in front of `o`'s chain |
| InterpreterEnv.Env.Set | interpreter/src/evaluator/env.rs:50-52 | `set` changes this frame's scope as `Environment.Set` does and no other frame |
| InterpreterEnv.Env.Constant | interpreter/src/evaluator/env.rs:84-94 | `constant` changes this frame's flags as `Environment.MarkConstant` does and no other frame |
| InterpreterEnv.Env.IsConstant | interpreter/src/evaluator/env.rs:96-101 | `is_constant` answers as `Environment.IsConstant` on this frame's scope |
| InterpreterEnv.Env.Get | interpreter/src/evaluator/env.rs:72-80 | `get` answers as `Environment.Get` on the frame's chain |
| InterpreterEnv.Env.Update | interpreter/src/evaluator/env.rs:54-70 | `update` reports and changes the chain as `Environment.Update` does |
| InterpreterEnv.ShadowingExample | interpreter/src/evaluator/env.rs:42-80 | a name set in an inner frame shadows the outer binding, which stays as it was |
| InterpreterEnv.OuterUpdateExample | interpreter/src/evaluator/env.rs:54-70 | an update through an inner frame changes the outer frame's binding, and a constant refuses the update |
| SrcEnv.Env.Chain | src/evaluator/env.rs:7-10 | a frame's chain has one scope per frame, its own first, with no constants |
| SrcEnv.Env.constructor | src/evaluator/env.rs:13-18 | `Env::new()` is an empty store without an outer frame |
| SrcEnv.Env.From | src/evaluator/env.rs:20-22 | `Env::from(m)` holds exactly `m`, without an outer frame |
| SrcEnv.Env.WithOuter | src/evaluator/env.rs:24-29 | `Env::new_with_outer(o)` is an empty store in front of `o`'s chain |
| SrcEnv.Env.Get | src/evaluator/env.rs:31-39 | `get` answers as `Environment.Get` on the frame's chain |
| SrcEnv.Env.Set | src/evaluator/env.rs:41-43 | `set` changes this frame's store only |
| SrcEnv.SetGetExample | src/evaluator/env.rs:24-43 | a name set in an inner frame is found there, an outer name is found through it, and the outer frame does not see the inner name |
| Evaluation.LengthAsI32 | interpreter/src/evaluator/mod.rs:407 | `usize as i32` keeps every argument count below 2^31 |
| Evaluation.Declare | interpreter/src/evaluator/mod.rs:40-92 | `let` and `const` never add or remove a frame |
| Evaluation.Reassign | interpreter/src/evaluator/mod.rs:103-124 | reassignment never adds or removes a frame |
| Evaluation.Eval | interpreter/src/evaluator/mod.rs:22-36 | running a program only ever adds frames to the store, never removes one |
| Evaluation.ProgramFrom | interpreter/src/evaluator/mod.rs:25-35 | the statement loop of `eval` only ever adds frames |
| Evaluation.EvalStmt | interpreter/src/evaluator/mod.rs:38-127 | a statement only ever adds frames |
| Evaluation.EvalExpr | interpreter/src/evaluator/mod.rs:267-306 | an expression only ever adds frames |
| Evaluation.EvalLiteral | interpreter/src/evaluator/mod.rs:464-473 | a literal only ever adds frames |
| Evaluation.EvalList | interpreter/src/evaluator/mod.rs:480-487 | evaluating a list yields one value per expression and only ever adds frames |
| Evaluation.HashFrom | interpreter/src/evaluator/mod.rs:525-543 | a hash literal only ever adds frames |
| Evaluation.WhileLoop | interpreter/src/evaluator/mod.rs:179-209 | a `while` loop only ever adds frames |
| Evaluation.LoopBlockFrom | interpreter/src/evaluator/mod.rs:212-240 | a loop body only ever adds frames |
| Evaluation.BlockFrom | interpreter/src/evaluator/mod.rs:243-262 | a block only ever adds frames |
| Evaluation.EvalCall | interpreter/src/evaluator/mod.rs:398-448 | a call always yields a value (Null when the callee yields none) and only ever adds frames |
| Evaluator.Produced | interpreter/src/evaluator/mod.rs:406-408 | a builtin's result, or its panic, becomes the call's outcome unchanged |
| Evaluator.Evaluator.constructor | interpreter/src/evaluator/mod.rs:18-20 | `Evaluator::new(env)` starts in one frame holding the globals |
| Evaluator.Evaluator.Get | interpreter/src/evaluator/mod.rs:455-462 | a lookup from the current frame answers as `Environment.StoreGet` |
| Evaluator.Evaluator.Update | interpreter/src/evaluator/mod.rs:103-124 | an update from the current frame reports and changes the store as `Environment.StoreUpdate` does, and a failed one changes nothing |
| Evaluator.Evaluator.Declare | interpreter/src/evaluator/mod.rs:40-92 | the binding half of `let` and `const` gives the outcome and store `Evaluation.Declare` gives |
| Evaluator.Evaluator.Eval | interpreter/src/evaluator/mod.rs:22-36 | `eval` gives the outcome and store `Evaluation.Eval` gives, staying in the same frame |
| Evaluator.Evaluator.EvalStmt | interpreter/src/evaluator/mod.rs:38-127 | `eval_stmt` gives the outcome and store `Evaluation.EvalStmt` gives |
| Evaluator.Evaluator.EvalExpr | interpreter/src/evaluator/mod.rs:267-306 | `eval_expr` gives the outcome and store `Evaluation.EvalExpr` gives |
| Evaluator.Evaluator.EvalOperands | interpreter/src/evaluator/mod.rs:274-291 | the infix and index cases give the outcome and store `Evaluation.EvalExpr` gives |
| Evaluator.Evaluator.EvalLiteral | interpreter/src/evaluator/mod.rs:464-473 | `eval_literal` gives the outcome and store `Evaluation.EvalExpr` gives |
| Evaluator.Evaluator.EvalList | interpreter/src/evaluator/mod.rs:480-487 | the element and argument loop gives the values and store `Evaluation.EvalList` gives |
| Evaluator.Evaluator.EvalHash | interpreter/src/evaluator/mod.rs:525-543 | `eval_hash_literal` gives the outcome and store `Evaluation.HashFrom` gives |
| Evaluator.Evaluator.EvalIf | interpreter/src/evaluator/mod.rs:158-176 | `eval_if_expr` gives the outcome and store `Evaluation.EvalExpr` gives |
| Evaluator.Evaluator.EvalWhile | interpreter/src/evaluator/mod.rs:179-209 | `eval_while_expr` gives the outcome and store `Evaluation.EvalExpr` gives |
| Evaluator.Evaluator.EvalLoopBlock | interpreter/src/evaluator/mod.rs:212-240 | the loop-body block gives the outcome and store `Evaluation.LoopBlockFrom` gives |
| Evaluator.Evaluator.EvalBlock | interpreter/src/evaluator/mod.rs:243-262 | `eval_block_stmt` gives the outcome and store `Evaluation.BlockFrom` gives |
| Evaluator.Evaluator.EvalCall | interpreter/src/evaluator/mod.rs:398-448 | `eval_call_expr` gives the outcome and store `Evaluation.EvalExpr` gives, and returns to the caller's frame |
| EvaluationProps.NotIsFalsity | interpreter/src/evaluator/mod.rs:316-323 | only Null and `false` are falsy, and `!x` is the negation of `x`'s truthiness |
| EvaluationProps.MinusRules | interpreter/src/evaluator/mod.rs:325-337 | `-` panics exactly on the smallest i64, otherwise negates and undoes itself; `+` is the identity on Int; any other operand is an "unknown operator" error |
| EvaluationProps.IntArithmetic | interpreter/src/evaluator/mod.rs:364-372 | `+`, `-` and `*` are exact when the result fits in an i64 and panic otherwise; `/` panics on zero and on MIN/-1 and otherwise truncates toward zero |
| EvaluationProps.IntComparisons | interpreter/src/evaluator/mod.rs:373-378 | the six comparisons give the Bool the comparison of the two numbers gives |
| EvaluationProps.InfixDispatch | interpreter/src/evaluator/mod.rs:339-390 | two Ints use integer arithmetic, two Strings only concatenate, a mixed pair is a type mismatch, any other left operand is an unknown operator, and only integer arithmetic panics |
| EvaluationProps.BoolsDoNotCompare | interpreter/src/evaluator/mod.rs:339-362 | `true == true` and every other Bool comparison is an error |
| EvaluationProps.ArrayIndexRule | interpreter/src/evaluator/mod.rs:512-523 | an array index gives the element exactly when it lies in `[0, len)`, and Null otherwise (`len` included) |
| EvaluationProps.HashIndexRule | interpreter/src/evaluator/mod.rs:489-510 | indexing a hash finds the value last inserted under an equal key, other keys are unaffected, a missing key gives Null, an Error index is passed on, other indices are unusable, and a non-Int array index is not supported |
| EvaluationProps.IndexOtherBases | interpreter/src/evaluator/mod.rs:508 | indexing anything but an array or a hash is the "uknown operator" error showing both values |
| EvaluationProps.HashLiteralDistinct | interpreter/src/evaluator/mod.rs:525-543 | a hash literal's entries have pairwise distinct keys |
| EvaluationProps.ProgramStep | interpreter/src/evaluator/mod.rs:22-36 | `Blank` is skipped, a return value ends the program with what it wraps, an error ends it, and anything else becomes the result so far |
| EvaluationProps.ProgramShift | interpreter/src/evaluator/mod.rs:25-35 | running the statements after the first of `[s] + rest` is running `rest` |
| EvaluationProps.BreakEndsOnlyLoopBodies | interpreter/src/evaluator/mod.rs:212-262 | `break` and `continue` end a loop body with their signal, while a plain block takes them as values and goes on |
| EvaluationProps.BlockShift | interpreter/src/evaluator/mod.rs:243-262 | running the statements after the first of `[s] + rest` in a block is running `rest` |
| EvaluationProps.DeclareFresh | interpreter/src/evaluator/mod.rs:40-92 | `let` or `const` of a name the frame does not hold binds it there (constant for `const`), has no value, and changes no other frame and no other name |
| EvaluationProps.StoreBelow | interpreter/src/evaluator/mod.rs:455-462 | frames added after frame `i` do not change what a lookup from `i` finds |
| EvaluationProps.DeclareTaken | interpreter/src/evaluator/mod.rs:50-84 | re-declaring a name the frame holds is refused with the "redeclare" message for a variable or a constant, and changes nothing |
| EvaluationProps.BindingPassesErrors | interpreter/src/evaluator/mod.rs:40-110 | `let`, `const` and reassignment pass an error value on unbound, and a missing value stays missing |
| EvaluationProps.ReassignMeaning | interpreter/src/evaluator/mod.rs:103-124 | reassignment reports "No identifier" exactly when no frame outwards binds the name, and "constant" exactly when the innermost binding is constant, changing nothing then; otherwise the name reads as the new value |
| EvaluationProps.ConstantStaysConstant | interpreter/src/evaluator/mod.rs:113-116 | a constant binding refuses every reassignment and the store is unchanged |
| EvaluationProps.IfWithoutElse | interpreter/src/evaluator/mod.rs:158-176 | a falsy `if` without `else` has no value at all, not Null |
| EvaluationProps.WhileRound | interpreter/src/evaluator/mod.rs:179-209 | one round with a true condition: `break` ends with Null, a return value leaves the loop, `continue` tests again with result Null, and an error tests again |
| EvaluationProps.WhileNeverEntered | interpreter/src/evaluator/mod.rs:179-209 | a loop whose condition is falsy at once has no value and never runs its body |
| EvaluationProps.ArgumentsFirst | interpreter/src/evaluator/mod.rs:399-404 | the arguments are evaluated first: when one panics the callee is never evaluated |
| EvaluationProps.CallFrameChain | interpreter/src/evaluator/mod.rs:429-435 | the call's new frame sees its own scope and then exactly the captured frame's chain, and older frames see what they saw |
| EvaluationProps.CallRunsBodyOverCapturedFrame | interpreter/src/evaluator/mod.rs:429-447 | a call with the right argument count runs the body in a new frame over the captured one; a return value is unwrapped and no value becomes Null |
| EvaluationProps.CallArity | interpreter/src/evaluator/mod.rs:406-427 | a wrong argument count is an error naming both counts (builtins with a negative arity accept any), and a callee that is not callable is "not valid function" |
| EvaluationProps.BindParamsDomain | interpreter/src/evaluator/mod.rs:431-435 | binding the parameters adds exactly the parameter names and marks nothing constant |
| EvaluationProps.BindParamsValues | interpreter/src/evaluator/mod.rs:431-435 | each parameter name holds the argument at its last position, and other names keep their values |
| EvaluationExamples.LetThenRead | interpreter/src/evaluator/mod.rs:813-816 | `let a = 5; a;` gives 5 |
| EvaluationExamples.ReturnEndsProgram | interpreter/src/evaluator/mod.rs:789-795 | `9; return 2 * 5; 9;` gives 10 |
| EvaluationExamples.LetRedeclared | interpreter/src/evaluator/mod.rs:822-826 | `let a = 5; let a = 1;` gives the "Can not redeclare variable a!" error |
| EvaluationExamples.ConstantRefusals | interpreter/src/evaluator/mod.rs:833-844 | `const a = 5; a = 3;` and `const a = 5; let a = 3;` give the two constant errors |
| EvaluationExamples.AssignThenRead | interpreter/src/evaluator/mod.rs:857-858 | `let a = 5; a = 3; a` gives 3 |
| EvaluationExamples.IfFalseHasNoValue | interpreter/src/evaluator/mod.rs:756-759 | `if (false) { 10 }` has no value |
| EvaluationExamples.ImmediateCall | interpreter/src/evaluator/mod.rs:912-934 | `fn(x) { x; }(5)` gives 5 |
| EvaluationExamples.NewAdderCall | interpreter/src/evaluator/mod.rs:947-954 | `newAdder(2)` returns a function over the call's frame, where `x` is 2 |
| EvaluationExamples.AddTwoCall | interpreter/src/evaluator/mod.rs:947-955 | `addTwo(2)` reads `x` from its captured frame and gives 4 |
| EvaluationExamples.ClosureCapturesArgument | interpreter/src/evaluator/mod.rs:946-958 | the closure test program gives 4 |
| EvaluationExamples.MakerCall | interpreter/src/evaluator/mod.rs:1214-1219 | `adder()` binds `x` to 1 in its frame and returns a function over that frame |
| EvaluationExamples.CounterCall | interpreter/src/evaluator/mod.rs:1216 | `f()` adds one to the `x` of its captured frame and returns the new value |
| EvaluationExamples.CountStep | interpreter/src/evaluator/mod.rs:1220-1223 | one `f();` statement counts once and the program goes on |
| EvaluationExamples.ClosureSharesFrame | interpreter/src/evaluator/mod.rs:1212-1226 | the four calls share one captured frame, so the last gives 5 |
| EvaluationExamples.WhileBodyRound | interpreter/src/evaluator/mod.rs:1201 | one round of the loop body assigns `a` and `cond` in the outer frame |
| EvaluationExamples.WhileAssignsOuter | interpreter/src/evaluator/mod.rs:1199-1202 | `let cond = true; let a = 5; while (cond) { a = 3; cond = false; } a;` gives 3 |

## Left out

- The REPL and command-line drivers (`src/bin/main.rs`, `src/bin/repl/mod.rs`, `src/bin/repl/helper.rs`, `three_body_e2021/src/bin/main.rs`) are not modelled. They do line editing, argument parsing, file reading and printing. `extract_word`, a completion helper over byte offsets, is part of them.
- The WASM entry points (`src/wasm/main.rs`) and the JavaScript front end (`web/src/js/*`) are not modelled. They are foreign-function glue and browser code.
- The side-effecting builtins are not modelled: `puts`, `clear`, `exit`, `sleep`, `random`, and `import`/`引入`, which reads a file and re-enters the evaluator. The registries bind them by name and arity. The evaluator receives their results from the `Host` parameter as an opaque function of the builtin and its arguments.
- `NativeObject` and the `Native` variant of the `interpreter` object module are not modelled. They wrap foreign handles behind feature flags. The type `Objects.Object` has no such variant.
- XID_Start, XID_Continue, NFC normalisation, string unescaping and `escape_str` are parameters, not tables. The properties of the `src` lexer's identifiers assume `XidNested`: every XID_Start character is an XID_Continue character, as Unicode Standard Annex #31 guarantees.
- The iteration order of the source's `HashMap` is unspecified. A hash is modelled as a list of entries with distinct keys, kept in insertion order. Only the rendering of a hash with at most one entry is promised (`Objects.SingleEntryHash`).
- Objects.Lookup, Objects.Insert: a key that is itself a hash is compared by its entry list, so two hash keys with the same entries in a different order are different keys in the model. The source compares `HashMap` keys as maps, whatever their order, so `{ {1: 1, 2: 2}: "a", {2: 2, 1: 1}: "b" }` keeps one entry in the source and two in the model. The same holds for a hash nested inside an array key.
- A function value stores the index of the frame it captured. The source compares the captured `Rc` environment, so two closures over equal but distinct frames may compare differently in the model.
- The evaluator's frame store only grows: a frame that no function still captures is never reclaimed. The source frees it when its last `Rc` is dropped. This changes no observable value.
- Calls and `while` iterations consume a `fuel` argument. A program that has not finished when the fuel runs out ends with `Panic(FuelExhausted)`. The source would run it forever, or until its stack overflows.
- Integer overflow, division by zero, `todo!()` arms and `unwrap()` on `None` end the run with a `Panic` outcome, as a debug build panics. Release-build wrap-around is not modelled.
- The `three_body_e2021` lexer never returns on an unterminated string: its loop does not stop at the end of the input. The model reports this as `Stuck(UnterminatedString)`. The lexer methods require a position from which a token is produced.
- The parser reads a token sequence that has already been lexed, read as `Eof` past its end, instead of owning a lexer that it pulls from on demand. A NUL character inside the input lexes as `Eof`, in the model as in the source, and lexing then goes on after it; it is `parse` that stops at that `Eof` (`Parsing.ProgramLoop`). Because the model lexes the whole input first, a lexer fault more than one token after an interior NUL (an integer literal beyond `i64`, or an unterminated `three_body_e2021` string) makes `Tokenize` fail, although the source parser never asks for that token.
- The `src` lexer's token names are mapped onto the shared `Tokens.Token` datatype.
- The object module of `three_body_e2021` (`three_body_e2021/src/evaluator/object.rs`) is not part of this model. Its builtins are modelled over `Objects.Object`.
- `assert_next_token` is folded into each production that calls it.
- Conversions from `usize` lengths to `i64` are written out explicitly (`Builtins.LengthAsI64`).
- `len` counts UTF-8 bytes. The model computes the count from the code points of the string (`Builtins.Utf8Length`); it does not model an encoder.
- The `three_body_e2021` and `src` builtins share the `interpreter` definitions of `len`, `first`, `last`, `rest` and `push`, because the three are written alike.
- EvaluationProps.ArrayIndexRule: requires the array to have at most 2^63 - 1 elements, because no array that can exist in memory is longer.
