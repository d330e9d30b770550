# pylox front half in Dafny

A model of the first three stages of pylox, a Python tree-walking interpreter for Lox, and proofs about them:

- the scanner (`src/pylox/scanner.py`), which turns source text into tokens;
- the recursive-descent parser (`src/pylox/parser.py`), which turns tokens into statements and expression trees;
- the expression evaluator (`src/pylox/interpreter.py`);
- the expression tree and its Lisp-style printer `AstPrinter` (`src/pylox/expr.py`), and the two statement forms (`src/pylox/stmt.py`).

The scanner and the parser are imperative in Python: objects with cursor and token-list fields, and `while` loops. They are modelled as the classes `Scanning.Scanner` and `Parsing.Parser`, with the same fields. Each method is proved to leave the fields exactly as a pure function of the old state says:

- `TokenStep` is one call of `scan_token`, and `ScanFrom` is the loop of `scan_tokens`.
- `ParseBinary`, `ParseUnary`, `ParsePrimary`, `ParseStatement` and `ParseProgram` are one grammar rule each.

The properties are proved about those functions. The evaluator and the printer are pure in Python and are pure functions here.

Files, one module each:

| file | module | contents |
|---|---|---|
| wrappers.dfy | Wrappers | `Option`, `Result` (a value or a raised exception), `Outcome` |
| values.dfy | Values | runtime and literal values: nil, booleans, numbers (exact reals), strings |
| tokens.dfy | Tokens | `TokenType` (with `Exit`) and the immutable `Token` record of `src/pylox/token.py` |
| scanner.dfy | Scanning | `KEYWORDS`, the scanning functions, the `Scanner` class |
| scanner_lemmas.dfy | ScanningLemmas | token shape, EOF, line counting, source order, concrete scans |
| expr.dfy | Expressions | `Expr`, `AstPrinter`, properties of the printer |
| stmt.dfy | Statements | `Print` and `Expression` statements |
| parser.dfy | Parsing | the grammar functions, the `Parser` class |
| parser_lemmas.dfy | ParsingLemmas | what an expression parse accepts: parser normal form, both directions |
| parser_examples.dfy | ParsingExamples | associativity, precedence, the repository's parser test, statements |
| program_lemmas.dfy | ProgramLemmas | what `parse` returns or raises over a whole token list; where `synchronize` stops |
| interpreter.dfy | Interpreter | `visit_unary_expr`, `visit_binary_expr`, `evaluate` |
| interpreter_lemmas.dfy | InterpreterLemmas | equality, negation, evaluation order, parse-then-evaluate |

The main result about the parser is `ParsingLemmas.ExpressionParses`. `expression` returns the tree `e` and stops at `q` exactly when four things hold:

- `e` is in parser normal form (`Canonical`): binary operators chain to the left within a precedence level, and tighter levels nest on the right.
- The tokens from the cursor spell `e` (`Spells`).
- `q` is the position right after those tokens.
- The token at `q` is not a binary operator.

`ParsingExamples.StatementParses` lifts this to statements.

## Model

| member | source | states |
|---|---|---|
| Scanning.PeekNextAt | src/pylox/scanner.py:63-67 | `next_next` raises IndexError exactly when the cursor is on the last character; otherwise it is the character after the cursor, or `'\0'` |
| Scanning.KeywordType | src/pylox/scanner.py:5-23 | the `KEYWORDS` table with `.get(text, IDENTIFIER)` of line 94: each of the sixteen reserved words and `exit` to its own type, any other text to IDENTIFIER (definition; see ScanningLemmas.KeywordTypeNotLiteral) |
| Scanning.PeekAt | src/pylox/scanner.py:57-61 | the `next` property at a cursor: the character there, or `'\0'` at the end (definition) |
| Scanning.NextIsAt | src/pylox/scanner.py:49-55 | the test of `next_is`: false at the end, otherwise whether the character at the cursor is the expected one (definition; Scanner.NextIs consumes exactly then) |
| Scanning.AddTokenAt | src/pylox/scanner.py:43-47 | the step of `add_token`: one token with lexeme `source[start:current]` and the current line (definition; see ScanningLemmas.StepLexeme) |
| Scanning.ActionFor | src/pylox/scanner.py:99-153 | the case of `scan_token`'s `match` a character selects (definition; see ScanningLemmas.ActionClasses) |
| Scanning.Scan | src/pylox/scanner.py:155-162 | `scan_tokens` from a fresh scanner: cursor 0, line 1 (definition; see ScanningLemmas.ScanTokensShape) |
| Scanning.DigitsEnd | src/pylox/scanner.py:81-82 | the digit loop stops at the first non-digit or the end, and everything it passed is a digit |
| Scanning.IdentifierEnd | src/pylox/scanner.py:91-92 | the identifier loop stops at the first non-identifier character, and everything it passed is an identifier character |
| Scanning.CommentEnd | src/pylox/scanner.py:137-139 | the comment loop stops at the next newline, which it leaves unread, or at the end; it passes no newline |
| Scanning.StringStep | src/pylox/scanner.py:69-78 | the string step never moves the cursor back and never lowers the line |
| Scanning.StringStepInside | src/pylox/scanner.py:70-73 | (unfolding step, used in proofs) one loop turn: a newline is counted and consumed, then one more character is consumed, raising IndexError at the end |
| Scanning.NumberStep | src/pylox/scanner.py:80-88 | the number step consumes at least its first digit and does not change the line |
| Scanning.IdentifierStep | src/pylox/scanner.py:90-95 | the identifier step consumes at least its first character and does not change the line |
| Scanning.TokenStep | src/pylox/scanner.py:97-153 | one `scan_token` always consumes at least one character and never lowers the line |
| Scanning.ScanFrom | src/pylox/scanner.py:155-162 | the rest of `scan_tokens` never moves the cursor back or past the end |
| Scanning.ScanTokenAt | src/pylox/scanner.py:156-158 | one loop turn of `scan_tokens` consumes at least one character |
| Scanning.Scanner.constructor | src/pylox/scanner.py:27-32 | a new scanner has no tokens, `start = current = 0` and `line = 1` |
| Scanning.Scanner.IsAtEnd | src/pylox/scanner.py:38-40 | `is_at_end`: the cursor is at or past the end of the source (definition) |
| Scanning.Scanner.Next | src/pylox/scanner.py:34-37 | `__next__` returns the character under the cursor and advances, or raises IndexError at the end and stays |
| Scanning.Scanner.AddToken | src/pylox/scanner.py:43-47 | appends exactly one token: the given type and literal, the lexeme `source[start:current]`, the current line |
| Scanning.Scanner.NextIs | src/pylox/scanner.py:49-55 | consumes one character exactly when it is the expected one, and says whether it did |
| Scanning.Scanner.Peek | src/pylox/scanner.py:57-61 | the character under the cursor, or `'\0'` at the end |
| Scanning.Scanner.PeekNext | src/pylox/scanner.py:63-67 | the character after the cursor, with the same IndexError as `next_next` |
| Scanning.Scanner.ScanString | src/pylox/scanner.py:69-78 | the fields after `string` are those of `StringStep`: the token appended, or the error raised |
| Scanning.Scanner.StringTurn | src/pylox/scanner.py:71-73 | one turn of the string loop advances the cursor and leaves `StringStep`'s outcome unchanged, or raises IndexError as `StringStep` does |
| Scanning.Scanner.SkipDigits | src/pylox/scanner.py:81-82 | the digit loop leaves the cursor at `DigitsEnd` |
| Scanning.Scanner.ScanNumber | src/pylox/scanner.py:80-88 | the fields after `number` are those of `NumberStep` |
| Scanning.Scanner.ScanIdentifier | src/pylox/scanner.py:90-95 | the fields after `identifier` are those of `IdentifierStep` |
| Scanning.Scanner.SkipComment | src/pylox/scanner.py:137-139 | the comment loop leaves the cursor at `CommentEnd` |
| Scanning.Scanner.ScanToken | src/pylox/scanner.py:97-153 | the fields after `scan_token` are those of `TokenStep`: cursor, line, appended token, error |
| Scanning.Scanner.ScanOnce | src/pylox/scanner.py:156-158 | one turn of the `scan_tokens` loop keeps "tokens so far plus the rest of the scan is the whole scan", or ends with the whole scan's error |
| Scanning.Scanner.ScanTokens | src/pylox/scanner.py:155-162 | `scan_tokens` returns the token list of `ScanFrom`, or raises its error, and leaves the fields as `ScanFrom` says |
| Scanning.ScanSource | src/pylox/scanner.py:155-162 | scanning on a fresh `Scanner(source)` gives `Scan(source)` |
| ScanningLemmas.StringStepShape | src/pylox/scanner.py:69-78 | a string token's lexeme runs from its quote to the first quote the loop looks at (every quote passed over directly follows a newline, consumed with that quote), and its literal is the text between them; the step raises only at the end of the source, with "Unterminated string" or, when a newline ends the source, IndexError; it never skips |
| ScanningLemmas.StringStepLine | src/pylox/scanner.py:70-73 | a string step counts no more lines than the newlines it consumed |
| ScanningLemmas.NumberStepRaises | src/pylox/scanner.py:83 | `number` raises IndexError exactly when the source ends with a `.` right after the digits |
| ScanningLemmas.NumberStepToken | src/pylox/scanner.py:80-88 | a NUMBER lexeme is a decimal numeral (digits, at most one `.` with digits on both sides), and its literal is its exact value |
| ScanningLemmas.NumberStepMaximal | src/pylox/scanner.py:81-86 | a NUMBER token is maximal: no digit follows it, and a `.` after a dotless number is not followed by a digit |
| ScanningLemmas.IdentifierStepShape | src/pylox/scanner.py:90-95 | an identifier token is the maximal run of identifier characters, and its type is that text's keyword type or IDENTIFIER |
| ScanningLemmas.KeywordTypeNotLiteral | src/pylox/scanner.py:5-23 | no reserved word maps to NUMBER, STRING or EOF |
| ScanningLemmas.ActionClasses | src/pylox/scanner.py:99-153 | which characters select the string, newline, number, identifier and error cases; the operator cases emit neither a literal type nor EOF |
| ScanningLemmas.StepLexeme | src/pylox/scanner.py:43-47 | an emitted token's lexeme is exactly the text consumed by its step, and its line is the line the step ended on |
| ScanningLemmas.StepWellFormed | src/pylox/scanner.py:97-153 | every emitted token is well formed: not EOF; NUMBER and STRING carry their value; every other type carries no literal |
| ScanningLemmas.StepToken | src/pylox/scanner.py:43-47 | both of the above at once |
| ScanningLemmas.StepLine | src/pylox/scanner.py:97-153 | a step ends on its first line plus at most the newlines it consumed, and exactly that many outside a string |
| ScanningLemmas.OperatorPairs | src/pylox/scanner.py:120-135 | `!`, `=`, `<`, `>` followed by `=` give the two-character type and consume two characters, and otherwise the one-character type and one character |
| ScanningLemmas.LoneSlash | src/pylox/scanner.py:136-141 | a `/` not followed by `/` is a SLASH token of one character |
| ScanningLemmas.StepUnexpected | src/pylox/scanner.py:148-153 | a step raises "Unexpected character: c" exactly on a character no case handles |
| ScanningLemmas.ScanFromEofLast | src/pylox/scanner.py:155-162 | a scan that returns has read the whole source and ends with exactly one EOF token on the last line; every earlier token is well formed |
| ScanningLemmas.ScanFromLines | src/pylox/scanner.py:156-162 | token lines never decrease and lie between the first line and the last |
| ScanningLemmas.ScanFromLineCount | src/pylox/scanner.py:155-162 | the last line is the first plus at most the newlines read, and exactly that when the scan read no quote |
| ScanningLemmas.ScanFromInSourceOrder | src/pylox/scanner.py:156-158 | there are positions at which each lexeme is the source text; tokens do not overlap and follow source order |
| ScanningLemmas.CommentSkipped | src/pylox/scanner.py:136-139 | a `//` comment adds no token and no line: the scan goes on at the newline that ends it |
| ScanningLemmas.ScanTokensShape | src/pylox/scanner.py:155-162 | a successful scan returns one EOF token, last; well-formed tokens before it; token lines in order from 1 to one plus the source's newlines, and exactly that when the source has no quote |
| ScanningLemmas.ScanInSourceOrder | src/pylox/scanner.py:43-47 | the lexemes a successful scan returns are non-overlapping pieces of the source, in order |
| ScanningLemmas.ScanEmpty | src/pylox/scanner.py:155-162 | the empty source scans to the EOF token on line 1 alone |
| ScanningLemmas.ScanBangEqual | src/pylox/scanner.py:120-123 | `!=` scans to one BANG_EQUAL token |
| ScanningLemmas.ScanExit | src/pylox/scanner.py:22 | `exit` is a reserved word |
| ScanningLemmas.ScanStringTwoNewlines | src/pylox/scanner.py:71-73 | in a string, the newline right after a newline is consumed without being counted |
| ScanningLemmas.ScanQuoteAfterNewline | src/pylox/scanner.py:70-75 | a quote right after a counted newline inside a string does not close it, so `"`, newline, `"` is unterminated |
| ScanningLemmas.ScanTrailingDot | src/pylox/scanner.py:63-67 | `12.` raises IndexError |
| ScanningLemmas.NumberBeforeDot | src/pylox/scanner.py:83-86 | in `12.x` the number is `12` and the `.` is left for the next step |
| ScanningLemmas.ScanFraction | src/pylox/scanner.py:80-88 | `12.5` is one NUMBER token with the value 12.5 |
| ScanningLemmas.ScanUnexpected | src/pylox/scanner.py:153 | `@` raises "Unexpected character: @" |
| ScanningLemmas.ScanLetterDigit | src/pylox/scanner.py:91 | digits do not continue an identifier: `a1` is IDENTIFIER `a` then NUMBER `1` |
| Expressions.ParenthesizeCounts | src/pylox/expr.py:80-81 | `parenthesize` adds exactly one `(` and one `)` around its parts |
| Expressions.Join | src/pylox/expr.py:80-81 | `" ".join(parts)`: the parts with one space between neighbours (definition) |
| Expressions.Parenthesize | src/pylox/expr.py:79-81 | `parenthesize`: `(`, the name, a space, the joined parts, `)` (definition; see ParenthesizeCounts) |
| Expressions.LiteralText | src/pylox/expr.py:91-93 | `visit_literal_expr`: `nil` for None, `True`/`False` for booleans, the string itself, and `numText` for numbers (definition) |
| Expressions.AstPrint | src/pylox/expr.py:76-97 | `AstPrinter().print`: each compound node parenthesized with its operator lexeme or `group` (definition; see ParenthesesPerNode, CompoundShape, SampleRendering) |
| Expressions.ParenthesesPerNode | src/pylox/expr.py:76-97 | if no lexeme or literal text holds a parenthesis, a rendering holds exactly one `(` and one `)` per Binary, Grouping and Unary node |
| Expressions.CompoundShape | src/pylox/expr.py:83-97 | (rendering of one node, used in proofs) a Binary, Grouping or Unary renders as `(`, its operator lexeme or `group`, a space, ..., `)`; the printer's property is ParenthesesPerNode |
| Expressions.SampleRendering | src/pylox/expr.py:135-140 | the sample tree `-123 * (45.87)` renders as `(* (- 123) (group 45.87))` |
| Parsing.Consume | src/pylox/parser.py:24-32 | `consume` succeeds exactly when `check` holds, returns that token and advances one; otherwise it fails with the message and leaves the cursor |
| Parsing.Check | src/pylox/parser.py:24-27 | `check`: false on EOF, otherwise whether the current token has the given type (definition; see Consume) |
| Parsing.Previous | src/pylox/parser.py:22 | the token `tokens[current - 1]` names, Python's last token at cursor 0 (definition; see ProgramLemmas.SynchronizeAtStart) |
| Parsing.ParseExpression | src/pylox/parser.py:34-35 | `expression` stays inside the token list and consumes a token when it succeeds |
| Parsing.ParseBinary | src/pylox/parser.py:56-118 | the same for every binary level |
| Parsing.ParseOperand | src/pylox/parser.py:57-106 | the same for a level's operand rule |
| Parsing.Fold | src/pylox/parser.py:58-67 | a level's loop never moves the cursor back or past the last token |
| Parsing.ParseUnary | src/pylox/parser.py:120-129 | `unary` stays inside the token list and consumes a token when it succeeds |
| Parsing.ParsePrimary | src/pylox/parser.py:131-153 | every successful `primary` consumes at least one token |
| Parsing.Terminate | src/pylox/parser.py:46-54 | the `;` check never moves the cursor back |
| Parsing.ParseStatement | src/pylox/parser.py:37-54 | a successful statement consumes a token |
| Parsing.ParseProgram | src/pylox/parser.py:177-180 | a successful `parse` ends on an EOF token; what it returns is stated in ProgramLemmas.ProgramParses and ProgramLemmas.ProgramFails |
| Parsing.NextEof | src/pylox/parser.py:158-175 | the first EOF token at or after the cursor |
| Parsing.SynchronizeTarget | src/pylox/parser.py:155-175 | `synchronize` stays put exactly when the cursor is on EOF, the previous token is `;`, or the current token is `class`, `fun`, `var`, `for`, `if`, `while`, `print` or `return`; otherwise it moves to the first EOF after the cursor |
| Parsing.Parser.constructor | src/pylox/parser.py:7-9 | a new parser holds the tokens with its cursor at 0 |
| Parsing.Parser.Peek | src/pylox/parser.py:11-13 | `peek`: the token under the cursor (definition) |
| Parsing.Parser.IsAtEnd | src/pylox/parser.py:15-17 | `is_at_end`: the token under the cursor is EOF (definition) |
| Parsing.Parser.Advance | src/pylox/parser.py:19-22 | `advance` steps one token unless on EOF, never passes EOF, and returns the token before the new cursor |
| Parsing.Parser.ConsumeToken | src/pylox/parser.py:29-32 | the cursor and result of `consume` are those of `Consume` |
| Parsing.Parser.Expression | src/pylox/parser.py:34-35 | the cursor and result of `expression` are those of `ParseExpression` |
| Parsing.Parser.BinaryLevel | src/pylox/parser.py:56-118 | the loop of each binary level ends with the cursor and tree of `ParseBinary` |
| Parsing.Parser.Operand | src/pylox/parser.py:57-106 | each level calls the next tighter rule, as `ParseOperand` says |
| Parsing.Parser.Unary | src/pylox/parser.py:120-129 | the cursor and result of `unary` are those of `ParseUnary` |
| Parsing.Parser.Primary | src/pylox/parser.py:131-153 | the cursor and result of `primary` are those of `ParsePrimary` |
| Parsing.Parser.Statement | src/pylox/parser.py:37-44 | the cursor and result of `statement` are those of `ParseStatement` |
| Parsing.Parser.PrintStatement | src/pylox/parser.py:46-49 | `print_statement` is an expression then a `;` |
| Parsing.Parser.ExpressionStatement | src/pylox/parser.py:51-54 | `expression_statement` is an expression then a `;` |
| Parsing.Parser.Synchronize | src/pylox/parser.py:155-175 | the loop of `synchronize` leaves the cursor at `SynchronizeTarget` |
| Parsing.Parser.Parse | src/pylox/parser.py:177-180 | the statement loop ends with all statements up to EOF, or the first error where it was raised, as `ParseProgram` says |
| ParsingLemmas.OperatorLevel | src/pylox/parser.py:56-118 | the operator sets of the four levels: `!= ==`, `> >= < <=`, `- +`, `/ *` |
| ParsingLemmas.LevelStep | src/pylox/parser.py:56-118 | (unfolding step, used in proofs) a binary level is its tighter rule followed by its loop |
| ParsingLemmas.FoldStops | src/pylox/parser.py:66-67 | (unfolding step, used in proofs) a level's loop stops at a token that is not one of its operators, returning the tree so far |
| ParsingLemmas.FoldStep | src/pylox/parser.py:59-65 | (unfolding step, used in proofs) a level's loop at one of its operators folds the next operand in as the right child |
| ParsingLemmas.UnaryStep | src/pylox/parser.py:123-127 | (unfolding step, used in proofs) `!` or `-` followed by a unary expression parses to `Unary(op, rest)` |
| ParsingLemmas.PrimaryStep | src/pylox/parser.py:128-129 | (unfolding step, used in proofs) `unary` on any other token is `primary` |
| ParsingLemmas.LiteralStep | src/pylox/parser.py:134-146 | (unfolding step, used in proofs) `false`, `true`, `nil`, NUMBER and STRING become their `Literal`, consuming one token |
| ParsingLemmas.GroupingStep | src/pylox/parser.py:147-151 | (unfolding step, used in proofs) `(` e `)` becomes `Grouping(e)` and consumes the `)` |
| ParsingLemmas.PrimaryNoToken | src/pylox/parser.py:152-153 | (unfolding step, used in proofs) any token that starts no primary raises "No token found" where it is |
| ParsingLemmas.PrimaryUnclosed | src/pylox/parser.py:150 | (unfolding step, used in proofs) a group not closed by `)` raises "Expected ')' after expression" at the token after the inner expression |
| ParsingLemmas.ParsesSpelled | src/pylox/parser.py:56-153 | a normal-form tree spelled at the cursor and followed by a stop token is what the level rule returns |
| ParsingLemmas.ParsesSpelledUnary | src/pylox/parser.py:120-153 | the same for unary operators, literals and groupings |
| ParsingLemmas.ParsedIsSpelled | src/pylox/parser.py:56-153 | every tree a level rule returns is in normal form, spelled by the tokens consumed, and followed by a stop token |
| ParsingLemmas.PrimarySound | src/pylox/parser.py:131-153 | the same for `primary` |
| ParsingLemmas.ParsedExpression | src/pylox/parser.py:34-153 | a successful `expression` returns a normal-form tree spelled by exactly the consumed tokens, followed by a non-operator token |
| ParsingLemmas.SpelledExpression | src/pylox/parser.py:34-153 | conversely, such a tree is what `expression` returns |
| ParsingLemmas.ExpressionParses | src/pylox/parser.py:34-153 | `expression` returns `e` at `q` if and only if `e` is in normal form, spelled from the cursor to `q`, and the token at `q` is not a binary operator |
| ParsingExamples.FoldsLeft | src/pylox/parser.py:56-118 | `a op1 b op2 c` with `op2` no tighter than `op1` parses as `(a op1 b) op2 c`, as `1 - 2 - 3` does |
| ParsingExamples.NestsRight | src/pylox/parser.py:56-118 | with `op2` tighter, it parses as `a op1 (b op2 c)`, as `1 + 2 * 3` does |
| ParsingExamples.BinaryOfTwoNumbers | tests/test_parser.py:26-50 | `<int> <op> <int>` with `op` among `+ - / *` parses to a Binary with operator `op` |
| ParsingExamples.ProgramNeedsSemicolon | tests/test_parser.py:19-50 | the same tokens given to `parse`, with no `;`, raise "Expect `;` after expression" at the EOF token |
| ParsingExamples.TerminateStep | src/pylox/parser.py:46-54 | (unfolding step, used in proofs) after its expression, a statement succeeds exactly when a `;` follows, and then it consumes it |
| ParsingExamples.ParsedStatement | src/pylox/parser.py:37-54 | a parsed statement is `Print` exactly when it began with `print`, and its expression is spelled up to a `;` that ends it |
| ParsingExamples.SpelledStatement | src/pylox/parser.py:37-54 | conversely, such tokens parse to that statement |
| ParsingExamples.StatementParses | src/pylox/parser.py:37-54 | `statement` returns `s` at `q` if and only if the tokens from the cursor to `q` spell `s` |
| ProgramLemmas.ProgramCuts | src/pylox/parser.py:177-180 | a successful `parse` cuts the tokens into its statements: each parsed from a cut point not on EOF and ending at the next, the last cut on EOF |
| ProgramLemmas.CutsProgram | src/pylox/parser.py:177-180 | conversely, statements cut one after another up to an EOF are what `parse` returns |
| ProgramLemmas.ProgramFailureCuts | src/pylox/parser.py:177-180 | a failing `parse` is the failure of the first failing statement, after statements cut one after another |
| ProgramLemmas.CutsFailure | src/pylox/parser.py:177-180 | conversely, statements cut one after another and then a failing statement make `parse` raise that statement's error where it raised it |
| ProgramLemmas.ProgramParses | src/pylox/parser.py:177-180 | `parse` returns `ss` ending at `q` if and only if some cut points from the cursor to the EOF at `q` spell `ss` statement by statement |
| ProgramLemmas.ProgramFails | src/pylox/parser.py:177-180 | `parse` raises `e` at `q` if and only if the statement after some cut statements, not on EOF, raises `e` at `q` |
| ProgramLemmas.SynchronizeAtStart | src/pylox/parser.py:155-175 | at cursor 0 the previous token is `tokens[-1]`, an EOF, so `synchronize` stays only on a statement keyword or EOF and otherwise runs to the first EOF |
| ProgramLemmas.SynchronizeAfter | src/pylox/parser.py:155-175 | after a `;` `synchronize` stays; after another token, on neither a keyword nor EOF, it moves forward to an EOF |
| Interpreter.IsTruthy | src/pylox/interpreter.py:25-30 | the truthiness `!` negates: `nil` and `false` are false, every other value is true (definition; see UnaryOp, DoubleBang) |
| Interpreter.PyEquals | src/pylox/interpreter.py:58-65 | Python's `==` on values: numbers and booleans numerically, otherwise structural (definition; see EqualsIsEquivalence, EqualsAcrossKinds) |
| Interpreter.UnaryOp | src/pylox/interpreter.py:19-32 | `-` negates numbers (booleans as 0/1) and gives nil otherwise; `!` gives the negated truthiness; nothing else gives a number or a boolean |
| Interpreter.BinaryOp | src/pylox/interpreter.py:34-67 | faults exactly on `/` by zero, naming the `/` token; a number exactly for arithmetic on numbers; a string exactly for `+` on strings, their concatenation; a boolean exactly for comparisons on numbers and for `==`, `!=`, which are Python equality and its negation |
| Interpreter.Evaluate | src/pylox/interpreter.py:8-39 | evaluation faults only at a division operator in the tree |
| InterpreterLemmas.EqualsIsEquivalence | src/pylox/interpreter.py:62-65 | `==` on values is reflexive, symmetric and transitive |
| InterpreterLemmas.EqualsAcrossKinds | src/pylox/interpreter.py:58-65 | nil equals only nil, a string only the same string, and `true == 1`, `false == 0` |
| InterpreterLemmas.NotEqualNegatesEqual | src/pylox/interpreter.py:58-65 | for every pair of values, `!=` is the negation of `==` |
| InterpreterLemmas.DoubleBang | src/pylox/interpreter.py:25-30 | `!!v` is the truthiness of `v` |
| InterpreterLemmas.DoubleMinus | src/pylox/interpreter.py:23-24 | `--v` is `v` as a number for numbers and booleans, and nil otherwise |
| InterpreterLemmas.NoDivisionNoFault | src/pylox/interpreter.py:42-43 | an expression without a `/` never faults |
| InterpreterLemmas.LeftFaultFirst | src/pylox/interpreter.py:36-39 | when the left operand faults, the binary expression faults with the same fault, whatever the right operand is |
| InterpreterLemmas.LeftDivisionReported | src/pylox/interpreter.py:36-43 | when both operands divide by zero, the fault names the left `/` |
| InterpreterLemmas.SubtractionChain | src/pylox/interpreter.py:35-41 | the tokens of `x - y - z` parse and evaluate to `(x - y) - z` |
| InterpreterLemmas.SumOfProduct | src/pylox/interpreter.py:35-47 | the tokens of `1 + 2 * 3` parse and evaluate to 7 |

## Left out

- `src/pylox/main.py` and `src/pylox/__main__.py` (REPL, history file, argument parsing, file reading) are not part of this model: they only feed text to the scanner.
- `RichTreePrinter` and `Token.__rich_repr__` are not part of this model: they only call the `rich` library.
- The legacy `pylox/scanner.py` and `test/test_scanner.py` are not part of this model: their behaviour depends on a `pylox/tokens` module that is not available.
- Numbers are exact reals. IEEE-754 rounding, infinities and Python's `int`/`float` distinction are not modelled; `float(text)` of a NUMBER lexeme is its exact decimal value.
- `str(value)` of a number in `AstPrinter` is the parameter `numText`, because Python's float formatting is not modelled.
- `str.isnumeric` and `str.isidentifier` are restricted to ASCII digits, and to ASCII letters and `_`.
- Executing statements (`print` output and its sink) is not modelled: `interpreter.py` has no statement visitor.
- The visitor's `accept`/`visit_*` double dispatch is a `match` on the node's constructor. Nodes are datatype values, so they cannot change after construction.
- `Parsing.Parser.constructor` and every parser function require a non-empty token list that ends in EOF; this is what `scan_tokens` returns. On other lists the Python code may raise IndexError (an empty list, or one whose tokens run out before an EOF), which is not modelled.
- Parsing.Parser.Parse: returns the statement list. The Python `parse` builds the list and then returns `None`.
- Parsing.Parser.Synchronize: modelled as written, although nothing calls it. It reads the previous and the current token once, before its loop, so the loop either returns at once or advances to EOF (Parsing.SynchronizeTarget states when). At cursor 0 the "previous" token is Python's `tokens[-1]`, the last token (ProgramLemmas.SynchronizeAtStart).
- The repository's parser test parses `<int> <op> <int>` without a `;`. As written, `parse` then raises (ParsingExamples.ProgramNeedsSemicolon), and its result would be `None` even with a `;`.
- Behaviours of the code that a reader of a Lox scanner or interpreter might not expect, modelled as the code does them:
  - `12.` raises IndexError from `next_next`; a textbook Lox scanner would give NUMBER then DOT.
  - Inside a string, the character after a counted newline is consumed unseen. So a newline right after a counted newline is not counted, and a quote right after a counted newline does not close the string (ScanningLemmas.StringStepShape, ScanQuoteAfterNewline; in `"`, newline, newline, `"` the last quote follows the uncounted newline and closes the string, ScanStringTwoNewlines).
  - `true == 1` and `false == 0` hold, because Python's `int()` class pattern matches `bool`.
  - A parse error is not recovered from: the first error ends `parse`.
- Interpreter.RuntimeFault: Python's `ZeroDivisionError` carries only a message. The `operator` field, the `/` token that raised it, is the model's own bookkeeping; it is what makes the left-before-right order observable in InterpreterLemmas.LeftDivisionReported.
- InterpreterLemmas.SumOfProduct: shown for the values 1, 2 and 3 only, because a general statement needs nonlinear real arithmetic that the solver does not settle. The general precedence statement is ParsingExamples.NestsRight, about the parse alone.
- The spec functions `ParseExpression`, `ParseBinary`, `ParseOperand`, `Fold`, `ParseUnary`, `ParsePrimary`, `Terminate` and `ParseStatement` state only how the cursor moves in their own contracts. What they return is stated in ParsingLemmas and ParsingExamples.
