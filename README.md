# A verified model of the basic.py arithmetic front end

`basic.py` is the first stage of a small interpreter. It turns one line of
arithmetic text into a syntax tree, or into an error. The model covers:

- a `Position` cursor (index, line, column, file name, file text);
- a `Lexer` that turns the text into INT, FLOAT, operator, parenthesis and
  EOF tokens, or stops at the first illegal character;
- a recursive-descent `Parser`, with its `ParserResult` accumulator, over the
  grammar below;
- the three node kinds of the syntax tree;
- the two error kinds and their rendering (`as_string`);
- `run`, which lexes and then parses.

```
expr   -> term   ((PLUS | MINUS) term)*
term   -> factor ((MUL  | DIV)   factor)*
factor -> INT | FLOAT | (PLUS | MINUS) factor | LPAREN expr RPAREN
```

## How the model is built

Each stateful class of the source is a Dafny `class`. Its methods update its
fields and are proved against a pure specification function.

- **Positions.** `Position` (file `positions.dfy`) is the mutable cursor. A
  copied position is a value of the datatype `Pos`.
- **Lexer.** `Lexer.MakeTokens` and `Lexer.MakeNumber` (`lexer.dfy`) are loops
  over the cursor. They are proved to return exactly `LexSpec.Scan` and
  `LexSpec.NumberEnd` (`lex_spec.dfy`). The body of each loop is a method of
  its own (`TakeToken`, `NumberChar`), with the same branches in the same
  order as the source, and each branch of `TakeToken` is one more method
  (`SkipBlank`, `TakeNumber`, `TakeSingle`, `TakeIllegal`).
- **Parser.** The `Parser` rule methods (`parser.dfy`) mutate the token cursor
  and fill fresh `ParserResult` objects. They are proved to return exactly
  what the mutually recursive functions of `ParseSpec` (`parse_spec.dfy`)
  compute from the token list and the start index. The signed and the
  parenthesised branches of `factor` (`Signed`, `Grouped`) and the body of the
  loop of `bin_op` (`FoldStep`) are methods of their own.
- **Lemmas.** The lemmas (`lex_properties.dfy`, `parse_properties.dfy`,
  `parse_structure.dfy`, `driver.dfy`) are stated about those functions. The concrete cases are in
  `lex_examples.dfy`, `parse_examples.dfy` and `run_examples.dfy`.

The code has three behaviours that are easy to miss, and the model keeps each
of them as written:

- **The crash at a number token.** Number tokens are built without positions.
  A syntax error raised while the current token is a number reads
  `pos_start` of that token, and the source then fails with an
  AttributeError. An example is `1 + 2 3`, where the parser stops before the
  `3`. The model makes this crash an explicit `Crashed` outcome (a `crashed`
  flag in the methods).
- **`bin_op` does not stop after a failed operand.** It builds a
  `BinOpNode` with a missing operand and goes on. A later error replaces an
  earlier one, so the last error wins.
- **`parse` keeps the tree.** When it adds the "Expected '+' '-' '*' or '/'"
  error, the tree it already built stays in the result.

Two more behaviours of the code, stated plainly:

- **`1.2.3`.** `make_number` stops before the second `.`. The main loop then
  meets a `.` that does not follow a digit, and that `.` is an illegal
  character. So the result is an Illegal Character error for `'.'` at index 3
  (`LexExamples.SecondDot`).
- **`bin_op` after an error.** The loop goes on after a failed operand, and
  the last error is the one reported (`ParseExamples.LastErrorWins`).

## Model

| member | source | states |
|---|---|---|
| Positions.Position.constructor | basic.py:86-98 | the new cursor holds exactly the given index, line, column, file name and text |
| Positions.Position.Advance | basic.py:101-111 | the index and the column go up by one; a newline instead resets the column to 0 and starts the next line; the new state is the old one advanced over the character |
| Positions.Position.Copy | basic.py:114-115 | the copy is a new object, shares nothing with the original, and holds an equal position |
| Positions.Pos.Advanced | basic.py:101-111 | the index always rises by one and the file stays the same; a newline moves to the next line at column 0; any other character, or none, moves one column along the same line |
| Positions.PosAtCounts | basic.py:101-137 | the lexer's cursor, set at index -1 and advanced once on construction and once per character read, stands after `i` characters at index `i` with the file name and text kept; its line is the number of newlines read, and its column is `i` on a text with no newline |
| Positions.PosAt | basic.py:124-137 | the lexer's cursor after its construction and `i` further steps; it has no ensures of its own, and Positions.PosAtCounts states its index, line, column, file name and text |
| Tokens.PositionedToken | basic.py:70-73 | a token made at a position starts there and ends one index and one column later, on the same line and in the same file |
| Tokens.NatToString | basic.py:35 | a rendered line number is a non-empty string of digits with no leading zero |
| Tokens.DigitsValueOfNatToString | basic.py:35 | reading a rendered line number back as a decimal gives the number |
| Errors.IllegalCharError | basic.py:44-46 | an Illegal Character error holds exactly the given start, end and details |
| Errors.InvalidSyntaxError | basic.py:54-56 | an Invalid Syntax error holds exactly the given start, end and details |
| Errors.AsString | basic.py:33-36 | a rendered error starts with the error's name, `: `, the details, `File `, the start position's file name and `, line `, and the rest is exactly as long as the rendered end line number, which Errors.AsStringLine places at its end |
| Errors.AsStringLine | basic.py:33-36 | a rendered error ends with the 1-based line number of its end position, and that suffix reads back as that number |
| LexSpec.NumberEnd | basic.py:181-189 | the number scan only moves forward, stays inside the text, reads only digits and dots, and reads at least one character when it starts on a digit |
| LexSpec.NumberToken | basic.py:190-193 | the token of a scanned number has no positions; it is FLOAT exactly when the text holds a dot, and then holds that text; otherwise it is INT and holds the decimal value of the digits |
| LexSpec.Scan | basic.py:140-174 | the result of the main loop of `make_tokens` from a cursor index; it has no ensures of its own: ScanSuccess, ScanEndsWithEOF, ScanSpans and ScanPositions state a successful result, ScanFailure, ScanFailureFirst and ScanFailureWitness a failed one, and Lexing.Lexer.MakeTokens is proved to return it |
| LexSpec.Tokenize | basic.py:140-174 | `Lexer(fn, text).make_tokens()`, the scan from index 0; it has no ensures of its own: TokenizeSuccess, TokenizeLegality and TokenizeFailure state when it succeeds and what it then returns |
| LexProperties.NumberEndMaximal | basic.py:181-189 | a scanned number holds at most one dot, and it stops only at the end of the text, at a character that is neither a digit nor a dot, or at a second dot |
| LexProperties.ScanSuccess | basic.py:140-174 | a scan without an error returns a non-empty list that ends with the EOF token at the end of the text and has no other EOF; every positioned token spans exactly one character |
| LexProperties.ScanEndsWithEOF | basic.py:173-174 | a successful scan ends with the EOF token positioned at the end of the text, and no other token is EOF |
| LexProperties.ScanSpans | basic.py:148-174 | every token of a successful scan that has a start position ends one index later |
| LexProperties.ScanPositions | basic.py:146-174 | in a successful scan, a number token has no positions and every other token has both |
| LexProperties.ScanFailure | basic.py:166-172 | a failed scan returns no tokens and one Illegal Character error; the error starts at a character that may not start a token, spans exactly that character, and quotes it |
| LexProperties.ScanFailureFirst | basic.py:140-172 | the character a failed scan reports is the first one it could not take: every character before it, from the cursor on, is legal, or a dot that a number took (a dot that is not stray) |
| LexProperties.ScanFailureWitness | basic.py:140-193 | the character a failed scan reports is illegal, and when it is a dot it is a stray one: at the cursor, after a character that is not a digit, or after digits that follow another dot |
| LexProperties.ScanLegal | basic.py:143-165 | a text made only of blanks, digits, operators and parentheses scans without error |
| LexProperties.ScanIllegal | basic.py:166-172 | a character that is neither legal nor a dot anywhere ahead makes the scan fail |
| LexProperties.ScanDotWithoutDigit | basic.py:146-172 | a dot at the cursor or right after a character that is not a digit makes the scan fail, since no number can take it |
| LexProperties.ScanSecondDot | basic.py:181-187 | a dot after digits that follow another dot makes the scan fail: the number stops before it, and it is then an illegal character |
| LexProperties.NumberEndAtSecondDot | basic.py:181-187 | a number that has taken a dot stops exactly at the next dot after the digits that follow |
| LexProperties.TokenizeSuccess | basic.py:173-174 | a successful lex of a whole line ends with the line's only EOF token, positioned at index `len(text)` |
| LexProperties.TokenizeLegality | basic.py:143-172 | lexing succeeds on every all-legal text, and fails on every text holding a character that is neither legal nor a dot |
| LexProperties.TokenizeFailure | basic.py:140-193 | lexing a line fails exactly when the line holds an illegal character other than a dot, or a stray dot |
| LexProperties.IllegalCharMessage | basic.py:166-172 | the rendered lexing error is `Illegal Character: '<c>'File <fn>, line <n>`, where `<n>` is one more than the error's end line; the start line is the number of newlines before the character, and the end line is one more when the character is a newline |
| LexProperties.IntLiteral | basic.py:181-191 | a line of digits lexes to one INT token with the decimal value of those digits and no positions, followed by EOF |
| LexProperties.FloatLiteral | basic.py:181-193 | `digits.digits` lexes to one FLOAT token holding that text and no positions, followed by EOF |
| Lexing.Lexer.constructor | basic.py:124-129 | the new lexer has its own new cursor at index 0, whose character is the current one |
| Lexing.Lexer.Advance | basic.py:132-137 | the cursor steps over the current character, and the new current character is the one at the new index, or none past the end |
| Lexing.Lexer.MakeTokens | basic.py:140-174 | the tokens and the error returned are exactly the scan of the text from the cursor; the lexer stays consistent; without an error the cursor has reached the end of the text, and after an error it stands at the error's end position, one past the illegal character |
| Lexing.Lexer.TakeToken | basic.py:143-172 | one pass of the main loop: a blank adds nothing and moves the cursor one step; a digit adds its number's token and moves the cursor to where the number ends; an operator or parenthesis adds its token, positioned at the cursor, and moves one step; anything else gives no tokens and the Illegal Character error that quotes the character from the cursor to one step on, and leaves the cursor at the error's end; in each case the tokens so far followed by the scan of the rest equal the scan of the whole text |
| Lexing.Lexer.SkipBlank | basic.py:144-145 | a blank adds no token, and the cursor moves one step |
| Lexing.Lexer.TakeNumber | basic.py:146-147 | a digit adds the token of the number that starts there, and the cursor moves to where that number ends |
| Lexing.Lexer.TakeSingle | basic.py:148-165 | an operator or parenthesis adds its token, positioned where the cursor stood, and the cursor moves one step |
| Lexing.Lexer.TakeIllegal | basic.py:166-172 | any other character drops the tokens so far and gives the error that quotes it, from the cursor to one step on; the cursor stands at the error's end |
| Lexing.Lexer.MakeSingle | basic.py:148-165 | an operator or parenthesis token is positioned where the cursor stood, and the cursor moves one step |
| Lexing.Lexer.MakeIllegal | basic.py:166-172 | the error starts at a copy of the cursor, ends one character later, where the cursor then stands, and quotes the character |
| Lexing.Lexer.NumberChar | basic.py:184-192 | a second dot stops the number where it stands; a digit or a first dot is appended to the text read so far and the cursor moves on, keeping what was read equal to the text from the number's start |
| Lexing.Lexer.MakeNumber | basic.py:177-193 | the cursor moves past the maximal number that starts at the current digit; the token is INT with the decimal value, or FLOAT when the number holds a dot; it has no positions |
| LexExamples.ArithmeticLine | basic.py:140-174 | `2 + 3 * 4` lexes to INT 2, PLUS at 2, INT 3, MUL at 6, INT 4 and EOF at 9 |
| LexExamples.SecondDot | basic.py:181-186 | `1.2.3` fails with an Illegal Character error `'.'` at index 3 |
| LexExamples.LeadingDot | basic.py:166-172 | `.5` fails with an Illegal Character error `'.'` at index 0 |
| LexExamples.LineBreak | basic.py:33-36 | an illegal newline on line 1 is reported as line 2, because the line is taken from the error's end position |
| ParseSpec.Factor | basic.py:296-337 | a factor does not move backwards and stops on a token; when it reports no error it has a node and has consumed at least one token |
| ParseSpec.Term | basic.py:340-341 | the same bounds as for a factor, for `factor ((MUL or DIV) factor)*` |
| ParseSpec.Expr | basic.py:344-345 | the same bounds as for a factor, for `term ((PLUS or MINUS) term)*` |
| ParseSpec.BinOp | basic.py:348-356 | the same bounds as for a factor, for one operand followed by the fold |
| ParseSpec.Fold | basic.py:351-355 | the loop stops on a token; an error already held is never cleared; a left node already held is never lost |
| ParseSpec.Parse | basic.py:287-294 | a parse without an error has a node and has stopped at an EOF token |
| ParseSpec.ParseFrom | basic.py:287-294 | parsing from an index does not move backwards and stops on a token; without an error it has a node and has stopped at EOF |
| ParseSpec.SyntaxErrorAt | basic.py:330-336 | an Invalid Syntax error is built exactly when the token has both positions, and then spans the token and holds the given details; a token without positions (a number) gives none, the AttributeError |
| ParseSpec.Fail | basic.py:290-292 | `res.failure(InvalidSyntaxError(...))` at a token: a crash exactly when the token lacks a position; otherwise no node, the cursor where it was, and the Invalid Syntax error spanning the token with the given details |
| ParseSpec.Operand | basic.py:348-354 | the rule `bin_op` calls as `func` (factor for term, term for expr) does not move backwards and stops on a token; without an error it has a node and has consumed at least one token |
| ParseProperties.FailSound | basic.py:330-337 | a syntax error raised at a token spans exactly that token, and it is never a crash when the token has positions |
| ParseProperties.FactorSound | basic.py:296-337 | factor never crashes on positioned tokens; any error is a syntax error spanning one token; without an error its tree holds exactly the consumed tokens, in order, minus parentheses |
| ParseProperties.SignedSound | basic.py:313-318 | a signed factor is sound when the factor after the sign is |
| ParseProperties.GroupedSound | basic.py:320-333 | a parenthesised factor is sound when the expression inside is; the parentheses do not appear in the tree |
| ParseProperties.TermSound | basic.py:340-341 | the same soundness for term |
| ParseProperties.ExprSound | basic.py:344-345 | the same soundness for expr |
| ParseProperties.BinOpSound | basic.py:348-356 | the same soundness for bin_op |
| ParseProperties.FoldSound | basic.py:351-355 | the loop keeps the soundness of the error it holds; without an error, the tree's tokens are the left node's followed by the tokens the loop consumed, minus parentheses |
| ParseProperties.ParseSound | basic.py:287-294 | parse never crashes on positioned tokens; any error is a syntax error at one of the tokens; without an error the tree holds, in order and minus parentheses, every token before the EOF it stopped at |
| ParseStructure.FactorSettled | basic.py:296-337 | on a lexer-shaped list with no number right after a number or a `)`, factor does not crash, and without an error the last token it consumed is a number or a `)` |
| ParseStructure.ExprSettled | basic.py:344-345 | the same for expr |
| ParseStructure.OperandSettled | basic.py:350 | the same for the rule `bin_op` is given |
| ParseStructure.BinOpSettled | basic.py:348-356 | the same for bin_op |
| ParseStructure.FoldSettled | basic.py:351-355 | the same for the loop of bin_op, given a left operand that, without an error, ends with a number or a `)` |
| ParseStructure.ParseCrash | basic.py:287-337 | on a token list in which every token but a number has both positions, as the lexer makes it, parse crashes only if a number stands right after a number or a `)` |
| ParseStructure.FactorShape | basic.py:296-318 | without parentheses, a factor's tree is a number under any number of signs |
| ParseStructure.OperandShape | basic.py:350 | without parentheses, an operand of term is a factor's tree and an operand of expr is a term's tree |
| ParseStructure.BinOpShape | basic.py:348-356 | without parentheses, term builds a term's tree (a factor, or a `*` or `/` node with a term on the left and a factor on the right) and expr an expression's tree (a term, or a `+` or `-` node with an expression on the left and a term on the right) |
| ParseStructure.FoldShape | basic.py:351-355 | each turn of the loop puts the tree so far on the left of a new node of the rule's operator, with an operand's tree on the right, which keeps the rule's shape |
| ParseStructure.ParseShape | basic.py:287-294 | without parentheses, every tree parse returns follows the grammar's precedence and left associativity: no `+` or `-` node under a `*`, a `/` or a sign; no `+` or `-` node as the right operand of `+` or `-`; no binary node as the right operand of `*` or `/` |
| Parsing.ParserResult.constructor | basic.py:245-247 | a new result has neither a node nor an error |
| Parsing.ParserResult.Success | basic.py:250-252 | sets the node and keeps the error |
| Parsing.ParserResult.Failure | basic.py:255-257 | sets the error and keeps the node |
| Parsing.ParserResult.RegisterToken | basic.py:265 | a token given to `register` passes through unchanged |
| Parsing.ParserResult.RegisterResult | basic.py:260-264 | a sub-result's error, when it has one, replaces the held error; its node is handed back; the held node is kept |
| Parsing.FailAt | basic.py:330-333 | builds an Invalid Syntax error spanning the token, unless the token has no positions, which is the crash |
| Parsing.Parser.constructor | basic.py:275-278 | the cursor starts on the first token |
| Parsing.Parser.Advance | basic.py:281-285 | the index goes up by one; past the end, the last token (EOF) stays current |
| Parsing.Parser.Parse | basic.py:287-294 | the result, or the crash, is exactly what the parse function gives for the tokens from the cursor |
| Parsing.Parser.Factor | basic.py:296-337 | the result, or the crash, is exactly what the factor function gives |
| Parsing.Parser.Signed | basic.py:313-318 | the result, or the crash, is what the factor function gives at a sign: the unary node over the next factor, or that factor's error |
| Parsing.Parser.Grouped | basic.py:320-333 | the result, or the crash, is what the factor function gives at `(`: the inner expression's node once `)` follows, the inner error, or "Expected ')' " at the token that stands there |
| Parsing.Parser.Term | basic.py:340-341 | the result, or the crash, is exactly what the term function gives |
| Parsing.Parser.Expr | basic.py:344-345 | the result, or the crash, is exactly what the expr function gives |
| Parsing.Parser.Operand | basic.py:350 | the rule `bin_op` is given as `func` (factor for term, term for expr) gives exactly what the matching function gives |
| Parsing.Parser.FoldStep | basic.py:352-355 | one pass of the loop of `bin_op`: the fold from the operator equals the fold from after the operand, with the new left node and the operand's error, if any, in place of the old one |
| Parsing.Parser.BinOp | basic.py:348-356 | the result, or the crash, is exactly what the bin_op function gives; the loop keeps the fold of the rest equal to the whole |
| ParseExamples.Precedence | basic.py:340-345 | `2 + 3 * 4` parses as 2 + (3 * 4) |
| ParseExamples.LeftAssociative | basic.py:348-356 | `8 - 3 - 2` parses as (8 - 3) - 2 |
| ParseExamples.Parenthesised | basic.py:320-328 | `(2 + 3) * 4` parses as (2 + 3) * 4, with no node for the parentheses |
| ParseExamples.NestedUnary | basic.py:313-318 | `--5` parses as -(-5) |
| ParseExamples.Unterminated | basic.py:329-333 | `(1 + 2` fails with "Expected ')' " at EOF, with no node |
| ParseExamples.TrailingToken | basic.py:289-293 | `1 + 2 )` reports "Expected '+' '-' '*' or '/' " at the `)` and keeps the tree 1 + 2 |
| ParseExamples.TrailingNumberCrashes | basic.py:289-293 | `1 + 2 3` crashes, because the trailing error would be built at a number token |
| ParseExamples.LastErrorWins | basic.py:351-355 | `1 * * * 2` builds ((1 * _) * _) * 2 and reports the error at the third `*`, not at the second |
| Driver.Run | basic.py:364-371 | lexes with the lexer class and parses with the parser class; the outcome is the corrected run function's |
| Driver.RunAsWritten | basic.py:364-371 | as written, run crashes on every line the lexer rejects; when it returns no error it returns a tree |
| Driver.RunResult | basic.py:364-371 | corrected run returns, for a line the lexer rejects, no tree and the Illegal Character error; when it returns no error it returns a tree |
| Driver.RunAsWrittenLosesLexError | basic.py:364-371 | as written, run crashes on the illegal line `a` instead of returning the lexer's error |
| Driver.RunSound | basic.py:364-371 | corrected run returns a lexing error as its only result; otherwise it agrees with the code; parse errors span a token of the line; an error-free tree holds every token of the line but EOF, in order, minus parentheses; it crashes only on a line the lexer accepts that has a number right after a number or a `)` |
| RunExamples.RunArithmetic | basic.py:364-371 | run on `2 + 3 * 4` gives the tree 2 + (3 * 4) and no error |
| RunExamples.RunTrailingNumber | basic.py:364-371 | run on `1 + 2 3` crashes |

## Left out

- `print(tokens)` in `run`, and every `__repr__`: these are display only.
- `float(num_str)`: a FLOAT token holds its digit-and-dot text, because floating point is not modelled.
- LexSpec.NumberToken: an INT token holds the decimal value of its digits however many there are. The ValueError that `int(num_str)` raises on CPython 3.11 and later for a literal of more than 4300 digits (the default limit on integer string conversion) is not modelled.
- Interpreting the tree: `basic.py` stops at the tree, and so does the model.
- Parsing.Parser.constructor: it requires a non-empty token list ending in EOF. The source's `Parser([])` fails with an AttributeError. That failure is modelled at the level of `run` (`Driver.RunAsWritten`) rather than inside the class.
- Lexing.Lexer.TakeToken: the six one-character branches of `make_tokens` are one table lookup (`LexSpec.SingleKind`) that gives the same token type for each character, followed by one `MakeSingle` call.
- Parsing.ParserResult.RegisterToken: `register` dispatches on `isinstance`. Its two cases are two methods.
- `Token.__init__` with `pos_end`: no caller in the module passes `pos_end`. Number tokens get no positions at all, and positioned tokens always take their end from one step past the start.
- Aliasing of the lexer cursor: the Illegal Character error keeps the lexer's live `self.pos` as its end position rather than a copy. The model stores the value. The lexer never moves after it returns the error, so the value is the same.
- Error objects as raised exceptions and tracebacks: a crash is the outcome `Crashed` (`crashed` in the methods), with no message.
- ParseStructure.ParseCrash: Python's recursion limit is not modelled, and neither is it in Driver.RunSound. `factor` calls itself once per sign, and each pair of parentheses adds about five frames (factor, expr, bin_op, term, bin_op). So with CPython's default limit of 1000 frames, a line of about a thousand signs before a number, or one nested about two hundred parentheses deep, raises RecursionError. The model recurses without bound and parses such lines. The statements that the program crashes only when a number stands right after a number or a `)` hold for unbounded recursion.
- The default empty detail of `InvalidSyntaxError`: every call in the module passes a message.

## Findings

| source | as written | input that shows it | evidently intended | confidence | as-written member | corrected member |
|---|---|---|---|---|---|---|
| basic.py:364-371 | `run` ignores the lexer's error and passes the empty token list to `Parser`. `Parser.advance` then returns a `current_tok` that was never set, so the call fails with an AttributeError | `a` (any line with an illegal character) | return no node and the lexer's Illegal Character error, without parsing | not executed | Driver.RunAsWrittenLosesLexError | Driver.RunSound |
