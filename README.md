# langlanglang calculator core in Dafny

langlanglang evaluates statements such as `1 + 2 * 3 ;` that it reads from a
memory-mapped file. This project models the part of it that does the work:

- **CType** (`ctype.dfy`): bytes and the signed C `char` they read as; EOF is -1.
- **FileStream** (`file_stream.dfy`): the `Mfile` cursor over a byte buffer.
  It covers increment, decrement, get, end-of-file, current position and
  current character, and skipping while a predicate holds. The specification
  function `SkipWhile` is proved to stop at the first byte that fails the
  predicate, and to be idempotent.
- **Stack** (`stack.dfy`): the fixed-capacity `STACK` of `stack.h` as a class
  over an array of 256 slots. Pushing past capacity is refused, and the
  contents are a ghost sequence.
- **ErrorChain** (`error.dfy`): the error chain of `error.c`. Messages are truncated to the
  128-byte buffer, pushed in order, printed newest first and cleared.
- **Tokenizer** (`tokenizer.dfy`): `token_read` and its helpers.
  - Each reader is a specification function on `(buffer, position)`, with a
    method on the cursor proved equal to it.
  - Numbers and floating literals, operator runs, strings with escapes,
    keywords matched by prefix, single-character tokens and the
    unexpected-character error are all covered.
- **Values** (`value.dfy`): the value type and the arithmetic of `parser.c`.
  - `binary_op` has int64 arithmetic. Overflow and division by zero are
    undefined behaviour, and division truncates toward zero.
  - An integer meeting a float is promoted to float.
  - Operator precedence is kept in a signed `char`, so the rank of `(` wraps
    to -128.
  - Decimal literals are converted as `strtol` converts them, with `long`
    taken to be 64 bits wide.
- **Strtod** (`strtod.dfy`): when `strtod` reports ERANGE for a floating
  literal.
  - The number it reads is kept exact as `m * 10^s`. This includes an
    exponent that follows the token, which `strtod` reads although the
    tokenizer stops before it.
  - Overflow is a value that rounds past DBL_MAX. Underflow is a non-zero
    value that is tiny after rounding and not exactly representable.
  - `parse_floating` fails with the range message on exactly these literals.
- **Parser** (`parser.dfy`): the token stream with one token of lookahead,
  `parse_int`, `parse_floating`, the two-stack evaluator `parse_expr`,
  `parser_next` and `parser_print_position`.
  - Each has a specification function.
  - The methods run the algorithm on a `TokenStream`, an `Error` and two
    `FixedStack`s, and each is proved equal to its function.
  - Undefined behaviour in the source is the outcome `Undefined`. This covers
    reading the top of an empty stack and int64 overflow. A call to `exit` is
    `Exited`.
- **ReductionProperties** and **ParserProperties**: lemmas about the
  evaluator.
  - What `)` pops, and that the mismatched-parenthesis report is never
    reached.
  - The strictly-lower reduction rule, and that equal ranks are not reduced.
  - `(` stops the reduction, and an unclosed `(` yields no value.
  - What the final shape test admits.
  - The final drain computes the right fold of the values left on the stack,
    and every single-digit chain `a o b o c ;` groups to the right:
    `a o (b o c)`. The chain is written as one line, ended by a newline.
- **StatementProperties**: `parser_next` for every token stream.
  - A statement must start with a number.
  - A value is returned only after ';'; otherwise a missing semicolon or a
    syntax error is reported.
  - For every natural `n`, the line "n ;" (ended by a newline) returns `n`
    when it fits in 64 bits, and fails with the range error otherwise.
- The parser is built on the corrected operator reader; see "## Findings".

## Model

| member | source | states |
|---|---|---|
| CType.SignedChar | src/file_stream.c:98-101 | a byte read through `char` is in [-128, 128); it is EOF exactly for 0xFF and non-negative exactly below 128 |
| FileStream.SkipWhileStops | src/file_stream.c:103-107 | skipping stops on the first byte (or EOF) the predicate rejects, every byte passed satisfies it, and it never runs past the end of the buffer |
| FileStream.SkipWhileIdempotent | src/file_stream.c:103-107 | skipping a second time from where the first skip stopped does not move |
| FileStream.GetsReproduceBuffer | src/test/test_file_stream.c:22-27 | `n` gets from a position return the buffer's bytes as signed chars, as many as remain up to `n` |
| FileStream.ReadUpTo | src/test/test_file_stream.c:22-27 | the loop of gets returns exactly `Gets` and moves the cursor by the number of bytes read |
| FileStream.Mfile.constructor | src/file_stream.c:14-51 | a cursor over the given buffer (its mapping left out) at the given position |
| FileStream.Mfile.IncPos | src/file_stream.c:67-70 | returns the old position and moves one forward |
| FileStream.Mfile.DecrPos | src/file_stream.c:71-74 | returns the old position and moves one back |
| FileStream.Mfile.Cur | src/file_stream.c:84-96 | the current location is the shared EOF sentinel exactly at end of file (`Eof`: the position is at or past the buffer's size, as `mfile_eof` tests), otherwise the byte under the cursor |
| FileStream.Mfile.CurChar | src/file_stream.c:98-101 | EOF at end of file or on byte 0xFF, otherwise the byte as a signed char |
| FileStream.Mfile.Get | src/file_stream.c:76-82 | inside the buffer: the byte as a signed char, and the cursor moves one on; at the end: EOF, and the cursor stays |
| FileStream.Mfile.Skip | src/file_stream.c:103-107 | the cursor ends where `SkipWhile` says |
| Stack.FixedStack.constructor | src/stack.h:14 | a new stack is empty |
| Stack.FixedStack.Push | src/stack.h:16-24 | below capacity the value is appended; at capacity nothing changes and failure is reported |
| Stack.FixedStack.Top | src/stack.h:26-29 | the last value pushed and not popped |
| Stack.FixedStack.Pop | src/stack.h:31-34 | returns the top and removes it, keeping the rest |
| Stack.FixedStack.Empty | src/stack.h:36-39 | true exactly when the contents are empty |
| Stack.FixedStack.Len | src/stack.h:41-44 | the number of values held |
| Stack.PushThenPop | src/stack.h:16-34 | a push followed by a pop returns the value pushed and restores the contents |
| ErrorChain.Truncate | src/error.c:42-49 | a message is cut to at most 127 characters, as a prefix of itself |
| ErrorChain.Error.constructor | src/error.h:28 | a new chain is empty |
| ErrorChain.Empty | src/error.c:9-14 | true exactly for a non-null chain holding no message |
| ErrorChain.Push | src/error.c:16-53 | the truncated message is appended, and the chain is then not empty |
| ErrorChain.Clear | src/error.c:91-98 | the chain is emptied |
| ErrorChain.RenderNewestFirst | src/error.c:55-68 | printing a chain shows its newest message first, then the older ones, each after " - " |
| ErrorChain.Print | src/error.c:70-78 | a null chain prints "(empty error)"; otherwise the rendered chain and a newline |
| ErrorChain.FailThenClear | src/test/test_error.c:9-48 | a failing call chain holds its two messages, and the cleared chain is reusable; the scenario also renders the chain with `Print` (newest first), which the test itself does not call |
| Tokenizer.KindName | src/tokenizer.h:19-27 | every token kind has a short non-empty name, short enough for the messages that include it to fit the buffer |
| Tokenizer.KindNamesDistinct | src/tokenizer.h:19-27 | no two kinds share a name |
| Tokenizer.NumberIsMaximalDigitRun | src/tokenizer.c:37-54 | a number is the maximal digit run, floating exactly when a '.' follows it, and then also the digits after the '.' |
| Tokenizer.ReadNumberInto | src/tokenizer.c:37-54 | the cursor reader returns the token and position `ReadNumber` gives |
| Tokenizer.OperatorAtEndMakesNoProgress | src/tokenizer.c:26-35 | the reader as written returns an empty span for an operator at the end of the buffer and does not move |
| Tokenizer.OperatorIsMaximalRun | src/tokenizer.c:26-35 | the corrected reader takes the maximal run of operator characters, and the cursor stops on the first non-operator |
| Tokenizer.OperatorReadersAgreeInsideBuffer | src/tokenizer.c:31-34 | the as-written and corrected readers agree whenever the run ends before the end of the buffer |
| Tokenizer.ReadOperatorInto | src/tokenizer.c:26-35 | the cursor reader returns the token and position of the corrected reader `ReadOperator`, which differs from the source only when the run ends the buffer (see Findings) |
| Tokenizer.StringEndStops | src/tokenizer.c:60-68 | the closing-quote search stops on an unescaped '"' or at the end of the buffer |
| Tokenizer.StringClosesOrFails | src/tokenizer.c:56-73 | a string reports an error exactly when no closing quote is found; otherwise the token spans both quotes |
| Tokenizer.EscapedQuoteDoesNotClose | src/tokenizer.c:62-64 | a quote after a backslash does not end the string |
| Tokenizer.ReadStringInto | src/tokenizer.c:56-73 | the cursor reader returns the token, the position and the messages `ReadString` gives |
| Tokenizer.ReadWordInto | src/tokenizer.c:75-98 | the cursor reader exits or returns what `ReadWord` gives |
| Tokenizer.KeywordPrefixMeansPrefix | src/tokenizer.c:86-88 | `IS_KEYWORD` holds exactly when the word is a prefix of the keyword or the keyword a prefix of the word |
| Tokenizer.WordRule | src/tokenizer.c:75-98 | for every word: the token is the maximal alphanumeric run; IF exactly when the word is a prefix of "if" or starts with it; otherwise an exit exactly when it is a prefix of "while" or starts with it; otherwise an identifier |
| Tokenizer.IfMatchesByPrefix | src/tokenizer.c:86-96 | keywords are matched by prefix: "i ", "if " and "iffy " read as `if`; "ix " is an identifier; "wh " exits |
| Tokenizer.UnexpectedCharMsg | src/tokenizer.c:136-137 | the unexpected-character message fits the error buffer |
| Tokenizer.TokenRead | src/tokenizer.c:100-141 | `token_read`, with the corrected operator reader, exits or returns the token, position and messages `ReadToken` gives |
| Tokenizer.ReadTokenProgress | src/tokenizer.c:100-141 | with the corrected operator reader, a read skips whitespace; it gives EOF exactly when the byte after the whitespace reads as EOF (the end of the buffer, or a 0xFF byte inside it), and then does not move; any other read that pushes no message moves the cursor forward (an unexpected character pushes one and leaves it in place) |
| Tokenizer.TokenReadersAgreeUnlessOperatorEndsBuffer | src/tokenizer.c:100-141 | `token_read` as written and the corrected read differ only on an operator run that reaches the end of the buffer |
| Tokenizer.FinalOperatorIsReadForever | src/tokenizer.c:26-35 | as written, an operator in the last byte is read as an empty token that leaves the cursor on it, so every later read returns it again |
| Tokenizer.EofReadIsStable | src/tokenizer.c:134-135 | reading at the end of the buffer gives an EOF token without a span and does not move |
| Tokenizer.ReadTokenDispatch | src/tokenizer.c:115-137 | ';', '(' and ')' give one-character tokens, '-' an operator, a digit a number, and any other non-alphanumeric, non-operator, non-quote character an `Unknown` token with one error message |
| Values.ConvIntToFloat | src/parser.c:163-172 | converts exactly the integers, to the float of the same value |
| Values.TruncDivRemainder | src/parser.c:217-219 | C division truncates toward zero: the remainder is smaller than the divisor and has the dividend's sign |
| Values.BinaryOpNeedsOperator | src/parser.c:176-186 | `binary_op` fails, with one message, exactly when the token is not an operator |
| Values.PromotionRule | src/parser.c:188-237 | any float operand makes the result a float of the promoted operands; two integers give an integer or undefined behaviour |
| Values.IntegerArithmetic | src/parser.c:205-220 | +, - and * give the exact result exactly when it fits int64, and are undefined otherwise; / truncates toward zero, is undefined when the quotient does not fit int64 (INT64_MIN / -1) and when the divisor is zero; other operators give 0 |
| Values.DivisionExamples | src/parser.c:217-219 | 7/2 is 3, -7/2 is -3, and INT64_MIN / -1 is undefined |
| Values.PrecedenceTable | src/parser.c:245-255 | + and - rank -20, * and / rank -10, ( and ) wrap to -128, everything else 0, so '(' ranks below every other operator |
| Values.DecimalOfDigits | src/parser.c:126 | reading back the decimal digits of a number gives the number |
| Values.DigitPrefix | src/parser.c:126 | `strtol` reads the maximal run of leading digits of the literal: the byte after it is not a digit |
| Values.DigitPrefixOfRun | src/parser.c:126 | a digit run followed by a non-digit is exactly what `strtol` reads |
| Values.IntLiteral | src/parser.c:124-130 | the literal's value is the decimal value of those digits; ERANGE exactly when that exceeds INT64_MAX |
| Values.IntLiteralReadsDigits | src/parser.c:124-130 | a token spelling the digits of `n` reads back as `n`, or as ERANGE exactly when `n` exceeds INT64_MAX |
| Parser.AdvanceDecreases | src/parser.c:65-75 | an advance without error keeps the lookahead invariant and lowers the measure, so the parse loop terminates |
| Parser.Advance | src/parser.c:65-75 | the method leaves the stream and chain `AdvanceSpec` gives, and pushes its own message when the chain is not empty |
| Parser.PushAll | src/error.c:16-53 | the messages are appended in order |
| Parser.ReduceOnce | src/parser.c:293-299 | a reduction pops the top operator and keeps the stacks below; the second value from the top is the left operand and the top value the right one, and their `binary_op` result replaces them |
| Parser.ParseIntSpec | src/parser.c:111-133 | a value comes only from an integer token and is the value `strtol` gives its text; ERANGE pushes the range message and leaves the stream; after a value with no new message the stream advanced cleanly; errors only grow the chain |
| Parser.ParseInt | src/parser.c:111-133 | the method is `ParseIntSpec` on the cursor, the chain and the stream, so it returns the literal's value |
| Parser.ParseFloatingSpec | src/parser.c:135-161 | a value comes exactly when the chain ends empty; it is the literal's text from a floating token that `strtod` reads without ERANGE, and the stream then advanced cleanly; on ERANGE the range message is pushed and the stream does not move; errors only grow the chain |
| Parser.ParseFloating | src/parser.c:135-161 | the method is `ParseFloatingSpec` on the cursor, the chain and the stream, including the ERANGE failure |
| Strtod.RangeError | src/parser.c:148-154 | `strtod` on the token's start reports ERANGE exactly when the decimal number it reads overflows or underflows |
| Strtod.PowerOfTenOverflows | src/parser.c:148-154 | 10^k is out of range exactly when k >= 309, and never underflows |
| Strtod.PowerOfTenUnderflows | src/parser.c:148-154 | 10^-k, for k >= 1, is out of range exactly when k >= 308, and never overflows |
| Strtod.LongLiteralOverflows | src/parser.c:148-154 | the literal "1" followed by `n` zeros and "." is out of range exactly when n >= 309 |
| Strtod.SmallLiteralUnderflows | src/parser.c:148-154 | the literal "0." followed by `n` zeros and "1" is out of range exactly when n >= 307 |
| Strtod.ExponentReadPastToken | src/parser.c:148-154 | in "1.e" followed by the digits of `n`, the token is "1.", yet `strtod` reads the exponent too, so the literal is out of range exactly when n >= 309 |
| Parser.BinaryOpMessagesFit | src/parser.c:176-186 | the messages of a failed `binary_op` fit the error buffer |
| Parser.ApplyTop | src/parser.c:293-299 | one reduction on the fixed stacks agrees with `ReduceOnce` |
| Parser.CloseParenLoop | src/parser.c:291-306 | the loop run on ')' agrees with `CloseParen` |
| Parser.ReduceLowerLoop | src/parser.c:313-324 | the loop run on an arriving operator agrees with `ReduceLower` |
| Parser.DrainLoop | src/parser.c:336-345 | the loop at `end:` agrees with `Drain` |
| Parser.ScanStep | src/parser.c:264-335 | a pass that goes on keeps the buffer and the lookahead invariant and lowers the measure; a pass that stops never returns a value |
| Parser.PushLiteral | src/parser.c:267-277 | the number branch agrees with `ScanStep` |
| Parser.PushOpenParen | src/parser.c:284-289 | the '(' branch agrees with `ScanStep` |
| Parser.CloseParenPass | src/parser.c:291-311 | the ')' branch agrees with `ScanStep` |
| Parser.ShiftOperator | src/parser.c:313-330 | the operator branch agrees with `ScanStep` |
| Parser.ExprStep | src/parser.c:264-335 | one pass of the loop agrees with `ScanStep` |
| Parser.EndOfExpr | src/parser.c:336-351 | the code at `end:` agrees with `Finish` |
| Parser.ParseExpr | src/parser.c:257-355 | `parse_expr` returns what `ParseExprSpec` gives and leaves its stream and chain |
| Parser.ParserNext | src/parser.c:357-390 | `parser_next` returns what `ParserNextSpec` gives and leaves its stream and chain |
| Parser.TokenStream.constructor | src/parser.c:39-43 | a stream over the cursor with the given two tokens |
| Parser.LineCountsNewlines | src/parser.c:52-60 | the reported line is the number of newlines read |
| Parser.ColumnFollowsLastNewline | src/parser.c:52-60 | the reported column is the length of the run after the last newline read |
| Parser.PrintPosition | src/parser.c:45-63 | the loop reports `Position` of the bytes up to and including the cursor's |
| ReductionProperties.ReducedPopsOperator | src/parser.c:293-299 | a successful reduction applied an operator token to two values and kept everything below |
| ReductionProperties.CloseParenPopsToMarker | src/parser.c:291-311 | ')' pops the operator tokens above the nearest '(' (one value each), then the '(', and keeps everything below |
| ReductionProperties.MismatchedParenNeverReported | src/parser.c:292-306 | with no '(' on the stack, ')' never goes on: the loop reads the top of the emptied stack before the mismatch report |
| ReductionProperties.ReduceLowerPopsOperators | src/parser.c:316-324 | an arriving operator pops operator tokens only, one value each, and keeps what lies below |
| ReductionProperties.ReduceLowerIsStrict | src/parser.c:316-324 | exactly the operators on top that rank strictly above the arriving one are reduced; one of equal rank stays |
| ReductionProperties.LowestRankEmptiesStack | src/parser.c:316-324 | an operator ranking below all stacked ones empties the stack and then reads its top, so "2 * 3 + 1 ;" is undefined |
| ReductionProperties.OpenParenStopsReduction | src/parser.c:245-255 | since '(' wraps to the lowest rank, an arriving operator stops at a '(' and never fails |
| ReductionProperties.DrainAppliesEveryOperator | src/parser.c:336-345 | a successful drain applied every operator, all of which were operator tokens, and left at least one value |
| ReductionProperties.UnclosedParenYieldsNothing | src/parser.c:336-345 | an unclosed '(' makes the drain fail or be undefined |
| ReductionProperties.FinishShape | src/parser.c:336-351 | "bad expression" exactly when no value and some operator remain; with values and no operators the top value is returned |
| ReductionProperties.DrainFailureMessage | src/parser.c:336-345 | a failed drain reports the one `binary_op` message |
| ReductionProperties.FoldRightLast | src/parser.c:336-345 | the right fold applies the last operator to the last two values first |
| ReductionProperties.DrainIsRightFold | src/parser.c:336-345 | with one more value than operators above the values below, the drain computes the right fold `v0 o1 (v1 o2 (... on vn))`, innermost first, keeps the values below, and fails or is undefined at the first application that does |
| ParserProperties.ChainGroupsRight | src/parser.c:313-345 | the line `a o b o c ;` with equal-rank operators evaluates to `a o (b o c)` |
| ParserProperties.ChainStatement | src/parser.c:357-390 | the cursor `main` leaves is short of the end, so `parser_next` runs; it returns `a o (b o c)` and leaves the stream at the end of the buffer |
| ParserProperties.SubtractionGroupsRight | src/parser.c:357-390 | "1 - 2 - 3 ;" evaluates to 2 |
| ParserProperties.DivisionGroupsRight | src/parser.c:357-390 | "8 / 2 / 2 ;" evaluates to 8 |
| StatementProperties.NothingAtEndOrAfterError | src/parser.c:359-361 | at EOF or with a non-empty chain nothing is read or reported |
| StatementProperties.StatementStartsWithNumber | src/parser.c:364-380 | a statement that does not start with a number is a syntax error naming the token's kind, and the stream does not move |
| StatementProperties.ValueOnlyAfterSemicolon | src/parser.c:364-389 | a value is returned only when the expression yielded it with an empty chain and stopped on ';', and the stream is then advanced past the ';' |
| StatementProperties.MissingSemicolonReported | src/parser.c:382-385 | an expression that yields a value but does not stop on ';' is reported as a missing semicolon |
| StatementProperties.FailedExpressionIsSyntaxError | src/parser.c:367-380 | an expression with no value or with messages is a syntax error at the token where it stopped, after its own messages |
| StatementProperties.LiteralOpens | src/parser.c:416-417 | `main` opens the line "n ;" onto the integer token and the ';' |
| StatementProperties.LiteralFacts | src/parser.c:111-133 | the literal of "n ;" reads back as `n` (or ERANGE), and the advance past it reaches the ';' |
| StatementProperties.LiteralExpression | src/parser.c:257-355 | for every `n` that fits in 64 bits, the expression "n" evaluates to `n` and stops on the ';' |
| StatementProperties.LiteralStatement | src/parser.c:357-390 | for every natural `n`, the cursor `main` leaves on the line "n ;" is short of the end, so `parser_next` runs; it returns `n` and ends at the end of the buffer when `n` fits in 64 bits; otherwise it fails with the range message and then the syntax error |

## Left out

- `main` and its driver loop (src/parser.c:394-437) are left out: opening and mapping the file, printing results and freeing. Only the stream `main` sets up (`Parser.Open`) is modelled, and `ChainStatement` and `LiteralStatement` state that its cursor is short of the end, which is the loop's condition for calling `parser_next`; their lines therefore end with a newline, since a ';' in the last byte would leave the cursor at the end and `parser_next` would never run.
- `mfile_open` and `mfile_close` are left out because they are file-system I/O.
- The printing functions are left out because they are output only: `token_print`, `value_print`, `error_print` to stderr, and the debug `fprintf`s. `ErrorChain.Print` and `Parser.PrintPosition` return what they would print.
- The token text inside messages is not modelled. The unexpected-token messages name only the token kind, the unexpected-character message uses its code, and `PRINTABLE` escaping is not covered.
- Floating-point numbers are symbolic (`Double`): the value `strtod` converts and IEEE arithmetic are not modelled, only which operation was applied to which operands.
- RangeError: decides ERANGE for round-to-nearest, in the C locale, with underflow as glibc on x86-64 reports it (tiny after rounding and inexact). Other C libraries decide underflow before rounding, which moves the threshold by less than one subnormal step.
- Mfile.constructor: `mfile_open` never sets `pos` in the `malloc`ed cursor (src/file_stream.c:15-41), so the source starts from an indeterminate position; the model takes the position as a parameter, and `Parser.Open` starts at 0.
- Push: the dummy head that `error_push` allocates with `malloc` (src/error.c:24-34) has an indeterminate `next`, which the source then follows, and `Print` renders that head's indeterminate message (src/error.c:55-68); the model takes both as null, so the chain is exactly the messages pushed.
- ReadToken: after an unexpected character `token_read` returns its `calloc`ed token with type 0 (src/tokenizer.c:102, 136-137). The model gives that token a kind of its own, `Unknown`, rather than the identifier kind that 0 names in the stale enum of src/tokenizer.h. The message is pushed with it, so the advance that read it fails and no branch of the parser looks at the kind.
- Allocation failure of `malloc`, and the `free` of popped operators, are left out.
- Values are datatypes: `conv_int_to_float` returns the converted value rather than updating its argument in place.
- `is_operator` indexed by a negative `char` is not modelled; bytes of 128 and above are treated as non-operators.
- The draft token stream at the end of src/tokenizer.c and the stale token enum in src/tokenizer.h are not part of this model.
- ParseExpr: requires an empty error chain, which its one caller guarantees (src/parser.c:359).
- ParserNext: after undefined behaviour or an exit, no state is claimed.
- ParserNext: it, and `AdvanceSpec`, `ParseExprSpec` and `ParserNextSpec` beneath it, read tokens with the corrected operator reader. With the source's reader, an operator run that ends the buffer ("1 +" with no newline) is returned again on every advance and pushed until the stack limit exits; the model instead reads it once, reaches EOF and drains. `FinalOperatorIsReadForever` states the source's behaviour at the token level only.
- Open: the NULL token slots `main` starts with are an EOF token without a span.
- PrintPosition: its `int` counters are unbounded.
- That `parser_next` never reports "bad expression" is not proved for all inputs. `ReductionProperties.FinishShape` gives the exact condition under which the report happens.
- ReadOperatorInto: reads with the corrected reader, not the source's; the two differ only when the operator run ends the buffer (`TokenReadersAgreeUnlessOperatorEndsBuffer`).
- TokenRead: dispatches to the corrected operator reader, for the same reason and with the same difference.
- ReadTokenProgress: holds for the corrected reader only; the source's `token_read` makes no progress on an operator in the last byte (`FinalOperatorIsReadForever`).
- ReadWord: when a word ends the buffer, `IS_KEYWORD` subtracts the start of the word from the address of the shared EOF character, which is undefined behaviour; the model compares the whole word instead. `WordRule` is proved for every word, this case included.
- IntLiteral: takes `long` to be 64 bits wide, so `strtol` reports ERANGE above INT64_MAX; where `long` is 32 bits the bound is lower.
- ChainStatement: whole statements are evaluated end to end only for the chains `a o b o c ;` of single digits and for the single literal `n ;` (`LiteralStatement`). For operators of equal rank in general, right grouping is stated in two parts: `ReduceLowerIsStrict` (an operator of equal rank is not reduced when the next arrives) and `DrainIsRightFold` (the drain folds right). No single lemma covers arbitrary statements.
- The unit tests are not modelled beyond the two scenarios cited in the table.

## Findings

| source | as written | input that shows it | evidently intended | confidence | as-written member | corrected member |
|---|---|---|---|---|---|---|
| src/tokenizer.c:31-34 | the loop stops at end of file after a successful get, and the unconditional `mfile_decr_pos` then un-reads the last operator character | the buffer "+" (one byte, 43): the token spans nothing and the cursor returns to 0, so every later read yields the same token; a statement "1 +" then pushes '+' until the stack limit exits | the token covers the whole operator run and the cursor stops after it | not executed | Tokenizer.OperatorAtEndMakesNoProgress | Tokenizer.OperatorIsMaximalRun |
