# PosLang tokenizer, modelled in Dafny

This project models the PosLang lexer (`src/lex.rs`). The `Tokenizer` holds the
source lines and a cursor `(line, column)`. It walks each line once, left to
right, and does one of four things with each character:

- spaces, carriage returns and tabs are skipped;
- a maximal run of digits becomes one `NUMBER` token, positioned at its first
  digit and carrying the run's decimal value;
- one of `+ - * /` becomes one `OPERATOR` token at its own column;
- any other character becomes one `"Invalid token."` error, and scanning goes
  on.

Tokens and errors come back as two separate ordered sequences.

The project has four files:

- `lex_spec.dfy` (module `LexSpec`) holds the value types `Position`,
  `Token`, `TokenInfo`, `TokenError` and `i32`, and the character classes.
  It also holds the functional specification:
  - `ReadAt` is one read at a column;
  - `ScanLine` is the scan of a line from a column;
  - `Scan` is the scan of the lines from a given one on;
  - `ClassifiedTokens` / `ClassifiedErrors` are an independent reference that
    decides where a token starts from each column and its left neighbour, and
    takes a number's value from its run.
- `tokenizer.dfy` (module `Lex`) holds the class `Tokenizer`. Its fields are
  `source`, `line` and `column`. Its methods (`Tokenize`, `TokenizeLine`,
  `ReadNumber`, `ReadOperator`, `SkipSpaces`, `Consume`) move the cursor as
  the Rust code does; `Tokenize`, `TokenizeLine`, `ReadNumber` and
  `SkipSpaces` do it with `while` loops. `Tokenize` and `TokenizeLine` are
  proved against `Scan` and `ScanLine`, and `SkipSpaces` leaves `ScanLine`
  unchanged. `ReadNumber` is proved against the run end `RunEnd` and the
  run's decimal value, and `ReadOperator` and `Consume` against the
  character at the cursor. The pure queries `IsIgnored`, `IsOperator`, `Peek` and
  `LineRemaining` are functions reading the cursor.
- `lex_properties.dfy` (module `LexProperties`) proves what the scan promises:
  - the scan agrees with the per-column classification;
  - membership is characterised in both directions;
  - every character is accounted for;
  - whitespace-only lines contribute nothing;
  - positions stay in bounds;
  - tokens and errors come out in strictly increasing position order;
  - line locality holds;
  - a digit run's accumulated value never exceeds the run's value.
- `lex_examples.dfy` (module `LexExamples`) works through concrete lines.

The code consumes the offending character before it builds the error
(src/lex.rs:84-86), so an error's column is the character's column plus one.
The model does the same: `ReadAt` defines the column plus one, and
`ReadAtError`, `ErrorsOfLine` and `ErrorRecovery` state it.

Inputs are restricted by the constructor's precondition `InModel`:
- every line is ASCII;
- every digit run's value fits in an `i32` (`RunsFit`).

On ASCII input, Rust's `char::is_numeric` holds exactly of `'0'..'9'`. So
`ToDigit` never fails inside a run, and the `"Error parsing integer"` branch
of `read_number` is proved unreachable (an `assert false` in
`Lex.Tokenizer.ReadNumber`). A source with no lines scans to two empty
sequences: that is the first case of `Scan`.

## Model

| member | source | states |
|---|---|---|
| Lex.Tokenizer.constructor | src/lex.rs:55-57 | a new tokenizer holds the given lines with the cursor at line 0, column 0 |
| Lex.Tokenizer.Tokenize | src/lex.rs:59-70 | the lines from the cursor's line to the last are scanned in order, each from column 0. The tokens and errors returned are the concatenation of the per-line scans (`Scan`). Afterwards `line` is the number of lines and `column` is the length of the last line scanned |
| Lex.Tokenizer.TokenizeLine | src/lex.rs:72-96 | the rest of the current line, from the cursor, yields exactly `ScanLine`'s tokens and errors, and the cursor ends at the end of the line |
| Lex.Tokenizer.ReadNumber | src/lex.rs:98-113 | the cursor moves to the end of the maximal digit run. The result is a number token at the run's first column whose value is the run's decimal value; the accumulator `value * 10 + d` never leaves `i32` and the parse-error branch is unreachable |
| Lex.Tokenizer.ReadOperator | src/lex.rs:115-119 | exactly one character is consumed, and the operator token carries that character at its own column |
| Lex.Tokenizer.SkipSpaces | src/lex.rs:121-126 | the cursor moves forward over spaces, `\r` and `\t` only and stops at the end of the line or on a character that is not skipped. What the rest of the line scans to is unchanged |
| Lex.Tokenizer.Consume | src/lex.rs:129-133 | returns the character under the cursor and advances the column by exactly one |
| Lex.Tokenizer.IsIgnored | src/lex.rs:135-142 | holds exactly when the character at the cursor is a space, `'\r'` or `'\t'` |
| Lex.Tokenizer.IsOperator | src/lex.rs:144-152 | holds exactly when the character at the cursor is `+`, `-`, `*` or `/` |
| Lex.Tokenizer.Peek | src/lex.rs:155-158 | returns the character at the cursor's column of the cursor's line; the precondition keeps the cursor inside the line, so the `unwrap` cannot fail |
| Lex.Tokenizer.LineRemaining | src/lex.rs:160-162 | holds exactly when the column is before the end of the current line |
| Lex.TokenizeTwice | src/lex.rs:59-70 | on a fresh tokenizer the first `tokenize` returns the scan of the whole source and a second call returns two empty sequences: the tokenizer is single-use |
| LexSpec.IsDigit | src/lex.rs:79 | stands for `is_numeric`, which on ASCII input holds exactly of the ten characters `'0'` to `'9'` |
| LexSpec.ToDigit | src/lex.rs:102 | `to_digit(10)` succeeds exactly on the decimal digits and then yields the digit's value: a value below ten that is the digit's position in `"0123456789"` |
| LexSpec.RunEnd | src/lex.rs:101 | the digit loop stops at the first non-digit or the end of the line. Every character it passes is a digit |
| LexSpec.ScanLine | src/lex.rs:72-96 | the functional reference for `tokenize_line` from a column: whitespace is skipped and each read adds its token or its error. Since every read consumes at least one character, a line yields at most as many tokens and errors together as it has characters left |
| LexSpec.Scan | src/lex.rs:59-70 | the functional reference for `tokenize`: the per-line scans, each from column 0, one after the other. A source with no lines left yields two empty sequences, and the whole output is no longer than the number of characters |
| LexSpec.ReadAt | src/lex.rs:78-91 | one read never stays in place and never runs past the end of the line |
| LexProperties.ReadAtError | src/lex.rs:83-87 | a read fails exactly on a character that is neither a digit nor an operator (the scanner reads only where there is no whitespace). It then consumes that one character and records "Invalid token." one column past it |
| LexProperties.DecimalPrefix | src/lex.rs:103 | the accumulator only grows: the value of a prefix of a digit string is at most the value of the whole |
| LexProperties.DecimalPush | src/lex.rs:103 | appending a digit multiplies the value by ten and adds the digit |
| LexProperties.RunPrefixStep | src/lex.rs:101-103 | each step of the digit loop reads a digit of the run, and the new accumulator value is the longer prefix's value, still bounded by the run's value |
| LexProperties.ShortRunsFit | src/lex.rs:103 | runs of at most nine digits can never overflow `i32` |
| LexProperties.ShortLineFits | src/lex.rs:103 | a line of at most nine characters has no run that overflows |
| LexProperties.RunEndInside | src/lex.rs:101 | from any column inside a run, the digit loop reaches the same end as from the run's first digit |
| LexProperties.ClassifiedInsideRun | src/lex.rs:101 | columns strictly inside a run contribute nothing of their own to the per-column classification |
| LexProperties.ScanLineIsClassified | src/lex.rs:78-93 | from any column not inside a digit run, the scanner's tokens and errors equal the per-column classification. That classification gives one token per run start or operator and one error per invalid character, so each character yields at most one item |
| LexProperties.ClassifiedTokensMembers | src/lex.rs:79-82 | a token is in the classification iff some column starts a token and that column's token is it |
| LexProperties.ClassifiedErrorsMembers | src/lex.rs:83-86 | an error is in the classification iff some invalid character's column plus one is its column |
| LexProperties.TokensOfLine | src/lex.rs:98-119 | a line's tokens are exactly a number for each maximal digit run (at its first digit, with its value) and an operator for each `+ - * /` at its own column |
| LexProperties.ErrorsOfLine | src/lex.rs:83-86 | a line's errors are exactly one "Invalid token." per character that is neither whitespace, a digit nor an operator, at its column plus one |
| LexProperties.CharacterAccounted | src/lex.rs:78-93 | every non-whitespace character is accounted for. A digit lies inside the run of a number token in the line's tokens; an operator has its token; an invalid character has its error |
| LexProperties.ScanLineCount | src/lex.rs:78-93 | the number of tokens plus errors of a line is exactly the number of columns that start a token or hold an invalid character: each such character is accounted for once |
| LexProperties.ScanLineEmptyIffIgnored | src/lex.rs:121-142 | a line contributes no token and no error iff everything from the column on is whitespace |
| LexProperties.ScanLinePositions | src/lex.rs:78-93 | every token of a line is on that line at a column within it. Every error is on that line at a column after the start and at most the line's length |
| LexProperties.ScanPositions | src/lex.rs:59-70 | every token and error of the whole scan comes from the line its position names, scanned from column 0, and its column lies within that line |
| LexProperties.ScanLineLoopStep | src/lex.rs:78-93 | one iteration of `tokenize_line`'s loop keeps the collected tokens and errors a prefix of the line's scan |
| LexProperties.ScanLoopStep | src/lex.rs:62-68 | one iteration of `tokenize`'s loop keeps the collected tokens and errors a prefix of the whole scan |
| LexProperties.ScanLineInOrder | src/lex.rs:78-93 | within a line, tokens, and separately errors, come out in strictly increasing column order |
| LexProperties.ScanInOrder | src/lex.rs:59-70 | over the whole source, tokens, and separately errors, come out in strictly increasing (line, column) order |
| LexProperties.ScanIsLineLocal | src/lex.rs:62-69 | what the whole scan reports on line `k` is exactly what scanning line `k` alone from column 0 produces, since `column` is reset before each line |
| LexExamples.NumberAfterSpaces | src/lex.rs:76-113 | on `"  42"`, skipped spaces precede one number 42 at column 2 |
| LexExamples.MultiTokenLine | src/lex.rs:78-119 | on `"12+3"`, touching tokens split at class changes: 12 at column 0, `+` at column 2, 3 at column 3 |
| LexExamples.ErrorRecovery | src/lex.rs:83-92 | on `"5 & 3"`, the `&` at column 2 yields one error at column 3 and scanning continues to the 3 at column 4 |
| LexExamples.BlankLine | src/lex.rs:121-142 | a line of spaces and a tab yields nothing |
| LexExamples.DigitOperatorDigit | src/lex.rs:78-119 | a line of the shape digit, operator, digit yields those three tokens at columns 0, 1 and 2 |
| LexExamples.TwoLines | src/lex.rs:59-70 | on two lines, columns restart at 0 on the second line, and its tokens follow the first line's with line number 1 |

## Left out

- `src/main.rs` is not part of this model. It reads `example.pos` from disk and prints either the errors or the tokens. That is file I/O and console output.
- Lex.Tokenizer.ReadNumber: `i32` overflow is not modelled. A digit run whose value exceeds 2^31-1 panics in debug builds and wraps in release builds. The model instead requires every run to fit (`RunsFit` in the constructor's precondition).
- Lex.Tokenizer.constructor: lines must be ASCII. On other input, `line_remaining` compares a byte length with a character index (`peek` indexes characters), so `peek` can panic. `is_numeric` also accepts non-ASCII numerals, for which `to_digit(10)` fails with "Error parsing integer". Neither behaviour is modelled, and that error branch is shown unreachable under the ASCII restriction.
- The derived `Debug` formatting of the data types is not modelled. Error messages are kept as the two string constants only.
- `Peek` takes the character at a sequence index. Rust's `chars().nth` is linear in the column; cost is not modelled.
