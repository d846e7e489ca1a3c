/** Values of the PosLang lexer and a functional specification of what
    scanning a line, and a whole source, produces. */
module LexSpec {

  /** Rust's `i32`, the type of a number token's value. */
  newtype i32 = x: int | -0x8000_0000 <= x < 0x8000_0000

  const I32_MAX: int := 0x7fff_ffff

  datatype Option<T> = None | Some(value: T)

  datatype Result<T, E> = Ok(value: T) | Err(error: E)

  /** Zero-based line and column of a character. */
  datatype Position = Position(line: nat, column: nat)

  datatype Token = Number(value: i32) | Operator(symbol: char)

  datatype TokenInfo = TokenInfo(token: Token, position: Position)

  datatype TokenError = TokenError(message: string, position: Position)

  /** What scanning produces: the tokens and, independently, the errors. */
  type Scanned = (seq<TokenInfo>, seq<TokenError>)

  const INVALID_TOKEN: string := "Invalid token."
  const INTEGER_PARSE_ERROR: string := "Error parsing integer"

  // Character classes

  /** Characters skipped between tokens. */
  predicate IsIgnoredChar(c: char) {
    c == ' ' || c == '\r' || c == '\t'
  }

  predicate IsOperatorChar(c: char) {
    c == '+' || c == '-' || c == '*' || c == '/'
  }

  /** On ASCII characters, Rust's `char::is_numeric` holds exactly of these. */
  predicate IsDigit(c: char)
    ensures IsDigit(c) <==> c in {'0', '1', '2', '3', '4', '5', '6', '7', '8', '9'}
  {
    '0' <= c <= '9'
  }

  /** A character that is neither skipped nor the start of a token. */
  predicate IsInvalidChar(c: char) {
    !IsIgnoredChar(c) && !IsDigit(c) && !IsOperatorChar(c)
  }

  predicate IsAscii(line: string) {
    line == [] || (line[0] < 128 as char && IsAscii(line[1..]))
  }

  function DigitValue(c: char): nat
    requires IsDigit(c)
  {
    c as int - '0' as int
  }

  /** Rust's `char::to_digit(10)`: defined exactly on the ASCII digits. */
  function ToDigit(c: char): (d: Option<nat>)
    ensures d.Some? <==> IsDigit(c)
    ensures d.Some? ==> d.value < 10 && "0123456789"[d.value] == c
  {
    if IsDigit(c) then Some(DigitValue(c)) else None
  }

  // Digit runs

  predicate AllDigits(s: string) {
    forall i :: 0 <= i < |s| ==> IsDigit(s[i])
  }

  /** The decimal value of a digit string, read from left to right. */
  function Decimal(s: string): nat
    requires AllDigits(s)
  {
    if s == [] then 0 else Decimal(s[..|s| - 1]) * 10 + DigitValue(s[|s| - 1])
  }

  /** The end of the maximal run of digits that starts at column `i`. */
  function RunEnd(line: string, i: nat): (e: nat)
    requires i <= |line|
    ensures i <= e <= |line|
    ensures AllDigits(line[i..e])
    ensures e == |line| || !IsDigit(line[e])
    decreases |line| - i
  {
    if i < |line| && IsDigit(line[i]) then
      var e := RunEnd(line, i + 1);
      assert line[i..e] == [line[i]] + line[i + 1..e];
      e
    else
      i
  }

  /** The value of the maximal digit run that starts at column `i`. */
  function RunValue(line: string, i: nat): nat
    requires i <= |line|
  {
    Decimal(line[i..RunEnd(line, i)])
  }

  /** Every digit run of the line has a value that fits in an `i32`. */
  predicate RunsFit(line: string) {
    forall i :: 0 <= i <= |line| ==> RunValue(line, i) <= I32_MAX
  }

  predicate AllRunsFit(source: seq<string>) {
    forall k :: 0 <= k < |source| ==> RunsFit(source[k])
  }

  /** The inputs the model covers: ASCII lines whose digit runs fit in an `i32`. */
  predicate InModel(source: seq<string>) {
    AllRunsFit(source) && forall k :: 0 <= k < |source| ==> IsAscii(source[k])
  }

  /** The number token for the digit run starting at column `col` of line `n`. */
  function NumberAt(line: string, n: nat, col: nat): TokenInfo
    requires col <= |line| && RunsFit(line)
  {
    TokenInfo(Number(RunValue(line, col) as i32), Position(n, col))
  }

  // The scanner, as functions

  /** What reading at column `col`, which is not whitespace, yields and the
      column after it: a maximal digit run is one number token at its first
      digit; `+ - * /` is one operator token at its own column; any other
      character is one error, recorded one column past it. Reading always
      moves forward and never past the end of the line. */
  function ReadAt(line: string, n: nat, col: nat): (r: (Result<TokenInfo, TokenError>, nat))
    requires col < |line| && RunsFit(line)
    ensures col < r.1 <= |line|
  {
    if IsDigit(line[col]) then
      (Ok(NumberAt(line, n, col)), RunEnd(line, col))
    else if IsOperatorChar(line[col]) then
      (Ok(TokenInfo(Operator(line[col]), Position(n, col))), col + 1)
    else
      (Err(TokenError(INVALID_TOKEN, Position(n, col + 1))), col + 1)
  }

  /** What the scanner produces for line `line` (number `n`) from column `col`
      on: whitespace is skipped, and every other read adds its token or its
      error. */
  function ScanLine(line: string, n: nat, col: nat): (r: Scanned)
    requires col <= |line| && RunsFit(line)
    ensures |r.0| + |r.1| <= |line| - col
    decreases |line| - col
  {
    if col == |line| then
      ([], [])
    else if IsIgnoredChar(line[col]) then
      ScanLine(line, n, col + 1)
    else
      var (result, next) := ReadAt(line, n, col);
      var rest := ScanLine(line, n, next);
      match result
      case Ok(token) => ([token] + rest.0, rest.1)
      case Err(err) => (rest.0, [err] + rest.1)
  }

  /** The number of characters in lines `from` to the end. */
  function Length(source: seq<string>, from: nat): nat
    requires from <= |source|
    decreases |source| - from
  {
    if from == |source| then 0 else |source[from]| + Length(source, from + 1)
  }

  /** What the scanner produces for lines `from` to the end: the scans of
      the lines, each from column 0, one after the other. */
  function Scan(source: seq<string>, from: nat): (r: Scanned)
    requires from <= |source| && AllRunsFit(source)
    ensures from == |source| ==> r == ([], [])
    ensures |r.0| + |r.1| <= Length(source, from)
    decreases |source| - from
  {
    if from == |source| then
      ([], [])
    else
      var here := ScanLine(source[from], from, 0);
      var rest := Scan(source, from + 1);
      (here.0 + rest.0, here.1 + rest.1)
  }

  // A reference classification, one character at a time

  /** Column `i` holds the first digit of a maximal run. */
  predicate StartsNumber(line: string, i: nat)
    requires i < |line|
  {
    IsDigit(line[i]) && (i == 0 || !IsDigit(line[i - 1]))
  }

  /** Column `i` holds the first character of a token. */
  predicate StartsToken(line: string, i: nat)
    requires i < |line|
  {
    StartsNumber(line, i) || IsOperatorChar(line[i])
  }

  /** The token whose first character is at column `i`. */
  function TokenAt(line: string, n: nat, i: nat): TokenInfo
    requires i < |line| && RunsFit(line)
  {
    if IsDigit(line[i]) then NumberAt(line, n, i)
    else TokenInfo(Operator(line[i]), Position(n, i))
  }

  /** The tokens starting at columns `i` and later: where a token starts is
      decided from each column and its left neighbour alone. */
  function ClassifiedTokens(line: string, n: nat, i: nat): seq<TokenInfo>
    requires i <= |line| && RunsFit(line)
    decreases |line| - i
  {
    if i == |line| then []
    else (if StartsToken(line, i) then [TokenAt(line, n, i)] else []) + ClassifiedTokens(line, n, i + 1)
  }

  /** One error per invalid character at columns `i` and later. */
  function ClassifiedErrors(line: string, n: nat, i: nat): seq<TokenError>
    requires i <= |line|
    decreases |line| - i
  {
    if i == |line| then []
    else
      var here := if IsInvalidChar(line[i]) then [TokenError(INVALID_TOKEN, Position(n, i + 1))] else [];
      here + ClassifiedErrors(line, n, i + 1)
  }

  /** Column `col` is not strictly inside a run of digits. */
  predicate OnBoundary(line: string, col: nat)
    requires col <= |line|
  {
    col == 0 || col == |line| || !IsDigit(line[col - 1]) || !IsDigit(line[col])
  }

  // Scan order

  /** `p` comes strictly before `q`, top to bottom, left to right. */
  predicate Before(p: Position, q: Position) {
    p.line < q.line || (p.line == q.line && p.column < q.column)
  }

  predicate TokensInOrder(ts: seq<TokenInfo>) {
    forall i, j :: 0 <= i < j < |ts| ==> Before(ts[i].position, ts[j].position)
  }

  predicate ErrorsInOrder(es: seq<TokenError>) {
    forall i, j :: 0 <= i < j < |es| ==> Before(es[i].position, es[j].position)
  }
}
