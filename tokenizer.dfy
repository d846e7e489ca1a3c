/** The PosLang tokenizer: a cursor over the source lines that is moved
    forward, one character at a time, while tokens and errors are collected. */
module Lex {
  import opened LexSpec
  import LexProperties

  class Tokenizer {
    /** The source, one string per line. */
    const source: seq<string>
    var line: nat
    var column: nat

    ghost predicate Valid()
      reads this`line
    {
      line <= |source| && AllRunsFit(source)
    }

    constructor (source: seq<string>)
      requires InModel(source)
      ensures Valid()
      ensures this.source == source && line == 0 && column == 0
    {
      this.source := source;
      line := 0;
      column := 0;
    }

    /** Tokenizes every line from the current one to the last; afterwards the
        cursor is past the last line, so a second call finds nothing left. */
    method Tokenize() returns (tokens: seq<TokenInfo>, errors: seq<TokenError>)
      requires Valid()
      modifies this
      ensures Valid()
      ensures line == |source|
      ensures column == if old(line) < |source| then |source[|source| - 1]| else old(column)
      ensures tokens == Scan(source, old(line)).0 && errors == Scan(source, old(line)).1
    {
      tokens, errors := [], [];
      while line < |source|
        invariant Valid() && old(line) <= line
        invariant old(line) < line ==> column == |source[line - 1]|
        invariant line == old(line) ==> column == old(column)
        invariant Scan(source, old(line)).0 == tokens + Scan(source, line).0
        invariant Scan(source, old(line)).1 == errors + Scan(source, line).1
        decreases |source| - line
      {
        column := 0;
        var toks, errs := TokenizeLine();
        LexProperties.ScanLoopStep(source, old(line), line, tokens, errors, toks, errs);
        tokens := tokens + toks;
        errors := errors + errs;
        line := line + 1;
      }
    }

    /** Tokenizes the rest of the current line, leaving the cursor at its end. */
    method TokenizeLine() returns (tokens: seq<TokenInfo>, errors: seq<TokenError>)
      requires Valid() && line < |source| && column <= |source[line]|
      modifies this`column
      ensures column == |source[line]|
      ensures tokens == ScanLine(source[line], line, old(column)).0
      ensures errors == ScanLine(source[line], line, old(column)).1
    {
      ghost var text := source[line];
      tokens, errors := [], [];
      SkipSpaces();
      while LineRemaining()
        invariant old(column) <= column <= |text|
        invariant column < |text| ==> !IsIgnoredChar(text[column])
        invariant ScanLine(text, line, old(column)).0 == tokens + ScanLine(text, line, column).0
        invariant ScanLine(text, line, old(column)).1 == errors + ScanLine(text, line, column).1
        decreases |text| - column
      {
        ghost var here := column;
        var result: Result<TokenInfo, TokenError>;
        if IsDigit(Peek()) {
          result := ReadNumber();
          assert (result, column) == ReadAt(text, line, here);
        } else if IsOperator() {
          result := ReadOperator();
          assert (result, column) == ReadAt(text, line, here);
        } else {
          var _ := Consume();
          result := Err(TokenError(INVALID_TOKEN, Position(line, column)));
          assert (result, column) == ReadAt(text, line, here);
        }
        ghost var before := (tokens, errors);
        match result {
          case Ok(token) => tokens := tokens + [token];
          case Err(err) => errors := errors + [err];
        }
        SkipSpaces();
        LexProperties.ScanLineLoopStep(text, line, old(column), here, column, before.0, before.1, result, tokens, errors);
      }
    }

    /** Reads the maximal run of digits at the cursor as one number token,
        positioned at its first digit. */
    method ReadNumber() returns (r: Result<TokenInfo, TokenError>)
      requires Valid() && line < |source| && column <= |source[line]|
      modifies this`column
      ensures column == RunEnd(source[line], old(column))
      ensures r == Ok(NumberAt(source[line], line, old(column)))
    {
      ghost var text := source[line];
      var start: nat := column;
      ghost var end := RunEnd(text, start);
      var value: i32 := 0;
      while LineRemaining() && IsDigit(Peek())
        invariant start <= column <= end
        invariant AllDigits(text[start..column])
        invariant value as int == Decimal(text[start..column])
        decreases |text| - column
      {
        LexProperties.RunPrefixStep(text, start, column);
        var c := Consume();
        match ToDigit(c) {
          case None =>
            assert false;
            return Err(TokenError(INTEGER_PARSE_ERROR, Position(line, start)));
          case Some(n) =>
            value := value * 10 + n as i32;
        }
      }
      return Ok(TokenInfo(Number(value), Position(line, start)));
    }

    /** Reads the operator at the cursor, positioned at its own column. */
    method ReadOperator() returns (r: Result<TokenInfo, TokenError>)
      requires Valid() && line < |source| && column < |source[line]|
      modifies this`column
      ensures column == old(column) + 1
      ensures r == Ok(TokenInfo(Operator(source[line][old(column)]), Position(line, old(column))))
    {
      var start := column;
      var value := Consume();
      return Ok(TokenInfo(Operator(value), Position(line, start)));
    }

    /** Moves the cursor over spaces, carriage returns and tabs; what the
        rest of the line scans to is unchanged. */
    method SkipSpaces()
      requires Valid() && line < |source| && column <= |source[line]|
      modifies this`column
      ensures old(column) <= column <= |source[line]|
      ensures forall k :: old(column) <= k < column ==> IsIgnoredChar(source[line][k])
      ensures column < |source[line]| ==> !IsIgnoredChar(source[line][column])
      ensures ScanLine(source[line], line, column) == ScanLine(source[line], line, old(column))
    {
      while column < |source[line]| && IsIgnored()
        invariant old(column) <= column <= |source[line]|
        invariant forall k :: old(column) <= k < column ==> IsIgnoredChar(source[line][k])
        invariant ScanLine(source[line], line, column) == ScanLine(source[line], line, old(column))
        decreases |source[line]| - column
      {
        column := column + 1;
      }
    }

    /** Returns the character at the cursor and moves past it. */
    method Consume() returns (c: char)
      requires line < |source| && column < |source[line]|
      modifies this`column
      ensures c == source[line][old(column)] && column == old(column) + 1
    {
      c := Peek();
      column := column + 1;
    }

    /** The character under the cursor is skipped between tokens. */
    predicate IsIgnored()
      reads this
      requires line < |source| && column < |source[line]|
      ensures IsIgnored() <==> source[line][column] in {' ', '\r', '\t'}
    {
      IsIgnoredChar(Peek())
    }

    /** The character under the cursor is one of the four operators. */
    predicate IsOperator()
      reads this
      requires line < |source| && column < |source[line]|
      ensures IsOperator() <==> source[line][column] in {'+', '-', '*', '/'}
    {
      IsOperatorChar(Peek())
    }

    /** The character under the cursor; callers keep the cursor inside the
        line, so there is always one. */
    function Peek(): (c: char)
      reads this
      requires line < |source| && column < |source[line]|
      ensures c == source[line][column]
    {
      source[line][column]
    }

    /** Some of the current line is still ahead of the cursor. */
    predicate LineRemaining()
      reads this
      requires line < |source|
      ensures LineRemaining() <==> column < |source[line]|
    {
      column < |source[line]|
    }
  }

  /** A tokenizer is single-use: the first call scans the whole source and
      leaves the cursor past the last line, so a second call yields nothing. */
  method TokenizeTwice(source: seq<string>) returns (first: Scanned, second: Scanned)
    requires InModel(source)
    ensures first == Scan(source, 0)
    ensures second == ([], [])
  {
    var tokenizer := new Tokenizer(source);
    var tokens, errors := tokenizer.Tokenize();
    first := (tokens, errors);
    tokens, errors := tokenizer.Tokenize();
    second := (tokens, errors);
  }
}
