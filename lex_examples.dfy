/** Worked inputs: what the scanner produces for a few concrete lines. */
module LexExamples {
  import opened LexSpec
  import LexProperties

  /** A number is positioned at its first digit, after the skipped spaces. */
  lemma NumberAfterSpaces()
    ensures RunsFit("  42")
    ensures ScanLine("  42", 0, 0) == ([TokenInfo(Number(42), Position(0, 2))], [])
  {
    var line := "  42";
    LexProperties.ShortLineFits(line);
    assert RunEnd(line, 2) == 4;
    LexProperties.DecimalPush([], '4');
    LexProperties.DecimalPush(['4'], '2');
    assert line[2..4] == ['4'] + ['2'] && ['4'] == [] + ['4'];
    assert NumberAt(line, 0, 2) == TokenInfo(Number(42), Position(0, 2));
    var r4 := ScanLine(line, 0, 4);
    var r2 := ScanLine(line, 0, 2);
    assert r2 == ([NumberAt(line, 0, 2)] + r4.0, r4.1);
    assert ScanLine(line, 0, 0) == ScanLine(line, 0, 1) == r2;
    assert r2.0 == [TokenInfo(Number(42), Position(0, 2))];
  }

  /** Numbers and operators may touch; each run of digits is one token. */
  lemma MultiTokenLine()
    ensures RunsFit("12+3")
    ensures ScanLine("12+3", 0, 0) == ([TokenInfo(Number(12), Position(0, 0)),
                                        TokenInfo(Operator('+'), Position(0, 2)),
                                        TokenInfo(Number(3), Position(0, 3))], [])
  {
    var line := "12+3";
    LexProperties.ShortLineFits(line);
    assert RunEnd(line, 3) == 4 && RunEnd(line, 0) == 2;
    LexProperties.DecimalPush([], '1');
    LexProperties.DecimalPush(['1'], '2');
    LexProperties.DecimalPush([], '3');
    assert line[3..4] == [] + ['3'] && line[0..2] == ['1'] + ['2'] && ['1'] == [] + ['1'];
    assert NumberAt(line, 0, 3) == TokenInfo(Number(3), Position(0, 3));
    assert NumberAt(line, 0, 0) == TokenInfo(Number(12), Position(0, 0));
    var r4 := ScanLine(line, 0, 4);
    var r3 := ScanLine(line, 0, 3);
    assert r3 == ([NumberAt(line, 0, 3)] + r4.0, r4.1);
    var r2 := ScanLine(line, 0, 2);
    assert r2 == ([TokenInfo(Operator('+'), Position(0, 2))] + r3.0, r3.1);
    var r0 := ScanLine(line, 0, 0);
    assert r0 == ([NumberAt(line, 0, 0)] + r2.0, r2.1);
    assert r0.0 == [TokenInfo(Number(12), Position(0, 0)),
                    TokenInfo(Operator('+'), Position(0, 2)),
                    TokenInfo(Number(3), Position(0, 3))];
  }

  /** An invalid character costs one error, recorded one column past it
      (column 3 for the `&` at column 2), and scanning goes on. */
  lemma ErrorRecovery()
    ensures RunsFit("5 & 3")
    ensures ScanLine("5 & 3", 0, 0) == ([TokenInfo(Number(5), Position(0, 0)),
                                         TokenInfo(Number(3), Position(0, 4))],
                                        [TokenError(INVALID_TOKEN, Position(0, 3))])
  {
    var line := "5 & 3";
    LexProperties.ShortLineFits(line);
    assert RunEnd(line, 4) == 5 && RunEnd(line, 0) == 1;
    LexProperties.DecimalPush([], '3');
    LexProperties.DecimalPush([], '5');
    assert line[4..5] == [] + ['3'] && line[0..1] == [] + ['5'];
    assert NumberAt(line, 0, 4) == TokenInfo(Number(3), Position(0, 4));
    assert NumberAt(line, 0, 0) == TokenInfo(Number(5), Position(0, 0));
    var r5 := ScanLine(line, 0, 5);
    var r4 := ScanLine(line, 0, 4);
    assert r4 == ([NumberAt(line, 0, 4)] + r5.0, r5.1);
    var r2 := ScanLine(line, 0, 2);
    assert r2 == (r4.0, [TokenError(INVALID_TOKEN, Position(0, 3))] + r4.1) by {
      assert ScanLine(line, 0, 3) == r4;
    }
    var r0 := ScanLine(line, 0, 0);
    assert r0 == ([NumberAt(line, 0, 0)] + r2.0, r2.1) by {
      assert ScanLine(line, 0, 1) == r2;
    }
    assert r0.0 == [TokenInfo(Number(5), Position(0, 0)), TokenInfo(Number(3), Position(0, 4))];
    assert r0.1 == [TokenError(INVALID_TOKEN, Position(0, 3))];
  }

  /** A line of spaces and tabs produces nothing. */
  lemma BlankLine()
    ensures RunsFit("   \t  ")
    ensures ScanLine("   \t  ", 0, 0) == ([], [])
  {
    LexProperties.ShortLineFits("   \t  ");
    LexProperties.ScanLineEmptyIffIgnored("   \t  ", 0, 0);
  }

  /** Columns restart at 0 on every line, and lines are numbered in order. */
  lemma TwoLines()
    ensures AllRunsFit(["1+2", "3*4"])
    ensures Scan(["1+2", "3*4"], 0) == ([TokenInfo(Number(1), Position(0, 0)),
                                         TokenInfo(Operator('+'), Position(0, 1)),
                                         TokenInfo(Number(2), Position(0, 2)),
                                         TokenInfo(Number(3), Position(1, 0)),
                                         TokenInfo(Operator('*'), Position(1, 1)),
                                         TokenInfo(Number(4), Position(1, 2))], [])
  {
    var source := ["1+2", "3*4"];
    var first := DigitOperatorDigit(source[0], 0);
    var second := DigitOperatorDigit(source[1], 1);
    assert first == [TokenInfo(Number(1), Position(0, 0)),
                     TokenInfo(Operator('+'), Position(0, 1)),
                     TokenInfo(Number(2), Position(0, 2))];
    assert second == [TokenInfo(Number(3), Position(1, 0)),
                      TokenInfo(Operator('*'), Position(1, 1)),
                      TokenInfo(Number(4), Position(1, 2))];
    var r2 := Scan(source, 2);
    var r1 := Scan(source, 1);
    assert r1.0 == second && r1.1 == [];
    var r0 := Scan(source, 0);
    assert r0.0 == first + second && r0.1 == [];
    assert first + second == [TokenInfo(Number(1), Position(0, 0)),
                              TokenInfo(Operator('+'), Position(0, 1)),
                              TokenInfo(Number(2), Position(0, 2)),
                              TokenInfo(Number(3), Position(1, 0)),
                              TokenInfo(Operator('*'), Position(1, 1)),
                              TokenInfo(Number(4), Position(1, 2))];
    assert r0 == (first + second, []);
    assert r0 == Scan(["1+2", "3*4"], 0);
  }

  /** The tokens of a line of the shape digit, operator, digit. */
  lemma DigitOperatorDigit(line: string, n: nat) returns (tokens: seq<TokenInfo>)
    requires |line| == 3 && IsDigit(line[0]) && IsOperatorChar(line[1]) && IsDigit(line[2])
    ensures RunsFit(line)
    ensures tokens == [TokenInfo(Number(DigitValue(line[0]) as i32), Position(n, 0)),
                       TokenInfo(Operator(line[1]), Position(n, 1)),
                       TokenInfo(Number(DigitValue(line[2]) as i32), Position(n, 2))]
    ensures ScanLine(line, n, 0) == (tokens, [])
  {
    LexProperties.ShortLineFits(line);
    assert RunEnd(line, 3) == 3;
    assert RunEnd(line, 2) == 3;
    assert RunEnd(line, 1) == 1;
    assert RunEnd(line, 0) == 1;
    LexProperties.DecimalPush([], line[0]);
    LexProperties.DecimalPush([], line[2]);
    assert line[2..3] == [] + [line[2]] && line[0..1] == [] + [line[0]];
    var r3 := ScanLine(line, n, 3);
    var r2 := ScanLine(line, n, 2);
    assert r2 == ([NumberAt(line, n, 2)] + r3.0, r3.1);
    var r1 := ScanLine(line, n, 1);
    assert r1 == ([TokenInfo(Operator(line[1]), Position(n, 1))] + r2.0, r2.1);
    var r0 := ScanLine(line, n, 0);
    assert r0 == ([NumberAt(line, n, 0)] + r1.0, r1.1);
    tokens := r0.0;
  }
}
