/** Properties of the scanner's specification: digit runs and their values,
    what each character class contributes, scan order, and line locality. */
module LexProperties {
  import opened LexSpec

  lemma AppendAssoc<T>(a: seq<T>, b: seq<T>, c: seq<T>)
    ensures (a + b) + c == a + (b + c)
  {
  }

  /** One read of the scanner's loop: its token or error comes first, then
      whatever the rest of the line yields. */
  lemma ScanLineRead(line: string, n: nat, col: nat)
    requires col < |line| && RunsFit(line) && !IsIgnoredChar(line[col])
    ensures var (result, next) := ReadAt(line, n, col);
            && ScanLine(line, n, col).0 == (if result.Ok? then [result.value] else []) + ScanLine(line, n, next).0
            && ScanLine(line, n, col).1 == (if result.Err? then [result.error] else []) + ScanLine(line, n, next).1
  {
  }

  /** A read fails exactly on a character that is neither a digit nor an
      operator; it then consumes that one character and records
      "Invalid token." one column past it. */
  lemma ReadAtError(line: string, n: nat, col: nat)
    requires col < |line| && RunsFit(line)
    ensures ReadAt(line, n, col).0.Err? <==> !IsDigit(line[col]) && !IsOperatorChar(line[col])
    ensures ReadAt(line, n, col).0.Err? ==>
      ReadAt(line, n, col) == (Err(TokenError(INVALID_TOKEN, Position(n, col + 1))), col + 1)
  {
  }

  // Digit runs and their values

  /** The accumulator only grows: every prefix of a digit string has a value
      no larger than the whole. */
  lemma {:induction false} DecimalPrefix(s: string, k: nat)
    requires AllDigits(s) && k <= |s|
    ensures AllDigits(s[..k]) && Decimal(s[..k]) <= Decimal(s)
    decreases |s| - k
  {
    if k < |s| {
      var t := s[..|s| - 1];
      assert t[..k] == s[..k];
      DecimalPrefix(t, k);
    } else {
      assert s[..k] == s;
    }
  }

  /** One step of the accumulator: appending a digit multiplies the value
      by ten and adds the digit. */
  lemma DecimalPush(s: string, c: char)
    requires AllDigits(s) && IsDigit(c)
    ensures AllDigits(s + [c]) && Decimal(s + [c]) == Decimal(s) * 10 + DigitValue(c)
  {
    assert (s + [c])[..|s|] == s;
  }

  /** One step of reading a run: taking the next digit of the run into the
      accumulator yields the value of the longer prefix, which is still no
      larger than the value of the whole run. */
  lemma RunPrefixStep(line: string, start: nat, col: nat)
    requires start <= col < |line| && col < RunEnd(line, start)
    ensures IsDigit(line[col]) && AllDigits(line[start..col]) && AllDigits(line[start..col + 1])
    ensures Decimal(line[start..col + 1]) == Decimal(line[start..col]) * 10 + DigitValue(line[col])
    ensures Decimal(line[start..col + 1]) <= RunValue(line, start)
  {
    var run := line[start..RunEnd(line, start)];
    assert run[col - start] == line[col];
    DecimalPrefix(run, col + 1 - start);
    assert run[..col + 1 - start] == line[start..col + 1];
    assert line[start..col + 1][..col - start] == line[start..col];
  }

  function Pow10(k: nat): (p: nat)
    ensures p >= 1
  {
    if k == 0 then 1 else 10 * Pow10(k - 1)
  }

  lemma {:induction false} Pow10Monotone(j: nat, k: nat)
    requires j <= k
    ensures Pow10(j) <= Pow10(k)
    decreases k - j
  {
    if j < k {
      Pow10Monotone(j, k - 1);
    }
  }

  /** A string of `m` digits has a value below 10^m. */
  lemma {:induction false} DecimalBelowPow10(s: string)
    requires AllDigits(s)
    ensures Decimal(s) < Pow10(|s|)
  {
    if s != [] {
      DecimalBelowPow10(s[..|s| - 1]);
    }
  }

  /** A line whose digit runs have at most nine digits satisfies `RunsFit`. */
  lemma ShortRunsFit(line: string)
    requires forall i :: 0 <= i <= |line| ==> RunEnd(line, i) - i <= 9
    ensures RunsFit(line)
  {
    forall i | 0 <= i <= |line|
      ensures RunValue(line, i) <= I32_MAX
    {
      var run := line[i..RunEnd(line, i)];
      DecimalBelowPow10(run);
      Pow10Monotone(|run|, 9);
    }
  }

  /** A line of at most nine characters has no run that could overflow. */
  lemma ShortLineFits(line: string)
    requires |line| <= 9
    ensures RunsFit(line)
  {
    ShortRunsFit(line);
  }

  /** Where the maximal digit run containing column `c` starts. */
  function RunStart(line: string, c: nat): (s: nat)
    requires c < |line|
    ensures s <= c
    ensures forall j :: s <= j < c ==> IsDigit(line[j])
    ensures s == 0 || !IsDigit(line[s - 1])
  {
    if c > 0 && IsDigit(line[c - 1]) then RunStart(line, c - 1) else c
  }

  /** Inside a run of digits every column reaches the same run end. */
  lemma {:induction false} RunEndInside(line: string, s: nat, c: nat)
    requires s <= c < |line|
    requires forall j :: s <= j <= c ==> IsDigit(line[j])
    ensures RunEnd(line, s) == RunEnd(line, c) && c < RunEnd(line, s)
    decreases c - s
  {
    if s < c {
      RunEndInside(line, s + 1, c);
    }
  }

  // The scan of one line agrees with the per-character classification

  lemma {:induction false} ClassifiedInsideRun(line: string, n: nat, k: nat, e: nat)
    requires RunsFit(line) && 0 < k <= e <= |line|
    requires forall j :: k - 1 <= j < e ==> IsDigit(line[j])
    ensures ClassifiedTokens(line, n, k) == ClassifiedTokens(line, n, e)
    ensures ClassifiedErrors(line, n, k) == ClassifiedErrors(line, n, e)
    decreases e - k
  {
    if k < e {
      ClassifiedInsideRun(line, n, k + 1, e);
    }
  }

  /** From any column that is not inside a digit run, the scanner's walk
      yields exactly the tokens and errors that the column-by-column
      classification assigns: a token for each run start and each operator,
      an error for each invalid character. */
  lemma {:induction false} ScanLineIsClassified(line: string, n: nat, col: nat)
    requires col <= |line| && RunsFit(line) && OnBoundary(line, col)
    ensures ScanLine(line, n, col).0 == ClassifiedTokens(line, n, col)
    ensures ScanLine(line, n, col).1 == ClassifiedErrors(line, n, col)
    decreases |line| - col
  {
    if col < |line| {
      if IsDigit(line[col]) {
        var e := RunEnd(line, col);
        forall j | col <= j < e
          ensures IsDigit(line[j])
        {
          assert line[col..e][j - col] == line[j];
        }
        ClassifiedInsideRun(line, n, col + 1, e);
        ScanLineIsClassified(line, n, e);
      } else {
        assert OnBoundary(line, col + 1);
        ScanLineIsClassified(line, n, col + 1);
        assert ClassifiedErrors(line, n, col)
               == (if IsInvalidChar(line[col]) then [TokenError(INVALID_TOKEN, Position(n, col + 1))] else [])
                  + ClassifiedErrors(line, n, col + 1);
        assert ClassifiedTokens(line, n, col)
               == (if StartsToken(line, col) then [TokenAt(line, n, col)] else [])
                  + ClassifiedTokens(line, n, col + 1);
      }
    }
  }

  lemma {:induction false} ClassifiedTokensMembers(line: string, n: nat, i: nat, t: TokenInfo)
    requires i <= |line| && RunsFit(line)
    ensures t in ClassifiedTokens(line, n, i)
            <==> exists c :: i <= c < |line| && StartsToken(line, c) && t == TokenAt(line, n, c)
    decreases |line| - i
  {
    if i < |line| {
      var head := if StartsToken(line, i) then [TokenAt(line, n, i)] else [];
      var rest := ClassifiedTokens(line, n, i + 1);
      assert ClassifiedTokens(line, n, i) == head + rest;
      ClassifiedTokensMembers(line, n, i + 1, t);
      if t in head {
        assert StartsToken(line, i) && t == TokenAt(line, n, i);
      } else if exists c :: i <= c < |line| && StartsToken(line, c) && t == TokenAt(line, n, c) {
        var c :| i <= c < |line| && StartsToken(line, c) && t == TokenAt(line, n, c);
        assert c != i;
        assert t in rest;
      }
    }
  }

  lemma {:induction false} ClassifiedErrorsMembers(line: string, n: nat, i: nat, err: TokenError)
    requires i <= |line|
    ensures err in ClassifiedErrors(line, n, i)
            <==> exists c :: i <= c < |line| && IsInvalidChar(line[c])
                             && err == TokenError(INVALID_TOKEN, Position(n, c + 1))
    decreases |line| - i
  {
    if i < |line| {
      var head := if IsInvalidChar(line[i]) then [TokenError(INVALID_TOKEN, Position(n, i + 1))] else [];
      var rest := ClassifiedErrors(line, n, i + 1);
      assert ClassifiedErrors(line, n, i) == head + rest;
      ClassifiedErrorsMembers(line, n, i + 1, err);
      if err in head {
        assert IsInvalidChar(line[i]) && err == TokenError(INVALID_TOKEN, Position(n, i + 1));
      } else if exists c :: i <= c < |line| && IsInvalidChar(line[c])
                            && err == TokenError(INVALID_TOKEN, Position(n, c + 1)) {
        var c :| i <= c < |line| && IsInvalidChar(line[c])
                 && err == TokenError(INVALID_TOKEN, Position(n, c + 1));
        assert c != i;
        assert err in rest;
      }
    }
  }

  /** The tokens of a line are exactly: a number for each maximal digit run,
      at its first digit and with the run's decimal value, and an operator for
      each of `+ - * /`, at its own column. */
  lemma TokensOfLine(line: string, n: nat, t: TokenInfo)
    requires RunsFit(line)
    ensures t in ScanLine(line, n, 0).0
            <==> exists c :: 0 <= c < |line| && StartsToken(line, c) && t == TokenAt(line, n, c)
  {
    ScanLineIsClassified(line, n, 0);
    ClassifiedTokensMembers(line, n, 0, t);
  }

  /** The errors of a line are exactly one "Invalid token." per character that
      is neither whitespace, a digit nor an operator, recorded one column past it. */
  lemma ErrorsOfLine(line: string, n: nat, err: TokenError)
    requires RunsFit(line)
    ensures err in ScanLine(line, n, 0).1
            <==> exists c :: 0 <= c < |line| && IsInvalidChar(line[c])
                             && err == TokenError(INVALID_TOKEN, Position(n, c + 1))
  {
    ScanLineIsClassified(line, n, 0);
    ClassifiedErrorsMembers(line, n, 0, err);
  }

  /** Every character that is not whitespace is accounted for: a digit lies
      in the run of a number token that starts at or before it and ends after
      it, an operator has its token, an invalid character its error. */
  lemma CharacterAccounted(line: string, n: nat, c: nat)
    requires RunsFit(line) && c < |line|
    ensures IsDigit(line[c]) ==>
      var s := RunStart(line, c);
      StartsNumber(line, s) && c < RunEnd(line, s) && NumberAt(line, n, s) in ScanLine(line, n, 0).0
    ensures IsOperatorChar(line[c]) ==>
      TokenInfo(Operator(line[c]), Position(n, c)) in ScanLine(line, n, 0).0
    ensures IsInvalidChar(line[c]) ==>
      TokenError(INVALID_TOKEN, Position(n, c + 1)) in ScanLine(line, n, 0).1
  {
    if IsDigit(line[c]) {
      var s := RunStart(line, c);
      RunEndInside(line, s, c);
      assert StartsToken(line, s) && TokenAt(line, n, s) == NumberAt(line, n, s);
      TokensOfLine(line, n, NumberAt(line, n, s));
    } else if IsOperatorChar(line[c]) {
      TokensOfLine(line, n, TokenInfo(Operator(line[c]), Position(n, c)));
      assert StartsToken(line, c) && TokenAt(line, n, c) == TokenInfo(Operator(line[c]), Position(n, c));
    } else if IsInvalidChar(line[c]) {
      ErrorsOfLine(line, n, TokenError(INVALID_TOKEN, Position(n, c + 1)));
    }
  }

  /** The columns from `i` on that produce something of their own: the first
      digit of a run, an operator or an invalid character. */
  function CountMarks(line: string, i: nat): (k: nat)
    requires i <= |line|
    ensures k <= |line| - i
    decreases |line| - i
  {
    if i == |line| then 0
    else (if StartsToken(line, i) || IsInvalidChar(line[i]) then 1 else 0) + CountMarks(line, i + 1)
  }

  lemma {:induction false} ClassifiedCount(line: string, n: nat, i: nat)
    requires i <= |line| && RunsFit(line)
    ensures |ClassifiedTokens(line, n, i)| + |ClassifiedErrors(line, n, i)| == CountMarks(line, i)
    decreases |line| - i
  {
    if i < |line| {
      ClassifiedCount(line, n, i + 1);
    }
  }

  /** Each character of a line that starts a token or is invalid is accounted
      for exactly once: the line yields as many tokens and errors together as
      there are such characters. */
  lemma ScanLineCount(line: string, n: nat)
    requires RunsFit(line)
    ensures |ScanLine(line, n, 0).0| + |ScanLine(line, n, 0).1| == CountMarks(line, 0)
  {
    ScanLineIsClassified(line, n, 0);
    ClassifiedCount(line, n, 0);
  }

  /** A line contributes nothing exactly when all of it, from `col` on, is
      spaces, carriage returns and tabs. */
  lemma {:induction false} ScanLineEmptyIffIgnored(line: string, n: nat, col: nat)
    requires col <= |line| && RunsFit(line)
    ensures ScanLine(line, n, col) == ([], [])
            <==> forall k :: col <= k < |line| ==> IsIgnoredChar(line[k])
    decreases |line| - col
  {
    if col < |line| {
      ScanLineEmptyIffIgnored(line, n, col + 1);
    }
  }

  /** Every token of a line lies on that line, at or after the starting
      column; an error is recorded one column past its character, so it lies
      after the starting column and at most at the end of the line. */
  lemma {:induction false} ScanLinePositions(line: string, n: nat, col: nat)
    requires col <= |line| && RunsFit(line)
    ensures forall t :: t in ScanLine(line, n, col).0 ==>
      t.position.line == n && col <= t.position.column < |line|
    ensures forall e :: e in ScanLine(line, n, col).1 ==>
      e.position.line == n && col < e.position.column <= |line|
    decreases |line| - col
  {
    if col < |line| {
      ScanLinePositions(line, n, if IsDigit(line[col]) then RunEnd(line, col) else col + 1);
    }
  }

  /** Every position the whole scan reports names a line from `from` on and
      a column within that line (an error's column may be the line's length). */
  lemma {:induction false} ScanPositions(source: seq<string>, from: nat)
    requires from <= |source| && AllRunsFit(source)
    ensures forall t :: t in Scan(source, from).0 ==>
      from <= t.position.line < |source| && t.position.column < |source[t.position.line]|
    ensures forall e :: e in Scan(source, from).1 ==>
      from <= e.position.line < |source| && e.position.column <= |source[e.position.line]|
    ensures forall t :: t in Scan(source, from).0 ==>
      t.position.line < |source| && t in ScanLine(source[t.position.line], t.position.line, 0).0
    ensures forall e :: e in Scan(source, from).1 ==>
      e.position.line < |source| && e in ScanLine(source[e.position.line], e.position.line, 0).1
    decreases |source| - from
  {
    if from < |source| {
      ScanLinePositions(source[from], from, 0);
      ScanPositions(source, from + 1);
    }
  }

  /** The whole scan is the first line's scan followed by the rest. */
  lemma ScanStep(source: seq<string>, from: nat)
    requires from < |source| && AllRunsFit(source)
    ensures Scan(source, from).0 == ScanLine(source[from], from, 0).0 + Scan(source, from + 1).0
    ensures Scan(source, from).1 == ScanLine(source[from], from, 0).1 + Scan(source, from + 1).1
  {
  }

  /** One read of the tokenizer's inner loop: the read's token or error,
      appended to what was collected, keeps the collected part a prefix of
      the line's scan, also after the whitespace that follows is skipped. */
  lemma ScanLineLoopStep(line: string, n: nat, start: nat, here: nat, col: nat,
                         tokens: seq<TokenInfo>, errors: seq<TokenError>,
                         result: Result<TokenInfo, TokenError>,
                         tokens': seq<TokenInfo>, errors': seq<TokenError>)
    requires RunsFit(line) && start <= here < |line| && !IsIgnoredChar(line[here])
    requires ScanLine(line, n, start).0 == tokens + ScanLine(line, n, here).0
    requires ScanLine(line, n, start).1 == errors + ScanLine(line, n, here).1
    requires ReadAt(line, n, here).0 == result && ReadAt(line, n, here).1 <= col <= |line|
    requires ScanLine(line, n, col) == ScanLine(line, n, ReadAt(line, n, here).1)
    requires tokens' == if result.Ok? then tokens + [result.value] else tokens
    requires errors' == if result.Err? then errors + [result.error] else errors
    ensures ScanLine(line, n, start).0 == tokens' + ScanLine(line, n, col).0
    ensures ScanLine(line, n, start).1 == errors' + ScanLine(line, n, col).1
  {
    ScanLineRead(line, n, here);
    var rest := ScanLine(line, n, col);
    var now := ScanLine(line, n, here);
    if result.Ok? {
      assert now.0 == [result.value] + rest.0 && now.1 == rest.1;
      AppendAssoc(tokens, [result.value], rest.0);
    } else {
      assert now.1 == [result.error] + rest.1 && now.0 == rest.0;
      AppendAssoc(errors, [result.error], rest.1);
    }
  }

  /** One line of the tokenizer's outer loop: appending the line's scan to
      what was collected keeps the collected part a prefix of the whole scan. */
  lemma ScanLoopStep(source: seq<string>, start: nat, from: nat,
                     tokens: seq<TokenInfo>, errors: seq<TokenError>,
                     lineTokens: seq<TokenInfo>, lineErrors: seq<TokenError>)
    requires start <= from < |source| && AllRunsFit(source)
    requires Scan(source, start).0 == tokens + Scan(source, from).0
    requires Scan(source, start).1 == errors + Scan(source, from).1
    requires lineTokens == ScanLine(source[from], from, 0).0
    requires lineErrors == ScanLine(source[from], from, 0).1
    ensures Scan(source, start).0 == (tokens + lineTokens) + Scan(source, from + 1).0
    ensures Scan(source, start).1 == (errors + lineErrors) + Scan(source, from + 1).1
  {
    ScanStep(source, from);
    AppendAssoc(tokens, lineTokens, Scan(source, from + 1).0);
    AppendAssoc(errors, lineErrors, Scan(source, from + 1).1);
  }

  // Scan order

  lemma TokensInOrderAppend(a: seq<TokenInfo>, b: seq<TokenInfo>)
    requires TokensInOrder(a) && TokensInOrder(b)
    requires forall x, y :: x in a && y in b ==> Before(x.position, y.position)
    ensures TokensInOrder(a + b)
  {
    forall i, j | 0 <= i < j < |a + b|
      ensures Before((a + b)[i].position, (a + b)[j].position)
    {
      if j < |a| {
      } else if i < |a| {
        assert (a + b)[i] in a && (a + b)[j] in b;
      } else {
        assert (a + b)[i] == b[i - |a|] && (a + b)[j] == b[j - |a|];
      }
    }
  }

  lemma ErrorsInOrderAppend(a: seq<TokenError>, b: seq<TokenError>)
    requires ErrorsInOrder(a) && ErrorsInOrder(b)
    requires forall x, y :: x in a && y in b ==> Before(x.position, y.position)
    ensures ErrorsInOrder(a + b)
  {
    forall i, j | 0 <= i < j < |a + b|
      ensures Before((a + b)[i].position, (a + b)[j].position)
    {
      if j < |a| {
      } else if i < |a| {
        assert (a + b)[i] in a && (a + b)[j] in b;
      } else {
        assert (a + b)[i] == b[i - |a|] && (a + b)[j] == b[j - |a|];
      }
    }
  }

  /** On one line, tokens have strictly increasing columns, and so do errors. */
  lemma {:induction false} ScanLineInOrder(line: string, n: nat, col: nat)
    requires col <= |line| && RunsFit(line)
    ensures TokensInOrder(ScanLine(line, n, col).0)
    ensures ErrorsInOrder(ScanLine(line, n, col).1)
    decreases |line| - col
  {
    if col < |line| {
      var next := if IsDigit(line[col]) then RunEnd(line, col) else col + 1;
      ScanLineInOrder(line, n, next);
      ScanLinePositions(line, n, next);
      var rest := ScanLine(line, n, next);
      if IsIgnoredChar(line[col]) {
      } else if IsDigit(line[col]) {
        TokensInOrderAppend([NumberAt(line, n, col)], rest.0);
      } else if IsOperatorChar(line[col]) {
        TokensInOrderAppend([TokenInfo(Operator(line[col]), Position(n, col))], rest.0);
      } else {
        ErrorsInOrderAppend([TokenError(INVALID_TOKEN, Position(n, col + 1))], rest.1);
      }
    }
  }

  /** Over the whole source, tokens come in scan order (top to bottom, left
      to right, no position twice), and so do errors. */
  lemma {:induction false} ScanInOrder(source: seq<string>, from: nat)
    requires from <= |source| && AllRunsFit(source)
    ensures TokensInOrder(Scan(source, from).0)
    ensures ErrorsInOrder(Scan(source, from).1)
    decreases |source| - from
  {
    if from < |source| {
      ScanLineInOrder(source[from], from, 0);
      ScanInOrder(source, from + 1);
      ScanLinePositions(source[from], from, 0);
      ScanPositions(source, from + 1);
      var here := ScanLine(source[from], from, 0);
      var rest := Scan(source, from + 1);
      TokensInOrderAppend(here.0, rest.0);
      ErrorsInOrderAppend(here.1, rest.1);
    }
  }

  // Line locality

  function TokensOnLine(ts: seq<TokenInfo>, k: nat): (r: seq<TokenInfo>)
    ensures forall t :: t in r <==> t in ts && t.position.line == k
  {
    if ts == [] then []
    else (if ts[0].position.line == k then [ts[0]] else []) + TokensOnLine(ts[1..], k)
  }

  function ErrorsOnLine(es: seq<TokenError>, k: nat): (r: seq<TokenError>)
    ensures forall e :: e in r <==> e in es && e.position.line == k
  {
    if es == [] then []
    else (if es[0].position.line == k then [es[0]] else []) + ErrorsOnLine(es[1..], k)
  }

  lemma {:induction false} TokensOnLineAppend(a: seq<TokenInfo>, b: seq<TokenInfo>, k: nat)
    ensures TokensOnLine(a + b, k) == TokensOnLine(a, k) + TokensOnLine(b, k)
  {
    if a != [] {
      var head := if a[0].position.line == k then [a[0]] else [];
      assert (a + b)[0] == a[0] && (a + b)[1..] == a[1..] + b;
      assert TokensOnLine(a + b, k) == head + TokensOnLine(a[1..] + b, k);
      TokensOnLineAppend(a[1..], b, k);
      AppendAssoc(head, TokensOnLine(a[1..], k), TokensOnLine(b, k));
    } else {
      assert a + b == b;
    }
  }

  lemma {:induction false} ErrorsOnLineAppend(a: seq<TokenError>, b: seq<TokenError>, k: nat)
    ensures ErrorsOnLine(a + b, k) == ErrorsOnLine(a, k) + ErrorsOnLine(b, k)
  {
    if a != [] {
      var head := if a[0].position.line == k then [a[0]] else [];
      assert (a + b)[0] == a[0] && (a + b)[1..] == a[1..] + b;
      assert ErrorsOnLine(a + b, k) == head + ErrorsOnLine(a[1..] + b, k);
      ErrorsOnLineAppend(a[1..], b, k);
      AppendAssoc(head, ErrorsOnLine(a[1..], k), ErrorsOnLine(b, k));
    } else {
      assert a + b == b;
    }
  }

  lemma {:induction false} TokensOnSameLine(ts: seq<TokenInfo>, n: nat, k: nat)
    requires forall t :: t in ts ==> t.position.line == n
    ensures TokensOnLine(ts, k) == if k == n then ts else []
  {
    if ts != [] {
      TokensOnSameLine(ts[1..], n, k);
    }
  }

  lemma {:induction false} ErrorsOnSameLine(es: seq<TokenError>, n: nat, k: nat)
    requires forall e :: e in es ==> e.position.line == n
    ensures ErrorsOnLine(es, k) == if k == n then es else []
  {
    if es != [] {
      ErrorsOnSameLine(es[1..], n, k);
    }
  }

  /** What the whole scan reports on line `k` is exactly what scanning line
      `k` alone produces: lines do not influence one another. */
  lemma {:induction false} ScanIsLineLocal(source: seq<string>, from: nat, k: nat)
    requires from <= k < |source| && AllRunsFit(source)
    ensures TokensOnLine(Scan(source, from).0, k) == ScanLine(source[k], k, 0).0
    ensures ErrorsOnLine(Scan(source, from).1, k) == ScanLine(source[k], k, 0).1
    decreases k - from
  {
    var here := ScanLine(source[from], from, 0);
    var rest := Scan(source, from + 1);
    TokensOnLineAppend(here.0, rest.0, k);
    ErrorsOnLineAppend(here.1, rest.1, k);
    ScanLinePositions(source[from], from, 0);
    TokensOnSameLine(here.0, from, k);
    ErrorsOnSameLine(here.1, from, k);
    if from < k {
      ScanIsLineLocal(source, from + 1, k);
    } else {
      ScanPositions(source, from + 1);
      TokensOnLineNone(rest.0, k);
      ErrorsOnLineNone(rest.1, k);
    }
  }

  lemma {:induction false} TokensOnLineNone(ts: seq<TokenInfo>, k: nat)
    requires forall t :: t in ts ==> t.position.line != k
    ensures TokensOnLine(ts, k) == []
  {
    if ts != [] {
      TokensOnLineNone(ts[1..], k);
    }
  }

  lemma {:induction false} ErrorsOnLineNone(es: seq<TokenError>, k: nat)
    requires forall e :: e in es ==> e.position.line != k
    ensures ErrorsOnLine(es, k) == []
  {
    if es != [] {
      ErrorsOnLineNone(es[1..], k);
    }
  }
}
