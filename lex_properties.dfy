/** Properties of the lexer's specification. */
module LexProperties {
  import opened Wrappers
  import opened Positions
  import opened Tokens
  import opened Errors
  import opened LexSpec

  /**
   * A number literal is the maximal run of digits with at most one `.`: the
   * scan stops at the end of the text, at a character that is neither a digit
   * nor `.`, or at a second `.`, which it leaves unread.
   */
  lemma {:induction false} NumberEndMaximal(text: string, i: nat, dotSeen: bool)
    requires i <= |text|
    ensures var j := NumberEnd(text, i, dotSeen);
            (dotSeen ==> '.' !in text[i..j]) &&
            (forall a, b :: i <= a < b < j ==> !(text[a] == '.' && text[b] == '.')) &&
            (j == |text| || !IsNumberChar(text[j]) || (text[j] == '.' && (dotSeen || '.' in text[i..j])))
    decreases |text| - i
  {
    var j := NumberEnd(text, i, dotSeen);
    if i < |text| && (IsDigit(text[i]) || (text[i] == '.' && !dotSeen)) {
      var seen := dotSeen || text[i] == '.';
      NumberEndMaximal(text, i + 1, seen);
      assert text[i..j] == [text[i]] + text[i + 1..j];
      if text[i] == '.' {
        forall a, b | i <= a < b < j
          ensures !(text[a] == '.' && text[b] == '.')
        {
          if a > i {
            assert text[a] in text[i + 1..j];
          } else {
            assert text[b] in text[i + 1..j];
          }
        }
      }
    }
  }

  /** A run of digits does not stop the number scan. */
  lemma {:induction false} NumberEndOverDigits(text: string, i: nat, m: nat, dotSeen: bool)
    requires i <= m <= |text|
    requires forall k :: i <= k < m ==> IsDigit(text[k])
    ensures NumberEnd(text, i, dotSeen) == NumberEnd(text, m, dotSeen)
    decreases m - i
  {
    if i < m {
      NumberEndOverDigits(text, i + 1, m, dotSeen);
    }
  }

  /** A character that can be neither part of a number nor skipped ends the number scan before it. */
  lemma {:induction false} NumberEndBefore(text: string, i: nat, k: nat, dotSeen: bool)
    requires i <= k < |text| && !IsNumberChar(text[k])
    ensures NumberEnd(text, i, dotSeen) <= k
    decreases k - i
  {
    if i < k {
      NumberEndBefore(text, i + 1, k, dotSeen || text[i] == '.');
    }
  }

  /**
   * A successful scan ends with exactly one EOF token, which stands at the end
   * of the text; every token with a start position spans one character.
   */
  lemma ScanSuccess(fn: string, text: string, i: nat)
    requires i <= |text|
    requires Scan(fn, text, i).error.None?
    ensures var ts := Scan(fn, text, i).tokens;
            |ts| > 0 &&
            ts[|ts| - 1] == PositionedToken(EOF, PosAt(fn, text, |text|)) &&
            (forall k :: 0 <= k < |ts| - 1 ==> ts[k].kind != EOF) &&
            (forall k :: 0 <= k < |ts| && ts[k].posStart.Some? ==>
               ts[k].posEnd.Some? && ts[k].posEnd.value.idx == ts[k].posStart.value.idx + 1)
  {
    ScanEndsWithEOF(fn, text, i);
    ScanSpans(fn, text, i);
  }

  /** A successful scan ends with the one EOF token, positioned at the end of the text. */
  lemma {:induction false} ScanEndsWithEOF(fn: string, text: string, i: nat)
    requires i <= |text|
    requires Scan(fn, text, i).error.None?
    ensures var ts := Scan(fn, text, i).tokens;
            |ts| > 0 &&
            ts[|ts| - 1] == PositionedToken(EOF, PosAt(fn, text, |text|)) &&
            (forall k :: 0 <= k < |ts| - 1 ==> ts[k].kind != EOF)
    decreases |text| - i
  {
    if i < |text| {
      var c := text[i];
      if IsBlank(c) {
        ScanBlankStep(fn, text, i);
        ScanEndsWithEOF(fn, text, i + 1);
      } else if IsDigit(c) {
        var j := NumberEnd(text, i, false);
        ScanDigitStep(fn, text, i);
        ScanEndsWithEOF(fn, text, j);
        PrependBeforeEOF(NumberToken(text[i..j]), Scan(fn, text, j));
      } else if SingleKind(c).Some? {
        ScanSingleStep(fn, text, i);
        ScanEndsWithEOF(fn, text, i + 1);
        PrependBeforeEOF(PositionedToken(SingleKind(c).value, PosAt(fn, text, i)), Scan(fn, text, i + 1));
      }
    } else {
      assert Scan(fn, text, i).tokens == [PositionedToken(EOF, PosAt(fn, text, i))];
    }
  }

  /** Every token of a successful scan that has a start position spans one character. */
  lemma {:induction false} ScanSpans(fn: string, text: string, i: nat)
    requires i <= |text|
    requires Scan(fn, text, i).error.None?
    ensures var ts := Scan(fn, text, i).tokens;
            forall k :: 0 <= k < |ts| && ts[k].posStart.Some? ==>
              ts[k].posEnd.Some? && ts[k].posEnd.value.idx == ts[k].posStart.value.idx + 1
    decreases |text| - i
  {
    if i < |text| {
      var c := text[i];
      if IsBlank(c) {
        ScanSpans(fn, text, i + 1);
      } else if IsDigit(c) {
        var j := NumberEnd(text, i, false);
        var t := NumberToken(text[i..j]);
        assert Scan(fn, text, i) == Prepend([t], Scan(fn, text, j));
        ScanSpans(fn, text, j);
        PrependSpanning(t, Scan(fn, text, j));
      } else if SingleKind(c).Some? {
        var t := PositionedToken(SingleKind(c).value, PosAt(fn, text, i));
        assert Scan(fn, text, i) == Prepend([t], Scan(fn, text, i + 1));
        ScanSpans(fn, text, i + 1);
        PrependSpanning(t, Scan(fn, text, i + 1));
      }
    } else {
      assert Scan(fn, text, i).tokens == [PositionedToken(EOF, PosAt(fn, text, i))];
    }
  }

  /** The scan steps over a blank. */
  lemma ScanBlankStep(fn: string, text: string, i: nat)
    requires i < |text| && IsBlank(text[i])
    ensures Scan(fn, text, i) == Scan(fn, text, i + 1)
  {
  }

  /** The scan takes the number that starts at a digit and goes on where it ends. */
  lemma ScanDigitStep(fn: string, text: string, i: nat)
    requires i < |text| && IsDigit(text[i])
    ensures var j := NumberEnd(text, i, false);
            Scan(fn, text, i) == Prepend([NumberToken(text[i..j])], Scan(fn, text, j))
  {
  }

  /** The scan takes an operator or a parenthesis, positioned where it stands, and goes on after it. */
  lemma ScanSingleStep(fn: string, text: string, i: nat)
    requires i < |text| && SingleKind(text[i]).Some?
    ensures Scan(fn, text, i) == Prepend([PositionedToken(SingleKind(text[i]).value, PosAt(fn, text, i))], Scan(fn, text, i + 1))
  {
  }

  /** A non-EOF token put in front of a successful scan keeps its last token and no other EOF. */
  lemma PrependBeforeEOF(t: Token, rest: LexResult)
    requires rest.error.None? && |rest.tokens| > 0 && t.kind != EOF
    requires forall k :: 0 <= k < |rest.tokens| - 1 ==> rest.tokens[k].kind != EOF
    ensures var ts := Prepend([t], rest).tokens;
            |ts| == |rest.tokens| + 1 && ts[|ts| - 1] == rest.tokens[|rest.tokens| - 1] &&
            (forall k :: 0 <= k < |ts| - 1 ==> ts[k].kind != EOF)
  {
    var ts := Prepend([t], rest).tokens;
    assert ts == [t] + rest.tokens;
    forall k | 0 < k < |ts| - 1
      ensures ts[k].kind != EOF
    {
      assert ts[k] == rest.tokens[k - 1];
    }
  }

  /** A token that spans one character, put in front of a scan whose tokens do, keeps that. */
  lemma PrependSpanning(t: Token, rest: LexResult)
    requires rest.error.None?
    requires t.posStart.Some? ==> t.posEnd.Some? && t.posEnd.value.idx == t.posStart.value.idx + 1
    requires forall k :: 0 <= k < |rest.tokens| && rest.tokens[k].posStart.Some? ==>
               rest.tokens[k].posEnd.Some? && rest.tokens[k].posEnd.value.idx == rest.tokens[k].posStart.value.idx + 1
    ensures var ts := Prepend([t], rest).tokens;
            forall k :: 0 <= k < |ts| && ts[k].posStart.Some? ==>
              ts[k].posEnd.Some? && ts[k].posEnd.value.idx == ts[k].posStart.value.idx + 1
  {
    var ts := Prepend([t], rest).tokens;
    assert ts == [t] + rest.tokens;
    forall k | 0 < k < |ts|
      ensures ts[k] == rest.tokens[k - 1]
    {
    }
  }

  /** A number token has no positions; every other token has both. */
  predicate PositionedUnlessNumber(t: Token)
  {
    if t.kind in {INT, FLOAT} then t.posStart.None? && t.posEnd.None?
    else t.posStart.Some? && t.posEnd.Some?
  }

  /** A successful scan positions every token but the numbers. */
  lemma {:induction false} ScanPositions(fn: string, text: string, i: nat)
    requires i <= |text|
    requires Scan(fn, text, i).error.None?
    ensures var ts := Scan(fn, text, i).tokens;
            forall k :: 0 <= k < |ts| ==> PositionedUnlessNumber(ts[k])
    decreases |text| - i
  {
    if i < |text| {
      var c := text[i];
      if IsBlank(c) {
        ScanPositions(fn, text, i + 1);
      } else if IsDigit(c) {
        var j := NumberEnd(text, i, false);
        var t := NumberToken(text[i..j]);
        assert Scan(fn, text, i) == Prepend([t], Scan(fn, text, j));
        ScanPositions(fn, text, j);
        PrependPositioned(t, Scan(fn, text, j));
      } else if SingleKind(c).Some? {
        var t := PositionedToken(SingleKind(c).value, PosAt(fn, text, i));
        assert Scan(fn, text, i) == Prepend([t], Scan(fn, text, i + 1));
        ScanPositions(fn, text, i + 1);
        PrependPositioned(t, Scan(fn, text, i + 1));
      }
    } else {
      assert Scan(fn, text, i).tokens == [PositionedToken(EOF, PosAt(fn, text, i))];
    }
  }

  lemma PrependPositioned(t: Token, rest: LexResult)
    requires rest.error.None? && PositionedUnlessNumber(t)
    requires forall k :: 0 <= k < |rest.tokens| ==> PositionedUnlessNumber(rest.tokens[k])
    ensures var ts := Prepend([t], rest).tokens;
            forall k :: 0 <= k < |ts| ==> PositionedUnlessNumber(ts[k])
  {
    var ts := Prepend([t], rest).tokens;
    assert ts == [t] + rest.tokens;
    forall k | 0 < k < |ts|
      ensures PositionedUnlessNumber(ts[k])
    {
      assert ts[k] == rest.tokens[k - 1];
    }
  }

  /**
   * A failed scan returns no tokens and one Illegal Character error that
   * spans exactly the offending character, which is one that may not start a
   * token, and quotes it.
   */
  lemma {:induction false} ScanFailure(fn: string, text: string, i: nat)
    requires i <= |text|
    requires Scan(fn, text, i).error.Some?
    ensures var r := Scan(fn, text, i);
            var e := r.error.value;
            var k := e.posStart.idx;
            r.tokens == [] &&
            e.kind == IllegalCharacter &&
            i <= k < |text| &&
            !IsLegal(text[k]) &&
            e.posStart == PosAt(fn, text, k) &&
            e.posEnd == e.posStart.Advanced(Some(text[k])) &&
            e.posEnd.idx == e.posStart.idx + 1 &&
            e.details == "'" + [text[k]] + "'"
    decreases |text| - i
  {
    var c := text[i];
    if IsBlank(c) {
      ScanFailure(fn, text, i + 1);
    } else if IsDigit(c) {
      ScanFailure(fn, text, NumberEnd(text, i, false));
    } else if SingleKind(c).Some? {
      ScanFailure(fn, text, i + 1);
    } else {
      PosAtCounts(fn, text, i);
      PosAtCounts(fn, text, i + 1);
    }
  }

  /**
   * The character a failed scan reports is the first one the scan could not
   * take: every character before it, from the cursor on, is legal or a `.`
   * inside a number.
   */
  lemma {:induction false} ScanFailureFirst(fn: string, text: string, i: nat)
    requires i <= |text|
    requires Scan(fn, text, i).error.Some?
    ensures var k := Scan(fn, text, i).error.value.posStart.idx;
            i <= k < |text| &&
            forall m :: i <= m < k ==> IsLegal(text[m]) || (text[m] == '.' && !StrayDot(text, i, m))
    decreases |text| - i
  {
    if IsLegal(text[i]) {
      var j := if IsDigit(text[i]) then NumberEnd(text, i, false) else i + 1;
      ScanErrorStep(fn, text, i);
      ScanFailureFirst(fn, text, j);
      TakenBeforeFailure(text, i, Scan(fn, text, j).error.value.posStart.idx);
    } else {
      PosAtCounts(fn, text, i);
    }
  }

  /**
   * The step of ScanFailureFirst: what the scan from the end of the token at
   * `i` took before `k` it took from `i` as well.
   */
  lemma TakenBeforeFailure(text: string, i: nat, k: nat)
    requires i < |text| && IsLegal(text[i])
    requires var j := if IsDigit(text[i]) then NumberEnd(text, i, false) else i + 1;
             j <= k < |text| &&
             forall m :: j <= m < k ==> IsLegal(text[m]) || (text[m] == '.' && !StrayDot(text, j, m))
    ensures forall m :: i <= m < k ==> IsLegal(text[m]) || (text[m] == '.' && !StrayDot(text, i, m))
  {
    var j := if IsDigit(text[i]) then NumberEnd(text, i, false) else i + 1;
    if IsDigit(text[i]) {
      NumberEndMaximal(text, i, false);
      forall m | i <= m < k && !IsLegal(text[m])
        ensures text[m] == '.' && !StrayDot(text, i, m)
      {
        if m < j {
          TakenDotNotStray(text, i, m);
        } else {
          NotStrayFromLater(text, i, j, m);
        }
      }
    } else {
      forall m | i < m < k && !IsLegal(text[m])
        ensures text[m] == '.' && !StrayDot(text, i, m)
      {
        NotStrayFromLater(text, i, j, m);
      }
    }
  }

  /** A `.` a number takes is that number's first, right after its digits: it is not stray. */
  lemma TakenDotNotStray(text: string, i: nat, m: nat)
    requires i < |text| && IsDigit(text[i])
    requires i <= m < NumberEnd(text, i, false) && text[m] == '.'
    ensures !StrayDot(text, i, m)
  {
    NumberEndMaximal(text, i, false);
    forall p | i <= p < m
      ensures IsDigit(text[p])
    {
      assert IsNumberChar(text[p]);
    }
  }

  /**
   * A `.` that is not stray for a scan from `j` is not stray for a scan from an
   * earlier `i` either, when no run of digits from before `j` reaches it.
   */
  lemma NotStrayFromLater(text: string, i: nat, j: nat, m: nat)
    requires i < j < m < |text| && text[m] == '.' && !StrayDot(text, j, m)
    requires !IsDigit(text[j]) || forall p :: i <= p < j ==> text[p] != '.'
    ensures !StrayDot(text, i, m)
  {
    forall d | i <= d < j && text[d] == '.'
      ensures exists p :: d < p < m && !IsDigit(text[p])
    {
      assert d < j < m && !IsDigit(text[j]);
    }
  }

  /** A text made only of digits, operators, parentheses, spaces and tabs lexes without error. */
  lemma {:induction false} ScanLegal(fn: string, text: string, i: nat)
    requires i <= |text|
    requires forall k :: i <= k < |text| ==> IsLegal(text[k])
    ensures Scan(fn, text, i).error.None?
    decreases |text| - i
  {
    if i < |text| {
      var c := text[i];
      if IsBlank(c) || SingleKind(c).Some? {
        ScanLegal(fn, text, i + 1);
      } else {
        ScanLegal(fn, text, NumberEnd(text, i, false));
      }
    }
  }

  /** A character that is neither legal nor `.` anywhere after the cursor makes the scan fail. */
  lemma {:induction false} ScanIllegal(fn: string, text: string, i: nat, k: nat)
    requires i <= k < |text|
    requires !IsLegal(text[k]) && text[k] != '.'
    ensures Scan(fn, text, i).error.Some?
    decreases |text| - i
  {
    if i < k {
      var c := text[i];
      if IsBlank(c) || SingleKind(c).Some? {
        ScanIllegal(fn, text, i + 1, k);
      } else if IsDigit(c) {
        NumberEndBefore(text, i, k, false);
        ScanIllegal(fn, text, NumberEnd(text, i, false), k);
      }
    }
  }

  /** Past a legal character the scan goes on, and its error is that of the rest of the scan. */
  lemma ScanErrorStep(fn: string, text: string, i: nat)
    requires i < |text| && IsLegal(text[i])
    ensures var j := if IsDigit(text[i]) then NumberEnd(text, i, false) else i + 1;
            Scan(fn, text, i).error == Scan(fn, text, j).error
  {
  }

  /** A `.` is not a legal character: a scan that reaches it fails there. */
  lemma ScanAtDot(fn: string, text: string, k: nat)
    requires k < |text| && text[k] == '.'
    ensures Scan(fn, text, k).error.Some?
  {
  }

  /**
   * A `.` no number can take: the `.` at `k` stands at the cursor `i`, after a
   * character that is not a digit, or after a run of digits that follows
   * another `.`.
   */
  ghost predicate StrayDot(text: string, i: nat, k: nat)
    requires i <= k < |text|
  {
    text[k] == '.' &&
    (k == i || !IsDigit(text[k - 1]) ||
     exists m :: i <= m < k && text[m] == '.' && forall p :: m < p < k ==> IsDigit(text[p]))
  }

  /** A stray `.` past the cursor stays stray when the cursor starts earlier. */
  lemma StrayDotEarlier(text: string, i: nat, j: nat, k: nat)
    requires i <= j < k < |text| && StrayDot(text, j, k)
    ensures StrayDot(text, i, k)
  {
  }

  /** A number cannot take a `.` that follows a character other than a digit. */
  lemma NumberEndBeforeDot(text: string, i: nat, k: nat)
    requires i < k < |text| && text[k] == '.' && !IsDigit(text[k - 1])
    ensures NumberEnd(text, i, false) <= k
  {
    NumberEndMaximal(text, i, false);
  }

  /** A number that takes the `.` at `m` stops exactly at the next `.` after the digits that follow. */
  lemma NumberEndAtSecondDot(text: string, i: nat, m: nat, k: nat)
    requires i <= m < k < |text| && text[m] == '.' && text[k] == '.'
    requires forall p :: m < p < k ==> IsDigit(text[p])
    requires m < NumberEnd(text, i, false)
    ensures NumberEnd(text, i, false) == k
  {
    NumberEndMaximal(text, i, false);
  }

  /** A number stopped by a `.` leaves that `.` stray. */
  lemma NumberStoppedByDot(text: string, i: nat)
    requires i < |text| && IsDigit(text[i])
    requires NumberEnd(text, i, false) < |text| && text[NumberEnd(text, i, false)] == '.'
    ensures StrayDot(text, i, NumberEnd(text, i, false))
  {
    var j := NumberEnd(text, i, false);
    NumberEndMaximal(text, i, false);
    if IsDigit(text[j - 1]) {
      assert '.' in text[i..j];
      var d :| 0 <= d < j - i && text[i..j][d] == '.';
      var m := i + d;
      forall p | m < p < j
        ensures IsDigit(text[p])
      {
        assert IsNumberChar(text[p]);
      }
    }
  }

  /** A `.` at the cursor or after a character that is not a digit makes the scan fail. */
  lemma {:induction false} ScanDotWithoutDigit(fn: string, text: string, i: nat, k: nat)
    requires i <= k < |text| && text[k] == '.'
    requires k == i || !IsDigit(text[k - 1])
    ensures Scan(fn, text, i).error.Some?
    decreases |text| - i
  {
    if i == k {
      ScanAtDot(fn, text, k);
    } else if IsLegal(text[i]) {
      if IsDigit(text[i]) {
        NumberEndBeforeDot(text, i, k);
      }
      ScanErrorStep(fn, text, i);
      ScanDotWithoutDigit(fn, text, if IsDigit(text[i]) then NumberEnd(text, i, false) else i + 1, k);
    }
  }

  /**
   * A second `.` in a number (a `.` at `k` after digits that follow the `.` at
   * `m`) ends the number and is then an illegal character: the scan fails.
   */
  lemma {:induction false} ScanSecondDot(fn: string, text: string, i: nat, m: nat, k: nat)
    requires i <= m < k < |text| && text[m] == '.' && text[k] == '.'
    requires forall p :: m < p < k ==> IsDigit(text[p])
    ensures Scan(fn, text, i).error.Some?
    decreases |text| - i
  {
    if i == m {
      ScanAtDot(fn, text, m);
    } else if IsLegal(text[i]) {
      var j := if IsDigit(text[i]) then NumberEnd(text, i, false) else i + 1;
      ScanErrorStep(fn, text, i);
      if j <= m {
        ScanSecondDot(fn, text, j, m, k);
      } else {
        NumberEndAtSecondDot(text, i, m, k);
        ScanAtDot(fn, text, k);
      }
    }
  }

  /**
   * The character a failed scan reports is illegal, and when it is a `.` it
   * is a stray one: the converse of the two lemmas above and ScanIllegal.
   */
  lemma {:induction false} ScanFailureWitness(fn: string, text: string, i: nat)
    requires i <= |text|
    requires Scan(fn, text, i).error.Some?
    ensures var k := Scan(fn, text, i).error.value.posStart.idx;
            i <= k < |text| && !IsLegal(text[k]) && (text[k] == '.' ==> StrayDot(text, i, k))
    decreases |text| - i
  {
    if IsLegal(text[i]) {
      var j := if IsDigit(text[i]) then NumberEnd(text, i, false) else i + 1;
      ScanErrorStep(fn, text, i);
      ScanFailureWitness(fn, text, j);
      var k := Scan(fn, text, j).error.value.posStart.idx;
      if text[k] == '.' {
        if k == j && IsDigit(text[i]) {
          NumberStoppedByDot(text, i);
        } else if k > j {
          StrayDotEarlier(text, i, j, k);
        }
      }
    } else {
      PosAtCounts(fn, text, i);
    }
  }

  /**
   * Lexing fails exactly when the text holds an illegal character that is
   * not a `.`, or a stray `.`.
   */
  lemma TokenizeFailure(fn: string, text: string)
    ensures Tokenize(fn, text).error.Some? <==>
            exists k :: 0 <= k < |text| && !IsLegal(text[k]) && (text[k] == '.' ==> StrayDot(text, 0, k))
  {
    if Tokenize(fn, text).error.Some? {
      ScanFailureWitness(fn, text, 0);
      var k := Tokenize(fn, text).error.value.posStart.idx;
      assert 0 <= k < |text| && !IsLegal(text[k]) && (text[k] == '.' ==> StrayDot(text, 0, k));
    }
    if k :| 0 <= k < |text| && !IsLegal(text[k]) && (text[k] == '.' ==> StrayDot(text, 0, k)) {
      if text[k] != '.' {
        ScanIllegal(fn, text, 0, k);
      } else if k == 0 || !IsDigit(text[k - 1]) {
        ScanDotWithoutDigit(fn, text, 0, k);
      } else {
        var m :| 0 <= m < k && text[m] == '.' && forall p :: m < p < k ==> IsDigit(text[p]);
        ScanSecondDot(fn, text, 0, m, k);
      }
    }
  }

  /**
   * A successful lex of the whole text ends with one EOF token at index
   * `|text|`, and no other token is EOF.
   */
  lemma TokenizeSuccess(fn: string, text: string)
    requires Tokenize(fn, text).error.None?
    ensures var ts := Tokenize(fn, text).tokens;
            |ts| > 0 && ts[|ts| - 1].kind == EOF &&
            ts[|ts| - 1].posStart.Some? && ts[|ts| - 1].posStart.value.idx == |text| &&
            forall k :: 0 <= k < |ts| - 1 ==> ts[k].kind != EOF
  {
    ScanSuccess(fn, text, 0);
    PosAtCounts(fn, text, |text|);
  }

  /**
   * Lexing succeeds if every character is a digit, an operator, a
   * parenthesis, a space or a tab, and fails if some character is none of
   * these and not `.` either (a `.` fails or not depending on whether a number
   * started with a digit takes it).
   */
  lemma TokenizeLegality(fn: string, text: string)
    ensures (forall k :: 0 <= k < |text| ==> IsLegal(text[k])) ==> Tokenize(fn, text).error.None?
    ensures (exists k :: 0 <= k < |text| && !IsLegal(text[k]) && text[k] != '.') ==> Tokenize(fn, text).error.Some?
  {
    if forall k :: 0 <= k < |text| ==> IsLegal(text[k]) {
      ScanLegal(fn, text, 0);
    }
    if k :| 0 <= k < |text| && !IsLegal(text[k]) && text[k] != '.' {
      ScanIllegal(fn, text, 0, k);
    }
  }

  /**
   * The rendering of a lexing error: the quoted character, the file name and
   * the 1-based line of the error's end, which is the line after the
   * character's own when the character is a newline.
   */
  lemma IllegalCharMessage(fn: string, text: string)
    requires Tokenize(fn, text).error.Some?
    ensures var e := Tokenize(fn, text).error.value;
            var k := e.posStart.idx;
            0 <= k < |text| &&
            AsString(e) == "Illegal Character: '" + [text[k]] + "'File " + fn + ", line " + NatToString(e.posEnd.ln + 1) &&
            e.posStart.ln == Newlines(text, k) &&
            e.posEnd.ln == e.posStart.ln + (if text[k] == '\n' then 1 else 0)
  {
    ScanFailure(fn, text, 0);
    var e := Tokenize(fn, text).error.value;
    ErrorAtCharacter(fn, text, e.posStart.idx, e);
  }

  lemma ErrorAtCharacter(fn: string, text: string, k: nat, e: Error)
    requires k < |text| && e.kind == IllegalCharacter && e.details == "'" + [text[k]] + "'"
    requires e.posStart == PosAt(fn, text, k) && e.posEnd == e.posStart.Advanced(Some(text[k]))
    ensures AsString(e) == "Illegal Character: '" + [text[k]] + "'File " + fn + ", line " + NatToString(e.posEnd.ln + 1)
    ensures e.posStart.ln == Newlines(text, k)
    ensures e.posEnd.ln == e.posStart.ln + (if text[k] == '\n' then 1 else 0)
  {
    PosAtCounts(fn, text, k);
    IllegalCharRendering(e, text[k]);
  }

  lemma IllegalCharRendering(e: Error, c: char)
    requires e.kind == IllegalCharacter && e.details == "'" + [c] + "'"
    ensures AsString(e) == "Illegal Character: '" + [c] + "'File " + e.posStart.fn + ", line " + NatToString(e.posEnd.ln + 1)
  {
    var n := NatToString(e.posEnd.ln + 1);
    var fn := e.posStart.fn;
    calc {
      AsString(e);
      "Illegal Character" + ": " + ("'" + [c] + "'") + "File " + fn + ", line " + n;
      { assert "Illegal Character" + ": " + "'" == "Illegal Character: '"; }
      "Illegal Character: '" + [c] + "'File " + fn + ", line " + n;
    }
  }

  /** A string of digits lexes to one INT token carrying its decimal value, then EOF. */
  lemma IntLiteral(fn: string, s: string)
    requires |s| > 0 && AllDigits(s)
    ensures Tokenize(fn, s) ==
            LexResult([Token(INT, IntValue(DigitsValue(s)), None, None), PositionedToken(EOF, PosAt(fn, s, |s|))], None)
  {
    NumberEndOverDigits(s, 0, |s|, false);
    assert s[0..|s|] == s;
    assert '.' !in s by {
      forall k | 0 <= k < |s| ensures s[k] != '.' { assert IsDigit(s[k]); }
    }
    assert Scan(fn, s, 0) == Prepend([NumberToken(s)], Scan(fn, s, |s|));
  }

  /** Digits, one `.` and digits lex to one FLOAT token carrying that text, then EOF. */
  lemma FloatLiteral(fn: string, a: string, b: string)
    requires |a| > 0 && AllDigits(a) && |b| > 0 && AllDigits(b)
    ensures var s := a + "." + b;
            Tokenize(fn, s) ==
            LexResult([Token(FLOAT, FloatValue(s), None, None), PositionedToken(EOF, PosAt(fn, s, |s|))], None)
  {
    var s := a + "." + b;
    NumberEndOverDigits(s, 0, |a|, false);
    NumberEndOverDigits(s, |a| + 1, |s|, true);
    assert s[|a|] == '.';
    assert NumberEnd(s, 0, false) == |s|;
    assert s[0..|s|] == s;
    assert '.' in s;
    assert Scan(fn, s, 0) == Prepend([NumberToken(s)], Scan(fn, s, |s|));
  }
}
