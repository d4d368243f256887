/**
 * The lexer on small inputs: an arithmetic line, the `1.2.3` case, a number
 * that starts with a dot, and a newline, which the lexer does not accept.
 * The file name `fn` is left arbitrary.
 */
module LexExamples {
  import opened Wrappers
  import opened Positions
  import opened Tokens
  import opened Errors
  import opened LexSpec
  import LexProperties

  /** `2 + 3 * 4`: numbers carry their values and no positions; operators and EOF carry one-character spans. */
  lemma ArithmeticLine(fn: string)
    ensures var s := "2 + 3 * 4";
            Tokenize(fn, s) ==
            LexResult([Token(INT, IntValue(2), None, None), PositionedToken(PLUS, PosAt(fn, s, 2)),
                       Token(INT, IntValue(3), None, None), PositionedToken(MUL, PosAt(fn, s, 6)),
                       Token(INT, IntValue(4), None, None), PositionedToken(EOF, PosAt(fn, s, 9))], None)
  {
    ArithmeticScan(fn, "2 + 3 * 4");
  }

  /** The scan of any text spelled `2 + 3 * 4`, character by character. */
  lemma ArithmeticScan(fn: string, s: string)
    requires |s| == 9 && s[0] == '2' && s[1] == ' ' && s[2] == '+' && s[3] == ' ' && s[4] == '3'
    requires s[5] == ' ' && s[6] == '*' && s[7] == ' ' && s[8] == '4'
    ensures Scan(fn, s, 0) ==
            LexResult([Token(INT, IntValue(2), None, None), PositionedToken(PLUS, PosAt(fn, s, 2)),
                       Token(INT, IntValue(3), None, None), PositionedToken(MUL, PosAt(fn, s, 6)),
                       Token(INT, IntValue(4), None, None), PositionedToken(EOF, PosAt(fn, s, 9))], None)
  {
    var rest := ArithmeticTail(fn, s);
    BlankStep(fn, s, 3);
    OperatorStep(fn, s, 2);
    BlankStep(fn, s, 1);
    DigitStep(fn, s, 0);
    var two, plus := Token(INT, IntValue(2), None, None), PositionedToken(PLUS, PosAt(fn, s, 2));
    assert [two] + ([plus] + rest) == [two, plus, rest[0], rest[1], rest[2], rest[3]];
  }

  /** The same scan from the `3` on. */
  lemma ArithmeticTail(fn: string, s: string) returns (rest: seq<Token>)
    requires |s| == 9 && s[4] == '3' && s[5] == ' ' && s[6] == '*' && s[7] == ' ' && s[8] == '4'
    ensures rest == [Token(INT, IntValue(3), None, None), PositionedToken(MUL, PosAt(fn, s, 6)),
                     Token(INT, IntValue(4), None, None), PositionedToken(EOF, PosAt(fn, s, 9))]
    ensures Scan(fn, s, 4) == LexResult(rest, None)
  {
    DigitStep(fn, s, 8);
    BlankStep(fn, s, 7);
    OperatorStep(fn, s, 6);
    BlankStep(fn, s, 5);
    DigitStep(fn, s, 4);
    rest := [Token(INT, IntValue(3), None, None), PositionedToken(MUL, PosAt(fn, s, 6)),
             Token(INT, IntValue(4), None, None), PositionedToken(EOF, PosAt(fn, s, 9))];
  }

  /** A one-digit number, followed by the end of the text or a character that cannot extend it, is an INT token. */
  lemma DigitStep(fn: string, s: string, i: nat)
    requires i < |s| && IsDigit(s[i]) && (i + 1 == |s| || !IsNumberChar(s[i + 1]))
    ensures Scan(fn, s, i) == Prepend([Token(INT, IntValue(s[i] as int - '0' as int), None, None)], Scan(fn, s, i + 1))
  {
    assert NumberEnd(s, i, false) == i + 1;
    assert s[i..i + 1] == [s[i]] && [s[i]][..0] == [];
    assert DigitsValue([s[i]]) == s[i] as int - '0' as int;
  }

  /** An operator or parenthesis is a token positioned where it stands. */
  lemma OperatorStep(fn: string, s: string, i: nat)
    requires i < |s| && SingleKind(s[i]).Some?
    ensures Scan(fn, s, i) == Prepend([PositionedToken(SingleKind(s[i]).value, PosAt(fn, s, i))], Scan(fn, s, i + 1))
  {
  }

  /** A blank adds nothing. */
  lemma BlankStep(fn: string, s: string, i: nat)
    requires i < |s| && IsBlank(s[i])
    ensures Scan(fn, s, i) == Scan(fn, s, i + 1)
  {
  }

  /**
   * `1.2.3`: the number stops before the second `.`, and a `.` that does not
   * follow a digit is an illegal character, so the whole line fails there.
   */
  lemma SecondDot(fn: string)
    ensures var s := "1.2.3";
            Tokenize(fn, s) == LexResult([], Some(IllegalCharError(PosAt(fn, s, 3), PosAt(fn, s, 4), "'.'")))
  {
    var s := "1.2.3";
    assert NumberEnd(s, 3, true) == 3;
    assert NumberEnd(s, 0, false) == 3;
    var e := Some(IllegalCharError(PosAt(fn, s, 3), PosAt(fn, s, 4), "'.'"));
    assert s[3] == '.' && !IsLegal('.') && "'" + [s[3]] + "'" == "'.'";
    assert Scan(fn, s, 3) == LexResult([], e);
    assert Scan(fn, s, 0) == Prepend([NumberToken(s[0..3])], Scan(fn, s, 3));
  }

  /** `.5`: a number cannot start with a dot. */
  lemma LeadingDot(fn: string)
    ensures var s := ".5";
            Tokenize(fn, s) == LexResult([], Some(IllegalCharError(PosAt(fn, s, 0), PosAt(fn, s, 1), "'.'")))
  {
    var s := ".5";
    assert s[0] == '.' && !IsLegal('.') && "'" + [s[0]] + "'" == "'.'";
  }

  /**
   * `1` and a line break: the break is an illegal character on line 1, but
   * the message names line 2, because it is rendered from the end position,
   * which lies past the break.
   */
  lemma LineBreak(fn: string)
    ensures var r := Tokenize(fn, "1\n");
            r.error.Some? && r.error.value.posStart.ln == 0 && r.error.value.posEnd.ln == 1 &&
            AsString(r.error.value) == "Illegal Character: '\n'File " + fn + ", line 2"
  {
    var e := LineBreakError(fn, "1\n");
    assert NatToString(2) == "2";
    LexProperties.IllegalCharRendering(e, '\n');
  }

  /** The scan of any text spelled `1` and a line break fails at the break. */
  lemma LineBreakError(fn: string, s: string) returns (e: Error)
    requires |s| == 2 && s[0] == '1' && s[1] == '\n'
    ensures Scan(fn, s, 0).error == Some(e)
    ensures e.kind == IllegalCharacter && e.details == "'" + ['\n'] + "'"
    ensures e.posStart.ln == 0 && e.posEnd.ln == 1 && e.posStart.fn == fn
  {
    assert NumberEnd(s, 0, false) == 1;
    assert PosAt(fn, s, 0) == Pos(0, 0, 0, fn, s);
    var p := PosAt(fn, s, 1);
    assert p.ln == 0 && p.fn == fn;
    e := IllegalCharError(p, p.Advanced(Some('\n')), "'" + ['\n'] + "'");
    assert Scan(fn, s, 1) == LexResult([], Some(e));
  }
}
