/** `run` on whole lines: one that parses, and one the parser cannot report on. */
module RunExamples {
  import opened Wrappers
  import opened Positions
  import opened Tokens
  import opened LexSpec
  import opened Ast
  import opened ParseSpec
  import opened Driver
  import LexExamples
  import ParseExamples

  /** `2 + 3 * 4` gives the product nested under the sum, and no error. */
  lemma RunArithmetic(fn: string)
    ensures var s := "2 + 3 * 4";
            RunResult(fn, s) ==
            Ran(Some(BinOpNode(Some(NumberNode(Token(INT, IntValue(2), None, None))), PositionedToken(PLUS, PosAt(fn, s, 2)),
                               Some(BinOpNode(Some(NumberNode(Token(INT, IntValue(3), None, None))), PositionedToken(MUL, PosAt(fn, s, 6)),
                                              Some(NumberNode(Token(INT, IntValue(4), None, None))))))), None)
  {
    var s := "2 + 3 * 4";
    LexExamples.ArithmeticLine(fn);
    var ts := Tokenize(fn, s).tokens;
    ParseExamples.Precedence(ts[0], ts[1], ts[2], ts[3], ts[4], ts[5]);
    assert ts == [ts[0], ts[1], ts[2], ts[3], ts[4], ts[5]];
  }

  /**
   * `1 + 2 3` lexes, but the parser stops before the `3` and would report it
   * with the positions of a number token, which has none: `run` crashes,
   * as written and as corrected alike.
   */
  lemma RunTrailingNumber(fn: string)
    ensures RunResult(fn, "1 + 2 3") == RunCrashed
  {
    var s := "1 + 2 3";
    TrailingNumberScan(fn, s);
    ParseExamples.TrailingNumberCrashes(Token(INT, IntValue(1), None, None), PositionedToken(PLUS, PosAt(fn, s, 2)),
                                        Token(INT, IntValue(2), None, None), Token(INT, IntValue(3), None, None),
                                        PositionedToken(EOF, PosAt(fn, s, 7)));
  }

  /** The scan of any text spelled `1 + 2 3`: three numbers, the operator between the first two, and EOF. */
  lemma TrailingNumberScan(fn: string, s: string)
    requires |s| == 7 && s[0] == '1' && s[1] == ' ' && s[2] == '+' && s[3] == ' ' && s[4] == '2' && s[5] == ' ' && s[6] == '3'
    ensures Scan(fn, s, 0) ==
            LexResult([Token(INT, IntValue(1), None, None), PositionedToken(PLUS, PosAt(fn, s, 2)),
                       Token(INT, IntValue(2), None, None), Token(INT, IntValue(3), None, None),
                       PositionedToken(EOF, PosAt(fn, s, 7))], None)
  {
    LexExamples.DigitStep(fn, s, 6);
    LexExamples.BlankStep(fn, s, 5);
    LexExamples.DigitStep(fn, s, 4);
    LexExamples.BlankStep(fn, s, 3);
    LexExamples.OperatorStep(fn, s, 2);
    LexExamples.BlankStep(fn, s, 1);
    LexExamples.DigitStep(fn, s, 0);
  }
}
