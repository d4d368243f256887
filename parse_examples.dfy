/**
 * The parser on small token lists: precedence, associativity, parentheses,
 * unary signs, the three syntax errors, the crash at a number token, and
 * `bin_op` going on after an error. Tokens are arbitrary apart from their
 * types (and, where an error is built at them, their positions).
 */
module ParseExamples {
  import opened Wrappers
  import opened Positions
  import opened Tokens
  import opened Errors
  import opened Ast
  import opened ParseSpec

  /** A number followed by anything but MUL or DIV is a whole term (and so a whole operand of either fold). */
  lemma NumberOperand(rule: Rule, toks: seq<Token>, i: nat)
    requires WellFormed(toks) && i + 1 < |toks| && toks[i].kind in {INT, FLOAT} && toks[i + 1].kind !in {MUL, DIV}
    ensures Operand(rule, toks, i) == Parsed(PResult(Some(NumberNode(toks[i])), None), i + 1)
  {
    var n := Some(NumberNode(toks[i]));
    assert Factor(toks, i) == Parsed(PResult(n, None), i + 1);
    assert Fold(TermRule, toks, i + 1, n, None) == Parsed(PResult(n, None), i + 1);
    assert BinOp(TermRule, toks, i) == Parsed(PResult(n, None), i + 1);
  }

  /** A factor followed by a token that is no operator is a whole term and a whole expression. */
  lemma FactorIsExpr(toks: seq<Token>, i: nat, r: PResult, j: nat)
    requires WellFormed(toks) && i < |toks| && Factor(toks, i) == Parsed(r, j) && toks[j].kind !in {MUL, DIV, PLUS, MINUS}
    ensures Term(toks, i) == Parsed(r, j) && Expr(toks, i) == Parsed(r, j)
  {
    assert Fold(TermRule, toks, j, r.node, r.error) == Parsed(r, j);
    assert BinOp(TermRule, toks, i) == Parsed(r, j);
    assert Operand(ExprRule, toks, i) == Parsed(r, j);
    assert Fold(ExprRule, toks, j, r.node, r.error) == Parsed(r, j);
    assert BinOp(ExprRule, toks, i) == Parsed(r, j);
  }

  /** A term followed by a token that is neither PLUS nor MINUS is a whole expression. */
  lemma TermIsExpr(toks: seq<Token>, i: nat, r: PResult, j: nat)
    requires WellFormed(toks) && i < |toks| && Term(toks, i) == Parsed(r, j) && toks[j].kind !in {PLUS, MINUS}
    ensures Expr(toks, i) == Parsed(r, j)
  {
    assert Operand(ExprRule, toks, i) == Parsed(r, j);
    assert Fold(ExprRule, toks, j, r.node, r.error) == Parsed(r, j);
    assert BinOp(ExprRule, toks, i) == Parsed(r, j);
  }

  /** `2 + 3 * 4`: multiplication nests under addition. */
  lemma Precedence(a: Token, plus: Token, b: Token, times: Token, c: Token, eof: Token)
    requires a.kind == INT && plus.kind == PLUS && b.kind == INT && times.kind == MUL && c.kind == INT && eof.kind == EOF
    ensures Parse([a, plus, b, times, c, eof]) ==
            Parsed(PResult(Some(BinOpNode(Some(NumberNode(a)), plus,
                                          Some(BinOpNode(Some(NumberNode(b)), times, Some(NumberNode(c)))))), None), 5)
  {
    var ts := [a, plus, b, times, c, eof];
    var bc := Some(BinOpNode(Some(NumberNode(b)), times, Some(NumberNode(c))));
    var all := Some(BinOpNode(Some(NumberNode(a)), plus, bc));
    NumberOperand(TermRule, ts, 4);
    assert Fold(TermRule, ts, 3, Some(NumberNode(b)), None) == Parsed(PResult(bc, None), 5);
    assert Operand(TermRule, ts, 2) == Parsed(PResult(Some(NumberNode(b)), None), 3);
    assert BinOp(TermRule, ts, 2) == Parsed(PResult(bc, None), 5);
    NumberOperand(ExprRule, ts, 0);
    assert Operand(ExprRule, ts, 2) == Parsed(PResult(bc, None), 5);
    assert Fold(ExprRule, ts, 1, Some(NumberNode(a)), None) == Parsed(PResult(all, None), 5);
    assert Expr(ts, 0) == Parsed(PResult(all, None), 5);
  }

  /** `8 - 3 - 2`: the earlier subtraction is the left operand of the later one. */
  lemma LeftAssociative(a: Token, m1: Token, b: Token, m2: Token, c: Token, eof: Token)
    requires a.kind == INT && m1.kind == MINUS && b.kind == INT && m2.kind == MINUS && c.kind == INT && eof.kind == EOF
    ensures Parse([a, m1, b, m2, c, eof]) ==
            Parsed(PResult(Some(BinOpNode(Some(BinOpNode(Some(NumberNode(a)), m1, Some(NumberNode(b)))), m2,
                                          Some(NumberNode(c)))), None), 5)
  {
    var ts := [a, m1, b, m2, c, eof];
    var ab := Some(BinOpNode(Some(NumberNode(a)), m1, Some(NumberNode(b))));
    var all := Some(BinOpNode(ab, m2, Some(NumberNode(c))));
    NumberOperand(ExprRule, ts, 0);
    NumberOperand(ExprRule, ts, 2);
    NumberOperand(ExprRule, ts, 4);
    assert Fold(ExprRule, ts, 3, ab, None) == Parsed(PResult(all, None), 5);
    assert Fold(ExprRule, ts, 1, Some(NumberNode(a)), None) == Parsed(PResult(all, None), 5);
    assert Expr(ts, 0) == Parsed(PResult(all, None), 5);
  }

  /** `(2 + 3) * 4`: the parenthesised sum is the left operand of the product, and leaves no node of its own. */
  lemma Parenthesised(lp: Token, a: Token, plus: Token, b: Token, rp: Token, times: Token, c: Token, eof: Token)
    requires lp.kind == LPAREN && a.kind == INT && plus.kind == PLUS && b.kind == INT && rp.kind == RPAREN
    requires times.kind == MUL && c.kind == INT && eof.kind == EOF
    ensures Parse([lp, a, plus, b, rp, times, c, eof]) ==
            Parsed(PResult(Some(BinOpNode(Some(BinOpNode(Some(NumberNode(a)), plus, Some(NumberNode(b)))), times,
                                          Some(NumberNode(c)))), None), 7)
  {
    var ts := [lp, a, plus, b, rp, times, c, eof];
    var ab := Some(BinOpNode(Some(NumberNode(a)), plus, Some(NumberNode(b))));
    var all := Some(BinOpNode(ab, times, Some(NumberNode(c))));
    NumberOperand(ExprRule, ts, 1);
    NumberOperand(ExprRule, ts, 3);
    assert Fold(ExprRule, ts, 2, Some(NumberNode(a)), None) == Parsed(PResult(ab, None), 4);
    assert Expr(ts, 1) == Parsed(PResult(ab, None), 4);
    assert Factor(ts, 0) == Parsed(PResult(ab, None), 5);
    NumberOperand(TermRule, ts, 6);
    assert Fold(TermRule, ts, 5, ab, None) == Parsed(PResult(all, None), 7);
    assert Operand(TermRule, ts, 0) == Parsed(PResult(ab, None), 5);
    assert Term(ts, 0) == Parsed(PResult(all, None), 7);
    TermIsExpr(ts, 0, PResult(all, None), 7);
  }

  /** `--5`: unary signs nest. */
  lemma NestedUnary(m1: Token, m2: Token, a: Token, eof: Token)
    requires m1.kind == MINUS && m2.kind == MINUS && a.kind == INT && eof.kind == EOF
    ensures Parse([m1, m2, a, eof]) ==
            Parsed(PResult(Some(UnaryOpNode(m1, UnaryOpNode(m2, NumberNode(a)))), None), 3)
  {
    var ts := [m1, m2, a, eof];
    var n := Some(UnaryOpNode(m1, UnaryOpNode(m2, NumberNode(a))));
    assert Factor(ts, 2) == Parsed(PResult(Some(NumberNode(a)), None), 3);
    assert Factor(ts, 1) == Parsed(PResult(Some(UnaryOpNode(m2, NumberNode(a))), None), 3);
    assert Factor(ts, 0) == Parsed(PResult(n, None), 3);
    FactorIsExpr(ts, 0, PResult(n, None), 3);
  }

  /** `(1 + 2`: "Expected ')' " at EOF, with no node. */
  lemma Unterminated(lp: Token, a: Token, plus: Token, b: Token, eof: Token)
    requires lp.kind == LPAREN && a.kind == INT && plus.kind == PLUS && b.kind == INT && eof.kind == EOF
    requires eof.posStart.Some? && eof.posEnd.Some?
    ensures Parse([lp, a, plus, b, eof]) ==
            Parsed(PResult(None, Some(InvalidSyntaxError(eof.posStart.value, eof.posEnd.value, "Expected ')' "))), 4)
  {
    var ts := [lp, a, plus, b, eof];
    var ab := Some(BinOpNode(Some(NumberNode(a)), plus, Some(NumberNode(b))));
    var e := Some(InvalidSyntaxError(eof.posStart.value, eof.posEnd.value, "Expected ')' "));
    NumberOperand(ExprRule, ts, 1);
    NumberOperand(ExprRule, ts, 3);
    assert Fold(ExprRule, ts, 2, Some(NumberNode(a)), None) == Parsed(PResult(ab, None), 4);
    assert Expr(ts, 1) == Parsed(PResult(ab, None), 4);
    assert Factor(ts, 0) == Parsed(PResult(None, e), 4);
    FactorIsExpr(ts, 0, PResult(None, e), 4);
  }

  /** `1 + 2 )`: "Expected '+' '-' '*' or '/' " at the stray token, and the node is kept. */
  lemma TrailingToken(a: Token, plus: Token, b: Token, rp: Token, eof: Token)
    requires a.kind == INT && plus.kind == PLUS && b.kind == INT && rp.kind == RPAREN && eof.kind == EOF
    requires rp.posStart.Some? && rp.posEnd.Some?
    ensures Parse([a, plus, b, rp, eof]) ==
            Parsed(PResult(Some(BinOpNode(Some(NumberNode(a)), plus, Some(NumberNode(b)))),
                           Some(InvalidSyntaxError(rp.posStart.value, rp.posEnd.value, "Expected '+' '-' '*' or '/' "))), 3)
  {
    var ts := [a, plus, b, rp, eof];
    var ab := Some(BinOpNode(Some(NumberNode(a)), plus, Some(NumberNode(b))));
    NumberOperand(ExprRule, ts, 0);
    NumberOperand(ExprRule, ts, 2);
    assert Fold(ExprRule, ts, 1, Some(NumberNode(a)), None) == Parsed(PResult(ab, None), 3);
    assert Expr(ts, 0) == Parsed(PResult(ab, None), 3);
  }

  /**
   * `1 + 2 3`: the trailing-token error would be built at a number token,
   * which has no positions, so the source crashes instead of reporting it.
   */
  lemma TrailingNumberCrashes(a: Token, plus: Token, b: Token, c: Token, eof: Token)
    requires a.kind == INT && plus.kind == PLUS && b.kind == INT && c == Token(INT, IntValue(3), None, None) && eof.kind == EOF
    ensures Parse([a, plus, b, c, eof]) == Crashed
  {
    var ts := [a, plus, b, c, eof];
    var ab := Some(BinOpNode(Some(NumberNode(a)), plus, Some(NumberNode(b))));
    NumberOperand(ExprRule, ts, 0);
    NumberOperand(ExprRule, ts, 2);
    assert Fold(ExprRule, ts, 1, Some(NumberNode(a)), None) == Parsed(PResult(ab, None), 3);
    assert Expr(ts, 0) == Parsed(PResult(ab, None), 3);
  }

  /**
   * `1 * * * 2`: `bin_op` goes on after a failed operand, builds nodes with
   * missing operands, and reports the last error (at the third `*`), not the
   * first.
   */
  lemma LastErrorWins(a: Token, s1: Token, s2: Token, s3: Token, b: Token, eof: Token)
    requires a.kind == INT && s1.kind == MUL && s2.kind == MUL && s3.kind == MUL && b.kind == INT && eof.kind == EOF
    requires s2.posStart.Some? && s2.posEnd.Some? && s3.posStart.Some? && s3.posEnd.Some?
    requires s2.posStart != s3.posStart
    ensures var e3 := InvalidSyntaxError(s3.posStart.value, s3.posEnd.value, "Expected int or float ");
            Parse([a, s1, s2, s3, b, eof]) ==
            Parsed(PResult(Some(BinOpNode(Some(BinOpNode(Some(BinOpNode(Some(NumberNode(a)), s1, None)), s2, None)), s3,
                                          Some(NumberNode(b)))), Some(e3)), 5)
    ensures Parse([a, s1, s2, s3, b, eof]).res.error.value.posStart != s2.posStart.value
  {
    var ts := [a, s1, s2, s3, b, eof];
    var e2 := Some(InvalidSyntaxError(s2.posStart.value, s2.posEnd.value, "Expected int or float "));
    var e3 := Some(InvalidSyntaxError(s3.posStart.value, s3.posEnd.value, "Expected int or float "));
    var n1 := Some(BinOpNode(Some(NumberNode(a)), s1, None));
    var n2 := Some(BinOpNode(n1, s2, None));
    var n3 := Some(BinOpNode(n2, s3, Some(NumberNode(b))));
    assert Factor(ts, 4) == Parsed(PResult(Some(NumberNode(b)), None), 5);
    assert Fold(TermRule, ts, 5, n3, e3) == Parsed(PResult(n3, e3), 5);
    assert Fold(TermRule, ts, 3, n2, e3) == Parsed(PResult(n3, e3), 5);
    assert Factor(ts, 3) == Parsed(PResult(None, e3), 3);
    assert Fold(TermRule, ts, 2, n1, e2) == Parsed(PResult(n3, e3), 5);
    assert Factor(ts, 2) == Parsed(PResult(None, e2), 2);
    assert Fold(TermRule, ts, 1, Some(NumberNode(a)), None) == Parsed(PResult(n3, e3), 5);
    assert Factor(ts, 0) == Parsed(PResult(Some(NumberNode(a)), None), 1);
    assert Operand(TermRule, ts, 0) == Parsed(PResult(Some(NumberNode(a)), None), 1);
    assert BinOp(TermRule, ts, 0) == Parsed(PResult(n3, e3), 5);
    TermIsExpr(ts, 0, PResult(n3, e3), 5);
  }
}
