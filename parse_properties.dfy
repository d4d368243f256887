/** Properties of the parser's specification. */
module ParseProperties {
  import opened Wrappers
  import opened Positions
  import opened Tokens
  import opened Errors
  import opened Ast
  import opened ParseSpec

  /** Every token carries both positions (true of every token but INT and FLOAT). */
  predicate Positioned(toks: seq<Token>)
  {
    forall k :: 0 <= k < |toks| ==> toks[k].posStart.Some? && toks[k].posEnd.Some?
  }

  /** An Invalid Syntax error with one of the parser's three messages, spanning one token of `toks`. */
  ghost predicate SpansToken(toks: seq<Token>, e: Error)
  {
    e.kind == InvalidSyntax &&
    e.details in {ExpectedNumber, ExpectedRParen, ExpectedOperator} &&
    exists k :: 0 <= k < |toks| && toks[k].posStart == Some(e.posStart) && toks[k].posEnd == Some(e.posEnd)
  }

  /**
   * What every rule guarantees of its outcome from index `i`: it does not
   * crash on positioned tokens; an error it reports is a syntax error at one
   * of the tokens; without an error its tree holds exactly the tokens it
   * consumed, in order, minus the parentheses.
   */
  ghost predicate Sound(toks: seq<Token>, i: nat, r: Outcome)
  {
    (Positioned(toks) ==> r.Parsed?) &&
    (r.Parsed? && r.res.error.Some? ==> SpansToken(toks, r.res.error.value)) &&
    (r.Parsed? && r.res.error.None? ==>
       i <= r.next <= |toks| && r.res.node.Some? && Yield(r.res.node.value) == WithoutParens(toks[i..r.next]))
  }

  lemma FailSound(toks: seq<Token>, k: nat, details: string, j: nat)
    requires k < |toks| && details in {ExpectedNumber, ExpectedRParen, ExpectedOperator}
    ensures var r := Fail(toks[k], details, j);
            (Positioned(toks) ==> r.Parsed?) &&
            (r.Parsed? ==> r.res.error.Some? && SpansToken(toks, r.res.error.value))
  {
  }

  /** WithoutParens over a slice cut in two. */
  lemma SplitSlice(toks: seq<Token>, a: nat, b: nat, c: nat)
    requires a <= b <= c <= |toks|
    ensures WithoutParens(toks[a..c]) == WithoutParens(toks[a..b]) + WithoutParens(toks[b..c])
  {
    assert toks[a..c] == toks[a..b] + toks[b..c];
    WithoutParensAppend(toks[a..b], toks[b..c]);
  }

  lemma {:induction false} FactorSound(toks: seq<Token>, i: nat)
    requires WellFormed(toks) && i < |toks|
    ensures Sound(toks, i, Factor(toks, i))
    decreases |toks| - i, 0
  {
    var tok := toks[i];
    if tok.kind in {INT, FLOAT} {
      assert toks[i..i + 1] == [tok];
    } else if tok.kind in {PLUS, MINUS} {
      FactorSound(toks, i + 1);
      SignedSound(toks, i);
    } else if tok.kind == LPAREN {
      ExprSound(toks, i + 1);
      GroupedSound(toks, i);
    } else {
      FailSound(toks, i, ExpectedNumber, i);
    }
  }

  /** A signed factor is Sound when the factor after the sign is. */
  lemma SignedSound(toks: seq<Token>, i: nat)
    requires WellFormed(toks) && i + 1 < |toks| && toks[i].kind in {PLUS, MINUS}
    requires Sound(toks, i + 1, Factor(toks, i + 1))
    ensures Sound(toks, i, Factor(toks, i))
  {
    var r := Factor(toks, i + 1);
    if r.Parsed? && r.res.error.None? {
      SplitSlice(toks, i, i + 1, r.next);
      assert toks[i..i + 1] == [toks[i]];
    }
  }

  /** A parenthesised factor is Sound when the expression inside is. */
  lemma GroupedSound(toks: seq<Token>, i: nat)
    requires WellFormed(toks) && i + 1 < |toks| && toks[i].kind == LPAREN
    requires Sound(toks, i + 1, Expr(toks, i + 1))
    ensures Sound(toks, i, Factor(toks, i))
  {
    var r := Expr(toks, i + 1);
    if r.Parsed? && r.res.error.None? {
      var j := r.next;
      if toks[j].kind == RPAREN {
        ParensDropped(toks, i, j);
      } else {
        FailSound(toks, j, ExpectedRParen, j);
      }
    }
  }

  /** Wrapping a slice in the parentheses around it leaves the tokens minus the parentheses as they were. */
  lemma ParensDropped(toks: seq<Token>, i: nat, j: nat)
    requires i < j < |toks| && toks[i].kind == LPAREN && toks[j].kind == RPAREN
    ensures WithoutParens(toks[i..j + 1]) == WithoutParens(toks[i + 1..j])
  {
    SplitSlice(toks, i, i + 1, j + 1);
    SplitSlice(toks, i + 1, j, j + 1);
    assert toks[i..i + 1] == [toks[i]];
    assert toks[j..j + 1] == [toks[j]];
  }

  lemma {:induction false} TermSound(toks: seq<Token>, i: nat)
    requires WellFormed(toks) && i < |toks|
    ensures Sound(toks, i, Term(toks, i))
    decreases |toks| - i, 3
  {
    BinOpSound(TermRule, toks, i);
  }

  lemma {:induction false} ExprSound(toks: seq<Token>, i: nat)
    requires WellFormed(toks) && i < |toks|
    ensures Sound(toks, i, Expr(toks, i))
    decreases |toks| - i, 6
  {
    BinOpSound(ExprRule, toks, i);
  }

  lemma {:induction false} OperandSound(rule: Rule, toks: seq<Token>, i: nat)
    requires WellFormed(toks) && i < |toks|
    ensures Sound(toks, i, Operand(rule, toks, i))
    decreases |toks| - i, if rule == TermRule then 1 else 4
  {
    if rule == TermRule {
      FactorSound(toks, i);
    } else {
      TermSound(toks, i);
    }
  }

  lemma {:induction false} BinOpSound(rule: Rule, toks: seq<Token>, i: nat)
    requires WellFormed(toks) && i < |toks|
    ensures Sound(toks, i, BinOp(rule, toks, i))
    decreases |toks| - i, if rule == TermRule then 2 else 5
  {
    OperandSound(rule, toks, i);
    var r := Operand(rule, toks, i);
    if r.Parsed? {
      var j := r.next;
      FoldSound(rule, toks, j, r.res.node, r.res.error);
      var f := Fold(rule, toks, j, r.res.node, r.res.error);
      if f.Parsed? && f.res.error.None? {
        SplitSlice(toks, i, j, f.next);
      }
    }
  }

  /** The fold keeps Sound, given a left operand whose error (if any) is a syntax error at a token. */
  lemma {:induction false} FoldSound(rule: Rule, toks: seq<Token>, i: nat, left: Option<Node>, err: Option<Error>)
    requires WellFormed(toks) && i < |toks|
    requires err.Some? ==> SpansToken(toks, err.value)
    ensures var r := Fold(rule, toks, i, left, err);
            (Positioned(toks) ==> r.Parsed?) &&
            (r.Parsed? && r.res.error.Some? ==> SpansToken(toks, r.res.error.value)) &&
            (r.Parsed? && r.res.error.None? ==>
               YieldOf(r.res.node) == YieldOf(left) + WithoutParens(toks[i..r.next]))
    decreases |toks| - i, if rule == TermRule then 1 else 4
  {
    if toks[i].kind in Ops(rule) {
      OperandSound(rule, toks, i + 1);
      var s := Operand(rule, toks, i + 1);
      if s.Parsed? {
        var j := s.next;
        var left' := Some(BinOpNode(left, toks[i], s.res.node));
        var err' := if s.res.error.Some? then s.res.error else err;
        FoldSound(rule, toks, j, left', err');
        var f := Fold(rule, toks, j, left', err');
        if f.Parsed? && f.res.error.None? {
          assert s.res.error.None?;
          FoldYieldStep(toks, i, j, f.next, left, s.res.node, f.res.node);
        }
      }
    } else {
      assert toks[i..i] == [];
    }
  }

  /** One turn of the fold adds the operator and the operand's tokens to the left operand's. */
  lemma FoldYieldStep(toks: seq<Token>, i: nat, j: nat, n: nat, left: Option<Node>, right: Option<Node>, result: Option<Node>)
    requires i < j <= n <= |toks| && toks[i].kind !in {LPAREN, RPAREN}
    requires YieldOf(right) == WithoutParens(toks[i + 1..j])
    requires YieldOf(result) == YieldOf(Some(BinOpNode(left, toks[i], right))) + WithoutParens(toks[j..n])
    ensures YieldOf(result) == YieldOf(left) + WithoutParens(toks[i..n])
  {
    OperatorSlice(toks, i, j, n);
    var l, op, r, rest := YieldOf(left), [toks[i]], WithoutParens(toks[i + 1..j]), WithoutParens(toks[j..n]);
    Regroup(l, op, r, rest);
  }

  lemma Regroup(l: seq<Token>, op: seq<Token>, r: seq<Token>, rest: seq<Token>)
    ensures l + op + r + rest == l + (op + r + rest)
  {
  }

  /** The tokens of a slice that starts with an operator, cut after the operator and again at `j`. */
  lemma OperatorSlice(toks: seq<Token>, i: nat, j: nat, n: nat)
    requires i < j <= n <= |toks| && toks[i].kind !in {LPAREN, RPAREN}
    ensures WithoutParens(toks[i..n]) == [toks[i]] + WithoutParens(toks[i + 1..j]) + WithoutParens(toks[j..n])
  {
    SplitSlice(toks, i, j, n);
    SplitSlice(toks, i, i + 1, j);
    assert toks[i..i + 1] == [toks[i]];
  }

  /**
   * `parse` is sound: it does not crash on positioned tokens, any error it
   * reports is a syntax error at one of the tokens, and a tree without an
   * error holds, in order and minus the parentheses, every token before the
   * EOF where parsing stopped.
   */
  lemma ParseSound(toks: seq<Token>)
    requires WellFormed(toks)
    ensures var r := Parse(toks);
            (Positioned(toks) ==> r.Parsed?) &&
            (r.Parsed? && r.res.error.Some? ==> SpansToken(toks, r.res.error.value)) &&
            (r.Parsed? && r.res.error.None? ==>
               toks[r.next].kind == EOF && r.res.node.Some? && Yield(r.res.node.value) == WithoutParens(toks[..r.next]))
  {
    ExprSound(toks, 0);
    match Expr(toks, 0)
    case Crashed =>
    case Parsed(res, j) =>
      if res.error.None? && toks[j].kind != EOF {
        FailSound(toks, j, ExpectedOperator, j);
      }
      assert toks[0..j] == toks[..j];
  }
}
