/**
 * Two properties of the parser's specification over whole classes of token
 * lists: when it crashes on what the lexer produces, and the shape of the
 * tree it builds when no parentheses override the precedence of the grammar.
 */
module ParseStructure {
  import opened Wrappers
  import opened Tokens
  import opened Errors
  import opened Ast
  import opened ParseSpec

  /** What the lexer hands the parser: every token other than a number carries both positions. */
  predicate LexerShaped(toks: seq<Token>)
  {
    forall k :: 0 <= k < |toks| && toks[k].kind !in {INT, FLOAT} ==> toks[k].posStart.Some? && toks[k].posEnd.Some?
  }

  /** A token that can close an operand: a number or `)`. */
  predicate EndsOperand(t: Token)
  {
    t.kind in {INT, FLOAT, RPAREN}
  }

  /** Two operands side by side: a number right after a number or a `)`. */
  ghost predicate Juxtaposed(toks: seq<Token>)
  {
    exists k :: 0 < k < |toks| && toks[k].kind in {INT, FLOAT} && EndsOperand(toks[k - 1])
  }

  /**
   * What a rule guarantees from index `i` on a list without juxtaposed
   * operands: it does not crash, and when it reports no error the last token
   * it consumed closes an operand.
   */
  ghost predicate Settled(toks: seq<Token>, r: Outcome)
  {
    r.Parsed? && (r.res.error.None? ==> 0 < r.next <= |toks| && EndsOperand(toks[r.next - 1]))
  }

  /** After a token that closes an operand, a list without juxtaposed operands holds no number. */
  lemma AfterOperand(toks: seq<Token>, j: nat)
    requires !Juxtaposed(toks) && 0 < j < |toks| && EndsOperand(toks[j - 1])
    ensures toks[j].kind !in {INT, FLOAT}
  {
  }

  lemma {:induction false} FactorSettled(toks: seq<Token>, i: nat)
    requires WellFormed(toks) && LexerShaped(toks) && !Juxtaposed(toks) && i < |toks|
    ensures Settled(toks, Factor(toks, i))
    decreases |toks| - i, 0
  {
    var tok := toks[i];
    if tok.kind in {PLUS, MINUS} {
      FactorSettled(toks, i + 1);
    } else if tok.kind == LPAREN {
      ExprSettled(toks, i + 1);
      var r := Expr(toks, i + 1);
      if r.Parsed? && r.res.error.None? && toks[r.next].kind != RPAREN {
        AfterOperand(toks, r.next);
      }
    }
  }

  lemma {:induction false} ExprSettled(toks: seq<Token>, i: nat)
    requires WellFormed(toks) && LexerShaped(toks) && !Juxtaposed(toks) && i < |toks|
    ensures Settled(toks, Expr(toks, i))
    decreases |toks| - i, 6
  {
    BinOpSettled(ExprRule, toks, i);
  }

  lemma {:induction false} OperandSettled(rule: Rule, toks: seq<Token>, i: nat)
    requires WellFormed(toks) && LexerShaped(toks) && !Juxtaposed(toks) && i < |toks|
    ensures Settled(toks, Operand(rule, toks, i))
    decreases |toks| - i, if rule == TermRule then 1 else 4
  {
    if rule == TermRule {
      FactorSettled(toks, i);
    } else {
      BinOpSettled(TermRule, toks, i);
    }
  }

  lemma {:induction false} BinOpSettled(rule: Rule, toks: seq<Token>, i: nat)
    requires WellFormed(toks) && LexerShaped(toks) && !Juxtaposed(toks) && i < |toks|
    ensures Settled(toks, BinOp(rule, toks, i))
    decreases |toks| - i, if rule == TermRule then 2 else 5
  {
    OperandSettled(rule, toks, i);
    var r := Operand(rule, toks, i);
    FoldSettled(rule, toks, r.next, r.res.node, r.res.error);
  }

  /** The fold keeps Settled, given a left operand that, without an error, ends just before `i`. */
  lemma {:induction false} FoldSettled(rule: Rule, toks: seq<Token>, i: nat, left: Option<Node>, err: Option<Error>)
    requires WellFormed(toks) && LexerShaped(toks) && !Juxtaposed(toks) && i < |toks|
    requires err.None? ==> 0 < i && EndsOperand(toks[i - 1])
    ensures Settled(toks, Fold(rule, toks, i, left, err))
    decreases |toks| - i, if rule == TermRule then 1 else 4
  {
    if toks[i].kind in Ops(rule) {
      OperandSettled(rule, toks, i + 1);
      var s := Operand(rule, toks, i + 1);
      var left' := Some(BinOpNode(left, toks[i], s.res.node));
      var err' := if s.res.error.Some? then s.res.error else err;
      FoldSettled(rule, toks, s.next, left', err');
    }
  }

  /**
   * On a token list shaped like the lexer's output, `parse` crashes only
   * when two operands stand side by side: a number right after a number or
   * after a `)`.
   */
  lemma ParseCrash(toks: seq<Token>)
    requires WellFormed(toks) && LexerShaped(toks)
    ensures Parse(toks).Crashed? ==> Juxtaposed(toks)
  {
    if !Juxtaposed(toks) {
      ExprSettled(toks, 0);
      var r := Expr(toks, 0);
      if r.res.error.None? && toks[r.next].kind != EOF {
        AfterOperand(toks, r.next);
      }
    }
  }

  /** No parentheses: the grammar's precedence is all that shapes the tree. */
  predicate ParenFree(toks: seq<Token>)
  {
    forall k :: 0 <= k < |toks| ==> toks[k].kind !in {LPAREN, RPAREN}
  }

  /** A factor's tree: a number under any number of signs. */
  predicate FactorShaped(n: Node)
  {
    match n
    case NumberNode(_) => true
    case UnaryOpNode(_, operand) => FactorShaped(operand)
    case BinOpNode(_, _, _) => false
  }

  /** A term's tree: a factor, or a `*` or `/` node whose left operand is a term and whose right operand is a factor. */
  predicate TermShaped(n: Node)
  {
    match n
    case BinOpNode(l, op, r) =>
      op.kind in {MUL, DIV} && (l.Some? ==> TermShaped(l.value)) && (r.Some? ==> FactorShaped(r.value))
    case _ => FactorShaped(n)
  }

  /** An expression's tree: a term, or a `+` or `-` node whose left operand is an expression and whose right operand is a term. */
  predicate ExprShaped(n: Node)
  {
    match n
    case BinOpNode(l, op, r) =>
      if op.kind in {PLUS, MINUS} then (l.Some? ==> ExprShaped(l.value)) && (r.Some? ==> TermShaped(r.value))
      else TermShaped(n)
    case _ => TermShaped(n)
  }

  /** The shape of the trees a use of `bin_op` builds: terms for `term`, expressions for `expr`. */
  predicate RuleShaped(rule: Rule, n: Node)
  {
    if rule == TermRule then TermShaped(n) else ExprShaped(n)
  }

  /** The shape of the operands a use of `bin_op` parses: factors for `term`, terms for `expr`. */
  predicate OperandShaped(rule: Rule, n: Node)
  {
    if rule == TermRule then FactorShaped(n) else TermShaped(n)
  }

  lemma {:induction false} FactorShape(toks: seq<Token>, i: nat)
    requires WellFormed(toks) && ParenFree(toks) && i < |toks|
    ensures var r := Factor(toks, i);
            r.Parsed? && r.res.node.Some? ==> FactorShaped(r.res.node.value)
    decreases |toks| - i
  {
    if toks[i].kind in {PLUS, MINUS} {
      FactorShape(toks, i + 1);
    }
  }

  lemma {:induction false} OperandShape(rule: Rule, toks: seq<Token>, i: nat)
    requires WellFormed(toks) && ParenFree(toks) && i < |toks|
    ensures var r := Operand(rule, toks, i);
            r.Parsed? && r.res.node.Some? ==> OperandShaped(rule, r.res.node.value)
    decreases |toks| - i, if rule == TermRule then 1 else 4
  {
    if rule == TermRule {
      FactorShape(toks, i);
    } else {
      BinOpShape(TermRule, toks, i);
    }
  }

  lemma {:induction false} BinOpShape(rule: Rule, toks: seq<Token>, i: nat)
    requires WellFormed(toks) && ParenFree(toks) && i < |toks|
    ensures var r := BinOp(rule, toks, i);
            r.Parsed? && r.res.node.Some? ==> RuleShaped(rule, r.res.node.value)
    decreases |toks| - i, if rule == TermRule then 2 else 5
  {
    OperandShape(rule, toks, i);
    var r := Operand(rule, toks, i);
    if r.Parsed? {
      FoldShape(rule, toks, r.next, r.res.node, r.res.error);
    }
  }

  /** Each turn of the fold puts the tree so far on the left of a new node of the rule's operator. */
  lemma {:induction false} FoldShape(rule: Rule, toks: seq<Token>, i: nat, left: Option<Node>, err: Option<Error>)
    requires WellFormed(toks) && ParenFree(toks) && i < |toks|
    requires left.Some? ==> RuleShaped(rule, left.value)
    ensures var r := Fold(rule, toks, i, left, err);
            r.Parsed? && r.res.node.Some? ==> RuleShaped(rule, r.res.node.value)
    decreases |toks| - i, if rule == TermRule then 1 else 4
  {
    if toks[i].kind in Ops(rule) {
      OperandShape(rule, toks, i + 1);
      var s := Operand(rule, toks, i + 1);
      if s.Parsed? {
        var left' := Some(BinOpNode(left, toks[i], s.res.node));
        var err' := if s.res.error.Some? then s.res.error else err;
        FoldShape(rule, toks, s.next, left', err');
      }
    }
  }

  /**
   * Without parentheses, the tree `parse` builds follows the precedence and
   * the left associativity of the grammar: no `+` or `-` node lies under a
   * `*`, a `/` or a sign, the right operand of a `+` or `-` node is never a
   * `+` or `-` node, and the right operand of a `*` or `/` node is never a
   * binary node. This holds of every tree it returns, with or without an
   * error, and without an error there is a tree.
   */
  lemma ParseShape(toks: seq<Token>)
    requires WellFormed(toks) && ParenFree(toks)
    ensures var r := Parse(toks);
            (r.Parsed? && r.res.node.Some? ==> ExprShaped(r.res.node.value)) &&
            (r.Parsed? && r.res.error.None? ==> r.res.node.Some?)
  {
    BinOpShape(ExprRule, toks, 0);
  }
}
