/**
 * The `ParserResult` and `Parser` classes of basic.py. Each grammar rule is a
 * method over the parser's token cursor that returns a fresh `ParserResult`,
 * and each is proved to compute what the rule's function in ParseSpec
 * states. `crashed` reports the AttributeError the source raises when it
 * builds a syntax error at a number token, which has no positions.
 */
module Parsing {
  import opened Wrappers
  import opened Positions
  import opened Tokens
  import opened Errors
  import opened Ast
  import opened ParseSpec

  /** The mutable `node` / `error` pair threaded through the recursive descent. */
  class ParserResult {
    var node: Option<Node>
    var error: Option<Error>

    constructor ()
      ensures node == None && error == None
    {
      node, error := None, None;
    }

    function Value(): PResult
      reads this
    {
      PResult(node, error)
    }

    /** Sets the node; an error already held stays. */
    method Success(n: Option<Node>)
      modifies this
      ensures node == n && error == old(error)
    {
      node := n;
    }

    /** Sets the error; the node stays. */
    method Failure(e: Error)
      modifies this
      ensures error == Some(e) && node == old(node)
    {
      error := Some(e);
    }

    /** `register` given a token: the token passes through and nothing changes. */
    method RegisterToken(t: Token) returns (r: Token)
      ensures r == t
    {
      r := t;
    }

    /**
     * `register` given a sub-result: its error, if any, replaces this one's
     * (so the last error wins), and its node is handed back.
     */
    method RegisterResult(sub: ParserResult) returns (n: Option<Node>)
      modifies this
      ensures n == old(sub.node) && node == old(node)
      ensures error == if old(sub.error).Some? then old(sub.error) else old(error)
    {
      n := sub.node;
      if sub.error.Some? {
        error := sub.error;
      }
    }
  }

  /**
   * `res.failure(InvalidSyntaxError(tok.pos_start, tok.pos_end, details))`;
   * reports a crash instead when `tok` has no positions.
   */
  method FailAt(res: ParserResult, tok: Token, details: string) returns (crashed: bool)
    modifies res
    ensures crashed <==> SyntaxErrorAt(tok, details).None?
    ensures !crashed ==> res.node == old(res.node) && res.error == SyntaxErrorAt(tok, details)
  {
    if tok.posStart.None? || tok.posEnd.None? {
      return true;
    }
    res.Failure(InvalidSyntaxError(tok.posStart.value, tok.posEnd.value, details));
    return false;
  }

  class Parser {
    const tokens: seq<Token>
    var tokIdx: int
    var currentTok: Token

    /** The current token is the one at the cursor, or EOF once the cursor has passed the end. */
    ghost predicate Valid()
      reads this
    {
      WellFormed(tokens) && 0 <= tokIdx && currentTok == tokens[Min(tokIdx, |tokens| - 1)]
    }

    /** Where a grammar rule can start: the cursor is on a token. */
    ghost predicate Ready()
      reads this
    {
      Valid() && tokIdx < |tokens|
    }

    /** What a rule method returned, in the terms of ParseSpec. */
    function Observed(res: ParserResult, crashed: bool): ParseSpec.Outcome
      reads this, res
      requires 0 <= tokIdx
    {
      if crashed then Crashed else Parsed(res.Value(), tokIdx)
    }

    /** The cursor starts before the first token and is advanced onto it. */
    constructor (tokens: seq<Token>)
      requires WellFormed(tokens)
      ensures Ready() && tokIdx == 0 && this.tokens == tokens
    {
      this.tokens := tokens;
      tokIdx := 0;
      currentTok := tokens[0];
    }

    /** Moves the cursor one token on; past the last token, the last token (EOF) stays current. */
    method Advance() returns (t: Token)
      requires tokIdx >= -1
      modifies this
      ensures tokIdx == old(tokIdx) + 1
      ensures currentTok == if tokIdx < |tokens| then tokens[tokIdx] else old(currentTok)
      ensures t == currentTok
      ensures old(Valid()) ==> Valid()
    {
      tokIdx := tokIdx + 1;
      if tokIdx < |tokens| {
        currentTok := tokens[tokIdx];
      }
      t := currentTok;
    }

    /** `parse`: an expression, then EOF unless an error was already found. */
    method Parse() returns (res: ParserResult, crashed: bool)
      requires Ready()
      modifies this
      ensures Ready() && fresh(res)
      ensures Observed(res, crashed) == ParseFrom(tokens, old(tokIdx))
    {
      res, crashed := Expr();
      if crashed {
        return;
      }
      if res.error.None? && currentTok.kind != EOF {
        crashed := FailAt(res, currentTok, ExpectedOperator);
      }
    }

    /** `factor`: a number, a signed factor, or a parenthesised expression. */
    method Factor() returns (res: ParserResult, crashed: bool)
      requires Ready()
      modifies this
      ensures Ready() && fresh(res)
      ensures Observed(res, crashed) == ParseSpec.Factor(tokens, old(tokIdx))
      decreases |tokens| - tokIdx, 1
    {
      res := new ParserResult();
      var tok := currentTok;
      if tok.kind == INT || tok.kind == FLOAT {
        var t := Advance();
        t := res.RegisterToken(t);
        res.Success(Some(NumberNode(tok)));
        crashed := false;
      } else if tok.kind == PLUS || tok.kind == MINUS {
        crashed := Signed(res);
      } else if tok.kind == LPAREN {
        crashed := Grouped(res);
      } else {
        crashed := FailAt(res, currentTok, ExpectedNumber);
      }
    }

    /** The signed branch of `factor`: the sign, then a factor, which becomes the operand of a unary node. */
    method Signed(res: ParserResult) returns (crashed: bool)
      requires Ready() && currentTok.kind in {PLUS, MINUS} && res.Value() == PResult(None, None)
      modifies this, res
      ensures Ready()
      ensures Observed(res, crashed) == ParseSpec.Factor(tokens, old(tokIdx))
      decreases |tokens| - tokIdx, 0
    {
      var tok := currentTok;
      var t := Advance();
      t := res.RegisterToken(t);
      var sub, c := Factor();
      if c {
        return true;
      }
      var factor := res.RegisterResult(sub);
      if res.error.Some? {
        return false;
      }
      res.Success(Some(UnaryOpNode(tok, factor.value)));
      return false;
    }

    /** The parenthesised branch of `factor`: `(`, an expression, and `)` or an error at whatever stands there. */
    method Grouped(res: ParserResult) returns (crashed: bool)
      requires Ready() && currentTok.kind == LPAREN && res.Value() == PResult(None, None)
      modifies this, res
      ensures Ready()
      ensures Observed(res, crashed) == ParseSpec.Factor(tokens, old(tokIdx))
      decreases |tokens| - tokIdx, 0
    {
      var t := Advance();
      t := res.RegisterToken(t);
      var sub, c := Expr();
      if c {
        return true;
      }
      var expr := res.RegisterResult(sub);
      if res.error.Some? {
        return false;
      }
      if currentTok.kind == RPAREN {
        t := Advance();
        t := res.RegisterToken(t);
        res.Success(expr);
        return false;
      }
      crashed := FailAt(res, currentTok, ExpectedRParen);
    }

    /** `term`: factors folded over MUL and DIV. */
    method Term() returns (res: ParserResult, crashed: bool)
      requires Ready()
      modifies this
      ensures Ready() && fresh(res)
      ensures Observed(res, crashed) == ParseSpec.Term(tokens, old(tokIdx))
      decreases |tokens| - tokIdx, 4
    {
      res, crashed := BinOp(TermRule);
    }

    /** `expr`: terms folded over PLUS and MINUS. */
    method Expr() returns (res: ParserResult, crashed: bool)
      requires Ready()
      modifies this
      ensures Ready() && fresh(res)
      ensures Observed(res, crashed) == ParseSpec.Expr(tokens, old(tokIdx))
      decreases |tokens| - tokIdx, 7
    {
      res, crashed := BinOp(ExprRule);
    }

    /** The rule `bin_op` is given as `func`: `factor` for term, `term` for expr. */
    method Operand(rule: Rule) returns (res: ParserResult, crashed: bool)
      requires Ready()
      modifies this
      ensures Ready() && fresh(res)
      ensures Observed(res, crashed) == ParseSpec.Operand(rule, tokens, old(tokIdx))
      decreases |tokens| - tokIdx, if rule == TermRule then 2 else 5
    {
      if rule == TermRule {
        res, crashed := Factor();
      } else {
        res, crashed := Term();
      }
    }

    /**
     * `bin_op(func, ops)`: one operand, then while the current token is one of
     * `ops`, the operator and another operand, folded to the left. The loop
     * goes on after an operand fails.
     */
    method BinOp(rule: Rule) returns (res: ParserResult, crashed: bool)
      requires Ready()
      modifies this
      ensures Ready() && fresh(res)
      ensures Observed(res, crashed) == ParseSpec.BinOp(rule, tokens, old(tokIdx))
      decreases |tokens| - tokIdx, if rule == TermRule then 3 else 6
    {
      res := new ParserResult();
      var first, c := Operand(rule);
      if c {
        return res, true;
      }
      var left := res.RegisterResult(first);
      while currentTok.kind in Ops(rule)
        invariant Ready() && fresh(res) && old(tokIdx) <= tokIdx
        invariant ParseSpec.BinOp(rule, tokens, old(tokIdx)) == Fold(rule, tokens, tokIdx, left, res.error)
        decreases |tokens| - tokIdx
      {
        var c2;
        left, c2 := FoldStep(rule, res, left);
        if c2 {
          return res, true;
        }
      }
      res.Success(left);
      crashed := false;
    }
  
    /**
     * One pass of the loop of `bin_op`: the operator token, then an operand,
     * whose error (if any) replaces the one held, folded onto `left`.
     */
    method FoldStep(rule: Rule, res: ParserResult, left: Option<Node>) returns (left': Option<Node>, crashed: bool)
      requires Ready() && currentTok.kind in Ops(rule)
      modifies this, res
      ensures Ready()
      ensures crashed ==> Fold(rule, tokens, old(tokIdx), left, old(res.error)).Crashed?
      ensures !crashed ==> old(tokIdx) < tokIdx
      ensures !crashed ==> Fold(rule, tokens, old(tokIdx), left, old(res.error)) == Fold(rule, tokens, tokIdx, left', res.error)
      decreases |tokens| - tokIdx, if rule == TermRule then 2 else 5
    {
      ghost var i := tokIdx;
      var opTok := currentTok;
      var t := Advance();
      t := res.RegisterToken(t);
      assert tokIdx == i + 1 && opTok == tokens[i];
      var sub, c := Operand(rule);
      if c {
        return left, true;
      }
      var right := res.RegisterResult(sub);
      left' := Some(BinOpNode(left, opTok, right));
      crashed := false;
    }
  }
}
