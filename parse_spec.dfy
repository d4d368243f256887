/**
 * What the recursive-descent parser of basic.py computes, as functions that
 * thread the token index: `Factor`, `Term`, `Expr`, the shared left fold
 * `BinOp`, and `Parse`.
 *
 * A rule either returns a result and the index of the first token it did not
 * consume, or `Crashed`: the source raises AttributeError when it builds a
 * syntax error at a number token, which has no positions.
 *
 * Termination is lexicographic: first the tokens left, then the rule's rank
 * (Factor 0, the term fold 1, term's `bin_op` 2, Term 3, the expr fold 4,
 * expr's `bin_op` 5, Expr 6).
 */
module ParseSpec {
  import opened Wrappers
  import opened Positions
  import opened Tokens
  import opened Errors
  import opened Ast

  /** The `node` / `error` pair a `ParserResult` holds. */
  datatype PResult = PResult(node: Option<Node>, error: Option<Error>)

  datatype Outcome = Crashed | Parsed(res: PResult, next: nat)

  /** The two uses of `bin_op`: `term` over MUL/DIV and `expr` over PLUS/MINUS. */
  datatype Rule = TermRule | ExprRule

  function Ops(rule: Rule): set<TokenKind>
  {
    if rule == TermRule then {MUL, DIV} else {PLUS, MINUS}
  }

  /** What the parser demands of its input: a list of tokens that ends with EOF. */
  predicate WellFormed(toks: seq<Token>)
  {
    |toks| > 0 && toks[|toks| - 1].kind == EOF
  }

  /** An Invalid Syntax error spanning `tok`; `None` when `tok` has no positions (the source crashes). */
  function SyntaxErrorAt(tok: Token, details: string): (r: Option<Error>)
    ensures r.Some? <==> tok.posStart.Some? && tok.posEnd.Some?
    ensures r.Some? ==> r.value.kind == InvalidSyntax && r.value.details == details &&
                        r.value.posStart == tok.posStart.value && r.value.posEnd == tok.posEnd.value
  {
    if tok.posStart.Some? && tok.posEnd.Some?
    then Some(InvalidSyntaxError(tok.posStart.value, tok.posEnd.value, details))
    else None
  }

  /** `res.failure(InvalidSyntaxError(...))` on a result without a node, leaving the cursor at `j`. */
  function Fail(tok: Token, details: string, j: nat): (r: Outcome)
    ensures r.Crashed? <==> tok.posStart.None? || tok.posEnd.None?
    ensures r.Parsed? ==> r.next == j && r.res.node.None? && r.res.error.Some? &&
                          r.res.error.value.kind == InvalidSyntax && r.res.error.value.details == details &&
                          r.res.error.value.posStart == tok.posStart.value && r.res.error.value.posEnd == tok.posEnd.value
  {
    match SyntaxErrorAt(tok, details)
    case None => Crashed
    case Some(e) => Parsed(PResult(None, Some(e)), j)
  }

  const ExpectedNumber := "Expected int or float "
  const ExpectedRParen := "Expected ')' "
  const ExpectedOperator := "Expected '+' '-' '*' or '/' "

  /** factor -> INT | FLOAT | (PLUS | MINUS) factor | LPAREN expr RPAREN */
  function Factor(toks: seq<Token>, i: nat): (r: Outcome)
    requires WellFormed(toks) && i < |toks|
    ensures r.Parsed? ==> i <= r.next < |toks|
    ensures r.Parsed? && r.res.error.None? ==> r.res.node.Some? && i < r.next
    decreases |toks| - i, 0
  {
    var tok := toks[i];
    if tok.kind in {INT, FLOAT} then
      Parsed(PResult(Some(NumberNode(tok)), None), i + 1)
    else if tok.kind in {PLUS, MINUS} then
      match Factor(toks, i + 1)
      case Crashed => Crashed
      case Parsed(sub, j) =>
        if sub.error.Some? then Parsed(PResult(None, sub.error), j)
        else Parsed(PResult(Some(UnaryOpNode(tok, sub.node.value)), None), j)
    else if tok.kind == LPAREN then
      match Expr(toks, i + 1)
      case Crashed => Crashed
      case Parsed(sub, j) =>
        if sub.error.Some? then Parsed(PResult(None, sub.error), j)
        else if toks[j].kind == RPAREN then Parsed(PResult(sub.node, None), j + 1)
        else Fail(toks[j], ExpectedRParen, j)
    else
      Fail(tok, ExpectedNumber, i)
  }

  /** term -> factor ((MUL | DIV) factor)* */
  function Term(toks: seq<Token>, i: nat): (r: Outcome)
    requires WellFormed(toks) && i < |toks|
    ensures r.Parsed? ==> i <= r.next < |toks|
    ensures r.Parsed? && r.res.error.None? ==> r.res.node.Some? && i < r.next
    decreases |toks| - i, 3
  {
    BinOp(TermRule, toks, i)
  }

  /** expr -> term ((PLUS | MINUS) term)* */
  function Expr(toks: seq<Token>, i: nat): (r: Outcome)
    requires WellFormed(toks) && i < |toks|
    ensures r.Parsed? ==> i <= r.next < |toks|
    ensures r.Parsed? && r.res.error.None? ==> r.res.node.Some? && i < r.next
    decreases |toks| - i, 6
  {
    BinOp(ExprRule, toks, i)
  }

  /** The rule `bin_op` calls as `func`: Factor for term, Term for expr. */
  function Operand(rule: Rule, toks: seq<Token>, i: nat): (r: Outcome)
    requires WellFormed(toks) && i < |toks|
    ensures r.Parsed? ==> i <= r.next < |toks|
    ensures r.Parsed? && r.res.error.None? ==> r.res.node.Some? && i < r.next
    decreases |toks| - i, if rule == TermRule then 1 else 4
  {
    if rule == TermRule then Factor(toks, i) else Term(toks, i)
  }

  /** `bin_op(func, ops)`: one operand, then the left fold. */
  function BinOp(rule: Rule, toks: seq<Token>, i: nat): (r: Outcome)
    requires WellFormed(toks) && i < |toks|
    ensures r.Parsed? ==> i <= r.next < |toks|
    ensures r.Parsed? && r.res.error.None? ==> r.res.node.Some? && i < r.next
    decreases |toks| - i, if rule == TermRule then 2 else 5
  {
    match Operand(rule, toks, i)
    case Crashed => Crashed
    case Parsed(first, j) => Fold(rule, toks, j, first.node, first.error)
  }

  /**
   * The `while` loop of `bin_op`: while the current token is one of the rule's
   * operators, consume it and an operand and make `BinOp(left, op, right)` the
   * new left. It does not stop on an error: a failing operand only replaces
   * the error, so the last error wins.
   */
  function Fold(rule: Rule, toks: seq<Token>, i: nat, left: Option<Node>, err: Option<Error>): (r: Outcome)
    requires WellFormed(toks) && i < |toks|
    ensures r.Parsed? ==> i <= r.next < |toks|
    ensures r.Parsed? && err.Some? ==> r.res.error.Some?
    ensures r.Parsed? && left.Some? ==> r.res.node.Some?
    decreases |toks| - i, if rule == TermRule then 1 else 4
  {
    if toks[i].kind in Ops(rule) then
      match Operand(rule, toks, i + 1)
      case Crashed => Crashed
      case Parsed(sub, j) =>
        Fold(rule, toks, j, Some(BinOpNode(left, toks[i], sub.node)), if sub.error.Some? then sub.error else err)
    else
      Parsed(PResult(left, err), i)
  }

  /** `Parser.parse` from index `i`: an expression, and then EOF unless an error was already found. */
  function ParseFrom(toks: seq<Token>, i: nat): (r: Outcome)
    requires WellFormed(toks) && i < |toks|
    ensures r.Parsed? ==> i <= r.next < |toks|
    ensures r.Parsed? && r.res.error.None? ==> r.res.node.Some? && toks[r.next].kind == EOF
  {
    match Expr(toks, i)
    case Crashed => Crashed
    case Parsed(res, j) =>
      if res.error.None? && toks[j].kind != EOF then
        match SyntaxErrorAt(toks[j], ExpectedOperator)
        case None => Crashed
        case Some(e) => Parsed(PResult(res.node, Some(e)), j)
      else Parsed(res, j)
  }

  /** `Parser(tokens).parse()`. */
  function Parse(toks: seq<Token>): (r: Outcome)
    requires WellFormed(toks)
    ensures r.Parsed? ==> r.next < |toks|
    ensures r.Parsed? && r.res.error.None? ==> r.res.node.Some? && toks[r.next].kind == EOF
  {
    ParseFrom(toks, 0)
  }
}
