/**
 * The AST node classes of basic.py. `bin_op` goes on building nodes after an
 * error, so a binary node's operands may be missing (`None`); a unary node is
 * only built from a factor that parsed without error, so its operand is
 * always present.
 */
module Ast {
  import opened Wrappers
  import opened Tokens

  datatype Node =
    | NumberNode(tok: Token)
    | BinOpNode(left: Option<Node>, op: Token, right: Option<Node>)
    | UnaryOpNode(op: Token, operand: Node)

  /** The tokens a tree was built from, in source order (parentheses leave no trace in the tree). */
  function Yield(n: Node): seq<Token>
  {
    match n
    case NumberNode(tok) => [tok]
    case BinOpNode(l, op, r) => YieldOf(l) + [op] + YieldOf(r)
    case UnaryOpNode(op, m) => [op] + Yield(m)
  }

  function YieldOf(n: Option<Node>): seq<Token>
  {
    match n
    case None => []
    case Some(m) => Yield(m)
  }

  /** The tokens of `ts` other than parentheses. */
  function WithoutParens(ts: seq<Token>): seq<Token>
  {
    if ts == [] then []
    else (if ts[0].kind in {LPAREN, RPAREN} then [] else [ts[0]]) + WithoutParens(ts[1..])
  }

  lemma {:induction false} WithoutParensAppend(a: seq<Token>, b: seq<Token>)
    ensures WithoutParens(a + b) == WithoutParens(a) + WithoutParens(b)
  {
    if a == [] {
      assert a + b == b;
    } else {
      assert (a + b)[0] == a[0] && (a + b)[1..] == a[1..] + b;
      WithoutParensAppend(a[1..], b);
    }
  }
}
