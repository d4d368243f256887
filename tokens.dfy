/**
 * Tokens of basic.py: a token type, an optional value and optional start and
 * end positions (number tokens are built without positions).
 */
module Tokens {
  import opened Wrappers
  import opened Positions

  datatype TokenKind = INT | FLOAT | PLUS | MINUS | MUL | DIV | LPAREN | RPAREN | EOF

  /**
   * A token's value: none for punctuation and EOF, the decimal value for INT,
   * and for FLOAT the scanned text (floating point is not modelled).
   */
  datatype Value = NoValue | IntValue(n: nat) | FloatValue(text: string)

  datatype Token = Token(kind: TokenKind, value: Value, posStart: Option<Pos>, posEnd: Option<Pos>)

  predicate IsDigit(c: char) { '0' <= c <= '9' }

  predicate AllDigits(s: string) { forall k :: 0 <= k < |s| ==> IsDigit(s[k]) }

  /**
   * A token built with `pos_start` and no `pos_end`: it starts at a copy of the
   * cursor and ends one step later (the step over the token's value, which is
   * `None` for every token built this way).
   */
  function PositionedToken(kind: TokenKind, start: Pos): (t: Token)
    ensures t.kind == kind && t.value == NoValue
    ensures t.posStart == Some(start)
    ensures t.posEnd.Some? && t.posEnd.value.idx == start.idx + 1 && t.posEnd.value.col == start.col + 1
    ensures t.posEnd.value.ln == start.ln && t.posEnd.value.fn == start.fn && t.posEnd.value.ftxt == start.ftxt
  {
    Token(kind, NoValue, Some(start), Some(start.Advanced(None)))
  }

  /** The decimal value of a string of digits, as Python's `int` reads it. */
  function DigitsValue(s: string): nat
    requires AllDigits(s)
  {
    if s == [] then 0
    else DigitsValue(s[..|s| - 1]) * 10 + (s[|s| - 1] as int - '0' as int)
  }

  /** The decimal numeral of `n`, as Python's f-string writes it. */
  function NatToString(n: nat): (s: string)
    ensures |s| > 0 && AllDigits(s)
    ensures |s| > 1 ==> s[0] != '0'
  {
    if n < 10 then [('0' as int + n) as char]
    else NatToString(n / 10) + [('0' as int + n % 10) as char]
  }

  /** Reading back a written numeral gives the number. */
  lemma {:induction false} DigitsValueOfNatToString(n: nat)
    ensures DigitsValue(NatToString(n)) == n
  {
    var s := NatToString(n);
    if n >= 10 {
      DigitsValueOfNatToString(n / 10);
      assert s[..|s| - 1] == NatToString(n / 10);
    }
  }
}
