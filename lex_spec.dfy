/**
 * What `Lexer.make_tokens` computes, as functions of the source text: the
 * scan from a given index, the extent of a number literal, and the token a
 * number literal becomes.
 */
module LexSpec {
  import opened Wrappers
  import opened Positions
  import opened Tokens
  import opened Errors

  /** The pair `(tokens, error)` that `make_tokens` returns. */
  datatype LexResult = LexResult(tokens: seq<Token>, error: Option<Error>)

  predicate IsNumberChar(c: char) { IsDigit(c) || c == '.' }

  predicate DigitsAndDots(s: string) { forall k :: 0 <= k < |s| ==> IsNumberChar(s[k]) }

  predicate IsBlank(c: char) { c == ' ' || c == '\t' }

  /** The token type of a one-character token, if `c` is one. */
  function SingleKind(c: char): Option<TokenKind>
  {
    match c
    case '+' => Some(PLUS)
    case '-' => Some(MINUS)
    case '*' => Some(MUL)
    case '/' => Some(DIV)
    case '(' => Some(LPAREN)
    case ')' => Some(RPAREN)
    case _ => None
  }

  /** The characters that may start a token or be skipped. */
  predicate IsLegal(c: char) { IsBlank(c) || IsDigit(c) || SingleKind(c).Some? }

  /**
   * The index where `make_number`, started at `i`, stops: it reads digits and
   * one `.` at most (`dotSeen` says whether the one `.` was already read).
   */
  function NumberEnd(text: string, i: nat, dotSeen: bool): (j: nat)
    requires i <= |text|
    ensures i <= j <= |text|
    ensures forall k :: i <= k < j ==> IsNumberChar(text[k])
    ensures i < |text| && IsDigit(text[i]) ==> i < j
    decreases |text| - i
  {
    if i < |text| && (IsDigit(text[i]) || (text[i] == '.' && !dotSeen))
    then NumberEnd(text, i + 1, dotSeen || text[i] == '.')
    else i
  }

  /** INT when the scanned text holds no `.`, else FLOAT; either way without positions. */
  function NumberToken(numStr: string): (t: Token)
    requires DigitsAndDots(numStr)
    ensures t.posStart.None? && t.posEnd.None?
    ensures t.kind in {INT, FLOAT} && (t.kind == FLOAT <==> '.' in numStr)
    ensures t.kind == INT ==> AllDigits(numStr) && t.value == IntValue(DigitsValue(numStr))
    ensures t.kind == FLOAT ==> t.value == FloatValue(numStr)
  {
    if '.' in numStr then Token(FLOAT, FloatValue(numStr), None, None)
    else Token(INT, IntValue(DigitsValue(numStr)), None, None)
  }

  /** Tokens scanned so far, put in front of the result of the rest of the scan. */
  function Prepend(acc: seq<Token>, rest: LexResult): LexResult
  {
    if rest.error.None? then LexResult(acc + rest.tokens, None) else rest
  }

  /** The result of `make_tokens` when the cursor stands at index `i`. */
  function Scan(fn: string, text: string, i: nat): LexResult
    requires i <= |text|
    decreases |text| - i
  {
    if i == |text| then LexResult([PositionedToken(EOF, PosAt(fn, text, i))], None)
    else
      var c := text[i];
      if IsBlank(c) then Scan(fn, text, i + 1)
      else if IsDigit(c) then
        var j := NumberEnd(text, i, false);
        Prepend([NumberToken(text[i..j])], Scan(fn, text, j))
      else if SingleKind(c).Some? then
        Prepend([PositionedToken(SingleKind(c).value, PosAt(fn, text, i))], Scan(fn, text, i + 1))
      else
        LexResult([], Some(IllegalCharError(PosAt(fn, text, i), PosAt(fn, text, i + 1), "'" + [c] + "'")))
  }

  /** `Lexer(fn, text).make_tokens()`. */
  function Tokenize(fn: string, text: string): LexResult
  {
    Scan(fn, text, 0)
  }
}
