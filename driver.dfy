/**
 * `run(fn, text)` of basic.py: lex, then parse. Printing the token list is
 * left out.
 */
module Driver {
  import opened Wrappers
  import opened Tokens
  import opened Errors
  import opened LexSpec
  import LexProperties
  import opened Ast
  import opened ParseSpec
  import ParseProperties
  import ParseStructure
  import opened Lexing
  import opened Parsing

  /** What `run` gives back: its `(node, error)` pair, or a crash (AttributeError). */
  datatype RunOutcome = RunCrashed | Ran(node: Option<Node>, error: Option<Error>)

  function FromParse(o: ParseSpec.Outcome): RunOutcome
  {
    match o
    case Crashed => RunCrashed
    case Parsed(res, _) => Ran(res.node, res.error)
  }

  /**
   * `run` as written: the lexer's error is dropped and its token list, empty
   * after a lexing error, goes to `Parser`, whose first `advance` on an empty
   * list reads a current token that was never set.
   */
  function RunAsWritten(fn: string, text: string): (o: RunOutcome)
    ensures Tokenize(fn, text).error.Some? ==> o.RunCrashed?
    ensures o.Ran? && o.error.None? ==> o.node.Some?
  {
    var lexed := Tokenize(fn, text);
    if lexed.error.Some? then RunCrashed
    else
      LexProperties.TokenizeSuccess(fn, text);
      FromParse(Parse(lexed.tokens))
  }

  /** `run` as intended: a lexing error is returned without parsing. */
  function RunResult(fn: string, text: string): (o: RunOutcome)
    ensures Tokenize(fn, text).error.Some? ==> o.Ran? && o.node.None? && o.error.Some? && o.error.value.kind == IllegalCharacter
    ensures o.Ran? && o.error.None? ==> o.node.Some?
  {
    var lexed := Tokenize(fn, text);
    if lexed.error.Some? then
      LexProperties.ScanFailure(fn, text, 0);
      Ran(None, lexed.error)
    else
      LexProperties.TokenizeSuccess(fn, text);
      FromParse(Parse(lexed.tokens))
  }

  /** Lexes and parses with the two classes; the outcome is a function of the name and the text alone. */
  method Run(fn: string, text: string) returns (node: Option<Node>, error: Option<Error>, crashed: bool)
    ensures crashed <==> RunResult(fn, text).RunCrashed?
    ensures !crashed ==> RunResult(fn, text) == Ran(node, error)
  {
    var lexer := new Lexer(fn, text);
    var tokens, lexError := lexer.MakeTokens();
    if lexError.Some? {
      return None, lexError, false;
    }
    LexProperties.TokenizeSuccess(fn, text);
    var parser := new Parser(tokens);
    var res;
    res, crashed := parser.Parse();
    node, error := res.node, res.error;
  }

  /**
   * As written, `run` crashes on every line the lexer rejects, so the
   * Illegal Character error never reaches the caller: `a` is one such line.
   */
  lemma RunAsWrittenLosesLexError(fn: string)
    ensures Tokenize(fn, "a").error.Some?
    ensures RunAsWritten(fn, "a") == RunCrashed
    ensures RunResult(fn, "a") == Ran(None, Tokenize(fn, "a").error)
  {
    assert !LexSpec.IsLegal('a');
  }

  /**
   * `run` as intended: a lexing error comes back as the only result; otherwise
   * the outcome is the parser's, the same as the code's. An error from the
   * parser is a syntax error at one of the line's tokens, and a tree without
   * an error holds every token of the line but EOF, in order and minus the
   * parentheses. `run` crashes only on a line the lexer accepts that puts
   * two operands side by side (a number right after a number or a `)`).
   */
  lemma RunSound(fn: string, text: string)
    ensures var lexed := Tokenize(fn, text);
            var o := RunResult(fn, text);
            (lexed.error.Some? ==> o == Ran(None, lexed.error) && lexed.error.value.kind == IllegalCharacter) &&
            (lexed.error.None? ==> o == RunAsWritten(fn, text)) &&
            (lexed.error.None? && o.Ran? && o.error.Some? ==> ParseProperties.SpansToken(lexed.tokens, o.error.value)) &&
            (o.Ran? && o.error.None? ==>
               lexed.error.None? && o.node.Some? && Yield(o.node.value) == WithoutParens(lexed.tokens[..|lexed.tokens| - 1])) &&
            (o.RunCrashed? ==> lexed.error.None? && ParseStructure.Juxtaposed(lexed.tokens))
  {
    var lexed := Tokenize(fn, text);
    if lexed.error.Some? {
      LexProperties.ScanFailure(fn, text, 0);
    } else {
      LexProperties.TokenizeSuccess(fn, text);
      ParseProperties.ParseSound(lexed.tokens);
      LexProperties.ScanPositions(fn, text, 0);
      ParseStructure.ParseCrash(lexed.tokens);
    }
  }
}
