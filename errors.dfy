/** The two error kinds of basic.py and their rendering (`Error.as_string`). */
module Errors {
  import opened Positions
  import opened Tokens

  datatype ErrorKind = IllegalCharacter | InvalidSyntax

  datatype Error = Error(posStart: Pos, posEnd: Pos, kind: ErrorKind, details: string)

  function ErrorName(kind: ErrorKind): string
  {
    match kind
    case IllegalCharacter => "Illegal Character"
    case InvalidSyntax => "Invalid Syntax"
  }

  function IllegalCharError(posStart: Pos, posEnd: Pos, details: string): (e: Error)
    ensures e.kind == IllegalCharacter && ErrorName(e.kind) == "Illegal Character"
    ensures e.posStart == posStart && e.posEnd == posEnd && e.details == details
  {
    Error(posStart, posEnd, IllegalCharacter, details)
  }

  function InvalidSyntaxError(posStart: Pos, posEnd: Pos, details: string): (e: Error)
    ensures e.kind == InvalidSyntax && ErrorName(e.kind) == "Invalid Syntax"
    ensures e.posStart == posStart && e.posEnd == posEnd && e.details == details
  {
    Error(posStart, posEnd, InvalidSyntax, details)
  }

  /**
   * "<name>: <details>File <file name>, line <n>": the file name is taken
   * from the start position, the 1-based line number from the end position.
   */
  function AsString(e: Error): (s: string)
    ensures var head := ErrorName(e.kind) + ": " + e.details + "File " + e.posStart.fn + ", line ";
            |head| < |s| && s[..|head|] == head &&
            |s| == |head| + |NatToString(e.posEnd.ln + 1)|
  {
    ErrorName(e.kind) + ": " + e.details + "File " + e.posStart.fn + ", line " + NatToString(e.posEnd.ln + 1)
  }

  /** The rendered line number reads back as the end position's line plus one. */
  lemma AsStringLine(e: Error)
    ensures var s := AsString(e);
            var tail := NatToString(e.posEnd.ln + 1);
            |tail| <= |s| && s[|s| - |tail|..] == tail && DigitsValue(tail) == e.posEnd.ln + 1
  {
    DigitsValueOfNatToString(e.posEnd.ln + 1);
  }
}
