/**
 * The `Lexer` class of basic.py: a live cursor over the text and the
 * character under it, moved one step at a time by `Advance`.
 */
module Lexing {
  import opened Wrappers
  import opened Positions
  import opened Tokens
  import opened Errors
  import opened LexSpec

  class Lexer {
    const fn: string
    const text: string
    const pos: Position
    var currentChar: Option<char>

    /** The cursor belongs to this text and stands at a place the scan can reach. */
    ghost predicate Valid()
      reads this, pos
    {
      pos.fn == fn && pos.ftxt == text &&
      0 <= pos.idx <= |text| &&
      pos.Snapshot() == PosAt(fn, text, pos.idx) &&
      currentChar == CharAt(text, pos.idx)
    }

    /** The cursor starts at index -1 and is advanced once, onto the first character. */
    constructor (fn: string, text: string)
      ensures Valid() && pos.idx == 0 && fresh(pos)
      ensures this.fn == fn && this.text == text
    {
      this.fn, this.text := fn, text;
      pos := new Position(-1, 0, -1, fn, text);
      currentChar := None;
      new;
      Advance();
    }

    /** Steps the cursor over the current character and reads the next one (`None` past the end). */
    method Advance()
      requires pos.fn == fn && pos.ftxt == text && pos.idx >= -1
      modifies this, pos
      ensures pos.fn == fn && pos.ftxt == text && pos.idx == old(pos.idx) + 1
      ensures pos.Snapshot() == old(pos.Snapshot()).Advanced(old(currentChar))
      ensures currentChar == CharAt(text, pos.idx)
      ensures old(Valid()) && old(currentChar).Some? ==> Valid()
    {
      pos.Advance(currentChar);
      if pos.idx < |text| {
        currentChar := Some(text[pos.idx]);
      } else {
        currentChar := None;
      }
    }

    /**
     * Scans the whole remaining text: the tokens and no error, or no tokens
     * and the first illegal character's error.
     */
    method MakeTokens() returns (tokens: seq<Token>, error: Option<Error>)
      requires Valid()
      modifies this, pos
      ensures LexResult(tokens, error) == Scan(fn, text, old(pos.idx))
      ensures Valid()
      ensures error.None? ==> pos.idx == |text|
      ensures error.Some? ==> pos.Snapshot() == error.value.posEnd
    {
      ghost var whole := Scan(fn, text, pos.idx);
      tokens := [];
      while currentChar.Some?
        invariant Valid()
        invariant whole == Prepend(tokens, Scan(fn, text, pos.idx))
        decreases |text| - pos.idx
      {
        tokens, error := TakeToken(tokens);
        if error.Some? {
          return [], error;
        }
      }
      tokens := tokens + [PositionedToken(EOF, pos.Snapshot())];
      error := None;
    }

    /**
     * One pass of the loop of `make_tokens` over the current character: a
     * blank is skipped, a digit starts a number, an operator or parenthesis
     * becomes a token, and anything else ends the scan with an error.
     */
    method TakeToken(acc: seq<Token>) returns (tokens: seq<Token>, error: Option<Error>)
      requires Valid() && currentChar.Some?
      modifies this, pos
      ensures Valid() && old(pos.idx) < pos.idx
      ensures error.None? ==> Prepend(acc, Scan(fn, text, old(pos.idx))) == Prepend(tokens, Scan(fn, text, pos.idx))
      ensures error.Some? ==> Prepend(acc, Scan(fn, text, old(pos.idx))) == LexResult([], error)
      ensures IsBlank(text[old(pos.idx)]) ==> error.None? && tokens == acc && pos.idx == old(pos.idx) + 1
      ensures IsDigit(text[old(pos.idx)]) ==>
                error.None? && pos.idx == NumberEnd(text, old(pos.idx), false) &&
                tokens == acc + [NumberToken(text[old(pos.idx)..pos.idx])]
      ensures SingleKind(text[old(pos.idx)]).Some? ==>
                error.None? && pos.idx == old(pos.idx) + 1 &&
                tokens == acc + [PositionedToken(SingleKind(text[old(pos.idx)]).value, PosAt(fn, text, old(pos.idx)))]
      ensures !IsLegal(text[old(pos.idx)]) ==>
                tokens == [] && pos.idx == old(pos.idx) + 1 && error.Some? && pos.Snapshot() == error.value.posEnd &&
                error.value == IllegalCharError(PosAt(fn, text, old(pos.idx)), pos.Snapshot(), "'" + [text[old(pos.idx)]] + "'")
    {
      var c := currentChar.value;
      assert c == text[pos.idx];
      CharClasses(c);
      if c == ' ' || c == '\t' {
        tokens, error := SkipBlank(acc);
      } else if IsDigit(c) {
        tokens, error := TakeNumber(acc);
      } else if SingleKind(c).Some? {
        tokens, error := TakeSingle(acc, SingleKind(c).value);
      } else {
        tokens, error := TakeIllegal(acc);
      }
    }

    /** A blank: nothing is collected and the cursor moves on. */
    method SkipBlank(acc: seq<Token>) returns (tokens: seq<Token>, error: Option<Error>)
      requires Valid() && currentChar.Some? && IsBlank(currentChar.value)
      modifies this, pos
      ensures Valid() && pos.idx == old(pos.idx) + 1
      ensures error.None? && tokens == acc
      ensures Prepend(acc, Scan(fn, text, old(pos.idx))) == Prepend(tokens, Scan(fn, text, pos.idx))
    {
      ghost var i := pos.idx;
      Advance();
      ScanBlank(fn, text, i, acc);
      tokens, error := acc, None;
    }

    /** A digit: the number that starts there is collected. */
    method TakeNumber(acc: seq<Token>) returns (tokens: seq<Token>, error: Option<Error>)
      requires Valid() && currentChar.Some? && IsDigit(currentChar.value)
      modifies this, pos
      ensures Valid() && pos.idx == NumberEnd(text, old(pos.idx), false) && old(pos.idx) < pos.idx
      ensures error.None? && tokens == acc + [NumberToken(text[old(pos.idx)..pos.idx])]
      ensures Prepend(acc, Scan(fn, text, old(pos.idx))) == Prepend(tokens, Scan(fn, text, pos.idx))
    {
      ghost var i := pos.idx;
      var t := MakeNumber();
      ScanNumber(fn, text, i, acc);
      tokens, error := acc + [t], None;
    }

    /** An operator or a parenthesis: its positioned token is collected. */
    method TakeSingle(acc: seq<Token>, kind: TokenKind) returns (tokens: seq<Token>, error: Option<Error>)
      requires Valid() && currentChar.Some? && SingleKind(currentChar.value) == Some(kind)
      modifies this, pos
      ensures Valid() && pos.idx == old(pos.idx) + 1
      ensures error.None? && tokens == acc + [PositionedToken(kind, PosAt(fn, text, old(pos.idx)))]
      ensures Prepend(acc, Scan(fn, text, old(pos.idx))) == Prepend(tokens, Scan(fn, text, pos.idx))
    {
      ghost var i := pos.idx;
      assert text[i] == currentChar.value;
      var t := MakeSingle(kind);
      ScanSingle(fn, text, i, kind, acc);
      tokens, error := acc + [t], None;
    }

    /** Any other character: the scan ends with its error and nothing collected. */
    method TakeIllegal(acc: seq<Token>) returns (tokens: seq<Token>, error: Option<Error>)
      requires Valid() && currentChar.Some? && !IsLegal(currentChar.value)
      modifies this, pos
      ensures Valid() && pos.idx == old(pos.idx) + 1
      ensures tokens == [] && error.Some? && pos.Snapshot() == error.value.posEnd
      ensures error.value == IllegalCharError(PosAt(fn, text, old(pos.idx)), pos.Snapshot(), "'" + [text[old(pos.idx)]] + "'")
      ensures Prepend(acc, Scan(fn, text, old(pos.idx))) == LexResult([], error)
    {
      ghost var i := pos.idx;
      var e := MakeIllegal();
      ScanIllegalStep(fn, text, i, acc);
      tokens, error := [], Some(e);
    }

    /** An operator or parenthesis: its token, positioned at the cursor, and one step on. */
    method MakeSingle(kind: TokenKind) returns (t: Token)
      requires Valid() && currentChar.Some?
      modifies this, pos
      ensures Valid() && pos.idx == old(pos.idx) + 1
      ensures t == PositionedToken(kind, PosAt(fn, text, old(pos.idx)))
    {
      t := PositionedToken(kind, pos.Snapshot());
      Advance();
    }

    /**
     * An illegal character: the error spans it, from a copy of the cursor to
     * the cursor one step on, and quotes it.
     */
    method MakeIllegal() returns (e: Error)
      requires Valid() && currentChar.Some?
      modifies this, pos
      ensures Valid() && pos.idx == old(pos.idx) + 1 && e.posEnd == pos.Snapshot()
      ensures var p := PosAt(fn, text, old(pos.idx));
              e == IllegalCharError(p, p.Advanced(Some(text[old(pos.idx)])), "'" + [text[old(pos.idx)]] + "'")
    {
      var posStart := pos.Copy();
      var c := currentChar.value;
      Advance();
      e := IllegalCharError(posStart.Snapshot(), pos.Snapshot(), "'" + [c] + "'");
    }

    /**
     * Reads the maximal run of digits with at most one `.` that starts at the
     * cursor, leaving the cursor on the first character not taken.
     */
    method MakeNumber() returns (tok: Token)
      requires Valid() && currentChar.Some? && IsDigit(currentChar.value)
      modifies this, pos
      ensures Valid()
      ensures old(pos.idx) < pos.idx == NumberEnd(text, old(pos.idx), false)
      ensures tok == NumberToken(text[old(pos.idx)..pos.idx])
    {
      ghost var start := pos.idx;
      var numStr := "";
      var dotCount := 0;
      while currentChar.Some? && (IsDigit(currentChar.value) || currentChar.value == '.')
        invariant Valid() && NumberSoFar(text, start, pos.idx, numStr, dotCount)
        decreases |text| - pos.idx
      {
        var stop;
        numStr, dotCount, stop := NumberChar(start, numStr, dotCount);
        if stop {
          break;
        }
      }
      NumberStops(text, pos.idx, dotCount == 1);
      if dotCount == 0 {
        tok := Token(INT, IntValue(DigitsValue(numStr)), None, None);
      } else {
        tok := Token(FLOAT, FloatValue(numStr), None, None);
      }
    }

    /**
     * One pass of the loop of `make_number`: a second dot stops it where it
     * stands; a first dot or a digit is appended and the cursor moves on.
     */
    method NumberChar(ghost start: nat, numStr: string, dotCount: int) returns (numStr': string, dotCount': int, stop: bool)
      requires Valid() && currentChar.Some? && IsNumberChar(currentChar.value)
      requires NumberSoFar(text, start, pos.idx, numStr, dotCount)
      modifies this, pos
      ensures Valid()
      ensures stop ==> pos.idx == old(pos.idx) && currentChar == Some('.') && numStr' == numStr && dotCount' == dotCount == 1
      ensures !stop ==> pos.idx == old(pos.idx) + 1 && NumberSoFar(text, start, pos.idx, numStr', dotCount')
    {
      ghost var i := pos.idx;
      var c := currentChar.value;
      assert c == text[i];
      if c == '.' && dotCount == 1 {
        return numStr, dotCount, true;
      }
      if c == '.' {
        dotCount' := dotCount + 1;
        numStr' := numStr + ".";
      } else {
        dotCount' := dotCount;
        numStr' := numStr + [c];
      }
      NumberStep(text, start, i, numStr, dotCount);
      Advance();
      stop := false;
    }
  }

  /**
   * What `make_number` has read after reaching index `i` from `start`: the
   * text in between, whether it holds the one dot, and the same end of the scan.
   */
  ghost predicate NumberSoFar(text: string, start: nat, i: nat, numStr: string, dotCount: int)
  {
    start <= i <= |text| && numStr == text[start..i] &&
    0 <= dotCount <= 1 && ('.' in numStr) == (dotCount == 1) &&
    NumberEnd(text, start, false) == NumberEnd(text, i, dotCount == 1)
  }

  /** Taking one more character of a number keeps NumberSoFar. */
  lemma NumberStep(text: string, start: nat, i: nat, numStr: string, dotCount: int)
    requires NumberSoFar(text, start, i, numStr, dotCount)
    requires i < |text| && IsNumberChar(text[i]) && !(text[i] == '.' && dotCount == 1)
    ensures NumberSoFar(text, start, i + 1, numStr + [text[i]], if text[i] == '.' then 1 else dotCount)
  {
    assert text[start..i + 1] == text[start..i] + [text[i]];
  }

  /** The number scan ends where the character is missing, not part of a number, or a second dot. */
  lemma NumberStops(text: string, i: nat, dotSeen: bool)
    requires i <= |text|
    requires i == |text| || !IsNumberChar(text[i]) || (text[i] == '.' && dotSeen)
    ensures NumberEnd(text, i, dotSeen) == i
  {
  }

  /** A character falls into at most one of the classes `make_tokens` tells apart. */
  lemma CharClasses(c: char)
    ensures IsBlank(c) ==> !IsDigit(c) && SingleKind(c).None?
    ensures IsDigit(c) ==> SingleKind(c).None?
  {
  }

  /** Scanning on to the next token keeps the tokens collected so far in front. */
  lemma PrependOneMore(acc: seq<Token>, t: Token, rest: LexResult)
    ensures Prepend(acc, Prepend([t], rest)) == Prepend(acc + [t], rest)
  {
    if rest.error.None? {
      assert acc + ([t] + rest.tokens) == (acc + [t]) + rest.tokens;
    }
  }

  /** The scan step over a blank: nothing is collected. */
  lemma ScanBlank(fn: string, text: string, i: nat, acc: seq<Token>)
    requires i < |text| && IsBlank(text[i])
    ensures Prepend(acc, Scan(fn, text, i)) == Prepend(acc, Scan(fn, text, i + 1))
  {
  }

  /** The scan step over a number: its token is collected and the scan goes on where the number ends. */
  lemma ScanNumber(fn: string, text: string, i: nat, acc: seq<Token>)
    requires i < |text| && IsDigit(text[i])
    ensures var j := NumberEnd(text, i, false);
            Prepend(acc, Scan(fn, text, i)) == Prepend(acc + [NumberToken(text[i..j])], Scan(fn, text, j))
  {
    var j := NumberEnd(text, i, false);
    var t := NumberToken(text[i..j]);
    assert Scan(fn, text, i) == Prepend([t], Scan(fn, text, j));
    PrependOneMore(acc, t, Scan(fn, text, j));
  }

  /** The scan step over a one-character token. */
  lemma ScanSingle(fn: string, text: string, i: nat, kind: TokenKind, acc: seq<Token>)
    requires i < |text| && SingleKind(text[i]) == Some(kind)
    ensures Prepend(acc, Scan(fn, text, i)) ==
            Prepend(acc + [PositionedToken(kind, PosAt(fn, text, i))], Scan(fn, text, i + 1))
  {
    var t := PositionedToken(kind, PosAt(fn, text, i));
    assert Scan(fn, text, i) == Prepend([t], Scan(fn, text, i + 1));
    PrependOneMore(acc, t, Scan(fn, text, i + 1));
  }

  /** The scan step over an illegal character: everything collected is dropped. */
  lemma ScanIllegalStep(fn: string, text: string, i: nat, acc: seq<Token>)
    requires i < |text| && !IsLegal(text[i])
    ensures var p := PosAt(fn, text, i);
            Prepend(acc, Scan(fn, text, i)) ==
            LexResult([], Some(IllegalCharError(p, p.Advanced(Some(text[i])), "'" + [text[i]] + "'")))
  {
  }
}
