/**
 * The position cursor of basic.py: an index / line / column counter over the
 * source text that moves one character at a time.
 *
 * `Pos` is a position as a value: a token or an error holds a `Pos`, which is
 * what `Position.copy()` guarantees in the source (a stored position never
 * aliases the live cursor). `Position` is the live, mutable cursor.
 */
module Positions {
  import opened Wrappers

  datatype Pos = Pos(idx: int, ln: nat, col: int, fn: string, ftxt: string)
  {
    /** The position after consuming `c` (`None` is the end of input). */
    function Advanced(c: Option<char>): (p: Pos)
      ensures p.idx == idx + 1 && p.fn == fn && p.ftxt == ftxt
      ensures p.ln == ln + (if c == Some('\n') then 1 else 0)
      ensures p.col == if c == Some('\n') then 0 else col + 1
    {
      if c == Some('\n') then Pos(idx + 1, ln + 1, 0, fn, ftxt)
      else Pos(idx + 1, ln, col + 1, fn, ftxt)
    }
  }

  /** The live cursor; `advance` and `copy` of the source. */
  class Position {
    var idx: int
    var ln: nat
    var col: int
    const fn: string
    const ftxt: string

    function Snapshot(): Pos
      reads this
    {
      Pos(idx, ln, col, fn, ftxt)
    }

    constructor (idx: int, ln: nat, col: int, fn: string, ftxt: string)
      ensures Snapshot() == Pos(idx, ln, col, fn, ftxt)
    {
      this.idx, this.ln, this.col := idx, ln, col;
      this.fn, this.ftxt := fn, ftxt;
    }

    /** One step: the index and the column rise by one, a newline starts a new line at column 0. */
    method Advance(c: Option<char>)
      modifies this
      ensures idx == old(idx) + 1
      ensures c == Some('\n') ==> col == 0 && ln == old(ln) + 1
      ensures c != Some('\n') ==> col == old(col) + 1 && ln == old(ln)
      ensures Snapshot() == old(Snapshot()).Advanced(c)
    {
      idx := idx + 1;
      col := col + 1;
      if c == Some('\n') {
        col := 0;
        ln := ln + 1;
      }
    }

    /** An equal position that shares nothing with this one. */
    method Copy() returns (p: Position)
      ensures fresh(p)
      ensures p.Snapshot() == Snapshot()
    {
      p := new Position(idx, ln, col, fn, ftxt);
    }
  }

  /** The character under the cursor at index `i`, `None` past the end. */
  function CharAt(text: string, i: int): Option<char>
  {
    if 0 <= i < |text| then Some(text[i]) else None
  }

  /**
   * Where the lexer's cursor stands after its construction (which starts at
   * index -1 and advances once over `None`) and `i` further steps over `text`.
   */
  function PosAt(fn: string, text: string, i: nat): Pos
  {
    if i == 0 then Pos(0, 0, 0, fn, text)
    else PosAt(fn, text, i - 1).Advanced(CharAt(text, i - 1))
  }

  /** The number of newline characters among the first `k` characters of `text`. */
  function Newlines(text: string, k: nat): nat
    requires k <= |text|
  {
    if k == 0 then 0 else Newlines(text, k - 1) + (if text[k - 1] == '\n' then 1 else 0)
  }

  function Min(a: int, b: int): int { if a < b then a else b }

  /**
   * The cursor's index counts the characters consumed, its line counts the
   * newlines among them, and on a text without newlines the column equals
   * the index.
   */
  lemma {:induction false} PosAtCounts(fn: string, text: string, i: nat)
    ensures PosAt(fn, text, i).idx == i
    ensures PosAt(fn, text, i).fn == fn && PosAt(fn, text, i).ftxt == text
    ensures PosAt(fn, text, i).ln == Newlines(text, Min(i, |text|))
    ensures (forall k :: 0 <= k < Min(i, |text|) ==> text[k] != '\n') ==> PosAt(fn, text, i).col == i
  {
    if i > 0 {
      PosAtCounts(fn, text, i - 1);
    }
  }
}
