/**
 bufio.Scanner as both ends use it: lines without their terminator, from a buffer of one MiB. Everything is said by
 indices into the data.
 */
module Lines {
  import opened Basics

  const LF: byte := 10
  const CR: byte := 13
  const MAX_LINE := 1024 * 1024

  /** The first line feed from index `i` on, or the end. */
  function LineEnd(data: bytes, i: nat): (n: nat)
    requires i <= |data|
    ensures i <= n <= |data| && forall k | i <= k < n :: data[k] != LF
    ensures n < |data| ==> data[n] == LF
    decreases |data| - i
  {
    if i == |data| || data[i] == LF then i else LineEnd(data, i + 1)
  }

  /** Where the token of the line from `i` on ends: a CR before the line's end is dropped. */
  function LineStop(data: bytes, i: nat): (c: nat)
    requires i <= |data|
    ensures i <= c <= LineEnd(data, i)
  {
    var n := LineEnd(data, i);
    if n > i && data[n - 1] == CR then n - 1 else n
  }

  /** Where the next line starts. */
  function NextLine(data: bytes, i: nat): (j: nat)
    requires i <= |data|
    ensures i < |data| ==> i < j <= |data|
    ensures i == |data| ==> j == |data|
  {
    Min(LineEnd(data, i) + 1, |data|)
  }

  /** A line that fills the buffer before its end is seen stops the scan. */
  predicate TooLong(data: bytes, i: nat)
    requires i <= |data|
  {
    LineEnd(data, i) - i >= MAX_LINE
  }

  /** The tokens from index `i` up to the end of the data or the first line that is too long. */
  function TokensFrom(data: bytes, i: nat): seq<bytes>
    requires i <= |data|
    decreases |data| - i
  {
    if i == |data| || TooLong(data, i) then
      []
    else
      [data[i..LineStop(data, i)]] + TokensFrom(data, NextLine(data, i))
  }

  function Tokens(data: bytes): seq<bytes> {
    TokensFrom(data, 0)
  }

  /** Whether the scan from index `i` ends with ErrTooLong, once every token has been taken. */
  predicate BreaksFrom(data: bytes, i: nat)
    requires i <= |data|
    decreases |data| - i
  {
    i < |data| && (TooLong(data, i) || BreaksFrom(data, NextLine(data, i)))
  }

  predicate Breaks(data: bytes) {
    BreaksFrom(data, 0)
  }

  /** Lines one after the other, each with a line feed. */
  function Shown(lines: seq<bytes>): bytes {
    if lines == [] then [] else lines[0] + [LF] + Shown(lines[1..])
  }

  lemma {:induction false} ShownConcat(a: seq<bytes>, b: seq<bytes>)
    ensures Shown(a + b) == Shown(a) + Shown(b)
  {
    if a == [] {
      assert a + b == b;
    } else {
      ShownConcat(a[1..], b);
      assert (a + b)[1..] == a[1..] + b;
    }
  }

  // ---- data in front ----

  lemma {:induction false} EndShift(all: bytes, n: nat, i: nat)
    requires n <= i <= |all|
    ensures LineEnd(all[n..], i - n) == LineEnd(all, i) - n
    decreases |all| - i
  {
    if i < |all| && all[i] != LF {
      EndShift(all, n, i + 1);
    }
  }

  lemma LineShift(all: bytes, n: nat, i: nat)
    requires n <= i < |all|
    ensures TooLong(all[n..], i - n) <==> TooLong(all, i)
    ensures all[n..][i - n..LineStop(all[n..], i - n)] == all[i..LineStop(all, i)]
    ensures NextLine(all[n..], i - n) == NextLine(all, i) - n
  {
    EndShift(all, n, i);
    var c := LineStop(all, i);
    assert LineStop(all[n..], i - n) == c - n && all[n..][i - n..c - n] == all[i..c];
  }

  /** The tokens of what comes behind complete lines do not depend on them. */
  lemma {:induction false} TokensShift(all: bytes, n: nat, i: nat)
    requires n <= i <= |all|
    ensures TokensFrom(all[n..], i - n) == TokensFrom(all, i)
    decreases |all| - i
  {
    if i < |all| {
      LineShift(all, n, i);
      if !TooLong(all, i) {
        var next := NextLine(all, i);
        TokensShift(all, n, next);
        SameTokens(all, i, next, all[n..], i - n, next - n);
      }
    }
  }

  lemma SameTokens(all: bytes, i: nat, next: nat, data: bytes, j: nat, following: nat)
    requires i < |all| && j < |data| && next == NextLine(all, i) && following == NextLine(data, j)
    requires !TooLong(all, i) && !TooLong(data, j)
    requires all[i..LineStop(all, i)] == data[j..LineStop(data, j)]
    requires TokensFrom(all, next) == TokensFrom(data, following)
    ensures TokensFrom(data, j) == TokensFrom(all, i)
  {
  }

  // ---- what the tokens are ----

  predicate NoFeed(line: bytes) {
    forall k | 0 <= k < |line| :: line[k] != LF
  }

  /** A line's text: no line feed, and no CR at its end, which would be taken for a part of the terminator. */
  predicate IsText(line: bytes) {
    NoFeed(line) && (line != [] ==> line[|line| - 1] != CR)
  }

  /** A line feed, or CR and line feed. */
  function Terminator(crlf: bool): bytes {
    if crlf then [CR, LF] else [LF]
  }

  lemma FirstToken(line: bytes, crlf: bool, more: bytes)
    requires IsText(line) && |line + Terminator(crlf)| <= MAX_LINE
    ensures Tokens(line + Terminator(crlf) + more) == [line] + Tokens(more)
  {
    var head := line + Terminator(crlf);
    var data, n := head + more, |head| - 1;
    assert forall k | 0 <= k < |line| :: data[k] == line[k];
    assert data[n] == LF && (crlf ==> data[|line|] == CR);
    assert LineEnd(data, 0) == n && LineStop(data, 0) == |line| && data[0..|line|] == line;
    assert (head + more)[|head|..] == more;
    TokensShift(head + more, |head|, |head|);
  }

  lemma OneToken(line: bytes)
    requires IsText(line) && line != [] && |line| < MAX_LINE
    ensures Tokens(line) == [line]
  {
    assert LineEnd(line, 0) == |line| && LineStop(line, 0) == |line| && NextLine(line, 0) == |line|;
    assert TokensFrom(line, |line|) == [] && line[0..|line|] == line;
  }

  /** Lines one after the other, each with its own terminator. */
  function Written(lines: seq<(bytes, bool)>): bytes {
    if lines == [] then [] else lines[0].0 + Terminator(lines[0].1) + Written(lines[1..])
  }

  function Texts(lines: seq<(bytes, bool)>): seq<bytes> {
    if lines == [] then [] else [lines[0].0] + Texts(lines[1..])
  }

  /**
   The scanner's tokens are the texts of the lines, whichever terminators they have; and what follows them without a
   terminator is one more.
   */
  lemma {:induction false} TokensAreTexts(lines: seq<(bytes, bool)>, last: bytes)
    requires forall k | 0 <= k < |lines| :: IsText(lines[k].0) && |lines[k].0| < MAX_LINE - 1
    requires IsText(last) && |last| < MAX_LINE
    ensures Tokens(Written(lines) + last) == Texts(lines) + if last == [] then [] else [last]
  {
    if lines == [] {
      assert [] + last == last && Tokens([]) == [];
      if last != [] {
        OneToken(last);
      }
    } else {
      var line, crlf := lines[0].0, lines[0].1;
      TokensAreTexts(lines[1..], last);
      FirstToken(line, crlf, Written(lines[1..]) + last);
      Associate(line + Terminator(crlf), Written(lines[1..]), last);
      Associate([line], Texts(lines[1..]), if last == [] then [] else [last]);
    }
  }

  /** A buffer full of bytes from index `j` on, and no line feed among them. */
  ghost predicate FullAt(data: bytes, j: nat) {
    j + MAX_LINE <= |data| && forall k | j <= k < j + MAX_LINE :: data[k] != LF
  }

  /** The scan ends with ErrTooLong exactly when as many bytes as fill the buffer hold no line feed. */
  lemma {:induction false} BreaksExactly(data: bytes, i: nat)
    requires i <= |data|
    ensures BreaksFrom(data, i) <==> exists j :: i <= j && FullAt(data, j)
    decreases |data| - i
  {
    if TooLong(data, i) {
      assert FullAt(data, i);
    } else if i < |data| {
      BreaksExactly(data, NextLine(data, i));
      forall j | i <= j && FullAt(data, j)
        ensures NextLine(data, i) <= j
      {
      }
    }
  }
}
