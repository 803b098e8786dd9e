/**
 `rsb grep`: ripgrep's JSON lines arrive in chunks that end anywhere; the parser keeps what does not parse yet for
 the next chunk. The JSON parser is a parameter.
 */
module Grep {
  import opened Basics
  import opened Lines

  /** An entry of ripgrep's output: a match, as it is printed, or one of the other kinds. */
  datatype Entry = Match(shown: bytes) | Summary

  type Parser = bytes -> Option<Entry>

  /** The matches among `tokens`, in order. */
  function Found(tokens: seq<bytes>, parse: Parser): seq<bytes> {
    if tokens == [] then
      []
    else
      var e := parse(tokens[|tokens| - 1]);
      Found(tokens[..|tokens| - 1], parse) + if e.Some? && e.value.Match? then [e.value.shown] else []
  }

  /** What does not parse, run together. */
  function Unparsed(tokens: seq<bytes>, parse: Parser): bytes {
    if tokens == [] then
      []
    else
      var t := tokens[|tokens| - 1];
      Unparsed(tokens[..|tokens| - 1], parse) + if parse(t).None? then t else []
  }

  lemma FoundSnoc(a: seq<bytes>, t: bytes, parse: Parser)
    ensures Found(a + [t], parse) == Found(a, parse) + Found([t], parse)
    ensures Unparsed(a + [t], parse) == Unparsed(a, parse) + Unparsed([t], parse)
  {
    assert (a + [t])[..|a|] == a && [t][..0] == [];
  }

  lemma {:induction false} FoundConcat(a: seq<bytes>, b: seq<bytes>, parse: Parser)
    ensures Found(a + b, parse) == Found(a, parse) + Found(b, parse)
    ensures Unparsed(a + b, parse) == Unparsed(a, parse) + Unparsed(b, parse)
  {
    if b == [] {
      assert a + b == a;
    } else {
      var c, t := b[..|b| - 1], b[|b| - 1];
      FoundConcat(a, c, parse);
      FoundSnoc(a + c, t, parse);
      FoundSnoc(c, t, parse);
      assert b == c + [t] && a + b == a + c + [t];
    }
  }

  lemma SplitAt<T>(a: seq<T>, n: nat)
    requires n <= |a|
    ensures a == a[..n] + a[n..]
  {
  }

  lemma PrefixOfConcat<T>(a: seq<T>, b: seq<T>)
    ensures a <= a + b
  {
  }

  lemma FoundPrefix(a: seq<bytes>, n: nat, parse: Parser)
    requires n <= |a|
    ensures Found(a[..n], parse) <= Found(a, parse)
  {
    SplitAt(a, n);
    FoundConcat(a[..n], a[n..], parse);
    PrefixOfConcat(Found(a[..n], parse), Found(a[n..], parse));
  }

  // ---- the parser ----

  class RgParser {
    var lineBuf: bytes

    constructor ()
      ensures lineBuf == []
    {
      lineBuf := [];
    }

    /** parseRgJSON: prints the matches of the buffered bytes and the chunk, up to `remaining` when it is positive. */
    method Parse(chunk: bytes, remaining: int, parse: Parser) returns (count: nat, printed: seq<bytes>)
      modifies this
      ensures count == |printed|
      ensures var tokens := Tokens(old(lineBuf) + chunk);
              if 0 < remaining <= |Found(tokens, parse)| then
                printed == Found(tokens, parse)[..remaining] && lineBuf == []
              else
                printed == Found(tokens, parse) && lineBuf == Unparsed(tokens, parse)
    {
      lineBuf := lineBuf + chunk;
      count, printed := 0, [];
      var sc := Tokens(lineBuf);
      var complete: bytes := [];
      var i := 0;
      while i < |sc|
        invariant i <= |sc| && printed == Found(sc[..i], parse) && complete == Unparsed(sc[..i], parse)
        invariant count == |printed| && (remaining > 0 ==> count < remaining)
      {
        var line := sc[i];
        assert sc[..i + 1][..i] == sc[..i];
        i := i + 1;
        FoundPrefix(sc, i, parse);
        var entry := parse(line);
        if entry.None? {
          complete := complete + line;
          continue;
        }
        if entry.value.Match? {
          printed, count := printed + [entry.value.shown], count + 1;
          if remaining > 0 && count >= remaining {
            lineBuf := [];
            return;
          }
        }
      }
      assert sc[..i] == sc;
      lineBuf := complete;
    }
  }

  // ---- independence of the chunks ----

  /** A line is a JSON text, none of its proper prefixes is, it has no control characters, and it fits the buffer. */
  ghost predicate Sound(lines: seq<bytes>, parse: Parser) {
    && parse([]) == None
    && forall l <- lines ::
         && parse(l).Some? && LF !in l && CR !in l && |l| < MAX_LINE
         && forall n | 0 <= n < |l| :: parse(l[..n]).None?
  }

  lemma SoundTail(lines: seq<bytes>, k: nat, parse: Parser)
    requires Sound(lines, parse) && k <= |lines|
    ensures Sound(lines[k..], parse)
  {
    assert forall l <- lines[k..] :: l in lines;
  }

  /**
   Between two chunks, `lines` being those not yet parsed: the buffer holds the part of the next line that has come,
   or it is empty, and the line feed of the last parsed line may be still to come.
   */
  ghost predicate Between(lines: seq<bytes>, buf: bytes, rest: bytes) {
    || (buf + rest == Shown(lines) && (buf != [] ==> lines != [] && buf < lines[0]))
    || (buf == [] && rest == [LF] + Shown(lines))
  }

  /** Where a buffer ends, in its first line or after it. */
  lemma BufferEnds(buf: bytes, rest: bytes, l: bytes, tail: bytes)
    requires buf + rest == l + [LF] + tail
    ensures if |buf| <= |l| then
              buf <= l && (|buf| == |l| ==> buf == l && rest == [LF] + tail)
            else
              buf == l + [LF] + buf[|l| + 1..] && buf[|l| + 1..] + rest == tail
  {
    var all := buf + rest;
    if |buf| <= |l| {
      assert buf == all[..|buf|] == l[..|buf|];
      assert rest == all[|buf|..];
      assert |buf| == |l| ==> (l + [LF] + tail)[|l|..] == [LF] + tail;
    } else {
      assert buf[..|l| + 1] == all[..|l| + 1] == l + [LF];
      assert buf[|l| + 1..] + rest == all[|l| + 1..] == tail;
    }
  }

  /** A buffer that ends in its first line. */
  lemma PartOfLine(lines: seq<bytes>, buf: bytes, rest: bytes, parse: Parser) returns (j: nat)
    requires Sound(lines, parse) && lines != [] && buf + rest == Shown(lines) && 0 < |buf| <= |lines[0]|
    ensures j <= |lines| && Between(lines[j..], Unparsed(Tokens(buf), parse), rest)
    ensures Found(Tokens(buf), parse) == Found(lines[..j], parse)
  {
    var l := lines[0];
    BufferEnds(buf, rest, l, Shown(lines[1..]));
    assert l in lines && buf == l[..|buf|];
    assert forall k | 0 <= k < |buf| :: buf[k] == l[k] && l[k] in l;
    OneToken(buf);
    assert [buf][..0] == [];
    if |buf| == |l| {
      assert lines[..1] == [l] == [buf];
      j := 1;
    } else {
      assert lines[0..] == lines && lines[..0] == [];
      j := 0;
    }
  }

  /** The lines in a buffer that starts with a line. */
  lemma {:induction false} BufferHolds(lines: seq<bytes>, buf: bytes, rest: bytes, parse: Parser) returns (j: nat)
    requires Sound(lines, parse) && buf + rest == Shown(lines)
    ensures j <= |lines| && Between(lines[j..], Unparsed(Tokens(buf), parse), rest)
    ensures Found(Tokens(buf), parse) == Found(lines[..j], parse)
    decreases |lines|
  {
    if buf == [] {
      assert lines[0..] == lines && lines[..0] == [] && [] + rest == rest;
      return 0;
    }
    var l := lines[0];
    assert l in lines;
    BufferEnds(buf, rest, l, Shown(lines[1..]));
    if |buf| <= |l| {
      j := PartOfLine(lines, buf, rest, parse);
      return;
    }
    var more := buf[|l| + 1..];
    FirstToken(l, false, more);
    SoundTail(lines, 1, parse);
    var n := BufferHolds(lines[1..], more, rest, parse);
    FirstFound(l, Tokens(more), parse);
    FirstFound(l, lines[1..][..n], parse);
    TailSlices(lines, n);
    return n + 1;
  }

  lemma TailSlices<T>(s: seq<T>, n: nat)
    requires s != [] && n < |s|
    ensures s[..n + 1] == [s[0]] + s[1..][..n] && s[1..][n..] == s[n + 1..]
  {
  }

  lemma FirstFound(t: bytes, tokens: seq<bytes>, parse: Parser)
    ensures Found([t] + tokens, parse) == Found([t], parse) + Found(tokens, parse)
    ensures parse(t).Some? || t == [] ==> Unparsed([t] + tokens, parse) == Unparsed(tokens, parse)
    ensures parse(t).None? ==> Found([t], parse) == []
  {
    FoundConcat([t], tokens, parse);
    assert [t][..0] == [];
  }

  /** One chunk more: the matches of the lines it completes, and the buffer is what has come of the next line. */
  lemma ChunkStep(lines: seq<bytes>, buf: bytes, chunk: bytes, rest: bytes, parse: Parser) returns (j: nat)
    requires Sound(lines, parse) && Between(lines, buf, chunk + rest)
    ensures j <= |lines| && Between(lines[j..], Unparsed(Tokens(buf + chunk), parse), rest)
    ensures Found(Tokens(buf + chunk), parse) == Found(lines[..j], parse)
  {
    if buf + (chunk + rest) == Shown(lines) {
      assert buf + chunk + rest == buf + (chunk + rest);
      j := BufferHolds(lines, buf + chunk, rest, parse);
    } else {
      j := AfterFeed(lines, chunk, rest, parse);
      assert buf + chunk == chunk;
    }
  }

  /** A chunk that starts with the line feed of a line that has been parsed. */
  lemma AfterFeed(lines: seq<bytes>, chunk: bytes, rest: bytes, parse: Parser) returns (j: nat)
    requires Sound(lines, parse) && chunk + rest == [LF] + Shown(lines)
    ensures j <= |lines| && Between(lines[j..], Unparsed(Tokens(chunk), parse), rest)
    ensures Found(Tokens(chunk), parse) == Found(lines[..j], parse)
  {
    if chunk == [] {
      assert lines[0..] == lines && lines[..0] == [] && chunk + rest == rest;
      return 0;
    }
    assert chunk + rest == [] + [LF] + Shown(lines);
    BufferEnds(chunk, rest, [], Shown(lines));
    var more := chunk[1..];
    FirstToken([], false, more);
    j := BufferHolds(lines, more, rest, parse);
    FirstFound([], Tokens(more), parse);
  }

  lemma ShownIsLonger(lines: seq<bytes>)
    ensures lines != [] ==> |Shown(lines)| > |lines[0]|
  {
  }

  /** At the end of the output no line is left over. */
  lemma BetweenEnd(lines: seq<bytes>, buf: bytes)
    requires Between(lines, buf, [])
    ensures lines == [] && buf == []
  {
    assert buf + [] == buf;
    ShownIsLonger(lines);
  }

  // ---- any number of chunks ----

  /** What is printed without a cap when the chunks come one after the other. */
  function Printed(buf: bytes, chunks: seq<bytes>, parse: Parser): seq<bytes>
    decreases |chunks|
  {
    if chunks == [] then
      []
    else
      var tokens := Tokens(buf + chunks[0]);
      Found(tokens, parse) + Printed(Unparsed(tokens, parse), chunks[1..], parse)
  }

  /** What the buffer holds after them. */
  function Left(buf: bytes, chunks: seq<bytes>, parse: Parser): bytes
    decreases |chunks|
  {
    if chunks == [] then buf else Left(Unparsed(Tokens(buf + chunks[0]), parse), chunks[1..], parse)
  }

  lemma Splice<T>(s: seq<T>, k: nat, j: nat)
    requires k + j <= |s|
    ensures s[..k + j] == s[..k] + s[k..][..j] && s[k..][j..] == s[k + j..]
  {
  }

  lemma FirstChunk(lines: seq<bytes>, buf: bytes, chunks: seq<bytes>, later: bytes, parse: Parser) returns (j: nat)
    requires Sound(lines, parse) && chunks != [] && Between(lines, buf, Flatten(chunks) + later)
    ensures var tokens := Tokens(buf + chunks[0]);
            && j <= |lines| && Sound(lines[j..], parse)
            && Between(lines[j..], Unparsed(tokens, parse), Flatten(chunks[1..]) + later)
            && Found(tokens, parse) == Found(lines[..j], parse)
  {
    Associate(chunks[0], Flatten(chunks[1..]), later);
    j := ChunkStep(lines, buf, chunks[0], Flatten(chunks[1..]) + later, parse);
    SoundTail(lines, j, parse);
  }

  /** The chunks give the matches of the first `n` lines, and leave what has come of the next one. */
  ghost predicate Through(lines: seq<bytes>, buf: bytes, chunks: seq<bytes>, later: bytes, parse: Parser, n: nat) {
    && n <= |lines| && Between(lines[n..], Left(buf, chunks, parse), later)
    && Printed(buf, chunks, parse) == Found(lines[..n], parse)
  }

  lemma {:induction false} ChunksStep(lines: seq<bytes>, buf: bytes, chunks: seq<bytes>, later: bytes, parse: Parser)
    returns (n: nat)
    requires Sound(lines, parse) && Between(lines, buf, Flatten(chunks) + later)
    ensures Through(lines, buf, chunks, later, parse, n)
    decreases |chunks|
  {
    if chunks == [] {
      ThroughNone(lines, buf, later, parse);
      n := 0;
    } else {
      var left := Unparsed(Tokens(buf + chunks[0]), parse);
      var j := FirstChunk(lines, buf, chunks, later, parse);
      var k := ChunksStep(lines[j..], left, chunks[1..], later, parse);
      n := ThroughBoth(lines, buf, left, chunks, later, parse, j, k);
    }
  }

  lemma ThroughNone(lines: seq<bytes>, buf: bytes, later: bytes, parse: Parser)
    requires Between(lines, buf, [] + later)
    ensures Through(lines, buf, [], later, parse, 0)
  {
    assert [] + later == later && lines[0..] == lines && lines[..0] == [];
  }

  lemma ThroughBoth(lines: seq<bytes>, buf: bytes, left: bytes, chunks: seq<bytes>, later: bytes, parse: Parser,
                    j: nat, k: nat) returns (n: nat)
    requires chunks != [] && j <= |lines| && Found(Tokens(buf + chunks[0]), parse) == Found(lines[..j], parse)
    requires left == Unparsed(Tokens(buf + chunks[0]), parse)
    requires Through(lines[j..], left, chunks[1..], later, parse, k)
    ensures Through(lines, buf, chunks, later, parse, n)
  {
    n := j + k;
    Splice(lines, j, k);
    FoundConcat(lines[..j], lines[j..][..k], parse);
  }

  /** Chunking independence: however complete output is cut, exactly its matches are printed, and nothing is left. */
  lemma ChunksAreIrrelevant(lines: seq<bytes>, chunks: seq<bytes>, parse: Parser)
    requires Sound(lines, parse) && Flatten(chunks) == Shown(lines)
    ensures Printed([], chunks, parse) == Found(lines, parse) && Left([], chunks, parse) == []
  {
    assert Flatten(chunks) + [] == Flatten(chunks) && [] + Shown(lines) == Shown(lines);
    var n := ChunksStep(lines, [], chunks, [], parse);
    BetweenEnd(lines[n..], Left([], chunks, parse));
    assert lines[..n] == lines;
  }

  /** Output that breaks off: only matches of its lines are printed, from the first on. */
  lemma PartIsPrefix(lines: seq<bytes>, chunks: seq<bytes>, parse: Parser)
    requires Sound(lines, parse) && Flatten(chunks) <= Shown(lines)
    ensures Printed([], chunks, parse) <= Found(lines, parse)
  {
    var later := Shown(lines)[|Flatten(chunks)|..];
    assert Flatten(chunks) + later == Shown(lines) == [] + Shown(lines);
    var n := ChunksStep(lines, [], chunks, later, parse);
    FoundPrefix(lines, n, parse);
  }

  // ---- lines that are too long ----

  lemma {:induction false} TokensOfShown(lines: seq<bytes>, more: bytes)
    requires forall l <- lines :: LF !in l && CR !in l && |l| < MAX_LINE
    ensures Tokens(Shown(lines) + more) == lines + Tokens(more)
  {
    if lines == [] {
      assert [] + more == more && [] + Tokens(more) == Tokens(more);
    } else {
      assert lines[0] in lines;
      TokensOfShown(lines[1..], more);
      FirstToken(lines[0], false, Shown(lines[1..]) + more);
      Associate(lines[0] + [LF], Shown(lines[1..]), more);
      Associate([lines[0]], lines[1..], Tokens(more));
    }
  }

  /** The index of the first line that fills the buffer. */
  function FirstLong(lines: seq<bytes>): (k: nat)
    ensures k <= |lines| && forall j | 0 <= j < k :: |lines[j]| < MAX_LINE
    ensures k < |lines| ==> |lines[k]| >= MAX_LINE
  {
    if lines == [] || |lines[0]| >= MAX_LINE then 0 else 1 + FirstLong(lines[1..])
  }

  /** A line that fills the buffer is dropped, with everything behind it in the buffer. */
  lemma LongLineIsDropped(buf: bytes)
    requires |buf| >= MAX_LINE && LF !in buf[..MAX_LINE]
    ensures Tokens(buf) == []
  {
    assert forall k | 0 <= k < MAX_LINE :: buf[k] == buf[..MAX_LINE][k] && buf[..MAX_LINE][k] in buf[..MAX_LINE];
    assert LineEnd(buf, 0) >= MAX_LINE;
  }

  lemma StartsLong(lines: seq<bytes>)
    requires lines != [] && LF !in lines[0] && |lines[0]| >= MAX_LINE
    ensures Tokens(Shown(lines)) == []
  {
    var l, all := lines[0], Shown(lines);
    assert forall k | 0 <= k < MAX_LINE :: all[..MAX_LINE][k] == l[k] && l[k] in l;
    LongLineIsDropped(all);
  }

  /** A scan of whole lines gives the lines before the first one that fills the buffer. */
  lemma TokensBeforeLong(lines: seq<bytes>)
    requires forall l <- lines :: LF !in l && CR !in l
    ensures Tokens(Shown(lines)) == lines[..FirstLong(lines)]
  {
    var k := FirstLong(lines);
    var short, rest := lines[..k], lines[k..];
    assert forall l <- short :: l in lines;
    SplitAt(lines, k);
    ShownConcat(short, rest);
    TokensOfShown(short, Shown(rest));
    if rest == [] {
      assert Tokens(Shown(rest)) == [];
    } else {
      assert rest[0] == lines[k] && lines[k] in lines;
      StartsLong(rest);
    }
    assert short + [] == short;
  }

  lemma SoundTokens(lines: seq<bytes>, more: bytes, parse: Parser)
    requires Sound(lines, parse)
    ensures Found(lines, parse) <= Found(Tokens(Shown(lines) + more), parse)
  {
    TokensOfShown(lines, more);
    FoundConcat(lines, Tokens(more), parse);
    PrefixOfConcat(Found(lines, parse), Found(Tokens(more), parse));
  }

  lemma OwedEnds(lines: seq<bytes>, buf: bytes, owed: bytes, more: bytes, parse: Parser)
    requires Sound(lines, parse) && Between(lines, buf, owed)
    ensures Found(lines, parse) <= Found(Tokens(buf + (owed + more)), parse)
  {
    var all := Shown(lines) + more;
    SoundTokens(lines, more, parse);
    if buf + owed == Shown(lines) {
      Associate(buf, owed, more);
    } else {
      FirstToken([], false, all);
      FirstFound([], Tokens(all), parse);
      Associate([LF], Shown(lines), more);
      assert buf + (owed + more) == [] + [LF] + all;
    }
  }

  /** Whatever follows sound lines, and however it is cut: their matches are printed first. */
  lemma {:induction false} SoundLinesFirst(lines: seq<bytes>, buf: bytes, chunks: seq<bytes>, owed: bytes, tail: bytes,
                                           parse: Parser)
    requires Sound(lines, parse) && Between(lines, buf, owed) && Flatten(chunks) == owed + tail
    ensures Found(lines, parse) <= Printed(buf, chunks, parse)
    decreases |chunks|
  {
    if lines == [] {
      return;
    }
    ShownIsLonger(lines);
    assert owed != [] && chunks != [];
    var c, rest := chunks[0], Flatten(chunks[1..]);
    var found := Found(Tokens(buf + c), parse);
    if |c| < |owed| {
      ShortChunk(c, rest, owed, tail);
      var j := ChunkStep(lines, buf, c, owed[|c|..], parse);
      SoundTail(lines, j, parse);
      SoundLinesFirst(lines[j..], Unparsed(Tokens(buf + c), parse), chunks[1..], owed[|c|..], tail, parse);
      FoundConcat(lines[..j], lines[j..], parse);
      SplitAt(lines, j);
      PrefixBehind(found, Found(lines[j..], parse), Printed(Unparsed(Tokens(buf + c), parse), chunks[1..], parse));
    } else {
      ShortChunk(owed, tail, c, rest);
      OwedEnds(lines, buf, owed, c[|owed|..], parse);
      PrefixOfConcat(found, Printed(Unparsed(Tokens(buf + c), parse), chunks[1..], parse));
    }
  }

  lemma ShortChunk(c: bytes, rest: bytes, owed: bytes, tail: bytes)
    requires c + rest == owed + tail && |c| <= |owed|
    ensures owed == c + owed[|c|..] && rest == owed[|c|..] + tail
  {
    assert (c + rest)[..|c|] == (owed + tail)[..|c|] && (c + rest)[|c|..] == (owed + tail)[|c|..];
  }

  lemma PrefixBehind<T>(a: seq<T>, b: seq<T>, c: seq<T>)
    requires b <= c
    ensures a + b <= a + c
  {
  }

  /** For every chunking, all matches before the first line that is too long, or not sound otherwise, are printed. */
  lemma SoundPrefixIsPrinted(lines: seq<bytes>, chunks: seq<bytes>, parse: Parser)
    requires Sound(lines, parse) && Shown(lines) <= Flatten(chunks)
    ensures Found(lines, parse) <= Printed([], chunks, parse)
  {
    var tail := Flatten(chunks)[|Shown(lines)|..];
    assert Flatten(chunks) == Shown(lines) + tail && [] + Shown(lines) == Shown(lines);
    SoundLinesFirst(lines, [], chunks, Shown(lines), tail, parse);
  }

  /**
   Exactly when matches can be lost: with sound lines before the first one that is too long, every way to cut the
   output into chunks prints all matches first, if and only if none sits at or behind that line.
   */
  lemma LostExactly(lines: seq<bytes>, parse: Parser)
    requires (forall l <- lines :: LF !in l && CR !in l) && Sound(lines[..FirstLong(lines)], parse)
    ensures (forall chunks | Flatten(chunks) == Shown(lines) :: Found(lines, parse) <= Printed([], chunks, parse))
            <==> Found(lines[FirstLong(lines)..], parse) == []
  {
    var short, rest := lines[..FirstLong(lines)], lines[FirstLong(lines)..];
    SplitAt(lines, FirstLong(lines));
    ShownConcat(short, rest);
    FoundConcat(short, rest, parse);
    if Found(rest, parse) == [] {
      forall chunks | Flatten(chunks) == Shown(lines)
        ensures Found(lines, parse) <= Printed([], chunks, parse)
      {
        NothingLost(short, rest, chunks, parse);
      }
    } else {
      InOneChunk(lines, parse);
    }
  }

  lemma NothingLost(short: seq<bytes>, rest: seq<bytes>, chunks: seq<bytes>, parse: Parser)
    requires Sound(short, parse) && Flatten(chunks) == Shown(short) + Shown(rest)
    ensures Found(short, parse) + [] <= Printed([], chunks, parse)
  {
    SoundPrefixIsPrinted(short, chunks, parse);
  }

  /** All in one chunk: what sits at or behind the first line that is too long is not printed. */
  lemma InOneChunk(lines: seq<bytes>, parse: Parser)
    requires forall l <- lines :: LF !in l && CR !in l
    ensures Flatten([Shown(lines)]) == Shown(lines)
    ensures Printed([], [Shown(lines)], parse) == Found(lines[..FirstLong(lines)], parse)
  {
    TokensBeforeLong(lines);
    assert [Shown(lines)][1..] == [] && [] + Shown(lines) == Shown(lines) && Flatten([Shown(lines)][1..]) == [];
  }

  /**
   When the output is cut inside a line that is too long, what comes of the line later stays in the buffer, and the next
   line is lost with it, though it is short and comes in a chunk of its own.
   */
  lemma NextLineIsSwallowed(head: bytes, tail: bytes, l: bytes, parse: Parser)
    requires |head| >= MAX_LINE && LF !in head && tail != [] && |tail + l| < MAX_LINE
    requires LF !in tail + l && CR !in tail + l && parse(tail).None? && parse(tail + l).None?
    ensures var chunks := [head, tail + [LF], l + [LF]];
            Flatten(chunks) == Shown([head + tail, l]) && Printed([], chunks, parse) == []
  {
    assert head[..MAX_LINE] <= head && [] + head == head;
    LongLineIsDropped(head);
    Swallowed(tail, l, parse);
    PrintedOne([], head, [tail + [LF], l + [LF]], parse);
    assert [head] + [tail + [LF], l + [LF]] == [head, tail + [LF], l + [LF]];
    CutInside(head, tail, l);
  }

  lemma CutInside(head: bytes, tail: bytes, l: bytes)
    ensures Flatten([head, tail + [LF], l + [LF]]) == Shown([head + tail, l])
  {
    var last := [l + [LF]];
    assert last[1..] == [] && [l][1..] == [] && Flatten(last) == l + [LF] + [] == Shown([l]);
    var two := [tail + [LF], l + [LF]];
    assert two[1..] == last && Flatten(two) == tail + [LF] + Shown([l]);
    assert [head, tail + [LF], l + [LF]][1..] == two && [head + tail, l][1..] == [l];
    Associate(head, tail + [LF], Shown([l]));
    Associate(head, tail, [LF]);
  }

  lemma Swallowed(tail: bytes, l: bytes, parse: Parser)
    requires |tail + l| < MAX_LINE && LF !in tail + l && CR !in tail + l && parse(tail).None? && parse(tail + l).None?
    ensures Printed([], [tail + [LF], l + [LF]], parse) == []
  {
    assert forall x <- tail :: x in tail + l;
    NotParsed([], tail + [LF], tail, parse);
    NotParsed(tail, l + [LF], tail + l, parse);
    PrintedOne([], tail + [LF], [l + [LF]], parse);
    PrintedOne(tail, l + [LF], [], parse);
    assert [tail + [LF]] + [l + [LF]] == [tail + [LF], l + [LF]] && [l + [LF]] + [] == [l + [LF]];
  }

  /** A line that does not parse goes back into the buffer. */
  lemma NotParsed(buf: bytes, c: bytes, line: bytes, parse: Parser)
    requires buf + c == line + [LF] && LF !in line && CR !in line && |line| < MAX_LINE && parse(line).None?
    ensures Found(Tokens(buf + c), parse) == [] && Unparsed(Tokens(buf + c), parse) == line
  {
    FirstToken(line, false, []);
    assert line + [LF] + [] == buf + c && [line] + Tokens([]) == [line] && [line][..0] == [];
  }

  lemma PrintedOne(buf: bytes, c: bytes, rest: seq<bytes>, parse: Parser)
    ensures Printed(buf, [c] + rest, parse)
         == Found(Tokens(buf + c), parse) + Printed(Unparsed(Tokens(buf + c), parse), rest, parse)
  {
    assert ([c] + rest)[1..] == rest;
  }

  // ---- the frame loop ----

  datatype Frame =
    | Output(stdout: bool, data: bytes)
    | Result
    | Error
    | Other  // any other kind, or a body that does not parse

  predicate Ends(f: Frame) {
    f.Result? || f.Error?
  }

  /** What ripgrep wrote to stdout, frame by frame, up to the end of its request. */
  function Stdout(frames: seq<Frame>): seq<bytes> {
    if frames == [] || Ends(frames[0]) then
      []
    else
      (if frames[0].Output? && frames[0].stdout then [frames[0].data] else []) + Stdout(frames[1..])
  }

  /** The index of the first Result or Error, or the end of the connection. */
  function EndAt(frames: seq<Frame>): (e: nat)
    ensures e <= |frames| && forall k | 0 <= k < e :: !frames[k].Result? && !frames[k].Error?
    ensures e < |frames| ==> frames[e].Result? || frames[e].Error?
  {
    if frames == [] || frames[0].Result? || frames[0].Error? then 0 else 1 + EndAt(frames[1..])
  }

  /** What came on stderr, run together. */
  function Stderr(frames: seq<Frame>): bytes {
    if frames == [] then
      []
    else
      var f := frames[|frames| - 1];
      Stderr(frames[..|frames| - 1]) + if f.Output? && !f.stdout then f.data else []
  }

  lemma StderrNext(frames: seq<Frame>, i: nat)
    requires i < |frames|
    ensures Stderr(frames[..i + 1])
         == Stderr(frames[..i]) + if frames[i].Output? && !frames[i].stdout then frames[i].data else []
  {
    assert frames[..i + 1][..i] == frames[..i];
  }

  /** Done holds what is shown of stderr. */
  datatype Outcome = Capped | Done(note: bytes) | Failed | Lost

  function First(matches: seq<bytes>, cap: int): seq<bytes> {
    if 0 < cap <= |matches| then matches[..cap] else matches
  }

  lemma FirstConcat(a: seq<bytes>, b: seq<bytes>, cap: int)
    requires cap > 0 ==> |a| < cap
    ensures a + First(b, cap - |a|) == First(a + b, cap)
  {
    if 0 < cap <= |a| + |b| {
      assert (a + b)[..cap] == a + b[..cap - |a|];
    }
  }

  lemma FirstOfPrefix(a: seq<bytes>, b: seq<bytes>, cap: int)
    requires a <= b
    ensures First(a, cap) <= First(b, cap) && (0 < cap <= |a| ==> First(a, cap) == First(b, cap))
  {
  }

  /** The loop has printed `printed` and has `frames` still to come. */
  ghost predicate OnTheWay(all: seq<bytes>, left: bytes, printed: seq<bytes>, buf: bytes, frames: seq<Frame>,
                           parse: Parser) {
    all == printed + Printed(buf, Stdout(frames), parse) && left == Left(buf, Stdout(frames), parse)
  }

  lemma SkipFrame(all: seq<bytes>, left: bytes, printed: seq<bytes>, buf: bytes, frames: seq<Frame>, i: nat,
                  parse: Parser)
    requires i < |frames| && OnTheWay(all, left, printed, buf, frames[i..], parse)
    requires !Ends(frames[i]) && !(frames[i].Output? && frames[i].stdout)
    ensures OnTheWay(all, left, printed, buf, frames[i + 1..], parse)
  {
    assert frames[i..][1..] == frames[i + 1..];
    assert [] + Stdout(frames[i + 1..]) == Stdout(frames[i + 1..]);
  }

  lemma StdoutFrame(all: seq<bytes>, left: bytes, printed: seq<bytes>, buf: bytes, frames: seq<Frame>, i: nat,
                    parse: Parser)
    requires i < |frames| && OnTheWay(all, left, printed, buf, frames[i..], parse)
    requires frames[i].Output? && frames[i].stdout
    ensures var tokens := Tokens(buf + frames[i].data);
            && OnTheWay(all, left, printed + Found(tokens, parse), Unparsed(tokens, parse), frames[i + 1..], parse)
            && printed + Found(tokens, parse) <= all
  {
    var rest := Stdout(frames[i + 1..]);
    assert frames[i..][1..] == frames[i + 1..];
    assert ([frames[i].data] + rest)[1..] == rest && ([frames[i].data] + rest)[0] == frames[i].data;
    var tokens := Tokens(buf + frames[i].data);
    var more := Printed(Unparsed(tokens, parse), rest, parse);
    assert printed + (Found(tokens, parse) + more) == printed + Found(tokens, parse) + more;
  }

  /** For ripgrep's output `out`, the matches of its lines are printed up to the cap, and the buffer ends as `buf`. */
  ghost predicate Prints(out: bytes, printed: seq<bytes>, buf: bytes, parse: Parser, max: int) {
    forall lines | Sound(lines, parse) ::
      var promised := First(Found(lines, parse), max);
      && (out == Shown(lines) ==> printed == promised && buf == [])
      && (out <= Shown(lines) ==> printed <= promised)
      && (Shown(lines) <= out ==> promised <= printed)
  }

  lemma Meaning(chunks: seq<bytes>, buf: bytes, parse: Parser, max: int)
    requires buf == [] || buf == Left([], chunks, parse)
    ensures Prints(Flatten(chunks), First(Printed([], chunks, parse), max), buf, parse, max)
  {
    var all := Printed([], chunks, parse);
    forall lines | Sound(lines, parse)
      ensures var promised := First(Found(lines, parse), max);
              && (Flatten(chunks) == Shown(lines) ==> First(all, max) == promised && buf == [])
              && (Flatten(chunks) <= Shown(lines) ==> First(all, max) <= promised)
              && (Shown(lines) <= Flatten(chunks) ==> promised <= First(all, max))
    {
      if Flatten(chunks) == Shown(lines) {
        ChunksAreIrrelevant(lines, chunks, parse);
      }
      if Flatten(chunks) <= Shown(lines) {
        PartIsPrefix(lines, chunks, parse);
        FirstOfPrefix(all, Found(lines, parse), max);
      }
      if Shown(lines) <= Flatten(chunks) {
        SoundPrefixIsPrinted(lines, chunks, parse);
        FirstOfPrefix(Found(lines, parse), all, max);
      }
    }
  }

  /** The parser's part of one stdout frame, with the cap. */
  method Feed(ghost all: seq<bytes>, ghost left: bytes, printed: seq<bytes>, frames: seq<Frame>, i: nat,
              parser: RgParser, parse: Parser, max: int)
    returns (count: nat, more: seq<bytes>)
    requires i < |frames| && frames[i].Output? && frames[i].stdout && (max > 0 ==> |printed| < max)
    requires OnTheWay(all, left, printed, parser.lineBuf, frames[i..], parse)
    modifies parser
    ensures count == |more|
    ensures if 0 < max <= |printed + more| then
              printed + more == First(all, max) && parser.lineBuf == []
            else
              OnTheWay(all, left, printed + more, parser.lineBuf, frames[i + 1..], parse)
  {
    StdoutFrame(all, left, printed, parser.lineBuf, frames, i, parse);
    ghost var found := Found(Tokens(parser.lineBuf + frames[i].data), parse);
    FirstConcat(printed, found, max);
    FirstOfPrefix(printed + found, all, max);
    count, more := parser.Parse(frames[i].data, max - |printed|, parse);
    assert more == First(found, max - |printed|);
  }

  /**
   The loop of Grep: for all frames, the first `max` of what the chunks give is printed, or all of it when `max` is
   not positive. So with sound lines, however they are cut into frames: the first `max` matches of complete output,
   in order and each once, with an empty buffer; a part of them when the output breaks off; and all those before
   anything that is not sound.
   */
  method Grep(frames: seq<Frame>, parser: RgParser, parse: Parser, max: int)
    returns (count: nat, printed: seq<bytes>, outcome: Outcome)
    modifies parser
    ensures count == |printed| && printed == First(Printed(old(parser.lineBuf), Stdout(frames), parse), max)
    ensures outcome.Capped? <==> 0 < max <= count
    ensures parser.lineBuf == if outcome.Capped? then [] else Left(old(parser.lineBuf), Stdout(frames), parse)
    ensures !outcome.Capped? ==>
              var e := EndAt(frames);
              && (outcome.Done? <==> e < |frames| && frames[e].Result?)
              && (outcome.Failed? <==> e < |frames| && frames[e].Error?)
              && (outcome.Lost? <==> e == |frames|)
    ensures outcome.Done? ==> outcome.note == if count == 0 then Stderr(frames[..EndAt(frames)]) else []
    ensures old(parser.lineBuf) == [] ==> Prints(Flatten(Stdout(frames)), printed, parser.lineBuf, parse, max)
  {
    ghost var buf := parser.lineBuf;
    ghost var all := Printed(parser.lineBuf, Stdout(frames), parse);
    ghost var left := Left(parser.lineBuf, Stdout(frames), parse);
    count, printed, outcome := 0, [], Lost;
    var stderr: bytes := [];
    var i := 0;
    assert frames[0..] == frames;
    while i < |frames|
      invariant i <= EndAt(frames) && count == |printed| && outcome == Lost && stderr == Stderr(frames[..i])
      invariant max > 0 ==> count < max
      invariant OnTheWay(all, left, printed, parser.lineBuf, frames[i..], parse)
    {
      var f := frames[i];
      StderrNext(frames, i);
      if f.Result? || f.Error? {
        outcome := if f.Error? then Failed else Done(if count == 0 then stderr else []);
        break;
      }
      if f.Output? && f.stdout {
        var c, more := Feed(all, left, printed, frames, i, parser, parse, max);
        count, printed := count + c, printed + more;
      } else {
        SkipFrame(all, left, printed, parser.lineBuf, frames, i, parse);
        if f.Output? {
          stderr := stderr + f.data;
        }
      }
      i := i + 1;
      if max > 0 && count >= max {
        outcome := Capped;
        break;
      }
    }
    assert printed + [] == printed;
    if buf == [] {
      Meaning(Stdout(frames), parser.lineBuf, parse, max);
    }
  }
}
