/**
 Reading a file, or a slice of it: the agent's `handleFileGet`, the client's `FileGet`, and the local twin
 `applyCatLimits`. Line and byte limits of zero or less mean "no limit".
 */
module Cat {
  import opened Basics
  import opened Lines

  datatype Frame =
    | Chunk(data: bytes, done: bool, truncated: bool, sha: Option<nat>)
    | Result
    | Error
    | Garbled  // a chunk whose body does not parse
    | Other

  // ---- what a slice is ----

  /** Lines start..end, counted from 1; the end is open when it is not positive. */
  function Slice(lines: seq<bytes>, start: int, end: int): seq<bytes> {
    var lo, hi := Max(start, 1) - 1, if end > 0 then Min(end, |lines|) else |lines|;
    if lo < hi then lines[lo..hi] else []
  }

  /** The longest run of whole lines, from the first on, that fits the cap. */
  ghost predicate Fits(lines: seq<bytes>, cap: int, n: nat) {
    && n <= |lines|
    && (cap > 0 ==> |Shown(lines[..n])| <= cap)
    && (n < |lines| ==> cap > 0 && |Shown(lines[..n + 1])| > cap)
  }

  lemma ShownGrows(lines: seq<bytes>, m: nat, n: nat)
    requires m <= n <= |lines|
    ensures |Shown(lines[..m])| <= |Shown(lines[..n])|
  {
    ShownConcat(lines[..m], lines[m..n]);
    assert lines[..n] == lines[..m] + lines[m..n];
  }

  /** There is only one such run. */
  lemma FitsOnce(lines: seq<bytes>, cap: int, m: nat, n: nat)
    requires Fits(lines, cap, m) && Fits(lines, cap, n)
    ensures m == n
  {
    if m < n {
      ShownGrows(lines, m + 1, n);
    } else if n < m {
      ShownGrows(lines, n + 1, m);
    }
  }

  // ---- the loop over lines ----

  /** `drained`: the loop has seen every line. */
  datatype Picked = Picked(lines: seq<bytes>, truncated: bool, drained: bool)

  /** What the loops over lines pick from `lines`, after `lineNo` lines and `total` bytes. */
  function Select(lines: seq<bytes>, lineNo: nat, start: int, end: int, cap: int, total: nat): Picked {
    if lines == [] then
      Picked([], false, true)
    else if lineNo + 1 < start then
      Select(lines[1..], lineNo + 1, start, end, cap, total)
    else if end > 0 && lineNo + 1 > end then
      Picked([], false, false)
    else if cap > 0 && total + |lines[0]| + 1 > cap then
      Picked([], true, false)
    else
      var more := Select(lines[1..], lineNo + 1, start, end, cap, total + |lines[0]| + 1);
      more.(lines := [lines[0]] + more.lines)
  }

  /** The requested ones among `lines`, the first of which has number `lineNo` + 1. */
  function Requested(lines: seq<bytes>, lineNo: nat, start: int, end: int): seq<bytes> {
    if lines == [] then
      []
    else
      (if lineNo + 1 < start || (end > 0 && lineNo + 1 > end) then [] else [lines[0]])
      + Requested(lines[1..], lineNo + 1, start, end)
  }

  function Cut<T>(s: seq<T>, lo: nat, hi: nat): seq<T>
    requires hi <= |s|
  {
    if lo < hi then s[lo..hi] else []
  }

  lemma CutTail<T>(s: seq<T>, lo: nat, hi: nat)
    requires 0 < lo && hi <= |s| && s != []
    ensures Cut(s, lo, hi) == Cut(s[1..], lo - 1, Max(hi - 1, 0))
  {
    if lo < hi {
      assert forall i | 0 <= i < hi - lo :: s[lo..hi][i] == s[lo + i] == s[1..][lo - 1..hi - 1][i];
    }
  }

  lemma CutHead<T>(s: seq<T>, hi: nat)
    requires 0 < hi <= |s|
    ensures Cut(s, 0, hi) == [s[0]] + Cut(s[1..], 0, hi - 1)
  {
    if hi > 1 {
      assert s[0..hi] == [s[0]] + s[1..][0..hi - 1];
    }
  }

  function From(k: nat, start: int): nat {
    Max(Max(start, 1) - 1 - k, 0)
  }

  function To(k: nat, end: int, n: nat): (hi: nat)
    ensures hi <= n
  {
    if end > 0 then Min(Max(end - k, 0), n) else n
  }

  lemma RequestedFirst(lines: seq<bytes>, k: nat, start: int, end: int)
    requires lines != []
    ensures var rest := Requested(lines[1..], k + 1, start, end);
            Requested(lines, k, start, end) ==
              if k + 1 < start || (end > 0 && k + 1 > end) then rest else [lines[0]] + rest
  {
    var rest := Requested(lines[1..], k + 1, start, end);
    assert [] + rest == rest;
  }

  lemma Bounds(k: nat, start: int, end: int, n: nat)
    requires n > 0
    ensures From(k, start) > 0 <==> k + 1 < start
    ensures To(k, end, n) == 0 <==> end > 0 && k + 1 > end
    ensures From(k + 1, start) == Max(From(k, start) - 1, 0)
    ensures To(k + 1, end, n - 1) == Max(To(k, end, n) - 1, 0)
  {
  }

  lemma {:induction false} RequestedIsSlice(lines: seq<bytes>, k: nat, start: int, end: int)
    ensures Requested(lines, k, start, end) == Cut(lines, From(k, start), To(k, end, |lines|))
  {
    if lines != [] {
      var lo, hi := From(k, start), To(k, end, |lines|);
      var rest := Requested(lines[1..], k + 1, start, end);
      Bounds(k, start, end, |lines|);
      RequestedFirst(lines, k, start, end);
      RequestedIsSlice(lines[1..], k + 1, start, end);
      assert rest == Cut(lines[1..], From(k + 1, start), To(k + 1, end, |lines| - 1));
      if lo > 0 {
        CutTail(lines, lo, hi);
      } else if hi > 0 {
        CutHead(lines, hi);
      }
    }
  }

  /** Whole lines as long as they fit. */
  function Take(lines: seq<bytes>, cap: int, total: nat): seq<bytes> {
    if lines == [] || (cap > 0 && total + |lines[0]| + 1 > cap) then
      []
    else
      [lines[0]] + Take(lines[1..], cap, total + |lines[0]| + 1)
  }

  lemma {:induction false} TakeFits(lines: seq<bytes>, cap: int, total: nat)
    requires cap > 0 ==> total <= cap
    ensures var n := |Take(lines, cap, total)|;
            && n <= |lines| && Take(lines, cap, total) == lines[..n]
            && (cap > 0 ==> total + |Shown(lines[..n])| <= cap)
            && (n < |lines| ==> cap > 0 && total + |Shown(lines[..n + 1])| > cap)
  {
    if lines != [] {
      if cap > 0 && total + |lines[0]| + 1 > cap {
        assert lines[..1][1..] == [];
      } else {
        TakeFits(lines[1..], cap, total + |lines[0]| + 1);
        var n := |Take(lines, cap, total)|;
        assert lines[..n][1..] == lines[1..][..n - 1];
        assert n < |lines| ==> lines[..n + 1][1..] == lines[1..][..n];
      }
    }
  }

  lemma {:induction false} NoneRequested(lines: seq<bytes>, lineNo: nat, start: int, end: int)
    requires 0 < end <= lineNo
    ensures Requested(lines, lineNo, start, end) == []
  {
    if lines != [] {
      NoneRequested(lines[1..], lineNo + 1, start, end);
    }
  }

  lemma {:induction false} SelectTakes(lines: seq<bytes>, lineNo: nat, start: int, end: int, cap: int, total: nat)
    ensures var r, all := Select(lines, lineNo, start, end, cap, total), Requested(lines, lineNo, start, end);
            && r.lines == Take(all, cap, total) && r.truncated == (|r.lines| < |all|)
            && r.drained == (!r.truncated && (lines == [] || end <= 0 || lineNo + |lines| <= Max(end, start - 1)))
  {
    if lines != [] {
      var all := Requested(lines, lineNo, start, end);
      if end > 0 && lineNo + 1 > end {
        NoneRequested(lines, lineNo, start, end);
      }
      RequestedFirst(lines, lineNo, start, end);
      if lineNo + 1 < start {
        SelectTakes(lines[1..], lineNo + 1, start, end, cap, total);
      } else if !(end > 0 && lineNo + 1 > end) {
        assert all[1..] == Requested(lines[1..], lineNo + 1, start, end);
        if !(cap > 0 && total + |lines[0]| + 1 > cap) {
          SelectTakes(lines[1..], lineNo + 1, start, end, cap, total + |lines[0]| + 1);
        }
      }
    }
  }

  /** The loop picks the longest run of whole requested lines that fits, and stops early for no other reason. */
  lemma SelectMeans(lines: seq<bytes>, start: int, end: int, cap: int)
    ensures var all, r := Slice(lines, start, end), Select(lines, 0, start, end, cap, 0);
            && Fits(all, cap, |r.lines|) && r.lines == all[..|r.lines|] && r.truncated == (|r.lines| < |all|)
            && r.drained == (!r.truncated && (lines == [] || end <= 0 || |lines| <= Max(end, start - 1)))
  {
    SelectTakes(lines, 0, start, end, cap, 0);
    RequestedIsSlice(lines, 0, start, end);
    TakeFits(Slice(lines, start, end), cap, 0);
  }

  /** A start of zero is a start of one. */
  lemma {:induction false} SelectFromOne(lines: seq<bytes>, lineNo: nat, end: int, cap: int, total: nat)
    ensures Select(lines, lineNo, 0, end, cap, total) == Select(lines, lineNo, 1, end, cap, total)
  {
    if lines != [] {
      SelectFromOne(lines[1..], lineNo + 1, end, cap, total + |lines[0]| + 1);
    }
  }

  /** The same from token `i` on, with the lines picked so far. */
  function Resume(picked: seq<bytes>, tokens: seq<bytes>, i: nat, start: int, end: int, cap: int, total: nat): Picked
    requires i <= |tokens|
  {
    var r := Select(tokens[i..], i, start, end, cap, total);
    r.(lines := picked + r.lines)
  }

  lemma SelectNext(tokens: seq<bytes>, i: nat, start: int, end: int, cap: int, total: nat)
    requires i < |tokens|
    ensures Select(tokens[i..], i, start, end, cap, total) ==
              if i + 1 < start then Select(tokens[i + 1..], i + 1, start, end, cap, total)
              else if end > 0 && i + 1 > end then Picked([], false, false)
              else if cap > 0 && total + |tokens[i]| + 1 > cap then Picked([], true, false)
              else var r := Select(tokens[i + 1..], i + 1, start, end, cap, total + |tokens[i]| + 1);
                r.(lines := [tokens[i]] + r.lines)
  {
    assert tokens[i..][1..] == tokens[i + 1..];
  }

  lemma ShownSnoc(lines: seq<bytes>, line: bytes)
    ensures Shown(lines + [line]) == Shown(lines) + (line + [LF])
  {
    ShownConcat(lines, [line]);
    assert [line][1..] == [];
  }

  lemma ResumeNext(picked: seq<bytes>, tokens: seq<bytes>, i: nat, start: int, end: int, cap: int, total: nat)
    requires i < |tokens|
    ensures Resume(picked, tokens, i, start, end, cap, total) ==
              if i + 1 < start then Resume(picked, tokens, i + 1, start, end, cap, total)
              else if end > 0 && i + 1 > end then Picked(picked, false, false)
              else if cap > 0 && total + |tokens[i]| + 1 > cap then Picked(picked, true, false)
              else Resume(picked + [tokens[i]], tokens, i + 1, start, end, cap, total + |tokens[i]| + 1)
  {
    SelectNext(tokens, i, start, end, cap, total);
    Regroup(picked, tokens[i], Select(tokens[i + 1..], i + 1, start, end, cap, total + |tokens[i]| + 1).lines);
  }

  // ---- the agent ----

  /** Everything the chunks carry. */
  function Payload(frames: seq<Frame>): bytes {
    if frames == [] then [] else Payload(frames[..|frames| - 1]) + Data(frames[|frames| - 1])
  }

  function Data(f: Frame): bytes {
    if f.Chunk? then f.data else []
  }

  ghost function Content(data: bytes): Frame {
    Chunk(data, false, false, None)
  }

  /** The last chunk and the Result. */
  ghost function Ending(payload: bytes, truncated: bool, hash: Hash): seq<Frame> {
    [Chunk([], true, truncated, Some(hash(payload))), Result]
  }

  ghost predicate Plain(frames: seq<Frame>) {
    forall f <- frames :: f.Chunk? && f.data != [] && f == Content(f.data)
  }

  lemma PayloadSnoc(frames: seq<Frame>, f: Frame)
    ensures Payload(frames + [f]) == Payload(frames) + Data(f)
  {
    assert (frames + [f])[..|frames|] == frames;
  }

  /** One chunk per line. */
  ghost function Sent(lines: seq<bytes>): (fs: seq<Frame>)
    ensures |fs| == |lines| && forall i | 0 <= i < |fs| :: fs[i] == Content(lines[i] + [LF])
  {
    seq(|lines|, i requires 0 <= i < |lines| => Content(lines[i] + [LF]))
  }

  lemma SentSnoc(lines: seq<bytes>, line: bytes)
    ensures Sent(lines + [line]) == Sent(lines) + [Content(line + [LF])]
  {
  }

  lemma {:induction false} SentCarries(lines: seq<bytes>)
    ensures Plain(Sent(lines)) && Payload(Sent(lines)) == Shown(lines)
  {
    if lines != [] {
      var front, last := lines[..|lines| - 1], lines[|lines| - 1];
      SentCarries(front);
      assert lines == front + [last];
      SentSnoc(front, last);
      ShownSnoc(front, last);
      PayloadSnoc(Sent(front), Content(last + [LF]));
    }
  }

  /**
   Line mode: one chunk per picked line. It ends in an Error exactly when the scan met a line that is too long
   before the loop had a reason to stop.
   */
  method GetLines(data: bytes, lineStart: int, lineEnd: int, maxBytes: int, hash: Hash) returns (frames: seq<Frame>)
    requires lineStart > 0 || lineEnd > 0
    ensures var r := Select(Tokens(data), 0, lineStart, lineEnd, maxBytes, 0);
            && Plain(Sent(r.lines)) && Payload(Sent(r.lines)) == Shown(r.lines)
            && frames == Sent(r.lines)
                         + if r.drained && Breaks(data) then [Error] else Ending(Shown(r.lines), r.truncated, hash)
  {
    var start := if lineStart == 0 then 1 else lineStart;
    var end := lineEnd;
    SelectFromOne(Tokens(data), 0, lineEnd, maxBytes, 0);
    ghost var all := Select(Tokens(data), 0, lineStart, lineEnd, maxBytes, 0);
    var scanner := Tokens(data);
    assert all == Resume([], scanner, 0, start, end, maxBytes, 0);
    var lineNo, total, truncated, drained := 0, 0, false, false;
    var hashed: bytes := [];
    ghost var lines: seq<bytes> := [];
    frames := [];
    while true
      invariant frames == Sent(lines) && total == |hashed| && hashed == Shown(lines)
      invariant lineNo <= |scanner| && all == Resume(lines, scanner, lineNo, start, end, maxBytes, total)
      decreases |scanner| - lineNo
    {
      if lineNo == |scanner| {
        drained := true;
        break;
      }
      ResumeNext(lines, scanner, lineNo, start, end, maxBytes, total);
      var line := scanner[lineNo];
      lineNo := lineNo + 1;
      if lineNo < start {
        continue;
      }
      if end > 0 && lineNo > end {
        break;
      }
      var out := line + [LF];
      if maxBytes > 0 && total + |out| > maxBytes {
        truncated := true;
        break;
      }
      SentSnoc(lines, line);
      ShownSnoc(lines, line);
      total, hashed, frames := total + |out|, hashed + out, frames + [Chunk(out, false, false, None)];
      lines := lines + [line];
    }
    assert lines + [] == lines;
    SentCarries(lines);
    if drained && Breaks(data) {
      frames := frames + [Error];
      return;
    }
    frames := frames + [Chunk([], true, truncated, Some(hash(hashed))), Result];
  }

  const CHUNK_SIZE := 64 * 1024

  /** The offset at which reading the file fails is reached before the end and before the byte cap. */
  predicate ReadFails(data: bytes, failsAt: Option<nat>, cap: int) {
    failsAt.Some? && failsAt.value <= |data| && (cap > 0 ==> failsAt.value < cap)
  }

  lemma NextPiece(data: bytes, at: nat, n: nat)
    requires at + n <= |data|
    ensures data[..at] + data[at..at + n] == data[..at + n]
  {
  }

  /** Chunks of bounded size with this payload. */
  ghost predicate Pieces(sent: seq<Frame>, payload: bytes) {
    Payload(sent) == payload && Plain(sent) && forall f <- sent :: f.Chunk? && |f.data| <= CHUNK_SIZE
  }

  lemma PiecesNext(sent: seq<Frame>, payload: bytes, chunk: bytes)
    requires Pieces(sent, payload) && 0 < |chunk| <= CHUNK_SIZE
    ensures Pieces(sent + [Content(chunk)], payload + chunk)
  {
    PayloadSnoc(sent, Content(chunk));
  }

  /** Such chunks, then `tail`. */
  ghost predicate Carries(frames: seq<Frame>, payload: bytes, tail: seq<Frame>) {
    && |frames| >= |tail| && frames[|frames| - |tail|..] == tail
    && Pieces(frames[..|frames| - |tail|], payload)
  }

  lemma CarriesTail(sent: seq<Frame>, payload: bytes, tail: seq<Frame>)
    requires Pieces(sent, payload)
    ensures Carries(sent + tail, payload, tail)
  {
    assert (sent + tail)[..|sent|] == sent && (sent + tail)[|sent|..] == tail;
  }

  /**
   Whole-file mode, for every way in which the reads split the file: what is sent is the prefix of the length of
   the cap, or the whole file. It is called truncated when the cap is reached, which includes a file of exactly
   that length.
   */
  method GetWhole(data: bytes, failsAt: Option<nat>, maxBytes: int, hash: Hash) returns (frames: seq<Frame>)
    ensures if ReadFails(data, failsAt, maxBytes) then
              Carries(frames, data[..failsAt.value], [Error])
            else
              var payload := if 0 < maxBytes < |data| then data[..maxBytes] else data;
              Carries(frames, payload, Ending(payload, 0 < maxBytes <= |data|, hash))
  {
    var total, truncated := 0, false;
    var hashed: bytes := [];
    frames := [];
    while true
      invariant total <= |data| && (maxBytes > 0 ==> total <= maxBytes)
      invariant failsAt.Some? ==> total <= failsAt.value || failsAt.value > |data|
      invariant hashed == data[..total] && Pieces(frames, hashed)
      decreases |data| - total
    {
      var toRead := CHUNK_SIZE;
      if maxBytes > 0 {
        var remaining := maxBytes - total;
        if remaining <= 0 {
          truncated := true;
          break;
        }
        toRead := Min(toRead, remaining);
      }
      if failsAt == Some(total) {
        CarriesTail(frames, hashed, [Error]);
        return frames + [Error];
      }
      if total == |data| {
        break;
      }
      var limit := if failsAt.Some? then Min(failsAt.value, |data|) else |data|;
      var given: nat := *;
      var n := Max(1, Min(given, Min(toRead, limit - total)));
      var chunk := data[total..total + n];
      PiecesNext(frames, hashed, chunk);
      NextPiece(data, total, n);
      hashed, total, frames := hashed + chunk, total + n, frames + [Chunk(chunk, false, false, None)];
    }
    assert data[..|data|] == data && !ReadFails(data, failsAt, maxBytes);
    assert truncated == (0 < maxBytes <= |data|) && hashed == if 0 < maxBytes < |data| then data[..maxBytes] else data;
    CarriesTail(frames, hashed, Ending(hashed, truncated, hash));
    frames := frames + [Chunk([], true, truncated, Some(hash(hashed))), Result];
  }

  // ---- the local twin ----

  /** `rsb cat` on a local file; a scan error is not reported. */
  method ApplyCatLimits(data: bytes, start: int, end: int, maxBytes: int) returns (shown: bytes, truncated: bool)
    ensures var r := Select(Tokens(data), 0, start, end, maxBytes, 0);
            shown == Shown(r.lines) && truncated == r.truncated
  {
    var scanner := Tokens(data);
    ghost var all := Select(scanner, 0, start, end, maxBytes, 0);
    assert all == Resume([], scanner, 0, start, end, maxBytes, 0);
    var lineNo, total := 0, 0;
    ghost var lines: seq<bytes> := [];
    shown := [];
    while lineNo < |scanner|
      invariant shown == Shown(lines) && total == |shown|
      invariant lineNo <= |scanner| && all == Resume(lines, scanner, lineNo, start, end, maxBytes, total)
    {
      ResumeNext(lines, scanner, lineNo, start, end, maxBytes, total);
      var line := scanner[lineNo];
      lineNo := lineNo + 1;
      if start > 0 && lineNo < start {
        continue;
      }
      if end > 0 && lineNo > end {
        return shown, false;
      }
      var out := line + [LF];
      if maxBytes > 0 && total + |out| > maxBytes {
        return shown, true;
      }
      ShownSnoc(lines, line);
      total := total + |out|;
      shown := shown + out;
      lines := lines + [line];
    }
    assert lines + [] == lines;
    truncated := false;
  }

  // ---- the client ----

  predicate Ends(f: Frame) {
    f.Result? || f.Error?
  }

  /** The last Done chunk. */
  function LastDone(frames: seq<Frame>): (d: Option<Frame>)
    ensures d.Some? ==> d.value.Chunk? && d.value.done && d.value in frames
  {
    if frames == [] then
      None
    else
      var f := frames[|frames| - 1];
      if f.Chunk? && f.done then Some(f) else LastDone(frames[..|frames| - 1])
  }

  /** What the client lets pass: no checksum, a truncated download, or the right checksum. */
  predicate Passes(frames: seq<Frame>, hash: Hash) {
    var d := LastDone(frames);
    d.Some? && d.value.sha.Some? && !d.value.truncated ==> hash(Payload(frames)) == d.value.sha.value
  }

  /** The index of the first Result or Error, or the end of the connection. */
  function Until(frames: seq<Frame>): (e: nat)
    ensures e <= |frames| && (forall k | 0 <= k < e :: !Ends(frames[k])) && (e < |frames| ==> Ends(frames[e]))
  {
    if frames == [] || Ends(frames[0]) then 0 else 1 + Until(frames[1..])
  }

  /** What the client knows after the frames `seen`. */
  ghost predicate Noted(seen: seq<Frame>, out: bytes, truncated: bool, sha: Option<nat>) {
    && out == Payload(seen)
    && var d := LastDone(seen);
    if d.Some? then truncated == d.value.truncated && sha == d.value.sha else !truncated && sha == None
  }

  lemma NotedNext(seen: seq<Frame>, f: Frame, out: bytes, truncated: bool, sha: Option<nat>)
    requires Noted(seen, out, truncated, sha)
    ensures if f.Chunk? && f.done then Noted(seen + [f], out + f.data, f.truncated, f.sha)
            else Noted(seen + [f], out + Data(f), truncated, sha)
  {
    PayloadSnoc(seen, f);
    assert (seen + [f])[..|seen|] == seen;
  }

  lemma TakeOneMore<T>(s: seq<T>, i: nat)
    requires i < |s|
    ensures s[..i + 1] == s[..i] + [s[i]]
  {
  }

  /** The client's loop over any frames. */
  method FileGet(frames: seq<Frame>, hash: Hash) returns (out: bytes, truncated: bool, ok: bool)
    ensures out == Payload(frames[..Until(frames)])
    ensures truncated <==>
              LastDone(frames[..Until(frames)]).Some? && LastDone(frames[..Until(frames)]).value.truncated
    ensures ok <==>
              Until(frames) < |frames| && frames[Until(frames)].Result? && Passes(frames[..Until(frames)], hash)
  {
    var sha: Option<nat>;
    out, truncated, sha, ok := [], false, None, false;
    ghost var e := Until(frames);
    var i := 0;
    while i < |frames|
      invariant i <= e && !ok && Noted(frames[..i], out, truncated, sha)
    {
      var f := frames[i];
      if f.Result? {
        ok := !(sha.Some? && sha.value != hash(out) && !truncated);
        break;
      }
      if f.Error? {
        break;
      }
      NotedNext(frames[..i], f, out, truncated, sha);
      TakeOneMore(frames, i);
      if f.Chunk? {
        out := out + f.data;
        if f.done {
          sha, truncated := f.sha, f.truncated;
        }
      } else {
        assert out + [] == out;
      }
      i := i + 1;
    }
    assert i == e;
  }

  // ---- from end to end ----

  /** A download that passes untruncated is complete if its Done chunk has arrived, with the content's checksum. */
  lemma PassedIsComplete(frames: seq<Frame>, hash: Hash, content: bytes)
    requires CollisionFree(hash) && Passes(frames, hash) && Vouches(LastDone(frames), content, hash)
    ensures Payload(frames) == content
  {
    assert hash(Payload(frames)) == hash(content);
  }

  /** The last Done chunk says what the content is. */
  predicate Vouches(done: Option<Frame>, content: bytes, hash: Hash) {
    done.Some? && done.value.Chunk? && done.value.sha == Some(hash(content)) && !done.value.truncated
  }

  predicate Body(frames: seq<Frame>) {
    forall f <- frames :: !Ends(f)
  }

  /** Another download with the same last Done chunk that passes and holds something else. */
  lemma Impostor(frames: seq<Frame>, hash: Hash, content: bytes) returns (other: seq<Frame>)
    requires Body(frames) && Passes(frames, hash) && !Vouches(LastDone(frames), content, hash)
    ensures Body(other) && LastDone(other) == LastDone(frames) && Passes(other, hash) && Payload(other) != content
  {
    var d := LastDone(frames);
    var more := Content(content + [LF]);
    assert [more][..0] == [];
    if d.None? {
      other := [more];
    } else if d.value.sha.None? || d.value.truncated {
      other := [more] + [d.value];
      assert other[..1] == [more];
      PayloadSnoc([more], d.value);
    } else {
      other := frames;
      assert hash(Payload(frames)) != hash(content);
    }
  }

  /**
   What the checksum is worth: among all downloads with the same last Done chunk, or with none, those that pass are
   the content, if and only if the chunk is there, carries the content's checksum, and is not marked truncated.
   */
  lemma CompleteExactly(frames: seq<Frame>, hash: Hash, content: bytes)
    requires CollisionFree(hash) && Body(frames) && Passes(frames, hash)
    ensures (forall other :: Body(other) && LastDone(other) == LastDone(frames) && Passes(other, hash) ==>
                               Payload(other) == content)
            <==> Vouches(LastDone(frames), content, hash)
  {
    if Vouches(LastDone(frames), content, hash) {
      forall other | Body(other) && LastDone(other) == LastDone(frames) && Passes(other, hash)
        ensures Payload(other) == content
      {
        PassedIsComplete(other, hash, content);
      }
    } else {
      var other := Impostor(frames, hash, content);
      assert Payload(other) != content;
    }
  }

  /** Without the Done chunk the client takes whatever chunks have come for the whole file. */
  method WithoutDone(sent: seq<Frame>, hash: Hash) returns (out: bytes, truncated: bool, ok: bool)
    requires Plain(sent)
    ensures ok && !truncated && out == Payload(sent)
  {
    var frames := sent + [Result];
    assert forall k | 0 <= k < |sent| :: frames[k] == sent[k] && sent[k] in sent;
    assert frames[|sent|] == Result && frames[..|sent|] == sent && LastDone(sent) == None;
    out, truncated, ok := FileGet(frames, hash);
  }

  lemma UntilAt(frames: seq<Frame>, e: nat)
    requires e < |frames| && Ends(frames[e]) && forall k | 0 <= k < e :: !Ends(frames[k])
    ensures Until(frames) == e
  {
  }

  /** Content chunks, a Done chunk without data, and the Result. */
  lemma Delivered(sent: seq<Frame>, d: Frame)
    requires Plain(sent) && d.Chunk? && d.done && d.data == []
    ensures var frames, e := sent + [d, Result], |sent| + 1;
            && Until(frames) == e && |frames| == e + 1 && frames[e] == Result && frames[..e] == sent + [d]
            && Payload(frames[..e]) == Payload(sent) && LastDone(frames[..e]) == Some(d)
  {
    var frames, e := sent + [d, Result], |sent| + 1;
    assert forall k | 0 <= k < |sent| :: frames[k] == sent[k] && sent[k] in sent;
    assert frames[|sent|] == d && frames[e] == Result && frames[..e] == sent + [d];
    UntilAt(frames, e);
    PayloadSnoc(sent, d);
    assert Payload(sent) + [] == Payload(sent) && (sent + [d])[..|sent|] == sent;
  }

  /** A truncated download passes whatever chunks have been lost: `kept` are those that came, before the Done chunk. */
  lemma TruncatedIsUnchecked(kept: seq<Frame>, payload: bytes, hash: Hash)
    requires Plain(kept)
    ensures var frames := kept + Ending(payload, true, hash);
            && Until(frames) == |kept| + 1 && frames[|kept| + 1].Result?
            && Passes(frames[..|kept| + 1], hash) && Payload(frames[..|kept| + 1]) == Payload(kept)
  {
    Delivered(kept, Ending(payload, true, hash)[0]);
  }

  /** What the agent sends up to its Result is what the client writes, and it passes. */
  lemma Arrives(sent: seq<Frame>, truncated: bool, hash: Hash)
    requires Plain(sent)
    ensures var frames, e := sent + Ending(Payload(sent), truncated, hash), |sent| + 1;
            && Until(frames) == e && |frames| == e + 1 && frames[e].Result?
            && Payload(frames[..e]) == Payload(sent) && Passes(frames[..e], hash)
            && LastDone(frames[..e]) == Some(Chunk([], true, truncated, Some(hash(Payload(sent)))))
  {
    Delivered(sent, Ending(Payload(sent), truncated, hash)[0]);
  }

  /** The same when the agent ends in an Error. */
  lemma Fails(sent: seq<Frame>)
    requires Plain(sent)
    ensures var frames := sent + [Error];
            Until(frames) == |sent| && frames[|sent|].Error? && frames[..|sent|] == sent && LastDone(sent) == None
  {
    assert forall k | 0 <= k < |sent| :: (sent + [Error])[k] == sent[k] && sent[k] in sent;
    assert (sent + [Error])[|sent|] == Error;
  }

  /**
   `rsb cat` with a line range shows the same bytes for a local and for a remote file, and reports truncation on
   the same inputs, whatever the file, the range and the cap: the longest run of whole requested lines that fits.
   Only a line that is too long makes a difference: the remote end reports it, the local one stops without a word.
   */
  method LocalAndRemote(data: bytes, start: int, end: int, cap: int, hash: Hash)
    returns (local: bytes, localTruncated: bool, remote: bytes, remoteTruncated: bool, ok: bool)
    requires start > 0 || end > 0
    ensures remote == local && remoteTruncated == localTruncated
    ensures var all := Slice(Tokens(data), start, end);
            exists n: nat :: Fits(all, cap, n) && local == Shown(all[..n]) && localTruncated == (n < |all|)
    ensures ok <==> !(Breaks(data) && Select(Tokens(data), 0, start, end, cap, 0).drained)
  {
    SelectMeans(Tokens(data), start, end, cap);
    local, localTruncated := ApplyCatLimits(data, start, end, cap);
    var frames := GetLines(data, start, end, cap, hash);
    ghost var r := Select(Tokens(data), 0, start, end, cap, 0);
    remote, remoteTruncated, ok := FileGet(frames, hash);
    if r.drained && Breaks(data) {
      Fails(Sent(r.lines));
    } else {
      Arrives(Sent(r.lines), r.truncated, hash);
    }
  }

  /** A remote file without limits arrives as it is. */
  method WholeFile(data: bytes, hash: Hash) returns (remote: bytes, truncated: bool, ok: bool)
    ensures ok && remote == data && !truncated
  {
    var frames := GetWhole(data, None, 0, hash);
    ghost var sent := frames[..|frames| - 2];
    assert frames == sent + Ending(data, false, hash);
    Arrives(sent, false, hash);
    remote, truncated, ok := FileGet(frames, hash);
  }

  lemma TakeCons(line: bytes, rest: seq<bytes>, cap: int, total: nat)
    requires cap > 0 ==> total + |line| + 1 <= cap
    ensures Take([line] + rest, cap, total) == [line] + Take(rest, cap, total + |line| + 1)
  {
    assert ([line] + rest)[1..] == rest;
  }

  lemma ShownCons(line: bytes, lines: seq<bytes>)
    ensures Shown([line] + lines) == line + [LF] + Shown(lines)
  {
    assert ([line] + lines)[1..] == lines;
  }

  // ---- without a line range ----

  /** Where `rsb cat` of a remote file ends. */
  function End(data: bytes, cap: int): (e: nat)
    ensures e <= |data|
  {
    if 0 < cap < |data| then cap else |data|
  }

  predicate WholeLine(data: bytes, i: nat)
    requires i <= |data|
  {
    var n := LineEnd(data, i);
    n < |data| && !TooLong(data, i) && LineStop(data, i) == n
  }

  /** From index `i` to `e`, the data consists of whole lines that end in a bare line feed and are not too long. */
  predicate Whole(data: bytes, i: nat, e: nat)
    requires i <= e <= |data|
    decreases |data| - i
  {
    i == e || (WholeLine(data, i) && LineEnd(data, i) < e && Whole(data, LineEnd(data, i) + 1, e))
  }

  datatype Cooked = Cooked(shown: bytes, left: bool)

  /** What the local loop shows from index `i` on, after `total` bytes, and whether a line is left over. */
  function Cook(data: bytes, i: nat, cap: int, total: nat): Cooked
    requires i <= |data|
    decreases |data| - i
  {
    var c := LineStop(data, i);
    if i == |data| || TooLong(data, i) then
      Cooked([], false)
    else if cap > 0 && total + (c - i) + 1 > cap then
      Cooked([], true)
    else
      var more := Cook(data, NextLine(data, i), cap, total + (c - i) + 1);
      Cooked(data[i..c] + [LF] + more.shown, more.left)
  }

  /** The two forms of the loop's meaning agree. */
  ghost predicate Meant(tokens: seq<bytes>, cap: int, total: nat, c: Cooked) {
    c.shown == Shown(Take(tokens, cap, total)) && c.left == (|Take(tokens, cap, total)| < |tokens|)
  }

  lemma MeantNext(line: bytes, rest: seq<bytes>, cap: int, total: nat, more: Cooked)
    requires Meant(rest, cap, total + |line| + 1, more) && (cap > 0 ==> total + |line| + 1 <= cap)
    ensures Meant([line] + rest, cap, total, Cooked(line + [LF] + more.shown, more.left))
  {
    TakeCons(line, rest, cap, total);
    ShownCons(line, Take(rest, cap, total + |line| + 1));
  }

  lemma MeantEnd(tokens: seq<bytes>, cap: int, total: nat)
    requires tokens == [] || (cap > 0 && total + |tokens[0]| + 1 > cap)
    ensures Meant(tokens, cap, total, Cooked([], tokens != []))
  {
  }

  lemma {:induction false} CookIsMeant(data: bytes, i: nat, cap: int, total: nat)
    requires i <= |data|
    ensures Meant(TokensFrom(data, i), cap, total, Cook(data, i, cap, total))
    decreases |data| - i
  {
    var c := LineStop(data, i);
    if i == |data| || TooLong(data, i) || (cap > 0 && total + (c - i) + 1 > cap) {
      MeantEnd(TokensFrom(data, i), cap, total);
    } else {
      var next := NextLine(data, i);
      CookIsMeant(data, next, cap, total + (c - i) + 1);
      MeantNext(data[i..c], TokensFrom(data, next), cap, total, Cook(data, next, cap, total + (c - i) + 1));
    }
  }

  /** A whole line that fits is shown as it is. */
  lemma CookFirst(data: bytes, i: nat, cap: int)
    requires i < |data| && WholeLine(data, i) && (cap > 0 ==> LineEnd(data, i) + 1 <= cap)
    ensures var n := LineEnd(data, i);
            var more := Cook(data, n + 1, cap, n + 1);
            Cook(data, i, cap, i) == Cooked(data[i..n + 1] + more.shown, more.left)
  {
    var n := LineEnd(data, i);
    WithFeed(data, i, n);
    assert NextLine(data, i) == n + 1 && i + (n - i) + 1 == n + 1;
  }

  lemma WithFeed(data: bytes, i: nat, n: nat)
    requires i <= n < |data| && data[n] == LF
    ensures data[i..n] + [LF] == data[i..n + 1]
  {
  }

  lemma Append(data: bytes, i: nat, n: nat, e: nat, more: bytes)
    requires i <= n <= e <= |data|
    ensures data[i..n] + more == data[i..e] <==> more == data[n..e]
  {
    assert (data[i..n] + more)[n - i..] == more;
    assert data[i..e][n - i..] == data[n..e] && data[i..e] == data[i..n] + data[n..e];
  }

  lemma RestDecides(data: bytes, i: nat, cap: int)
    requires i < End(data, cap) && WholeLine(data, i) && LineEnd(data, i) < End(data, cap)
    ensures var n, e := LineEnd(data, i), End(data, cap);
            && (Cook(data, i, cap, i).shown == data[i..e] <==> Cook(data, n + 1, cap, n + 1).shown == data[n + 1..e])
            && Cook(data, i, cap, i).left == Cook(data, n + 1, cap, n + 1).left
  {
    var n := LineEnd(data, i);
    CookFirst(data, i, cap);
    Append(data, i, n + 1, End(data, cap), Cook(data, n + 1, cap, n + 1).shown);
  }

  lemma {:induction false} WholeIsShown(data: bytes, i: nat, cap: int)
    requires i <= End(data, cap) && Whole(data, i, End(data, cap))
    ensures Cook(data, i, cap, i).shown == data[i..End(data, cap)]
    ensures Cook(data, i, cap, i).left == (0 < cap < |data| && !TooLong(data, cap))
    decreases |data| - i
  {
    if i < End(data, cap) {
      WholeIsShown(data, LineEnd(data, i) + 1, cap);
      RestDecides(data, i, cap);
    }
  }

  lemma NotThere(data: bytes, i: nat, c: nat, more: bytes, e: nat)
    requires i <= c <= |data| && i <= e <= |data| && (c < e ==> data[c] != LF)
    ensures data[i..c] + [LF] + more != data[i..e]
  {
    if c < e {
      assert (data[i..c] + [LF] + more)[c - i] == LF;
      assert data[i..e][c - i] == data[c];
    } else {
      assert |data[i..c] + [LF] + more| > |data[i..e]|;
    }
  }

  lemma FirstNotShown(data: bytes, i: nat, cap: int)
    requires i < End(data, cap) && (!WholeLine(data, i) || LineEnd(data, i) >= End(data, cap))
    ensures Cook(data, i, cap, i).shown != data[i..End(data, cap)]
  {
    var c, e := LineStop(data, i), End(data, cap);
    if !TooLong(data, i) && !(cap > 0 && i + (c - i) + 1 > cap) {
      NotThere(data, i, c, Cook(data, NextLine(data, i), cap, i + (c - i) + 1).shown, e);
    }
  }

  lemma {:induction false} NotWholeIsNotShown(data: bytes, i: nat, cap: int)
    requires i <= End(data, cap) && !Whole(data, i, End(data, cap))
    ensures Cook(data, i, cap, i).shown != data[i..End(data, cap)]
    decreases |data| - i
  {
    if WholeLine(data, i) && LineEnd(data, i) < End(data, cap) {
      assert !Whole(data, LineEnd(data, i) + 1, End(data, cap));
      NotWholeIsNotShown(data, LineEnd(data, i) + 1, cap);
      RestDecides(data, i, cap);
    } else {
      FirstNotShown(data, i, cap);
    }
  }

  /** What the local loop picks without a line range. */
  lemma SelectAll(data: bytes, cap: int)
    ensures var r, c := Select(Tokens(data), 0, 0, 0, cap, 0), Cook(data, 0, cap, 0);
            c.shown == Shown(r.lines) && c.left == r.truncated
  {
    SelectTakes(Tokens(data), 0, 0, 0, cap, 0);
    RequestedIsSlice(Tokens(data), 0, 0, 0);
    assert Tokens(data)[..|Tokens(data)|] == Tokens(data);
    CookIsMeant(data, 0, cap, 0);
  }

  /** The remote end without a line range. */
  method WholeRemote(data: bytes, cap: int, hash: Hash) returns (remote: bytes, truncated: bool, ok: bool)
    ensures ok && remote == data[..End(data, cap)] && truncated == (0 < cap <= |data|)
  {
    var frames := GetWhole(data, None, cap, hash);
    ghost var sent := frames[..|frames| - 2];
    assert data[..|data|] == data;
    assert frames == sent + Ending(data[..End(data, cap)], 0 < cap <= |data|, hash);
    Arrives(sent, 0 < cap <= |data|, hash);
    remote, truncated, ok := FileGet(frames, hash);
  }

  /**
   `rsb cat` without a line range: local and remote show the same bytes exactly when what the remote end sends, the
   file or its first `cap` bytes, consists of whole lines that end in a bare line feed and are not too long. They
   then differ in the report only when the cap is the file's length or a line that is too long comes next.
   */
  method WithoutRange(data: bytes, cap: int, hash: Hash)
    returns (local: bytes, localTruncated: bool, remote: bytes, remoteTruncated: bool, ok: bool)
    ensures ok && remote == data[..End(data, cap)] && remoteTruncated == (0 < cap <= |data|)
    ensures local == remote <==> Whole(data, 0, End(data, cap))
    ensures local == remote ==> localTruncated == (0 < cap < |data| && !TooLong(data, cap))
  {
    SelectAll(data, cap);
    assert data[0..End(data, cap)] == data[..End(data, cap)];
    if Whole(data, 0, End(data, cap)) {
      WholeIsShown(data, 0, cap);
    } else {
      NotWholeIsNotShown(data, 0, cap);
    }
    local, localTruncated := ApplyCatLimits(data, 0, 0, cap);
    remote, remoteTruncated, ok := WholeRemote(data, cap, hash);
  }

  // ---- a local file as it is ----

  predicate CrLfAt(data: bytes, i: nat) {
    i + 1 < |data| && data[i] == CR && data[i + 1] == LF
  }

  /** From index `i` on, complete lines that end in a bare line feed. */
  ghost predicate NormalFrom(data: bytes, i: nat) {
    (i < |data| ==> data[|data| - 1] == LF) && forall j: nat | j >= i :: !CrLfAt(data, j)
  }

  lemma NormalNext(data: bytes, i: nat)
    requires i < |data|
    ensures NormalFrom(data, i) <==>
              && LineEnd(data, i) < |data| && LineStop(data, i) == LineEnd(data, i)
              && NormalFrom(data, LineEnd(data, i) + 1)
  {
    var n := LineEnd(data, i);
    if n < |data| {
      if LineStop(data, i) != n {
        assert CrLfAt(data, n - 1);
      }
      forall j: nat | i <= j <= n && LineStop(data, i) == n
        ensures !CrLfAt(data, j)
      {
      }
    }
  }

  lemma {:induction false} NormalIsWhole(data: bytes, i: nat)
    requires i <= |data|
    ensures NormalFrom(data, i) && !BreaksFrom(data, i) <==> Whole(data, i, |data|)
    decreases |data| - i
  {
    if i < |data| && !TooLong(data, i) {
      NormalNext(data, i);
      if LineEnd(data, i) < |data| {
        NormalIsWhole(data, LineEnd(data, i) + 1);
      }
    }
  }

  lemma {:induction false} TakeAll(lines: seq<bytes>, total: nat)
    ensures Take(lines, 0, total) == lines
  {
    if lines != [] {
      TakeAll(lines[1..], total + |lines[0]| + 1);
    }
  }

  /**
   Without limits, `rsb cat` shows a local file as it is, like a remote one, exactly when its lines are complete, end in
   a bare line feed, and are not too long.
   */
  lemma NormalForm(data: bytes)
    ensures Shown(Tokens(data)) == data <==> NormalFrom(data, 0) && !Breaks(data)
  {
    TakeAll(Tokens(data), 0);
    CookIsMeant(data, 0, 0, 0);
    NormalIsWhole(data, 0);
    assert data[0..|data|] == data;
    if Whole(data, 0, |data|) {
      WholeIsShown(data, 0, 0);
    } else {
      NotWholeIsNotShown(data, 0, 0);
    }
  }
}
