/**
 The wire format: a frame is its JSON text behind a 4-byte big-endian length. The JSON layer is a parameter,
 an encoder that may fail and a decoder that undoes it; everything else is what WriteFrame and ReadFrame do
 to the bytes, whatever pieces a reader delivers them in.
 */
module Framing {
  import opened Basics

  const MAX_PAYLOAD := 64 * 1024 * 1024

  /** encoding/json on Frame values. */
  datatype Codec<!F(!new)> = Codec(enc: F -> Option<bytes>, dec: bytes -> Option<F>) {
    ghost predicate Valid() {
      forall f :: enc(f).Some? ==> enc(f).value != [] && dec(enc(f).value) == Some(f)
    }
  }

  // ---- the length prefix ----

  /** binary.BigEndian.PutUint32(uint32(n)): the conversion keeps the length modulo 2^32. */
  function PutUint32(n: nat): bytes {
    var v := n % 0x1_0000_0000;
    [(v / 0x100_0000) as byte, (v / 0x1_0000 % 0x100) as byte, (v / 0x100 % 0x100) as byte, (v % 0x100) as byte]
  }

  function Uint32(b: bytes): nat
    requires |b| == 4
  {
    (b[0] as int) * 0x100_0000 + (b[1] as int) * 0x1_0000 + (b[2] as int) * 0x100 + b[3] as int
  }

  lemma DivideTwice(v: nat)
    ensures v / 0x1_0000 == v / 0x100 / 0x100
  {
    assert v == (v / 0x100 / 0x100) * 0x1_0000 + (v / 0x100 % 0x100) * 0x100 + v % 0x100;
  }

  /** A length that passed the MaxPayload check comes back as it was. */
  lemma Uint32RoundTrip(n: nat)
    requires n <= MAX_PAYLOAD
    ensures Uint32(PutUint32(n)) == n
  {
    DivideTwice(n);
    DivideTwice(n / 0x100);
    assert n / 0x100_0000 == n / 0x100 / 0x1_0000;
  }

  // ---- WriteFrame ----

  datatype WriteError = Marshal | TooLarge

  datatype Written = Wrote | Refused(error: WriteError)

  predicate Sendable<F(!new)>(c: Codec<F>, f: F) {
    c.enc(f).Some? && |c.enc(f).value| <= MAX_PAYLOAD
  }

  function Encoding<F(!new)>(c: Codec<F>, f: F): bytes
    requires Sendable(c, f)
  {
    PutUint32(|c.enc(f).value|) + c.enc(f).value
  }

  /** What `frames` look like on the wire, one after the other. */
  function EncodeAll<F(!new)>(c: Codec<F>, frames: seq<F>): bytes
    requires forall f <- frames :: Sendable(c, f)
  {
    if frames == [] then [] else EncodeAll(c, frames[..|frames| - 1]) + Encoding(c, frames[|frames| - 1])
  }

  class Writer {
    var sent: bytes

    constructor ()
      ensures sent == []
    {
      sent := [];
    }

    method Write(data: bytes)
      modifies this
      ensures sent == old(sent) + data
    {
      sent := sent + data;
    }
  }

  method WriteFrame<F(!new)>(c: Codec<F>, w: Writer, f: F) returns (r: Written)
    modifies w
    ensures r == if c.enc(f).None? then Refused(Marshal)
                 else if |c.enc(f).value| > 64 * 1024 * 1024 then Refused(TooLarge) else Wrote
    ensures w.sent == old(w.sent) + if Sendable(c, f) then Encoding(c, f) else []
  {
    var json := c.enc(f);
    if json.None? {
      return Refused(Marshal);
    }
    if |json.value| > MAX_PAYLOAD {
      return Refused(TooLarge);
    }
    w.Write(PutUint32(|json.value|));
    w.Write(json.value);
    return Wrote;
  }

  // ---- ReadFrame ----

  datatype ReadError = EOF | UnexpectedEOF | BadLength | BadJson

  datatype ReadResult<+F> = Got(frame: F) | Fail(error: ReadError)

  /** io.ReadFull of `n` bytes at the end of stream: io.EOF when not even one byte came. */
  function ShortRead(got: nat): ReadError {
    if got == 0 then EOF else UnexpectedEOF
  }

  /** What ReadFrame returns when `data` is all that is still to come, and how many bytes it consumes. */
  function ReadOf<F(!new)>(c: Codec<F>, data: bytes): (ReadResult<F>, nat) {
    if |data| < 4 then
      (Fail(ShortRead(|data|)), |data|)
    else
      var n := Uint32(data[..4]);
      if n == 0 || n > MAX_PAYLOAD then
        (Fail(BadLength), 4)
      else if |data| < 4 + n then
        (Fail(ShortRead(|data| - 4)), |data|)
      else
        var f := c.dec(data[4..4 + n]);
        (if f.Some? then Got(f.value) else Fail(BadJson), 4 + n)
  }

  /** A byte stream that hands out its bytes in arbitrary pieces. */
  class Reader {
    var rest: bytes

    constructor (data: bytes)
      ensures rest == data
    {
      rest := data;
    }

    /** io.Reader.Read: some bytes, at most `max`, or none at the end of the stream. */
    method Read(max: nat) returns (chunk: bytes)
      requires max > 0
      modifies this
      ensures |chunk| <= max && old(rest) == chunk + rest
      ensures chunk == [] <==> old(rest) == []
    {
      if rest == [] {
        return [];
      }
      var k: nat :| 1 <= k <= max && k <= |rest|;
      chunk, rest := rest[..k], rest[k..];
    }

    /** io.ReadFull: loops until `n` bytes are there or the stream ends. */
    method ReadFull(n: nat) returns (buf: bytes)
      modifies this
      ensures buf == old(rest)[..Min(n, |old(rest)|)] && old(rest) == buf + rest
    {
      buf := [];
      while |buf| < n
        invariant |buf| <= n && old(rest) == buf + rest
        decreases n - |buf|
      {
        var chunk := Read(n - |buf|);
        if chunk == [] {
          return;
        }
        buf := buf + chunk;
      }
    }
  }

  /** The result depends on the bytes only, not on the pieces they arrive in. */
  method ReadFrame<F(!new)>(c: Codec<F>, r: Reader) returns (res: ReadResult<F>)
    modifies r
    ensures res == ReadOf(c, old(r.rest)).0
    ensures r.rest == old(r.rest)[ReadOf(c, old(r.rest)).1..]
  {
    ghost var all := r.rest;
    var header := r.ReadFull(4);
    if |header| < 4 {
      return Fail(ShortRead(|header|));
    }
    assert header == all[..4] && r.rest == all[4..];
    var n := Uint32(header);
    if n == 0 || n > MAX_PAYLOAD {
      return Fail(BadLength);
    }
    var buf := r.ReadFull(n);
    if |buf| < n {
      return Fail(ShortRead(|buf|));
    }
    assert buf == all[4..4 + n] && r.rest == all[4 + n..];
    var f := c.dec(buf);
    if f.None? {
      return Fail(BadJson);
    }
    return Got(f.value);
  }

  lemma ReadConsumes<F(!new)>(c: Codec<F>, data: bytes)
    ensures ReadOf(c, data).0.Got? ==> 4 < ReadOf(c, data).1
    ensures ReadOf(c, data).1 <= |data|
  {
  }

  /** All frames up to the first error, and that error. */
  function DecodeAll<F(!new)>(c: Codec<F>, data: bytes): (seq<F>, ReadError)
    decreases |data|
  {
    var (r, n) := ReadOf(c, data);
    if r.Fail? then
      ([], r.error)
    else
      var (fs, e) := DecodeAll(c, data[n..]);
      ([r.frame] + fs, e)
  }

  /** The reader loop of the daemon and of the agent. */
  method ReadAll<F(!new)>(c: Codec<F>, r: Reader) returns (frames: seq<F>, error: ReadError)
    modifies r
    ensures (frames, error) == DecodeAll(c, old(r.rest))
  {
    frames := [];
    assert frames + DecodeAll(c, r.rest).0 == DecodeAll(c, r.rest).0;
    while true
      invariant (frames + DecodeAll(c, r.rest).0, DecodeAll(c, r.rest).1) == DecodeAll(c, old(r.rest))
      decreases |r.rest|
    {
      ghost var before := r.rest;
      ReadConsumes(c, before);
      var res := ReadFrame(c, r);
      if res.Fail? {
        assert frames + [] == frames;
        return frames, res.error;
      }
      assert frames + [res.frame] + DecodeAll(c, r.rest).0 == frames + ([res.frame] + DecodeAll(c, r.rest).0);
      frames := frames + [res.frame];
    }
  }

  // ---- what the framing guarantees ----

  lemma ReadEncoded<F(!new)>(c: Codec<F>, f: F, rest: bytes)
    requires c.Valid() && Sendable(c, f)
    ensures ReadOf(c, Encoding(c, f) + rest) == (Got(f), |Encoding(c, f)|)
    ensures (Encoding(c, f) + rest)[|Encoding(c, f)|..] == rest
  {
    var json := c.enc(f).value;
    var data := Encoding(c, f) + rest;
    Uint32RoundTrip(|json|);
    assert data[..4] == PutUint32(|json|);
    assert data[4..4 + |json|] == json;
  }

  /** A frame cut off anywhere gives no frame; the error is io.EOF exactly at its start and right after its length. */
  lemma ReadCut<F(!new)>(c: Codec<F>, f: F, k: nat)
    requires c.Valid() && Sendable(c, f) && k < |Encoding(c, f)|
    ensures ReadOf(c, Encoding(c, f)[..k]).0 == Fail(if k == 0 || k == 4 then EOF else UnexpectedEOF)
  {
    var json := c.enc(f).value;
    Uint32RoundTrip(|json|);
    if k >= 4 {
      assert Encoding(c, f)[..k][..4] == PutUint32(|json|);
    }
  }

  lemma {:induction false} EncodeAllCons<F(!new)>(c: Codec<F>, f: F, fs: seq<F>)
    requires Sendable(c, f) && forall g <- fs :: Sendable(c, g)
    ensures EncodeAll(c, [f] + fs) == Encoding(c, f) + EncodeAll(c, fs)
  {
    if fs == [] {
      assert [f] + fs == [] + [f];
      assert [f][..0] == [];
    } else {
      var front := fs[..|fs| - 1];
      EncodeAllCons(c, f, front);
      assert ([f] + fs)[..|fs|] == [f] + front;
    }
  }

  /**
   Decoding whole frames followed by `k` bytes of one more frame returns exactly the whole frames; io.EOF means
   that nothing, or a bare length, came after them.
   */
  lemma {:induction false} DecodeCut<F(!new)>(c: Codec<F>, fs: seq<F>, f: F, k: nat)
    requires c.Valid() && Sendable(c, f) && (forall g <- fs :: Sendable(c, g)) && k < |Encoding(c, f)|
    ensures DecodeAll(c, EncodeAll(c, fs) + Encoding(c, f)[..k])
         == (fs, if k == 0 || k == 4 then EOF else UnexpectedEOF)
    decreases |fs|
  {
    var tail := Encoding(c, f)[..k];
    if fs == [] {
      ReadCut(c, f, k);
      assert EncodeAll(c, fs) + tail == tail;
    } else {
      assert fs == [fs[0]] + fs[1..];
      EncodeAllCons(c, fs[0], fs[1..]);
      ReadEncoded(c, fs[0], EncodeAll(c, fs[1..]) + tail);
      assert EncodeAll(c, fs) + tail == Encoding(c, fs[0]) + (EncodeAll(c, fs[1..]) + tail);
      DecodeCut(c, fs[1..], f, k);
    }
  }

  /** Round trip: the frames written are the frames read, and the stream then ends cleanly. */
  lemma {:induction false} RoundTrip<F(!new)>(c: Codec<F>, fs: seq<F>)
    requires c.Valid() && forall g <- fs :: Sendable(c, g)
    ensures DecodeAll(c, EncodeAll(c, fs)) == (fs, EOF)
    decreases |fs|
  {
    if fs != [] {
      assert fs == [fs[0]] + fs[1..];
      EncodeAllCons(c, fs[0], fs[1..]);
      ReadEncoded(c, fs[0], EncodeAll(c, fs[1..]));
      RoundTrip(c, fs[1..]);
    }
  }

  /** Any truncation of a written stream is whole frames followed by a proper part of the next. */
  lemma {:induction false} CutPosition<F(!new)>(c: Codec<F>, fs: seq<F>, n: nat) returns (m: nat, k: nat)
    requires (forall g <- fs :: Sendable(c, g)) && n < |EncodeAll(c, fs)|
    ensures m < |fs| && k < |Encoding(c, fs[m])|
    ensures EncodeAll(c, fs)[..n] == EncodeAll(c, fs[..m]) + Encoding(c, fs[m])[..k]
    decreases |fs|
  {
    var front, last := fs[..|fs| - 1], fs[|fs| - 1];
    var whole := EncodeAll(c, front);
    if n < |whole| {
      m, k := CutPosition(c, front, n);
      assert front[..m] == fs[..m];
      assert EncodeAll(c, fs)[..n] == whole[..n];
    } else {
      m, k := |front|, n - |whole|;
      assert EncodeAll(c, fs)[..n] == whole + Encoding(c, last)[..k];
    }
  }

  /**
   A stream cut after `n` bytes decodes to a proper prefix of its frames and then ends in an error, io.EOF iff
   the cut is at a frame boundary or right behind a bare length.
   */
  lemma Truncation<F(!new)>(c: Codec<F>, fs: seq<F>, n: nat)
    requires c.Valid() && (forall g <- fs :: Sendable(c, g)) && n < |EncodeAll(c, fs)|
    ensures var (got, e) := DecodeAll(c, EncodeAll(c, fs)[..n]);
            && got < fs
            && (e == EOF || e == UnexpectedEOF)
            && (e == EOF <==> n == |EncodeAll(c, got)| || n == |EncodeAll(c, got)| + 4)
  {
    var m, k := CutPosition(c, fs, n);
    DecodeCut(c, fs[..m], fs[m], k);
  }
}
