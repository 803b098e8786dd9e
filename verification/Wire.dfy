/**
 `writeFrame` at the level of bytes: any number of goroutines call it, the lock holder writes its frame in two
 pieces, and the pipe may break in the middle of either. Whatever the interleaving, a reader of the bytes gets
 the completed frames, each goroutine's own in the order of its calls.
 */
module Wire {
  import opened Basics
  import opened Framing

  type Tid = nat

  /** The goroutine inside the lock, its frame, and how many bytes of it are out. */
  datatype Holder<F> = Holder(t: Tid, f: F, sent: nat)

  datatype State<F> = State(
    out: bytes,
    holder: Option<Holder<F>>,
    waiting: map<Tid, F>,
    stuck: Option<Holder<F>>,       // the frame the pipe broke in, and how much of it got out
    // history
    called: seq<(Tid, F)>,          // calls whose frame can be sent, in call order
    completed: seq<(Tid, F)>)       // frames entirely written, in order

  datatype Step<F> =
    | Call(t: Tid, f: F)
    | Acquire(t: Tid)
    | Refuse              // marshal error or frame too large: nothing is written
    | Header
    | Payload
    | Break(k: nat)       // the pipe takes k more bytes and breaks
    | WriteError          // any write after that
    | Release

  function Init<F>(): State<F> {
    State([], None, map[], None, [], [])
  }

  predicate Enabled<F(!new)>(c: Codec<F>, s: State<F>, st: Step<F>) {
    match st
    case Call(t, _) => t !in s.waiting && (s.holder.Some? ==> s.holder.value.t != t)
    case Acquire(t) => t in s.waiting && s.holder.None?
    case Refuse => s.holder.Some? && s.holder.value.sent == 0 && !Sendable(c, s.holder.value.f)
    case Header => s.holder.Some? && s.holder.value.sent == 0 && Sendable(c, s.holder.value.f) && s.stuck.None?
    case Payload => s.holder.Some? && s.holder.value.sent == 4 && Sendable(c, s.holder.value.f) && s.stuck.None?
    case Break(k) =>
      && s.holder.Some? && Sendable(c, s.holder.value.f) && s.stuck.None?
      && (s.holder.value.sent == 0 || s.holder.value.sent == 4)
      && s.holder.value.sent + k < |Encoding(c, s.holder.value.f)|
      && (s.holder.value.sent == 0 ==> k < 4)
    case WriteError => s.holder.Some? && s.holder.value.sent == 0 && Sendable(c, s.holder.value.f) && s.stuck.Some?
    case Release => s.holder.Some? && Sendable(c, s.holder.value.f) && s.holder.value.sent > 4
  }

  function Do<F(!new)>(c: Codec<F>, s: State<F>, st: Step<F>): State<F>
    requires Enabled(c, s, st)
  {
    match st
    case Call(t, f) =>
      s.(waiting := s.waiting[t := f], called := if Sendable(c, f) then s.called + [(t, f)] else s.called)
    case Acquire(t) => s.(holder := Some(Holder(t, s.waiting[t], 0)), waiting := s.waiting - {t})
    case Refuse => s.(holder := None)
    case Header =>
      var h := s.holder.value;
      s.(out := s.out + PutUint32(|c.enc(h.f).value|), holder := Some(h.(sent := 4)))
    case Payload =>
      var h := s.holder.value;
      s.(out := s.out + c.enc(h.f).value, holder := Some(h.(sent := |Encoding(c, h.f)|)),
         completed := s.completed + [(h.t, h.f)])
    case Break(k) =>
      var h := s.holder.value;
      s.(out := s.out + Encoding(c, h.f)[h.sent..h.sent + k], holder := None, stuck := Some(h.(sent := h.sent + k)))
    case WriteError => s.(holder := None)
    case Release => s.(holder := None)
  }

  function RunOf<F(!new)>(c: Codec<F>, steps: seq<Step<F>>): Option<State<F>> {
    if steps == [] then
      Some(Init())
    else
      var before := RunOf(c, steps[..|steps| - 1]);
      var st := steps[|steps| - 1];
      if before.Some? && Enabled(c, before.value, st) then Some(Do(c, before.value, st)) else None
  }

  /** The frames of a log, without their writers. */
  function Frames<F>(log: seq<(Tid, F)>): (fs: seq<F>)
    ensures |fs| == |log| && forall i | 0 <= i < |log| :: fs[i] == log[i].1
  {
    seq(|log|, i requires 0 <= i < |log| => log[i].1)
  }

  /** The frame that `t` has handed over and that is not yet on the wire. */
  function InFlight<F(!new)>(c: Codec<F>, s: State<F>, t: Tid): seq<F> {
    if t in s.waiting then
      if Sendable(c, s.waiting[t]) then [s.waiting[t]] else []
    else if s.holder.Some? && s.holder.value.t == t && s.holder.value.sent <= 4 && Sendable(c, s.holder.value.f) then
      [s.holder.value.f]
    else
      []
  }

  /** The part of an incomplete frame that is out. */
  function Partial<F(!new)>(c: Codec<F>, s: State<F>): bytes {
    var h := if s.stuck.Some? then s.stuck else s.holder;
    if h.Some? && Sendable(c, h.value.f) && h.value.sent < |Encoding(c, h.value.f)| then
      Encoding(c, h.value.f)[..h.value.sent]
    else
      []
  }

  ghost predicate Inv<F(!new)>(c: Codec<F>, s: State<F>) {
    && BytesOk(c, s)
    && (s.holder.Some? ==>
          && s.holder.value.t !in s.waiting
          && (s.holder.value.sent == 0
              || (Sendable(c, s.holder.value.f) && (s.holder.value.sent == 4
                                                    || s.holder.value.sent == |Encoding(c, s.holder.value.f)|))))
    && (s.stuck.Some? ==>
          && Sendable(c, s.stuck.value.f) && s.stuck.value.sent < |Encoding(c, s.stuck.value.f)|
          && (s.holder.Some? ==> s.holder.value.sent == 0))
    && (forall t :: if s.stuck.None? then Project(s.called, t) == Project(s.completed, t) + InFlight(c, s, t)
                    else Project(s.completed, t) <= Project(s.called, t))
  }

  /** Every byte that is out belongs to a completed frame or to the one that is incomplete. */
  ghost predicate BytesOk<F(!new)>(c: Codec<F>, s: State<F>) {
    && (forall f <- Frames(s.completed) :: Sendable(c, f))
    && s.out == EncodeAll(c, Frames(s.completed)) + Partial(c, s)
  }

  /** The payload completes the holder's frame. */
  lemma PayloadBytes<F(!new)>(c: Codec<F>, s: State<F>)
    requires c.Valid() && Inv(c, s) && Enabled(c, s, Payload)
    ensures BytesOk(c, Do(c, s, Payload))
  {
    var u, h := Do(c, s, Payload), s.holder.value;
    assert Frames(u.completed) == Frames(s.completed) + [h.f];
    assert Frames(u.completed)[..|s.completed|] == Frames(s.completed);
    assert Encoding(c, h.f) == Encoding(c, h.f)[..4] + c.enc(h.f).value;
  }

  lemma MoreOfFrame(before: bytes, e: bytes, i: nat, j: nat)
    requires i <= j <= |e|
    ensures before + e[..i] + e[i..j] == before + e[..j]
  {
    assert e[..i] + e[i..j] == e[..j];
  }

  lemma BreakBytes<F(!new)>(c: Codec<F>, s: State<F>, k: nat)
    requires c.Valid() && Inv(c, s) && Enabled(c, s, Break(k))
    ensures BytesOk(c, Do(c, s, Break(k)))
  {
    var h, u := s.holder.value, Do(c, s, Break(k));
    MoreOfFrame(EncodeAll(c, Frames(s.completed)), Encoding(c, h.f), h.sent, h.sent + k);
    assert Partial(c, u) == Encoding(c, h.f)[..h.sent + k];
  }

  lemma HeaderBytes<F(!new)>(c: Codec<F>, s: State<F>)
    requires c.Valid() && Inv(c, s) && Enabled(c, s, Header)
    ensures BytesOk(c, Do(c, s, Header))
  {
    assert Encoding(c, s.holder.value.f)[..4] == PutUint32(|c.enc(s.holder.value.f).value|);
  }

  lemma QuietBytes<F(!new)>(c: Codec<F>, s: State<F>, st: Step<F>)
    requires c.Valid() && Inv(c, s) && Enabled(c, s, st) && !st.Payload? && !st.Break? && !st.Header?
    ensures BytesOk(c, Do(c, s, st))
  {
  }

  /** The bytes a step adds, and the frame it completes. */
  lemma BytesKept<F(!new)>(c: Codec<F>, s: State<F>, st: Step<F>)
    requires c.Valid() && Inv(c, s) && Enabled(c, s, st)
    ensures BytesOk(c, Do(c, s, st))
  {
    match st
    case Payload => PayloadBytes(c, s);
    case Break(k) => BreakBytes(c, s, k);
    case Header => HeaderBytes(c, s);
    case _ => QuietBytes(c, s, st);
  }

  lemma CallsKept<F(!new)>(c: Codec<F>, s: State<F>, st: Step<F>, t: Tid)
    requires c.Valid() && Inv(c, s) && Enabled(c, s, st)
    ensures var u := Do(c, s, st);
            if u.stuck.None? then Project(u.called, t) == Project(u.completed, t) + InFlight(c, u, t)
            else Project(u.completed, t) <= Project(u.called, t)
  {
    match st
    case Call(v, f) =>
      ProjectSnoc(s.called, (v, f), t);
    case Payload =>
      ProjectSnoc(s.completed, (s.holder.value.t, s.holder.value.f), t);
    case _ =>
  }

  lemma StepKeeps<F(!new)>(c: Codec<F>, s: State<F>, st: Step<F>)
    requires c.Valid() && Inv(c, s) && Enabled(c, s, st)
    ensures Inv(c, Do(c, s, st))
  {
    BytesKept(c, s, st);
    forall t {
      CallsKept(c, s, st, t);
    }
  }

  lemma {:induction false} RunKeeps<F(!new)>(c: Codec<F>, steps: seq<Step<F>>)
    requires c.Valid()
    ensures RunOf(c, steps).Some? ==> Inv(c, RunOf(c, steps).value)
  {
    if steps != [] {
      RunKeeps(c, steps[..|steps| - 1]);
      if RunOf(c, steps).Some? {
        StepKeeps(c, RunOf(c, steps[..|steps| - 1]).value, steps[|steps| - 1]);
      }
    }
  }

  /** Nobody is ever stuck: what comes next for whoever waits or holds the lock is decided by the frame and the pipe. */
  lemma WriterMoves<F(!new)>(c: Codec<F>, s: State<F>, t: Tid)
    requires c.Valid() && Inv(c, s)
    ensures s.holder.None? && t in s.waiting ==> Enabled(c, s, Acquire(t))
    ensures s.holder.Some? ==>
              var f, sent := s.holder.value.f, s.holder.value.sent;
              if sent > 4 then Enabled(c, s, Release)
              else if sent == 4 then Enabled(c, s, Payload) && (c.enc(f).value != [] ==> Enabled(c, s, Break(0)))
              else if !Sendable(c, f) then Enabled(c, s, Refuse)
              else if s.stuck.Some? then Enabled(c, s, WriteError)
              else Enabled(c, s, Header) && forall k: nat | k < 4 :: Enabled(c, s, Break(k))
  {
  }

  /** The calls among these steps whose frame can be sent, in order. */
  function CalledBy<F(!new)>(c: Codec<F>, steps: seq<Step<F>>): seq<(Tid, F)> {
    if steps == [] then
      []
    else
      var st := steps[|steps| - 1];
      CalledBy(c, steps[..|steps| - 1]) + if st.Call? && Sendable(c, st.f) then [(st.t, st.f)] else []
  }

  lemma {:induction false} CalledAreCalls<F(!new)>(c: Codec<F>, steps: seq<Step<F>>)
    requires RunOf(c, steps).Some?
    ensures RunOf(c, steps).value.called == CalledBy(c, steps)
  {
    if steps != [] {
      CalledAreCalls(c, steps[..|steps| - 1]);
      CalledMoves(c, RunOf(c, steps[..|steps| - 1]).value, steps[|steps| - 1]);
    }
  }

  /** No step is idle. */
  lemma CalledMoves<F(!new)>(c: Codec<F>, s: State<F>, st: Step<F>)
    requires Enabled(c, s, st)
    ensures Do(c, s, st).called == s.called + if st.Call? && Sendable(c, st.f) then [(st.t, st.f)] else []
    ensures Do(c, s, st) != s
  {
    if st.Call? {
      assert st.t !in s.waiting && st.t in Do(c, s, st).waiting;
    }
  }

  /**
   Wire atomicity: in every reachable state the bytes decode to exactly the completed frames, followed by less
   than one frame; and each goroutine's frames are among them in the order of its calls, all of them when it is
   not inside writeFrame and the pipe holds.
   */
  lemma WireAtomic<F(!new)>(c: Codec<F>, steps: seq<Step<F>>, t: Tid)
    requires c.Valid() && RunOf(c, steps).Some?
    ensures var s := RunOf(c, steps).value;
            && s.called == CalledBy(c, steps)
            && DecodeAll(c, s.out).0 == Frames(s.completed)
            && Project(s.completed, t) <= Project(s.called, t)
            && (s.stuck.None? && t !in s.waiting && (s.holder.Some? ==> s.holder.value.t != t) ==>
                  Project(s.completed, t) == Project(s.called, t))
  {
    RunKeeps(c, steps);
    CalledAreCalls(c, steps);
    var s := RunOf(c, steps).value;
    var h := if s.stuck.Some? then s.stuck else s.holder;
    if h.Some? && Sendable(c, h.value.f) && h.value.sent < |Encoding(c, h.value.f)| {
      DecodeCut(c, Frames(s.completed), h.value.f, h.value.sent);
    } else {
      RoundTrip(c, Frames(s.completed));
      assert EncodeAll(c, Frames(s.completed)) + [] == EncodeAll(c, Frames(s.completed));
    }
  }
}
