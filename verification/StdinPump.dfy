/**
 The path of a process's stdin through the agent: the reader loop feeds a bounded channel, EndStdin or the end of
 the command closes the EOF signal, and a pump moves chunks into the process's pipe. Every interleaving of the
 feeder, the signallers, the pump and the process closing its end is a run here.
 */
module StdinPump {
  import opened Basics

  const CAPACITY := 16

  datatype Pump =
    | Waiting                  // stdin pipe not wired yet
    | Loop                     // in select
    | Got(chunk: bytes)        // took a chunk, about to write it
    | Draining                 // saw EOF, in drainStdinCh
    | DrainGot(chunk: bytes)
    | Closed                   // channel drained, pipe closed
    | Aborted(chunk: bytes)    // a write failed for another reason than a closed pipe

  /** `gone`: the process no longer reads; writes then fail with a closed-pipe error, which the pump ignores. */
  datatype State = State(
    ch: seq<bytes>,
    eof: bool,               // eofCh is closed
    pump: Pump,
    gone: bool,
    // history
    closes: nat,             // how often eofCh was closed
    written: seq<bytes>,     // chunks the process's pipe took
    ignored: seq<bytes>,     // chunks written to a closed pipe
    accepted: seq<bytes>,    // chunks feedStdin put into the channel
    atEof: nat)              // how many, when eofCh was closed

  datatype Step =
    | Feed(chunk: bytes)
    | SignalEOF
    | ProcessCloses
    | Wire
    | Take
    | SeeEOF
    | Write
    | WriteFails
    | DrainEnd

  const INIT := State([], false, Waiting, false, 0, [], [], [], 0)

  predicate Enabled(s: State, st: Step) {
    match st
    case Feed(_) => true
    case SignalEOF => true
    case ProcessCloses => true
    case Wire => s.pump.Waiting?
    case Take => (s.pump.Loop? || s.pump.Draining?) && s.ch != []
    case SeeEOF => s.pump.Loop? && s.eof
    case Write => s.pump.Got? || s.pump.DrainGot?
    case WriteFails => s.pump.Got? || s.pump.DrainGot?
    case DrainEnd => s.pump.Draining? && s.ch == []
  }

  function Do(s: State, st: Step): State
    requires Enabled(s, st)
  {
    match st
    case Feed(chunk) =>
      if |s.ch| < CAPACITY then s.(ch := s.ch + [chunk], accepted := s.accepted + [chunk]) else s
    case SignalEOF =>  // sync.Once
      if s.eof then s else s.(eof := true, closes := s.closes + 1, atEof := |s.accepted|)
    case ProcessCloses => s.(gone := true)
    case Wire => s.(pump := Loop)
    case Take => s.(ch := s.ch[1..], pump := if s.pump.Loop? then Got(s.ch[0]) else DrainGot(s.ch[0]))
    case SeeEOF => s.(pump := Draining)
    case Write =>
      var s1 := s.(pump := if s.pump.Got? then Loop else Draining);
      if s.gone then s1.(ignored := s.ignored + [s.pump.chunk]) else s1.(written := s.written + [s.pump.chunk])
    case WriteFails => s.(pump := Aborted(s.pump.chunk))
    case DrainEnd => s.(pump := Closed)
  }

  function RunFrom(s: State, steps: seq<Step>): Option<State>
    decreases |steps|
  {
    if steps == [] then Some(s)
    else if Enabled(s, steps[0]) then RunFrom(Do(s, steps[0]), steps[1..])
    else None
  }

  function InHand(p: Pump): seq<bytes> {
    match p
    case Got(chunk) => [chunk]
    case DrainGot(chunk) => [chunk]
    case Aborted(chunk) => [chunk]
    case _ => []
  }

  ghost predicate Inv(s: State) {
    && s.accepted == s.written + s.ignored + InHand(s.pump) + s.ch
    && (!s.gone ==> s.ignored == [])
    && s.closes == (if s.eof then 1 else 0)
    && |s.ch| <= CAPACITY
    && s.atEof <= |s.accepted|
    && (s.pump.Draining? || s.pump.DrainGot? || s.pump.Closed? ==> s.eof)
    && (s.pump.Closed? ==> s.atEof <= |s.written + s.ignored|)
  }

  lemma StepKeeps(s: State, st: Step)
    requires Inv(s) && Enabled(s, st)
    ensures Inv(Do(s, st))
  {
    var u := Do(s, st);
    if st.Take? {
      assert s.ch == [s.ch[0]] + u.ch;
      assert u.accepted == u.written + u.ignored + InHand(u.pump) + u.ch;
    } else if st.Write? || st.Feed? {
      assert u.accepted == u.written + u.ignored + InHand(u.pump) + u.ch;
    }
  }

  lemma {:induction false} RunKeeps(s: State, steps: seq<Step>)
    requires Inv(s) && RunFrom(s, steps).Some?
    ensures Inv(RunFrom(s, steps).value)
    decreases |steps|
  {
    if steps != [] {
      StepKeeps(s, steps[0]);
      RunKeeps(Do(s, steps[0]), steps[1..]);
    }
  }

  /** A chunk is accepted exactly when fewer than sixteen are buffered; nothing else adds to what is accepted. */
  lemma AcceptedByFeed(s: State, st: Step)
    requires Enabled(s, st)
    ensures Do(s, st).accepted == s.accepted + if st.Feed? && |s.ch| < 16 then [st.chunk] else []
    ensures Do(s, st).gone <==> s.gone || st.ProcessCloses?
    ensures Do(s, st).eof <==> s.eof || st.SignalEOF?
  {
    assert s.accepted + [] == s.accepted;
  }

  lemma {:induction false} RunSplit(s: State, steps: seq<Step>, p: nat)
    requires p <= |steps| && RunFrom(s, steps).Some?
    ensures RunFrom(s, steps[..p]).Some? && RunFrom(RunFrom(s, steps[..p]).value, steps[p..]) == RunFrom(s, steps)
    decreases p
  {
    if p > 0 {
      RunSplit(Do(s, steps[0]), steps[1..], p - 1);
      assert steps[..p][0] == steps[0] && steps[..p][1..] == steps[1..][..p - 1] && steps[1..][p - 1..] == steps[p..];
    } else {
      assert steps[..0] == [] && steps[0..] == steps;
    }
  }

  /** Once the signal has come, it stays, and so does what had been accepted before; without it there is none. */
  lemma {:induction false} SignalStays(s: State, steps: seq<Step>)
    requires RunFrom(s, steps).Some?
    ensures var u := RunFrom(s, steps).value;
            && s.accepted <= u.accepted
            && (s.eof ==> u.eof && u.atEof == s.atEof)
            && (u.eof ==> s.eof || SignalEOF in steps)
    decreases |steps|
  {
    if steps != [] {
      SignalStays(Do(s, steps[0]), steps[1..]);
      AcceptedByFeed(s, steps[0]);
      assert steps == [steps[0]] + steps[1..];
    }
  }

  /**
   Stdin conservation: in every reachable state the accepted chunks are, in order, those the process took, those
   written after it stopped reading, the one in the pump's hand and those still buffered. A pump that closed the
   pipe had handled every chunk accepted before the first EOF signal; to a process that still reads, all were written.
   */
  lemma StdinConserved(steps: seq<Step>, p: nat)
    requires RunFrom(INIT, steps).Some? && p < |steps| && steps[p] == SignalEOF && SignalEOF !in steps[..p]
    ensures RunFrom(INIT, steps[..p]).Some?
    ensures var s, before := RunFrom(INIT, steps).value, RunFrom(INIT, steps[..p]).value;
            && s.accepted == s.written + s.ignored + InHand(s.pump) + s.ch
            && s.closes == 1
            && (s.pump.Closed? ==> before.accepted <= s.written + s.ignored)
            && (s.pump.Closed? && !s.gone ==> before.accepted <= s.written)
  {
    RunKeeps(INIT, steps);
    AtSignal(steps, p);
    HandledBefore(RunFrom(INIT, steps).value, RunFrom(INIT, steps[..p]).value.accepted);
  }

  lemma AtSignal(steps: seq<Step>, p: nat)
    requires RunFrom(INIT, steps).Some? && p < |steps| && steps[p] == SignalEOF && SignalEOF !in steps[..p]
    ensures RunFrom(INIT, steps[..p]).Some?
    ensures var s, before := RunFrom(INIT, steps).value, RunFrom(INIT, steps[..p]).value;
            s.eof && s.atEof == |before.accepted| && before.accepted <= s.accepted
  {
    RunSplit(INIT, steps, p);
    var before := RunFrom(INIT, steps[..p]).value;
    SignalStays(INIT, steps[..p]);
    assert steps[p..][0] == SignalEOF;
    SignalStays(Do(before, SignalEOF), steps[p..][1..]);
  }

  lemma HandledBefore(s: State, before: seq<bytes>)
    requires Inv(s) && s.eof && s.atEof == |before| && before <= s.accepted
    ensures s.pump.Closed? ==> before <= s.written + s.ignored
    ensures s.pump.Closed? && !s.gone ==> before <= s.written
  {
    assert s.accepted[..|s.written + s.ignored|] == s.written + s.ignored;
    if !s.gone {
      assert s.written + s.ignored == s.written;
    }
  }

  /** Without an EOF signal the pipe stays open, and nothing accepted is lost. */
  lemma StdinOpen(steps: seq<Step>)
    requires RunFrom(INIT, steps).Some? && SignalEOF !in steps
    ensures var s := RunFrom(INIT, steps).value;
            && s.accepted == s.written + s.ignored + InHand(s.pump) + s.ch && s.closes == 0 && !s.pump.Closed?
  {
    RunKeeps(INIT, steps);
    SignalStays(INIT, steps);
  }

  /** What the pump can do, where it is; it never waits when it has a chunk to take. */
  lemma PumpMoves(s: State, chunk: bytes)
    ensures s.pump.Waiting? ==> Enabled(s, Wire)
    ensures s.pump.Loop? || s.pump.Draining? ==> (Enabled(s, Take) <==> s.ch != [])
    ensures s.pump.Loop? ==> (Enabled(s, SeeEOF) <==> s.eof)
    ensures s.pump.Got? || s.pump.DrainGot? ==> Enabled(s, Write) && Enabled(s, WriteFails)
    ensures s.pump.Draining? ==> (Enabled(s, DrainEnd) <==> s.ch == [])
    ensures Enabled(s, Feed(chunk)) && Enabled(s, SignalEOF) && Enabled(s, ProcessCloses)
  {
  }

  // ---- the drain ends ----

  predicate PumpStep(st: Step) {
    st.Wire? || st.Take? || st.SeeEOF? || st.Write? || st.WriteFails? || st.DrainEnd?
  }

  predicate Finished(p: Pump) {
    p.Closed? || p.Aborted?
  }

  function Rank(s: State): nat {
    match s.pump
    case Waiting => 3 * |s.ch| + 3
    case Loop => 3 * |s.ch| + 2
    case Got(_) => 3 * |s.ch| + 4
    case Draining => 3 * |s.ch| + 1
    case DrainGot(_) => 3 * |s.ch| + 3
    case Closed => 0
    case Aborted(_) => 0
  }

  /**
   After the EOF signal, with no further feeds, the pump takes at most `Rank` steps, whichever way each select
   goes, and is never stuck before it has finished.
   */
  lemma {:induction false} DrainEnds(s: State, steps: seq<Step>)
    requires s.eof && RunFrom(s, steps).Some?
    requires forall st <- steps :: PumpStep(st)
    ensures |steps| <= Rank(s)
    ensures !Finished(RunFrom(s, steps).value.pump) ==>
              exists st :: PumpStep(st) && Enabled(RunFrom(s, steps).value, st)
    decreases |steps|
  {
    if steps != [] {
      assert PumpStep(steps[0]);
      assert Rank(Do(s, steps[0])) < Rank(s);
      DrainEnds(Do(s, steps[0]), steps[1..]);
    } else {
      assert Finished(s.pump) || Enabled(s, Wire) || Enabled(s, Take) || Enabled(s, SeeEOF) || Enabled(s, Write)
              || Enabled(s, DrainEnd);
    }
  }

  // ---- the same operations on the objects themselves ----

  /** The process's end of the stdin pipe. */
  class StdinPipe {
    var gone: bool
    var broken: bool
    var taken: seq<bytes>

    /** false: the write failed for another reason than a closed pipe. */
    method Write(chunk: bytes) returns (ok: bool)
      modifies this
      ensures gone == old(gone) && broken == old(broken)
      ensures ok == !broken
      ensures taken == old(taken) + if ok && !gone then [chunk] else []
    {
      ok := !broken;
      if ok && !gone {
        taken := taken + [chunk];
      }
    }
  }

  lemma {:induction false} RunOneMore(s: State, steps: seq<Step>, st: Step)
    requires RunFrom(s, steps).Some? && Enabled(RunFrom(s, steps).value, st)
    ensures RunFrom(s, steps + [st]) == Some(Do(RunFrom(s, steps).value, st))
    decreases |steps|
  {
    if steps == [] {
      assert steps + [st] == [st];
    } else {
      RunOneMore(Do(s, steps[0]), steps[1..], st);
      assert (steps + [st])[1..] == steps[1..] + [st];
    }
  }

  class RunningReq {
    var stdinCh: seq<bytes>
    var eofClosed: bool
    var closes: nat
    ghost var s: State  // the state of the step system that these fields show

    ghost predicate Valid()
      reads this
    {
      s.ch == stdinCh && s.eof == eofClosed && s.closes == closes && Inv(s)
    }

    constructor ()
      ensures Valid() && s == INIT
    {
      stdinCh, eofClosed, closes, s := [], false, 0, INIT;
    }

    /** `feedStdin`: never blocks, drops the chunk when the buffer is full. */
    method Feed(chunk: bytes) returns (accepted: bool)
      requires Valid()
      modifies this
      ensures Valid() && s == Do(old(s), Step.Feed(chunk))
      ensures accepted <==> |old(stdinCh)| < 16
      ensures stdinCh == (if accepted then old(stdinCh) + [chunk] else old(stdinCh))
      ensures s.accepted == (if accepted then old(s.accepted) + [chunk] else old(s.accepted))
    {
      StepKeeps(s, Step.Feed(chunk));
      accepted := |stdinCh| < CAPACITY;
      if accepted {
        stdinCh := stdinCh + [chunk];
      }
      s := Do(s, Step.Feed(chunk));
    }

    /** `signalEOF`: the channel is closed by the first caller only. */
    method SignalEOF()
      requires Valid()
      modifies this
      ensures Valid() && s == Do(old(s), Step.SignalEOF)
    {
      StepKeeps(s, Step.SignalEOF);
      if !eofClosed {
        eofClosed, closes := true, closes + 1;
      }
      s := Do(s, Step.SignalEOF);
    }

    /** The pump takes a chunk and writes it. */
    method DrainOne(w: StdinPipe, ghost start: State, ghost steps: seq<Step>) returns (ok: bool, ghost more: seq<Step>)
      requires Valid() && s.pump.Draining? && s.gone == w.gone && stdinCh != []
      requires RunFrom(start, steps) == Some(s) && forall st <- steps :: PumpStep(st)
      modifies this, w
      ensures Valid() && ok == !w.broken && w.broken == old(w.broken) && w.gone == old(w.gone) && s.gone == w.gone
      ensures stdinCh == old(stdinCh)[1..] && (ok ==> s.pump.Draining?) && (!ok ==> s.pump.Aborted?)
      ensures w.taken == old(w.taken) + if ok && !w.gone then [old(stdinCh)[0]] else []
      ensures RunFrom(start, more) == Some(s) && forall st <- more :: PumpStep(st)
    {
      var chunk := stdinCh[0];
      StepKeeps(s, Take);
      RunOneMore(start, steps, Take);
      stdinCh, s := stdinCh[1..], Do(s, Take);
      more := steps + [Take];
      ok := w.Write(chunk);
      ghost var st := if ok then Step.Write else WriteFails;
      StepKeeps(s, st);
      RunOneMore(start, more, st);
      s := Do(s, st);
      more := more + [st];
    }

    /**
     `drainStdinCh`: hands everything buffered to the pipe, in order, unless a write fails. It is a run of the pump,
     which it leaves closed or, after a failed write, aborted.
     */
    method DrainStdinCh(w: StdinPipe) returns (ghost steps: seq<Step>)
      requires Valid() && s.pump.Draining? && s.gone == w.gone
      modifies this, w
      ensures Valid() && w.gone == old(w.gone) && w.broken == old(w.broken)
      ensures !w.broken ==> stdinCh == []
      ensures w.broken ==> stdinCh == if old(stdinCh) == [] then [] else old(stdinCh)[1..]
      ensures w.taken == old(w.taken) + if w.broken || w.gone then [] else old(stdinCh)
      ensures RunFrom(old(s), steps) == Some(s) && Finished(s.pump) && forall st <- steps :: PumpStep(st)
    {
      ghost var all, start := stdinCh, s;
      ghost var n: nat := 0;
      steps := [];
      while stdinCh != []
        invariant Valid() && s.pump.Draining? && s.gone == w.gone && n <= |all| && stdinCh == all[n..]
        invariant w.gone == old(w.gone) && w.broken == old(w.broken)
        invariant w.broken ==> n == 0
        invariant w.taken == old(w.taken) + if w.broken || w.gone then [] else all[..n]
        invariant RunFrom(start, steps) == Some(s) && forall st <- steps :: PumpStep(st)
        decreases |stdinCh|
      {
        assert all[..n + 1] == all[..n] + [all[n]] && all[n..][1..] == all[n + 1..];
        var ok: bool;
        ok, steps := DrainOne(w, start, steps);
        n := n + 1;
        if !ok {
          return;
        }
      }
      StepKeeps(s, DrainEnd);
      RunOneMore(start, steps, DrainEnd);
      s := Do(s, DrainEnd);
      steps := steps + [DrainEnd];
    }
  }
}
