/** The daemon's guarantees over every run of a host connection. */
module RouterTheorems {
  import opened Basics
  import opened Router
  import opened RouterProofs

  /**
   Multiplexing refines independent FIFOs: on a live connection the frames the agent has sent for a request are,
   in order, those delivered to its client, in its socket queue, in its pump's hand, in its reply channel, in
   pumpFromAgent's hand, and still unread; whatever the other requests and clients do.
   */
  lemma FifoPerRequest(steps: seq<Step>, s: State, id: Id)
    requires RunOf(steps) == Some(s) && Live(s.back) && IsAccepted(s.front, id)
    ensures Registered(s.front, id)
    ensures s.back.emitted == SentByAgent(steps)
    ensures Project(s.back.emitted, id) ==
              Got(s.front, id) + Waiting(s.front, id) + Held(s.front.reqs[id].stage.pump) + s.front.reqs[id].reply
              + Hand(s.back, id) + Project(s.back.pipe, id)
  {
    RunKeeps(steps, s);
    EmittedIsSent(steps, s);
    assert Fine(s.back, s.front, id);
    assert Project(s.back.routed, id) + [] == Project(s.back.routed, id);
  }

  /** A client's socket only ever carries frames of its own requests. */
  lemma NoForeignFrames(steps: seq<Step>, s: State, c: Cid, x: (Id, Frame))
    requires RunOf(steps) == Some(s) && c in s.front.clients
    requires x in s.front.clients[c].got || x in s.front.clients[c].socket
    ensures Has(s.front, c, x.0)
  {
    RunKeeps(steps, s);
    assert Fine(s.back, s.front, x.0) && AtClient(s.front, c, x.0);
    ProjectMember(s.front.clients[c].got, x.0, x.1);
    ProjectMember(s.front.clients[c].socket, x.0, x.1);
  }

  /** What is on the way for an accepted request ends at its terminal frame, and nothing comes after a finished pump. */
  lemma WayEnds(b: Back, f: Front, id: Id)
    requires Fine(b, f, id) && IsAccepted(f, id)
    ensures var way := Got(f, id) + Waiting(f, id);
            && EndsAtTerminal(way) && EndsAtTerminal(way + Held(f.reqs[id].stage.pump) + f.reqs[id].reply)
    ensures f.reqs[id].stage.pump.Finished? ==> f.reqs[id].reply == [] && Hand(b, id) == []
  {
    var way, p, reply := Got(f, id) + Waiting(f, id), f.reqs[id].stage.pump, f.reqs[id].reply;
    var read, sent := Project(b.routed, id), Project(b.emitted, id);
    var all := read + FailPart(b, id);
    assert all == way + Held(p) + reply + Hand(b, id);
    assert forall i | 0 <= i < |read| :: all[i] == read[i] == sent[i];
    assert forall i | 0 <= i < |Got(f, id)| :: Got(f, id)[i] == all[i];
    assert forall i | 0 <= i < |way| :: way[i] == all[i];
    assert forall i | 0 <= i < |way + Held(p) + reply| :: (way + Held(p) + reply)[i] == all[i];
  }

  /** Nothing for a request follows its terminal frame, so it gets at most one, from the agent, failAll or a refusal. */
  lemma OneTerminal(steps: seq<Step>, s: State, id: Id)
    requires RunOf(steps) == Some(s) && id in s.front.reqs
    ensures Registered(s.front, id) && EndsAtTerminal(Got(s.front, id) + Waiting(s.front, id))
  {
    RunKeeps(steps, s);
    assert Fine(s.back, s.front, id);
    if IsAccepted(s.front, id) {
      WayEnds(s.back, s.front, id);
    }
  }

  /**
   Connection death: once failAll is done, an accepted request that it found in the table has, delivered or on
   its way, exactly what was read for it, none of it terminal, and one Error at the end; an accepted request that
   it did not find was terminated before, or was registered after the swap and has nothing at all.
   */
  lemma DeathAnswers(steps: seq<Step>, s: State, id: Id)
    requires RunOf(steps) == Some(s) && Dead(s.back) && IsAccepted(s.front, id)
    ensures Registered(s.front, id) && GONE.kind.Error? && Terminal(GONE)
    ensures var r := s.front.reqs[id];
            var way := Got(s.front, id) + Waiting(s.front, id) + Held(r.stage.pump) + r.reply;
            && (id in s.back.swapped ==>
                  way == Project(s.back.routed, id) + [GONE] && NoTerminal(Project(s.back.routed, id)))
            && (id !in s.back.swapped && id !in s.back.routes ==> Terminated(way) && EndsAtTerminal(way))
            && (id !in s.back.swapped && id in s.back.routes ==> way == [])
  {
    RunKeeps(steps, s);
    assert Fine(s.back, s.front, id);
    WayEnds(s.back, s.front, id);
    var way := Got(s.front, id) + Waiting(s.front, id) + Held(s.front.reqs[id].stage.pump) + s.front.reqs[id].reply;
    assert way + [] == way && Project(s.back.routed, id) + [] == Project(s.back.routed, id);
  }

  /** A refused request gets exactly one frame, the refusal, and nothing else, whatever becomes of the connection. */
  lemma RefusalAnswers(steps: seq<Step>, s: State, id: Id)
    requires RunOf(steps) == Some(s) && id in s.front.reqs && s.front.reqs[id].stage.Refused?
    ensures Registered(s.front, id)
    ensures REFUSAL.kind.Error? && Terminal(REFUSAL)
    ensures Got(s.front, id) + Waiting(s.front, id)
         == if s.front.clients[s.front.reqs[id].owner].pc == Refusing(id) then [] else [REFUSAL]
  {
    RunKeeps(steps, s);
    assert Fine(s.back, s.front, id);
  }

  // ---- the way to the agent ----

  /** The frames that were accepted, out of everything a bridge has judged. */
  function Kept(log: seq<(ClientFrame, Verdict)>): seq<ClientFrame> {
    if log == [] then
      []
    else
      var (f, v) := log[|log| - 1];
      Kept(log[..|log| - 1]) + if v.Taken? then [f] else []
  }

  lemma {:induction false} KeptOfClient(seen: seq<(Cid, (ClientFrame, Verdict))>, c: Cid)
    ensures Project(TakenOf(seen), c) == Kept(Project(seen, c))
  {
    if seen != [] {
      var front := seen[..|seen| - 1];
      var (d, (x, v)) := seen[|seen| - 1];
      KeptOfClient(front, c);
      ProjectSnoc(TakenOf(front), (d, x), c);
      assert (Project(front, c) + [(x, v)])[..|Project(front, c)|] == Project(front, c);
      assert Project(TakenOf(front), c) + [] == Project(TakenOf(front), c) && TakenOf(front) + [] == TakenOf(front);
    }
  }

  /** The frames that client `c` sends in these steps, in order. */
  function SentBy(steps: seq<Step>, c: Cid): seq<ClientFrame> {
    if steps == [] then [] else SentBy(steps[..|steps| - 1], c) + SentIn(steps[|steps| - 1], c)
  }

  function SentIn(st: Step, c: Cid): seq<ClientFrame> {
    if !st.ByClient? || st.c != c then
      []
    else
      match st.x
      case RecvRequest(id, body) => [Request(id, body)]
      case RecvControl(id, body) => [Control(id, body)]
      case RecvUnknown(body) => [Unknown(body)]
      case _ => []
  }

  /** The frame in the bridge's hand. */
  function InHand(f: Front, c: Cid): seq<ClientFrame> {
    if c in f.clients && (f.clients[c].pc.Checking? || f.clients[c].pc.Sending?) then [f.clients[c].pc.f] else []
  }

  function FramesOf(log: seq<(ClientFrame, Verdict)>): (fs: seq<ClientFrame>)
    ensures |fs| == |log| && forall i | 0 <= i < |log| :: fs[i] == log[i].0
  {
    seq(|log|, i requires 0 <= i < |log| => log[i].0)
  }

  /** What a step of client `c` judges. */
  function NewVerdict(s: State, c: Cid, x: ClientStep): seq<(ClientFrame, Verdict)>
    requires ClientMay(s, c, x)
  {
    match x
    case RecvUnknown(body) => [(Unknown(body), Ignored)]
    case Accept => [(s.front.clients[c].pc.f, Taken)]
    case Refuse => [(s.front.clients[c].pc.f, Turned)]
    case _ => []
  }

  /** A frame that comes in goes to the bridge's hand, and out of it with a verdict. */
  lemma HandMoves(s: State, c: Cid, x: ClientStep)
    requires ClientMay(s, c, x)
    ensures FramesOf(NewVerdict(s, c, x)) + InHand(ClientFront(s, c, x), c)
         == InHand(s.front, c) + SentIn(ByClient(c, x), c)
    ensures Project(ClientFwd(s, c, x).seen, c) == Project(s.fwd.seen, c) + NewVerdict(s, c, x)
  {
    if NewVerdict(s, c, x) != [] {
      ProjectSnoc(s.fwd.seen, (c, NewVerdict(s, c, x)[0]), c);
    }
  }

  lemma OthersHands(s: State, st: Step, c: Cid)
    requires Enabled(s, st) && !(st.ByClient? && st.c == c)
    ensures InHand(Do(s, st).front, c) == InHand(s.front, c)
    ensures Project(Do(s, st).fwd.seen, c) == Project(s.fwd.seen, c)
  {
    if st.ByClient? && NewVerdict(s, st.c, st.x) != [] {
      ProjectSnoc(s.fwd.seen, (st.c, NewVerdict(s, st.c, st.x)[0]), c);
    }
  }

  lemma FramesConcat(a: seq<(ClientFrame, Verdict)>, b: seq<(ClientFrame, Verdict)>, hand: seq<ClientFrame>)
    ensures FramesOf(a + b) + hand == FramesOf(a) + (FramesOf(b) + hand)
  {
  }

  /** Every frame of a client that has been read is judged, or in its bridge's hand. */
  lemma {:induction false} AllJudged(steps: seq<Step>, s: State, c: Cid)
    requires RunOf(steps) == Some(s)
    ensures SentBy(steps, c) == FramesOf(Project(s.fwd.seen, c)) + InHand(s.front, c)
  {
    if steps != [] {
      var front, st := steps[..|steps| - 1], steps[|steps| - 1];
      var before := RunOf(front).value;
      AllJudged(front, before, c);
      if st.ByClient? && st.c == c {
        JudgedStep(before, c, st.x);
      } else {
        OthersHands(before, st, c);
        assert SentBy(front, c) + [] == SentBy(front, c);
      }
    }
  }

  lemma JudgedStep(s: State, c: Cid, x: ClientStep)
    requires ClientMay(s, c, x)
    ensures FramesOf(Project(ClientFwd(s, c, x).seen, c)) + InHand(ClientFront(s, c, x), c)
         == FramesOf(Project(s.fwd.seen, c)) + InHand(s.front, c) + SentIn(ByClient(c, x), c)
  {
    HandMoves(s, c, x);
    FramesConcat(Project(s.fwd.seen, c), NewVerdict(s, c, x), InHand(ClientFront(s, c, x), c));
  }

  /** Frames of unknown kinds are ignored, and no others. */
  ghost predicate IgnoredAreUnknown(w: Fwd, clients: map<Cid, Client>) {
    && (forall c <- clients :: clients[c].pc.Checking? || clients[c].pc.Sending? ==> !clients[c].pc.f.Unknown?)
    && (forall i | 0 <= i < |w.seen| :: w.seen[i].1.1.Ignored? <==> w.seen[i].1.0.Unknown?)
  }

  lemma IgnoredStep(s: State, st: Step)
    requires Enabled(s, st) && IgnoredAreUnknown(s.fwd, s.front.clients)
    ensures IgnoredAreUnknown(Do(s, st).fwd, Do(s, st).front.clients)
  {
    if st.ByClient? {
      IgnoredByClient(s, st.c, st.x);
    }
  }

  lemma IgnoredByClient(s: State, c: Cid, x: ClientStep)
    requires ClientMay(s, c, x) && IgnoredAreUnknown(s.fwd, s.front.clients)
    ensures IgnoredAreUnknown(ClientFwd(s, c, x), ClientFront(s, c, x).clients)
  {
  }

  lemma {:induction false} IgnoredHold(steps: seq<Step>, s: State)
    requires RunOf(steps) == Some(s)
    ensures IgnoredAreUnknown(s.fwd, s.front.clients)
  {
    if steps != [] {
      var front := steps[..|steps| - 1];
      IgnoredHold(front, RunOf(front).value);
      IgnoredStep(RunOf(front).value, steps[|steps| - 1]);
    }
  }

  /**
   Client-to-agent transparency: what has gone to the agent, was lost to its write error, or waits in the queue,
   is an interleaving of the clients' frames, each client's in order and unchanged, without exactly those that
   `send` refused or `bridge` ignored, which are those of unknown kinds; every request that was refused has its Error
   on the way.
   */
  lemma Transparent(steps: seq<Step>, s: State, c: Cid)
    requires RunOf(steps) == Some(s)
    ensures SentBy(steps, c) == FramesOf(Project(s.fwd.seen, c)) + InHand(s.front, c)
    ensures forall x <- s.fwd.seen :: x.1.1.Ignored? <==> x.1.0.Unknown?
    ensures s.fwd.accepted == s.fwd.received + s.fwd.lost + s.fwd.clientIn
    ensures |s.fwd.lost| <= 1 && |s.fwd.clientIn| <= QUEUE_CAP
    ensures Project(s.fwd.accepted, c) == Kept(Project(s.fwd.seen, c))
    ensures forall x <- s.fwd.seen :: x.1.0.Request? && x.1.1.Turned? ==>
              Has(s.front, x.0, x.1.0.id) && s.front.reqs[x.1.0.id].stage.Refused?
  {
    RunKeeps(steps, s);
    AllJudged(steps, s, c);
    IgnoredHold(steps, s);
    KeptOfClient(s.fwd.seen, c);
    assert forall x <- s.fwd.seen :: VerdictOk(s.front, x);
  }

  // ---- close ----

  /** clientIn is closed at most once, and only after the flag is set. */
  lemma ClosedOnce(steps: seq<Step>, s: State)
    requires RunOf(steps) == Some(s)
    ensures s.fwd.closes <= 1 && (s.fwd.chanClosed <==> s.fwd.closes == 1) && (s.fwd.chanClosed ==> s.fwd.closed)
  {
    RunKeeps(steps, s);
  }

  /** The flag is set by a call of `close` and by nothing else, the channel closed by its second half. */
  lemma {:induction false} ClosedByClose(steps: seq<Step>, s: State)
    requires RunOf(steps) == Some(s)
    ensures s.fwd.closed <==> OnFwd(DaemonCloses) in steps || OnBack(PumpCloses) in steps
    ensures s.fwd.chanClosed <==> OnFwd(CloseChannel) in steps
  {
    if steps != [] {
      var front, st := steps[..|steps| - 1], steps[|steps| - 1];
      ClosedByClose(front, RunOf(front).value);
      assert steps == front + [st];
      ClosedMoves(RunOf(front).value, st);
    }
  }

  lemma ClosedMoves(s: State, st: Step)
    requires Enabled(s, st)
    ensures Do(s, st).fwd.closed <==> s.fwd.closed || st == OnFwd(DaemonCloses) || st == OnBack(PumpCloses)
    ensures Do(s, st).fwd.chanClosed <==> s.fwd.chanClosed || st == OnFwd(CloseChannel)
  {
  }

  /** The frames that the agent sends in these steps, in order. */
  function SentByAgent(steps: seq<Step>): seq<(Id, Frame)> {
    if steps == [] then
      []
    else
      var st := steps[|steps| - 1];
      SentByAgent(steps[..|steps| - 1]) + if st.OnBack? && st.y.Emit? then [(st.y.id, st.y.frame)] else []
  }

  /** What the history calls emitted is what the agent has sent. */
  lemma {:induction false} EmittedIsSent(steps: seq<Step>, s: State)
    requires RunOf(steps) == Some(s)
    ensures s.back.emitted == SentByAgent(steps)
  {
    if steps != [] {
      var front := steps[..|steps| - 1];
      EmittedIsSent(front, RunOf(front).value);
      EmittedMoves(RunOf(front).value, steps[|steps| - 1]);
    }
  }

  lemma EmittedMoves(s: State, st: Step)
    requires Enabled(s, st)
    ensures Do(s, st).back.emitted
         == s.back.emitted + if st.OnBack? && st.y.Emit? then [(st.y.id, st.y.frame)] else []
  {
  }

  /** What `send` answers: false exactly when the flag is set at the look, or the select finds no room or no channel. */
  lemma SendDecides(s: State, c: Cid)
    requires Inv(s) && !s.crashed && c in s.front.clients
    ensures s.front.clients[c].pc.Checking? ==>
              && (Enabled(s, ByClient(c, CheckOpen)) <==> !s.fwd.closed)
              && (Enabled(s, ByClient(c, Refuse)) <==> s.fwd.closed) && !Enabled(s, ByClient(c, Accept))
    ensures s.front.clients[c].pc.Sending? ==>
              && (Enabled(s, ByClient(c, Accept)) <==> !s.fwd.chanClosed && |s.fwd.clientIn| < 64)
              && (Enabled(s, ByClient(c, Refuse)) <==> s.fwd.chanClosed || |s.fwd.clientIn| >= 64)
  {
    var pc := s.front.clients[c].pc;
    assert (pc.Checking? || pc.Sending?) && pc.f.Request? ==>
        Fine(s.back, s.front, pc.f.id) && AtClient(s.front, c, pc.f.id);
  }

  /** Clients may send anything at any time, the agent answer what it may, the connection break, the daemon close. */
  lemma TakesAnything(s: State, c: Cid, id: Id, body: nat, x: Frame)
    requires !s.crashed
    ensures c !in s.front.clients ==> Enabled(s, ByClient(c, Connect))
    ensures c in s.front.clients && s.front.clients[c].attached && s.front.clients[c].pc.Reading? ==>
              && Enabled(s, ByClient(c, RecvControl(id, body))) && Enabled(s, ByClient(c, RecvUnknown(body)))
              && (id !in s.front.reqs ==> Enabled(s, ByClient(c, RecvRequest(id, body))))
              && Enabled(s, ByClient(c, Detach))
    ensures s.back.alive ==> Enabled(s, OnBack(AgentDies))
    ensures s.back.alive && AgentMay(s, id) ==> Enabled(s, OnBack(Emit(id, x)))
    ensures s.back.from.Listening? ==> Enabled(s, OnBack(ReadError))
    ensures s.fwd.clientIn != [] && !s.fwd.stopped ==> Enabled(s, OnFwd(ToAgent)) && Enabled(s, OnFwd(ToAgentFails))
    ensures Enabled(s, OnFwd(DaemonCloses))
    ensures s.back.from.Handing? && s.back.from.id in s.front.reqs ==>
              (Enabled(s, OnBack(Deliver)) <==> |s.front.reqs[s.back.from.id].reply| < 16)
  {
  }

  predicate Enqueues(st: Step, c: Cid) {
    st == ByClient(c, Accept)
  }

  /** Client `c` is inside a send, past its look at the flag, the channel is open, and there is or will be room. */
  predicate CanPass(s: State, c: Cid) {
    && !s.crashed && c in s.front.clients && s.front.clients[c].pc.Sending? && !s.fwd.chanClosed
    && (|s.fwd.clientIn| < QUEUE_CAP || !s.fwd.stopped)
  }

  lemma NoWayBack(s: State, st: Step, c: Cid)
    requires s.fwd.closed && !CanPass(s, c) && Enabled(s, st)
    ensures Do(s, st).fwd.closed && !CanPass(Do(s, st), c) && !Enqueues(st, c)
  {
  }

  lemma {:induction false} NeverPasses(steps: seq<Step>, next: seq<Step>, c: Cid)
    requires RunOf(steps).Some? && RunOf(steps).value.fwd.closed && !CanPass(RunOf(steps).value, c)
    requires steps <= next && RunOf(next).Some?
    ensures RunOf(next).value.fwd.closed && !CanPass(RunOf(next).value, c)
    ensures forall n | |steps| <= n < |next| :: !Enqueues(next[n], c)
    decreases |next|
  {
    if |next| > |steps| {
      var front := next[..|next| - 1];
      NeverPasses(steps, front, c);
      NoWayBack(RunOf(front).value, next[|next| - 1], c);
      assert forall n | |steps| <= n < |front| :: next[n] == front[n];
    } else {
      assert next == steps;
    }
  }

  /**
   Which sends pass the flag: in every run that has set it, client `c` enqueues another frame in some continuation
   exactly when it is inside a send that has already looked, the channel is open, and the queue has or gets room.
   So a send that starts after the flag never enqueues, and neither does any after the channel is closed.
   */
  lemma SendPassesFlag(steps: seq<Step>, s: State, c: Cid)
    requires RunOf(steps) == Some(s) && s.fwd.closed
    ensures (exists next: seq<Step>, n ::
               steps <= next && RunOf(next).Some? && |steps| <= n < |next| && Enqueues(next[n], c))
            <==> CanPass(s, c)
  {
    if CanPass(s, c) {
      RunKeeps(steps, s);
      var more := steps;
      if |s.fwd.clientIn| >= QUEUE_CAP {
        more := Then(steps, OnFwd(ToAgent));
      }
      var k := s.front.clients[c];
      assert k.pc.f.Request? ==> Fine(s.back, s.front, k.pc.f.id) && AtClient(s.front, c, k.pc.f.id);
      var next := Then(more, ByClient(c, Accept));
      assert steps <= next && Enqueues(next[|more|], c);
    } else {
      forall next: seq<Step>, n | steps <= next && RunOf(next).Some? && |steps| <= n < |next|
        ensures !Enqueues(next[n], c)
      {
        NeverPasses(steps, next, c);
      }
    }
  }

  /** Client `c` has been inside one send since step `m`, when the flag was not set. */
  ghost predicate LookedAt(steps: seq<Step>, c: Cid, m: nat) {
    && m < |steps| && steps[m] == ByClient(c, CheckOpen)
    && RunOf(steps[..m]).Some? && !RunOf(steps[..m]).value.fwd.closed
    && forall k | m < k <= |steps| ::
         && RunOf(steps[..k]).Some? && c in RunOf(steps[..k]).value.front.clients
         && RunOf(steps[..k]).value.front.clients[c].pc.Sending?
  }

  /** A bridge that is past the look at the flag looked before the flag was set. */
  lemma {:induction false} LookedBefore(steps: seq<Step>, s: State, c: Cid) returns (m: nat)
    requires RunOf(steps) == Some(s) && c in s.front.clients && s.front.clients[c].pc.Sending?
    ensures LookedAt(steps, c, m)
  {
    var front, st := steps[..|steps| - 1], steps[|steps| - 1];
    assert steps[..|steps|] == steps;
    if st == ByClient(c, CheckOpen) {
      m := |front|;
    } else {
      m := LookedBefore(front, RunOf(front).value, c);
      assert forall k | 0 <= k <= |front| :: front[..k] == steps[..k];
    }
  }

  /** One more step, taken from the end of a run. */
  lemma Then(steps: seq<Step>, st: Step) returns (next: seq<Step>)
    requires RunOf(steps).Some? && Enabled(RunOf(steps).value, st)
    ensures next == steps + [st] && RunOf(next) == Some(Do(RunOf(steps).value, st))
  {
    next := steps + [st];
    assert next[..|steps|] == steps;
  }

  /** A send that looked before the flag was set may still enqueue until the channel itself is closed. */
  lemma SendMayPassFlag()
    ensures exists steps: seq<Step> :: RunOf(steps).Some? && RunOf(steps).value.fwd.closed
                            && steps != [] && Enqueues(steps[|steps| - 1], 0)
  {
    assert RunOf([]) == Some(INIT);
    var a := Then([], ByClient(0, Connect));
    a := Then(a, ByClient(0, RecvRequest(7, 0)));
    a := Then(a, ByClient(0, CheckOpen));
    a := Then(a, OnFwd(DaemonCloses));
    a := Then(a, ByClient(0, Accept));
  }

  /** Client 0 connects and sends request 7, and `send` accepts it. */
  lemma Ask(steps: seq<Step>, s: State) returns (next: seq<Step>)
    requires RunOf(steps) == Some(s) && s.front == INIT.front && s.fwd == INIT.fwd && !s.crashed
    ensures RunOf(next).Some? && !RunOf(next).value.crashed && !RunOf(next).value.fwd.closed
    ensures RunOf(next).value.back == s.back.(routes := s.back.routes + {7})
    ensures RunOf(next).value.front ==
              Front(map[0 := Client(Reading, [], [], true)], map[7 := Req(0, [], Accepted(Idle))])
  {
    next := Then(steps, ByClient(0, Connect));
    next := Then(next, ByClient(0, RecvRequest(7, 0)));
    next := Then(next, ByClient(0, CheckOpen));
    next := Then(next, ByClient(0, Accept));
  }

  /** A request registered after failAll's swap and accepted before `close`: DeathAnswers says it has no reply. */
  lemma LateRequestUnanswered()
    ensures exists steps: seq<Step> :: RunOf(steps).Some? && Dead(RunOf(steps).value.back)
                            && RunOf(steps).value.fwd.chanClosed
                            && IsAccepted(RunOf(steps).value.front, 7) && 7 in RunOf(steps).value.back.routes
  {
    assert RunOf([]) == Some(INIT);
    var a := Then([], OnBack(ReadError));
    a := Ask(a, RunOf(a).value);
    a := Then(a, OnBack(FailDone));
    a := Then(a, OnBack(PumpCloses));
    a := Then(a, OnFwd(CloseChannel));
  }

  // ---- progress ----

  /** Steps that somebody else decides: clients, the agent and its process, the daemon's shutdown. */
  predicate Outside(st: Step) {
    match st
    case ByClient(_, x) => x.Connect? || x.Detach? || x.RecvRequest? || x.RecvControl? || x.RecvUnknown?
    case ByPump(_, p) => p.Panic?
    case OnBack(y) => y.Emit? || y.AgentDies? || y.ReadError?
    case OnFwd(z) => z.ToAgentFails? || z.DaemonCloses?
  }

  /** Something is in a bridge's hand or in its socket queue. */
  predicate BridgeBusy(k: Client) {
    k.socket != [] || !k.pc.Reading?
  }

  /** Something is in the reply channel or in the pump's hand. */
  predicate PumpBusy(r: Req) {
    r.stage.Accepted? && (r.reply != [] || r.stage.pump.Holding? || r.stage.pump.Queued?)
  }

  /** The daemon has a frame to move on, or a connection to wind up. */
  ghost predicate Busy(s: State) {
    || (exists c <- s.front.clients :: BridgeBusy(s.front.clients[c]))
    || (exists id <- s.front.reqs :: PumpBusy(s.front.reqs[id]))
    || (Live(s.back) && s.back.pipe != []) || !(s.back.from.Listening? || s.back.from.Ended?)
    || (s.fwd.clientIn != [] && !s.fwd.stopped) || s.fwd.closing
  }

  /** A bridge, or the socket writer beside it, is never stuck. */
  lemma BridgeMoves(s: State, c: Cid) returns (st: Step)
    requires Inv(s) && !s.crashed && c in s.front.clients && BridgeBusy(s.front.clients[c])
    ensures Enabled(s, st) && !Outside(st) && st.ByClient? && st.c == c
    ensures s.front.clients[c].socket != [] ==> st.x.WriteRefusal? || st.x.WriteReply?
  {
    var k := s.front.clients[c];
    if k.socket != [] {
      assert Fine(s.back, s.front, k.socket[0].0);
      HeadIsOwn(s.back, s.front, c);
      st := ByClient(c, if k.pc == Awaiting(k.socket[0].0) then WriteRefusal else WriteReply);
    } else {
      var id := if k.pc.Checking? || k.pc.Sending? then (if k.pc.f.Request? then k.pc.f.id else 0) else k.pc.id;
      assert Fine(s.back, s.front, id) && AtClient(s.front, c, id);
      st := ByClient(c, if k.pc.Refusing? then QueueRefusal else if Refuses(s.fwd, k.pc) then Refuse
                        else if k.pc.Checking? then CheckOpen else Accept);
    }
  }

  /** The pump of a request whose client is attached gets what it has to the socket. */
  lemma PumpMoves(s: State, id: Id) returns (st: Step)
    requires Inv(s) && !s.crashed && id in s.front.reqs && PumpBusy(s.front.reqs[id])
    requires s.front.reqs[id].owner in s.front.clients && s.front.clients[s.front.reqs[id].owner].attached
    ensures Enabled(s, st) && !Outside(st)
  {
    var r := s.front.reqs[id];
    assert Fine(s.back, s.front, id);
    WayEnds(s.back, s.front, id);
    if s.front.clients[r.owner].socket != [] {
      st := BridgeMoves(s, r.owner);
    } else {
      st := ByPump(id, if r.stage.pump.Idle? then Take else Queue);
    }
  }

  /**
   Progress: in every run in which no client has left, while a frame is in a pipe, a channel, a queue or somebody's
   hand, the daemon has a step that waits for nobody outside, if sockets and the agent's pipe take what is written.
   */
  lemma Progress(steps: seq<Step>, s: State) returns (st: Step)
    requires RunOf(steps) == Some(s) && !s.crashed && Busy(s)
    requires forall c <- s.front.clients :: s.front.clients[c].attached
    ensures Enabled(s, st) && !Outside(st)
  {
    RunKeeps(steps, s);
    if c :| c in s.front.clients && BridgeBusy(s.front.clients[c]) {
      st := BridgeMoves(s, c);
    } else if id :| id in s.front.reqs && PumpBusy(s.front.reqs[id]) {
      assert Fine(s.back, s.front, id);
      st := PumpMoves(s, id);
    } else if s.fwd.clientIn != [] && !s.fwd.stopped {
      st := OnFwd(ToAgent);
    } else if s.fwd.closing {
      st := OnFwd(CloseChannel);
    } else {
      st := BackMoves(s);
    }
  }

  /** With all reply channels empty, pumpFromAgent and failAll are not stuck either. */
  lemma BackMoves(s: State) returns (st: Step)
    requires Inv(s) && !s.crashed && forall id <- s.front.reqs :: !PumpBusy(s.front.reqs[id])
    requires (Live(s.back) && s.back.pipe != []) || !(s.back.from.Listening? || s.back.from.Ended?)
    ensures Enabled(s, st) && !Outside(st)
  {
    var from := s.back.from;
    if from.Handing? {
      assert Fine(s.back, s.front, from.id);
      st := OnBack(Deliver);
    } else if from.Failing? && from.todo != {} {
      var id :| id in from.todo;
      assert Fine(s.back, s.front, id);
      st := OnBack(FailOne(id));
    } else {
      st := OnBack(if from.Listening? then Read else if from.Failing? then FailDone else PumpCloses);
    }
  }

  // ---- the daemon comes to rest ----

  function ClientWeight(k: Client): nat {
    |k.socket| + match k.pc
                 case Reading => 0
                 case Checking(_) => 4
                 case Sending(_) => 3
                 case Refusing(_) => 2
                 case Awaiting(_) => 0
  }

  function ReqWeight(r: Req): nat {
    3 * |r.reply| + if r.stage.Accepted? && r.stage.pump.Holding? then 2 else 0
  }

  function BackWeight(b: Back): nat {
    5 * |b.pipe| + match b.from
                   case Listening => 0
                   case Handing(_, _) => 4
                   case Failing(todo) => 4 + 4 * |todo|
                   case Failed => 3
                   case Ended => 0
  }

  function FwdWeight(w: Fwd): nat {
    |w.clientIn| + if w.closing then 1 else 0
  }

  function ClientWeights(clients: map<Cid, Client>): map<nat, nat> {
    map c | c in clients :: ClientWeight(clients[c])
  }

  function ReqWeights(reqs: map<Id, Req>): map<nat, nat> {
    map id | id in reqs :: ReqWeight(reqs[id])
  }

  ghost function FrontWeight(f: Front): nat {
    Sum(ClientWeights(f.clients)) + Sum(ReqWeights(f.reqs))
  }

  /** How much work the frames on the way still are, at most. */
  ghost function Weight(s: State): nat {
    FwdWeight(s.fwd) + BackWeight(s.back) + FrontWeight(s.front)
  }

  lemma ClientChange(f: Front, c: Cid, k: Client)
    ensures FrontWeight(f.(clients := f.clients[c := k])) + (if c in f.clients then ClientWeight(f.clients[c]) else 0)
         == FrontWeight(f) + ClientWeight(k)
  {
    assert ClientWeights(f.clients[c := k]) == ClientWeights(f.clients)[c := ClientWeight(k)];
    SumChange(ClientWeights(f.clients), c, ClientWeight(k));
  }

  lemma ReqChange(f: Front, id: Id, r: Req)
    ensures FrontWeight(f.(reqs := f.reqs[id := r])) + (if id in f.reqs then ReqWeight(f.reqs[id]) else 0)
         == FrontWeight(f) + ReqWeight(r)
  {
    assert ReqWeights(f.reqs[id := r]) == ReqWeights(f.reqs)[id := ReqWeight(r)];
    SumChange(ReqWeights(f.reqs), id, ReqWeight(r));
  }

  lemma ClientLighter(s: State, c: Cid, x: ClientStep)
    requires ClientMay(s, c, x) && !Outside(ByClient(c, x))
    ensures FwdWeight(ClientFwd(s, c, x)) + FrontWeight(ClientFront(s, c, x)) < FwdWeight(s.fwd) + FrontWeight(s.front)
    ensures ClientBack(s, x) == s.back
  {
    var f, g := s.front, ClientFront(s, c, x);
    var mid := f.(clients := f.clients[c := g.clients[c]]);
    ClientChange(f, c, g.clients[c]);
    if id :| Concerned(f.clients[c], x) == Some(id) && id in f.reqs {
      ReqChange(mid, id, g.reqs[id]);
      assert g == mid.(reqs := mid.reqs[id := g.reqs[id]]);
    } else {
      assert g == mid;
    }
  }

  lemma PumpLighter(f: Front, id: Id, p: PumpStep)
    requires PumpMay(f, id, p) && !p.Panic?
    ensures FrontWeight(PumpFront(f, id, p)) < FrontWeight(f)
  {
    var g := PumpFront(f, id, p);
    ReqChange(f, id, g.reqs[id]);
    if p.Queue? {
      var mid := f.(reqs := f.reqs[id := g.reqs[id]]);
      ClientChange(mid, f.reqs[id].owner, g.clients[f.reqs[id].owner]);
      assert g == mid.(clients := mid.clients[f.reqs[id].owner := g.clients[f.reqs[id].owner]]);
    } else {
      assert g == f.(reqs := f.reqs[id := g.reqs[id]]);
    }
  }

  lemma BackLighter(s: State, y: BackStep)
    requires BackMay(s, y) && !Outside(OnBack(y))
    ensures Weight(BackDo(s, y)) < Weight(s)
  {
    match y
    case Deliver => ReqChange(s.front, s.back.from.id, BackDo(s, y).front.reqs[s.back.from.id]);
    case FailOne(id) =>
      ReqChange(s.front, id, BackDo(s, y).front.reqs[id]);
      SizeWithout(s.back.from.todo, id);
    case _ =>
  }

  /** Every step of the daemon's own uses up work; so without steps from outside it comes to rest. */
  lemma OwnStepsEnd(s: State, st: Step)
    requires Enabled(s, st) && !Outside(st)
    ensures Weight(Do(s, st)) < Weight(s)
  {
    match st
    case ByClient(c, x) => ClientLighter(s, c, x);
    case ByPump(id, p) => PumpLighter(s.front, id, p);
    case OnBack(y) => BackLighter(s, y);
    case OnFwd(_) =>
  }

  /** No step is idle, but for a second call of `close`. */
  lemma StepsChange(s: State, st: Step)
    requires Closing(s.fwd) && Enabled(s, st) && (st == OnFwd(DaemonCloses) ==> !s.fwd.closed)
    ensures Do(s, st) != s
  {
    if !Outside(st) {
      OwnStepsEnd(s, st);
    } else if st.ByClient? {
      ClientChanges(s, st.c, st.x);
    } else if st.OnBack? && st.y.Emit? {
      assert |Do(s, st).back.pipe| == |s.back.pipe| + 1;
    }
  }

  lemma ClientChanges(s: State, c: Cid, x: ClientStep)
    requires ClientMay(s, c, x) && Outside(ByClient(c, x))
    ensures ClientFront(s, c, x) != s.front || ClientFwd(s, c, x) != s.fwd
  {
    var g := ClientFront(s, c, x);
    if x.RecvUnknown? {
      assert |ClientFwd(s, c, x).seen| == |s.fwd.seen| + 1;
    } else if x.Connect? {
      assert c in g.clients && c !in s.front.clients;
    } else {
      assert g.clients[c] != s.front.clients[c];
    }
  }
}
