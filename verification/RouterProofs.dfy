/** What every step of the daemon's host connection keeps, request by request. */
module RouterProofs {
  import opened Basics
  import opened Router

  ghost predicate NoTerminal(fs: seq<Frame>) {
    forall i | 0 <= i < |fs| :: !Terminal(fs[i])
  }

  /** Nothing follows a terminal frame. */
  ghost predicate EndsAtTerminal(fs: seq<Frame>) {
    forall i | 0 <= i < |fs| - 1 :: !Terminal(fs[i])
  }

  ghost predicate Terminated(fs: seq<Frame>) {
    fs != [] && Terminal(fs[|fs| - 1])
  }

  predicate Live(b: Back) {
    b.from.Listening? || b.from.Handing?
  }

  /** pumpFromAgent is done with failAll. */
  predicate Dead(b: Back) {
    b.from.Failed? || b.from.Ended?
  }

  /** The request a bridge has registered and not yet handed to the agent's queue. */
  predicate PendingAt(pc: BridgePc, id: Id) {
    (pc.Checking? || pc.Sending?) && pc.f.Request? && pc.f.id == id
  }

  predicate RefusedAt(pc: BridgePc, id: Id) {
    (pc.Refusing? || pc.Awaiting?) && pc.id == id
  }

  predicate IsAccepted(f: Front, id: Id) {
    id in f.reqs && f.reqs[id].stage.Accepted?
  }

  /** Only its owner's bridge is at a request, at the right stage, and only its owner gets frames of it. */
  predicate AtClient(f: Front, c: Cid, id: Id)
    requires c in f.clients
  {
    var k := f.clients[c];
    && (PendingAt(k.pc, id) ==> Has(f, c, id) && f.reqs[id].stage.Pending?)
    && (RefusedAt(k.pc, id) ==> Has(f, c, id) && f.reqs[id].stage.Refused?)
    && (!Has(f, c, id) ==> Project(k.got, id) == [] && Project(k.socket, id) == [])
  }

  ghost predicate AtClients(f: Front, id: Id) {
    forall c <- f.clients :: AtClient(f, c, id)
  }

  /**
   An id leaves the table when its terminal frame is read, or with failAll; the agent answers accepted requests only,
   and pumpFromAgent reads what it sends in order.
   */
  ghost predicate Route(b: Back, known: bool, accepted: bool, id: Id) {
    var sent, read := Project(b.emitted, id), Project(b.routed, id);
    && EndsAtTerminal(sent) && (sent != [] ==> accepted)
    && (if Live(b) then sent == read + Project(b.pipe, id) else read <= sent)
    && (id in b.routes || id in b.swapped ==> known && NoTerminal(read))
    && (known && id !in b.routes && id !in b.swapped ==> Terminated(read))
    && (id in b.routes ==> id !in b.swapped && (Live(b) || read == []))
    && (b.from.Handing? && b.from.id == id ==> accepted)
    && (id in b.failed ==> id in b.swapped) && (Live(b) ==> id !in b.swapped)
    && (b.from.Failing? ==> (id in b.from.todo <==> id in b.swapped && id !in b.failed))
    && (Dead(b) && id in b.swapped ==> id in b.failed)
  }

  function Hand(b: Back, id: Id): seq<Frame> {
    if b.from.Handing? && b.from.id == id then [b.from.f] else []
  }

  /** What failAll adds to a request's channel. */
  function FailPart(b: Back, id: Id): seq<Frame> {
    if id in b.failed then [GONE] else []
  }

  function Held(p: PumpPc): seq<Frame> {
    if p.Holding? then [p.f] else []
  }

  function InQueue(p: PumpPc): seq<Frame> {
    if p.Queued? then [p.f] else []
  }

  predicate Registered(f: Front, id: Id) {
    id in f.reqs && f.reqs[id].owner in f.clients
  }

  /** The frames of one request on the way to its client's socket, oldest first. */
  function Got(f: Front, id: Id): seq<Frame>
    requires Registered(f, id)
  {
    Project(f.clients[f.reqs[id].owner].got, id)
  }

  function Waiting(f: Front, id: Id): seq<Frame>
    requires Registered(f, id)
  {
    Project(f.clients[f.reqs[id].owner].socket, id)
  }

  /**
   The flow of one request. Accepted: delivered, in the socket queue, in the pump's hand, in the reply channel, in
   pumpFromAgent's hand, in this order, are the frames read for it, then failAll's Error. Refused: only the
   refusal is ever on its way. Pending: nothing is.
   */
  ghost predicate Flow(b: Back, f: Front, id: Id) {
    id in f.reqs ==>
      && f.reqs[id].owner in f.clients && |f.reqs[id].reply| <= REPLY_CAP
      && var r, pc := f.reqs[id], f.clients[f.reqs[id].owner].pc;
      match r.stage
      case Accepted(p) =>
        && Got(f, id) + Waiting(f, id) + Held(p) + r.reply + Hand(b, id) == Project(b.routed, id) + FailPart(b, id)
        && Waiting(f, id) == InQueue(p)
        && (if p.Finished? then Terminated(Got(f, id)) else NoTerminal(Got(f, id)))
      case Refused =>
        && Got(f, id) == (if RefusedAt(pc, id) then [] else [REFUSAL])
        && Waiting(f, id) == (if pc == Awaiting(id) then [REFUSAL] else [])
        && r.reply == FailPart(b, id)
      case Pending =>
        PendingAt(pc, id) && Got(f, id) == [] && Waiting(f, id) == [] && r.reply == FailPart(b, id)
  }

  /** What holds of request `id`, registered or not. */
  ghost predicate Fine(b: Back, f: Front, id: Id) {
    AtClients(f, id) && Route(b, id in f.reqs, IsAccepted(f, id), id) && Flow(b, f, id)
  }

  /** The accepted frames, out of everything that the bridges have judged. */
  function TakenOf(seen: seq<(Cid, (ClientFrame, Verdict))>): seq<(Cid, ClientFrame)> {
    if seen == [] then
      []
    else
      var (c, (x, v)) := seen[|seen| - 1];
      TakenOf(seen[..|seen| - 1]) + if v.Taken? then [(c, x)] else []
  }

  /** The queue to the agent: accepted frames in order, what was written, what the write error lost, what waits. */
  ghost predicate Queueing(w: Fwd) {
    && w.accepted == w.received + w.lost + w.clientIn == TakenOf(w.seen)
    && |w.lost| <= (if w.stopped then 1 else 0)
    && |w.clientIn| <= QUEUE_CAP
  }

  /** close happens once. */
  predicate Closing(w: Fwd) {
    && w.closes == (if w.chanClosed then 1 else 0)
    && !(w.closing && w.chanClosed)
    && ((w.closing || w.chanClosed) <==> w.closed)
  }

  /** The verdict on a request is its stage. */
  predicate VerdictOk(f: Front, x: (Cid, (ClientFrame, Verdict))) {
    x.1.0.Request? ==>
      && Has(f, x.0, x.1.0.id)
      && (x.1.1.Taken? ==> f.reqs[x.1.0.id].stage.Accepted?)
      && (x.1.1.Turned? ==> f.reqs[x.1.0.id].stage.Refused?)
  }

  ghost predicate Verdicts(w: Fwd, f: Front) {
    forall i | 0 <= i < |w.seen| :: VerdictOk(f, w.seen[i])
  }

  ghost predicate Inv(s: State) {
    (forall id :: Fine(s.back, s.front, id)) && Queueing(s.fwd) && Closing(s.fwd) && Verdicts(s.fwd, s.front)
  }

  // ---- requests that a step does not concern ----

  predicate SameAt(k: Client, l: Client, id: Id) {
    && PendingAt(k.pc, id) == PendingAt(l.pc, id) && RefusedAt(k.pc, id) == RefusedAt(l.pc, id)
    && (k.pc == Awaiting(id)) == (l.pc == Awaiting(id))
    && Project(k.got, id) == Project(l.got, id) && Project(k.socket, id) == Project(l.socket, id)
  }

  ghost predicate SameFor(f: Front, g: Front, id: Id) {
    && (id in f.reqs <==> id in g.reqs) && (id in f.reqs ==> f.reqs[id] == g.reqs[id])
    && f.clients.Keys <= g.clients.Keys
    && forall c <- g.clients ::
         SameAt(if c in f.clients then f.clients[c] else Client(Reading, [], [], true), g.clients[c], id)
  }

  lemma SameFine(b: Back, f: Front, g: Front, id: Id)
    requires Fine(b, f, id) && SameFor(f, g, id)
    ensures Fine(b, g, id)
  {
    assert AtClients(g, id) by {
      forall c | c in g.clients
        ensures AtClient(g, c, id)
      {
        assert c in f.clients ==> AtClient(f, c, id);
      }
    }
  }

  // ---- the steps of a client ----

  /** The request that the step concerns. */
  function Concerned(k: Client, x: ClientStep): Option<Id> {
    match x
    case RecvRequest(id, _) => Some(id)
    case Accept => if k.pc.Sending? && k.pc.f.Request? then Some(k.pc.f.id) else None
    case Refuse => if (k.pc.Checking? || k.pc.Sending?) && k.pc.f.Request? then Some(k.pc.f.id) else None
    case QueueRefusal => if k.pc.Refusing? then Some(k.pc.id) else None
    case WriteRefusal => if k.socket != [] then Some(k.socket[0].0) else None
    case WriteReply => if k.socket != [] then Some(k.socket[0].0) else None
    case _ => None
  }

  /** One write moves a frame from the queue to the socket. */
  lemma Popped(k: Client, id: Id)
    requires k.socket != []
    ensures var part := if k.socket[0].0 == id then [k.socket[0].1] else [];
            && Project(k.got + [k.socket[0]], id) == Project(k.got, id) + part
            && Project(k.socket, id) == part + Project(k.socket[1..], id)
  {
    ProjectSnoc(k.got, k.socket[0], id);
    ProjectHead(k.socket, id);
  }

  lemma ClientOthers(s: State, c: Cid, x: ClientStep, id: Id)
    requires ClientMay(s, c, x) && (c in s.front.clients ==> Concerned(s.front.clients[c], x) != Some(id))
    ensures SameFor(s.front, ClientFront(s, c, x), id)
  {
    if c in s.front.clients {
      ClientSelf(s, c, x, id);
    }
  }

  lemma ClientSelf(s: State, c: Cid, x: ClientStep, id: Id)
    requires ClientMay(s, c, x) && c in s.front.clients && Concerned(s.front.clients[c], x) != Some(id)
    ensures SameAt(s.front.clients[c], ClientFront(s, c, x).clients[c], id)
  {
    if x.QueueRefusal? {
      ProjectSnoc(s.front.clients[c].socket, (s.front.clients[c].pc.id, REFUSAL), id);
    } else if x.WriteRefusal? || x.WriteReply? {
      Popped(s.front.clients[c], id);
    }
  }

  lemma RecvFine(s: State, c: Cid, id: Id, body: nat)
    requires Fine(s.back, s.front, id) && ClientMay(s, c, RecvRequest(id, body)) && c in s.front.clients
    ensures Fine(ClientBack(s, RecvRequest(id, body)), ClientFront(s, c, RecvRequest(id, body)), id)
  {
    assert AtClient(s.front, c, id);
  }

  lemma SendFine(s: State, c: Cid, x: ClientStep, id: Id)
    requires Fine(s.back, s.front, id) && ClientMay(s, c, x) && (x.Accept? || x.Refuse?)
    requires c in s.front.clients && Concerned(s.front.clients[c], x) == Some(id)
    ensures Fine(s.back, ClientFront(s, c, x), id)
  {
    assert AtClient(s.front, c, id);
  }

  lemma RefusalFine(s: State, c: Cid)
    requires ClientMay(s, c, QueueRefusal) && c in s.front.clients && Fine(s.back, s.front, s.front.clients[c].pc.id)
    ensures Fine(s.back, ClientFront(s, c, QueueRefusal), s.front.clients[c].pc.id)
  {
    var id := s.front.clients[c].pc.id;
    assert AtClient(s.front, c, id);
    ProjectSnoc(s.front.clients[c].socket, (id, REFUSAL), id);
  }

  /** The head of a socket queue is the refusal its bridge awaits, or its pump has queued it. */
  lemma HeadIsOwn(b: Back, f: Front, c: Cid)
    requires c in f.clients && f.clients[c].socket != [] && Fine(b, f, f.clients[c].socket[0].0)
    ensures var (id, x) := f.clients[c].socket[0];
            && Has(f, c, id) && Waiting(f, id) == [x] && Project(f.clients[c].socket[1..], id) == []
            && (if f.clients[c].pc == Awaiting(id) then f.reqs[id].stage.Refused? && x == REFUSAL
                else f.reqs[id].stage == Accepted(Queued(x)))
  {
    Popped(f.clients[c], f.clients[c].socket[0].0);
    assert AtClient(f, c, f.clients[c].socket[0].0);
  }

  lemma WriteRefusalFine(s: State, c: Cid)
    requires ClientMay(s, c, WriteRefusal) && c in s.front.clients
    requires Fine(s.back, s.front, s.front.clients[c].socket[0].0)
    ensures Fine(s.back, ClientFront(s, c, WriteRefusal), s.front.clients[c].socket[0].0)
  {
    HeadIsOwn(s.back, s.front, c);
    Popped(s.front.clients[c], s.front.clients[c].socket[0].0);
  }

  lemma WriteReplyFine(s: State, c: Cid)
    requires ClientMay(s, c, WriteReply) && c in s.front.clients
    requires Fine(s.back, s.front, s.front.clients[c].socket[0].0)
    ensures Fine(s.back, ClientFront(s, c, WriteReply), s.front.clients[c].socket[0].0)
  {
    var g := ClientFront(s, c, WriteReply);
    var (id, y) := s.front.clients[c].socket[0];
    HeadIsOwn(s.back, s.front, c);
    assert Got(g, id) == Got(s.front, id) + [y] && Waiting(g, id) == [] by {
      Popped(s.front.clients[c], id);
    }
    assert Got(s.front, id) + [y] + [] == Got(s.front, id) + [y];
  }

  lemma ClientFine(s: State, c: Cid, x: ClientStep, id: Id)
    requires ClientMay(s, c, x) && forall j :: Fine(s.back, s.front, j)
    ensures Fine(ClientBack(s, x), ClientFront(s, c, x), id)
  {
    if c in s.front.clients && Concerned(s.front.clients[c], x) == Some(id) {
      match x
      case RecvRequest(_, body) => RecvFine(s, c, id, body);
      case Accept => SendFine(s, c, x, id);
      case Refuse => SendFine(s, c, x, id);
      case QueueRefusal => RefusalFine(s, c);
      case WriteRefusal => WriteRefusalFine(s, c);
      case WriteReply => WriteReplyFine(s, c);
      case _ =>
    } else {
      ClientOthers(s, c, x, id);
      SameFine(s.back, s.front, ClientFront(s, c, x), id);
    }
  }

  // ---- the steps of a pump ----

  lemma PumpOthers(f: Front, j: Id, p: PumpStep, id: Id)
    requires PumpMay(f, j, p) && j != id
    ensures SameFor(f, PumpFront(f, j, p), id)
  {
    if p.Queue? {
      ProjectSnoc(f.clients[f.reqs[j].owner].socket, (j, f.reqs[j].stage.pump.f), id);
    }
  }

  lemma TakeFine(b: Back, f: Front, id: Id)
    requires Fine(b, f, id) && PumpMay(f, id, Take)
    ensures Fine(b, PumpFront(f, id, Take), id)
  {
    var r := f.reqs[id];
    assert r.reply == [r.reply[0]] + r.reply[1..];
    assert Got(f, id) + [] + [] + r.reply + Hand(b, id) == Got(f, id) + [] + [r.reply[0]] + r.reply[1..] + Hand(b, id);
  }

  lemma QueueFine(b: Back, f: Front, id: Id)
    requires Fine(b, f, id) && PumpMay(f, id, Queue)
    ensures Fine(b, PumpFront(f, id, Queue), id)
  {
    var r, g := f.reqs[id], PumpFront(f, id, Queue);
    ProjectSnoc(f.clients[r.owner].socket, (id, r.stage.pump.f), id);
    assert Got(g, id) == Got(f, id) && Waiting(g, id) == [] + [r.stage.pump.f] == [r.stage.pump.f];
    assert Got(f, id) + [] + [r.stage.pump.f] == Got(f, id) + [r.stage.pump.f] + [];
  }

  lemma PumpFine(b: Back, f: Front, j: Id, p: PumpStep, id: Id)
    requires Fine(b, f, id) && PumpMay(f, j, p)
    ensures Fine(b, PumpFront(f, j, p), id)
  {
    if j != id {
      PumpOthers(f, j, p, id);
      SameFine(b, f, PumpFront(f, j, p), id);
    } else if p.Take? {
      TakeFine(b, f, id);
    } else if p.Queue? {
      QueueFine(b, f, id);
    }
  }

  // ---- the steps of the agent, pumpFromAgent and failAll ----

  lemma EmitFine(s: State, y: BackStep, id: Id)
    requires Fine(s.back, s.front, id) && BackMay(s, y) && y.Emit? && IsAccepted(s.front, y.id)
    ensures Fine(BackDo(s, y).back, s.front, id)
  {
    ProjectSnoc(s.back.emitted, (y.id, y.frame), id);
    ProjectSnoc(s.back.pipe, (y.id, y.frame), id);
  }

  lemma TerminalIsLast(read: seq<Frame>, rest: seq<Frame>)
    requires EndsAtTerminal(read + rest) && rest != []
    ensures NoTerminal(read)
  {
    assert forall i | 0 <= i < |read| :: (read + rest)[i] == read[i];
  }

  /** Reading one more frame of the id, which is known and still in the table; or of another id. */
  lemma ReadRoute(b: Back, known: bool, accepted: bool, id: Id)
    requires Route(b, known, accepted, id) && b.from.Listening? && b.pipe != [] && (accepted ==> known)
    ensures b.pipe[0].0 == id ==> accepted && id in b.routes && NoTerminal(Project(b.routed, id))
    ensures Project(b.routed + [b.pipe[0]], id)
         == Project(b.routed, id) + if b.pipe[0].0 == id then [b.pipe[0].1] else []
    ensures Project(b.pipe, id) == (if b.pipe[0].0 == id then [b.pipe[0].1] else []) + Project(b.pipe[1..], id)
  {
    ProjectSnoc(b.routed, b.pipe[0], id);
    ProjectHead(b.pipe, id);
    if b.pipe[0].0 == id {
      TerminalIsLast(Project(b.routed, id), Project(b.pipe, id));
    }
  }

  lemma ReadFine(s: State, id: Id)
    requires Fine(s.back, s.front, id) && BackMay(s, Read)
    ensures Fine(BackDo(s, Read).back, s.front, id)
  {
    var b := s.back;
    ReadRoute(b, id in s.front.reqs, IsAccepted(s.front, id), id);
    if b.pipe[0].0 == id {
      var r := s.front.reqs[id];
      var way := Got(s.front, id) + Waiting(s.front, id) + Held(r.stage.pump) + r.reply;
      assert way + [] == way && Project(b.routed, id) + [] == Project(b.routed, id) == way;
    }
  }

  /** One more frame in the reply channel of request `id`, out of pumpFromAgent's hand or from failAll. */
  lemma ReplyFine(s: State, y: BackStep, id: Id)
    requires Fine(s.back, s.front, id) && BackMay(s, y)
    requires (y.Deliver? && s.back.from.id == id) || (y.FailOne? && y.id == id)
    ensures Fine(BackDo(s, y).back, BackDo(s, y).front, id)
  {
    var r, g := s.front.reqs[id], BackDo(s, y).front;
    assert Got(g, id) == Got(s.front, id) && Waiting(g, id) == Waiting(s.front, id);
    if r.stage.Accepted? {
      LastReply(Got(s.front, id) + Waiting(s.front, id) + Held(r.stage.pump), r.reply,
                if y.Deliver? then s.back.from.f else GONE);
    }
  }

  lemma LastReply(way: seq<Frame>, reply: seq<Frame>, x: Frame)
    ensures way + (reply + [x]) + [] == way + reply + [x] == way + reply + [] + [x]
  {
  }

  lemma ReplyOthers(s: State, y: BackStep, id: Id)
    requires Fine(s.back, s.front, id) && BackMay(s, y)
    requires (y.Deliver? && s.back.from.id != id) || (y.FailOne? && y.id != id)
    ensures Fine(BackDo(s, y).back, BackDo(s, y).front, id)
  {
    SameFine(s.back, s.front, BackDo(s, y).front, id);
  }

  lemma FailFine(s: State, y: BackStep, id: Id)
    requires Fine(s.back, s.front, id) && BackMay(s, y)
    requires y.AgentDies? || y.ReadError? || y.FailDone? || y.PumpCloses?
    ensures Fine(BackDo(s, y).back, s.front, id)
  {
  }

  lemma BackFine(s: State, y: BackStep, id: Id)
    requires Inv(s) && BackMay(s, y)
    ensures Fine(BackDo(s, y).back, BackDo(s, y).front, id)
  {
    assert Fine(s.back, s.front, id);
    match y
    case Emit(j, _) =>
      EmitsAccepted(s, j);
      EmitFine(s, y, id);
    case Read => ReadFine(s, id);
    case Deliver =>
      if s.back.from.id == id {
        ReplyFine(s, y, id);
      } else {
        ReplyOthers(s, y, id);
      }
    case FailOne(j) =>
      if j == id {
        ReplyFine(s, y, id);
      } else {
        ReplyOthers(s, y, id);
      }
    case _ => FailFine(s, y, id);
  }

  lemma EmitsAccepted(s: State, id: Id)
    requires Queueing(s.fwd) && Verdicts(s.fwd, s.front) && AgentMay(s, id)
    ensures IsAccepted(s.front, id)
  {
    var x :| x in s.fwd.received && x.1.Request? && x.1.id == id;
    assert x in s.fwd.accepted;
    TakenMember(s.fwd.seen, x);
  }

  // ---- the queue to the agent, and the verdicts ----

  lemma {:induction false} TakenMember(seen: seq<(Cid, (ClientFrame, Verdict))>, x: (Cid, ClientFrame))
    requires x in TakenOf(seen)
    ensures (x.0, (x.1, Taken)) in seen
  {
    var (c, (y, v)) := seen[|seen| - 1];
    if !(v.Taken? && x == (c, y)) {
      TakenMember(seen[..|seen| - 1], x);
    }
  }

  lemma JudgedKeeps(w: Fwd, c: Cid, x: ClientFrame, v: Verdict)
    requires Queueing(w) && (v.Taken? ==> HasRoom(w))
    ensures Queueing(if v.Taken? then Enqueued(w, c, x) else Judged(w, c, x, v))
  {
    assert (w.seen + [(c, (x, v))])[..|w.seen|] == w.seen;
    assert w.received + w.lost + (w.clientIn + [(c, x)]) == w.received + w.lost + w.clientIn + [(c, x)];
  }

  lemma FwdKeeps(w: Fwd, z: FwdStep)
    requires Queueing(w) && Closing(w) && FwdMay(w, z)
    ensures Queueing(FwdDo(w, z)) && Closing(FwdDo(w, z))
  {
  }

  lemma ClientFwdKeeps(s: State, c: Cid, x: ClientStep)
    requires Queueing(s.fwd) && Closing(s.fwd) && ClientMay(s, c, x)
    ensures Queueing(ClientFwd(s, c, x)) && Closing(ClientFwd(s, c, x))
  {
    match x
    case RecvUnknown(body) => JudgedKeeps(s.fwd, c, Unknown(body), Ignored);
    case Accept => JudgedKeeps(s.fwd, c, s.front.clients[c].pc.f, Taken);
    case Refuse => JudgedKeeps(s.fwd, c, s.front.clients[c].pc.f, Turned);
    case _ =>
  }

  lemma FwdKept(s: State, st: Step)
    requires Queueing(s.fwd) && Closing(s.fwd) && Enabled(s, st)
    ensures Queueing(Do(s, st).fwd) && Closing(Do(s, st).fwd)
  {
    match st
    case ByClient(c, x) => ClientFwdKeeps(s, c, x);
    case OnFwd(z) => FwdKeeps(s.fwd, z);
    case OnBack(_) =>
    case ByPump(_, _) =>
  }

  /** A request never loses its owner, and an accepted or refused one stays so. */
  ghost predicate Onward(f: Front, g: Front) {
    forall id <- f.reqs ::
      && id in g.reqs && g.reqs[id].owner == f.reqs[id].owner
      && (f.reqs[id].stage.Accepted? ==> g.reqs[id].stage.Accepted?)
      && (f.reqs[id].stage.Refused? ==> g.reqs[id].stage.Refused?)
  }

  lemma ClientOnward(s: State, c: Cid, x: ClientStep)
    requires ClientMay(s, c, x) && forall id :: Fine(s.back, s.front, id)
    ensures Onward(s.front, ClientFront(s, c, x))
  {
    if c in s.front.clients && Concerned(s.front.clients[c], x).Some? {
      var id := Concerned(s.front.clients[c], x).value;
      assert Fine(s.back, s.front, id) && AtClient(s.front, c, id);
      if x.WriteRefusal? || x.WriteReply? {
        HeadIsOwn(s.back, s.front, c);
      }
    }
  }

  lemma VerdictsKeep(w: Fwd, f: Front, g: Front)
    requires Verdicts(w, f) && Onward(f, g)
    ensures Verdicts(w, g)
  {
    forall i | 0 <= i < |w.seen|
      ensures VerdictOk(g, w.seen[i])
    {
      assert VerdictOk(f, w.seen[i]);
    }
  }

  lemma VerdictsKept(s: State, st: Step)
    requires Inv(s) && Enabled(s, st)
    ensures Verdicts(Do(s, st).fwd, Do(s, st).front)
  {
    var t := Do(s, st);
    if st.ByClient? {
      ClientOnward(s, st.c, st.x);
    }
    VerdictsKeep(s.fwd, s.front, t.front);
    if st.ByClient? && t.fwd != s.fwd {
      assert t.fwd.seen[..|s.fwd.seen|] == s.fwd.seen && VerdictOk(t.front, t.fwd.seen[|s.fwd.seen|]);
    }
  }

  lemma FineKept(s: State, st: Step, id: Id)
    requires Inv(s) && Enabled(s, st)
    ensures Fine(Do(s, st).back, Do(s, st).front, id)
  {
    assert Fine(s.back, s.front, id);
    match st
    case ByClient(c, x) => ClientFine(s, c, x, id);
    case ByPump(j, p) => PumpFine(s.back, s.front, j, p, id);
    case OnBack(y) => BackFine(s, y, id);
    case OnFwd(z) =>
  }

  /** Every step of the host connection keeps the invariant. */
  lemma StepKeeps(s: State, st: Step)
    requires Inv(s) && Enabled(s, st)
    ensures Inv(Do(s, st))
  {
    forall id {
      FineKept(s, st, id);
    }
    VerdictsKept(s, st);
    FwdKept(s, st);
  }

  lemma {:induction false} RunKeeps(steps: seq<Step>, s: State)
    requires RunOf(steps) == Some(s)
    ensures Inv(s)
  {
    if steps != [] {
      var before := RunOf(steps[..|steps| - 1]).value;
      RunKeeps(steps[..|steps| - 1], before);
      StepKeeps(before, steps[|steps| - 1]);
    }
  }
}
