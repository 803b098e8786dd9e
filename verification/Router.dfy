/**
 One host connection of the daemon as a step system: any number of clients, each with a bridge loop and a socket
 writer, one pump per accepted request, one pump to and one from the agent. The route table, the bounded
 channels and the two halves of `close` are steps of their own, so client frames, agent frames, the death of the
 connection and the shutdown of the daemon interleave in every possible way.
 */
module Router {
  import opened Basics

  /** Request ids are unique; client numbers stand for client connections. */
  type Id = nat

  type Cid = nat

  datatype Kind = Data | Stat | Result | Error

  datatype Frame = Frame(kind: Kind, body: nat)

  predicate Terminal(f: Frame) {
    f.kind.Result? || f.kind.Error?
  }

  const GONE := Frame(Error, 0)     // "agent connection closed"
  const REFUSAL := Frame(Error, 1)  // "host connection closed"

  const REPLY_CAP := 16
  const QUEUE_CAP := 64

  datatype ClientFrame =
    | Request(id: Id, body: nat)
    | Control(id: Id, body: nat)  // stdin, end_stdin, cancel, file_chunk
    | Unknown(body: nat)          // any other kind: logged and ignored

  datatype Verdict = Taken | Turned | Ignored

  datatype BridgePc =
    | Reading                   // reading the client's next frame
    | Checking(f: ClientFrame)  // in send, before isClosed
    | Sending(f: ClientFrame)   // isClosed said no; before the select
    | Refusing(id: Id)          // in sendBack, before writeCh takes the Error
    | Awaiting(id: Id)          // in sendBack, until the writer has written it

  /** A client connection: its bridge loop, its writeCh, and the frames written to its socket. */
  datatype Client = Client(pc: BridgePc, socket: seq<(Id, Frame)>, got: seq<(Id, Frame)>, attached: bool)

  /** The goroutine that copies one request's replies to its client. */
  datatype PumpPc =
    | Idle               // receiving from the reply channel
    | Holding(f: Frame)  // in sendBack, before writeCh takes the frame
    | Queued(f: Frame)   // in sendBack, until the writer has written it
    | Finished

  datatype Stage = Pending | Accepted(pump: PumpPc) | Refused

  /** A registered request: whose it is, its reply channel, and how far `bridge` got with it. */
  datatype Req = Req(owner: Cid, reply: seq<Frame>, stage: Stage)

  datatype FromPc =
    | Listening
    | Handing(id: Id, f: Frame)  // route looked up, blocked in ch <- f
    | Failing(todo: set<Id>)     // failAll has swapped the table
    | Failed                     // before close
    | Ended

  /** From the agent to the route table. `emitted`, `routed`, `swapped` and `failed` are history. */
  datatype Back = Back(
    routes: set<Id>,
    from: FromPc,
    alive: bool,
    pipe: seq<(Id, Frame)>,      // emitted, not yet read
    emitted: seq<(Id, Frame)>,
    routed: seq<(Id, Frame)>,    // read by pumpFromAgent
    swapped: set<Id>,            // the table that failAll took
    failed: set<Id>)             // ids whose channel failAll has written

  /** From the clients to the agent. Everything after `stopped` is history. */
  datatype Fwd = Fwd(
    clientIn: seq<(Cid, ClientFrame)>,
    closed: bool,
    closing: bool,                        // flag set, channel not closed yet
    chanClosed: bool,
    stopped: bool,                        // pumpToAgent has returned after a write error
    received: seq<(Cid, ClientFrame)>,    // written to the agent
    lost: seq<(Cid, ClientFrame)>,        // lost to the write error
    accepted: seq<(Cid, ClientFrame)>,
    seen: seq<(Cid, (ClientFrame, Verdict))>,
    closes: nat)                          // how often clientIn was closed

  /** What the bridges, socket writers and pumps share. */
  datatype Front = Front(clients: map<Cid, Client>, reqs: map<Id, Req>)

  /** `crashed`: a pump has sent on the writeCh of a client that is gone, which panics. */
  datatype State = State(fwd: Fwd, back: Back, front: Front, crashed: bool)

  /** The bridge loop of a client, and its socket writer. */
  datatype ClientStep =
    | Connect
    | Detach
    | RecvRequest(id: Id, body: nat)
    | RecvControl(id: Id, body: nat)
    | RecvUnknown(body: nat)
    | CheckOpen
    | Accept                 // the select of `send` takes the frame
    | Refuse                 // `send` answers false
    | QueueRefusal
    | WriteRefusal           // the socket writer, for the bridge
    | WriteReply             // the socket writer, for a pump

  /** The pump of an accepted request. */
  datatype PumpStep = Take | Queue | Panic

  /** The agent, pumpFromAgent and failAll. */
  datatype BackStep =
    | Emit(id: Id, frame: Frame)
    | AgentDies
    | Read
    | Deliver
    | ReadError
    | FailOne(id: Id)
    | FailDone
    | PumpCloses             // pumpFromAgent calls `close`

  /** pumpToAgent, and `close`. */
  datatype FwdStep =
    | ToAgent
    | ToAgentFails
    | DaemonCloses           // the daemon's shutdown calls `close`
    | CloseChannel           // the second half of `close`

  datatype Step =
    | ByClient(c: Cid, x: ClientStep)
    | ByPump(id: Id, p: PumpStep)
    | OnBack(y: BackStep)
    | OnFwd(z: FwdStep)

  const INIT := State(Fwd([], false, false, false, false, [], [], [], [], 0),
                      Back({}, Listening, true, [], [], [], {}, {}), Front(map[], map[]), false)

  // ---- the shared fields on the way to the agent ----

  predicate HasRoom(f: Fwd) {
    !f.chanClosed && |f.clientIn| < QUEUE_CAP
  }

  function Enqueued(f: Fwd, c: Cid, x: ClientFrame): Fwd {
    f.(clientIn := f.clientIn + [(c, x)], accepted := f.accepted + [(c, x)], seen := f.seen + [(c, (x, Taken))])
  }

  function Judged(f: Fwd, c: Cid, x: ClientFrame, v: Verdict): Fwd {
    f.(seen := f.seen + [(c, (x, v))])
  }

  /** pumpToAgent writes the oldest frame. */
  function Written(f: Fwd): Fwd
    requires f.clientIn != []
  {
    f.(clientIn := f.clientIn[1..], received := f.received + [f.clientIn[0]])
  }

  /** `close`: only the caller that sets the flag goes on to close the channel. */
  function Flagged(f: Fwd): Fwd {
    if f.closed then f else f.(closed := true, closing := true)
  }

  function Shut(f: Fwd): Fwd {
    f.(chanClosed := true, closing := false, closes := f.closes + 1)
  }

  // ---- clients ----

  predicate Has(f: Front, c: Cid, id: Id) {
    id in f.reqs && f.reqs[id].owner == c
  }

  /** `send` answers false: the flag is set, the channel is closed, or the queue is full. */
  predicate Refuses(w: Fwd, pc: BridgePc) {
    (pc.Checking? && w.closed) || (pc.Sending? && !HasRoom(w))
  }

  predicate ClientMay(s: State, c: Cid, x: ClientStep) {
    if c !in s.front.clients then
      x.Connect?
    else
      var k := s.front.clients[c];
      match x
      case Connect => false
      case Detach => k.attached && k.pc.Reading?
      case RecvRequest(id, _) => k.attached && k.pc.Reading? && id !in s.front.reqs
      case RecvControl(_, _) => k.attached && k.pc.Reading?
      case RecvUnknown(_) => k.attached && k.pc.Reading?
      case CheckOpen => k.pc.Checking? && !s.fwd.closed
      case Accept => k.pc.Sending? && HasRoom(s.fwd) && (k.pc.f.Request? ==> Has(s.front, c, k.pc.f.id))
      case Refuse => Refuses(s.fwd, k.pc) && (k.pc.f.Request? ==> Has(s.front, c, k.pc.f.id))
      case QueueRefusal => k.pc.Refusing? && |k.socket| < QUEUE_CAP
      case WriteRefusal => k.socket != [] && k.pc == Awaiting(k.socket[0].0)
      case WriteReply => k.socket != [] && k.pc != Awaiting(k.socket[0].0) && k.socket[0].0 in s.front.reqs
  }

  function SetPc(f: Front, c: Cid, pc: BridgePc): Front
    requires c in f.clients
  {
    f.(clients := f.clients[c := f.clients[c].(pc := pc)])
  }

  function SetStage(f: Front, id: Id, stage: Stage): Front
    requires id in f.reqs
  {
    f.(reqs := f.reqs[id := f.reqs[id].(stage := stage)])
  }

  function Push(f: Front, c: Cid, id: Id, x: Frame): Front
    requires c in f.clients
  {
    f.(clients := f.clients[c := f.clients[c].(socket := f.clients[c].socket + [(id, x)])])
  }

  /** The socket writer writes the frame at the head of writeCh. */
  function Pop(f: Front, c: Cid): Front
    requires c in f.clients && f.clients[c].socket != []
  {
    var k := f.clients[c];
    f.(clients := f.clients[c := k.(socket := k.socket[1..], got := k.got + [k.socket[0]])])
  }

  function ClientFront(s: State, c: Cid, x: ClientStep): Front
    requires ClientMay(s, c, x)
  {
    var f := s.front;
    if x.Connect? then
      f.(clients := f.clients[c := Client(Reading, [], [], true)])
    else
      var k := f.clients[c];
      match x
      case Connect => f
      case Detach => f.(clients := f.clients[c := k.(attached := false)])
      case RecvRequest(id, body) => SetPc(f, c, Checking(Request(id, body))).(reqs := f.reqs[id := Req(c, [], Pending)])
      case RecvControl(id, body) => SetPc(f, c, Checking(Control(id, body)))
      case RecvUnknown(_) => f
      case CheckOpen => SetPc(f, c, Sending(k.pc.f))
      case Accept =>
        if k.pc.f.Request? then SetStage(SetPc(f, c, Reading), k.pc.f.id, Accepted(Idle)) else SetPc(f, c, Reading)
      case Refuse =>
        if k.pc.f.Request? then SetStage(SetPc(f, c, Refusing(k.pc.f.id)), k.pc.f.id, Refused) else SetPc(f, c, Reading)
      case QueueRefusal => SetPc(Push(f, c, k.pc.id, REFUSAL), c, Awaiting(k.pc.id))
      case WriteRefusal => SetPc(Pop(f, c), c, Reading)
      case WriteReply =>
        var (id, x) := k.socket[0];
        SetStage(Pop(f, c), id, Accepted(if Terminal(x) then Finished else Idle))
  }

  function ClientFwd(s: State, c: Cid, x: ClientStep): Fwd
    requires ClientMay(s, c, x)
  {
    match x
    case RecvUnknown(body) => Judged(s.fwd, c, Unknown(body), Ignored)
    case Accept => Enqueued(s.fwd, c, s.front.clients[c].pc.f)
    case Refuse => Judged(s.fwd, c, s.front.clients[c].pc.f, Turned)
    case _ => s.fwd
  }

  function ClientBack(s: State, x: ClientStep): Back {
    if x.RecvRequest? then s.back.(routes := s.back.routes + {x.id}) else s.back
  }

  // ---- pumps ----

  predicate PumpMay(f: Front, id: Id, p: PumpStep) {
    && id in f.reqs && f.reqs[id].stage.Accepted?
    && match p
       case Take => f.reqs[id].stage.pump.Idle? && f.reqs[id].reply != []
       case Queue =>
         && f.reqs[id].stage.pump.Holding? && f.reqs[id].owner in f.clients
         && f.clients[f.reqs[id].owner].attached && |f.clients[f.reqs[id].owner].socket| < QUEUE_CAP
       case Panic =>
         f.reqs[id].stage.pump.Holding? && f.reqs[id].owner in f.clients && !f.clients[f.reqs[id].owner].attached
  }

  function PumpFront(f: Front, id: Id, p: PumpStep): Front
    requires PumpMay(f, id, p)
  {
    var r := f.reqs[id];
    match p
    case Take => f.(reqs := f.reqs[id := r.(reply := r.reply[1..], stage := Accepted(Holding(r.reply[0])))])
    case Queue => SetStage(Push(f, r.owner, id, r.stage.pump.f), id, Accepted(Queued(r.stage.pump.f)))
    case Panic => f
  }

  // ---- from the agent ----

  /** The agent's own discipline: it answers requests it has received, and nothing after their terminal frame. */
  ghost predicate AgentMay(s: State, id: Id) {
    && (exists x :: x in s.fwd.received && x.1.Request? && x.1.id == id)
    && forall f <- Project(s.back.emitted, id) :: !Terminal(f)
  }

  predicate Takes(f: Front, id: Id) {
    id in f.reqs && |f.reqs[id].reply| < REPLY_CAP
  }

  ghost predicate BackMay(s: State, y: BackStep) {
    match y
    case Emit(id, _) => s.back.alive && AgentMay(s, id)
    case AgentDies => s.back.alive
    case Read => s.back.from.Listening? && s.back.pipe != []
    case Deliver => s.back.from.Handing? && Takes(s.front, s.back.from.id)
    case ReadError => s.back.from.Listening?
    case FailOne(id) => s.back.from.Failing? && id in s.back.from.todo && Takes(s.front, id)
    case FailDone => s.back.from.Failing? && s.back.from.todo == {}
    case PumpCloses => s.back.from.Failed?
  }

  /** A frame enters the reply channel of a request. */
  function Reply(f: Front, id: Id, x: Frame): Front
    requires id in f.reqs
  {
    f.(reqs := f.reqs[id := f.reqs[id].(reply := f.reqs[id].reply + [x])])
  }

  ghost function BackDo(s: State, y: BackStep): State
    requires BackMay(s, y)
  {
    var b := s.back;
    match y
    case Emit(id, x) => s.(back := b.(pipe := b.pipe + [(id, x)], emitted := b.emitted + [(id, x)]))
    case AgentDies => s.(back := b.(alive := false))
    case Read =>
      var (id, x) := b.pipe[0];
      s.(back := b.(pipe := b.pipe[1..], routed := b.routed + [b.pipe[0]],
                    routes := if Terminal(x) then b.routes - {id} else b.routes,
                    from := if id in b.routes then Handing(id, x) else Listening))
    case Deliver => s.(front := Reply(s.front, b.from.id, b.from.f), back := b.(from := Listening))
    case ReadError => s.(back := b.(from := Failing(b.routes), swapped := b.routes, routes := {}))
    case FailOne(id) =>
      s.(front := Reply(s.front, id, GONE), back := b.(from := Failing(b.from.todo - {id}), failed := b.failed + {id}))
    case FailDone => s.(back := b.(from := Failed))
    case PumpCloses => s.(fwd := Flagged(s.fwd), back := b.(from := Ended))
  }

  // ---- to the agent ----

  predicate FwdMay(w: Fwd, z: FwdStep) {
    match z
    case ToAgent => !w.stopped && w.clientIn != []
    case ToAgentFails => !w.stopped && w.clientIn != []
    case DaemonCloses => true
    case CloseChannel => w.closing
  }

  function FwdDo(w: Fwd, z: FwdStep): Fwd
    requires FwdMay(w, z)
  {
    match z
    case ToAgent => Written(w)
    case ToAgentFails => w.(clientIn := w.clientIn[1..], lost := w.lost + [w.clientIn[0]], stopped := true)
    case DaemonCloses => Flagged(w)
    case CloseChannel => Shut(w)
  }

  // ---- the whole connection ----

  ghost predicate Enabled(s: State, st: Step) {
    && !s.crashed
    && match st
       case ByClient(c, x) => ClientMay(s, c, x)
       case ByPump(id, p) => PumpMay(s.front, id, p)
       case OnBack(y) => BackMay(s, y)
       case OnFwd(z) => FwdMay(s.fwd, z)
  }

  ghost function Do(s: State, st: Step): State
    requires Enabled(s, st)
  {
    match st
    case ByClient(c, x) => State(ClientFwd(s, c, x), ClientBack(s, x), ClientFront(s, c, x), false)
    case ByPump(id, p) => s.(front := PumpFront(s.front, id, p), crashed := p.Panic?)
    case OnBack(y) => BackDo(s, y)
    case OnFwd(z) => s.(fwd := FwdDo(s.fwd, z))
  }

  /** The state that the run `steps` leads to, when each of its steps is enabled where it is taken. */
  ghost function RunOf(steps: seq<Step>): Option<State> {
    if steps == [] then
      Some(INIT)
    else
      var before := RunOf(steps[..|steps| - 1]);
      var st := steps[|steps| - 1];
      if before.Some? && Enabled(before.value, st) then Some(Do(before.value, st)) else None
  }
}
