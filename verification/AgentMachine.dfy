/**
 The agent as a step system: one reader loop, one goroutine per exec and per file_get, two output
 streamers per running process. `a.mu` (table), `a.outMu` (out) and the session mutexes are taken and
 released in separate steps, so every interleaving of the goroutines is a sequence of steps here. What a
 process, a file or a client does next is chosen by the label.
 */
module AgentMachine {
  import opened Basics
  import opened Sessions
  import opened SessionCore

  datatype MainPc =
    | Idle                                         // reading the next frame
    | Registering(id: Id, req: Request)            // newRunningReq, under a.mu
    | Looking                                      // feedStdin, closeStdin, cancelReq, under a.mu
    | Resolving(id: Id, session: string, put: bool)  // session of a file_put or a file_stat, under a.mu
    | Putting(id: Id)                              // inside the file_put loop
    | Replying(id: Id, reply: Reply)               // under a.outMu
    | Draining                                     // end of input: pending.Wait
    | Exited

  datatype StreamPc = Reading | Writing | Closed   // Writing: under a.outMu

  datatype GetPc =
    | New(session: string)      // goroutine created, pending.Add not executed yet
    | Opening(session: string)  // resolvePath, under a.mu
    | Copying                   // reading the file
    | Sending(last: bool)       // under a.outMu
    | Finishing                 // the Done chunk is out, the Result is not
    | Closing(reply: Reply)     // the terminal frame, under a.outMu, then pending.Done
    | Over(at: nat)             // the terminal frame is the wire's at this index

  datatype Thread = MainT | ExecT(id: Id) | StreamT(id: Id, stderr: bool) | GetT(id: Id)

  datatype State = State(
    core: Core,
    main: MainPc,
    streams: map<(Id, bool), StreamPc>,
    gets: map<Id, GetPc>,
    table: Option<Thread>,    // holder of a.mu
    out: Option<Thread>,      // holder of a.outMu
    pending: nat,             // the WaitGroup's counter
    wire: seq<(Id, Reply)>,   // frames written, in order
    used: set<Id>)            // history: the ids clients have used

  /** The reader loop; the steps marked (u) run the section of the global lock that it holds, and unlock. */
  datatype ReaderStep =
    | RecvExec(id: Id, req: Request)
    | RecvGet(id: Id, session: string)
    | RecvFile(id: Id, session: string, put: bool)
    | RecvUnsupported(id: Id)
    | RecvControl
    | RecvEof
    | PutEnd(id: Id, ok: bool)
    | Exit
    | Registered             // (u)
    | LookedUp               // (u)
    | ResolvedFile           // (u)
    | Replied                // (u)

  datatype StreamStep =
    | PipeData
    | WriteOutput            // (u)
    | PipeEnd

  datatype GetStep =
    | GetStart
    | GetOpened              // (u)
    | GetData(last: bool)
    | GetFail
    | GetSent                // (u)
    | GetResult
    | GetClosed              // (u)

  /** Any goroutine takes the global lock that it is at, or does what comes next. */
  datatype Step =
    | Acquire(t: Thread)
    | Reader(r: ReaderStep)
    | ExecBy(id: Id, x: ExecStep)
    | StreamBy(id: Id, stderr: bool, y: StreamStep)
    | GetBy(id: Id, z: GetStep)

  function Init(host: Host): State {
    State(Core(host, map[], map[], Tables(map[], []), []), Replying(0, Hello), map[], map[], None, None, 0, [], {0})
  }

  datatype LockName = NoLock | Table | Out

  function LockOf(pc: ExecPc): LockName {
    match pc
    case Binding => Table
    case Unregistering => Table
    case Held(x) => if x.Persisting? then Table else if x.Reporting? then Out else NoLock
    case _ => NoLock
  }

  /** The lock that goroutine `t` waits for or holds. */
  function At(s: State, t: Thread): LockName {
    match t
    case MainT =>
      if s.main.Registering? || s.main.Looking? || s.main.Resolving? then Table
      else if s.main.Replying? then Out
      else NoLock
    case ExecT(id) =>
      if id in s.core.execs then LockOf(s.core.execs[id].pc) else NoLock
    case StreamT(id, e) => if (id, e) in s.streams && s.streams[(id, e)].Writing? then Out else NoLock
    case GetT(id) =>
      if id !in s.gets then NoLock
      else if s.gets[id].Opening? then Table
      else if s.gets[id].Sending? || s.gets[id].Closing? then Out
      else NoLock
  }

  predicate Holding(s: State, t: Thread) {
    (At(s, t).Table? && s.table == Some(t)) || (At(s, t).Out? && s.out == Some(t))
  }

  predicate ReaderMay(s: State, r: ReaderStep) {
    match r
    case RecvExec(id, _) => s.main.Idle? && id !in s.used
    case RecvGet(id, _) => s.main.Idle? && id !in s.used
    case RecvFile(id, _, _) => s.main.Idle? && id !in s.used
    case RecvUnsupported(id) => s.main.Idle? && id !in s.used
    case RecvControl => s.main.Idle?
    case RecvEof => s.main.Idle?
    case PutEnd(id, _) => s.main == Putting(id)
    case Exit => s.main.Draining? && s.pending == 0
    case Registered => s.main.Registering? && Holding(s, MainT)
    case LookedUp => s.main.Looking? && Holding(s, MainT)
    case ResolvedFile => s.main.Resolving? && Holding(s, MainT)
    case Replied => s.main.Replying? && Holding(s, MainT)
  }

  predicate BothClosed(s: State, id: Id) {
    && (id, false) in s.streams && s.streams[(id, false)].Closed?
    && (id, true) in s.streams && s.streams[(id, true)].Closed?
  }

  predicate IsSection(x: ExecStep) {
    x.BindSession? || x.WriteTerminal? || x.PersistSession? || x.Unregister?
  }

  predicate ExecMay(s: State, id: Id, x: ExecStep) {
    May(s.core, id, x) && (IsSection(x) ==> Holding(s, ExecT(id))) && (x.Joined? ==> BothClosed(s, id))
  }

  predicate StreamMay(s: State, id: Id, e: bool, y: StreamStep) {
    (id, e) in s.streams && if y.WriteOutput? then Holding(s, StreamT(id, e)) else s.streams[(id, e)].Reading?
  }

  predicate GetMay(s: State, id: Id, z: GetStep) {
    && id in s.gets
    && match z
       case GetStart => s.gets[id].New?
       case GetOpened => s.gets[id].Opening? && Holding(s, GetT(id))
       case GetData(_) => s.gets[id].Copying?
       case GetFail => s.gets[id].Copying?
       case GetSent => s.gets[id].Sending? && Holding(s, GetT(id))
       case GetResult => s.gets[id].Finishing?
       case GetClosed => s.gets[id].Closing? && Holding(s, GetT(id))
  }

  predicate Enabled(s: State, st: Step) {
    && !s.main.Exited?
    && match st
       case Acquire(t) => (At(s, t).Table? && s.table.None?) || (At(s, t).Out? && s.out.None?)
       case Reader(r) => ReaderMay(s, r)
       case ExecBy(id, x) => ExecMay(s, id, x)
       case StreamBy(id, e, y) => StreamMay(s, id, e, y)
       case GetBy(id, z) => GetMay(s, id, z)
  }

  /** A frame reaches the wire and its writer gives `a.outMu` back. */
  function Emit(s: State, id: Id, k: Reply): State {
    s.(wire := s.wire + [(id, k)], out := None)
  }

  function Less(n: nat): nat {
    if n > 0 then n - 1 else 0
  }

  function ReaderDo(s: State, r: ReaderStep): State
    requires ReaderMay(s, r)
  {
    match r
    case RecvExec(id, req) =>
      s.(used := s.used + {id}, main := if req.argv == [] then Replying(id, Error) else Registering(id, req))
    case RecvGet(id, name) => s.(used := s.used + {id}, gets := s.gets[id := New(name)])
    case RecvFile(id, name, put) => s.(used := s.used + {id}, main := Resolving(id, name, put))
    case RecvUnsupported(id) => s.(used := s.used + {id}, main := Replying(id, Error))
    case RecvControl => s.(main := Looking)
    case RecvEof => s.(main := Draining)
    case PutEnd(id, ok) => s.(main := Replying(id, if ok then Result(0) else Error))
    case Exit => s.(main := Exited)
    case Registered =>
      s.(main := Idle, table := None, pending := s.pending + 1,
         core := Dispatch(s.core, s.main.id, s.main.req, |s.wire|))
    case LookedUp => s.(main := Idle, table := None)
    case ResolvedFile =>
      s.(core := Resolve(s.core, s.main.session), table := None,
         main := if s.main.put then Putting(s.main.id) else Replying(s.main.id, Stat))
    case Replied => Emit(s, s.main.id, s.main.reply).(main := Idle)
  }

  function ExecAct(s: State, id: Id, x: ExecStep): State
    requires ExecMay(s, id, x)
  {
    var d := s.(core := ExecDo(s.core, id, x, |s.wire|));
    match x
    case BindSession => d.(table := None)
    case PersistSession => d.(table := None)
    case Unregister => d.(table := None, pending := Less(s.pending))
    case WriteTerminal => Emit(d, id, s.core.execs[id].pc.x.reply)
    case Launch => d.(streams := s.streams[(id, false) := Reading][(id, true) := Reading])
    case _ => d
  }

  function StreamDo(s: State, id: Id, e: bool, y: StreamStep): State
    requires StreamMay(s, id, e, y)
  {
    match y
    case PipeData => s.(streams := s.streams[(id, e) := Writing])
    case WriteOutput => Emit(s, id, Output).(streams := s.streams[(id, e) := Reading])
    case PipeEnd => s.(streams := s.streams[(id, e) := Closed])
  }

  function GetDo(s: State, id: Id, z: GetStep): State
    requires GetMay(s, id, z)
  {
    match z
    case GetStart => s.(gets := s.gets[id := Opening(s.gets[id].session)], pending := s.pending + 1)
    case GetOpened =>
      s.(core := Resolve(s.core, s.gets[id].session), table := None, gets := s.gets[id := Copying])
    case GetData(last) => s.(gets := s.gets[id := Sending(last)])
    case GetFail => s.(gets := s.gets[id := Closing(Error)])
    case GetSent =>
      Emit(s, id, Chunk(s.gets[id].last)).(gets := s.gets[id := if s.gets[id].last then Finishing else Copying])
    case GetResult => s.(gets := s.gets[id := Closing(Result(0))])
    case GetClosed =>
      Emit(s, id, s.gets[id].reply).(gets := s.gets[id := Over(|s.wire|)], pending := Less(s.pending))
  }

  function Do(s: State, st: Step): State
    requires Enabled(s, st)
  {
    match st
    case Acquire(t) => if At(s, t).Out? then s.(out := Some(t)) else s.(table := Some(t))
    case Reader(r) => ReaderDo(s, r)
    case ExecBy(id, x) => ExecAct(s, id, x)
    case StreamBy(id, e, y) => StreamDo(s, id, e, y)
    case GetBy(id, z) => GetDo(s, id, z)
  }

  /** The state that the run `steps` leads to, when each of its steps is enabled where it is taken. */
  function RunOf(host: Host, steps: seq<Step>): Option<State> {
    if steps == [] then
      Some(Init(host))
    else
      var before := RunOf(host, steps[..|steps| - 1]);
      var st := steps[|steps| - 1];
      if before.Some? && Enabled(before.value, st) then Some(Do(before.value, st)) else None
  }
}
