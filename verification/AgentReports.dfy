/** What the agent tells its clients, over every run: every request is answered, and truthfully. */
module AgentReports {
  import opened Basics
  import opened Sessions
  import opened SessionCore
  import opened AgentMachine
  import opened AgentProofs
  import opened AgentTheorems

  /** The reply that a step decides on. */
  function Decides(x: ExecStep): Option<Reply> {
    match x
    case ProcessEnds(code) => Some(Result(code))
    case Refuse => Some(Error)
    case CdOk => Some(Result(0))
    case _ => None
  }

  /** The reply that an exec is going to give or has given. */
  function Decided(e: Exec): Option<Reply> {
    match e.pc
    case Held(Join(code)) => Some(Result(code))
    case Held(Reporting(k)) => Some(k)
    case _ => e.reply
  }

  lemma DecidedNext(c: Core, id: Id, x: ExecStep, n: nat)
    requires May(c, id, x) && ExecShape(c.execs[id])
    ensures Decided(Next(c, id, x, n)) == if Decides(x).Some? then Decides(x) else Decided(c.execs[id])
  {
  }

  lemma DecidedStep(s: State, st: Step, id: Id)
    requires MachineInv(s) && Enabled(s, st)
    requires id in s.core.execs
    ensures id in Do(s, st).core.execs
    ensures Decided(Do(s, st).core.execs[id])
         == if st.ExecBy? && st.id == id && Decides(st.x).Some? then Decides(st.x) else Decided(s.core.execs[id])
  {
    if st.ExecBy? && st.id == id {
      assert References(s.core) && ExecShape(s.core.execs[id]);
      DecidedNext(s.core, id, st.x, |s.wire|);
      Itself(s, id, st.x);
    } else {
      OnlyItself(s, st, id);
    }
  }

  lemma UndecidedBefore(s: State, id: Id, x: ExecStep)
    requires References(s.core) && ExecMay(s, id, x) && Decides(x).Some?
    ensures Decided(s.core.execs[id]).None?
  {
    assert ExecShape(s.core.execs[id]);
  }

  /** An exec's reply is decided by one step, and stays. */
  lemma {:induction false} DecidedOnce(host: Host, steps: seq<Step>, s: State, id: Id, x: ExecStep)
    requires RunOf(host, steps) == Some(s) && ExecBy(id, x) in steps && Decides(x).Some?
    ensures id in s.core.execs && Decided(s.core.execs[id]) == Decides(x)
  {
    var front, st := steps[..|steps| - 1], steps[|steps| - 1];
    var before := RunOf(host, front).value;
    assert Enabled(before, st) && s == Do(before, st) && steps == front + [st];
    RunKeeps(host, front, before);
    if ExecBy(id, x) in front {
      DecidedOnce(host, front, before, id, x);
      if st.ExecBy? && st.id == id && Decides(st.x).Some? {
        UndecidedBefore(before, id, st.x);
      }
    }
    DecidedStep(before, st, id);
  }

  /**
   Faithful reports: every terminal frame of an exec says what happened to it, the exit code of its process, an Error
   when nothing was started, or success of the built-in `cd`; and a command whose process ended with another code
   than 0, or that was refused, has changed no session.
   */
  lemma ReportsWhatHappened(host: Host, steps: seq<Step>, s: State, id: Id, x: ExecStep)
    requires RunOf(host, steps) == Some(s) && ExecBy(id, x) in steps
    ensures Truthful(s, id, x)
  {
    if Decides(x).Some? {
      DecidedOnce(host, steps, s, id, x);
      RunKeeps(host, steps, s);
      DecidedIsTruth(s, id, x);
    }
  }

  /** What the wire and the sessions show of an exec that has taken this step. */
  ghost predicate Truthful(s: State, id: Id, x: ExecStep) {
    && (forall w | 0 <= w < |s.wire| && s.wire[w].0 == id && Terminal(s.wire[w].1) ::
          match x
          case ProcessEnds(code) => s.wire[w].1 == Result(code)
          case Refuse => s.wire[w].1 == Error
          case CdOk => s.wire[w].1 == Result(0)
          case _ => true)
    && ((x.ProcessEnds? && x.code != 0) || x.Refuse? ==>
          forall r, n | 0 <= r < |s.core.logs| && 0 <= n < |s.core.logs[r]| ::
            s.core.logs[r][n].id == id ==> !s.core.logs[r][n].committed)
  }

  lemma DecidedIsTruth(s: State, id: Id, x: ExecStep)
    requires MachineInv(s) && id in s.core.execs && Decides(x).Some? && Decided(s.core.execs[id]) == Decides(x)
    ensures Truthful(s, id, x)
  {
    assert References(s.core) && Entries(s.core) && Terminals(s);
    DecidedIsReported(s, id);
  }

  lemma DecidedIsReported(s: State, id: Id)
    requires References(s.core) && Entries(s.core) && Terminals(s) && id in s.core.execs
    ensures forall w | 0 <= w < |s.wire| && s.wire[w].0 == id && Terminal(s.wire[w].1) ::
              Decided(s.core.execs[id]) == Some(s.wire[w].1)
    ensures Decided(s.core.execs[id]) != Some(Result(0)) ==>
              forall r, n | 0 <= r < |s.core.logs| && 0 <= n < |s.core.logs[r]| ::
                s.core.logs[r][n].id == id ==> !s.core.logs[r][n].committed
  {
    assert ExecShape(s.core.execs[id]);
    forall r, n | 0 <= r < |s.core.logs| && 0 <= n < |s.core.logs[r]| && s.core.logs[r][n].id == id
      ensures s.core.logs[r][n].committed == Changed(s.core.execs[id])
    {
      assert EntryOk(s.core, r, n, s.core.logs[r][n]);
    }
  }

  /** `cd` is the built-in one exactly in a session, done when it names a directory; anything else can be started. */
  lemma BuiltIn(s: State, id: Id)
    requires References(s.core) && id in s.core.execs && s.core.execs[id].pc == Held(Decide)
    ensures var e := s.core.execs[id];
            var cd := e.req.session != "" && |e.req.argv| > 0 && e.req.argv[0] == "cd";
            && (ExecMay(s, id, CdOk) <==> cd && CdTarget(s.core.host, e.req, s.core.ts.heap[e.ref]) != "")
            && (ExecMay(s, id, Launch) <==> !cd) && ExecMay(s, id, Refuse)
  {
  }

  /** The agent takes any request when it is idle, any exit code, any output, and any outcome of a file's transfer. */
  lemma TakesAnything(s: State, id: Id, req: Request, name: string, flag: bool, code: int)
    requires References(s.core) && !s.main.Exited?
    ensures s.main.Idle? ==> Enabled(s, Reader(RecvControl)) && Enabled(s, Reader(RecvEof))
    ensures s.main.Idle? && id !in s.used ==>
              && Enabled(s, Reader(RecvExec(id, req))) && Enabled(s, Reader(RecvGet(id, name)))
              && Enabled(s, Reader(RecvFile(id, name, flag))) && Enabled(s, Reader(RecvUnsupported(id)))
    ensures s.main == Putting(id) ==> Enabled(s, Reader(PutEnd(id, flag)))
    ensures id in s.core.execs && s.core.execs[id].pc == Held(Run) ==> Enabled(s, ExecBy(id, ProcessEnds(code)))
    ensures (id, flag) in s.streams && s.streams[(id, flag)].Reading? ==>
              Enabled(s, StreamBy(id, flag, PipeData)) && Enabled(s, StreamBy(id, flag, PipeEnd))
    ensures id in s.gets && s.gets[id].Copying? ==>
              Enabled(s, GetBy(id, GetData(flag))) && Enabled(s, GetBy(id, GetFail))
  {
  }

  // ---- no request is lost ----

  /** What has become of a frame that the reader loop has read, or of an upload that has ended. */
  ghost predicate Accounted(s: State, r: ReaderStep) {
    match r
    case RecvExec(id, req) =>
      if req.argv == [] then
        Given(s, id, Error)
      else
        s.main == Registering(id, req) || (id in s.core.execs && s.core.execs[id].req == req)
    case RecvGet(id, name) =>
      && id in s.gets
      && (if s.gets[id].New? || s.gets[id].Opening? then s.gets[id].session == name else Named(s, name))
    case RecvFile(id, name, put) =>
      || s.main == Resolving(id, name, put)
      || (Named(s, name)
          && if put then
               s.main == Putting(id) || Given(s, id, Result(0)) || Given(s, id, Error)
             else
               Given(s, id, Stat))
    case RecvUnsupported(id) => Given(s, id, Error)
    case PutEnd(id, ok) => Given(s, id, if ok then Result(0) else Error)
    case _ => true
  }

  /** The session exists, or the request had none. */
  predicate Named(s: State, name: string) {
    name == "" || name in s.core.ts.names
  }

  lemma NamedStays(s: State, st: Step, name: string)
    requires Enabled(s, st) && Named(s, name)
    ensures Named(Do(s, st), name)
  {
  }

  /** The reader loop is about to give this answer, or has given it. */
  predicate Given(s: State, id: Id, k: Reply) {
    s.main == Replying(id, k) || (id, k) in s.wire
  }

  lemma GivenStays(s: State, st: Step, id: Id, k: Reply)
    requires Enabled(s, st) && Given(s, id, k)
    ensures Given(Do(s, st), id, k)
  {
    WireStep(s, st);
    if st == Reader(Replied) {
      assert Do(s, st).wire == s.wire + [(s.main.id, s.main.reply)];
    }
  }

  lemma AccountedStays(s: State, st: Step, r: ReaderStep)
    requires Owners(s) && Enabled(s, st) && Accounted(s, r)
    ensures Accounted(Do(s, st), r)
  {
    match r
    case RecvExec(id, req) =>
      if req.argv != [] {
        ExecAccounted(s, st, id, req);
      } else {
        GivenStays(s, st, id, Error);
      }
    case RecvGet(id, name) => GetAccounted(s, st, id, name);
    case RecvFile(id, name, put) => FileAccounted(s, st, id, name, put);
    case RecvUnsupported(id) => GivenStays(s, st, id, Error);
    case PutEnd(id, ok) => GivenStays(s, st, id, if ok then Result(0) else Error);
    case _ =>
  }

  lemma GetAccounted(s: State, st: Step, id: Id, name: string)
    requires Owners(s) && Enabled(s, st) && Accounted(s, RecvGet(id, name))
    ensures Accounted(Do(s, st), RecvGet(id, name))
  {
    if Named(s, name) {
      NamedStays(s, st, name);
    }
    if st.GetBy? && st.id == id {
      assert st.z.GetOpened? ==> name == "" || name in Do(s, st).core.ts.names;
    } else {
      OthersGets(s, st, id);
    }
  }

  lemma FileAccounted(s: State, st: Step, id: Id, name: string, put: bool)
    requires Enabled(s, st) && Accounted(s, RecvFile(id, name, put))
    ensures Accounted(Do(s, st), RecvFile(id, name, put))
  {
    if Named(s, name) {
      NamedStays(s, st, name);
    }
    forall k | Given(s, id, k)
      ensures Given(Do(s, st), id, k)
    {
      GivenStays(s, st, id, k);
    }
  }

  lemma ExecAccounted(s: State, st: Step, id: Id, req: Request)
    requires Owners(s) && Enabled(s, st)
    requires s.main == Registering(id, req) || (id in s.core.execs && s.core.execs[id].req == req)
    ensures var u := Do(s, st); u.main == Registering(id, req) || (id in u.core.execs && u.core.execs[id].req == req)
  {
    if id in s.core.execs {
      ReqStays(s, st, id);
    }
  }

  lemma ReqStays(s: State, st: Step, id: Id)
    requires Owners(s) && Enabled(s, st) && id in s.core.execs
    ensures id in Do(s, st).core.execs && Do(s, st).core.execs[id].req == s.core.execs[id].req
  {
    if st.ExecBy? && st.id == id {
      Itself(s, id, st.x);
    } else {
      OnlyItself(s, st, id);
    }
  }

  lemma AccountedFirst(s: State, r: ReaderStep)
    requires ReaderMay(s, r)
    ensures Accounted(ReaderDo(s, r), r)
  {
  }

  /**
   No request is lost: whatever the reader loop has read is answered by it, at once or when its turn at the lock has
   come, or it has become the goroutine of just that request.
   */
  lemma {:induction false} NoRequestLost(host: Host, steps: seq<Step>, s: State, r: ReaderStep)
    requires RunOf(host, steps) == Some(s) && Reader(r) in steps
    ensures Accounted(s, r)
  {
    var front, st := steps[..|steps| - 1], steps[|steps| - 1];
    var before := RunOf(host, front).value;
    assert Enabled(before, st) && s == Do(before, st) && steps == front + [st];
    RunKeeps(host, front, before);
    if Reader(r) in front {
      NoRequestLost(host, front, before, r);
      AccountedStays(before, st, r);
    } else {
      AccountedFirst(before, r);
    }
  }

  // ---- a file_get's frames ----

  /** The frames that the steps of file_get `id` call for, in order. */
  function Planned(steps: seq<Step>, id: Id): seq<Reply> {
    if steps == [] then [] else Planned(steps[..|steps| - 1], id) + PlannedIn(steps[|steps| - 1], id)
  }

  function PlannedIn(st: Step, id: Id): seq<Reply> {
    if !st.GetBy? || st.id != id then
      []
    else
      match st.z
      case GetData(last) => [Chunk(last)]
      case GetFail => [Error]
      case GetResult => [Result(0)]
      case _ => []
  }

  function Unsent(pc: GetPc): seq<Reply> {
    match pc
    case Sending(last) => [Chunk(last)]
    case Closing(k) => [k]
    case _ => []
  }

  ghost predicate DataOnly(ks: seq<Reply>) {
    forall i | 0 <= i < |ks| :: ks[i] == Chunk(false)
  }

  /** What the goroutine has called for, where it is: data, then the last chunk and the Result, or an Error instead. */
  ghost predicate PlanOk(pc: GetPc, plan: seq<Reply>) {
    match pc
    case New(_) => plan == []
    case Opening(_) => plan == []
    case Copying => DataOnly(plan)
    case Sending(last) => plan != [] && plan[|plan| - 1] == Chunk(last) && DataOnly(plan[..|plan| - 1])
    case Finishing => plan != [] && plan[|plan| - 1] == Chunk(true) && DataOnly(plan[..|plan| - 1])
    case Closing(k) => Ended(plan) && k == plan[|plan| - 1]
    case Over(_) => Ended(plan)
  }

  ghost predicate Ended(plan: seq<Reply>) {
    && plan != []
    && (if plan[|plan| - 1] == Error then DataOnly(plan[..|plan| - 1])
        else |plan| > 1 && plan[|plan| - 2..] == [Chunk(true), Result(0)] && DataOnly(plan[..|plan| - 2]))
  }

  ghost predicate Tracked(s: State, id: Id, plan: seq<Reply>) {
    if id in s.gets then Project(s.wire, id) + Unsent(s.gets[id]) == plan && PlanOk(s.gets[id], plan) else plan == []
  }

  lemma PlanMoves(s: State, id: Id, z: GetStep, plan: seq<Reply>)
    requires GetMay(s, id, z) && PlanOk(s.gets[id], plan)
    ensures PlanOk(GetDo(s, id, z).gets[id], plan + PlannedIn(GetBy(id, z), id))
  {
    var more := plan + PlannedIn(GetBy(id, z), id);
    assert more[..|plan|] == plan;
    if z.GetResult? {
      assert more[|plan| - 1..] == [plan[|plan| - 1], Result(0)] && more[..|plan| - 1] == plan[..|plan| - 1];
    } else if PlannedIn(GetBy(id, z), id) == [] {
      assert more == plan;
    }
  }

  lemma FramesMove(s: State, id: Id, z: GetStep)
    requires GetMay(s, id, z)
    ensures var u := GetDo(s, id, z);
            Project(u.wire, id) + Unsent(u.gets[id])
            == Project(s.wire, id) + Unsent(s.gets[id]) + PlannedIn(GetBy(id, z), id)
  {
    if z.GetSent? || z.GetClosed? {
      ProjectSnoc(s.wire, (id, Unsent(s.gets[id])[0]), id);
    }
  }

  lemma TrackedItself(s: State, id: Id, z: GetStep, plan: seq<Reply>)
    requires GetMay(s, id, z) && Tracked(s, id, plan)
    ensures Tracked(GetDo(s, id, z), id, plan + PlannedIn(GetBy(id, z), id))
  {
    PlanMoves(s, id, z, plan);
    FramesMove(s, id, z);
  }

  /** Whose frames a goroutine writes. */
  function Writes(s: State, t: Thread): Option<Id> {
    match t
    case MainT => if s.main.Replying? then Some(s.main.id) else None
    case ExecT(id) => Some(id)
    case StreamT(id, _) => Some(id)
    case GetT(id) => Some(id)
  }

  lemma WritesOwn(s: State, st: Step)
    requires Enabled(s, st)
    ensures Do(s, st).wire == s.wire
            || (Writes(s, By(st)).Some? && |Do(s, st).wire| == |s.wire| + 1
                && Do(s, st).wire == s.wire + [(Writes(s, By(st)).value, Do(s, st).wire[|s.wire|].1)])
  {
  }

  lemma OthersGets(s: State, st: Step, id: Id)
    requires Enabled(s, st) && !(st.GetBy? && st.id == id)
    ensures id in s.gets && !st.Reader? ==> id in Do(s, st).gets && Do(s, st).gets[id] == s.gets[id]
    ensures id in s.gets && st.Reader? && (st.r.RecvGet? ==> st.r.id != id) ==>
              id in Do(s, st).gets && Do(s, st).gets[id] == s.gets[id]
    ensures id !in s.gets && id in Do(s, st).gets ==> st.Reader? && st.r.RecvGet? && st.r.id == id
  {
  }

  /** Nobody else writes frames of a file_get. */
  lemma OthersWire(s: State, st: Step, id: Id, plan: seq<Reply>)
    requires Owners(s) && Streamers(s) && Terminals(s) && Enabled(s, st) && !(st.GetBy? && st.id == id)
    requires Tracked(s, id, plan)
    ensures Tracked(Do(s, st), id, plan)
  {
    var u := Do(s, st);
    OthersGets(s, st, id);
    WritesOwn(s, st);
    if id in s.gets {
      if u.wire != s.wire {
        ProjectSnoc(s.wire, (Writes(s, By(st)).value, u.wire[|s.wire|].1), id);
      }
    } else if id in u.gets {
      ProjectNone(s.wire, id);
    }
  }

  lemma {:induction false} AllTracked(host: Host, steps: seq<Step>, s: State, id: Id)
    requires RunOf(host, steps) == Some(s)
    ensures Tracked(s, id, Planned(steps, id))
  {
    if steps != [] {
      var front, st := steps[..|steps| - 1], steps[|steps| - 1];
      var before := RunOf(host, front).value;
      RunKeeps(host, front, before);
      AllTracked(host, front, before, id);
      if st.GetBy? && st.id == id {
        TrackedItself(before, id, st.z, Planned(front, id));
      } else {
        OthersWire(before, st, id, Planned(front, id));
        assert Planned(front, id) + [] == Planned(front, id);
      }
    }
  }

  /**
   A file_get's frames: what it has read, chunk by chunk and in order; a failure to open or read ends them in an Error,
   otherwise the last chunk is marked and the Result follows.
   */
  lemma GetFrames(host: Host, steps: seq<Step>, s: State, id: Id)
    requires RunOf(host, steps) == Some(s) && id in s.gets
    ensures Project(s.wire, id) <= Planned(steps, id)
    ensures s.gets[id].Over? ==> Project(s.wire, id) == Planned(steps, id) && Ended(Planned(steps, id))
  {
    AllTracked(host, steps, s, id);
  }

  // ---- the locks exclude ----

  function By(st: Step): Thread {
    match st
    case Acquire(t) => t
    case Reader(_) => MainT
    case ExecBy(id, _) => ExecT(id)
    case StreamBy(id, e, _) => StreamT(id, e)
    case GetBy(id, _) => GetT(id)
  }

  /** A global lock is taken when it is free, and given back by its holder. */
  predicate Excludes(s: State, u: State, st: Step, t: Thread) {
    && (s.table == Some(t) ==> u.table == Some(t) || (u.table.None? && By(st) == t))
    && (s.out == Some(t) ==> u.out == Some(t) || (u.out.None? && By(st) == t))
    && (s.table.None? && u.table == Some(t) ==> st == Acquire(t))
    && (s.out.None? && u.out == Some(t) ==> st == Acquire(t))
  }

  lemma ExecExcludes(s: State, id: Id, x: ExecStep, t: Thread)
    requires References(s.core) && ExecMay(s, id, x)
    ensures Excludes(s, ExecAct(s, id, x), ExecBy(id, x), t)
  {
    ExecTurn(s, id, x);
  }

  lemma LocksExclude(s: State, st: Step, t: Thread)
    requires References(s.core) && Enabled(s, st)
    ensures Excludes(s, Do(s, st), st, t)
  {
    match st
    case Acquire(_) =>
    case Reader(r) => ReaderExcludes(s, r, t);
    case ExecBy(id, x) => ExecExcludes(s, id, x, t);
    case StreamBy(_, _, _) =>
    case GetBy(id, z) => GetExcludes(s, id, z, t);
  }

  lemma ReaderExcludes(s: State, r: ReaderStep, t: Thread)
    requires ReaderMay(s, r)
    ensures Excludes(s, ReaderDo(s, r), Reader(r), t)
  {
  }

  lemma GetExcludes(s: State, id: Id, z: GetStep, t: Thread)
    requires GetMay(s, id, z)
    ensures Excludes(s, GetDo(s, id, z), GetBy(id, z), t)
  {
  }

  // ---- output ----

  /** How many chunks the streamers of `id` have read from its pipes in these steps. */
  function ReadFrom(steps: seq<Step>, id: Id): nat {
    if steps == [] then 0 else ReadFrom(steps[..|steps| - 1], id) + ReadIn(steps[|steps| - 1], id)
  }

  function ReadIn(st: Step, id: Id): nat {
    if st.StreamBy? && st.id == id && st.y.PipeData? then 1 else 0
  }

  function Outputs(ks: seq<Reply>): nat {
    if ks == [] then 0 else Outputs(ks[..|ks| - 1]) + if ks[|ks| - 1] == Output then 1 else 0
  }

  function WritingNow(s: State, id: Id): nat {
    (if (id, false) in s.streams && s.streams[(id, false)].Writing? then 1 else 0)
    + if (id, true) in s.streams && s.streams[(id, true)].Writing? then 1 else 0
  }

  function Shown(s: State, id: Id): nat {
    Outputs(Project(s.wire, id)) + WritingNow(s, id)
  }

  lemma OutputsSnoc(s: State, u: State, id: Id, x: (Id, Reply))
    requires u.wire == s.wire + [x]
    ensures Outputs(Project(u.wire, id)) == Outputs(Project(s.wire, id)) + if x == (id, Output) then 1 else 0
  {
    ProjectSnoc(s.wire, x, id);
    assert x.0 == id ==> (Project(s.wire, id) + [x.1])[..|Project(s.wire, id)|] == Project(s.wire, id);
  }

  lemma TurnShown(s: State, u: State, id: Id, e: Exec, j: Id)
    requires Streamers(s) && Turn(s, u, id, e)
    ensures Shown(u, j) == Shown(s, j)
  {
    if u.wire != s.wire {
      OutputsSnoc(s, u, j, (id, e.reply.value));
    }
  }

  lemma StreamShown(s: State, id: Id, e: bool, y: StreamStep, j: Id)
    requires StreamMay(s, id, e, y)
    ensures Shown(StreamDo(s, id, e, y), j) == Shown(s, j) + ReadIn(StreamBy(id, e, y), j)
  {
    if y.WriteOutput? {
      OutputsSnoc(s, StreamDo(s, id, e, y), j, (id, Output));
    }
  }

  lemma QuietShown(s: State, st: Step, j: Id)
    requires Enabled(s, st) && !st.ExecBy? && !st.StreamBy? && NoOutput(s)
    ensures Shown(Do(s, st), j) == Shown(s, j)
  {
    WritesOwn(s, st);
    if Do(s, st).wire != s.wire {
      OutputsSnoc(s, Do(s, st), j, Do(s, st).wire[|s.wire|]);
    }
  }

  lemma ShownMoves(s: State, st: Step, j: Id)
    requires References(s.core) && Streamers(s) && Enabled(s, st) && NoOutput(s)
    ensures Shown(Do(s, st), j) == Shown(s, j) + ReadIn(st, j)
  {
    if st.ExecBy? {
      ExecTurn(s, st.id, st.x);
      TurnShown(s, ExecAct(s, st.id, st.x), st.id, Next(s.core, st.id, st.x, |s.wire|), j);
    } else if st.StreamBy? {
      StreamShown(s, st.id, st.stderr, st.y, j);
    } else {
      QuietShown(s, st, j);
    }
  }

  /** The reader loop and the exec goroutines write no Output themselves. */
  ghost predicate NoOutput(s: State) {
    && (s.main.Replying? ==> s.main.reply != Output)
    && (forall id <- s.gets :: s.gets[id].Closing? ==> s.gets[id].reply != Output)
  }

  lemma NoOutputKept(s: State, st: Step)
    requires NoOutput(s) && Enabled(s, st)
    ensures NoOutput(Do(s, st))
  {
  }

  /** Output is conserved: each chunk that a streamer has read is a frame on the wire, or about to be. */
  lemma {:induction false} OutputConserved(host: Host, steps: seq<Step>, s: State, id: Id)
    requires RunOf(host, steps) == Some(s)
    ensures Outputs(Project(s.wire, id)) + WritingNow(s, id) == ReadFrom(steps, id) && NoOutput(s)
  {
    if steps != [] {
      var front, st := steps[..|steps| - 1], steps[|steps| - 1];
      var before := RunOf(host, front).value;
      RunKeeps(host, front, before);
      OutputConserved(host, front, before, id);
      ShownMoves(before, st, id);
      NoOutputKept(before, st);
    }
  }
}
