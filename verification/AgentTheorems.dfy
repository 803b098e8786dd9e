/** The agent's guarantees over every run: sessions, terminal frames, shutdown, freedom from deadlock. */
module AgentTheorems {
  import opened Basics
  import opened Sessions
  import opened SessionCore
  import opened AgentMachine
  import opened AgentProofs

  lemma HostKept(s: State, st: Step)
    requires Enabled(s, st)
    ensures Do(s, st).core.host == s.core.host
  {
  }

  lemma {:induction false} RunKeeps(host: Host, steps: seq<Step>, s: State)
    requires RunOf(host, steps) == Some(s)
    ensures MachineInv(s) && s.core.host == host
  {
    if steps != [] {
      var before := RunOf(host, steps[..|steps| - 1]).value;
      RunKeeps(host, steps[..|steps| - 1], before);
      HostKept(before, steps[|steps| - 1]);
      StepKeeps(before, steps[|steps| - 1]);
    }
  }

  ghost predicate Answered(s: State, id: Id) {
    exists w :: 0 <= w < |s.wire| && s.wire[w].0 == id && Terminal(s.wire[w].1)
  }

  // ---- sessions ----

  /** What the log entry `k` of session object `r` says, measured against the wire and the entries before it. */
  ghost predicate Serial(s: State, r: nat, k: nat)
    requires r < |s.core.logs| && k < |s.core.logs[r]|
  {
    var log := s.core.logs[r];
    var before := Replay(s.core.host, log[..k]);
    && log[k].id in s.core.execs
    && var e := s.core.execs[log[k].id];
    && e.req == log[k].req
    && log[k].seen == before
    && (e.launched.Some? ==>
          && e.launched.value.cwd == (if e.req.cwd != "" then e.req.cwd else before.cwd)
          && e.launched.value.env == before.env + e.req.env)
    && (!e.pc.Held? ==> (log[k].committed <==> e.req.session != "" && (log[k].id, Result(0)) in s.wire))
  }

  /**
   Session serialisability: in every run, each session object holds the replay, in lock-acquisition order, of
   the commands that committed; each command saw exactly the replay of those before it; and a command whose
   lock is released committed iff it has a session and its Result with exit code 0 is on the wire.
   */
  lemma SessionsSerialise(host: Host, steps: seq<Step>, s: State)
    requires RunOf(host, steps) == Some(s)
    ensures |s.core.logs| == |s.core.ts.heap| && Replay(host, []) == Session("", map[])
    ensures forall r: nat | r < |s.core.logs| :: s.core.ts.heap[r] == Replay(host, s.core.logs[r])
    ensures forall r: nat, k: nat | r < |s.core.logs| && k < |s.core.logs[r]| :: Serial(s, r, k)
  {
    RunKeeps(host, steps, s);
    forall r: nat, k: nat | r < |s.core.logs| && k < |s.core.logs[r]|
      ensures Serial(s, r, k)
    {
      EntrySerial(s, r, k);
    }
  }

  lemma EntrySerial(s: State, r: nat, k: nat)
    requires References(s.core) && Entries(s.core) && Replays(s.core) && Terminals(s) && Replies(s)
    requires r < |s.core.logs| && k < |s.core.logs[r]|
    ensures Serial(s, r, k)
  {
    var id := s.core.logs[r][k].id;
    assert EntryOk(s.core, r, k, s.core.logs[r][k]);
    if !s.core.execs[id].pc.Held? && (id, Result(0)) in s.wire {
      var v :| 0 <= v < |s.wire| && s.wire[v] == (id, Result(0));
      assert Terminal(s.wire[v].1);
    }
  }

  /**
   Commands of one named session share one log, each once; a command without a session has a log of its own,
   so it neither sees nor leaves anything.
   */
  lemma SessionsShareLogs(host: Host, steps: seq<Step>, s: State, i: Id, j: Id)
    requires RunOf(host, steps) == Some(s) && i in s.core.execs && j in s.core.execs && i != j
    requires Acquired(s.core.execs[i].pc) && Acquired(s.core.execs[j].pc)
    ensures var e, f := s.core.execs[i], s.core.execs[j];
            && e.ref < |s.core.logs| && e.pos < |s.core.logs[e.ref]| && s.core.logs[e.ref][e.pos].id == i
            && (e.ref == f.ref <==> e.req.session != "" && e.req.session == f.req.session)
            && (e.ref == f.ref ==> e.pos != f.pos)
  {
    RunKeeps(host, steps, s);
    assert References(s.core) && Complete(s.core);
  }

  /** The length of the wire at the dispatch of an exec is on its record. */
  lemma {:induction false} DispatchedAt(host: Host, steps: seq<Step>, s: State, p: nat, before: State)
    requires RunOf(host, steps) == Some(s) && p < |steps| && steps[p] == Reader(Registered)
    requires RunOf(host, steps[..p]) == Some(before)
    ensures before.main.Registering? && before.main.id in s.core.execs
    ensures s.core.execs[before.main.id].at == |before.wire| && before.wire <= s.wire
    decreases |steps|
  {
    var front, st := steps[..|steps| - 1], steps[|steps| - 1];
    var last := RunOf(host, front).value;
    RunKeeps(host, front, last);
    if p < |front| {
      assert front[..p] == steps[..p];
      DispatchedAt(host, front, last, p, before);
      AtStays(last, st, before.main.id);
    }
    WireStep(last, st);
  }

  lemma AtStays(s: State, st: Step, id: Id)
    requires Owners(s) && Enabled(s, st) && id in s.core.execs
    ensures id in Do(s, st).core.execs && Do(s, st).core.execs[id].at == s.core.execs[id].at
  {
    if st.ExecBy? && st.id == id {
      Itself(s, id, st.x);
    } else {
      OnlyItself(s, st, id);
    }
  }

  /** If i's terminal frame is on the wire when j is dispatched, i precedes j in their session. */
  lemma ReportedPrecedesDispatched(host: Host, steps: seq<Step>, s: State, i: Id, p: nat, before: State)
    requires RunOf(host, steps) == Some(s) && p < |steps| && steps[p] == Reader(Registered)
    requires RunOf(host, steps[..p]) == Some(before) && before.main.Registering? && Answered(before, i)
    requires var j := before.main.id;
             && i in s.core.execs && j in s.core.execs && i != j
             && Acquired(s.core.execs[i].pc) && Acquired(s.core.execs[j].pc)
             && s.core.execs[i].ref == s.core.execs[j].ref
    ensures s.core.execs[i].pos < s.core.execs[before.main.id].pos
  {
    RunKeeps(host, steps, s);
    DispatchedAt(host, steps, s, p, before);
    Precedes(s, i, before.main.id, before);
  }

  lemma Precedes(s: State, i: Id, j: Id, before: State)
    requires MachineInv(s) && i in s.core.execs && j in s.core.execs && i != j
    requires s.core.execs[i].ref == s.core.execs[j].ref
    requires Acquired(s.core.execs[i].pc) && Acquired(s.core.execs[j].pc)
    requires before.wire <= s.wire && s.core.execs[j].at == |before.wire| && Answered(before, i)
    ensures s.core.execs[i].pos < s.core.execs[j].pos
  {
    var w :| 0 <= w < |before.wire| && before.wire[w].0 == i && Terminal(before.wire[w].1);
    assert before.wire[w] == s.wire[w];
    InOrder(s, i, j, w);
  }

  lemma InOrder(s: State, i: Id, j: Id, w: nat)
    requires Complete(s.core) && Sequenced(s.core) && Terminals(s)
    requires i in s.core.execs && j in s.core.execs && i != j && s.core.execs[i].ref == s.core.execs[j].ref
    requires Acquired(s.core.execs[i].pc) && Acquired(s.core.execs[j].pc)
    requires w < |s.wire| && s.wire[w].0 == i && Terminal(s.wire[w].1) && w < s.core.execs[j].at
    ensures s.core.execs[i].pos < s.core.execs[j].pos
  {
    var log := s.core.logs[s.core.execs[i].ref];
    assert s.core.execs[i].replyAt == w;
    assert log[s.core.execs[i].pos].id == i && log[s.core.execs[j].pos].id == j;
  }

  /** The wire only grows, and no step is idle. */
  lemma WireStep(s: State, st: Step)
    requires Enabled(s, st)
    ensures s.wire <= Do(s, st).wire && Do(s, st) != s
  {
  }

  /** What a committed command leaves in its session: `cd` the directory it names, any other what it was given. */
  lemma CommittedCwd(host: Host, log: seq<Entry>, j: nat)
    requires j < |log| && log[j].committed
    requires forall i | j < i < |log| && log[i].committed :: !IsCd(log[i].req) && log[i].req.cwd == ""
    ensures var before := Replay(host, log[..j]);
            Replay(host, log).cwd == if IsCd(log[j].req) then CdTarget(host, log[j].req, before)
                                     else if log[j].req.cwd != "" then log[j].req.cwd else before.cwd
  {
    if j < |log| - 1 {
      var front := log[..|log| - 1];
      CommittedCwd(host, front, j);
      assert front[..j] == log[..j];
    }
  }

  /**
   A `cd` sticks: a command without a cwd of its own starts in the directory that the last committed `cd` of its
   session named, when no command with a cwd has been committed in between.
   */
  lemma CdSticks(host: Host, steps: seq<Step>, s: State, r: nat, j: nat, k: nat)
    requires RunOf(host, steps) == Some(s) && r < |s.core.logs| && j < k < |s.core.logs[r]|
    requires var log := s.core.logs[r];
             && log[j].committed && IsCd(log[j].req)
             && (forall i | j < i < k && log[i].committed :: !IsCd(log[i].req) && log[i].req.cwd == "")
             && log[k].req.cwd == "" && log[k].id in s.core.execs && s.core.execs[log[k].id].launched.Some?
    ensures var log := s.core.logs[r];
            s.core.execs[log[k].id].launched.value.cwd == CdTarget(host, log[j].req, log[j].seen)
  {
    SessionsSerialise(host, steps, s);
    RunKeeps(host, steps, s);
    assert Serial(s, r, j) && Serial(s, r, k);
    StartsThere(s, r, j, k);
  }

  lemma StartsThere(s: State, r: nat, j: nat, k: nat)
    requires r < |s.core.logs| && j < k < |s.core.logs[r]| && Serial(s, r, j) && Serial(s, r, k)
    requires var log := s.core.logs[r];
             && log[j].committed && IsCd(log[j].req)
             && (forall i | j < i < k && log[i].committed :: !IsCd(log[i].req) && log[i].req.cwd == "")
             && log[k].req.cwd == "" && s.core.execs[log[k].id].launched.Some?
    ensures var log := s.core.logs[r];
            s.core.execs[log[k].id].launched.value.cwd == CdTarget(s.core.host, log[j].req, log[j].seen)
  {
    var log := s.core.logs[r];
    assert log[..k][..j] == log[..j];
    CommittedCwd(s.core.host, log[..k], j);
  }

  // ---- terminal frames ----

  /** The step brings in a request with this id. */
  predicate Receives(st: Step, id: Id) {
    st.Reader? && match st.r
                  case RecvExec(i, _) => i == id
                  case RecvGet(i, _) => i == id
                  case RecvFile(i, _, _) => i == id
                  case RecvUnsupported(i) => i == id
                  case _ => false
  }

  lemma {:induction false} UsedIsReceived(host: Host, steps: seq<Step>, id: Id)
    requires RunOf(host, steps).Some? && id in RunOf(host, steps).value.used && id != 0
    ensures exists k :: 0 <= k < |steps| && Receives(steps[k], id)
  {
    var front, st := steps[..|steps| - 1], steps[|steps| - 1];
    if id in RunOf(host, front).value.used {
      UsedIsReceived(host, front, id);
      var k :| 0 <= k < |front| && Receives(front[k], id);
      assert steps[k] == front[k];
    } else {
      assert Receives(steps[|steps| - 1], id);
    }
  }

  /**
   Terminal-frame discipline: no frame of an id follows a Result or Error of that id, so there is at most one; and
   every frame carries the id of a request that has been received, or none.
   */
  lemma TerminalEndsId(host: Host, steps: seq<Step>, s: State, w: nat)
    requires RunOf(host, steps) == Some(s) && w < |s.wire|
    ensures forall v | 0 <= v < w :: s.wire[v].0 == s.wire[w].0 ==> !Terminal(s.wire[v].1)
    ensures s.wire[w].0 != 0 ==> exists k :: 0 <= k < |steps| && Receives(steps[k], s.wire[w].0)
  {
    RunKeeps(host, steps, s);
    assert Terminals(s);
    if s.wire[w].0 != 0 {
      UsedIsReceived(host, steps, s.wire[w].0);
    }
  }

  // ---- shutdown ----

  /**
   When `run` has returned, every dispatched exec has finished with its terminal frame on the wire. A file_get has
   exactly when its goroutine had entered the WaitGroup; one that had not never starts.
   */
  lemma ExitAfterEntered(host: Host, steps: seq<Step>, s: State, id: Id)
    requires RunOf(host, steps) == Some(s) && s.main.Exited?
    ensures id in s.core.execs ==> s.core.execs[id].pc.Done? && Answered(s, id)
    ensures id in s.gets ==> (s.gets[id].Over? <==> !s.gets[id].New?) && (s.gets[id].Over? <==> Answered(s, id))
  {
    RunKeeps(host, steps, s);
    assert Terminals(s) && id !in LiveExecs(s.core.execs) && id !in LiveGets(s.gets);
    if id in s.core.execs {
      assert ExecShape(s.core.execs[id]);
      assert s.wire[s.core.execs[id].replyAt] == (id, s.core.execs[id].reply.value);
    }
  }

  /** One more step, taken from the end of a run. */
  lemma Then(host: Host, steps: seq<Step>, st: Step) returns (next: seq<Step>)
    requires RunOf(host, steps).Some? && Enabled(RunOf(host, steps).value, st)
    ensures RunOf(host, next) == Some(Do(RunOf(host, steps).value, st))
  {
    next := steps + [st];
    assert next[..|steps|] == steps;
  }

  /** Not every dispatched file_get is among them: it enters the WaitGroup from its own goroutine. */
  lemma GetMayOutliveRun(host: Host)
    ensures exists steps :: RunOf(host, steps).Some? && RunOf(host, steps).value.main.Exited?
                            && 1 in RunOf(host, steps).value.gets && RunOf(host, steps).value.gets[1].New?
  {
    assert RunOf(host, []) == Some(Init(host));
    var a := Then(host, [], Acquire(MainT));
    a := Then(host, a, Reader(Replied));
    a := Then(host, a, Reader(RecvGet(1, "")));
    a := Then(host, a, Reader(RecvEof));
    a := Then(host, a, Reader(Exit));
  }

  // ---- deadlock freedom ----

  /** Steps that wait for the client: its next frame, or the last chunk of its upload. */
  predicate Input(st: Step) {
    && st.Reader?
    && (st.r.RecvExec? || st.r.RecvGet? || st.r.RecvFile? || st.r.RecvUnsupported? || st.r.RecvControl? || st.r.RecvEof?
        || st.r.PutEnd?)
  }

  /** Some goroutine has work left that does not depend on the client. */
  ghost predicate Unfinished(s: State) {
    || (exists id :: id in s.core.execs && !s.core.execs[id].pc.Done?)
    || (exists id :: id in s.gets && !s.gets[id].Over?)
    || !(s.main.Idle? || s.main.Putting? || s.main.Exited?)
  }

  /** The holder of a global lock is never blocked: its next step releases the lock. */
  lemma HolderCanLeave(s: State, t: Thread) returns (st: Step)
    requires References(s.core) && Mutexes(s) && !s.main.Exited? && (s.table == Some(t) || s.out == Some(t))
    ensures Enabled(s, st) && !Input(st)
    ensures s.table == Some(t) ==> Do(s, st).table.None?
    ensures s.out == Some(t) ==> Do(s, st).out.None?
  {
    match t
    case MainT =>
      st := Reader(if s.main.Registering? then Registered else if s.main.Looking? then LookedUp
                   else if s.main.Resolving? then ResolvedFile else Replied);
    case ExecT(id) =>
      assert ExecShape(s.core.execs[id]);
      var pc := s.core.execs[id].pc;
      st := ExecBy(id, if pc.Binding? then BindSession else if pc.Unregistering? then Unregister
                       else if pc == Held(Persisting) then PersistSession else WriteTerminal);
    case StreamT(id, e) => st := StreamBy(id, e, WriteOutput);
    case GetT(id) =>
      st := GetBy(id, if s.gets[id].Opening? then GetOpened else if s.gets[id].Sending? then GetSent else GetClosed);
  }

  function StreamMove(s: State, id: Id, e: bool): Step
    requires (id, e) in s.streams
  {
    if s.streams[(id, e)].Reading? then StreamBy(id, e, PipeEnd) else Acquire(StreamT(id, e))
  }

  /** With the global locks free, the holder of a session lock can move, or one of its streamers can. */
  lemma SessionHolderCanMove(s: State, id: Id) returns (st: Step)
    requires References(s.core) && Streamers(s) && !s.main.Exited? && s.table.None? && s.out.None?
    requires id in s.core.execs && s.core.execs[id].pc.Held?
    ensures Enabled(s, st) && !Input(st)
  {
    assert ExecShape(s.core.execs[id]);
    match s.core.execs[id].pc.x
    case Decide => st := ExecBy(id, Refuse);
    case Run => st := ExecBy(id, ProcessEnds(0));
    case Join(_) =>
      st := if !s.streams[(id, false)].Closed? then StreamMove(s, id, false)
            else if !s.streams[(id, true)].Closed? then StreamMove(s, id, true)
            else ExecBy(id, Joined);
    case Reporting(_) => st := Acquire(ExecT(id));
    case Persisting => st := Acquire(ExecT(id));
    case Unlock => st := ExecBy(id, UnlockSession);
  }

  lemma ExecCanMove(s: State, id: Id) returns (st: Step)
    requires References(s.core) && SessionLocks(s.core) && Streamers(s)
    requires !s.main.Exited? && s.table.None? && s.out.None?
    requires id in s.core.execs && !s.core.execs[id].pc.Done?
    ensures Enabled(s, st) && !Input(st)
  {
    var e := s.core.execs[id];
    if e.pc.Binding? || e.pc.Unregistering? {
      st := Acquire(ExecT(id));
    } else if e.pc.Held? {
      st := SessionHolderCanMove(s, id);
    } else if e.ref in s.core.sessLock {
      st := SessionHolderCanMove(s, s.core.sessLock[e.ref]);
    } else {
      st := ExecBy(id, LockSession);
    }
  }

  lemma GetCanMove(s: State, id: Id) returns (st: Step)
    requires !s.main.Exited? && s.table.None? && s.out.None? && id in s.gets && !s.gets[id].Over?
    ensures Enabled(s, st) && !Input(st)
  {
    var pc := s.gets[id];
    st := if pc.New? then GetBy(id, GetStart) else if pc.Copying? then GetBy(id, GetData(true))
          else if pc.Finishing? then GetBy(id, GetResult) else Acquire(GetT(id));
  }

  lemma SomeoneCanMove(s: State) returns (st: Step)
    requires References(s.core) && SessionLocks(s.core) && Streamers(s) && Mutexes(s) && Waits(s)
    requires !s.main.Exited? && Unfinished(s)
    ensures Enabled(s, st) && !Input(st)
  {
    if s.out.Some? {
      st := HolderCanLeave(s, s.out.value);
    } else if s.table.Some? {
      st := HolderCanLeave(s, s.table.value);
    } else if id :| id in s.core.execs && !s.core.execs[id].pc.Done? {
      st := ExecCanMove(s, id);
    } else if id :| id in s.gets && !s.gets[id].Over? {
      st := GetCanMove(s, id);
    } else if s.main.Draining? {
      assert LiveExecs(s.core.execs) == {} && LiveGets(s.gets) == {};
      st := Reader(Exit);
    } else {
      st := Acquire(MainT);
    }
  }

  /**
   Deadlock freedom: in every reachable state with work left, some goroutine can step without waiting for the
   client, if processes exit and pipes reach their end.
   */
  lemma NoDeadlock(host: Host, steps: seq<Step>, s: State) returns (st: Step)
    requires RunOf(host, steps) == Some(s) && !s.main.Exited? && Unfinished(s)
    ensures Enabled(s, st) && !Input(st)
  {
    RunKeeps(host, steps, s);
    st := SomeoneCanMove(s);
  }

  /** Lock order: whoever waits for a session lock holds no lock; whoever waits for a global lock holds no other. */
  lemma LockOrder(host: Host, steps: seq<Step>, s: State, t: Thread)
    requires RunOf(host, steps) == Some(s)
    ensures s.table == Some(t) ==> s.out != Some(t) && At(s, t) == Table
    ensures s.out == Some(t) ==> s.table != Some(t) && At(s, t) == Out
    ensures t.ExecT? && t.id in s.core.execs && s.core.execs[t.id].pc.WantSess? ==>
              s.table != Some(t) && s.out != Some(t) && forall r <- s.core.sessLock :: s.core.sessLock[r] != t.id
  {
    RunKeeps(host, steps, s);
    assert SessionLocks(s.core);
  }
}
