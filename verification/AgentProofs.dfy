/**
 What every step of the agent keeps: ids have one owner, streamers run only while their exec waits for
 them, frames of one id end with its terminal frame, locks are held where their holder is, and the
 WaitGroup counts the live goroutines.
 */
module AgentProofs {
  import opened Basics
  import opened SessionCore
  import opened AgentMachine

  predicate Busy(m: MainPc) {
    m.Registering? || m.Resolving? || m.Putting? || m.Replying?
  }

  /** Ids are used once, by one goroutine. */
  ghost predicate Owners(s: State) {
    && (forall id <- s.core.execs :: id in s.used && id !in s.gets)
    && (forall id <- s.gets :: id in s.used)
    && (Busy(s.main) ==> s.main.id in s.used && s.main.id !in s.core.execs && s.main.id !in s.gets)
    && (forall id <- s.gets :: s.gets[id].Closing? ==> Terminal(s.gets[id].reply))
  }

  /** A process has two streamers, from its start on; they run only until the handler has joined them. */
  ghost predicate Streamers(s: State) {
    && (forall id, e | (id, e) in s.streams ::
          && id in s.core.execs && s.core.execs[id].launched.Some?
          && (!s.streams[(id, e)].Closed? ==>
                s.core.execs[id].pc.Held? && (s.core.execs[id].pc.x.Run? || s.core.execs[id].pc.x.Join?)))
    && (forall id <- s.core.execs :: s.core.execs[id].launched.Some? ==>
          (id, false) in s.streams && (id, true) in s.streams)
  }

  /** Nothing of an id follows its terminal frame, and whoever may still write for it has not written one. */
  ghost predicate Terminals(s: State) {
    && (forall v | 0 <= v < |s.wire| :: s.wire[v].0 in s.used)
    && (forall v, w | 0 <= v < w < |s.wire| :: s.wire[v].0 == s.wire[w].0 ==> !Terminal(s.wire[v].1))
    && (forall v | 0 <= v < |s.wire| && Terminal(s.wire[v].1) ::
          && (s.wire[v].0 in s.core.execs ==>
                s.core.execs[s.wire[v].0].reply == Some(s.wire[v].1) && s.core.execs[s.wire[v].0].replyAt == v)
          && (s.wire[v].0 in s.gets ==> s.gets[s.wire[v].0].Over?)
          && (Busy(s.main) ==> s.wire[v].0 != s.main.id))
  }

  /** An exec's record of its terminal frame is the wire's. */
  ghost predicate Replies(s: State) {
    forall id <- s.core.execs :: s.core.execs[id].reply.Some? ==>
      && s.core.execs[id].replyAt < |s.wire|
      && s.wire[s.core.execs[id].replyAt] == (id, s.core.execs[id].reply.value)
  }

  /** The two global locks are held only by goroutines that are at them. */
  predicate Mutexes(s: State) {
    && (s.table.Some? ==> At(s, s.table.value).Table?)
    && (s.out.Some? ==> At(s, s.out.value).Out?)
  }

  predicate LiveGet(pc: GetPc) {
    !pc.New? && !pc.Over?
  }

  function LiveExecs(execs: map<Id, Exec>): set<Id> {
    set id | id in execs && !execs[id].pc.Done?
  }

  function LiveGets(gets: map<Id, GetPc>): set<Id> {
    set id | id in gets && LiveGet(gets[id])
  }

  /** The WaitGroup counts the live goroutines; the reader loop leaves only when all of them are done. */
  predicate Waits(s: State) {
    && s.pending == |LiveExecs(s.core.execs)| + |LiveGets(s.gets)|
    && (s.main.Exited? ==> LiveExecs(s.core.execs) == {} && LiveGets(s.gets) == {})
  }

  /** One goroutine's new record changes the number of live ones by what it is. */
  lemma LiveExecMoves(execs: map<Id, Exec>, id: Id, e: Exec)
    ensures |LiveExecs(execs[id := e])| + (if id in execs && !execs[id].pc.Done? then 1 else 0)
         == |LiveExecs(execs)| + (if e.pc.Done? then 0 else 1)
  {
    assert LiveExecs(execs[id := e]) - {id} == LiveExecs(execs) - {id};
    SizeWithout(LiveExecs(execs[id := e]), id);
    SizeWithout(LiveExecs(execs), id);
  }

  lemma LiveGetMoves(gets: map<Id, GetPc>, id: Id, pc: GetPc)
    ensures |LiveGets(gets[id := pc])| + (if id in gets && LiveGet(gets[id]) then 1 else 0)
         == |LiveGets(gets)| + (if LiveGet(pc) then 1 else 0)
  {
    assert LiveGets(gets[id := pc]) - {id} == LiveGets(gets) - {id};
    SizeWithout(LiveGets(gets[id := pc]), id);
    SizeWithout(LiveGets(gets), id);
  }

  /** A file_get that is over has its terminal frame on the wire. */
  ghost predicate GetsAnswered(s: State) {
    forall id <- s.gets :: s.gets[id].Over? ==>
      s.gets[id].at < |s.wire| && s.wire[s.gets[id].at].0 == id && Terminal(s.wire[s.gets[id].at].1)
  }

  ghost predicate MachineInv(s: State) {
    Inv(s.core, |s.wire|) && Owners(s) && Streamers(s) && Terminals(s) && Replies(s) && Mutexes(s) && Waits(s)
    && GetsAnswered(s)
  }

  // ---- the reader loop ----

  lemma ReaderShape(s: State, r: ReaderStep)
    requires Owners(s) && Streamers(s) && ReaderMay(s, r)
    ensures Owners(ReaderDo(s, r)) && Streamers(ReaderDo(s, r))
  {
  }

  lemma ReaderWire(s: State, r: ReaderStep)
    requires Owners(s) && Terminals(s) && Replies(s) && GetsAnswered(s) && ReaderMay(s, r)
    ensures var u := ReaderDo(s, r); Terminals(u) && Replies(u) && GetsAnswered(u)
  {
  }

  lemma ReaderMutexes(s: State, r: ReaderStep)
    requires Owners(s) && Mutexes(s) && ReaderMay(s, r)
    ensures Mutexes(ReaderDo(s, r))
  {
  }

  lemma ReaderWaits(s: State, r: ReaderStep)
    requires Owners(s) && Waits(s) && !s.main.Exited? && ReaderMay(s, r)
    ensures Waits(ReaderDo(s, r))
  {
    if r.RecvGet? {
      LiveGetMoves(s.gets, r.id, New(r.session));
    } else if r.Registered? {
      LiveExecMoves(s.core.execs, s.main.id, ReaderDo(s, r).core.execs[s.main.id]);
    }
  }

  // ---- exec goroutines ----

  predicate Streaming(pc: ExecPc) {
    pc.Held? && (pc.x.Run? || pc.x.Join?)
  }

  /** What a step of an exec goroutine is to the others: its record becomes `e`. */
  predicate Turn(s: State, u: State, id: Id, e: Exec) {
    && id in s.core.execs
    && var was := s.core.execs[id];
    && u.core.execs == s.core.execs[id := e]
    && u.main == s.main && u.gets == s.gets && u.used == s.used
    // its streamers
    && (was.launched.Some? ==> e.launched.Some?)
    && u.streams == (if was.launched.None? && e.launched.Some? then
                       s.streams[(id, false) := Reading][(id, true) := Reading]
                     else
                       s.streams)
    && ((was.launched.None? && e.launched.Some?) || (Streaming(was.pc) && !BothClosed(s, id)) ==> Streaming(e.pc))
    // its terminal frame
    && (if e.reply == was.reply then u.wire == s.wire && e.replyAt == was.replyAt
        else was.reply.None? && Terminal(e.reply.value)
             && u.wire == s.wire + [(id, e.reply.value)] && e.replyAt == |s.wire|)
    // the global locks
    && u.table == (if LockOf(was.pc).Table? then None else s.table)
    && u.out == (if LockOf(was.pc).Out? then None else s.out)
    && (LockOf(was.pc).Table? ==> s.table == Some(ExecT(id))) && (LockOf(was.pc).Out? ==> s.out == Some(ExecT(id)))
    // the WaitGroup
    && !was.pc.Done? && u.pending == if e.pc.Done? then Less(s.pending) else s.pending
  }

  lemma ExecTurn(s: State, id: Id, x: ExecStep)
    requires References(s.core) && ExecMay(s, id, x)
    ensures Turn(s, ExecAct(s, id, x), id, Next(s.core, id, x, |s.wire|))
  {
    assert ExecShape(s.core.execs[id]);
  }

  lemma TurnShape(s: State, u: State, id: Id, e: Exec)
    requires Owners(s) && Streamers(s) && Turn(s, u, id, e)
    ensures Owners(u) && Streamers(u)
  {
  }

  lemma TurnWire(s: State, u: State, id: Id, e: Exec)
    requires Owners(s) && Terminals(s) && Replies(s) && GetsAnswered(s) && Turn(s, u, id, e)
    ensures Terminals(u) && Replies(u) && GetsAnswered(u)
  {
  }

  lemma TurnMutexes(s: State, u: State, id: Id, e: Exec)
    requires Streamers(s) && Mutexes(s) && Turn(s, u, id, e)
    ensures Mutexes(u)
  {
  }

  lemma TurnWaits(s: State, u: State, id: Id, e: Exec)
    requires Waits(s) && !s.main.Exited? && Turn(s, u, id, e)
    ensures Waits(u)
  {
    LiveExecMoves(s.core.execs, id, e);
  }

  lemma Itself(s: State, id: Id, x: ExecStep)
    requires ExecMay(s, id, x)
    ensures ExecAct(s, id, x).core.execs == s.core.execs[id := Next(s.core, id, x, |s.wire|)]
  {
  }

  /** Nobody else touches an exec's record. */
  lemma OnlyItself(s: State, st: Step, id: Id)
    requires Owners(s) && Enabled(s, st) && id in s.core.execs && !(st.ExecBy? && st.id == id)
    ensures id in Do(s, st).core.execs && Do(s, st).core.execs[id] == s.core.execs[id]
  {
    if st.ExecBy? {
      Itself(s, st.id, st.x);
    }
  }

  // ---- streamers ----

  lemma StreamWire(s: State, id: Id, e: bool, y: StreamStep)
    requires References(s.core) && Owners(s) && Streamers(s) && Terminals(s) && Replies(s) && GetsAnswered(s)
    requires StreamMay(s, id, e, y)
    ensures var u := StreamDo(s, id, e, y); Terminals(u) && Replies(u) && GetsAnswered(u)
  {
    assert ExecShape(s.core.execs[id]) && s.core.execs[id].reply.None?;
  }

  lemma StreamRest(s: State, id: Id, e: bool, y: StreamStep)
    requires Owners(s) && Streamers(s) && Mutexes(s) && Waits(s) && StreamMay(s, id, e, y)
    ensures var u := StreamDo(s, id, e, y); Owners(u) && Streamers(u) && Mutexes(u) && Waits(u)
  {
    var u := StreamDo(s, id, e, y);
    assert forall t :: t != StreamT(id, e) ==> At(u, t) == At(s, t);
  }

  // ---- file_gets ----

  lemma GetShape(s: State, id: Id, z: GetStep)
    requires Owners(s) && Streamers(s) && GetMay(s, id, z)
    ensures Owners(GetDo(s, id, z)) && Streamers(GetDo(s, id, z))
  {
  }

  lemma GetWire(s: State, id: Id, z: GetStep)
    requires Owners(s) && Terminals(s) && Replies(s) && GetsAnswered(s) && GetMay(s, id, z)
    ensures var u := GetDo(s, id, z); Terminals(u) && Replies(u) && GetsAnswered(u)
  {
  }

  lemma GetMutexes(s: State, id: Id, z: GetStep)
    requires Mutexes(s) && GetMay(s, id, z)
    ensures Mutexes(GetDo(s, id, z))
  {
  }

  lemma GetWaits(s: State, id: Id, z: GetStep)
    requires Waits(s) && !s.main.Exited? && GetMay(s, id, z)
    ensures Waits(GetDo(s, id, z))
  {
    LiveGetMoves(s.gets, id, GetDo(s, id, z).gets[id]);
    assert GetDo(s, id, z).core.execs == s.core.execs;
  }

  // ---- every step ----

  lemma AcquireKeeps(s: State, t: Thread)
    requires Owners(s) && Streamers(s) && Terminals(s) && Replies(s) && GetsAnswered(s) && Waits(s)
    requires Enabled(s, Acquire(t))
    ensures var u := Do(s, Acquire(t));
            Owners(u) && Streamers(u) && Terminals(u) && Replies(u) && GetsAnswered(u) && Waits(u)
  {
  }

  lemma AcquireMutexes(s: State, t: Thread)
    requires Mutexes(s) && Enabled(s, Acquire(t))
    ensures Mutexes(Do(s, Acquire(t)))
  {
    var u := Do(s, Acquire(t));
    assert forall g :: At(u, g) == At(s, g);
  }

  /** A longer wire leaves the sessions alone. */
  lemma InvGrows(c: Core, n: nat, m: nat)
    requires Inv(c, n) && n <= m
    ensures Inv(c, m)
  {
  }

  lemma SessionsKept(s: State, st: Step)
    requires Inv(s.core, |s.wire|) && Owners(s) && Enabled(s, st) && !st.ExecBy?
    ensures Inv(Do(s, st).core, |Do(s, st).wire|)
  {
    var n, u := |s.wire|, Do(s, st);
    if st == Reader(Registered) {
      DispatchKeeps(s.core, s.main.id, s.main.req, n);
      assert u.core == Dispatch(s.core, s.main.id, s.main.req, n) && u.wire == s.wire;
    } else if st == Reader(ResolvedFile) {
      ResolveKeeps(s.core, s.main.session, n);
      assert u.core == Resolve(s.core, s.main.session) && u.wire == s.wire;
    } else if st.GetBy? && st.z.GetOpened? {
      ResolveKeeps(s.core, s.gets[st.id].session, n);
      assert u.core == Resolve(s.core, s.gets[st.id].session) && u.wire == s.wire;
    } else {
      InvGrows(s.core, n, |u.wire|);
      assert u.core == s.core;
    }
  }

  lemma ExecSessions(s: State, id: Id, x: ExecStep)
    requires Inv(s.core, |s.wire|) && ExecMay(s, id, x)
    ensures Inv(ExecAct(s, id, x).core, |ExecAct(s, id, x).wire|)
  {
    var n, u := |s.wire|, ExecAct(s, id, x);
    ExecKeeps(s.core, id, x, n);
    assert u.core == ExecDo(s.core, id, x, n) && |u.wire| == if x.WriteTerminal? then n + 1 else n;
  }

  /** Every step of the agent keeps the invariant. */
  lemma StepKeeps(s: State, st: Step)
    requires MachineInv(s) && Enabled(s, st)
    ensures MachineInv(Do(s, st))
  {
    if !st.ExecBy? {
      SessionsKept(s, st);
    }
    match st
    case Acquire(t) =>
      AcquireKeeps(s, t);
      AcquireMutexes(s, t);
    case Reader(r) =>
      ReaderShape(s, r);
      ReaderWire(s, r);
      ReaderMutexes(s, r);
      ReaderWaits(s, r);
    case ExecBy(id, x) =>
      var u, e := ExecAct(s, id, x), Next(s.core, id, x, |s.wire|);
      ExecSessions(s, id, x);
      ExecTurn(s, id, x);
      TurnShape(s, u, id, e);
      TurnWire(s, u, id, e);
      TurnMutexes(s, u, id, e);
      TurnWaits(s, u, id, e);
    case StreamBy(id, e, y) =>
      StreamWire(s, id, e, y);
      StreamRest(s, id, e, y);
    case GetBy(id, z) =>
      GetShape(s, id, z);
      GetWire(s, id, z);
      GetMutexes(s, id, z);
      GetWaits(s, id, z);
  }
}
