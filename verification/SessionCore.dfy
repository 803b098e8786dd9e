/**
 What the exec goroutines do to the agent's sessions, one function per step, and what every step keeps:
 each session object always holds the replay, in lock-acquisition order, of the commands that changed it.
 Locking and unlocking a session are separate steps; the other goroutines run in between.
 */
module SessionCore {
  import opened Basics
  import opened Sessions

  /** Request ids; 0 stands for frames that carry no id. */
  type Id = nat

  datatype Reply = Hello | Output | Chunk(done: bool) | Stat | Result(code: int) | Error

  predicate Terminal(k: Reply) {
    k.Result? || k.Error?
  }

  /** Where the holder of a session lock is. */
  datatype Inside =
    | Decide                   // nothing started yet
    | Run                      // process started
    | Join(code: int)          // process exited, waiting for the two streamers
    | Reporting(reply: Reply)  // writing the terminal frame, under a.outMu
    | Persisting               // persistSession, under a.mu
    | Unlock                   // handler returns: deferred unlock of the session

  datatype ExecPc =
    | Binding                  // resolveSession, under a.mu
    | WantSess                 // about to lock the session
    | Held(x: Inside)          // holds the session's lock
    | Unregistering            // unregisterRunning, under a.mu, then pending.Done
    | Done

  /**
   An exec goroutine. `ref` is its session object once bound, `launched` what its process was started
   with, `reply` its terminal frame once written, at index `replyAt` of the wire, `at` the length of the
   wire when it was dispatched, `pos` its place in the session's log once it has locked the session.
   */
  datatype Exec = Exec(pc: ExecPc, req: Request, ref: nat, launched: Option<Session>,
                       reply: Option<Reply>, replyAt: nat, at: nat, pos: nat)

  /** One acquisition of a session lock: by whom, what the session held then, and whether it was changed. */
  datatype Entry = Entry(id: Id, req: Request, seen: Session, committed: bool)

  datatype Core = Core(
    host: Host,
    execs: map<Id, Exec>,
    sessLock: map<nat, Id>,     // holders of the session locks
    ts: Tables,
    logs: seq<seq<Entry>>)      // history: the acquisitions of each session lock

  // ---- steps ----

  /** What an exec goroutine does next to the sessions. */
  datatype ExecStep =
    | BindSession
    | LockSession
    | CdOk                       // the built-in `cd`, whose target exists
    | Refuse                     // nothing is started
    | Launch
    | ProcessEnds(code: int)
    | Joined                     // both streamers are done
    | WriteTerminal
    | PersistSession
    | UnlockSession
    | Unregister

  /** The exec's session object exists. */
  predicate InHeap(c: Core, id: Id) {
    id in c.execs && c.execs[id].ref < |c.ts.heap| && c.execs[id].ref < |c.logs|
  }

  predicate May(c: Core, id: Id, x: ExecStep) {
    && id in c.execs
    && var e := c.execs[id];
    && (Bound(e) ==> InHeap(c, id))
    && match x
       case BindSession => e.pc.Binding?
       case LockSession => e.pc.WantSess? && e.ref !in c.sessLock
       case CdOk => e.pc == Held(Decide) && IsCd(e.req) && CdTarget(c.host, e.req, c.ts.heap[e.ref]) != ""
       case Refuse => e.pc == Held(Decide)
       case Launch => e.pc == Held(Decide) && !IsCd(e.req)
       case ProcessEnds(_) => e.pc == Held(Run)
       case Joined => e.pc.Held? && e.pc.x.Join?
       case WriteTerminal => e.pc.Held? && e.pc.x.Reporting?
       case PersistSession => e.pc == Held(Persisting) && e.launched.Some?
       case UnlockSession => e.pc == Held(Unlock)
       case Unregister => e.pc.Unregistering?
  }

  /** Only exit code 0 of a process leads to `persistSession`. */
  function AfterReport(e: Exec, k: Reply): Inside {
    if k == Result(0) && e.req.session != "" && !IsCd(e.req) then Persisting else Unlock
  }

  /** The exec's own record after the step, when the wire holds `n` frames. */
  function Next(c: Core, id: Id, x: ExecStep, n: nat): Exec
    requires May(c, id, x)
  {
    var e := c.execs[id];
    match x
    case BindSession => e.(pc := WantSess, ref := Resolved(c.ts, e.req.session).1)
    case LockSession => e.(pc := Held(Decide), pos := |c.logs[e.ref]|)
    case CdOk => e.(pc := Held(Reporting(Result(0))))
    case Refuse => e.(pc := Held(Reporting(Error)))
    case Launch => e.(pc := Held(Run), launched := Some(Seen(e.req, c.ts.heap[e.ref])))
    case ProcessEnds(code) => e.(pc := Held(Join(code)))
    case Joined => e.(pc := Held(Reporting(Result(e.pc.x.code))))
    case WriteTerminal => e.(reply := Some(e.pc.x.reply), replyAt := n, pc := Held(AfterReport(e, e.pc.x.reply)))
    case PersistSession => e.(pc := Held(Unlock))
    case UnlockSession => e.(pc := Unregistering)
    case Unregister => e.(pc := Done)
  }

  function Marked(log: seq<Entry>): seq<Entry> {
    if log == [] then log else log[|log| - 1 := log[|log| - 1].(committed := true)]
  }

  function ExecDo(c: Core, id: Id, x: ExecStep, n: nat): Core
    requires May(c, id, x)
  {
    var e := c.execs[id];
    var d := c.(execs := c.execs[id := Next(c, id, x, n)]);
    match x
    case BindSession => Resolve(c, e.req.session).(execs := d.execs)
    case LockSession =>
      d.(sessLock := c.sessLock[e.ref := id],
         logs := c.logs[e.ref := c.logs[e.ref] + [Entry(id, e.req, c.ts.heap[e.ref], false)]])
    case CdOk =>
      var dir := CdTarget(c.host, e.req, c.ts.heap[e.ref]);
      d.(ts := c.ts.(heap := c.ts.heap[e.ref := c.ts.heap[e.ref].(cwd := dir)]),
         logs := c.logs[e.ref := Marked(c.logs[e.ref])])
    case PersistSession =>
      d.(ts := Persisted(c.ts, e.req, e.launched.value.cwd), logs := c.logs[e.ref := Marked(c.logs[e.ref])])
    case UnlockSession => d.(sessLock := c.sessLock - {e.ref})
    case _ => d
  }

  /** A new exec goroutine. */
  function Dispatch(c: Core, id: Id, req: Request, at: nat): Core {
    c.(execs := c.execs[id := Exec(Binding, req, 0, None, None, 0, at, 0)])
  }

  /** `resolveSession` for `name`; a new object gets an empty log. */
  function Resolve(c: Core, name: string): Core {
    var (ts, r) := Resolved(c.ts, name);
    c.(ts := ts, logs := if |ts.heap| > |c.ts.heap| then c.logs + [[]] else c.logs)
  }

  // ---- the sequential reference ----

  /** What a new session holds after the committed commands of `log`, one after the other. */
  function Replay(host: Host, log: seq<Entry>): Session {
    if log == [] then
      FRESH
    else
      var last := log[|log| - 1];
      var before := Replay(host, log[..|log| - 1]);
      if last.committed then Commit(host, last.req, before) else before
  }

  // ---- invariants ----

  predicate Bound(e: Exec) {
    !e.pc.Binding?
  }

  /** The exec has taken its session's lock. */
  predicate Acquired(pc: ExecPc) {
    pc.Held? || pc.Unregistering? || pc.Done?
  }

  /** Its terminal frame is on the wire. */
  predicate Reported(pc: ExecPc) {
    if pc.Held? then pc.x.Persisting? || pc.x.Unlock? else Acquired(pc)
  }

  predicate ExecShape(e: Exec) {
    && (e.reply.Some? <==> Reported(e.pc))
    && (e.reply.Some? ==> Terminal(e.reply.value))
    && (IsCd(e.req) || !Acquired(e.pc) ==> e.launched.None?)
    && (e.pc.Held? ==>
          match e.pc.x
          case Decide => e.launched.None?
          case Run => e.launched.Some?
          case Join(_) => e.launched.Some?
          case Reporting(k) =>
            Terminal(k) && (k.Result? ==> if IsCd(e.req) then k == Result(0) else e.launched.Some?)
          case Persisting =>
            e.launched.Some? && e.reply == Some(Result(0)) && e.req.session != "" && !IsCd(e.req)
          case Unlock => true)
  }

  /** Every bound exec refers to an object of the heap: the one its session's name maps to, or one of its own. */
  ghost predicate References(c: Core) {
    && |c.logs| == |c.ts.heap|
    && "" !in c.ts.names
    && (forall n <- c.ts.names :: c.ts.names[n] < |c.ts.heap|)
    && (forall n, m | n in c.ts.names && m in c.ts.names :: c.ts.names[n] == c.ts.names[m] ==> n == m)
    && (forall id <- c.execs :: ExecShape(c.execs[id]))
    && (forall id <- c.execs :: Bound(c.execs[id]) ==> c.execs[id].ref < |c.ts.heap|)
    && (forall id <- c.execs :: Bound(c.execs[id]) && c.execs[id].req.session != "" ==>
          c.execs[id].req.session in c.ts.names && c.ts.names[c.execs[id].req.session] == c.execs[id].ref)
    && (forall id, n | id in c.execs && n in c.ts.names ::
          Bound(c.execs[id]) && c.execs[id].req.session == "" ==> c.ts.names[n] != c.execs[id].ref)
    && (forall id, jd | id in c.execs && jd in c.execs && Bound(c.execs[id]) && Bound(c.execs[jd]) ::
          c.execs[id].req.session == "" && c.execs[id].ref == c.execs[jd].ref ==> id == jd)
  }

  /** A session's lock is held exactly by the exec between its lock and its unlock. */
  ghost predicate SessionLocks(c: Core) {
    && (forall r <- c.sessLock ::
          c.sessLock[r] in c.execs && c.execs[c.sessLock[r]].pc.Held? && c.execs[c.sessLock[r]].ref == r)
    && (forall id <- c.execs :: c.execs[id].pc.Held? ==>
          c.execs[id].ref in c.sessLock && c.sessLock[c.execs[id].ref] == id)
  }

  /** Whether the exec's command has changed its session; once released, iff it reported exit code 0. */
  predicate Changed(e: Exec) {
    match e.pc
    case Held(Reporting(k)) => IsCd(e.req) && k == Result(0)
    case Held(Unlock) => e.req.session != "" && e.reply == Some(Result(0))
    case Held(_) => false
    case _ => e.req.session != "" && e.reply == Some(Result(0))
  }

  /** An acquisition is logged once, and what the log says of an exec is what happened to it. */
  ghost predicate Entries(c: Core) {
    forall r, k | 0 <= r < |c.logs| && 0 <= k < |c.logs[r]| :: EntryOk(c, r, k, c.logs[r][k])
  }

  predicate EntryOk(c: Core, r: nat, k: nat, e: Entry) {
    && e.id in c.execs && Acquired(c.execs[e.id].pc)
    && c.execs[e.id].ref == r && c.execs[e.id].pos == k && c.execs[e.id].req == e.req
    && e.committed == Changed(c.execs[e.id])
    && (c.execs[e.id].launched.Some? ==> c.execs[e.id].launched.value == Seen(e.req, e.seen))
  }

  /** The holder of a session's lock is the last in its log. */
  ghost predicate Holders(c: Core) {
    forall r <- c.sessLock ::
      r < |c.logs| && c.logs[r] != [] && c.logs[r][|c.logs[r]| - 1].id == c.sessLock[r]
  }

  /** Every acquisition is logged. */
  ghost predicate Complete(c: Core) {
    forall id <- c.execs :: Acquired(c.execs[id].pc) ==>
      && c.execs[id].ref < |c.logs| && c.execs[id].pos < |c.logs[c.execs[id].ref]|
      && c.logs[c.execs[id].ref][c.execs[id].pos].id == id
  }

  /** Sessions hold the replay of their log, and every command saw the replay of what came before it. */
  ghost predicate Replays(c: Core) {
    && |c.logs| == |c.ts.heap|
    && (forall r | 0 <= r < |c.logs| :: c.ts.heap[r] == Replay(c.host, c.logs[r]))
    && (forall r, k | 0 <= r < |c.logs| && 0 <= k < |c.logs[r]| ::
          c.logs[r][k].seen == Replay(c.host, c.logs[r][..k]))
  }

  /** Wire indices: an exec that reported before another was dispatched comes before it in the session's log. */
  ghost predicate Ordered(c: Core, n: nat) {
    Stamped(c, n) && Sequenced(c)
  }

  ghost predicate Stamped(c: Core, n: nat) {
    forall id <- c.execs :: c.execs[id].at <= n && (c.execs[id].reply.Some? ==> c.execs[id].replyAt < n)
  }

  ghost predicate Sequenced(c: Core) {
    (forall r, j, k | 0 <= r < |c.logs| && 0 <= j < k < |c.logs[r]| ::
          && c.logs[r][j].id in c.execs && c.logs[r][k].id in c.execs
          && (c.execs[c.logs[r][k].id].reply.Some? ==> c.execs[c.logs[r][j].id].at <= c.execs[c.logs[r][k].id].replyAt))
  }

  /** The invariant, with `n` frames on the wire. */
  ghost predicate Inv(c: Core, n: nat) {
    References(c) && SessionLocks(c) && Entries(c) && Holders(c) && Replays(c) && Complete(c) && Ordered(c, n)
  }

  // ---- the replay under acquisitions and marks ----

  /** An unmarked acquisition changes no session. */
  lemma ReplayAcquired(host: Host, log: seq<Entry>, e: Entry)
    ensures !e.committed ==> Replay(host, log + [e]) == Replay(host, log)
    ensures forall k | 0 <= k <= |log| :: (log + [e])[..k] == log[..k]
  {
    assert (log + [e])[..|log|] == log;
  }

  /** Marking the holder's entry applies its command to the session. */
  lemma ReplayMarked(host: Host, log: seq<Entry>)
    requires log != [] && !log[|log| - 1].committed
    ensures Replay(host, Marked(log)) == Commit(host, log[|log| - 1].req, Replay(host, log))
    ensures forall k | 0 <= k < |log| :: Marked(log)[..k] == log[..k]
  {
    assert Marked(log)[..|log| - 1] == log[..|log| - 1];
  }

  // ---- one form for all steps but the acquisition of a session lock ----

  /** A new record for one exec; its command may be applied to its session, its session's lock may be released. */
  function Shift(c: Core, id: Id, e: Exec, commit: bool, unlock: bool): Core
    requires commit ==> e.ref < |c.ts.heap| && e.ref < |c.logs|
  {
    Core(c.host, c.execs[id := e],
         if unlock then c.sessLock - {e.ref} else c.sessLock,
         if commit then c.ts.(heap := c.ts.heap[e.ref := Commit(c.host, e.req, c.ts.heap[e.ref])]) else c.ts,
         if commit then c.logs[e.ref := Marked(c.logs[e.ref])] else c.logs)
  }

  /** The exec is bound to the object of its session's name, or to one that nobody else has. */
  ghost predicate Fits(c: Core, id: Id, e: Exec) {
    && e.ref < |c.ts.heap|
    && (if e.req.session != "" then e.req.session in c.ts.names && c.ts.names[e.req.session] == e.ref
        else forall n <- c.ts.names :: c.ts.names[n] != e.ref)
    && (forall jd <- c.execs :: jd != id && Bound(c.execs[jd]) && c.execs[jd].ref == e.ref ==>
          e.req.session != "" && c.execs[jd].req.session != "")
  }

  predicate Follows(c: Core, was: Exec, e: Exec, commit: bool, unlock: bool) {
    && e.req == was.req && e.at == was.at
    && (Bound(was) ==> Bound(e) && e.ref == was.ref)
    && Acquired(e.pc) == Acquired(was.pc) && (Acquired(e.pc) ==> e.pos == was.pos)
    && was.pc.Held? == (e.pc.Held? || unlock) && !(e.pc.Held? && unlock)
    && (commit ==> was.pc.Held? && e.ref < |c.ts.heap| && e.ref < |c.logs|)
    && Changed(e) == (Changed(was) || commit) && !(commit && Changed(was))
    && (e.launched == was.launched
        || (was.pc.Held? && !Changed(was) && e.ref < |c.ts.heap| && e.launched == Some(Seen(e.req, c.ts.heap[e.ref]))))
  }

  ghost predicate ShiftOk(c: Core, id: Id, e: Exec, commit: bool, unlock: bool) {
    && ExecShape(e)
    && (if id in c.execs then Follows(c, c.execs[id], e, commit, unlock) else !Acquired(e.pc) && !commit && !unlock)
    && (Bound(e) && (id in c.execs ==> !Bound(c.execs[id])) ==> Fits(c, id, e))
  }

  /** Between wire lengths `n` and `m`, the exec reports its terminal frame or leaves the wire alone. */
  predicate AtWire(c: Core, id: Id, e: Exec, n: nat, m: nat) {
    if id !in c.execs then e.reply.None? && e.at <= n == m
    else if e.reply == c.execs[id].reply then e.replyAt == c.execs[id].replyAt && n == m
    else e.replyAt == n && m == n + 1
  }

  /** The last entry of a locked session is its holder's; until the holder changes the session, it holds what he saw. */
  ghost predicate Mine(c: Core, id: Id) {
    && InHeap(c, id)
    && var e, log := c.execs[id], c.logs[c.execs[id].ref];
    && log != []
    && var last := log[|log| - 1];
    && last.id == id && last.req == e.req && last.committed == Changed(e) && e.pos == |log| - 1
    && (!Changed(e) ==> c.ts.heap[e.ref] == last.seen)
    && (e.launched.Some? ==> e.launched.value == Seen(e.req, last.seen))
  }

  lemma HolderEntry(c: Core, id: Id)
    requires References(c) && SessionLocks(c) && Entries(c) && Holders(c) && Replays(c)
    requires id in c.execs && c.execs[id].pc.Held?
    ensures Mine(c, id)
  {
    var log := c.logs[c.execs[id].ref];
    assert EntryOk(c, c.execs[id].ref, |log| - 1, log[|log| - 1]) && log[|log| - 1].id == id;
    assert !Changed(c.execs[id]) ==> Replay(c.host, log) == Replay(c.host, log[..|log| - 1]);
  }

  lemma ShiftReferences(c: Core, id: Id, e: Exec, commit: bool, unlock: bool)
    requires References(c) && ShiftOk(c, id, e, commit, unlock)
    ensures References(Shift(c, id, e, commit, unlock))
  {
  }

  lemma ShiftLocks(c: Core, id: Id, e: Exec, commit: bool, unlock: bool)
    requires |c.logs| == |c.ts.heap| && SessionLocks(c) && Holders(c) && ShiftOk(c, id, e, commit, unlock)
    ensures SessionLocks(Shift(c, id, e, commit, unlock)) && Holders(Shift(c, id, e, commit, unlock))
  {
  }

  lemma ShiftEntries(c: Core, id: Id, e: Exec, commit: bool, unlock: bool)
    requires Entries(c) && ShiftOk(c, id, e, commit, unlock)
    requires id in c.execs && c.execs[id].pc.Held? ==> Mine(c, id)
    ensures Entries(Shift(c, id, e, commit, unlock))
  {
    var d := Shift(c, id, e, commit, unlock);
    forall r, k | 0 <= r < |d.logs| && 0 <= k < |d.logs[r]|
      ensures EntryOk(d, r, k, d.logs[r][k])
    {
      assert EntryOk(c, r, k, c.logs[r][k]);
    }
  }

  lemma ShiftComplete(c: Core, id: Id, e: Exec, commit: bool, unlock: bool)
    requires Complete(c) && ShiftOk(c, id, e, commit, unlock)
    ensures Complete(Shift(c, id, e, commit, unlock))
  {
  }

  lemma ShiftReplays(c: Core, id: Id, e: Exec, commit: bool, unlock: bool)
    requires Replays(c) && ShiftOk(c, id, e, commit, unlock) && (commit ==> Mine(c, id))
    ensures Replays(Shift(c, id, e, commit, unlock))
  {
    if commit {
      ReplayMarked(c.host, c.logs[e.ref]);
    }
  }

  lemma ShiftOrdered(c: Core, id: Id, e: Exec, commit: bool, unlock: bool, n: nat, m: nat)
    requires Entries(c) && Ordered(c, n) && ShiftOk(c, id, e, commit, unlock) && AtWire(c, id, e, n, m)
    ensures Ordered(Shift(c, id, e, commit, unlock), m)
  {
  }

  /** Every step of that form keeps the invariant. */
  lemma ShiftKeeps(c: Core, id: Id, e: Exec, commit: bool, unlock: bool, n: nat, m: nat)
    requires Inv(c, n) && ShiftOk(c, id, e, commit, unlock) && AtWire(c, id, e, n, m)
    ensures Inv(Shift(c, id, e, commit, unlock), m)
  {
    if id in c.execs && c.execs[id].pc.Held? {
      HolderEntry(c, id);
    }
    ShiftReferences(c, id, e, commit, unlock);
    ShiftLocks(c, id, e, commit, unlock);
    ShiftEntries(c, id, e, commit, unlock);
    ShiftComplete(c, id, e, commit, unlock);
    ShiftReplays(c, id, e, commit, unlock);
    ShiftOrdered(c, id, e, commit, unlock, n, m);
  }

  // ---- a new session object ----

  lemma ResolveKeeps(c: Core, name: string, n: nat)
    requires Inv(c, n)
    ensures Inv(Resolve(c, name), n)
  {
    ResolveLinks(c, name);
    ResolveEntries(c, name);
    ResolveComplete(c, name);
    ResolveReplays(c, name, n);
  }

  lemma ResolveLinks(c: Core, name: string)
    requires References(c) && SessionLocks(c)
    ensures References(Resolve(c, name)) && SessionLocks(Resolve(c, name))
  {
  }

  lemma ResolveReplays(c: Core, name: string, n: nat)
    requires Replays(c) && Ordered(c, n)
    ensures Replays(Resolve(c, name)) && Ordered(Resolve(c, name), n)
  {
  }

  lemma ResolveEntries(c: Core, name: string)
    requires Entries(c) && Holders(c)
    ensures Entries(Resolve(c, name)) && Holders(Resolve(c, name))
  {
    var d := Resolve(c, name);
    forall r, k | 0 <= r < |d.logs| && 0 <= k < |d.logs[r]|
      ensures EntryOk(d, r, k, d.logs[r][k])
    {
      assert EntryOk(c, r, k, c.logs[r][k]);
    }
  }

  lemma ResolveComplete(c: Core, name: string)
    requires Complete(c)
    ensures Complete(Resolve(c, name))
  {
  }

  // ---- the acquisition of a session lock ----

  lemma LockReferences(c: Core, id: Id, n: nat)
    requires References(c) && May(c, id, LockSession)
    ensures References(ExecDo(c, id, LockSession, n))
  {
  }

  lemma LockHolders(c: Core, id: Id, n: nat)
    requires |c.logs| == |c.ts.heap| && SessionLocks(c) && Holders(c) && May(c, id, LockSession)
    ensures SessionLocks(ExecDo(c, id, LockSession, n)) && Holders(ExecDo(c, id, LockSession, n))
  {
  }

  lemma LockEntries(c: Core, id: Id, n: nat)
    requires Entries(c) && Complete(c) && May(c, id, LockSession) && ExecShape(c.execs[id])
    ensures Entries(ExecDo(c, id, LockSession, n)) && Complete(ExecDo(c, id, LockSession, n))
  {
  }

  lemma LockOrdered(c: Core, id: Id, n: nat)
    requires Entries(c) && Ordered(c, n) && May(c, id, LockSession) && ExecShape(c.execs[id])
    ensures Ordered(ExecDo(c, id, LockSession, n), n)
  {
  }

  lemma LockReplays(c: Core, id: Id, n: nat)
    requires Replays(c) && May(c, id, LockSession)
    ensures Replays(ExecDo(c, id, LockSession, n))
  {
    var e := c.execs[id];
    ReplayAcquired(c.host, c.logs[e.ref], Entry(id, e.req, c.ts.heap[e.ref], false));
  }

  /** Taking the session's lock keeps the invariant. */
  lemma LockKeeps(c: Core, id: Id, n: nat)
    requires Inv(c, n) && May(c, id, LockSession)
    ensures Inv(ExecDo(c, id, LockSession, n), n)
  {
    LockReferences(c, id, n);
    LockHolders(c, id, n);
    LockEntries(c, id, n);
    LockOrdered(c, id, n);
    LockReplays(c, id, n);
  }

  // ---- every step of an exec goroutine ----

  predicate Commits(x: ExecStep) {
    x.CdOk? || x.PersistSession?
  }

  /**
   Every step but the acquisition has that form. In particular `persistSession`, which looks the session up again by
   name and uses the directory fixed at the start, applies the command to the object that the exec has locked.
   */
  lemma StepIsShift(c: Core, id: Id, x: ExecStep, n: nat)
    requires References(c) && May(c, id, x) && !x.LockSession? && !x.BindSession?
    requires c.execs[id].pc.Held? ==> Mine(c, id)
    ensures ShiftOk(c, id, Next(c, id, x, n), Commits(x), x.UnlockSession?)
    ensures AtWire(c, id, Next(c, id, x, n), n, if x.WriteTerminal? then n + 1 else n)
    ensures ExecDo(c, id, x, n) == Shift(c, id, Next(c, id, x, n), Commits(x), x.UnlockSession?)
  {
  }

  lemma BindIsShift(c: Core, id: Id, n: nat)
    requires References(c) && May(c, id, BindSession)
    ensures var d := Resolve(c, c.execs[id].req.session);
            && ShiftOk(d, id, Next(c, id, BindSession, n), false, false)
            && ExecDo(c, id, BindSession, n) == Shift(d, id, Next(c, id, BindSession, n), false, false)
  {
  }

  /** Every step of an exec goroutine keeps the invariant. */
  lemma ExecKeeps(c: Core, id: Id, x: ExecStep, n: nat)
    requires Inv(c, n) && May(c, id, x)
    ensures Inv(ExecDo(c, id, x, n), if x.WriteTerminal? then n + 1 else n)
  {
    var e := Next(c, id, x, n);
    if x.LockSession? {
      LockKeeps(c, id, n);
    } else if x.BindSession? {
      ResolveKeeps(c, c.execs[id].req.session, n);
      BindIsShift(c, id, n);
      ShiftKeeps(Resolve(c, c.execs[id].req.session), id, e, false, false, n, n);
    } else {
      if c.execs[id].pc.Held? {
        HolderEntry(c, id);
      }
      StepIsShift(c, id, x, n);
      ShiftKeeps(c, id, e, Commits(x), x.UnlockSession?, n, if x.WriteTerminal? then n + 1 else n);
    }
  }

  lemma DispatchKeeps(c: Core, id: Id, req: Request, n: nat)
    requires Inv(c, n) && id !in c.execs
    ensures Inv(Dispatch(c, id, req, n), n)
  {
    ShiftKeeps(c, id, Dispatch(c, id, req, n).execs[id], false, false, n, n);
  }
}
