/** Clients that leave: exactly when the daemon survives them. */
module RouterLeavers {
  import opened Basics
  import opened Router
  import opened RouterProofs
  import opened RouterTheorems

  /**
   The request's pump sends nothing more to its client's writeCh: it was refused, its terminal frame has been handed
   to the socket writer, or it was registered after failAll's swap, so that no frame will come.
   */
  predicate Quiet(s: State, id: Id)
    requires id in s.front.reqs
  {
    var stage := s.front.reqs[id].stage;
    || stage.Refused?
    || (stage.Accepted? && (stage.pump.Finished? || (stage.pump.Queued? && Terminal(stage.pump.f))))
    || (stage.Accepted? && !Live(s.back) && id in s.back.routes)
  }

  ghost predicate Settled(s: State, c: Cid) {
    forall id <- s.front.reqs :: s.front.reqs[id].owner == c ==> Quiet(s, id)
  }

  /** Client `c` has left; its bridge has returned before. */
  predicate Gone(s: State, c: Cid) {
    c in s.front.clients && !s.front.clients[c].attached && s.front.clients[c].pc.Reading?
  }

  ghost predicate GoneAreSettled(s: State) {
    !s.crashed && forall c <- s.front.clients :: !s.front.clients[c].attached ==> Gone(s, c) && Settled(s, c)
  }

  predicate Leaves(st: Step) {
    st.ByClient? && st.x.Detach?
  }

  lemma LateIsIdle(s: State, id: Id)
    requires Fine(s.back, s.front, id) && IsAccepted(s.front, id) && !Live(s.back) && id in s.back.routes
    ensures s.front.reqs[id].stage == Accepted(Idle) && s.front.reqs[id].reply == []
  {
    assert Project(s.back.routed, id) + FailPart(s.back, id) == [];
  }

  lemma GoneStays(s: State, st: Step, c: Cid)
    requires Gone(s, c) && Enabled(s, st)
    ensures Gone(Do(s, st), c)
  {
  }

  /** The request is as before, as far as `Quiet` goes. */
  predicate QuietAlike(s: State, t: State, id: Id) {
    && id in s.front.reqs && id in t.front.reqs && t.front.reqs[id].owner == s.front.reqs[id].owner
    && (Quiet(t, id) <==> Quiet(s, id))
  }

  /** For a client that is gone only its socket writer still runs, and writes what its pumps have queued. */
  lemma QuietByClient(s: State, c: Cid, x: ClientStep, id: Id)
    requires Fine(s.back, s.front, id) && ClientMay(s, c, x) && id in s.front.reqs && Gone(s, s.front.reqs[id].owner)
    ensures var g, was := ClientFront(s, c, x), s.front.reqs[id];
            && id in g.reqs && g.reqs[id].owner == was.owner
            && (g.reqs[id].stage == was.stage
                || (was.stage.Accepted? && was.stage.pump.Queued?
                    && g.reqs[id].stage == Accepted(if Terminal(was.stage.pump.f) then Finished else Idle)))
  {
    if c in s.front.clients && Concerned(s.front.clients[c], x) == Some(id) {
      assert AtClient(s.front, c, id);
      assert x.WriteReply? || x.WriteRefusal?;
      HeadIsOwn(s.back, s.front, c);
    } else {
      ClientOthers(s, c, x, id);
    }
  }

  lemma QuietByPump(s: State, j: Id, p: PumpStep, id: Id)
    requires Fine(s.back, s.front, id) && PumpMay(s.front, j, p)
    requires id in s.front.reqs && Gone(s, s.front.reqs[id].owner)
    ensures QuietAlike(s, s.(front := PumpFront(s.front, j, p)), id)
  {
    if IsAccepted(s.front, id) && !Live(s.back) && id in s.back.routes {
      LateIsIdle(s, id);
    }
  }

  lemma QuietOnBack(s: State, y: BackStep, id: Id)
    requires BackMay(s, y) && id in s.front.reqs
    ensures QuietAlike(s, BackDo(s, y), id)
  {
  }

  /** Whether a request of a client that is gone is quiet never changes. */
  lemma QuietStays(s: State, st: Step, id: Id)
    requires Inv(s) && Enabled(s, st) && id in s.front.reqs && Gone(s, s.front.reqs[id].owner) && !Do(s, st).crashed
    ensures QuietAlike(s, Do(s, st), id) && Gone(Do(s, st), s.front.reqs[id].owner)
  {
    GoneStays(s, st, s.front.reqs[id].owner);
    assert Fine(s.back, s.front, id);
    match st
    case ByClient(c, x) => QuietByClient(s, c, x, id);
    case ByPump(j, p) => QuietByPump(s, j, p, id);
    case OnBack(y) => QuietOnBack(s, y, id);
    case OnFwd(_) =>
  }

  /** A client that is gone was gone before, or leaves now; its requests are not new. */
  lemma GoneBefore(s: State, st: Step, c: Cid)
    requires Enabled(s, st) && c in Do(s, st).front.clients && !Do(s, st).front.clients[c].attached
    ensures c in s.front.clients && (s.front.clients[c].attached ==> st == ByClient(c, Detach))
    ensures forall id <- Do(s, st).front.reqs :: Has(Do(s, st).front, c, id) ==> Has(s.front, c, id)
  {
  }

  lemma NoPanic(s: State, id: Id)
    requires Inv(s) && GoneAreSettled(s)
    ensures !PumpMay(s.front, id, Panic)
  {
    if PumpMay(s.front, id, Panic) {
      assert Settled(s, s.front.reqs[id].owner) && Quiet(s, id) && Fine(s.back, s.front, id);
      LateIsIdle(s, id);
    }
  }

  lemma GoneKept(s: State, st: Step)
    requires Inv(s) && GoneAreSettled(s) && Enabled(s, st) && (Leaves(st) ==> Settled(s, st.c))
    ensures GoneAreSettled(Do(s, st))
  {
    var t := Do(s, st);
    if st.ByPump? {
      NoPanic(s, st.id);
    }
    forall c | c in t.front.clients && !t.front.clients[c].attached
      ensures Gone(t, c) && Settled(t, c)
    {
      GoneBefore(s, st, c);
      StillSettled(s, st, c);
    }
  }

  lemma StillSettled(s: State, st: Step, c: Cid)
    requires Inv(s) && Enabled(s, st) && !Do(s, st).crashed && c in s.front.clients && Settled(s, c)
    requires st == ByClient(c, Detach) || Gone(s, c)
    requires forall id <- Do(s, st).front.reqs :: Has(Do(s, st).front, c, id) ==> Has(s.front, c, id)
    ensures Gone(Do(s, st), c) && Settled(Do(s, st), c)
  {
    var t := Do(s, st);
    forall id | id in t.front.reqs && t.front.reqs[id].owner == c
      ensures Quiet(t, id)
    {
      assert Has(t.front, c, id);
      if Gone(s, c) {
        QuietStays(s, st, id);
      }
    }
  }

  /** From `base` on, clients leave only when all their requests are settled. */
  ghost predicate LeavesSettled(base: seq<Step>, steps: seq<Step>) {
    forall n | |base| <= n < |steps| && Leaves(steps[n]) ::
      RunOf(steps[..n]).Some? && Settled(RunOf(steps[..n]).value, steps[n].c)
  }

  /** The daemon does not panic when clients leave only after all their requests are settled. */
  lemma {:induction false} SettledLeaversAreSafe(base: seq<Step>, steps: seq<Step>)
    requires RunOf(base).Some? && GoneAreSettled(RunOf(base).value)
    requires base <= steps && RunOf(steps).Some? && LeavesSettled(base, steps)
    ensures GoneAreSettled(RunOf(steps).value)
    decreases |steps|
  {
    if |steps| > |base| {
      var front := steps[..|steps| - 1];
      assert forall n | 0 <= n < |front| :: front[..n] == steps[..n] && front[n] == steps[n];
      SettledLeaversAreSafe(base, front);
      RunKeeps(front, RunOf(front).value);
      GoneKept(RunOf(front).value, steps[|steps| - 1]);
    } else {
      assert steps == base;
    }
  }

  // ---- an unsettled leaver can do harm ----

  /** `next` goes on from `base`, and nobody leaves. */
  ghost predicate Continues(base: seq<Step>, next: seq<Step>) {
    base <= next && forall n | |base| <= n < |next| :: !Leaves(next[n])
  }

  /** An accepted request whose client is gone, and whose pump is not done with it. */
  predicate Left(s: State, id: Id) {
    !s.crashed && IsAccepted(s.front, id) && Gone(s, s.front.reqs[id].owner) && !Quiet(s, id)
  }

  function Socket(f: Front, id: Id): nat {
    if Registered(f, id) then |f.clients[f.reqs[id].owner].socket| else 0
  }

  /** How far the pump of `id` is from a frame in its hand. */
  function Phase(f: Front, id: Id): nat {
    if !IsAccepted(f, id) || f.reqs[id].stage.pump.Holding? then 0
    else if f.reqs[id].stage.pump.Queued? then 3
    else if f.reqs[id].reply == [] then 2
    else 1
  }

  /** How far the reply channel of `id` is from having room. */
  function Room(f: Front, id: Id): nat {
    if Takes(f, id) || !IsAccepted(f, id) || f.reqs[id].stage.pump.Finished? then 0
    else if f.reqs[id].stage.pump.Idle? then 1
    else if f.reqs[id].stage.pump.Queued? then 2 + Socket(f, id)
    else 3 + QUEUE_CAP + Socket(f, id)
  }

  /** How far pumpFromAgent is from failAll, in two parts. */
  function Distance(s: State, id: Id): (nat, nat) {
    if Phase(s.front, id) == 3 then (Socket(s.front, id), 0)
    else if Phase(s.front, id) < 2 then (0, 0)
    else if s.back.from.Handing? then (2, Room(s.front, s.back.from.id))
    else (if s.back.from.Listening? then 1 else 0, 0)
  }

  predicate Nearer(s: State, t: State, id: Id) {
    || t.crashed || Phase(t.front, id) < Phase(s.front, id)
    || (Phase(t.front, id) == Phase(s.front, id)
        && (Distance(t, id).0 < Distance(s, id).0
            || (Distance(t, id).0 == Distance(s, id).0 && Distance(t, id).1 < Distance(s, id).1)))
  }

  /** A request whose pump waits on an empty channel after the swap is one that failAll still has to answer. */
  lemma InTodo(s: State, id: Id)
    requires Fine(s.back, s.front, id) && Left(s, id) && Phase(s.front, id) == 2 && !Live(s.back)
    ensures s.back.from.Failing? && id in s.back.from.todo
  {
    var got, read := Got(s.front, id), Project(s.back.routed, id);
    assert got + [] + [] + [] + [] == got && got == read + FailPart(s.back, id) && read + [] == read;
    assert got != [] ==> !Terminal(got[|got| - 1]);
  }

  /** The socket of the request's client is written on. */
  lemma WriteSocket(s: State, j: Id, id: Id) returns (st: Step)
    requires Inv(s) && Left(s, id) && IsAccepted(s.front, j) && Registered(s.front, j) && Socket(s.front, j) > 0
    requires if Phase(s.front, id) == 3 then j == id
             else Phase(s.front, id) == 2 && s.back.from.Handing? && s.back.from.id == j && Room(s.front, j) > 1
    ensures Enabled(s, st) && !Leaves(st) && Nearer(s, Do(s, st), id)
  {
    var d := s.front.reqs[j].owner;
    st := BridgeMoves(s, d);
    assert Fine(s.back, s.front, s.front.clients[d].socket[0].0);
    HeadIsOwn(s.back, s.front, d);
    assert Socket(Do(s, st).front, j) == Socket(s.front, j) - 1 && Do(s, st).back == s.back;
  }

  /** The pump of the request that pumpFromAgent is blocked on makes room, or panics. */
  lemma MakeRoom(s: State, id: Id) returns (st: Step)
    requires Inv(s) && Left(s, id) && Phase(s.front, id) == 2
    requires s.back.from.Handing? && !Takes(s.front, s.back.from.id)
    ensures Enabled(s, st) && !Leaves(st) && Nearer(s, Do(s, st), id)
  {
    var j := s.back.from.id;
    assert Fine(s.back, s.front, j);
    WayEnds(s.back, s.front, j);
    var r := s.front.reqs[j];
    if r.stage.pump.Idle? {
      st := ByPump(j, Take);
    } else if r.stage.pump.Holding? && !s.front.clients[r.owner].attached {
      st := ByPump(j, Panic);
    } else if r.stage.pump.Holding? && Socket(s.front, j) < QUEUE_CAP {
      st := ByPump(j, Queue);
    } else {
      st := WriteSocket(s, j, id);
    }
  }

  /** The step that leads towards the panic. */
  lemma Toward(s: State, id: Id) returns (st: Step)
    requires Inv(s) && Left(s, id)
    ensures Enabled(s, st) && !Leaves(st) && Nearer(s, Do(s, st), id)
  {
    assert Fine(s.back, s.front, id);
    var pump := s.front.reqs[id].stage.pump;
    if Phase(s.front, id) == 3 {
      st := WriteSocket(s, id, id);
    } else if Phase(s.front, id) < 2 {
      st := ByPump(id, if pump.Holding? then Panic else Take);
    } else if s.back.from.Handing? && !Takes(s.front, s.back.from.id) {
      st := MakeRoom(s, id);
    } else if Live(s.back) {
      st := OnBack(if s.back.from.Handing? then Deliver else ReadError);
    } else {
      InTodo(s, id);
      st := OnBack(FailOne(id));
    }
  }

  lemma {:induction false} LeftCrashes(base: seq<Step>, cur: seq<Step>, s: State, id: Id) returns (next: seq<Step>)
    requires Continues(base, cur) && RunOf(cur) == Some(s) && Left(s, id)
    ensures Continues(base, next) && RunOf(next).Some? && RunOf(next).value.crashed
    decreases Phase(s.front, id), Distance(s, id).0, Distance(s, id).1
  {
    RunKeeps(cur, s);
    var st := Toward(s, id);
    next := Then(cur, st);
    if !Do(s, st).crashed {
      QuietStays(s, st, id);
      next := LeftCrashes(base, next, Do(s, st), id);
    }
  }

  /**
   Exactly when the daemon survives a client that leaves: in every run in which earlier leavers were settled, some
   continuation without further leavers panics, if and only if the client still has an unsettled request.
   */
  lemma LeaverMayCrash(steps: seq<Step>, s: State, c: Cid)
    requires RunOf(steps) == Some(s) && GoneAreSettled(s) && Enabled(s, ByClient(c, Detach))
    ensures (exists next: seq<Step> ::
               Continues(steps + [ByClient(c, Detach)], next) && RunOf(next).Some? && RunOf(next).value.crashed)
            <==> !Settled(s, c)
  {
    var base := Then(steps, ByClient(c, Detach));
    RunKeeps(steps, s);
    if Settled(s, c) {
      GoneKept(s, ByClient(c, Detach));
      forall next: seq<Step> | Continues(base, next) && RunOf(next).Some?
        ensures !RunOf(next).value.crashed
      {
        SettledLeaversAreSafe(base, next);
      }
    } else {
      var id :| id in s.front.reqs && s.front.reqs[id].owner == c && !Quiet(s, id);
      assert Fine(s.back, s.front, id);
      var next := LeftCrashes(base, base, RunOf(base).value, id);
    }
  }

  /**
   So a client that leaves before a terminal frame has come may bring the daemon down, in the middle of an exec, or
   after a file_stat, whose reply is not terminal and leaves the route and the pump behind.
   */
  lemma UnterminatedIsUnsettled(steps: seq<Step>, s: State, id: Id)
    requires RunOf(steps) == Some(s) && Live(s.back) && IsAccepted(s.front, id)
    requires forall f <- Project(s.back.emitted, id) :: f.kind.Data? || f.kind.Stat?
    ensures !Settled(s, s.front.reqs[id].owner)
  {
    FifoPerRequest(steps, s, id);
    assert Fine(s.back, s.front, id) by {
      RunKeeps(steps, s);
    }
    assert forall f | f in Got(s.front, id) || f in Waiting(s.front, id) :: f in Project(s.back.emitted, id);
    EndHasCome(s, id);
  }

  /** A settled request of a live connection has its terminal frame with the client or in the queue to it. */
  lemma EndHasCome(s: State, id: Id)
    requires Fine(s.back, s.front, id) && Live(s.back) && IsAccepted(s.front, id)
    ensures Quiet(s, id) ==> exists f :: Terminal(f) && (f in Got(s.front, id) || f in Waiting(s.front, id))
  {
    var got, pump := Got(s.front, id), s.front.reqs[id].stage.pump;
    if pump.Finished? {
      assert Terminal(got[|got| - 1]);
    } else if pump.Queued? {
      assert pump.f in Waiting(s.front, id);
    }
  }

  /** Such a run: client 0 has sent a request, which the daemon accepted, and leaves. */
  lemma LeaverCrashes()
    ensures exists steps: seq<Step> :: RunOf(steps).Some? && RunOf(steps).value.crashed
  {
    assert RunOf([]) == Some(INIT);
    var steps := Ask([], INIT);
    var s := RunOf(steps).value;
    assert s.front.clients[0] == Client(Reading, [], [], true) && GoneAreSettled(s);
    UnterminatedIsUnsettled(steps, s, 7);
    LeaverMayCrash(steps, s, 0);
  }
}
