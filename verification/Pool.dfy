/**
 The shared fields of a host connection and of the daemon's pool, updated in place. Each small method is one step of
 `Router` on these fields; between two of them, in `Send`, `Close` and at the end of a connection, the methods named
 `Others` and `Arrivals` let the other goroutines take any number of steps.
 */
module Pool {
  import opened Basics
  import opened Router
  import opened RouterProofs

  /** A request's reply channel. */
  class ReplyChan {
    var queue: seq<Frame>

    constructor ()
      ensures queue == []
    {
      queue := [];
    }
  }

  /** What one send adds to the history of its client, and that it adds nothing to another's. */
  lemma SendCounts(f: Fwd, who: Cid, x: ClientFrame, c: Cid)
    ensures Project(Enqueued(f, who, x).accepted, c) == Project(f.accepted, c) + if who == c then [x] else []
    ensures Project(Enqueued(f, who, x).seen, c) == Project(f.seen, c) + if who == c then [(x, Taken)] else []
    ensures Project(Judged(f, who, x, Turned).accepted, c) == Project(f.accepted, c)
    ensures Project(Judged(f, who, x, Turned).seen, c) == Project(f.seen, c) + if who == c then [(x, Turned)] else []
  {
    ProjectSnoc(f.accepted, (who, x), c);
    ProjectSnoc(f.seen, (who, (x, Taken)), c);
    ProjectSnoc(f.seen, (who, (x, Turned)), c);
    assert Project(f.accepted, c) + [] == Project(f.accepted, c) && Project(f.seen, c) + [] == Project(f.seen, c);
  }

  class HostConn {
    const host: string
    var routes: map<Id, ReplyChan>
    var clientIn: seq<(Cid, ClientFrame)>
    var closed: bool
    var chanClosed: bool
    var closing: bool   // a closer is between its two halves
    var stopped: bool   // pumpToAgent has returned
    ghost var fwd: Fwd  // what the step system says about these fields

    ghost predicate Valid()
      reads this
    {
      && fwd.clientIn == clientIn && fwd.closed == closed && fwd.chanClosed == chanClosed
      && fwd.closing == closing && fwd.stopped == stopped
      && Queueing(fwd) && Closing(fwd)
      && (forall i <- routes, j <- routes :: routes[i] == routes[j] ==> i == j)
    }

    constructor (host: string)
      ensures Valid() && this.host == host && fwd == INIT.fwd && routes == map[]
    {
      this.host := host;
      routes, clientIn, closed, chanClosed, closing, stopped, fwd := map[], [], false, false, false, false, INIT.fwd;
    }

    // ---- the route table ----

    /** A second registration of an id takes the first one's place in the table. */
    method Register(id: Id) returns (ch: ReplyChan)
      requires Valid()
      modifies this`routes
      ensures Valid() && fresh(ch) && ch.queue == [] && routes == old(routes)[id := ch]
    {
      ch := new ReplyChan();
      routes := routes[id := ch];
    }

    /** pumpFromAgent, one frame: only the channel of its id gets it, and a terminal frame ends the route. */
    method Route(id: Id, f: Frame)
      requires Valid()
      modifies this`routes, if id in routes then {routes[id]} else {}
      ensures Valid()
      ensures routes == if Terminal(f) then old(routes) - {id} else old(routes)
      ensures id in old(routes) ==> old(routes)[id].queue == old(routes[id].queue) + [f]
    {
      if id in routes {
        var ch := routes[id];
        if Terminal(f) {
          routes := routes - {id};
        }
        ch.queue := ch.queue + [f];
      }
    }

    /** failAll, under the lock. */
    method Swap() returns (table: map<Id, ReplyChan>)
      requires Valid()
      modifies this`routes
      ensures Valid() && table == old(routes) && routes == map[]
    {
      table := routes;
      routes := map[];
    }

    /** failAll, without the lock: every channel of the table gets exactly one Error, whatever the order. */
    method Fail(table: map<Id, ReplyChan>)
      requires forall i <- table, j <- table :: table[i] == table[j] ==> i == j
      modifies table.Values
      ensures forall id <- table :: table[id].queue == old(table[id].queue) + [GONE]
    {
      var todo := table.Keys;
      while todo != {}
        invariant todo <= table.Keys
        invariant forall id <- table ::
          table[id].queue == if id in todo then old(table[id].queue) else old(table[id].queue) + [GONE]
      {
        var id :| id in todo;
        table[id].queue := table[id].queue + [GONE];
        todo := todo - {id};
      }
    }

    /** Every request in the table gets exactly one Error; the table is empty afterwards. */
    method FailAll()
      requires Valid()
      modifies this`routes, routes.Values
      ensures Valid() && routes == map[]
      ensures forall id <- old(routes) :: old(routes)[id].queue == old(routes[id].queue) + [GONE]
    {
      var table := Swap();
      Fail(table);
    }

    // ---- the queue to the agent ----

    /** The select of `send`; a closed channel panics, which the deferred recover turns into false. */
    method Offer(c: Cid, f: ClientFrame) returns (ok: bool)
      requires Valid()
      modifies this`clientIn, this`fwd
      ensures Valid() && ok == HasRoom(old(fwd))
      ensures fwd == if ok then Enqueued(old(fwd), c, f) else Judged(old(fwd), c, f, Turned)
    {
      ok := !chanClosed && |clientIn| < QUEUE_CAP;
      JudgedKeeps(fwd, c, f, if ok then Taken else Turned);
      if ok {
        clientIn := clientIn + [(c, f)];
        fwd := Enqueued(fwd, c, f);
      } else {
        fwd := Judged(fwd, c, f, Turned);
      }
    }

    /** pumpToAgent takes a frame and writes it. */
    method PumpOne()
      requires Valid() && clientIn != [] && !stopped
      modifies this`clientIn, this`fwd
      ensures Valid() && fwd == Router.Written(old(fwd))
    {
      clientIn := clientIn[1..];
      fwd := Router.Written(fwd);
    }

    /** The first half of `close`, under the lock. */
    method SetFlag() returns (first: bool)
      requires Valid()
      modifies this`closed, this`closing, this`fwd
      ensures Valid() && first == !old(closed) && fwd == Flagged(old(fwd)) && (first ==> closing)
    {
      first := !closed;
      if first {
        closed, closing := true, true;
      }
      fwd := Flagged(fwd);
    }

    /** Closing a closed channel panics: only the caller that has set the flag may, once. */
    method CloseChannel()
      requires Valid() && closing
      modifies this`chanClosed, this`closing, this`fwd
      ensures Valid() && fwd == Shut(old(fwd))
    {
      chanClosed, closing := true, false;
      fwd := Shut(fwd);
    }

    /**
     Any number of steps of goroutines other than client `c`'s bridge: sends of other clients, pumpToAgent, closers.
     When `mine`, the caller is the one closer that has set the flag.
     */
    method Others(c: Cid, mine: bool)
      requires Valid() && (mine ==> closing)
      modifies this`clientIn, this`closed, this`chanClosed, this`closing, this`fwd
      ensures Valid() && (mine ==> closing)
      ensures (old(closed) ==> closed) && (old(chanClosed) ==> chanClosed)
      ensures Project(fwd.accepted, c) == Project(old(fwd.accepted), c)
      ensures Project(fwd.seen, c) == Project(old(fwd.seen), c)
    {
      var n: nat :| n >= 0;
      for i := 0 to n
        invariant Valid() && (mine ==> closing)
        invariant (old(closed) ==> closed) && (old(chanClosed) ==> chanClosed)
        invariant Project(fwd.accepted, c) == Project(old(fwd.accepted), c)
        invariant Project(fwd.seen, c) == Project(old(fwd.seen), c)
      {
        var who: Cid, what: ClientFrame, choice: nat := *, *, *;
        if choice == 0 && who != c {
          SendCounts(fwd, who, what, c);
          var _ := Offer(who, what);
        } else if choice == 1 && clientIn != [] && !stopped {
          PumpOne();
        } else if choice == 2 {
          var _ := SetFlag();
        } else if choice == 3 && closing && !mine {
          CloseChannel();
        }
      }
    }

    /**
     `send`, with the others running between its two looks at the connection: the frame is enqueued exactly when the
     answer is true, which it is not when the flag was set before.
     */
    method Send(c: Cid, f: ClientFrame) returns (ok: bool)
      requires Valid()
      modifies this`clientIn, this`closed, this`chanClosed, this`closing, this`fwd
      ensures Valid() && (old(closed) ==> !ok && closed)
      ensures Project(fwd.accepted, c) == Project(old(fwd.accepted), c) + if ok then [f] else []
      ensures Project(fwd.seen, c) == Project(old(fwd.seen), c) + [(f, if ok then Taken else Turned)]
    {
      if closed {
        SendCounts(fwd, c, f, c);
        fwd := Judged(fwd, c, f, Turned);
        assert Project(fwd.accepted, c) + [] == Project(fwd.accepted, c);
        return false;
      }
      Others(c, false);
      ok := Count(c, f);
    }

    /** The select, and what it adds to the client's history. */
    method Count(c: Cid, f: ClientFrame) returns (ok: bool)
      requires Valid()
      modifies this`clientIn, this`fwd
      ensures Valid() && ok == HasRoom(old(fwd))
      ensures Project(fwd.accepted, c) == Project(old(fwd.accepted), c) + if ok then [f] else []
      ensures Project(fwd.seen, c) == Project(old(fwd.seen), c) + [(f, if ok then Taken else Turned)]
    {
      SendCounts(fwd, c, f, c);
      ok := Offer(c, f);
      assert Project(old(fwd.accepted), c) + [] == Project(old(fwd.accepted), c);
    }

    /** `close`, with the others running between its halves: any number of calls close the channel once. */
    method Close()
      requires Valid()
      modifies this`clientIn, this`closed, this`chanClosed, this`closing, this`fwd
      ensures Valid() && closed && fwd.closes <= 1 && (old(chanClosed) ==> chanClosed)
      ensures !old(closed) ==> chanClosed && fwd.closes == 1
    {
      var first := SetFlag();
      if first {
        Others(0, true);
        CloseChannel();
      }
    }

    /**
     The end of pumpFromAgent, with requests arriving between and after its parts: the channels that the swap found get
     one Error each; those registered later are in the table and have nothing.
     */
    method Die()
      requires Valid()
      modifies this, routes.Values
      ensures Valid() && closed
      ensures forall id <- old(routes) :: old(routes)[id].queue == old(routes[id].queue) + [GONE]
      ensures forall id <- routes :: fresh(routes[id]) && routes[id].queue == []
    {
      var table := Swap();
      Arrivals();
      Fail(table);
      Arrivals();
      Close();
    }

    /** Any number of requests arrive: each is registered, and its frame is sent. */
    method Arrivals()
      requires Valid() && forall id <- routes :: routes[id].queue == []
      modifies this`routes, this`clientIn, this`closed, this`chanClosed, this`closing, this`fwd
      ensures Valid() && (old(closed) ==> closed)
      ensures forall id <- routes :: (fresh(routes[id]) || routes[id] in old(routes.Values)) && routes[id].queue == []
    {
      var n: nat :| n >= 0;
      for i := 0 to n
        invariant Valid() && (old(closed) ==> closed)
        invariant forall id <- routes ::
                     (fresh(routes[id]) || routes[id] in old(routes.Values)) && routes[id].queue == []
      {
        var id: Id, c: Cid, body: nat := *, *, *;
        var _ := Register(id);
        var _ := Send(c, Request(id, body));
      }
    }
  }

  /** How the start of an agent process can go. */
  datatype Start = NoProcess | NoHello | Greeted

  class Daemon {
    var conns: map<string, HostConn>
    ghost var made: set<HostConn>  // every connection so far

    /** A connection that is not closed is the pool's entry for its host, so there is at most one per host. */
    ghost predicate Valid()
      reads this, made
    {
      && (forall h <- conns :: conns[h] in made && conns[h].host == h)
      && (forall hc <- made :: hc.Valid())
      && (forall hc <- made :: !hc.closed ==> hc.host in conns && conns[hc.host] == hc)
    }

    constructor ()
      ensures Valid() && conns == map[] && made == {}
    {
      conns, made := map[], {};
    }

    /** The pool's connection when it is open, a new one otherwise; a failed start leaves the table as it is. */
    method Lookup(host: string, start: Start) returns (r: Option<HostConn>)
      requires Valid()
      modifies this
      ensures Valid() && old(made) <= made
      ensures forall hc <- made :: hc.host == host && !hc.closed ==> r == Some(hc)
      ensures r.Some? ==> r.value in made && r.value.host == host && !r.value.closed
      ensures if host in old(conns) && !old(conns)[host].closed then
                r == Some(old(conns)[host]) && conns == old(conns) && made == old(made)
              else if start.Greeted? then
                r.Some? && fresh(r.value) && conns == old(conns)[host := r.value] && made == old(made) + {r.value}
              else
                r == None && conns == old(conns)
    {
      if host in conns && !conns[host].closed {
        return Some(conns[host]);
      }
      if start.NoProcess? {
        return None;
      }
      var hc := new HostConn(host);
      if start.NoHello? {
        hc.Close();
        made := made + {hc};
        return None;
      }
      made, conns := made + {hc}, conns[host := hc];
      r := Some(hc);
    }

    /** A connection dies. */
    method Died(hc: HostConn)
      requires Valid() && hc in made
      modifies hc, hc.routes.Values
      ensures Valid() && hc.closed
      ensures forall id <- old(hc.routes) :: old(hc.routes)[id].queue == old(hc.routes[id].queue) + [GONE]
      ensures forall id <- hc.routes :: fresh(hc.routes[id]) && hc.routes[id].queue == []
    {
      hc.Die();
    }

    /** The connections still open are the pool's entries for `todo`; the others of `open` have closed channels. */
    ghost predicate Closing(todo: set<string>, open: set<HostConn>)
      reads this, made
    {
      && todo <= conns.Keys
      && (forall h <- conns :: conns[h] in made && conns[h].host == h)
      && (forall hc <- made :: hc.Valid() && (!hc.closed ==> hc.host in todo && conns[hc.host] == hc))
      && (forall hc <- made :: hc in open && hc.closed ==> hc.chanClosed)
    }

    method CloseOne(h: string, ghost todo: set<string>, ghost open: set<HostConn>)
      requires Closing(todo, open) && h in todo
      modifies conns[h]
      ensures Closing(todo - {h}, open)
    {
      conns[h].Close();
    }

    /** After the daemon's `Close` no connection is open, none is closed twice, and those that were open are closed. */
    method Shutdown()
      requires Valid()
      modifies this`conns, made
      ensures Valid() && conns == map[] && made == old(made)
      ensures forall hc <- made :: hc.closed && hc.fwd.closes <= 1 && (!old(hc.closed) ==> hc.chanClosed)
    {
      var todo := conns.Keys;
      ghost var open := set hc | hc in made && !hc.closed;
      while todo != {}
        invariant Closing(todo, open)
      {
        var h :| h in todo;
        CloseOne(h, todo, open);
        todo := todo - {h};
      }
      conns := map[];
    }
  }
}
