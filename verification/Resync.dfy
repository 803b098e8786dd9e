/**
 Several uploads over one lossless stream. The agent's main loop hands the stream to the put loop, which gives it
 back where it stopped; what an upload that failed early leaves unread is skipped by the main loop.
 */
module Resync {
  import opened Basics
  import opened RemoteDisk
  import opened Put

  function Head(faults: seq<Fault>): Fault {
    if faults == [] then NoFault else faults[0]
  }

  function Tail(faults: seq<Fault>): seq<Fault> {
    if faults == [] then [] else faults[1..]
  }

  datatype Answer = OfPut(reply: Reply) | OfStat(id: nat)

  /** The answers of the main loop to `input`, after which the stream ends; the k-th upload it starts has fault k. */
  function Serve(input: seq<Frame>, faults: seq<Fault>, hash: Hash): seq<Answer>
    decreases |input|
  {
    if input == [] then
      []
    else if input[0].Put? then
      var req, rest := input[0].req, input[1..];
      [OfPut(Outcome(req, rest, Head(faults), hash))]
      + Serve(rest[Consumed(req, rest, Head(faults))..], Tail(faults), hash)
    else
      Direct(input[0]) + Serve(input[1..], faults, hash)
  }

  /** What the main loop answers by itself. */
  function Direct(f: Frame): seq<Answer> {
    if f.Stat? then [OfStat(f.id)] else []
  }

  /** The first `at` frames have been answered by `answers`. */
  ghost predicate Served(input: seq<Frame>, at: nat, faults: seq<Fault>, answers: seq<Answer>, hash: Hash) {
    at <= |input| &&
    forall more {:trigger faults + more} ::
      Serve(input, faults + more, hash) == answers + Serve(input[at..], more, hash)
  }

  lemma ServedNone(input: seq<Frame>, hash: Hash)
    ensures Served(input, 0, [], [], hash)
  {
    assert input[0..] == input && forall more: seq<Fault> :: [] + more == more;
  }

  lemma ServedAll(input: seq<Frame>, faults: seq<Fault>, answers: seq<Answer>, hash: Hash)
    requires Served(input, |input|, faults, answers, hash)
    ensures answers == Serve(input, faults, hash)
  {
    assert faults + [] == faults && answers + [] == answers;
  }

  lemma ServedPutThen(input: seq<Frame>, at: nat, fault: Fault, more: seq<Fault>, hash: Hash)
    requires at < |input| && input[at].Put?
    ensures var req, rest := input[at].req, input[at + 1..];
            Serve(input[at..], [fault] + more, hash)
            == [OfPut(Outcome(req, rest, fault, hash))]
               + Serve(input[at + 1 + Consumed(req, rest, fault)..], more, hash)
  {
    var req, rest := input[at].req, input[at + 1..];
    assert rest[Consumed(req, rest, fault)..] == input[at + 1 + Consumed(req, rest, fault)..];
    assert input[at..][1..] == rest && Head([fault] + more) == fault && Tail([fault] + more) == more;
  }

  lemma ServedPut(input: seq<Frame>, at: nat, faults: seq<Fault>, answers: seq<Answer>, hash: Hash,
                  reply: Reply, used: nat, fault: Fault) returns (known: seq<Fault>)
    requires Served(input, at, faults, answers, hash) && at < |input| && input[at].Put?
    requires reply == Outcome(input[at].req, input[at + 1..], fault, hash)
    requires used == Consumed(input[at].req, input[at + 1..], fault)
    ensures Served(input, at + 1 + used, known, answers + [OfPut(reply)], hash)
  {
    known := faults + [fault];
    var answer, next := OfPut(reply), at + 1 + used;
    forall more: seq<Fault>
      ensures Serve(input, faults + [fault] + more, hash) == answers + [answer] + Serve(input[next..], more, hash)
    {
      ServedPutThen(input, at, fault, more, hash);
      Regroup(faults, fault, more);
      Regroup(answers, answer, Serve(input[next..], more, hash));
    }
  }

  lemma ServedDirect(input: seq<Frame>, at: nat, faults: seq<Fault>, answers: seq<Answer>, hash: Hash,
                     direct: seq<Answer>)
    requires Served(input, at, faults, answers, hash) && at < |input| && !input[at].Put?
    requires direct == Direct(input[at])
    ensures Served(input, at + 1, faults, answers + direct, hash)
  {
    assert input[at..][1..] == input[at + 1..];
    forall more: seq<Fault>
      ensures Serve(input, faults + more, hash) == answers + direct + Serve(input[at + 1..], more, hash)
    {
      var rest := Serve(input[at + 1..], more, hash);
      assert answers + (direct + rest) == answers + direct + rest;
    }
  }

  /** The reply and the frames taken, whatever happens on the disk. */
  method AnswerPut(req: PutReq, rest: seq<Frame>, disk: Disk, hash: Hash)
    returns (reply: Reply, used: nat, ghost fault: Fault)
    requires disk.Valid()
    modifies disk
    ensures disk.Valid() && used == Consumed(req, rest, fault) && reply == Outcome(req, rest, fault, hash)
  {
    ghost var made: Fs;
    reply, used, fault, made := HandlePut(req, rest, disk, hash);
  }

  /** The main loop with its disk. */
  method Run(input: seq<Frame>, disk: Disk, hash: Hash) returns (answers: seq<Answer>, ghost faults: seq<Fault>)
    requires disk.Valid()
    modifies disk
    ensures disk.Valid() && answers == Serve(input, faults, hash)
  {
    answers, faults := [], [];
    var at := 0;
    ServedNone(input, hash);
    while at < |input|
      invariant disk.Valid() && Served(input, at, faults, answers, hash)
      decreases |input| - at
    {
      if input[at].Put? {
        var reply, used, fault := AnswerPut(input[at].req, input[at + 1..], disk, hash);
        faults := ServedPut(input, at, faults, answers, hash, reply, used, fault);
        at, answers := at + 1 + used, answers + [OfPut(reply)];
      } else {
        var direct := if input[at].Stat? then [OfStat(input[at].id)] else [];
        ServedDirect(input, at, faults, answers, hash, direct);
        at, answers := at + 1, answers + direct;
      }
    }
    ServedAll(input, faults, answers, hash);
  }

  // ---- what clients send ----

  /**
   What one upload has sent: the file_stat that a sync sends before it, the request, its chunks, and the last one
   unless the local file failed.
   */
  datatype Upload = Upload(stat: Option<nat>, req: PutReq, pieces: seq<bytes>, whole: bool)

  /** Up to the request. */
  function Opening(u: Upload): seq<Frame> {
    (if u.stat.Some? then [Stat(u.stat.value)] else []) + [Put(u.req)]
  }

  function Body(u: Upload, hash: Hash): seq<Frame> {
    Chunks(u.req.id, u.pieces) + if u.whole then [Last(u.req.id, Flatten(u.pieces), hash)] else []
  }

  function All(us: seq<Upload>, hash: Hash): seq<Frame> {
    if us == [] then [] else Opening(us[0]) + (Body(us[0], hash) + All(us[1..], hash))
  }

  /** What the upload would be answered if its stream held only its own frames. */
  function Own(u: Upload, fault: Fault, hash: Hash): Reply {
    Outcome(u.req, Body(u, hash), fault, hash)
  }

  function Answered(u: Upload, reply: Reply): seq<Answer> {
    (if u.stat.Some? then [OfStat(u.stat.value)] else []) + [OfPut(reply)]
  }

  function Owns(us: seq<Upload>, faults: seq<Fault>, hash: Hash): seq<Answer> {
    if us == [] then [] else Answered(us[0], Own(us[0], Head(faults), hash)) + Owns(us[1..], Tail(faults), hash)
  }

  /** The agent gives up before it would need the last chunk. */
  predicate Early(u: Upload, fault: Fault) {
    u.req.path == [] || fault.Mkdir? || fault.Create? || (fault.WriteAt? && fault.n < |u.pieces|)
  }

  predicate Settles(u: Upload, fault: Fault) {
    u.whole || Early(u, fault)
  }

  /** Every upload that has another one behind it was sent to its last chunk, or failed early at the agent. */
  predicate AllSettle(us: seq<Upload>, faults: seq<Fault>) {
    |us| > 1 ==> Settles(us[0], Head(faults)) && AllSettle(us[1..], Tail(faults))
  }

  lemma UntilAt(input: seq<Frame>, n: nat)
    requires 0 < n <= |input| && IsDone(input[n - 1]) && forall k | 0 <= k < n - 1 :: !IsDone(input[k])
    ensures Until(input) == n
  {
  }

  /** A whole upload ends at its own last chunk, whatever follows. */
  lemma WholeEnds(u: Upload, rest: seq<Frame>, hash: Hash)
    requires u.whole
    ensures var body := Body(u, hash);
            Until(body + rest) == Until(body) == |body| && (body + rest)[..|body|] == body && body[..|body|] == body
  {
    var body := Body(u, hash);
    assert forall k | 0 <= k < |body| :: (body + rest)[k] == body[k];
    BodyEnds(u, hash);
    UntilAt(body, |body|);
    UntilAt(body + rest, |body|);
  }

  /** Whatever follows an upload that settles, the put loop takes only the upload's own frames. */
  lemma OwnFramesOnly(u: Upload, rest: seq<Frame>, fault: Fault, hash: Hash)
    requires Settles(u, fault)
    ensures Consumed(u.req, Body(u, hash) + rest, fault) <= |Body(u, hash)|
    ensures Outcome(u.req, Body(u, hash) + rest, fault, hash) == Own(u, fault, hash)
  {
    if u.whole {
      WholeEnds(u, rest, hash);
    } else {
      var body := Body(u, hash);
      assert forall k | 0 <= k < |u.pieces| :: !IsDone(body[k]) && (body + rest)[k] == body[k];
    }
  }

  /** An upload that does not settle takes what comes next away from the main loop. */
  lemma TakesTheNext(u: Upload, rest: seq<Frame>, fault: Fault, hash: Hash)
    requires !Settles(u, fault) && rest != [] && !IsDone(rest[0])
    ensures Consumed(u.req, Body(u, hash) + rest, fault) > |Body(u, hash)|
  {
    var body := Body(u, hash);
    var input := body + rest;
    assert forall k | 0 <= k < |body| :: !IsDone(body[k]) && input[k] == body[k];
    assert input[|body|] == rest[0];
    assert Until(input) > |body|;
  }

  // ---- what is answered ----

  lemma {:induction false} SkipChunks(left: seq<Frame>, rest: seq<Frame>, faults: seq<Fault>, hash: Hash)
    requires forall f <- left :: f.Chunk?
    ensures Serve(left + rest, faults, hash) == Serve(rest, faults, hash)
  {
    if left == [] {
      assert left + rest == rest;
    } else {
      SkipChunks(left[1..], rest, faults, hash);
      assert left[0].Chunk? && (left + rest)[1..] == left[1..] + rest;
    }
  }

  /** The file_stat is answered, and the put loop starts behind the request; `left` is what it leaves. */
  lemma ServesOpening(u: Upload, input: seq<Frame>, left: seq<Frame>, faults: seq<Fault>, hash: Hash)
    requires left == input[Consumed(u.req, input, Head(faults))..]
    ensures Serve(Opening(u) + input, faults, hash)
         == Answered(u, Outcome(u.req, input, Head(faults), hash)) + Serve(left, Tail(faults), hash)
  {
    ServesPut(u.req, input, left, faults, hash);
    if u.stat.Some? {
      assert (Opening(u) + input)[0] == Stat(u.stat.value) && (Opening(u) + input)[1..] == [Put(u.req)] + input;
    } else {
      assert Opening(u) + input == [Put(u.req)] + input;
    }
  }

  lemma ServesPut(req: PutReq, input: seq<Frame>, left: seq<Frame>, faults: seq<Fault>, hash: Hash)
    requires left == input[Consumed(req, input, Head(faults))..]
    ensures Serve([Put(req)] + input, faults, hash)
         == [OfPut(Outcome(req, input, Head(faults), hash))] + Serve(left, Tail(faults), hash)
  {
    assert ([Put(req)] + input)[1..] == input;
  }

  function Requests(input: seq<Frame>): nat {
    if input == [] then 0 else (if input[0].Put? || input[0].Stat? then 1 else 0) + Requests(input[1..])
  }

  lemma {:induction false} RequestsConcat(a: seq<Frame>, b: seq<Frame>)
    ensures Requests(a + b) == Requests(a) + Requests(b)
  {
    if a == [] {
      assert a + b == b;
    } else {
      RequestsConcat(a[1..], b);
      assert (a + b)[1..] == a[1..] + b;
    }
  }

  lemma {:induction false} AtMostOneAnswerEach(input: seq<Frame>, faults: seq<Fault>, hash: Hash)
    ensures |Serve(input, faults, hash)| <= Requests(input)
    decreases |input|
  {
    if input != [] {
      if input[0].Put? {
        var rest := input[1..];
        var n := Consumed(input[0].req, rest, Head(faults));
        AtMostOneAnswerEach(rest[n..], Tail(faults), hash);
        RequestsConcat(rest[..n], rest[n..]);
        assert rest == rest[..n] + rest[n..];
      } else {
        AtMostOneAnswerEach(input[1..], faults, hash);
      }
    }
  }

  /** Every request has an answer of its own. */
  lemma {:induction false} OwnsAll(us: seq<Upload>, faults: seq<Fault>, hash: Hash)
    ensures |Owns(us, faults, hash)| == Requests(All(us, hash))
  {
    if us != [] {
      OwnsAll(us[1..], Tail(faults), hash);
      OpeningRequests(us[0], hash, All(us[1..], hash));
    }
  }

  lemma OpeningRequests(u: Upload, hash: Hash, rest: seq<Frame>)
    ensures Requests(Opening(u) + (Body(u, hash) + rest)) == |Answered(u, Result(0))| + Requests(rest)
  {
    RequestsConcat(Opening(u), Body(u, hash) + rest);
    RequestsConcat(Body(u, hash), rest);
    ChunksAreNone(Body(u, hash));
    assert Opening(u)[1..] == (if u.stat.Some? then [Put(u.req)] else []) && [Put(u.req)][1..] == [];
  }

  lemma {:induction false} ChunksAreNone(fs: seq<Frame>)
    requires forall f <- fs :: f.Chunk?
    ensures Requests(fs) == 0
  {
    if fs != [] {
      assert fs[0] in fs;
      ChunksAreNone(fs[1..]);
    }
  }

  lemma FirstSettles(us: seq<Upload>, faults: seq<Fault>, hash: Hash)
    requires us != [] && (|us| == 1 || Settles(us[0], Head(faults)))
    ensures Serve(All(us, hash), faults, hash)
         == Answered(us[0], Own(us[0], Head(faults), hash)) + Serve(All(us[1..], hash), Tail(faults), hash)
  {
    var u, body, rest := us[0], Body(us[0], hash), All(us[1..], hash);
    ServesOpening(u, body + rest, (body + rest)[Consumed(u.req, body + rest, Head(faults))..], faults, hash);
    if Settles(u, Head(faults)) {
      OwnFramesOnly(u, rest, Head(faults), hash);
    } else {
      assert us[1..] == [] && body + rest == body;
    }
    SkipsTheRest(u, rest, Head(faults), Tail(faults), hash);
  }

  /** After the put loop the main loop skips what is left of the upload. */
  lemma SkipsTheRest(u: Upload, rest: seq<Frame>, fault: Fault, faults: seq<Fault>, hash: Hash)
    requires Consumed(u.req, Body(u, hash) + rest, fault) <= |Body(u, hash)|
    ensures Serve((Body(u, hash) + rest)[Consumed(u.req, Body(u, hash) + rest, fault)..], faults, hash)
         == Serve(rest, faults, hash)
  {
    var body := Body(u, hash);
    var n := Consumed(u.req, body + rest, fault);
    assert (body + rest)[n..] == body[n..] + rest;
    SkipChunks(body[n..], rest, faults, hash);
  }

  /** What an upload that does not settle takes includes the frame behind it. */
  lemma Strays(u: Upload, rest: seq<Frame>, faults: seq<Fault>, hash: Hash) returns (n: nat)
    requires !Settles(u, Head(faults)) && rest != [] && !IsDone(rest[0])
    ensures 0 < n <= |rest|
    ensures Serve(Opening(u) + (Body(u, hash) + rest), faults, hash)
         == Answered(u, Outcome(u.req, Body(u, hash) + rest, Head(faults), hash)) + Serve(rest[n..], Tail(faults), hash)
  {
    var input := Body(u, hash) + rest;
    TakesTheNext(u, rest, Head(faults), hash);
    n := Consumed(u.req, input, Head(faults)) - |Body(u, hash)|;
    DropBoth(Body(u, hash), rest, n);
    ServesOpening(u, input, rest[n..], faults, hash);
  }

  lemma DropBoth(a: seq<Frame>, b: seq<Frame>, n: nat)
    requires n <= |b|
    ensures (a + b)[|a| + n..] == b[n..]
  {
  }

  /** So when that frame is a request, fewer requests are answered than there are. */
  lemma FirstStrays(u: Upload, rest: seq<Frame>, faults: seq<Fault>, hash: Hash)
    requires !Settles(u, Head(faults)) && rest != [] && (rest[0].Put? || rest[0].Stat?)
    ensures |Serve(Opening(u) + (Body(u, hash) + rest), faults, hash)| < Requests(Opening(u) + (Body(u, hash) + rest))
  {
    OpeningRequests(u, hash, rest);
    var n := Strays(u, rest, faults, hash);
    AtMostOneAnswerEach(rest[n..], Tail(faults), hash);
    FewerRequests(rest, n);
  }

  lemma FewerRequests(rest: seq<Frame>, n: nat)
    requires 0 < n <= |rest| && (rest[0].Put? || rest[0].Stat?)
    ensures Requests(rest[n..]) < Requests(rest)
  {
    RequestsConcat(rest[..n], rest[n..]);
    assert rest == rest[..n] + rest[n..] && rest[..n][0] == rest[0];
  }

  /**
   Resynchronisation: for any uploads in a row, each with or without a file_stat before it, and with any faults at the
   agent, every request gets its own answer, in order, exactly when every upload with another one behind it was sent
   to its last chunk or had failed at the agent before.
   */
  lemma {:induction false} RepliesAreOwn(us: seq<Upload>, faults: seq<Fault>, hash: Hash)
    ensures Serve(All(us, hash), faults, hash) == Owns(us, faults, hash) <==> AllSettle(us, faults)
    decreases |us|
  {
    if |us| > 1 && !Settles(us[0], Head(faults)) {
      OwnsAll(us, faults, hash);
      FirstStrays(us[0], All(us[1..], hash), faults, hash);
    } else if us != [] {
      FirstSettles(us, faults, hash);
      RepliesAreOwn(us[1..], Tail(faults), hash);
      var n := |Answered(us[0], Own(us[0], Head(faults), hash))|;
      assert Serve(All(us, hash), faults, hash)[n..] == Serve(All(us[1..], hash), Tail(faults), hash);
      assert Owns(us, faults, hash)[n..] == Owns(us[1..], Tail(faults), hash);
    }
  }

  lemma {:induction false} OnlyAsked(input: seq<Frame>, faults: seq<Fault>, hash: Hash, id: nat)
    requires OfStat(id) in Serve(input, faults, hash)
    ensures Stat(id) in input
    decreases |input|
  {
    if input[0].Put? {
      var rest := input[1..];
      var left := rest[Consumed(input[0].req, rest, Head(faults))..];
      OnlyAsked(left, Tail(faults), hash, id);
      assert forall f <- left :: f in input;
    } else if OfStat(id) !in Direct(input[0]) {
      OnlyAsked(input[1..], faults, hash, id);
    }
  }

  /**
   The file_stat that a sync sends behind an upload that does not settle is never answered, whatever comes from others
   later: the put loop takes it, and the client waits for ever.
   */
  lemma StatIsSwallowed(u: Upload, id: nat, more: seq<Frame>, faults: seq<Fault>, hash: Hash)
    requires !Settles(u, Head(faults)) && u.stat != Some(id) && Stat(id) !in more
    ensures OfStat(id) !in Serve(Opening(u) + (Body(u, hash) + ([Stat(id)] + more)), faults, hash)
  {
    var n := Strays(u, [Stat(id)] + more, faults, hash);
    var left := ([Stat(id)] + more)[n..];
    assert left == more[n - 1..] && forall f <- left :: f in more;
    if OfStat(id) in Serve(left, Tail(faults), hash) {
      OnlyAsked(left, Tail(faults), hash, id);
    }
  }

  /** A whole upload on a disk that does not fail is stored as it was read from the local file. */
  lemma WholeIsStored(u: Upload, rest: seq<Frame>, hash: Hash)
    requires u.whole && u.req.path != []
    ensures Own(u, NoFault, hash) == Result(u.req.id)
    ensures var input := Body(u, hash) + rest;
            Payload(input[..Consumed(u.req, input, NoFault)]) == Flatten(u.pieces)
  {
    WholeEnds(u, rest, hash);
    BodyPayload(u, hash);
  }

  lemma BodyPayload(u: Upload, hash: Hash)
    ensures Payload(Body(u, hash)) == Flatten(u.pieces)
  {
    var chunks := Chunks(u.req.id, u.pieces);
    PayloadOfChunks(u.req.id, u.pieces);
    if u.whole {
      PayloadSnoc(chunks, Last(u.req.id, Flatten(u.pieces), hash));
    }
    assert Flatten(u.pieces) + [] == Flatten(u.pieces) && chunks + [] == chunks;
  }

  lemma {:induction false} PayloadOfChunks(id: nat, pieces: seq<bytes>)
    ensures Payload(Chunks(id, pieces)) == Flatten(pieces)
  {
    if pieces == [] {
    } else {
      var front := pieces[..|pieces| - 1];
      PayloadOfChunks(id, front);
      FlattenSnoc(front, pieces[|pieces| - 1]);
      assert pieces == front + [pieces[|pieces| - 1]];
      assert Chunks(id, pieces)[..|pieces| - 1] == Chunks(id, front);
    }
  }

  /**
   What a local file that does not open does to the next upload on the host's stream, another client's: the agent stores
   its content under the first one's path, and answers with the first one's id.
   */
  lemma StrayContent(a: PutReq, u: Upload, hash: Hash)
    requires a.path != [] && u.whole
    ensures var rest := Opening(u) + Body(u, hash);
            && Serve([Put(a)] + rest, [], hash) == [OfPut(Result(a.id))]
            && Payload(rest[..Consumed(a, rest, NoFault)]) == Flatten(u.pieces)
  {
    var body := Body(u, hash);
    BodyEnds(u, hash);
    UntilBehind(Opening(u), body);
    NoPayload(Opening(u), body);
    BodyPayload(u, hash);
    StrayOne(a, Opening(u) + body, hash);
  }

  lemma BodyEnds(u: Upload, hash: Hash)
    requires u.whole
    ensures var body := Body(u, hash);
            && body != [] && body[|body| - 1] == Last(u.req.id, Flatten(u.pieces), hash)
            && forall k | 0 <= k < |body| - 1 :: !IsDone(body[k])
  {
  }

  lemma StrayOne(a: PutReq, rest: seq<Frame>, hash: Hash)
    requires a.path != [] && rest != [] && Until(rest) == |rest| && IsDone(rest[|rest| - 1])
    requires rest[|rest| - 1].sha == Some(hash(Payload(rest)))
    ensures Serve([Put(a)] + rest, [], hash) == [OfPut(Result(a.id))]
    ensures Payload(rest[..Consumed(a, rest, NoFault)]) == Payload(rest)
  {
    assert Head([]) == NoFault && Consumed(a, rest, NoFault) == |rest|;
    assert rest[..|rest|] == rest && rest[|rest|..] == [];
    ServesPut(a, rest, [], [], hash);
  }

  lemma UntilBehind(before: seq<Frame>, body: seq<Frame>)
    requires (forall f <- before :: !f.Chunk?) && body != [] && IsDone(body[|body| - 1])
    requires forall k | 0 <= k < |body| - 1 :: !IsDone(body[k])
    ensures Until(before + body) == |before + body|
  {
    var all := before + body;
    forall k | 0 <= k < |all| - 1
      ensures !IsDone(all[k])
    {
      assert all[k] == if k < |before| then before[k] else body[k - |before|];
    }
    UntilAt(all, |all|);
  }

  lemma {:induction false} NoPayload(before: seq<Frame>, body: seq<Frame>)
    requires forall f <- before :: !f.Chunk?
    ensures Payload(before + body) == Payload(body)
    decreases |before| + |body|
  {
    if body != [] {
      NoPayload(before, body[..|body| - 1]);
      assert (before + body)[..|before + body| - 1] == before + body[..|body| - 1];
    } else if before != [] {
      NoPayload(before[..|before| - 1], []);
      assert before + body == before && before[..|before| - 1] + body == before[..|before| - 1];
      assert before[|before| - 1] in before;
    }
  }
}
