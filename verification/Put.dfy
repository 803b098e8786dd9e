/**
 Uploads: the client's `FilePut`, and the agent's `handleFilePutSync`, which reads whatever frames come next until
 it has seen a chunk marked Done. SHA-256 is a parameter.
 */
module Put {
  import opened Basics
  import opened RemoteDisk

  /** `mtime` is in unix seconds, `path` empty when the request has none. */
  datatype PutReq = PutReq(id: nat, path: Path, atomic: bool, mtime: int)

  datatype Frame =
    | Put(req: PutReq)
    | Chunk(id: nat, data: bytes, done: bool, sha: Option<nat>)
    | Stat(id: nat)
    | Garbled  // a chunk whose body does not parse
    | Other    // any other kind

  datatype Why = EmptyPath | MkdirFailed | CreateFailed | StreamRead | WriteFailed | Mismatch | RenameFailed

  datatype Reply = Result(id: nat) | Failed(id: nat, why: Why)

  predicate IsDone(f: Frame) {
    f.Chunk? && f.done
  }

  function Data(f: Frame): bytes {
    if f.Chunk? then f.data else []
  }

  /** Everything the chunks in `frames` carry, whoever they are from. */
  function Payload(frames: seq<Frame>): bytes {
    if frames == [] then [] else Payload(frames[..|frames| - 1]) + Data(frames[|frames| - 1])
  }

  /** The number of frames up to and including the first Done, or of all of them. */
  function Until(input: seq<Frame>): (n: nat)
    ensures n <= |input|
    ensures forall k | 0 <= k < n - 1 :: !IsDone(input[k])
    ensures (n > 0 && IsDone(input[n - 1])) || (n == |input| && forall f <- input :: !IsDone(f))
  {
    if input == [] then 0 else if IsDone(input[0]) then 1 else 1 + Until(input[1..])
  }

  predicate Ends(input: seq<Frame>) {
    Until(input) > 0 && IsDone(input[Until(input) - 1])
  }

  /** Where the agent's disk lets the upload down. */
  datatype Fault = NoFault | Mkdir | Create | WriteAt(n: nat) | Rename

  /** The frames the handler takes from its input. */
  function Consumed(req: PutReq, input: seq<Frame>, fault: Fault): (n: nat)
    ensures n <= Until(input)
  {
    if req.path == [] || fault.Mkdir? || fault.Create? then
      0
    else if fault.WriteAt? && fault.n < Until(input) then
      fault.n + 1
    else
      Until(input)
  }

  function Outcome(req: PutReq, input: seq<Frame>, fault: Fault, hash: Hash): Reply {
    var n := Until(input);
    if req.path == [] then Failed(req.id, EmptyPath)
    else if fault.Mkdir? then Failed(req.id, MkdirFailed)
    else if fault.Create? then Failed(req.id, CreateFailed)
    else if fault.WriteAt? && fault.n < n then Failed(req.id, WriteFailed)
    else if !Ends(input) then Failed(req.id, StreamRead)
    else if input[n - 1].sha.Some? && hash(Payload(input[..n])) != input[n - 1].sha.value then Failed(req.id, Mismatch)
    else if fault.Rename? && req.atomic then Failed(req.id, RenameFailed)
    else Result(req.id)
  }

  /** What is in the way of the upload in the tree itself. */
  ghost predicate Obstructed(fs: Fs, req: PutReq)
    requires req.path != []
  {
    FileOnWay(fs, Parent(req.path)) || At(fs, Target(req)) == Some(Dir) || At(fs, req.path) == Some(Dir)
  }

  /** The content whose checksum the first Done chunk carries. */
  ghost predicate Announces(input: seq<Frame>, content: bytes, hash: Hash) {
    Ends(input) && input[Until(input) - 1].sha == Some(hash(content))
  }

  function Target(req: PutReq): Path
    requires req.path != []
  {
    if req.atomic then Tmp(req.path) else req.path
  }

  /** In every state from index `from` on, `p` is as `node` says. */
  ghost predicate Untouched(past: seq<Fs>, from: nat, p: Path, node: Option<Node>) {
    forall i | from <= i < |past| :: At(past[i], p) == node
  }

  /** In every state from index `from` on, `p` is as `node` says or a file with exactly `data`. */
  ghost predicate OldOrNew(past: seq<Fs>, from: nat, p: Path, node: Option<Node>, data: bytes) {
    forall i | from <= i < |past| ::
      At(past[i], p) == node || (p in past[i] && past[i][p].File? && past[i][p].data == data)
  }

  /** MkdirAll for the parent, then the temporary file, or the file itself. */
  method OpenTarget(req: PutReq, disk: Disk) returns (failure: Option<Why>)
    requires disk.Valid() && req.path != []
    modifies disk`fs, disk`past, disk`denied
    ensures disk.Valid() && old(disk.past) <= disk.past
    ensures failure.Some? ==>
              (failure.value.MkdirFailed? || failure.value.CreateFailed?)
              && Grown(old(disk.fs), disk.fs, Parent(req.path))
              && Untouched(disk.past, |old(disk.past)|, req.path, At(old(disk.fs), req.path))
    ensures (old(disk.denied) ==> disk.denied) && (failure.Some? && !disk.denied ==> Obstructed(old(disk.fs), req))
    ensures failure.None? ==>
              && Target(req) in disk.fs && disk.fs[Target(req)].File? && disk.fs[Target(req)].data == []
              && Grown(old(disk.fs), WithDirs(old(disk.fs), Parent(req.path)), Parent(req.path))
              && disk.fs == WithDirs(old(disk.fs), Parent(req.path))[Target(req) := disk.fs[Target(req)]]
              && (req.atomic ==> Untouched(disk.past, |old(disk.past)|, req.path, At(old(disk.fs), req.path)))
  {
    var target := Target(req);
    assert Parent(target) == Parent(req.path);
    var ok := disk.MkdirAll(Parent(target));
    if !ok {
      return Some(MkdirFailed);
    }
    ok := disk.Create(target);
    return if ok then None else Some(CreateFailed);
  }

  datatype Received = Complete(sha: Option<nat>) | Broken(why: Why)

  lemma PayloadSnoc(frames: seq<Frame>, f: Frame)
    ensures Payload(frames + [f]) == Payload(frames) + Data(f)
  {
    assert (frames + [f])[..|frames|] == frames;
  }

  lemma PayloadNext(input: seq<Frame>, k: nat)
    requires k < |input|
    ensures Payload(input[..k + 1]) == Payload(input[..k]) + Data(input[k])
  {
    assert input[..k + 1] == input[..k] + [input[k]];
    PayloadSnoc(input[..k], input[k]);
  }

  /** The upload's file holds `payload`, all else is as it was; `other` has been so all the time. */
  ghost predicate Receiving(disk: Disk, target: Path, was: Fs, past: seq<Fs>, other: Path, payload: bytes)
    reads disk
  {
    && disk.Valid() && past <= disk.past
    && target in disk.fs && disk.fs[target].File? && disk.fs[target].data == payload
    && disk.fs == was[target := disk.fs[target]]
    && (other != target ==> Untouched(disk.past, |past|, other, At(was, other)))
  }

  /** The upload's file is gone. */
  ghost predicate Discarded(disk: Disk, target: Path, was: Fs, past: seq<Fs>, other: Path)
    reads disk
  {
    && disk.Valid() && past <= disk.past && disk.fs == was - {target}
    && (other != target ==> Untouched(disk.past, |past|, other, At(was, other)))
  }

  method Discard(target: Path, disk: Disk, ghost was: Fs, ghost past: seq<Fs>, ghost other: Path, ghost payload: bytes)
    requires Receiving(disk, target, was, past, other, payload)
    modifies disk`fs, disk`past
    ensures Discarded(disk, target, was, past, other)
  {
    disk.Remove(target);
  }

  /** One frame of the stream: a chunk is appended to the file, anything else is skipped; a failure removes the file. */
  method Accept(f: Frame, target: Path, disk: Disk, ghost was: Fs, ghost past: seq<Fs>, ghost other: Path,
                ghost payload: bytes) returns (ok: bool)
    requires Receiving(disk, target, was, past, other, payload)
    modifies disk`fs, disk`past, disk`denied
    ensures if ok then Receiving(disk, target, was, past, other, payload + Data(f))
            else Discarded(disk, target, was, past, other) && Data(f) != []
    ensures disk.denied == (old(disk.denied) || !ok)
  {
    if !f.Chunk? || f.data == [] {
      assert payload + [] == payload;
      return true;
    }
    ok := disk.Write(target, f.data);
    if !ok {
      disk.Remove(target);
    }
  }

  /**
   The loop over FileChunk frames; `used` of them are read, at most the `n` up to the first Done. A failure removes
   the file. Other paths stay as they are.
   */
  method Receive(input: seq<Frame>, target: Path, disk: Disk, ghost n: nat, ghost other: Path)
    returns (r: Received, used: nat)
    requires disk.Valid() && target in disk.fs && disk.fs[target].File? && disk.fs[target].data == []
    requires n <= |input| && (forall k | 0 <= k < n - 1 :: !IsDone(input[k]))
    requires n == |input| || (n > 0 && IsDone(input[n - 1]))
    modifies disk`fs, disk`past, disk`denied
    ensures disk.denied == (old(disk.denied) || r == Broken(WriteFailed))
    ensures match r
            case Complete(sha) =>
              && Receiving(disk, target, old(disk.fs), old(disk.past), other, Payload(input[..n]))
              && 0 < used == n && IsDone(input[n - 1]) && sha == input[n - 1].sha
            case Broken(why) =>
              && Discarded(disk, target, old(disk.fs), old(disk.past), other)
              && (if why.StreamRead? then used == n == |input| && (n > 0 ==> !IsDone(input[n - 1]))
                  else why.WriteFailed? && 0 < used <= n)
  {
    var gotFinal, clientSha := false, None;
    ghost var was, past := disk.fs, disk.past;
    used := 0;
    while !gotFinal
      invariant if gotFinal || used == |input| then used == n else used < n
      invariant gotFinal == (used > 0 && IsDone(input[used - 1]))
      invariant gotFinal ==> clientSha == input[used - 1].sha
      invariant Receiving(disk, target, was, past, other, Payload(input[..used]))
      invariant disk.denied == old(disk.denied)
      decreases |input| - used, !gotFinal
    {
      if used == |input| {
        Discard(target, disk, was, past, other, Payload(input[..used]));
        return Broken(StreamRead), used;
      }
      var f := input[used];
      PayloadNext(input, used);
      var ok := Accept(f, target, disk, was, past, other, Payload(input[..used]));
      used := used + 1;
      if !ok {
        return Broken(WriteFailed), used;
      }
      if f.Chunk? && f.done {
        gotFinal, clientSha := true, f.sha;
      }
    }
    return Complete(clientSha), used;
  }

  /** The checksum, the rename and the time stamp, once Done has come. */
  method Commit(req: PutReq, sha: Option<nat>, disk: Disk, hash: Hash, ghost from: nat, ghost node: Option<Node>)
    returns (failure: Option<Why>)
    requires disk.Valid() && req.path != []
    requires Target(req) in disk.fs && disk.fs[Target(req)].File?
    requires req.atomic ==> Untouched(disk.past, from, req.path, node) && node == At(disk.fs, req.path)
    modifies disk
    ensures disk.Valid() && old(disk.past) <= disk.past && (old(disk.untimed) ==> disk.untimed)
    ensures (old(disk.denied) ==> disk.denied)
    ensures failure == Some(RenameFailed) && !disk.denied ==> At(old(disk.fs), req.path) == Some(Dir)
    ensures sha.Some? && hash(old(disk.fs)[Target(req)].data) != sha.value <==> failure == Some(Mismatch)
    ensures failure.Some? ==> failure.value.Mismatch? || (failure.value.RenameFailed? && req.atomic)
    ensures failure.Some? ==>
              && disk.fs == old(disk.fs) - {Target(req)}
              && (req.atomic ==> Untouched(disk.past, from, req.path, node))
    ensures req.atomic || failure.None? ==>
              OldOrNew(disk.past, if req.atomic then from else |old(disk.past)|, req.path, At(old(disk.fs), req.path),
                       old(disk.fs)[Target(req)].data)
    ensures failure.None? ==>
              && req.path in disk.fs && disk.fs[req.path].File?
              && disk.fs[req.path].data == old(disk.fs)[Target(req)].data
              && (!disk.untimed && req.mtime > 0 ==> disk.fs[req.path].mtime == req.mtime)
              && disk.fs == (if req.atomic then old(disk.fs) - {Tmp(req.path)}
                             else old(disk.fs))[req.path := disk.fs[req.path]]
  {
    var p, target := req.path, Target(req);
    if sha.Some? && hash(disk.fs[target].data) != sha.value {
      disk.Remove(target);
      return Some(Mismatch);
    }
    if req.atomic {
      var ok := disk.Rename(target, p);
      if !ok {
        disk.Remove(target);
        return Some(RenameFailed);
      }
    }
    if req.mtime > 0 {
      disk.Chtimes(p, req.mtime);
    }
    return None;
  }

  /** The loop and the commit. */
  method Store(req: PutReq, input: seq<Frame>, disk: Disk, hash: Hash)
    returns (reply: Reply, used: nat, ghost fault: Fault)
    requires disk.Valid() && req.path != []
    requires Target(req) in disk.fs && disk.fs[Target(req)].File? && disk.fs[Target(req)].data == []
    modifies disk
    ensures disk.Valid() && old(disk.past) <= disk.past
    ensures used == Consumed(req, input, fault) && reply == Outcome(req, input, fault, hash)
    ensures !fault.Mkdir? && !fault.Create?
    ensures req.atomic ==>
              OldOrNew(disk.past, |old(disk.past)|, req.path, At(old(disk.fs), req.path), Payload(input[..used]))
    ensures reply.Failed? ==>
              && disk.fs == old(disk.fs) - {Target(req)}
              && (req.atomic ==> Untouched(disk.past, |old(disk.past)|, req.path, At(old(disk.fs), req.path)))
    ensures reply.Result? ==>
              && req.path in disk.fs && disk.fs[req.path].File? && disk.fs[req.path].data == Payload(input[..used])
              && (!disk.untimed && req.mtime > 0 ==> disk.fs[req.path].mtime == req.mtime)
              && disk.fs == (if req.atomic then old(disk.fs) - {Tmp(req.path)}
                             else old(disk.fs))[req.path := disk.fs[req.path]]
    ensures (old(disk.untimed) ==> disk.untimed) && (old(disk.denied) ==> disk.denied)
    ensures !disk.denied && At(old(disk.fs), req.path) != Some(Dir) ==> fault == NoFault
  {
    ghost var from, node := |disk.past|, At(disk.fs, req.path);
    var r: Received;
    r, used := Receive(input, Target(req), disk, Until(input), req.path);
    if r.Broken? {
      return Failed(req.id, r.why), used, if r.why.WriteFailed? then WriteAt(used - 1) else NoFault;
    }
    var failure := Commit(req, r.sha, disk, hash, from, node);
    if failure.Some? {
      return Failed(req.id, failure.value), used, if failure.value.Mismatch? then NoFault else Rename;
    }
    return Result(req.id), used, NoFault;
  }

  /**
   The synchronous put loop. `used` frames are taken from `input`, behind which the stream fails; `made` is the
   disk after MkdirAll. All-or-nothing: an atomic upload shows at its path, in every state of the disk on the way,
   the old node or the whole payload; it shows the latter when the reply is Result, and the former at the end of
   every failure, which after the creation of the temporary file leaves none behind.
   */
  method HandlePut(req: PutReq, input: seq<Frame>, disk: Disk, hash: Hash)
    returns (reply: Reply, used: nat, ghost fault: Fault, ghost made: Fs)
    requires disk.Valid()
    modifies disk
    ensures disk.Valid() && old(disk.past) <= disk.past
    ensures used == Consumed(req, input, fault) && reply == Outcome(req, input, fault, hash)
    ensures Grown(old(disk.fs), made, req.path[..Max(|req.path| - 1, 0)])
    ensures req.path == [] ==> disk.fs == old(disk.fs)
    ensures req.path != [] && req.atomic ==>
              OldOrNew(disk.past, |old(disk.past)|, req.path, At(old(disk.fs), req.path), Payload(input[..used]))
    ensures req.path != [] && reply.Failed? ==>
              && disk.fs == (if fault.Mkdir? || fault.Create? then made else made - {Target(req)})
              && (req.atomic ==> Untouched(disk.past, |old(disk.past)|, req.path, At(old(disk.fs), req.path)))
    ensures reply.Result? ==>
              && req.path in disk.fs && disk.fs[req.path].File? && disk.fs[req.path].data == Payload(input[..used])
              && (!disk.untimed && req.mtime > 0 ==> disk.fs[req.path].mtime == req.mtime)
              && made == WithDirs(old(disk.fs), Parent(req.path))
              && disk.fs == (if req.atomic then made - {Tmp(req.path)} else made)[req.path := disk.fs[req.path]]
    ensures (old(disk.untimed) ==> disk.untimed) && (old(disk.denied) ==> disk.denied)
    ensures req.path != [] && !disk.denied && !Obstructed(old(disk.fs), req) ==> fault == NoFault
  {
    made, fault := disk.fs, NoFault;
    if req.path == [] {
      return Failed(req.id, EmptyPath), 0, NoFault, made;
    }
    var p := req.path;
    var failure := OpenTarget(req, disk);
    made := disk.fs;
    if failure.Some? {
      return Failed(req.id, failure.value), 0, if failure.value.MkdirFailed? then Mkdir else Create, made;
    }
    made := WithDirs(old(disk.fs), Parent(p));
    reply, used, fault := Store(req, input, disk, hash);
  }

  /**
   Under one put in flight: whatever frames were dropped, garbled or mixed in, once the reply is Result the file
   holds exactly the content whose checksum the first Done carries. With HandlePut, no state shows anything else.
   */
  lemma ResultIsComplete(req: PutReq, input: seq<Frame>, fault: Fault, hash: Hash, content: bytes)
    requires CollisionFree(hash) && Announces(input, content, hash)
    requires Outcome(req, input, fault, hash).Result?
    ensures Payload(input[..Consumed(req, input, fault)]) == content
  {
    assert hash(Payload(input[..Until(input)])) == hash(content);
  }

  // ---- the client ----

  function Chunks(id: nat, pieces: seq<bytes>): (fs: seq<Frame>)
    ensures |fs| == |pieces| && forall i | 0 <= i < |fs| :: fs[i] == Chunk(id, pieces[i], false, None)
  {
    seq(|pieces|, i requires 0 <= i < |pieces| => Chunk(id, pieces[i], false, None))
  }

  function Last(id: nat, content: bytes, hash: Hash): Frame {
    Chunk(id, [], true, Some(hash(content)))
  }

  /** The local file: it may not open, or fail after some bytes. */
  datatype Local = Missing | Local(data: bytes, failsAt: Option<nat>)

  const CHUNK_SIZE := 64 * 1024

  lemma OneMore(id: nat, pieces: seq<bytes>, data: bytes, at: nat, n: nat)
    requires at + n <= |data| && Flatten(pieces) == data[..at]
    ensures Flatten(pieces + [data[at..at + n]]) == data[..at] + data[at..at + n] == data[..at + n]
    ensures Chunks(id, pieces + [data[at..at + n]]) == Chunks(id, pieces) + [Chunk(id, data[at..at + n], false, None)]
  {
    FlattenSnoc(pieces, data[at..at + n]);
  }

  class Session {
    var sent: seq<Frame>

    constructor ()
      ensures sent == []
    {
      sent := [];
    }

    /** The sending half of FilePut: false when the local file could not be opened or read, and then no Done is sent. */
    method FilePut(local: Local, req: PutReq, hash: Hash) returns (ok: bool, ghost pieces: seq<bytes>)
      modifies this
      ensures ok <==> local.Local? && (local.failsAt.None? || local.failsAt.value > |local.data|)
      ensures local.Missing? ==> pieces == []
      ensures ok ==> Flatten(pieces) == local.data
      ensures !ok && local.Local? ==> Flatten(pieces) <= local.data
      ensures forall x <- pieces :: 0 < |x| <= CHUNK_SIZE
      ensures sent == old(sent) + [Put(req)] + Chunks(req.id, pieces)
                      + if ok then [Last(req.id, Flatten(pieces), hash)] else []
    {
      sent := sent + [Put(req)];
      pieces := [];
      if local.Missing? {
        return false, pieces;
      }
      var at := 0;
      var content := [];
      while true
        invariant at <= |local.data| && content == local.data[..at] == Flatten(pieces)
        invariant local.failsAt.Some? ==> at <= local.failsAt.value
        invariant forall x <- pieces :: 0 < |x| <= CHUNK_SIZE
        invariant sent == old(sent) + [Put(req)] + Chunks(req.id, pieces)
        decreases |local.data| - at
      {
        if local.failsAt == Some(at) {
          return false, pieces;
        }
        if at == |local.data| {
          break;
        }
        var limit := if local.failsAt.Some? then Min(local.failsAt.value, |local.data|) else |local.data|;
        var want: nat := *;
        var n := Max(1, Min(want, Min(CHUNK_SIZE, limit - at)));
        var piece := local.data[at..at + n];
        OneMore(req.id, pieces, local.data, at, n);
        content, sent := content + piece, sent + [Chunk(req.id, piece, false, None)];
        pieces := pieces + [piece];
        at := at + n;
      }
      sent := sent + [Last(req.id, content, hash)];
      return true, pieces;
    }
  }
}
