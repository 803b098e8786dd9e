/**
 `rsb sync`: a walk over the local tree in name order, a comparison of modification time and size with the remote
 file, and an atomic upload of what differs. Source names may end in the very suffix the agent uses for its
 temporary files; the order of the walk is what keeps that harmless.
 */
module Sync {
  import opened Basics
  import opened RemoteDisk
  import opened Put
  import opened Resync

  // ---- the walk ----

  /** A local directory tree; a directory's entries come sorted, as filepath.Walk reads them. */
  datatype Tree = Leaf(data: bytes, mtime: int) | Branch(entries: seq<(string, Tree)>)

  /** The byte order of sort.Strings. */
  predicate Before(a: string, b: string) {
    b != [] && (a == [] || a[0] < b[0] || (a[0] == b[0] && Before(a[1..], b[1..])))
  }

  predicate Sorted(t: Tree) {
    t.Branch? ==>
      && (forall i, j | 0 <= i < j < |t.entries| :: Before(t.entries[i].0, t.entries[j].0))
      && (forall e <- t.entries :: Sorted(e.1))
  }

  datatype Entry = Entry(rel: Path, data: bytes, mtime: int)

  function Under(name: string, es: seq<Entry>): (r: seq<Entry>)
    ensures |r| == |es| && forall i | 0 <= i < |r| :: r[i] == es[i].(rel := [name] + es[i].rel)
  {
    seq(|es|, i requires 0 <= i < |es| => es[i].(rel := [name] + es[i].rel))
  }

  /** The files of the tree in the order of the walk. */
  function Walk(t: Tree): seq<Entry>
    decreases t, if t.Branch? then |t.entries| + 1 else 0
  {
    match t
    case Leaf(data, mtime) => [Entry([], data, mtime)]
    case Branch(entries) => WalkAll(t, entries)
  }

  function WalkAll(t: Tree, entries: seq<(string, Tree)>): seq<Entry>
    requires forall e <- entries :: e.1 < t
    decreases t, |entries|
  {
    if entries == [] then
      []
    else
      Under(entries[0].0, Walk(entries[0].1)) + WalkAll(t, entries[1..])
  }

  /** The tree has this file. */
  ghost predicate Holds(t: Tree, e: Entry)
    decreases t
  {
    match t
    case Leaf(data, mtime) => e == Entry([], data, mtime)
    case Branch(entries) =>
      e.rel != [] && exists n <- entries :: n.0 == e.rel[0] && Holds(n.1, e.(rel := e.rel[1..]))
  }

  /** The walk visits the files of the tree, all of them and no others. */
  lemma {:induction false} WalkVisits(t: Tree, e: Entry)
    ensures e in Walk(t) <==> Holds(t, e)
    decreases t, if t.Branch? then |t.entries| + 1 else 0
  {
    if t.Branch? {
      WalkAllVisits(t, t.entries, e);
    }
  }

  lemma {:induction false} WalkAllVisits(t: Tree, entries: seq<(string, Tree)>, e: Entry)
    requires forall n <- entries :: n.1 < t
    ensures e in WalkAll(t, entries) <==>
              e.rel != [] && exists n <- entries :: n.0 == e.rel[0] && Holds(n.1, e.(rel := e.rel[1..]))
    decreases t, |entries|
  {
    if entries != [] {
      var (name, sub) := entries[0];
      assert entries[0] in entries;
      WalkAllVisits(t, entries[1..], e);
      var mine := Under(name, Walk(sub));
      if e.rel != [] {
        var inner := e.(rel := e.rel[1..]);
        WalkVisits(sub, inner);
        assert [e.rel[0]] + e.rel[1..] == e.rel;
        assert e in mine <==> name == e.rel[0] && inner in Walk(sub) by {
          if name == e.rel[0] && inner in Walk(sub) {
            var i :| 0 <= i < |mine| && Walk(sub)[i] == inner;
            assert mine[i] == e;
          }
          if e in mine {
            var i :| 0 <= i < |mine| && mine[i] == e;
            assert e.rel[1..] == Walk(sub)[i].rel;
          }
        }
      }
      assert forall n :: n in entries <==> n == entries[0] || n in entries[1..];
    }
  }

  lemma {:induction false} SuffixIsLater(a: string, s: string)
    ensures !Before(a + s, a)
  {
    if a != [] {
      SuffixIsLater(a[1..], s);
      assert (a + s)[1..] == a[1..] + s;
    }
  }

  lemma {:induction false} NotBeforeItself(a: string)
    ensures !Before(a, a)
  {
    if a != [] {
      NotBeforeItself(a[1..]);
    }
  }

  /** As files `a` and then `b` in a walk: different, neither is below the other, and `a` is not b's temporary. */
  predicate Apart(a: Path, b: Path) {
    !(a <= b) && !(b <= a) && (b != [] ==> a != Tmp(b))
  }

  ghost predicate Orderly(es: seq<Entry>) {
    forall i, j | 0 <= i < j < |es| :: Apart(es[i].rel, es[j].rel)
  }

  lemma PrefixBelow(head: Path, a: Path, b: Path)
    ensures head + a <= head + b <==> a <= b
    ensures head + a == head + b <==> a == b
  {
    assert (head + a)[|head|..] == a && (head + b)[|head|..] == b;
    assert |a| <= |b| ==> (head + b)[..|head + a|] == head + b[..|a|];
    assert |a| <= |b| ==> (head + b[..|a|])[|head|..] == b[..|a|];
  }

  lemma ApartBelow(head: Path, a: Path, b: Path)
    requires Apart(a, b)
    ensures Apart(head + a, head + b)
  {
    PrefixBelow(head, a, b);
    PrefixBelow(head, b, a);
    if b != [] {
      TmpBelow(head, b);
      PrefixBelow(head, a, Tmp(b));
    }
  }

  lemma TmpBelow(head: Path, b: Path)
    requires b != []
    ensures Tmp(head + b) == head + Tmp(b)
  {
    assert (head + b)[..|head + b| - 1] == head + b[..|b| - 1];
  }

  lemma ApartSiblings(x: string, a: Path, y: string, b: Path)
    requires Before(x, y)
    ensures Apart([x] + a, [y] + b)
  {
    NotBeforeItself(x);
    SuffixIsLater(y, SUFFIX);
    assert Tmp([y] + b)[0] == if b == [] then y + SUFFIX else y;
  }

  lemma {:induction false} WalkOrderly(t: Tree)
    requires Sorted(t)
    ensures Orderly(Walk(t))
    decreases t, if t.Branch? then |t.entries| + 1 else 0
  {
    if t.Branch? {
      WalkAllOrderly(t, t.entries);
    }
  }

  ghost predicate From(es: seq<Entry>, entries: seq<(string, Tree)>) {
    forall e <- es :: e.rel != [] && exists n <- entries :: n.0 == e.rel[0]
  }

  lemma {:induction false} WalkAllOrderly(t: Tree, entries: seq<(string, Tree)>)
    requires forall e <- entries :: e.1 < t && Sorted(e.1)
    requires forall i, j | 0 <= i < j < |entries| :: Before(entries[i].0, entries[j].0)
    ensures Orderly(WalkAll(t, entries)) && From(WalkAll(t, entries), entries)
    decreases t, |entries|
  {
    if entries != [] {
      var (name, sub) := entries[0];
      assert entries[0] in entries;
      var mine: seq<Entry>, rest: seq<Entry> := Under(name, Walk(sub)), WalkAll(t, entries[1..]);
      var all: seq<Entry> := mine + rest;
      WalkOrderly(sub);
      WalkAllOrderly(t, entries[1..]);
      forall i, j | 0 <= i < j < |all|
        ensures Apart(all[i].rel, all[j].rel)
      {
        if j < |mine| {
          ApartBelow([name], Walk(sub)[i].rel, Walk(sub)[j].rel);
        } else if i < |mine| {
          var e := rest[j - |mine|];
          assert e in rest;
          var n :| n in entries[1..] && n.0 == e.rel[0];
          assert e.rel == [e.rel[0]] + e.rel[1..];
          ApartSiblings(name, Walk(sub)[i].rel, e.rel[0], e.rel[1..]);
        } else {
          assert Apart(rest[i - |mine|].rel, rest[j - |mine|].rel);
        }
      }
      forall e | e in all
        ensures e.rel != [] && exists n <- entries :: n.0 == e.rel[0]
      {
        if e in mine {
          assert e.rel[0] == name && entries[0].0 == name;
        } else {
          var n :| n in entries[1..] && n.0 == e.rel[0];
          assert n in entries;
        }
      }
    }
  }

  /** A file below a directory has a place of its own, also below the root of the file system. */
  lemma Placed(t: Tree, root: Path)
    requires Sorted(t) && (root != [] || t.Branch?)
    ensures forall e <- Walk(t) :: root + e.rel != []
  {
    if t.Branch? {
      WalkAllOrderly(t, t.entries);
    }
  }

  // ---- one file ----

  /** What the mtime and size heuristic should accept. */
  ghost predicate Matches(fs: Fs, p: Path, e: Entry) {
    p in fs && fs[p].File? && |fs[p].data| == |e.data| && fs[p].mtime == e.mtime
  }

  /** The answer to a file_stat of something that exists. */
  datatype RStat = RStat(isDir: bool, size: nat, mtime: int)

  method FileStat(p: Path, disk: Disk) returns (st: Option<RStat>)
    ensures p !in disk.fs ==> st == None
    ensures p in disk.fs && disk.fs[p].Dir? ==> st.Some? && st.value.isDir
    ensures p in disk.fs && disk.fs[p].File? ==> st == Some(RStat(false, |disk.fs[p].data|, disk.fs[p].mtime))
  {
    if p !in disk.fs {
      return None;
    }
    match disk.fs[p]
    case Dir => st := Some(RStat(true, 0, 0));
    case File(data, mtime) => st := Some(RStat(false, |data|, mtime));
  }

  /** A completed atomic upload. */
  function Replaced(fs: Fs, p: Path, node: Node): Fs
    requires p != []
  {
    (WithDirs(fs, Parent(p)) - {Tmp(p)})[p := node]
  }

  /** The put loop on the frames of a whole upload. */
  method StoreWhole(req: PutReq, input: seq<Frame>, ghost content: bytes, disk: Disk, hash: Hash) returns (reply: Reply)
    requires disk.Valid() && req.path != [] && req.atomic
    requires Announces(input, content, hash) && Payload(input[..Until(input)]) == content
    modifies disk
    ensures disk.Valid() && old(disk.past) <= disk.past
    ensures (old(disk.untimed) ==> disk.untimed) && (old(disk.denied) ==> disk.denied)
    ensures reply.Result? ==>
              && req.path in disk.fs && disk.fs[req.path].File? && disk.fs[req.path].data == content
              && (!disk.untimed && req.mtime > 0 ==> disk.fs[req.path].mtime == req.mtime)
              && disk.fs == Replaced(old(disk.fs), req.path, disk.fs[req.path])
    ensures reply.Failed? ==> At(disk.fs, req.path) == At(old(disk.fs), req.path)
    ensures !disk.denied && !Obstructed(old(disk.fs), req) ==> reply.Result?
  {
    var used: nat;
    ghost var fault: Fault, made: Fs;
    reply, used, fault, made := HandlePut(req, input, disk, hash);
    assert disk.past[|disk.past| - 1] == disk.fs;
  }

  lemma WholeIsSent(req: PutReq, pieces: seq<bytes>, hash: Hash)
    requires req.path != []
    ensures var input := Chunks(req.id, pieces) + [Last(req.id, Flatten(pieces), hash)];
            Announces(input, Flatten(pieces), hash) && Payload(input[..Until(input)]) == Flatten(pieces)
  {
    var u := Upload(None, req, pieces, true);
    WholeIsStored(u, [], hash);
    var body := Body(u, hash);
    assert body + [] == body;
    assert forall k | 0 <= k < |pieces| :: !IsDone(body[k]);
    assert IsDone(body[|pieces|]) && Until(body) == |pieces| + 1;
  }

  /** The frames behind the request, as the client sends them. */
  method SendFile(e: Entry, req: PutReq, hash: Hash) returns (input: seq<Frame>)
    requires req.path != []
    ensures Announces(input, e.data, hash) && Payload(input[..Until(input)]) == e.data
  {
    var session := new Session();
    var sent, pieces := session.FilePut(Local(e.data, None), req, hash);
    input := session.sent[1..];
    assert input == Chunks(req.id, pieces) + [Last(req.id, Flatten(pieces), hash)];
    WholeIsSent(req, pieces, hash);
  }

  /** One upload from end to end: what the client sends is what the agent's put loop reads. */
  method UploadFile(e: Entry, p: Path, disk: Disk, hash: Hash) returns (ok: bool)
    requires disk.Valid() && p != []
    modifies disk
    ensures disk.Valid() && old(disk.past) <= disk.past
    ensures (old(disk.untimed) ==> disk.untimed) && (old(disk.denied) ==> disk.denied)
    ensures ok ==>
              && p in disk.fs && disk.fs[p].File? && disk.fs[p].data == e.data
              && (!disk.untimed && e.mtime > 0 ==> disk.fs[p].mtime == e.mtime)
              && disk.fs == Replaced(old(disk.fs), p, disk.fs[p])
    ensures !ok ==> At(disk.fs, p) == At(old(disk.fs), p)
    ensures !disk.denied && !Obstructed(old(disk.fs), PutReq(0, p, true, e.mtime)) ==> ok
  {
    var req := PutReq(0, p, true, e.mtime);
    var input := SendFile(e, req, hash);
    var reply := StoreWhole(req, input, e.data, disk, hash);
    ok := reply.Result?;
  }

  // ---- the whole directory ----

  datatype Report = Report(uploaded: seq<Path>, skipped: seq<Path>, failed: seq<Path>)

  /** Every file of the tree is in place remotely, as far as the heuristic can tell. */
  ghost predicate Converged(fs: Fs, root: Path, es: seq<Entry>) {
    forall e <- es :: Matches(fs, root + e.rel, e)
  }

  /** `y` uploads to a temporary file that is the place of `x`. */
  predicate Displaces(root: Path, y: Path, x: Path) {
    root + y != [] && root + x == Tmp(root + y)
  }

  predicate Displaced(root: Path, uploaded: seq<Path>, x: Path) {
    exists y <- uploaded :: Displaces(root, y, x)
  }

  /** What `uploaded` holds among the first `n` files: those that differed, and those displaced by an upload before. */
  ghost predicate Chosen(fs: Fs, root: Path, es: seq<Entry>, n: nat, uploaded: seq<Path>)
    requires n <= |es|
  {
    && (forall y <- uploaded :: exists k | 0 <= k < n :: es[k].rel == y)
    && forall k | 0 <= k < n ::
         es[k].rel in uploaded <==> !Matches(fs, root + es[k].rel, es[k]) || Displaced(root, uploaded, es[k].rel)
  }

  /** The files from the `n`-th on are as they were at the beginning, but for those displaced. */
  ghost predicate Waiting(before: Fs, fs: Fs, root: Path, es: seq<Entry>, n: nat, uploaded: seq<Path>) {
    forall j | n <= j < |es| ::
      At(fs, root + es[j].rel) == if Displaced(root, uploaded, es[j].rel) then None else At(before, root + es[j].rel)
  }

  /** The first `n` files are in place, the uploaded ones with the local content. */
  ghost predicate InPlace(fs: Fs, root: Path, es: seq<Entry>, n: nat, uploaded: seq<Path>)
    requires n <= |es|
  {
    forall k | 0 <= k < n ::
      && Matches(fs, root + es[k].rel, es[k])
      && (es[k].rel in uploaded ==> fs[root + es[k].rel].data == es[k].data)
  }

  /** What an upload does to any path that is not above its own. */
  lemma Elsewhere(fs: Fs, p: Path, node: Node, q: Path)
    requires p != [] && !(q <= p)
    ensures At(Replaced(fs, p, node), q) == if q == Tmp(p) then None else At(fs, q)
  {
    WithDirsGrown(fs, Parent(p));
    assert q <= Parent(p) ==> q <= p;
  }

  /** Among the files of a walk, only an earlier one displaces, and never itself. */
  lemma DisplacedLater(root: Path, es: seq<Entry>, j: nat, k: nat)
    requires Orderly(es) && j < |es| && k <= j
    ensures !Displaces(root, es[j].rel, es[k].rel)
  {
    if k < j {
      ApartBelow(root, es[k].rel, es[j].rel);
    }
  }

  lemma SkipStep(before: Fs, fs: Fs, root: Path, es: seq<Entry>, i: nat, uploaded: seq<Path>)
    requires Orderly(es) && i < |es|
    requires Chosen(before, root, es, i, uploaded) && Waiting(before, fs, root, es, i, uploaded)
    requires Matches(fs, root + es[i].rel, es[i])
    ensures Chosen(before, root, es, i + 1, uploaded) && Waiting(before, fs, root, es, i + 1, uploaded)
    ensures es[i].rel !in uploaded
  {
    assert forall k | 0 <= k < i :: Apart(es[k].rel, es[i].rel) && es[k].rel != es[i].rel;
    assert At(fs, root + es[i].rel) != None;
  }

  lemma DisplacedSnoc(root: Path, uploaded: seq<Path>, y: Path, x: Path)
    ensures Displaced(root, uploaded + [y], x) <==> Displaced(root, uploaded, x) || Displaces(root, y, x)
  {
    assert forall z :: z in uploaded + [y] <==> z in uploaded || z == y;
  }

  lemma ChosenStep(before: Fs, root: Path, es: seq<Entry>, i: nat, uploaded: seq<Path>)
    requires Orderly(es) && i < |es| && Chosen(before, root, es, i, uploaded)
    requires !Matches(before, root + es[i].rel, es[i]) || Displaced(root, uploaded, es[i].rel)
    ensures Chosen(before, root, es, i + 1, uploaded + [es[i].rel])
  {
    var x, more := es[i].rel, uploaded + [es[i].rel];
    forall k | 0 <= k <= i
      ensures Displaced(root, more, es[k].rel) == Displaced(root, uploaded, es[k].rel)
      ensures es[k].rel in more <==> es[k].rel in uploaded || k == i
    {
      DisplacedLater(root, es, i, k);
      DisplacedSnoc(root, uploaded, x, es[k].rel);
      assert k < i ==> Apart(es[k].rel, x);
    }
    assert forall y <- more :: exists k | 0 <= k < i + 1 :: es[k].rel == y;
  }

  lemma UploadStep(before: Fs, fs: Fs, root: Path, es: seq<Entry>, i: nat, uploaded: seq<Path>, node: Node)
    requires Orderly(es) && i < |es| && root + es[i].rel != []
    requires Chosen(before, root, es, i, uploaded) && Waiting(before, fs, root, es, i, uploaded)
    requires !Matches(fs, root + es[i].rel, es[i])
    ensures Chosen(before, root, es, i + 1, uploaded + [es[i].rel])
    ensures Waiting(before, Replaced(fs, root + es[i].rel, node), root, es, i + 1, uploaded + [es[i].rel])
  {
    var x, more := es[i].rel, uploaded + [es[i].rel];
    ChosenStep(before, root, es, i, uploaded);
    forall j | i < j < |es|
      ensures At(Replaced(fs, root + x, node), root + es[j].rel)
           == if Displaced(root, more, es[j].rel) then None else At(before, root + es[j].rel)
    {
      ApartBelow(root, x, es[j].rel);
      Elsewhere(fs, root + x, node, root + es[j].rel);
      DisplacedSnoc(root, uploaded, x, es[j].rel);
    }
  }

  lemma InPlaceStep(fs: Fs, root: Path, es: seq<Entry>, i: nat, uploaded: seq<Path>, node: Node)
    requires Orderly(es) && i < |es| && root + es[i].rel != [] && InPlace(fs, root, es, i, uploaded)
    requires node == File(es[i].data, es[i].mtime)
    ensures InPlace(Replaced(fs, root + es[i].rel, node), root, es, i + 1, uploaded + [es[i].rel])
  {
    var x := es[i].rel;
    forall k | 0 <= k < i
      ensures At(Replaced(fs, root + x, node), root + es[k].rel) == At(fs, root + es[k].rel)
      ensures es[k].rel != x
    {
      ApartBelow(root, es[k].rel, x);
      assert Apart(es[k].rel, x);
      Elsewhere(fs, root + x, node, root + es[k].rel);
    }
  }

  /** A dry run names the files that differ. */
  ghost predicate Named(fs: Fs, root: Path, es: seq<Entry>, n: nat, uploaded: seq<Path>)
    requires n <= |es|
  {
    && (forall y <- uploaded :: exists k | 0 <= k < n :: es[k].rel == y)
    && forall k | 0 <= k < n :: es[k].rel in uploaded <==> !Matches(fs, root + es[k].rel, es[k])
  }

  lemma NamedStep(fs: Fs, root: Path, es: seq<Entry>, i: nat, uploaded: seq<Path>)
    requires Orderly(es) && i < |es| && Named(fs, root, es, i, uploaded)
    ensures Named(fs, root, es, i + 1,
                  if Matches(fs, root + es[i].rel, es[i]) then uploaded else uploaded + [es[i].rel])
  {
    assert forall k | 0 <= k < i :: Apart(es[k].rel, es[i].rel) && es[k].rel != es[i].rel;
  }

  /** Some state on the way has something in the way of one of the files. */
  ghost predicate Blocked(past: seq<Fs>, root: Path, es: seq<Entry>) {
    exists fs <- past, e <- es :: root + e.rel != [] && Obstructed(fs, PutReq(0, root + e.rel, true, e.mtime))
  }

  lemma BlockedBy(a: seq<Fs>, b: seq<Fs>, fs: Fs, root: Path, es: seq<Entry>, e: Entry, here: bool)
    requires a <= b && fs in a && e in es && root + e.rel != []
    requires if here then Obstructed(fs, PutReq(0, root + e.rel, true, e.mtime)) else Blocked(a, root, es)
    ensures Blocked(b, root, es)
  {
    if !here {
      var gs, d :| gs in a && d in es && root + d.rel != [] && Obstructed(gs, PutReq(0, root + d.rel, true, d.mtime));
      assert gs in b;
    } else {
      assert fs in b;
    }
  }

  /** The report names files of the walk, and none as skipped that it names as uploaded. */
  ghost predicate Parts(es: seq<Entry>, n: nat, res: Report)
    requires n <= |es|
  {
    && (forall x <- res.uploaded :: x !in res.skipped && exists k | 0 <= k < n :: es[k].rel == x)
    && (forall x <- res.skipped :: exists k | 0 <= k < n :: es[k].rel == x)
  }

  lemma PartsStep(es: seq<Entry>, i: nat, res: Report, a: Action)
    requires Orderly(es) && i < |es| && Parts(es, i, res)
    ensures Parts(es, i + 1, Noted(res, es[i].rel, a))
  {
    assert forall k | 0 <= k < i :: Apart(es[k].rel, es[i].rel) && es[k].rel != es[i].rel;
  }

  datatype Action = Skipping | Uploading | Failing

  function Noted(res: Report, rel: Path, a: Action): Report {
    match a
    case Skipping => res.(skipped := res.skipped + [rel])
    case Uploading => res.(uploaded := res.uploaded + [rel])
    case Failing => res.(failed := res.failed + [rel])
  }

  /** The callback of the walk for one file. */
  method SyncOne(e: Entry, p: Path, dryRun: bool, disk: Disk, hash: Hash) returns (a: Action)
    requires disk.Valid() && p != []
    modifies disk
    ensures disk.Valid() && old(disk.past) <= disk.past
    ensures (old(disk.untimed) ==> disk.untimed) && (old(disk.denied) ==> disk.denied)
    ensures a.Skipping? <==>
              p in old(disk.fs) && old(disk.fs)[p].File?
              && |old(disk.fs)[p].data| == |e.data| && old(disk.fs)[p].mtime == e.mtime
    ensures a.Skipping? || dryRun ==> disk.fs == old(disk.fs) && !a.Failing?
    ensures a.Uploading? && !dryRun ==>
              && p in disk.fs && disk.fs[p].File? && disk.fs[p].data == e.data
              && (!disk.untimed && e.mtime > 0 ==> disk.fs[p].mtime == e.mtime)
              && disk.fs == Replaced(old(disk.fs), p, disk.fs[p])
    ensures a.Failing? && !disk.denied ==> Obstructed(old(disk.fs), PutReq(0, p, true, e.mtime))
  {
    var st := FileStat(p, disk);
    var needUpload := true;
    if st.Some? && !st.value.isDir && st.value.size == |e.data| && st.value.mtime == e.mtime {
      needUpload := false;
    }
    if !needUpload {
      return Skipping;
    }
    if dryRun {
      return Uploading;
    }
    var ok := UploadFile(e, p, disk, hash);
    return if ok then Uploading else Failing;
  }

  /** How far a run has come after `n` files: `before` is the disk at its start, `fs` the disk now. */
  ghost predicate Progress(before: Fs, fs: Fs, root: Path, es: seq<Entry>, n: nat, dryRun: bool, timed: bool,
                           res: Report)
    requires n <= |es|
  {
    && |res.uploaded| + |res.skipped| + |res.failed| == n && Parts(es, n, res)
    && (dryRun ==> fs == before && res.failed == [] && Named(before, root, es, n, res.uploaded))
    && (!dryRun && res.failed == [] ==>
          Chosen(before, root, es, n, res.uploaded) && Waiting(before, fs, root, es, n, res.uploaded)
          && (timed ==> InPlace(fs, root, es, n, res.uploaded)))
    && (Converged(before, root, es) ==> fs == before && res.uploaded == [] && res.failed == [])
  }

  /** One file of a real run. */
  lemma ProgressWet(before: Fs, fs: Fs, next: Fs, root: Path, es: seq<Entry>, i: nat, timed: bool, res: Report,
                    a: Action)
    requires Orderly(es) && i < |es| && root + es[i].rel != [] && Progress(before, fs, root, es, i, false, timed, res)
    requires a.Skipping? <==> Matches(fs, root + es[i].rel, es[i])
    requires a.Skipping? ==> next == fs
    requires a.Uploading? ==>
               var p := root + es[i].rel;
               && p in next && next[p].File? && next[p].data == es[i].data && (timed ==> next[p].mtime == es[i].mtime)
               && next == Replaced(fs, p, next[p])
    ensures Progress(before, next, root, es, i + 1, false, timed, Noted(res, es[i].rel, a))
  {
    var p := root + es[i].rel;
    assert es[i] in es;
    PartsStep(es, i, res, a);
    if res.failed == [] && !a.Failing? {
      if a.Skipping? {
        SkipStep(before, fs, root, es, i, res.uploaded);
      } else {
        UploadStep(before, fs, root, es, i, res.uploaded, next[p]);
        if timed {
          InPlaceStep(fs, root, es, i, res.uploaded, next[p]);
        }
      }
    }
  }

  lemma ProgressDry(fs: Fs, root: Path, es: seq<Entry>, i: nat, timed: bool, res: Report, a: Action)
    requires Orderly(es) && i < |es| && Progress(fs, fs, root, es, i, true, timed, res)
    requires a == if Matches(fs, root + es[i].rel, es[i]) then Skipping else Uploading
    ensures Progress(fs, fs, root, es, i + 1, true, timed, Noted(res, es[i].rel, a))
  {
    assert es[i] in es;
    PartsStep(es, i, res, a);
    NamedStep(fs, root, es, i, res.uploaded);
  }

  /** What a finished run means for sizes, time stamps and contents. */
  lemma InTerms(before: Fs, fs: Fs, root: Path, es: seq<Entry>, dryRun: bool, timed: bool, res: Report)
    requires Progress(before, fs, root, es, |es|, dryRun, timed, res)
    requires dryRun || res.failed == []
    ensures forall e <- es :: e.rel in res.skipped ==> e.rel !in res.uploaded
    ensures forall e <- es :: e.rel !in res.uploaded ==>
              var p := root + e.rel;
              p in before && before[p].File? && |before[p].data| == |e.data| && before[p].mtime == e.mtime
    ensures dryRun ==> forall e <- es :: e.rel in res.uploaded ==>
              var p := root + e.rel;
              !(p in before && before[p].File? && |before[p].data| == |e.data| && before[p].mtime == e.mtime)
    ensures !dryRun && timed ==> Converged(fs, root, es)
    ensures !dryRun && timed ==> forall e <- es ::
              var p := root + e.rel;
              && p in fs && fs[p].File? && |fs[p].data| == |e.data| && fs[p].mtime == e.mtime
              && (e.rel in res.uploaded ==> fs[p].data == e.data)
  {
    assert forall e <- es :: exists k | 0 <= k < |es| :: es[k] == e;
  }

  /** One file of the walk. */
  method NextFile(es: seq<Entry>, i: nat, root: Path, dryRun: bool, disk: Disk, hash: Hash, res: Report,
                  ghost before: Fs, ghost timed: bool) returns (next: Report, ghost still: bool)
    requires Orderly(es) && i < |es| && root + es[i].rel != [] && disk.Valid()
    requires Progress(before, disk.fs, root, es, i, dryRun, timed, res) && (timed ==> es[i].mtime > 0)
    modifies disk
    ensures disk.Valid() && old(disk.past) <= disk.past
    ensures (old(disk.untimed) ==> disk.untimed) && (old(disk.denied) ==> disk.denied)
    ensures Progress(before, disk.fs, root, es, i + 1, dryRun, still, next) && still == (timed && !disk.untimed)
    ensures next.failed != res.failed && !disk.denied ==>
              Obstructed(old(disk.fs), PutReq(0, root + es[i].rel, true, es[i].mtime))
  {
    var a := SyncOne(es[i], root + es[i].rel, dryRun, disk, hash);
    still := timed && !disk.untimed;
    if dryRun {
      ProgressDry(before, root, es, i, still, res, a);
    } else {
      ProgressWet(before, old(disk.fs), disk.fs, root, es, i, still, res, a);
    }
    next := Noted(res, es[i].rel, a);
  }

  /** The loop of Sync. */
  method SyncAll(es: seq<Entry>, root: Path, dryRun: bool, disk: Disk, hash: Hash)
    returns (res: Report, ghost timed: bool)
    requires Orderly(es) && (forall e <- es :: root + e.rel != []) && disk.Valid()
    modifies disk
    ensures disk.Valid() && (old(disk.untimed) ==> disk.untimed)
    ensures Progress(old(disk.fs), disk.fs, root, es, |es|, dryRun, timed, res)
    ensures !disk.untimed && (forall e <- es :: e.mtime > 0) ==> timed
    ensures res.failed != [] && !disk.denied ==> Blocked(disk.past, root, es)
  {
    res := Report([], [], []);
    timed := !disk.untimed && forall e <- es :: e.mtime > 0;
    for i := 0 to |es|
      invariant disk.Valid() && (old(disk.untimed) ==> disk.untimed)
      invariant Progress(old(disk.fs), disk.fs, root, es, i, dryRun, timed, res)
      invariant timed <==> !disk.untimed && forall e <- es :: e.mtime > 0
      invariant res.failed != [] && !disk.denied ==> Blocked(disk.past, root, es)
    {
      ghost var fs, past, failed := disk.fs, disk.past, res.failed;
      assert es[i] in es && fs in past;
      res, timed := NextFile(es, i, root, dryRun, disk, hash, res, old(disk.fs), timed);
      if !disk.denied && res.failed != [] {
        BlockedBy(past, disk.past, fs, root, es, es[i], res.failed != failed);
      }
    }
  }

  /**
   Sync. After a run without a failure, with time stamps set and positive, every file has the local one's size and time
   stamp remotely, and the uploaded ones its content; a file that is not uploaded had them at the start; a run over a
   tree that matches uploads nothing and changes nothing; a dry run changes nothing and names exactly the files that
   differ.
   */
  method Sync(t: Tree, root: Path, dryRun: bool, disk: Disk, hash: Hash) returns (res: Report)
    requires Sorted(t) && (root != [] || t.Branch?) && disk.Valid()
    modifies disk
    ensures disk.Valid() && (old(disk.untimed) ==> disk.untimed)
    ensures |res.uploaded| + |res.skipped| + |res.failed| == |Walk(t)|
    ensures forall e <- Walk(t) :: e.rel in res.skipped ==> e.rel !in res.uploaded
    ensures res.failed != [] && !disk.denied ==> Blocked(disk.past, root, Walk(t))
    ensures dryRun ==>
              disk.fs == old(disk.fs) && res.failed == [] && Named(disk.fs, root, Walk(t), |Walk(t)|, res.uploaded)
    ensures res.failed == [] ==> forall e <- Walk(t) :: e.rel !in res.uploaded ==>
              var p, fs := root + e.rel, old(disk.fs);
              p in fs && fs[p].File? && |fs[p].data| == |e.data| && fs[p].mtime == e.mtime
    ensures dryRun ==> forall e <- Walk(t) :: e.rel in res.uploaded ==>
              var p, fs := root + e.rel, old(disk.fs);
              !(p in fs && fs[p].File? && |fs[p].data| == |e.data| && fs[p].mtime == e.mtime)
    ensures !dryRun && res.failed == [] ==> Chosen(old(disk.fs), root, Walk(t), |Walk(t)|, res.uploaded)
    ensures !dryRun && res.failed == [] && !disk.untimed && (forall e <- Walk(t) :: e.mtime > 0) ==>
              Converged(disk.fs, root, Walk(t)) && forall e <- Walk(t) ::
                var p := root + e.rel;
                && p in disk.fs && disk.fs[p].File? && |disk.fs[p].data| == |e.data| && disk.fs[p].mtime == e.mtime
                && (e.rel in res.uploaded ==> disk.fs[p].data == e.data)
    ensures Converged(old(disk.fs), root, Walk(t)) ==>
              disk.fs == old(disk.fs) && res.uploaded == [] && res.failed == []
  {
    WalkOrderly(t);
    Placed(t, root);
    ghost var timed: bool;
    res, timed := SyncAll(Walk(t), root, dryRun, disk, hash);
    if dryRun || res.failed == [] {
      InTerms(old(disk.fs), disk.fs, root, Walk(t), dryRun, timed, res);
    }
  }

  /** The second of two runs has nothing to do. */
  method SyncTwice(t: Tree, root: Path, disk: Disk, hash: Hash) returns (first: Report, second: Report)
    requires Sorted(t) && (root != [] || t.Branch?) && disk.Valid()
    modifies disk
    ensures first.failed == [] && !disk.untimed && (forall e <- Walk(t) :: e.mtime > 0) ==>
              second.uploaded == [] && second.failed == [] && Converged(disk.fs, root, Walk(t))
  {
    first := Sync(t, root, false, disk, hash);
    second := Sync(t, root, false, disk, hash);
  }

  /** A file that differs uploads to the place of another one, which is up to date. */
  ghost predicate Collides(fs: Fs, root: Path, x: Entry, y: Entry) {
    Displaces(root, x.rel, y.rel) && !Matches(fs, root + x.rel, x) && Matches(fs, root + y.rel, y)
  }

  lemma {:induction false} NothingElseChosen(fs: Fs, root: Path, es: seq<Entry>, wet: seq<Path>, k: nat)
    requires Orderly(es) && Chosen(fs, root, es, |es|, wet)
    requires forall x <- es, y <- es :: !Collides(fs, root, x, y)
    requires k < |es| && es[k].rel in wet
    ensures !Matches(fs, root + es[k].rel, es[k])
    decreases k
  {
    if Matches(fs, root + es[k].rel, es[k]) {
      var y :| y in wet && Displaces(root, y, es[k].rel);
      var m :| 0 <= m < |es| && es[m].rel == y;
      if m < k {
        NothingElseChosen(fs, root, es, wet, m);
        assert Collides(fs, root, es[m], es[k]);
      } else {
        DisplacedLater(root, es, m, k);
      }
      assert false;
    }
  }

  /**
   A dry run names exactly the files that a run without failures uploads, if and only if no file that differs has
   its temporary name taken by a file that is up to date.
   */
  lemma DryRunExact(fs: Fs, root: Path, es: seq<Entry>, wet: seq<Path>, dry: seq<Path>)
    requires Orderly(es)
    requires Chosen(fs, root, es, |es|, wet) && Named(fs, root, es, |es|, dry)
    ensures (forall e <- es :: e.rel in wet <==> e.rel in dry)
            <==> (forall x <- es, y <- es :: !Collides(fs, root, x, y))
  {
    if forall x <- es, y <- es :: !Collides(fs, root, x, y) {
      forall k | 0 <= k < |es|
        ensures es[k].rel in wet <==> es[k].rel in dry
      {
        if es[k].rel in wet {
          NothingElseChosen(fs, root, es, wet, k);
        }
      }
    } else {
      var x, y :| x in es && y in es && Collides(fs, root, x, y);
      var m :| 0 <= m < |es| && es[m] == x;
      var k :| 0 <= k < |es| && es[k] == y;
      assert x.rel in wet && Displaced(root, wet, y.rel);
      assert y.rel in wet && y.rel !in dry;
    }
  }

  /** An input on which the dry run is wrong: it does not name "a.rsbtmp", which the upload of "a" displaces. */
  lemma DryRunMisses()
    ensures var es := Walk(Branch([("a", Leaf([1], 5)), ("a.rsbtmp", Leaf([], 5))]));
            |es| == 2 && Collides(map[["r", "a.rsbtmp"] := File([], 5)], ["r"], es[0], es[1])
  {
    var t := Branch([("a", Leaf([1], 5)), ("a.rsbtmp", Leaf([], 5))]);
    assert t.entries[1..] == [("a.rsbtmp", Leaf([], 5))] && t.entries[1..][1..] == [];
    assert ["a"] + [] == ["a"] && ["a.rsbtmp"] + [] == ["a.rsbtmp"];
    assert Under("a", [Entry([], [1], 5)]) == [Entry(["a"], [1], 5)];
    assert Under("a.rsbtmp", [Entry([], [], 5)]) == [Entry(["a.rsbtmp"], [], 5)];
    assert WalkAll(t, t.entries[1..]) == [Entry(["a.rsbtmp"], [], 5)];
    assert Walk(t) == [Entry(["a"], [1], 5), Entry(["a.rsbtmp"], [], 5)];
    assert ["r"] + ["a"] == ["r", "a"] && ["r"] + ["a.rsbtmp"] == ["r", "a.rsbtmp"];
    assert "a" + SUFFIX == "a.rsbtmp" && ["r", "a"][..1] == ["r"];
    assert Tmp(["r", "a"]) == ["r"] + ["a" + SUFFIX] == ["r", "a.rsbtmp"];
  }
}
