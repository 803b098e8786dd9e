/**
 The agent's file system: a map from paths to files and directories, changed by system calls that may fail.
 Every state it has been in is kept as history.
 */
module RemoteDisk {
  import opened Basics

  type Path = seq<string>

  datatype Node = File(data: bytes, mtime: int) | Dir

  type Fs = map<Path, Node>

  function At(fs: Fs, p: Path): Option<Node> {
    if p in fs then Some(fs[p]) else None
  }

  function Parent(p: Path): Path
    requires p != []
  {
    p[..|p| - 1]
  }

  const SUFFIX := ".rsbtmp"

  /** The temporary file next to `p`. */
  function Tmp(p: Path): (t: Path)
    requires p != []
    ensures |t| == |p| && t != p
  {
    assert |p[|p| - 1] + SUFFIX| != |p[|p| - 1]|;
    p[..|p| - 1] + [p[|p| - 1] + SUFFIX]
  }

  /** What MkdirAll adds: `dir` and its missing ancestors. */
  function WithDirs(fs: Fs, dir: Path): Fs {
    if dir in fs then
      fs
    else
      (if dir == [] then fs else WithDirs(fs, Parent(dir)))[dir := Dir]
  }

  /** From `a` to `b`, only directories on the way to `dir` have been added. */
  ghost predicate Grown(a: Fs, b: Fs, dir: Path) {
    && (forall q <- a :: At(b, q) == At(a, q))
    && (forall q <- b :: q !in a ==> b[q] == Dir && q <= dir)
  }

  /** MkdirAll meets a file where a directory should be. */
  ghost predicate FileOnWay(fs: Fs, dir: Path) {
    exists n | 0 <= n <= |dir| :: At(fs, dir[..n]).Some? && fs[dir[..n]].File?
  }

  lemma {:induction false} WithDirsGrown(fs: Fs, dir: Path)
    ensures Grown(fs, WithDirs(fs, dir), dir)
  {
    if dir !in fs && dir != [] {
      WithDirsGrown(fs, Parent(dir));
    }
  }

  class Disk {
    var fs: Fs
    ghost var past: seq<Fs>   // every state so far, this one last
    ghost var denied: bool    // some call was refused for a reason that is not in the tree (permissions, space)
    ghost var untimed: bool   // some Chtimes has failed

    ghost predicate Valid()
      reads this
    {
      past != [] && past[|past| - 1] == fs
    }

    constructor (fs: Fs)
      ensures Valid() && this.fs == fs && past == [fs] && !denied && !untimed
    {
      this.fs, past, denied, untimed := fs, [fs], false, false;
    }

    method Set(next: Fs)
      modifies this`fs, this`past
      ensures Valid() && fs == next && past == old(past) + [next]
    {
      fs, past := next, past + [next];
    }

    method MkdirAll(dir: Path) returns (ok: bool)
      requires Valid()
      modifies this`fs, this`past, this`denied
      ensures (old(denied) ==> denied) && (!ok && !denied ==> FileOnWay(old(fs), dir))
      ensures Valid() && old(past) <= past
      ensures Grown(old(fs), fs, dir)
      ensures forall i | |old(past)| <= i < |past| :: Grown(old(fs), past[i], dir)
      ensures ok ==> fs == WithDirs(old(fs), dir) && At(fs, dir) == Some(Dir)
      decreases |dir|
    {
      if dir in fs {
        assert dir[..|dir|] == dir;
        return fs[dir].Dir?;
      }
      if dir != [] {
        ok := MkdirAll(Parent(dir));
        if !ok {
          assert forall n | 0 <= n < |dir| :: Parent(dir)[..n] == dir[..n];
          return;
        }
      }
      var refused: bool := *;
      if refused {
        denied := true;
        return false;
      }
      Set(fs[dir := Dir]);
      return true;
    }

    /** OpenFile with O_CREATE, O_WRONLY and O_TRUNC. */
    method Create(p: Path) returns (ok: bool)
      requires Valid() && p != []
      modifies this`fs, this`past, this`denied
      ensures Valid() && (old(denied) ==> denied)
      ensures !ok && !denied ==> At(fs, p) == Some(Dir) || At(fs, Parent(p)) != Some(Dir)
      ensures if ok then
                p in fs && fs[p].File? && fs[p].data == [] && fs == old(fs)[p := fs[p]] && past == old(past) + [fs]
                && At(old(fs), p) != Some(Dir)
              else
                fs == old(fs) && past == old(past)
    {
      var refused: bool, now: int := *, *;
      denied := denied || refused;
      ok := !refused && At(fs, p) != Some(Dir) && At(fs, Parent(p)) == Some(Dir);
      if ok {
        Set(fs[p := File([], now)]);
      }
    }

    /** Appends to an open file; a write that fails may have written a part. */
    method Write(p: Path, data: bytes) returns (ok: bool)
      requires Valid() && p in fs && fs[p].File?
      modifies this`fs, this`past, this`denied
      ensures Valid() && p in fs && fs[p].File? && fs == old(fs)[p := fs[p]] && past == old(past) + [fs]
      ensures ok ==> fs[p].data == old(fs)[p].data + data
      ensures denied == (old(denied) || !ok)
    {
      var full: bool, n: nat, now: int := *, *, *;
      ok := full || n > |data|;
      denied := denied || !ok;
      var part := if ok then data else data[..n];
      Set(fs[p := File(fs[p].data + part, now)]);
    }

    /** Removing a file that was created before does not fail. */
    method Remove(p: Path)
      requires Valid()
      modifies this`fs, this`past
      ensures Valid() && fs == old(fs) - {p} && past == old(past) + [fs]
    {
      Set(fs - {p});
    }

    method Rename(from: Path, to: Path) returns (ok: bool)
      requires Valid() && from in fs && fs[from].File? && from != to
      modifies this`fs, this`past, this`denied
      ensures Valid() && (old(denied) ==> denied)
      ensures !ok && !denied ==> At(fs, to) == Some(Dir)
      ensures if ok then
                fs == old(fs)[to := old(fs)[from]] - {from} && past == old(past) + [fs] && At(old(fs), to) != Some(Dir)
              else
                fs == old(fs) && past == old(past)
    {
      var refused: bool := *;
      denied := denied || refused;
      ok := !refused && At(fs, to) != Some(Dir);
      if ok {
        Set(fs[to := fs[from]] - {from});
      }
    }

    method Chtimes(p: Path, t: int)
      requires Valid() && p in fs && fs[p].File?
      modifies this`fs, this`past, this`untimed
      ensures Valid() && (old(untimed) ==> untimed)
      ensures p in fs && fs[p].File? && fs == old(fs)[p := fs[p]] && fs[p].data == old(fs)[p].data
      ensures !untimed ==> fs[p].mtime == t
      ensures past == old(past) + [fs]
    {
      var refused: bool := *;
      if refused {
        untimed := true;
        Set(fs);
      } else {
        Set(fs[p := File(fs[p].data, t)]);
      }
    }
  }
}
