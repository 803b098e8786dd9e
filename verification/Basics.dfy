/** Small shared vocabulary: options, bytes, and the projection of a tagged log onto one tag. */
module Basics {

  datatype Option<+T> = None | Some(value: T)

  newtype byte = x: int | 0 <= x < 256

  type bytes = seq<byte>

  function Min(a: int, b: int): int {
    if a < b then a else b
  }

  function Max(a: int, b: int): int {
    if a < b then b else a
  }

  /** SHA-256, as far as this model goes. */
  type Hash = bytes -> nat

  ghost predicate CollisionFree(hash: Hash) {
    forall a, b :: hash(a) == hash(b) ==> a == b
  }

  lemma Regroup<T>(a: seq<T>, x: T, b: seq<T>)
    ensures a + [x] + b == a + ([x] + b) && a + [] == a
  {
  }

  lemma Associate<T>(a: seq<T>, b: seq<T>, c: seq<T>)
    ensures a + (b + c) == a + b + c
  {
  }

  /** The values that `log` holds under key `k`, in order. */
  function Project<K(==), V>(log: seq<(K, V)>, k: K): seq<V> {
    if log == [] then
      []
    else
      var (key, v) := log[|log| - 1];
      var rest := Project(log[..|log| - 1], k);
      if key == k then rest + [v] else rest
  }

  lemma ProjectSnoc<K, V>(log: seq<(K, V)>, e: (K, V), k: K)
    ensures Project(log + [e], k) == if e.0 == k then Project(log, k) + [e.1] else Project(log, k)
  {
    assert (log + [e])[..|log|] == log;
  }

  lemma {:induction false} ProjectConcat<K, V>(a: seq<(K, V)>, b: seq<(K, V)>, k: K)
    ensures Project(a + b, k) == Project(a, k) + Project(b, k)
  {
    if b == [] {
      assert a + b == a;
    } else {
      var front, last := b[..|b| - 1], b[|b| - 1];
      ProjectConcat(a, front, k);
      ProjectSnoc(a + front, last, k);
      assert a + b == (a + front) + [last];
    }
  }

  lemma ProjectHead<K, V>(log: seq<(K, V)>, k: K)
    requires log != []
    ensures Project(log, k) == (if log[0].0 == k then [log[0].1] else []) + Project(log[1..], k)
  {
    assert log == [log[0]] + log[1..];
    ProjectConcat([log[0]], log[1..], k);
    ProjectSnoc([], log[0], k);
    assert [] + [log[0]] == [log[0]];
  }

  lemma {:induction false} ProjectMember<K, V>(log: seq<(K, V)>, k: K, v: V)
    ensures v in Project(log, k) <==> (k, v) in log
  {
    if log != [] {
      var front, last := log[..|log| - 1], log[|log| - 1];
      ProjectMember(front, k, v);
      assert log == front + [last];
      assert Project(log, k) == if last.0 == k then Project(front, k) + [last.1] else Project(front, k);
      assert (k, v) in log <==> (k, v) in front || (k, v) == last;
    }
  }

  lemma SizeWithout<T>(s: set<T>, x: T)
    ensures |s - {x}| + (if x in s then 1 else 0) == |s|
  {
    assert s - {x} == s || s == (s - {x}) + {x};
  }

  lemma {:induction false} ProjectNone<K, V>(log: seq<(K, V)>, k: K)
    requires forall i | 0 <= i < |log| :: log[i].0 != k
    ensures Project(log, k) == []
  {
    if log != [] {
      ProjectNone(log[..|log| - 1], k);
    }
  }

  /** The sum of the values of a map. */
  ghost function Sum(m: map<nat, nat>): nat {
    if m == map[] then 0 else var k :| k in m; m[k] + Sum(m - {k})
  }

  lemma {:induction false} SumWithout(m: map<nat, nat>, k: nat)
    requires k in m
    ensures Sum(m) == m[k] + Sum(m - {k})
    decreases |m|
  {
    var j :| j in m && Sum(m) == m[j] + Sum(m - {j});
    if j != k {
      SumWithout(m - {j}, k);
      SumWithout(m - {k}, j);
      assert m - {j} - {k} == m - {k} - {j};
    }
  }

  lemma SumChange(m: map<nat, nat>, k: nat, v: nat)
    ensures Sum(m[k := v]) + (if k in m then m[k] else 0) == Sum(m) + v
  {
    SumWithout(m[k := v], k);
    assert m[k := v] - {k} == m - {k};
    if k in m {
      SumWithout(m, k);
    } else {
      assert m - {k} == m;
    }
  }

  /** The concatenation of a sequence of sequences. */
  function Flatten<T>(ss: seq<seq<T>>): seq<T> {
    if ss == [] then [] else ss[0] + Flatten(ss[1..])
  }

  lemma {:induction false} FlattenConcat<T>(a: seq<seq<T>>, b: seq<seq<T>>)
    ensures Flatten(a + b) == Flatten(a) + Flatten(b)
  {
    if a == [] {
      assert a + b == b;
    } else {
      FlattenConcat(a[1..], b);
      assert (a + b)[1..] == a[1..] + b;
    }
  }

  lemma FlattenSnoc<T>(a: seq<seq<T>>, x: seq<T>)
    ensures Flatten(a + [x]) == Flatten(a) + x
  {
    FlattenConcat(a, [x]);
    assert Flatten([x]) == x + Flatten([x][1..]) == x;
  }
}
