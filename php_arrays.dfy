/**
 * PHP arrays as ordered association lists: a sequence of key/value entries.
 * `$a[$k] = $v` is `Assign`, `$a + $b` (and `$a += $b`) is `Union`, and
 * `setConfig`'s merge of one array into another is `Merge`.
 */
module PhpArrays {
  import opened Wrappers

  function KeysOf<K, V>(a: seq<(K, V)>): (ks: seq<K>)
    ensures |ks| == |a|
    ensures forall i :: 0 <= i < |a| ==> ks[i] == a[i].0
  {
    seq(|a|, i requires 0 <= i < |a| => a[i].0)
  }

  function ValuesOf<K, V>(a: seq<(K, V)>): (vs: seq<V>)
    ensures |vs| == |a|
    ensures forall i :: 0 <= i < |a| ==> vs[i] == a[i].1
  {
    seq(|a|, i requires 0 <= i < |a| => a[i].1)
  }

  /** A well-formed PHP array: no key occurs twice. */
  predicate Distinct<K(==), V>(a: seq<(K, V)>)
  {
    forall i, j :: 0 <= i < j < |a| ==> a[i].0 != a[j].0
  }

  /** `$a[$k] ?? null`: the value stored under `k`, if any. */
  function Lookup<K(==), V>(a: seq<(K, V)>, k: K): (r: Option<V>)
    ensures r.Some? <==> k in KeysOf(a)
    ensures r.Some? ==> exists i :: 0 <= i < |a| && a[i] == (k, r.value)
  {
    if a == [] then None
    else if a[0].0 == k then Some(a[0].1)
    else
      var r := Lookup(a[1..], k);
      assert KeysOf(a) == [a[0].0] + KeysOf(a[1..]);
      assert r.Some? ==> exists i :: 1 <= i < |a| && a[i] == (k, r.value) by {
        if r.Some? {
          var i :| 0 <= i < |a[1..]| && a[1..][i] == (k, r.value);
          assert a[i + 1] == (k, r.value);
        }
      }
      r
  }

  /** `$a[$k] = $v`: overwrite in place when `k` is present, append otherwise. */
  function Assign<K(==), V>(a: seq<(K, V)>, k: K, v: V): (r: seq<(K, V)>)
  {
    if a == [] then [(k, v)]
    else if a[0].0 == k then [(k, v)] + a[1..]
    else [a[0]] + Assign(a[1..], k, v)
  }

  /** `$a + $b`: the entries of `a`, then those of `b` whose key `a` (or an earlier entry of `b`) lacks. */
  function Union<K(==), V>(a: seq<(K, V)>, b: seq<(K, V)>): (r: seq<(K, V)>)
    decreases |b|
  {
    if b == [] then a
    else if b[0].0 in KeysOf(a) then Union(a, b[1..])
    else Union(a + [b[0]], b[1..])
  }

  /** Writing the entries of `update` one by one into `base`, in order. */
  function Merge<K(==), V>(base: seq<(K, V)>, update: seq<(K, V)>): (r: seq<(K, V)>)
    decreases |update|
  {
    if update == [] then base
    else Merge(Assign(base, update[0].0, update[0].1), update[1..])
  }

  lemma {:induction false} LookupAssign<K, V>(a: seq<(K, V)>, k: K, v: V, j: K)
    ensures Lookup(Assign(a, k, v), j) == if j == k then Some(v) else Lookup(a, j)
  {
    if a != [] && a[0].0 != k {
      LookupAssign(a[1..], k, v, j);
      assert Assign(a, k, v)[1..] == Assign(a[1..], k, v);
    } else if a != [] {
      assert ([(k, v)] + a[1..])[1..] == a[1..];
    }
  }

  lemma {:induction false} KeysAssign<K, V>(a: seq<(K, V)>, k: K, v: V)
    ensures KeysOf(Assign(a, k, v)) == if k in KeysOf(a) then KeysOf(a) else KeysOf(a) + [k]
  {
    if a == [] {
    } else if a[0].0 == k {
      assert KeysOf(Assign(a, k, v)) == KeysOf(a);
    } else {
      KeysAssign(a[1..], k, v);
      assert KeysOf(a) == [a[0].0] + KeysOf(a[1..]);
      assert KeysOf(Assign(a, k, v)) == [a[0].0] + KeysOf(Assign(a[1..], k, v));
    }
  }

  /** Assigning to a key the array lacks appends exactly one entry. */
  lemma {:induction false} AssignAbsent<K, V>(a: seq<(K, V)>, k: K, v: V)
    requires k !in KeysOf(a)
    ensures Assign(a, k, v) == a + [(k, v)]
  {
    if a != [] {
      assert a[0].0 in KeysOf(a);
      assert KeysOf(a[1..]) == KeysOf(a)[1..];
      AssignAbsent(a[1..], k, v);
      assert a == [a[0]] + a[1..];
    }
  }

  lemma {:induction false} AssignDistinct<K, V>(a: seq<(K, V)>, k: K, v: V)
    requires Distinct(a)
    ensures Distinct(Assign(a, k, v))
  {
    if a == [] {
    } else if a[0].0 == k {
      var r := Assign(a, k, v);
      assert forall i :: 0 <= i < |r| ==> r[i].0 == a[i].0;
    } else {
      AssignDistinct(a[1..], k, v);
      KeysAssign(a[1..], k, v);
      var r := Assign(a, k, v);
      var t := Assign(a[1..], k, v);
      assert r == [a[0]] + t;
      forall j | 0 <= j < |t| ensures t[j].0 != a[0].0 {
        assert t[j].0 == KeysOf(t)[j];
        assert forall i :: 0 <= i < |a[1..]| ==> a[1..][i].0 == a[i + 1].0 != a[0].0;
        assert a[0].0 !in KeysOf(a[1..]);
      }
    }
  }

  /** Appending an entry whose key is new leaves every other lookup as it was. */
  lemma LookupAppend<K, V>(a: seq<(K, V)>, e: (K, V), j: K)
    requires e.0 !in KeysOf(a)
    ensures Lookup(a + [e], j) == if j in KeysOf(a) then Lookup(a, j) else if j == e.0 then Some(e.1) else None
  {
    AssignAbsent(a, e.0, e.1);
    LookupAssign(a, e.0, e.1, j);
  }

  /** The left operand of `+` wins: a key of `a` keeps `a`'s value, any other key gets `b`'s. */
  lemma {:induction false} LookupUnion<K, V>(a: seq<(K, V)>, b: seq<(K, V)>, j: K)
    ensures Lookup(Union(a, b), j) == if j in KeysOf(a) then Lookup(a, j) else Lookup(b, j)
    decreases |b|
  {
    if b == [] {
    } else if b[0].0 in KeysOf(a) {
      LookupUnion(a, b[1..], j);
      if j !in KeysOf(a) {
        assert Lookup(b, j) == Lookup(b[1..], j);
      }
    } else {
      var a' := a + [b[0]];
      LookupUnion(a', b[1..], j);
      LookupAppend(a, b[0], j);
      assert KeysOf(a') == KeysOf(a) + [b[0].0];
    }
  }

  /** `$a + $b` keeps all of `a`, in order, as its prefix. */
  lemma {:induction false} UnionKeepsLeft<K, V>(a: seq<(K, V)>, b: seq<(K, V)>)
    ensures |Union(a, b)| >= |a| && Union(a, b)[..|a|] == a
    decreases |b|
  {
    if b == [] {
    } else if b[0].0 in KeysOf(a) {
      UnionKeepsLeft(a, b[1..]);
    } else {
      UnionKeepsLeft(a + [b[0]], b[1..]);
      assert (a + [b[0]])[..|a|] == a;
    }
  }

  lemma {:induction false} UnionDistinct<K, V>(a: seq<(K, V)>, b: seq<(K, V)>)
    requires Distinct(a)
    ensures Distinct(Union(a, b))
    decreases |b|
  {
    if b == [] {
    } else if b[0].0 in KeysOf(a) {
      UnionDistinct(a, b[1..]);
    } else {
      var a' := a + [b[0]];
      forall i, j | 0 <= i < j < |a'| ensures a'[i].0 != a'[j].0 {
        if j == |a| {
          assert a'[i].0 == KeysOf(a)[i];
        }
      }
      UnionDistinct(a', b[1..]);
    }
  }

  /** Merging writes every entry of `update` over `base`: its keys take `update`'s values. */
  lemma {:induction false} LookupMerge<K, V>(base: seq<(K, V)>, update: seq<(K, V)>, j: K)
    requires Distinct(update)
    ensures Lookup(Merge(base, update), j) == if j in KeysOf(update) then Lookup(update, j) else Lookup(base, j)
    decreases |update|
  {
    if update != [] {
      var rest := update[1..];
      assert Distinct(rest);
      LookupMerge(Assign(base, update[0].0, update[0].1), rest, j);
      LookupAssign(base, update[0].0, update[0].1, j);
      assert KeysOf(update) == [update[0].0] + KeysOf(rest);
      if j == update[0].0 {
        assert forall i :: 0 <= i < |rest| ==> rest[i].0 == update[i + 1].0 != update[0].0;
        assert j !in KeysOf(rest);
      }
    }
  }
}
