/** Python dictionaries as ordered sequences of key/value pairs, as iteration sees them. */
module Dicts {
  import opened Outcomes

  function Keys<K, V>(ps: seq<(K, V)>): (ks: seq<K>)
  {
    seq(|ps|, i requires 0 <= i < |ps| => ps[i].0)
  }

  function Values<K, V>(ps: seq<(K, V)>): (vs: seq<V>)
  {
    seq(|ps|, i requires 0 <= i < |ps| => ps[i].1)
  }

  /** What a dictionary guarantees of its own keys. */
  predicate DistinctKeys<K(==), V>(ps: seq<(K, V)>)
  {
    forall i, j :: 0 <= i < j < |ps| ==> ps[i].0 != ps[j].0
  }

  /** `dict(ps)`: inserting the pairs in order, so a later pair with the same key wins. */
  function ToMap<K(==), V>(ps: seq<(K, V)>): map<K, V>
    decreases |ps|
  {
    if ps == [] then map[] else ToMap(ps[..|ps| - 1])[ps[|ps| - 1].0 := ps[|ps| - 1].1]
  }

  function Swap<K, V>(ps: seq<(K, V)>): (qs: seq<(V, K)>)
  {
    seq(|ps|, i requires 0 <= i < |ps| => (ps[i].1, ps[i].0))
  }

  /** `{v: k for k, v in d.items()}`. */
  function Invert<K, V(==)>(ps: seq<(K, V)>): map<V, K>
  {
    ToMap(Swap(ps))
  }

  /** `zip(a, b)`: pairs up to the shorter length. */
  function Zip<A, B>(a: seq<A>, b: seq<B>): (z: seq<(A, B)>)
  {
    var n := if |a| < |b| then |a| else |b|;
    seq(n, i requires 0 <= i < n => (a[i], b[i]))
  }

  /** The value stored under `k`: the first pair with that key. */
  function Lookup<K(==), V>(ps: seq<(K, V)>, k: K): Option<V>
  {
    if ps == [] then None else if ps[0].0 == k then Some(ps[0].1) else Lookup(ps[1..], k)
  }

  lemma {:induction false} ToMapDomain<K, V>(ps: seq<(K, V)>, k: K)
    ensures k in ToMap(ps) <==> exists i :: 0 <= i < |ps| && ps[i].0 == k
    decreases |ps|
  {
    if ps != [] {
      var init := ps[..|ps| - 1];
      ToMapDomain(init, k);
      if k in ToMap(init) {
        var i :| 0 <= i < |init| && init[i].0 == k;
        assert ps[i].0 == k;
      }
      if exists i :: 0 <= i < |ps| && ps[i].0 == k {
        var i :| 0 <= i < |ps| && ps[i].0 == k;
        if i < |init| { assert init[i].0 == k; }
      }
    }
  }

  /** The value under a key is the one of the LAST pair carrying that key. */
  lemma {:induction false} ToMapLastWins<K, V>(ps: seq<(K, V)>, i: nat)
    requires i < |ps|
    requires forall j :: i < j < |ps| ==> ps[j].0 != ps[i].0
    ensures ps[i].0 in ToMap(ps) && ToMap(ps)[ps[i].0] == ps[i].1
    decreases |ps|
  {
    if i < |ps| - 1 {
      var init := ps[..|ps| - 1];
      assert forall j :: i < j < |init| ==> init[j].0 != init[i].0 by {
        forall j | i < j < |init| ensures init[j].0 != init[i].0 { assert init[j] == ps[j]; }
      }
      ToMapLastWins(init, i);
    }
  }

  lemma {:induction false} ToMapValue<K, V>(ps: seq<(K, V)>, k: K)
    requires k in ToMap(ps)
    ensures exists i :: 0 <= i < |ps| && ps[i].0 == k && ToMap(ps)[k] == ps[i].1
    decreases |ps|
  {
    var init := ps[..|ps| - 1];
    if ps[|ps| - 1].0 != k {
      ToMapValue(init, k);
      var i :| 0 <= i < |init| && init[i].0 == k && ToMap(init)[k] == init[i].1;
      assert ps[i] == init[i];
    }
  }

  /** With distinct keys every pair can be read back by its key. */
  lemma ToMapDistinct<K, V>(ps: seq<(K, V)>, i: nat)
    requires DistinctKeys(ps) && i < |ps|
    ensures ps[i].0 in ToMap(ps) && ToMap(ps)[ps[i].0] == ps[i].1
  {
    ToMapLastWins(ps, i);
  }

  /**
   * Inverting a dictionary with distinct keys gives a right inverse: mapping any inverted value
   * back through the original dictionary returns it.
   */
  lemma InvertIsRightInverse<K, V>(ps: seq<(K, V)>, v: V)
    requires DistinctKeys(ps) && v in Invert(ps)
    ensures Invert(ps)[v] in ToMap(ps) && ToMap(ps)[Invert(ps)[v]] == v
  {
    ToMapValue(Swap(ps), v);
    var j :| 0 <= j < |ps| && Swap(ps)[j].0 == v && Invert(ps)[v] == Swap(ps)[j].1;
    ToMapDistinct(ps, j);
  }

  /** The inverse is defined exactly on the values of the dictionary. */
  lemma InvertDomain<K, V>(ps: seq<(K, V)>, v: V)
    ensures v in Invert(ps) <==> exists i :: 0 <= i < |ps| && ps[i].1 == v
  {
    ToMapDomain(Swap(ps), v);
    if exists i :: 0 <= i < |ps| && ps[i].1 == v {
      var i :| 0 <= i < |ps| && ps[i].1 == v;
      assert Swap(ps)[i].0 == v;
    }
  }

  lemma {:induction false} LookupDistinct<K, V>(ps: seq<(K, V)>, i: nat)
    requires DistinctKeys(ps) && i < |ps|
    ensures Lookup(ps, ps[i].0) == Some(ps[i].1)
    decreases |ps|
  {
    if i > 0 {
      assert ps[0].0 != ps[i].0;
      assert ps[1..][i - 1] == ps[i];
      LookupDistinct(ps[1..], i - 1);
    }
  }

  lemma {:induction false} LookupMissing<K, V>(ps: seq<(K, V)>, k: K)
    requires forall i :: 0 <= i < |ps| ==> ps[i].0 != k
    ensures Lookup(ps, k) == None
    decreases |ps|
  {
    if ps != [] {
      assert forall i :: 0 <= i < |ps[1..]| ==> ps[1..][i].0 != k by {
        forall i | 0 <= i < |ps[1..]| ensures ps[1..][i].0 != k { assert ps[1..][i] == ps[i + 1]; }
      }
      LookupMissing(ps[1..], k);
    }
  }

  lemma DistinctKeysAppend<K, V>(a: seq<(K, V)>, b: seq<(K, V)>)
    requires DistinctKeys(a) && DistinctKeys(b)
    requires forall i, j :: 0 <= i < |a| && 0 <= j < |b| ==> a[i].0 != b[j].0
    ensures DistinctKeys(a + b)
  {
    var c := a + b;
    forall i, j | 0 <= i < j < |c| ensures c[i].0 != c[j].0 {
      if j < |a| {
        assert c[i] == a[i] && c[j] == a[j];
      } else if i >= |a| {
        assert c[i] == b[i - |a|] && c[j] == b[j - |a|];
      } else {
        assert c[i] == a[i] && c[j] == b[j - |a|];
      }
    }
  }

  // ---------------------------------------------------------------------------------------
  // Assignment, as a dictionary that remembers insertion order performs it

  /** `d[k] = v`: a key already present keeps its place and takes the new value; a new key goes last. */
  function Put<K(==), V>(d: seq<(K, V)>, k: K, v: V): seq<(K, V)>
    decreases |d|
  {
    if d == [] then [(k, v)]
    else if d[0].0 == k then [(k, v)] + d[1..]
    else [d[0]] + Put(d[1..], k, v)
  }

  /** `for k, v in ps: d[k] = v`; from an empty `d` this is `dict(ps)`. */
  function PutAll<K(==), V>(d: seq<(K, V)>, ps: seq<(K, V)>): seq<(K, V)>
    decreases |ps|
  {
    if ps == [] then d else PutAll(Put(d, ps[0].0, ps[0].1), ps[1..])
  }

  /** The keys `ks`, then each key of `ts` not seen before, in the order it first appears. */
  function FirstAppearances<K(==)>(ks: seq<K>, ts: seq<K>): seq<K>
    decreases |ts|
  {
    if ts == [] then ks else FirstAppearances(if ts[0] in ks then ks else ks + [ts[0]], ts[1..])
  }

  predicate NoDuplicates<K(==)>(ks: seq<K>)
  {
    forall i, j :: 0 <= i < j < |ks| ==> ks[i] != ks[j]
  }

  lemma {:induction false} LookupKeys<K, V>(d: seq<(K, V)>, k: K)
    ensures Lookup(d, k).Some? <==> k in Keys(d)
    decreases |d|
  {
    if d != [] {
      LookupKeys(d[1..], k);
      assert Keys(d) == [d[0].0] + Keys(d[1..]);
    }
  }

  /** After `d[k] = v`, `k` holds `v` and every other key holds what it held. */
  lemma {:induction false} PutLookup<K, V>(d: seq<(K, V)>, k: K, v: V, j: K)
    ensures Lookup(Put(d, k, v), j) == if j == k then Some(v) else Lookup(d, j)
    decreases |d|
  {
    if d != [] && d[0].0 != k {
      PutLookup(d[1..], k, v, j);
      assert ([d[0]] + Put(d[1..], k, v))[1..] == Put(d[1..], k, v);
    }
  }

  /** Assignment adds its key at the end when it is new and leaves the key order alone otherwise. */
  lemma {:induction false} PutKeys<K, V>(d: seq<(K, V)>, k: K, v: V)
    ensures Keys(Put(d, k, v)) == if k in Keys(d) then Keys(d) else Keys(d) + [k]
    decreases |d|
  {
    if d != [] {
      assert Keys(d) == [d[0].0] + Keys(d[1..]);
      if d[0].0 != k {
        PutKeys(d[1..], k, v);
        assert Keys([d[0]] + Put(d[1..], k, v)) == [d[0].0] + Keys(Put(d[1..], k, v));
      } else {
        assert Keys([(k, v)] + d[1..]) == [k] + Keys(d[1..]);
      }
    }
  }

  lemma {:induction false} PutNew<K, V>(d: seq<(K, V)>, k: K, v: V)
    requires Lookup(d, k).None?
    ensures Put(d, k, v) == d + [(k, v)]
    decreases |d|
  {
    if d != [] {
      PutNew(d[1..], k, v);
      assert d == [d[0]] + d[1..];
    }
  }

  lemma DistinctKeysNoDuplicates<K, V>(d: seq<(K, V)>)
    ensures DistinctKeys(d) <==> NoDuplicates(Keys(d))
  {
    var ks := Keys(d);
    assert forall i :: 0 <= i < |d| ==> ks[i] == d[i].0;
  }

  /** Keys after a run of assignments: the old keys, then the new ones in first-appearance order. */
  lemma {:induction false} PutAllKeys<K, V>(d: seq<(K, V)>, ps: seq<(K, V)>)
    ensures Keys(PutAll(d, ps)) == FirstAppearances(Keys(d), Keys(ps))
    decreases |ps|
  {
    if ps != [] {
      PutKeys(d, ps[0].0, ps[0].1);
      PutAllKeys(Put(d, ps[0].0, ps[0].1), ps[1..]);
      assert Keys(ps)[0] == ps[0].0 && Keys(ps)[1..] == Keys(ps[1..]);
    }
  }

  /** A key no later pair assigns keeps the value it had. */
  lemma {:induction false} PutAllUntouched<K, V>(d: seq<(K, V)>, ps: seq<(K, V)>, k: K)
    requires forall i :: 0 <= i < |ps| ==> ps[i].0 != k
    ensures Lookup(PutAll(d, ps), k) == Lookup(d, k)
    decreases |ps|
  {
    if ps != [] {
      PutLookup(d, ps[0].0, ps[0].1, k);
      assert forall i :: 0 <= i < |ps[1..]| ==> ps[1..][i].0 != k by {
        forall i | 0 <= i < |ps[1..]| ensures ps[1..][i].0 != k { assert ps[1..][i] == ps[i + 1]; }
      }
      PutAllUntouched(Put(d, ps[0].0, ps[0].1), ps[1..], k);
    }
  }

  /** The value under a key is the one of the LAST pair carrying that key. */
  lemma {:induction false} PutAllLastWins<K, V>(d: seq<(K, V)>, ps: seq<(K, V)>, i: nat)
    requires i < |ps|
    requires forall j :: i < j < |ps| ==> ps[j].0 != ps[i].0
    ensures Lookup(PutAll(d, ps), ps[i].0) == Some(ps[i].1)
    decreases |ps|
  {
    var d1 := Put(d, ps[0].0, ps[0].1);
    if i == 0 {
      PutLookup(d, ps[0].0, ps[0].1, ps[0].0);
      assert forall j :: 0 <= j < |ps[1..]| ==> ps[1..][j].0 != ps[0].0 by {
        forall j | 0 <= j < |ps[1..]| ensures ps[1..][j].0 != ps[0].0 { assert ps[1..][j] == ps[j + 1]; }
      }
      PutAllUntouched(d1, ps[1..], ps[0].0);
    } else {
      assert ps[1..][i - 1] == ps[i];
      assert forall j :: i - 1 < j < |ps[1..]| ==> ps[1..][j].0 != ps[1..][i - 1].0 by {
        forall j | i - 1 < j < |ps[1..]| ensures ps[1..][j].0 != ps[1..][i - 1].0 { assert ps[1..][j] == ps[j + 1]; }
      }
      PutAllLastWins(d1, ps[1..], i - 1);
    }
  }

  /** Pairs with distinct keys, none of them already in `d`, are appended as they are. */
  lemma {:induction false} PutAllFresh<K, V>(d: seq<(K, V)>, ps: seq<(K, V)>)
    requires DistinctKeys(d + ps)
    ensures PutAll(d, ps) == d + ps
    decreases |ps|
  {
    if ps == [] {
      assert d + ps == d;
    } else {
      var c := d + ps;
      forall i | 0 <= i < |d| ensures d[i].0 != ps[0].0 {
        assert c[i] == d[i] && c[|d|] == ps[0];
      }
      LookupMissing(d, ps[0].0);
      PutNew(d, ps[0].0, ps[0].1);
      assert (d + [ps[0]]) + ps[1..] == c;
      PutAllFresh(d + [ps[0]], ps[1..]);
    }
  }

  /** First appearances start with `ks`, contain each key once, and contain exactly the keys given. */
  lemma {:induction false} FirstAppearancesFacts<K>(ks: seq<K>, ts: seq<K>, x: K)
    requires NoDuplicates(ks)
    ensures var fs := FirstAppearances(ks, ts);
            ks <= fs && NoDuplicates(fs) && (x in fs <==> x in ks || x in ts)
    decreases |ts|
  {
    if ts != [] {
      var ks1 := if ts[0] in ks then ks else ks + [ts[0]];
      if ts[0] !in ks {
        forall i, j | 0 <= i < j < |ks1| ensures ks1[i] != ks1[j] {
          if j == |ks| { assert ks1[i] == ks[i]; }
        }
      }
      FirstAppearancesFacts(ks1, ts[1..], x);
      assert ts == [ts[0]] + ts[1..];
    }
  }
}
