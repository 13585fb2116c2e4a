/** `d3.nest().key(f).entries(xs)`, the grouping step used twice by
    `makeNestedData`: records by plot name, and a cell's records by colour
    value. Its input is given as (key, value) pairs, one per element of `xs`
    in order; its result is one entry per distinct key, in the order each key
    was first seen, holding that key's values in input order. */
module Nesting {

  datatype Entry<K, T> = Entry(key: K, values: seq<T>)

  /** Position of the first `k` in `s`, or `|s|` when `k` does not occur. */
  function IndexOf<K(==)>(s: seq<K>, k: K): (i: nat)
    ensures i <= |s|
    ensures i < |s| ==> s[i] == k
    ensures forall j :: 0 <= j < i ==> s[j] != k
  {
    if |s| == 0 then 0
    else if s[0] == k then 0
    else 1 + IndexOf(s[1..], k)
  }

  function PairKeys<K, T>(ps: seq<(K, T)>): (ks: seq<K>)
    ensures |ks| == |ps|
  {
    seq(|ps|, i requires 0 <= i < |ps| => ps[i].0)
  }

  function PairValues<K, T>(ps: seq<(K, T)>): (vs: seq<T>)
    ensures |vs| == |ps|
  {
    seq(|ps|, i requires 0 <= i < |ps| => ps[i].1)
  }

  function EntryKeys<K, T>(es: seq<Entry<K, T>>): (ks: seq<K>)
    ensures |ks| == |es|
  {
    seq(|es|, i requires 0 <= i < |es| => es[i].key)
  }

  /** Adds one value under key `k`: to the existing entry for `k`, or as a new
      last entry when `k` has none yet. */
  function Add<K(==), T>(es: seq<Entry<K, T>>, k: K, v: T): seq<Entry<K, T>> {
    var i := IndexOf(EntryKeys(es), k);
    if i == |es| then es + [Entry(k, [v])]
    else es[i := Entry(k, es[i].values + [v])]
  }

  /** The entries of the pairs `ps`, adding one pair at a time. */
  function Nest<K(==), T>(ps: seq<(K, T)>): seq<Entry<K, T>> {
    if |ps| == 0 then []
    else Add(Nest(ps[..|ps| - 1]), ps[|ps| - 1].0, ps[|ps| - 1].1)
  }

  /** The values whose key is `k`, in input order: an independent reference
      for what the entry of `k` should hold. */
  function Select<K(==), T>(ps: seq<(K, T)>, k: K): seq<T> {
    if |ps| == 0 then []
    else Select(ps[..|ps| - 1], k) + (if ps[|ps| - 1].0 == k then [ps[|ps| - 1].1] else [])
  }

  /** All entries' values, one entry after the other. */
  function Flatten<K, T>(es: seq<Entry<K, T>>): seq<T> {
    if |es| == 0 then []
    else Flatten(es[..|es| - 1]) + es[|es| - 1].values
  }

  ghost predicate Distinct<K>(s: seq<K>) {
    forall i, j :: 0 <= i < j < |s| ==> s[i] != s[j]
  }

  /** The position of a key in `s + [x]` is its position in `s` when it occurs
      there. */
  lemma IndexOfAppend<K>(s: seq<K>, x: K, k: K)
    ensures k in s ==> IndexOf(s + [x], k) == IndexOf(s, k)
    ensures k !in s && x == k ==> IndexOf(s + [x], k) == |s|
  {
    var a := IndexOf(s, k);
    if k in s {
      assert (s + [x])[a] == k;
    } else if x == k {
      assert (s + [x])[|s|] == k;
    }
  }

  /** The number of values under `k` is the number of pairs with key `k`. */
  lemma {:induction false} SelectCount<K, T>(ps: seq<(K, T)>, k: K)
    ensures |Select(ps, k)| == multiset(PairKeys(ps))[k]
  {
    if |ps| > 0 {
      var n := |ps| - 1;
      SelectCount(ps[..n], k);
      assert PairKeys(ps) == PairKeys(ps[..n]) + [ps[n].0];
    }
  }

  /** Every value under `k` comes from a pair with key `k`. */
  lemma {:induction false} SelectMembers<K, T>(ps: seq<(K, T)>, k: K)
    ensures forall v :: v in Select(ps, k) ==> (k, v) in ps
  {
    if |ps| > 0 {
      var n := |ps| - 1;
      SelectMembers(ps[..n], k);
      assert ps == ps[..n] + [ps[n]];
    }
  }

  /** Each key of the input has exactly one entry, and no other key has one. */
  lemma {:induction false} NestKeys<K, T>(ps: seq<(K, T)>)
    ensures Distinct(EntryKeys(Nest(ps)))
    ensures forall k :: k in EntryKeys(Nest(ps)) <==> k in PairKeys(ps)
  {
    if |ps| > 0 {
      var n := |ps| - 1;
      var q, k0, v0 := ps[..n], ps[n].0, ps[n].1;
      var es := Nest(q);
      NestKeys(q);
      assert PairKeys(ps) == PairKeys(q) + [k0];
      var i0 := IndexOf(EntryKeys(es), k0);
      if i0 == |es| {
        assert EntryKeys(Nest(ps)) == EntryKeys(es) + [k0];
      } else {
        assert EntryKeys(Nest(ps)) == EntryKeys(es);
      }
    }
  }

  /** Each entry holds exactly the values with its key, in input order, and
      at least one. */
  lemma {:induction false} NestValues<K, T>(ps: seq<(K, T)>)
    ensures forall i :: 0 <= i < |Nest(ps)| ==>
              Nest(ps)[i].values == Select(ps, Nest(ps)[i].key) && Nest(ps)[i].values != []
  {
    if |ps| > 0 {
      var n := |ps| - 1;
      var q, k0, v0 := ps[..n], ps[n].0, ps[n].1;
      var es := Nest(q);
      NestValues(q);
      NestKeys(q);
      var r := Nest(ps);
      var i0 := IndexOf(EntryKeys(es), k0);
      if i0 == |es| {
        assert k0 !in EntryKeys(es);
        assert k0 !in PairKeys(q);
        SelectCount(q, k0);
        assert Select(q, k0) == [];
        forall i | 0 <= i < |r|
          ensures r[i].values == Select(ps, r[i].key) && r[i].values != []
        {
          if i < |es| {
            assert r[i] == es[i];
            assert EntryKeys(es)[i] == es[i].key;
            assert Select(ps, es[i].key) == Select(q, es[i].key);
          } else {
            assert r[i] == Entry(k0, [v0]);
            assert Select(ps, k0) == Select(q, k0) + [v0];
          }
        }
      } else {
        forall i | 0 <= i < |r|
          ensures r[i].values == Select(ps, r[i].key) && r[i].values != []
        {
          if i != i0 {
            assert r[i] == es[i];
            assert EntryKeys(es)[i] != EntryKeys(es)[i0];
            assert Select(ps, es[i].key) == Select(q, es[i].key);
          } else {
            assert Select(ps, k0) == Select(q, k0) + [v0];
          }
        }
      }
    }
  }

  /** Every value of an entry comes from an input pair with the entry's key. */
  lemma NestMembers<K, T>(ps: seq<(K, T)>)
    ensures forall i, v :: 0 <= i < |Nest(ps)| && v in Nest(ps)[i].values ==> (Nest(ps)[i].key, v) in ps
  {
    NestValues(ps);
    forall i, v | 0 <= i < |Nest(ps)| && v in Nest(ps)[i].values
      ensures (Nest(ps)[i].key, v) in ps
    {
      SelectMembers(ps, Nest(ps)[i].key);
    }
  }

  /** Entries come in the order in which their keys first occur in the input. */
  lemma {:induction false} NestFirstSeen<K, T>(ps: seq<(K, T)>)
    ensures forall i, j :: 0 <= i < j < |Nest(ps)| ==>
              IndexOf(PairKeys(ps), Nest(ps)[i].key) < IndexOf(PairKeys(ps), Nest(ps)[j].key)
  {
    if |ps| > 0 {
      var n := |ps| - 1;
      var q, k0, v0 := ps[..n], ps[n].0, ps[n].1;
      var es := Nest(q);
      NestFirstSeen(q);
      NestKeys(q);
      assert PairKeys(ps) == PairKeys(q) + [k0];
      var r := Nest(ps);
      var i0 := IndexOf(EntryKeys(es), k0);
      forall i | 0 <= i < |es|
        ensures IndexOf(PairKeys(ps), es[i].key) == IndexOf(PairKeys(q), es[i].key) < n
      {
        assert EntryKeys(es)[i] == es[i].key;
        IndexOfAppend(PairKeys(q), k0, es[i].key);
      }
      if i0 == |es| {
        assert k0 !in EntryKeys(es);
        IndexOfAppend(PairKeys(q), k0, k0);
        forall i, j | 0 <= i < j < |r|
          ensures IndexOf(PairKeys(ps), r[i].key) < IndexOf(PairKeys(ps), r[j].key)
        {
          assert r[i] == es[i];
          if j < |es| {
            assert r[j] == es[j];
          }
        }
      } else {
        forall i, j | 0 <= i < j < |r|
          ensures IndexOf(PairKeys(ps), r[i].key) < IndexOf(PairKeys(ps), r[j].key)
        {
          assert r[i].key == es[i].key && r[j].key == es[j].key;
        }
      }
    }
  }

  /** Replacing one entry replaces its values in the flattened sequence. */
  lemma {:induction false} FlattenUpdate<K, T>(es: seq<Entry<K, T>>, i: nat, e: Entry<K, T>)
    requires i < |es|
    ensures multiset(Flatten(es[i := e])) + multiset(es[i].values) == multiset(Flatten(es)) + multiset(e.values)
  {
    var n := |es| - 1;
    if i == n {
      assert es[i := e][..n] == es[..n];
    } else {
      assert es[i := e][..n] == es[..n][i := e];
      assert es[i := e][n] == es[n];
      assert es[..n][i] == es[i];
      FlattenUpdate(es[..n], i, e);
      calc {
        multiset(Flatten(es[i := e])) + multiset(es[i].values);
        multiset(Flatten(es[..n][i := e]) + es[n].values) + multiset(es[i].values);
        multiset(Flatten(es[..n][i := e])) + multiset(es[..n][i].values) + multiset(es[n].values);
        multiset(Flatten(es[..n])) + multiset(e.values) + multiset(es[n].values);
        multiset(Flatten(es[..n]) + es[n].values) + multiset(e.values);
      }
    }
  }

  lemma Cancel<T>(a: multiset<T>, c: multiset<T>, b: multiset<T>)
    requires a + b == c + b
    ensures a == c
  {
    forall x ensures a[x] == c[x] {
      assert (a + b)[x] == (c + b)[x];
    }
  }

  /** No value is lost or duplicated: the entries hold exactly the input's
      values, as a multiset. */
  lemma {:induction false} NestPartition<K, T>(ps: seq<(K, T)>)
    ensures multiset(Flatten(Nest(ps))) == multiset(PairValues(ps))
  {
    if |ps| > 0 {
      var n := |ps| - 1;
      var q, k0, v0 := ps[..n], ps[n].0, ps[n].1;
      var es := Nest(q);
      NestPartition(q);
      assert PairValues(ps) == PairValues(q) + [v0];
      var i0 := IndexOf(EntryKeys(es), k0);
      if i0 == |es| {
        var r := es + [Entry(k0, [v0])];
        assert Nest(ps) == r;
        assert r[..|es|] == es;
        assert Flatten(r) == Flatten(es) + [v0];
      } else {
        var e := Entry(k0, es[i0].values + [v0]);
        assert Nest(ps) == es[i0 := e];
        FlattenUpdate(es, i0, e);
        assert multiset(e.values) == multiset(es[i0].values) + multiset{v0};
        assert multiset(Flatten(Nest(ps))) + multiset(es[i0].values)
            == multiset(Flatten(es)) + multiset{v0} + multiset(es[i0].values);
        Cancel(multiset(Flatten(Nest(ps))), multiset(Flatten(es)) + multiset{v0}, multiset(es[i0].values));
      }
    }
  }

  /** The total number of values in the entries is the number of pairs. */
  lemma NestSize<K, T>(ps: seq<(K, T)>)
    ensures |Flatten(Nest(ps))| == |ps|
  {
    NestPartition(ps);
    assert |multiset(Flatten(Nest(ps)))| == |multiset(PairValues(ps))|;
  }
}
