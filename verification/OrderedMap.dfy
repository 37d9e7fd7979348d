/** A map that remembers insertion order, as section 24.1 of ECMA-262 orders a Map:
    overwriting a key keeps its position, a deleted key comes back at the end. */
module OrderedMap {
  import opened Common

  predicate Distinct<K(==), V>(m: seq<(K, V)>) {
    forall i, j :: 0 <= i < j < |m| ==> m[i].0 != m[j].0
  }

  /** Where the key is, or `|m|`. */
  function IndexOf<K(==), V>(m: seq<(K, V)>, k: K): (i: nat)
    ensures i <= |m|
    ensures i < |m| ==> m[i].0 == k
    ensures forall j :: 0 <= j < i ==> m[j].0 != k
  {
    if m == [] || m[0].0 == k then 0 else 1 + IndexOf(m[1..], k)
  }

  predicate Has<K(==), V>(m: seq<(K, V)>, k: K) {
    IndexOf(m, k) < |m|
  }

  function Lookup<K(==), V>(m: seq<(K, V)>, k: K): Option<V> {
    if Has(m, k) then Some(m[IndexOf(m, k)].1) else None
  }

  function Put<K(==), V>(m: seq<(K, V)>, k: K, v: V): seq<(K, V)> {
    if Has(m, k) then m[IndexOf(m, k) := (k, v)] else m + [(k, v)]
  }

  function Remove<K(==), V>(m: seq<(K, V)>, k: K): seq<(K, V)> {
    if Has(m, k) then m[..IndexOf(m, k)] + m[IndexOf(m, k) + 1..] else m
  }

  lemma FoundAt<K, V>(m: seq<(K, V)>, i: nat)
    requires Distinct(m) && i < |m|
    ensures IndexOf(m, m[i].0) == i && Has(m, m[i].0) && Lookup(m, m[i].0) == Some(m[i].1)
  {
    assert m[IndexOf(m, m[i].0)].0 == m[i].0;
  }

  lemma PutLooksUp<K, V>(m: seq<(K, V)>, k: K, v: V)
    requires Distinct(m)
    ensures Distinct(Put(m, k, v))
    ensures |Put(m, k, v)| == |m| + if Has(m, k) then 0 else 1
    ensures forall x :: Lookup(Put(m, k, v), x) == if x == k then Some(v) else Lookup(m, x)
    ensures forall x :: Has(Put(m, k, v), x) <==> x == k || Has(m, x)
  {
    var t := Put(m, k, v);
    assert Distinct(t);
    forall x
      ensures Lookup(t, x) == if x == k then Some(v) else Lookup(m, x)
      ensures Has(t, x) <==> x == k || Has(m, x)
    {
      if Has(m, x) {
        var i := IndexOf(m, x);
        assert t[i].0 == x;
        FoundAt(t, i);
      } else if x == k {
        FoundAt(t, |m|);
      }
    }
  }

  /** Where the entry now at `i` stood before the one at `n` was taken out. */
  function Was(n: nat, i: nat): nat {
    if i < n then i else i + 1
  }

  lemma CutRow<T>(m: seq<T>, n: nat, i: nat)
    requires n < |m| && i < |m| - 1
    ensures |m[..n] + m[n + 1..]| == |m| - 1 && (m[..n] + m[n + 1..])[i] == m[Was(n, i)]
  {
  }

  lemma CutIsDistinct<K, V>(m: seq<(K, V)>, n: nat)
    requires Distinct(m) && n < |m|
    ensures Distinct(m[..n] + m[n + 1..])
  {
    var t := m[..n] + m[n + 1..];
    forall i, j | 0 <= i < j < |t| ensures t[i].0 != t[j].0 {
      CutRow(m, n, i);
      CutRow(m, n, j);
    }
  }

  lemma RemovedRows<K, V>(m: seq<(K, V)>, k: K)
    requires Distinct(m) && Has(m, k)
    ensures var t, n := Remove(m, k), IndexOf(m, k);
            && |t| == |m| - 1
            && Distinct(t)
            && (forall i :: 0 <= i < |t| ==> t[i] == m[Was(n, i)])
            && (forall i :: 0 <= i < |t| ==> t[i].0 != k)
  {
    var t, n := Remove(m, k), IndexOf(m, k);
    CutIsDistinct(m, n);
    forall i | 0 <= i < |t| ensures t[i] == m[Was(n, i)] && t[i].0 != k {
      CutRow(m, n, i);
      OtherKeys(m, n, Was(n, i));
    }
  }

  lemma OtherKeys<K, V>(m: seq<(K, V)>, n: nat, j: nat)
    requires Distinct(m) && n < |m| && j < |m| && j != n
    ensures m[j].0 != m[n].0
  {
  }

  lemma RemoveLooksUp<K, V>(m: seq<(K, V)>, k: K)
    requires Distinct(m)
    ensures Distinct(Remove(m, k))
    ensures |Remove(m, k)| == |m| - if Has(m, k) then 1 else 0
    ensures forall x :: Lookup(Remove(m, k), x) == if x == k then None else Lookup(m, x)
    ensures forall x :: Has(Remove(m, k), x) <==> x != k && Has(m, x)
  {
    if Has(m, k) {
      RemovedRows(m, k);
      forall x
        ensures Lookup(Remove(m, k), x) == if x == k then None else Lookup(m, x)
        ensures Has(Remove(m, k), x) <==> x != k && Has(m, x)
      {
        RemoveLooksUpOne(m, k, x);
      }
    }
  }

  lemma RemoveLooksUpOne<K, V>(m: seq<(K, V)>, k: K, x: K)
    requires Distinct(m) && Has(m, k)
    ensures Lookup(Remove(m, k), x) == if x == k then None else Lookup(m, x)
    ensures Has(Remove(m, k), x) <==> x != k && Has(m, x)
  {
    RemovedRows(m, k);
    if x != k {
      if Has(m, x) {
        StaysFound(m, k, IndexOf(m, x));
      } else {
        StaysAbsent(m, k, x);
      }
    }
  }

  lemma StaysFound<K, V>(m: seq<(K, V)>, k: K, j: nat)
    requires Distinct(m) && Has(m, k) && j < |m| && j != IndexOf(m, k)
    ensures Has(Remove(m, k), m[j].0) && Lookup(Remove(m, k), m[j].0) == Some(m[j].1)
  {
    var n := IndexOf(m, k);
    var i := if j < n then j else j - 1;
    RemovedRows(m, k);
    assert Remove(m, k)[i] == m[Was(n, i)] == m[j];
    FoundAt(Remove(m, k), i);
  }

  lemma StaysAbsent<K, V>(m: seq<(K, V)>, k: K, x: K)
    requires !Has(m, x)
    ensures !Has(Remove(m, k), x)
  {
    var t := Remove(m, k);
    var i := IndexOf(t, x);
    if i < |t| {
      RemoveKeepsRows(m, k, t[i]);
    }
  }

  lemma RemoveKeepsRows<K, V>(m: seq<(K, V)>, k: K, row: (K, V))
    requires row in Remove(m, k)
    ensures row in m
  {
    if Has(m, k) {
      assert row in m[..IndexOf(m, k)] || row in m[IndexOf(m, k) + 1..];
    }
  }

  // ---- Order ----

  function KeysOf<K, V>(m: seq<(K, V)>): seq<K> {
    seq(|m|, i requires 0 <= i < |m| => m[i].0)
  }

  /** A key that is there keeps its position, a new one goes to the end. */
  lemma PutKeepsOrder<K, V>(m: seq<(K, V)>, k: K, v: V)
    ensures KeysOf(Put(m, k, v)) == KeysOf(m) + if k in KeysOf(m) then [] else [k]
  {
    if Has(m, k) {
      assert KeysOf(m)[IndexOf(m, k)] == k;
    } else {
      assert forall j :: 0 <= j < |m| ==> KeysOf(m)[j] != k;
    }
  }

  /** The keys but for one, in order. */
  function Others<K(==)>(keys: seq<K>, k: K): seq<K> {
    if keys == [] then [] else (if keys[0] == k then [] else [keys[0]]) + Others(keys[1..], k)
  }

  lemma {:induction false} OthersOfAll<K>(keys: seq<K>, k: K)
    requires k !in keys
    ensures Others(keys, k) == keys
  {
    if keys != [] {
      OthersOfAll(keys[1..], k);
    }
  }

  lemma {:induction false} OthersWithout<K>(keys: seq<K>, n: nat, k: K)
    requires n < |keys| && keys[n] == k && k !in keys[..n] && k !in keys[n + 1..]
    ensures Others(keys, k) == keys[..n] + keys[n + 1..]
  {
    if n == 0 {
      OthersOfAll(keys[1..], k);
    } else {
      assert keys[1..][..n - 1] == keys[..n][1..] && keys[1..][n..] == keys[n + 1..];
      OthersWithout(keys[1..], n - 1, k);
      assert keys[0] in keys[..n];
    }
  }

  /** Deleting a key leaves the others in their order. */
  lemma RemoveKeepsOrder<K, V>(m: seq<(K, V)>, k: K)
    requires Distinct(m)
    ensures KeysOf(Remove(m, k)) == Others(KeysOf(m), k)
  {
    var keys, n := KeysOf(m), IndexOf(m, k);
    if Has(m, k) {
      assert keys[n] == k && forall j :: 0 <= j < |m| && j != n ==> keys[j] != k;
      OthersWithout(keys, n, k);
      assert KeysOf(Remove(m, k)) == keys[..n] + keys[n + 1..];
    } else {
      assert forall j :: 0 <= j < |m| ==> keys[j] != k;
      OthersOfAll(keys, k);
    }
  }
}
