/** A dictionary that remembers insertion order: distinct keys, oldest first. */
module OrderedDict {
  import opened Common

  ghost predicate Distinct<K, V>(d: seq<(K, V)>) {
    forall i, j :: 0 <= i < j < |d| ==> d[i].0 != d[j].0
  }

  /** Position of a key. */
  function At<K(==), V>(d: seq<(K, V)>, k: K): (i: Option<nat>)
    ensures i.Some? ==> i.value < |d| && d[i.value].0 == k
    ensures i.None? ==> forall j :: 0 <= j < |d| ==> d[j].0 != k
  {
    if d == [] then None
    else if At(d[..|d| - 1], k).Some? then At(d[..|d| - 1], k)
    else if d[|d| - 1].0 == k then Some(|d| - 1)
    else None
  }

  predicate Has<K(==), V>(d: seq<(K, V)>, k: K) { At(d, k).Some? }

  function Get<K(==), V>(d: seq<(K, V)>, k: K): (v: V)
    requires Has(d, k)
  {
    d[At(d, k).value].1
  }

  /** Overwrites in place, or appends. */
  function Put<K(==), V>(d: seq<(K, V)>, k: K, v: V): (r: seq<(K, V)>)
    requires Distinct(d)
    ensures Distinct(r)
  {
    if Has(d, k) then d[At(d, k).value := (k, v)] else d + [(k, v)]
  }

  function Del<K(==), V>(d: seq<(K, V)>, k: K): (r: seq<(K, V)>)
    requires Distinct(d)
    ensures Distinct(r)
  {
    if Has(d, k) then d[..At(d, k).value] + d[At(d, k).value + 1..] else d
  }

  lemma AtIs<K, V>(d: seq<(K, V)>, i: nat)
    requires Distinct(d) && i < |d|
    ensures At(d, d[i].0) == Some(i)
  {}

  /** What a key maps to after a write or a removal. */
  lemma PutGets<K, V>(d: seq<(K, V)>, k: K, v: V, x: K)
    requires Distinct(d)
    ensures Has(Put(d, k, v), x) <==> x == k || Has(d, x)
    ensures Has(Put(d, k, v), x) ==> Get(Put(d, k, v), x) == if x == k then v else Get(d, x)
  {
    var r := Put(d, k, v);
    if x == k {
      var i := if Has(d, k) then At(d, k).value else |d|;
      AtIs(r, i);
    } else if Has(d, x) {
      AtIs(r, At(d, x).value);
    }
  }

  lemma DelGets<K, V>(d: seq<(K, V)>, k: K, x: K)
    requires Distinct(d)
    ensures Has(Del(d, k), x) <==> x != k && Has(d, x)
    ensures Has(Del(d, k), x) ==> Get(Del(d, k), x) == Get(d, x)
  {
    var r := Del(d, k);
    if Has(d, k) {
      var n := At(d, k).value;
      if x != k && Has(d, x) {
        var i := At(d, x).value;
        AtIs(r, if i < n then i else i - 1);
      }
      assert forall j :: 0 <= j < |r| ==> r[j] == d[if j < n then j else j + 1];
    }
  }

  /** What a key maps to with one more entry at the end. */
  lemma SnocGets<K, V>(d: seq<(K, V)>, e: (K, V), k: K)
    requires Distinct(d + [e])
    ensures Distinct(d)
    ensures Has(d + [e], k) <==> Has(d, k) || e.0 == k
    ensures Has(d + [e], k) ==> Get(d + [e], k) == if e.0 == k then e.1 else Get(d, k)
  {
    var r := d + [e];
    assert forall i :: 0 <= i < |d| ==> r[i] == d[i];
    if e.0 == k {
      AtIs(r, |d|);
    } else if Has(d, k) {
      AtIs(r, At(d, k).value);
    }
  }

  // ------------------------------------------------------------------ sums over the values

  function Sum<K, V>(d: seq<(K, V)>, f: V -> int): int {
    if d == [] then 0 else Sum(d[..|d| - 1], f) + f(d[|d| - 1].1)
  }

  lemma {:induction false} SumConcat<K, V>(a: seq<(K, V)>, b: seq<(K, V)>, f: V -> int)
    ensures Sum(a + b, f) == Sum(a, f) + Sum(b, f)
  {
    if b == [] {
      assert a + b == a;
    } else {
      var n := |b| - 1;
      SumConcat(a, b[..n], f);
      assert (a + b)[..|a| + n] == a + b[..n];
    }
  }

  /** What the key contributed before. */
  function Value<K(==), V>(d: seq<(K, V)>, k: K, f: V -> int): int { if Has(d, k) then f(Get(d, k)) else 0 }

  lemma SumOne<K, V>(e: (K, V), f: V -> int)
    ensures Sum([e], f) == f(e.1)
  {
    assert [e][..0] == [];
  }

  lemma SumAround<K, V>(d: seq<(K, V)>, i: nat, f: V -> int)
    requires i < |d|
    ensures Sum(d, f) == Sum(d[..i], f) + f(d[i].1) + Sum(d[i + 1..], f)
  {
    CutAt(d, i);
    SumConcat(d[..i], d[i..], f);
    SumConcat([d[i]], d[i + 1..], f);
    SumOne(d[i], f);
  }

  lemma SumPut<K, V>(d: seq<(K, V)>, k: K, v: V, f: V -> int)
    requires Distinct(d)
    ensures Sum(Put(d, k, v), f) == Sum(d, f) - Value(d, k, f) + f(v)
  {
    var r := Put(d, k, v);
    if Has(d, k) {
      var i := At(d, k).value;
      SumAround(d, i, f);
      SumAround(r, i, f);
      assert r[..i] == d[..i] && r[i + 1..] == d[i + 1..];
    } else {
      assert r[..|d|] == d;
    }
  }

  lemma SumDel<K, V>(d: seq<(K, V)>, k: K, f: V -> int)
    requires Distinct(d)
    ensures Sum(Del(d, k), f) == Sum(d, f) - Value(d, k, f)
  {
    if Has(d, k) {
      var i := At(d, k).value;
      SumAround(d, i, f);
      SumConcat(d[..i], d[i + 1..], f);
    }
  }
}
