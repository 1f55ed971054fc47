/** Python dictionaries: association lists in insertion order. Assigning to a present key keeps
    its position; a removed key that comes back goes to the end. */
module PyDict {
  import opened Wrappers

  type Dict<K, V> = seq<(K, V)>

  function Get<K(==), V>(d: Dict<K, V>, k: K): Option<V> {
    if d == [] then None else if d[0].0 == k then Some(d[0].1) else Get(d[1..], k)
  }

  /** `d.get(k, default)`. */
  function GetOr<K(==), V>(d: Dict<K, V>, k: K, default: V): V {
    match Get(d, k)
    case None => default
    case Some(v) => v
  }

  /** `d[k] = v`. */
  function Set<K(==), V>(d: Dict<K, V>, k: K, v: V): Dict<K, V> {
    if d == [] then [(k, v)]
    else if d[0].0 == k then [(k, v)] + d[1..]
    else [d[0]] + Set(d[1..], k, v)
  }

  /** `d.pop(k, None)`. */
  function Pop<K(==), V>(d: Dict<K, V>, k: K): Dict<K, V> {
    if d == [] then []
    else if d[0].0 == k then d[1..]
    else [d[0]] + Pop(d[1..], k)
  }

  function Keys<K, V>(d: Dict<K, V>): (ks: seq<K>)
    ensures |ks| == |d| && forall i :: 0 <= i < |d| ==> ks[i] == d[i].0
  {
    seq(|d|, i requires 0 <= i < |d| => d[i].0)
  }

  function Values<K, V>(d: Dict<K, V>): (vs: seq<V>)
    ensures |vs| == |d| && forall i :: 0 <= i < |d| ==> vs[i] == d[i].1
  {
    seq(|d|, i requires 0 <= i < |d| => d[i].1)
  }

  /** No key twice: what makes an association list a dictionary. */
  ghost predicate Unique<K, V>(d: Dict<K, V>) {
    forall i, j :: 0 <= i < j < |d| ==> d[i].0 != d[j].0
  }

  lemma {:induction false} GetMeans<K, V>(d: Dict<K, V>, k: K)
    ensures Get(d, k) == None <==> forall i :: 0 <= i < |d| ==> d[i].0 != k
    ensures Get(d, k).Some? ==> exists i :: 0 <= i < |d| && d[i] == (k, Get(d, k).value)
  {
    if d != [] && d[0].0 != k {
      GetMeans(d[1..], k);
      if Get(d, k).Some? {
        var i :| 0 <= i < |d[1..]| && d[1..][i] == (k, Get(d, k).value);
        assert d[i + 1] == (k, Get(d, k).value);
      }
      if Get(d, k) == None {
        forall i | 0 <= i < |d| ensures d[i].0 != k {
          if i > 0 { assert d[i] == d[1..][i - 1]; }
        }
      }
    }
  }

  lemma {:induction false} GetAt<K, V>(d: Dict<K, V>, i: nat)
    requires Unique(d) && i < |d|
    ensures Get(d, d[i].0) == Some(d[i].1)
  {
    if i > 0 {
      GetAt(d[1..], i - 1);
    }
  }

  lemma {:induction false} GetSet<K, V>(d: Dict<K, V>, k: K, v: V, j: K)
    ensures Get(Set(d, k, v), j) == if j == k then Some(v) else Get(d, j)
  {
    if d != [] && d[0].0 != k {
      GetSet(d[1..], k, v, j);
      assert Set(d, k, v)[1..] == Set(d[1..], k, v);
    }
  }

  lemma {:induction false} GetPop<K, V>(d: Dict<K, V>, k: K, j: K)
    requires Unique(d)
    ensures Get(Pop(d, k), j) == if j == k then None else Get(d, j)
  {
    if d != [] {
      if d[0].0 != k {
        GetPop(d[1..], k, j);
        assert Pop(d, k)[1..] == Pop(d[1..], k);
      } else if j == k {
        GetMeans(d[1..], k);
      }
    }
  }

  /** Where a key goes: it keeps its place, or comes last. */
  lemma {:induction false} SetShape<K, V>(d: Dict<K, V>, k: K, v: V)
    ensures Get(d, k) == None ==> Set(d, k, v) == d + [(k, v)]
    ensures Get(d, k).Some? ==> |Set(d, k, v)| == |d|
    ensures Get(d, k).Some? ==> forall i :: 0 <= i < |d| ==> Set(d, k, v)[i].0 == d[i].0
    ensures Get(d, k).Some? ==> forall i :: 0 <= i < |d| ==> Set(d, k, v)[i] == d[i] || Set(d, k, v)[i] == (k, v)
  {
    if d != [] && d[0].0 != k {
      SetShape(d[1..], k, v);
    }
  }

  lemma SetUnique<K, V>(d: Dict<K, V>, k: K, v: V)
    requires Unique(d)
    ensures Unique(Set(d, k, v))
  {
    SetShape(d, k, v);
    GetMeans(d, k);
  }

  /** `r` is `d` without its `i`-th entry. */
  ghost predicate Without<K, V>(d: Dict<K, V>, i: int, r: Dict<K, V>) {
    0 <= i < |d| && r == d[..i] + d[i + 1..]
  }

  lemma WithoutLater<K, V>(d: Dict<K, V>, i: int, r: Dict<K, V>)
    requires d != [] && Without(d[1..], i, r)
    ensures Without(d, i + 1, [d[0]] + r)
  {
    assert d[..i + 1] == [d[0]] + d[1..][..i];
    assert d[i + 2..] == d[1..][i + 1..];
  }

  /** Removing a key removes its entry and keeps the order of the others. */
  lemma {:induction false} PopShape<K, V>(d: Dict<K, V>, k: K)
    ensures Get(d, k) == None ==> Pop(d, k) == d
    ensures Get(d, k).Some? ==> exists i :: Without(d, i, Pop(d, k)) && d[i].0 == k
  {
    if d != [] {
      if d[0].0 == k {
        assert Without(d, 0, Pop(d, k));
      } else {
        PopShape(d[1..], k);
        if Get(d, k).Some? {
          var i :| Without(d[1..], i, Pop(d[1..], k)) && d[1..][i].0 == k;
          WithoutLater(d, i, Pop(d[1..], k));
        }
      }
    }
  }

  lemma PopUnique<K, V>(d: Dict<K, V>, k: K)
    requires Unique(d)
    ensures Unique(Pop(d, k))
  {
    PopShape(d, k);
  }

  // ---- Dictionaries of dictionaries -------------------------------------------------------------

  type Nested<A, B, C> = Dict<A, Dict<B, C>>

  ghost predicate NestedUnique<A, B, C>(d: Nested<A, B, C>) {
    Unique(d) && forall i :: 0 <= i < |d| ==> Unique(d[i].1)
  }

  /** `d.setdefault(a, {})[b] = c`. */
  function Put<A(==), B(==), C>(d: Nested<A, B, C>, a: A, b: B, c: C): Nested<A, B, C> {
    Set(d, a, Set(GetOr(d, a, []), b, c))
  }

  /** `d.get(a, {}).pop(b, None)`: an absent outer key stays absent. */
  function Remove<A(==), B(==), C>(d: Nested<A, B, C>, a: A, b: B): Nested<A, B, C> {
    match Get(d, a)
    case None => d
    case Some(inner) => Set(d, a, Pop(inner, b))
  }

  lemma {:induction false} GetInner<A, B, C>(d: Nested<A, B, C>, a: A)
    requires NestedUnique(d)
    ensures Unique(GetOr(d, a, []))
  {
    GetMeans(d, a);
  }

  lemma SetNestedUnique<A, B, C>(d: Nested<A, B, C>, a: A, inner: Dict<B, C>)
    requires NestedUnique(d) && Unique(inner)
    ensures NestedUnique(Set(d, a, inner))
  {
    SetUnique(d, a, inner);
    SetShape(d, a, inner);
  }

  lemma PutUnique<A, B, C>(d: Nested<A, B, C>, a: A, b: B, c: C)
    requires NestedUnique(d)
    ensures NestedUnique(Put(d, a, b, c))
  {
    GetInner(d, a);
    SetUnique(GetOr(d, a, []), b, c);
    SetNestedUnique(d, a, Set(GetOr(d, a, []), b, c));
  }

  lemma RemoveUnique<A, B, C>(d: Nested<A, B, C>, a: A, b: B)
    requires NestedUnique(d)
    ensures NestedUnique(Remove(d, a, b))
  {
    GetInner(d, a);
    if Get(d, a).Some? {
      PopUnique(Get(d, a).value, b);
      SetNestedUnique(d, a, Pop(Get(d, a).value, b));
    }
  }

  function RowsOf<A, B, C>(a: A, inner: Dict<B, C>): (rows: seq<(A, B, C)>)
    ensures |rows| == |inner|
    ensures forall i :: 0 <= i < |inner| ==> rows[i] == (a, inner[i].0, inner[i].1)
  {
    seq(|inner|, i requires 0 <= i < |inner| => (a, inner[i].0, inner[i].1))
  }

  /** All entries, outer key by outer key. */
  function Flatten<A, B, C>(d: Nested<A, B, C>): seq<(A, B, C)> {
    if d == [] then [] else Flatten(d[..|d| - 1]) + RowsOf(d[|d| - 1].0, d[|d| - 1].1)
  }

  /** Putting rows back one by one. */
  function Rebuild<A(==), B(==), C>(d: Nested<A, B, C>, rows: seq<(A, B, C)>): Nested<A, B, C> {
    if rows == [] then d
    else
      var row := rows[|rows| - 1];
      Put(Rebuild(d, rows[..|rows| - 1]), row.0, row.1, row.2)
  }

  function DropEmpty<A, B, C>(d: Nested<A, B, C>): Nested<A, B, C> {
    if d == [] then []
    else DropEmpty(d[..|d| - 1]) + if d[|d| - 1].1 == [] then [] else [d[|d| - 1]]
  }

  lemma {:induction false} RebuildConcat<A, B, C>(d: Nested<A, B, C>, r: seq<(A, B, C)>, q: seq<(A, B, C)>)
    ensures Rebuild(d, r + q) == Rebuild(Rebuild(d, r), q)
  {
    if q == [] {
      assert r + q == r;
    } else {
      assert (r + q)[..|r + q| - 1] == r + q[..|q| - 1];
      RebuildConcat(d, r, q[..|q| - 1]);
    }
  }

  lemma {:induction false} GetConcat<K, V>(d: Dict<K, V>, e: Dict<K, V>, k: K)
    ensures Get(d + e, k) == if Get(d, k).Some? then Get(d, k) else Get(e, k)
  {
    if d == [] {
      assert d + e == e;
    } else {
      assert (d + e)[1..] == d[1..] + e;
      GetConcat(d[1..], e, k);
    }
  }

  lemma {:induction false} SetConcat<K, V>(d: Dict<K, V>, e: Dict<K, V>, k: K, v: V)
    requires Get(d, k) == None
    ensures Set(d + e, k, v) == d + Set(e, k, v)
  {
    if d == [] {
      assert d + e == e;
    } else {
      assert (d + e)[1..] == d[1..] + e;
      SetConcat(d[1..], e, k, v);
    }
  }

  /** The rows of one outer key rebuild its entry at the end. */
  lemma {:induction false} RebuildRows<A, B, C>(d: Nested<A, B, C>, a: A, inner: Dict<B, C>)
    requires Get(d, a) == None && Unique(inner)
    ensures Rebuild(d, RowsOf(a, inner)) == d + if inner == [] then [] else [(a, inner)]
  {
    if inner != [] {
      var n := |inner| - 1;
      var init, last := inner[..n], inner[n];
      assert RowsOf(a, inner)[..n] == RowsOf(a, init);
      RebuildRows(d, a, init);
      GetMeans(init, last.0);
      SetShape(init, last.0, last.1);
      assert init + [last] == inner;
      GetConcat(d, [(a, init)], a);
      SetConcat(d, [(a, init)], a, inner);
      SetShape(d, a, inner);
      assert Set([(a, init)], a, inner) == [(a, inner)];
    }
  }

  lemma {:induction false} DropEmptyGet<A, B, C>(d: Nested<A, B, C>, a: A)
    requires Unique(d)
    ensures Get(DropEmpty(d), a) == if Get(d, a) == Some([]) then None else Get(d, a)
  {
    if d != [] {
      var n := |d| - 1;
      var last := d[n];
      assert d == d[..n] + [last];
      DropEmptyGet(d[..n], a);
      GetConcat(d[..n], [last], a);
      GetConcat(DropEmpty(d[..n]), if last.1 == [] then [] else [last], a);
      GetMeans(d[..n], a);
    }
  }

  /** Flattening and rebuilding loses exactly the outer keys with nothing under them, and keeps
      every order. */
  lemma {:induction false} RebuildFlatten<A, B, C>(d: Nested<A, B, C>)
    requires NestedUnique(d)
    ensures Rebuild([], Flatten(d)) == DropEmpty(d)
  {
    if d != [] {
      var n := |d| - 1;
      var init, last := d[..n], d[n];
      RebuildFlatten(init);
      RebuildConcat([], Flatten(init), RowsOf(last.0, last.1));
      GetMeans(init, last.0);
      DropEmptyGet(init, last.0);
      RebuildRows(DropEmpty(init), last.0, last.1);
    }
  }

  lemma DropEmptyGetOr<A, B, C>(d: Nested<A, B, C>, a: A)
    requires Unique(d)
    ensures GetOr(DropEmpty(d), a, []) == GetOr(d, a, [])
  {
    DropEmptyGet(d, a);
  }

  /** Every flattened row is an entry. */
  lemma {:induction false} FlattenedIsEntry<A, B, C>(d: Nested<A, B, C>, r: nat)
    requires NestedUnique(d) && r < |Flatten(d)|
    ensures var row := Flatten(d)[r];
            Get(GetOr(d, row.0, []), row.1) == Some(row.2)
  {
    var n := |d| - 1;
    var init, last := d[..n], d[n];
    assert d == init + [last];
    GetConcat(init, [last], Flatten(d)[r].0);
    if r < |Flatten(init)| {
      FlattenedIsEntry(init, r);
    } else {
      GetMeans(init, last.0);
      GetAt(last.1, r - |Flatten(init)|);
    }
  }
}
