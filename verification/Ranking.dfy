/** `sorted(pairs, key=score, reverse=True)`: descending by score, and stable, so that equal
    scores keep the order they came in. */
module Ranking {

  type Scored<T> = (T, real)

  function Insert<T>(x: Scored<T>, ys: seq<Scored<T>>): seq<Scored<T>> {
    if ys == [] || ys[0].1 <= x.1 then [x] + ys else [ys[0]] + Insert(x, ys[1..])
  }

  function Ranked<T>(xs: seq<Scored<T>>): seq<Scored<T>> {
    if xs == [] then [] else Insert(xs[0], Ranked(xs[1..]))
  }

  ghost predicate Descending<T>(xs: seq<Scored<T>>) {
    forall i, j :: 0 <= i < j < |xs| ==> xs[i].1 >= xs[j].1
  }

  /** The entries with score `r`, in order. */
  function WithScore<T>(xs: seq<Scored<T>>, r: real): seq<Scored<T>> {
    if xs == [] then []
    else if xs[0].1 == r then [xs[0]] + WithScore(xs[1..], r)
    else WithScore(xs[1..], r)
  }

  lemma {:induction false} InsertPermutes<T>(x: Scored<T>, ys: seq<Scored<T>>)
    ensures multiset(Insert(x, ys)) == multiset{x} + multiset(ys)
  {
    if ys != [] && ys[0].1 > x.1 {
      InsertPermutes(x, ys[1..]);
      assert ys == [ys[0]] + ys[1..];
    }
  }

  ghost predicate AllAtMost<T>(xs: seq<Scored<T>>, b: real) {
    forall i :: 0 <= i < |xs| ==> xs[i].1 <= b
  }

  lemma {:induction false} InsertDescends<T>(x: Scored<T>, ys: seq<Scored<T>>, b: real)
    requires Descending(ys) && x.1 <= b && AllAtMost(ys, b)
    ensures Descending(Insert(x, ys)) && AllAtMost(Insert(x, ys), b)
  {
    if ys != [] && ys[0].1 > x.1 {
      InsertDescends(x, ys[1..], ys[0].1);
    }
  }

  lemma {:induction false} InsertStable<T>(x: Scored<T>, ys: seq<Scored<T>>, r: real)
    ensures WithScore(Insert(x, ys), r) == if x.1 == r then [x] + WithScore(ys, r) else WithScore(ys, r)
  {
    if ys == [] || ys[0].1 <= x.1 {
      assert ([x] + ys)[1..] == ys;
    } else {
      InsertStable(x, ys[1..], r);
      assert Insert(x, ys)[1..] == Insert(x, ys[1..]);
    }
  }

  /** The ranking is a permutation, in descending order, that keeps the order of equal scores. */
  lemma {:induction false} RankedIsStable<T>(xs: seq<Scored<T>>, r: real)
    ensures Descending(Ranked(xs)) && multiset(Ranked(xs)) == multiset(xs) && |Ranked(xs)| == |xs|
    ensures WithScore(Ranked(xs), r) == WithScore(xs, r)
  {
    if xs != [] {
      var rest := Ranked(xs[1..]);
      RankedIsStable(xs[1..], r);
      InsertPermutes(xs[0], rest);
      InsertDescends(xs[0], rest, if rest != [] && rest[0].1 > xs[0].1 then rest[0].1 else xs[0].1);
      InsertStable(xs[0], rest, r);
      assert xs == [xs[0]] + xs[1..];
      assert |multiset(Ranked(xs))| == |Ranked(xs)|;
    }
  }

  /** These properties leave no choice: any other list that has them is this one. */
  lemma {:induction false} RankedIsUnique<T>(xs: seq<Scored<T>>, ys: seq<Scored<T>>)
    requires Descending(xs) && Descending(ys) && multiset(xs) == multiset(ys)
    requires forall r :: WithScore(xs, r) == WithScore(ys, r)
    ensures xs == ys
  {
    if xs == [] {
      assert |multiset(ys)| == 0;
    } else {
      SameHead(xs, ys);
      TailContents(xs);
      TailContents(ys);
      forall r ensures WithScore(xs[1..], r) == WithScore(ys[1..], r) {
        SameTail(xs, ys, r);
      }
      RankedIsUnique(xs[1..], ys[1..]);
    }
  }

  lemma TailContents<T>(xs: seq<T>)
    requires xs != []
    ensures multiset(xs[1..]) == multiset(xs) - multiset{xs[0]}
  {
    assert xs == [xs[0]] + xs[1..];
  }

  lemma SameHead<T>(xs: seq<Scored<T>>, ys: seq<Scored<T>>)
    requires Descending(xs) && Descending(ys) && multiset(xs) == multiset(ys) && xs != []
    requires forall r :: WithScore(xs, r) == WithScore(ys, r)
    ensures ys != [] && ys[0] == xs[0]
  {
    assert |multiset(ys)| == |xs|;
    var x, y := xs[0], ys[0];
    assert x in multiset(ys) && y in multiset(xs);
    var i :| 0 <= i < |ys| && ys[i] == x;
    var j :| 0 <= j < |xs| && xs[j] == y;
    assert x.1 == y.1;
    assert WithScore(xs, x.1)[0] == x && WithScore(ys, x.1)[0] == y;
  }

  lemma SameTail<T>(xs: seq<Scored<T>>, ys: seq<Scored<T>>, r: real)
    requires xs != [] && ys != [] && xs[0] == ys[0] && WithScore(xs, r) == WithScore(ys, r)
    ensures WithScore(xs[1..], r) == WithScore(ys[1..], r)
  {
    var head := if xs[0].1 == r then [xs[0]] else [];
    assert WithScore(xs[1..], r) == WithScore(xs, r)[|head|..];
    assert WithScore(ys[1..], r) == WithScore(ys, r)[|head|..];
  }

  function Zip<T>(xs: seq<T>, scores: seq<real>): (zs: seq<Scored<T>>)
    requires |xs| == |scores|
    ensures |zs| == |xs| && forall i :: 0 <= i < |xs| ==> zs[i] == (xs[i], scores[i])
  {
    seq(|xs|, i requires 0 <= i < |xs| => (xs[i], scores[i]))
  }

  /** How many of `n` items `xs[:limit]` has: a negative limit counts from the end. */
  function Kept(n: nat, limit: int): (k: nat)
    ensures k <= n
    ensures limit >= 0 ==> k == n || k == limit
    ensures limit < 0 ==> k == 0 || n - k == -limit
    ensures k == n <==> n == 0 || limit >= n
    ensures k == 0 <==> n == 0 || limit == 0 || n + limit <= 0
  {
    if limit >= n then n
    else if limit >= 0 then limit
    else if n + limit >= 0 then n + limit
    else 0
  }

  function Upto<T>(xs: seq<T>, limit: int): seq<T> { xs[..Kept(|xs|, limit)] }
}
