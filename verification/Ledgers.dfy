/** How many entries of a table satisfy a predicate, and how that number moves when one
    entry of the table changes. The step machines state their conservation laws with it. */
module Ledgers {

  ghost function Tally<P>(ps: seq<P>, g: P -> bool): nat {
    if ps == [] then 0 else Tally(ps[..|ps| - 1], g) + if g(ps[|ps| - 1]) then 1 else 0
  }

  lemma {:induction false} TallyUpdate<P>(ps: seq<P>, i: nat, p: P, g: P -> bool)
    requires i < |ps|
    ensures Tally(ps[i := p], g) + (if g(ps[i]) then 1 else 0) == Tally(ps, g) + (if g(p) then 1 else 0)
  {
    var n := |ps| - 1;
    var qs := ps[i := p];
    if i < n {
      assert qs[..n] == ps[..n][i := p];
      TallyUpdate(ps[..n], i, p, g);
    } else {
      assert qs[..n] == ps[..n];
    }
  }

  lemma TallyAppend<P>(ps: seq<P>, p: P, g: P -> bool)
    ensures Tally(ps + [p], g) == Tally(ps, g) + if g(p) then 1 else 0
  {
    assert (ps + [p])[..|ps|] == ps;
  }

  lemma {:induction false} TallyConcat<P>(ps: seq<P>, qs: seq<P>, g: P -> bool)
    ensures Tally(ps + qs, g) == Tally(ps, g) + Tally(qs, g)
  {
    if qs == [] {
      assert ps + qs == ps;
    } else {
      var n := |qs| - 1;
      assert (ps + qs)[..|ps| + n] == ps + qs[..n];
      TallyConcat(ps, qs[..n], g);
    }
  }

  /** Two tables that `g` cannot tell apart entry by entry. */
  lemma {:induction false} TallyAgree<P>(ps: seq<P>, qs: seq<P>, g: P -> bool)
    requires |ps| == |qs| && forall i :: 0 <= i < |ps| ==> g(ps[i]) == g(qs[i])
    ensures Tally(ps, g) == Tally(qs, g)
  {
    if ps != [] {
      TallyAgree(ps[..|ps| - 1], qs[..|qs| - 1], g);
    }
  }

  lemma {:induction false} TallyNone<P>(ps: seq<P>, g: P -> bool)
    requires forall i :: 0 <= i < |ps| ==> !g(ps[i])
    ensures Tally(ps, g) == 0
  {
    if ps != [] {
      TallyNone(ps[..|ps| - 1], g);
    }
  }

  lemma {:induction false} TallySome<P>(ps: seq<P>, i: nat, g: P -> bool)
    requires i < |ps| && g(ps[i])
    ensures Tally(ps, g) >= 1
  {
    if i < |ps| - 1 {
      TallySome(ps[..|ps| - 1], i, g);
    }
  }

  /** Two entries that satisfy `g` count twice. */
  lemma {:induction false} TallyTwo<P>(ps: seq<P>, i: nat, j: nat, g: P -> bool)
    requires i < j < |ps| && g(ps[i]) && g(ps[j])
    ensures Tally(ps, g) >= 2
  {
    if j < |ps| - 1 {
      TallyTwo(ps[..|ps| - 1], i, j, g);
    } else {
      TallySome(ps[..|ps| - 1], i, g);
    }
  }
}
