/** The retriever's index of tools and skills: every change is written to two backends, either
    of which may fail, and a search falls back from the first to the second. */
module Retriever {
  import opened Wrappers
  import opened PyDict
  import opened Ranking

  datatype Kind = Tool | Skill

  datatype Indexable = Indexable(id: string, kind: Kind, name: string, description: string, eager: bool)

  datatype RankedMatch = RankedMatch(item: Indexable, rank: nat)

  type Index = Dict<string, Indexable>

  /** The BM25 scores of a corpus against a query. */
  type Scorer = (seq<string>, string) -> seq<real>

  // ---- The keyword backend ---------------------------------------------------------------------

  function AddAll(index: Index, items: seq<Indexable>): Index {
    if items == [] then index
    else var item := items[|items| - 1]; PyDict.Set(AddAll(index, items[..|items| - 1]), item.id, item)
  }

  function RemoveAll(index: Index, ids: seq<string>): Index {
    if ids == [] then index else Pop(RemoveAll(index, ids[..|ids| - 1]), ids[|ids| - 1])
  }

  predicate Wanted(item: Indexable, kind: Option<Kind>) { kind == None || kind == Some(item.kind) }

  function Candidates(items: seq<Indexable>, kind: Option<Kind>): seq<Indexable> {
    if items == [] then []
    else
      var init := Candidates(items[..|items| - 1], kind);
      if Wanted(items[|items| - 1], kind) then init + [items[|items| - 1]] else init
  }

  function Descriptions(items: seq<Indexable>): (ds: seq<string>)
    ensures |ds| == |items| && forall i :: 0 <= i < |items| ==> ds[i] == items[i].description
  {
    seq(|items|, i requires 0 <= i < |items| => items[i].description)
  }

  function Matches(found: seq<Scored<Indexable>>): (ms: seq<RankedMatch>)
    ensures |ms| == |found| && forall i :: 0 <= i < |found| ==> ms[i] == RankedMatch(found[i].0, i)
  {
    seq(|found|, i requires 0 <= i < |found| => RankedMatch(found[i].0, i))
  }

  /** `None` when the scorer returns the wrong number of scores: the query raises. */
  function Query(index: Index, query: string, kind: Option<Kind>, limit: int, score: Scorer): Option<seq<RankedMatch>> {
    var candidates := Candidates(Values(index), kind);
    if candidates == [] then Some([])
    else
      var scores := score(Descriptions(candidates), query);
      if |scores| != |candidates| then None else Some(Matches(Upto(Ranked(Zip(candidates, scores)), limit)))
  }

  class KeywordBackend {
    var items: Index

    constructor ()
      ensures items == []
    {
      items := [];
    }

    method Add(batch: seq<Indexable>)
      modifies this
      ensures items == AddAll(old(items), batch)
    {
      for i := 0 to |batch|
        invariant items == AddAll(old(items), batch[..i])
      {
        assert batch[..i + 1][..i] == batch[..i];
        items := PyDict.Set(items, batch[i].id, batch[i]);
      }
      assert batch[..|batch|] == batch;
    }

    method Remove(ids: seq<string>)
      modifies this
      ensures items == RemoveAll(old(items), ids)
    {
      for i := 0 to |ids|
        invariant items == RemoveAll(old(items), ids[..i])
      {
        assert ids[..i + 1][..i] == ids[..i];
        items := Pop(items, ids[i]);
      }
      assert ids[..|ids|] == ids;
    }
  }

  // ---- The retriever as a value -------------------------------------------------------------------

  datatype State = State(registered: Index, primary: Index, fallback: Index)

  const EMPTY := State([], [], [])

  datatype Outcome = Done | Duplicate | Unavailable

  /** An id registered with other identifying fields; `eager` is not one of them. */
  predicate Conflicts(registered: Index, item: Indexable) {
    match Get(registered, item.id)
    case None => false
    case Some(x) => x.kind != item.kind || x.name != item.name || x.description != item.description
  }

  /** `register`; a backend whose call fails is left as it was. */
  function Registering(s: State, items: seq<Indexable>, primaryOk: bool, fallbackOk: bool): (State, Outcome) {
    if exists i :: 0 <= i < |items| && Conflicts(s.registered, items[i]) then (s, Duplicate)
    else if !primaryOk && !fallbackOk then (s, Unavailable)
    else
      (State(AddAll(s.registered, items),
             if primaryOk then AddAll(s.primary, items) else s.primary,
             if fallbackOk then AddAll(s.fallback, items) else s.fallback), Done)
  }

  function Deregistering(s: State, ids: seq<string>, primaryOk: bool, fallbackOk: bool): State {
    State(RemoveAll(s.registered, ids),
          if primaryOk then RemoveAll(s.primary, ids) else s.primary,
          if fallbackOk then RemoveAll(s.fallback, ids) else s.fallback)
  }

  /** `search`; a backend may also fail or time out on the query. `None`: both did. */
  function Search(
    s: State, query: string, kind: Option<Kind>, limit: int, score: Scorer, primaryOk: bool, fallbackOk: bool)
    : Option<seq<RankedMatch>>
  {
    var first := Query(s.primary, query, kind, limit, score);
    if primaryOk && first.Some? then first
    else if fallbackOk then Query(s.fallback, query, kind, limit, score)
    else None
  }

  // ---- The class ----------------------------------------------------------------------------------

  class RetrieverEngine {
    const primary: KeywordBackend
    const fallback: KeywordBackend
    var registered: Index

    constructor (primary: KeywordBackend, fallback: KeywordBackend)
      ensures this.primary == primary && this.fallback == fallback && registered == []
    {
      this.primary, this.fallback, registered := primary, fallback, [];
    }

    ghost function View(): State
      reads this, primary, fallback
    {
      State(registered, primary.items, fallback.items)
    }

    method Register(items: seq<Indexable>, primaryOk: bool, fallbackOk: bool) returns (outcome: Outcome)
      requires primary != fallback
      modifies this, primary, fallback
      ensures (View(), outcome) == Registering(old(View()), items, primaryOk, fallbackOk)
    {
      for i := 0 to |items|
        invariant View() == old(View())
        invariant forall j :: 0 <= j < i ==> !Conflicts(registered, items[j])
      {
        if Conflicts(registered, items[i]) {
          return Duplicate;
        }
      }
      if primaryOk {
        primary.Add(items);
      }
      if fallbackOk {
        fallback.Add(items);
      }
      if !primaryOk && !fallbackOk {
        return Unavailable;
      }
      label written:
      for i := 0 to |items|
        invariant registered == AddAll(old(registered), items[..i])
        invariant primary.items == old@written(primary.items) && fallback.items == old@written(fallback.items)
      {
        assert items[..i + 1][..i] == items[..i];
        registered := PyDict.Set(registered, items[i].id, items[i]);
      }
      assert items[..|items|] == items;
      return Done;
    }

    /** The bookkeeping is up to date before either backend is asked. */
    method Deregister(ids: seq<string>, primaryOk: bool, fallbackOk: bool)
      requires primary != fallback
      modifies this, primary, fallback
      ensures View() == Deregistering(old(View()), ids, primaryOk, fallbackOk)
    {
      for i := 0 to |ids|
        invariant registered == RemoveAll(old(registered), ids[..i])
        invariant primary.items == old(primary.items) && fallback.items == old(fallback.items)
      {
        assert ids[..i + 1][..i] == ids[..i];
        registered := Pop(registered, ids[i]);
      }
      assert ids[..|ids|] == ids;
      if primaryOk {
        primary.Remove(ids);
      }
      if fallbackOk {
        fallback.Remove(ids);
      }
    }

    /** The eager items of a kind, each once, in order of registration, from the bookkeeping
        alone: `at` says where in it each one stands. */
    method ListEager(kind: Option<Kind>) returns (items: seq<Indexable>, ghost at: seq<int>)
      ensures |items| == |at|
      ensures forall i :: 0 <= i < |at| ==> 0 <= at[i] < |registered| && items[i] == Values(registered)[at[i]]
      ensures forall i, j :: 0 <= i < j < |at| ==> at[i] < at[j]
      ensures forall item :: item in items <==>
                item in Values(registered) && item.eager && (kind == None || kind.value == item.kind)
      ensures forall k :: 0 <= k < |registered| ==>
                (k in at <==> Values(registered)[k].eager && Wanted(Values(registered)[k], kind))
    {
      items, at := [], [];
      var all := Values(registered);
      for k := 0 to |all|
        invariant |items| == |at|
        invariant forall i :: 0 <= i < |at| ==> 0 <= at[i] < k && items[i] == all[at[i]]
        invariant forall i, j :: 0 <= i < j < |at| ==> at[i] < at[j]
        invariant forall m :: 0 <= m < k ==> (m in at <==> all[m].eager && Wanted(all[m], kind))
      {
        if all[k].eager && Wanted(all[k], kind) {
          items, at := items + [all[k]], at + [k];
        }
      }
      forall item | item in all && item.eager && Wanted(item, kind) ensures item in items {
        var m :| 0 <= m < |all| && all[m] == item;
        var i :| 0 <= i < |at| && at[i] == m;
        assert items[i] == item;
      }
      forall item | item in items ensures item in all && item.eager && Wanted(item, kind) {
        var i :| 0 <= i < |items| && items[i] == item;
        assert at[i] in at;
      }
    }
  }

  // ---- Runs ---------------------------------------------------------------------------------------

  datatype Op =
    | RegisterOp(items: seq<Indexable>, primaryOk: bool, fallbackOk: bool)
    | DeregisterOp(ids: seq<string>, primaryOk: bool, fallbackOk: bool)

  function Apply(s: State, op: Op): State {
    match op
    case RegisterOp(items, p, f) => Registering(s, items, p, f).0
    case DeregisterOp(ids, p, f) => Deregistering(s, ids, p, f)
  }

  function After(ops: seq<Op>): State {
    if ops == [] then EMPTY else Apply(After(ops[..|ops| - 1]), ops[|ops| - 1])
  }

  /** The last item of a batch with this id wins. */
  function LastOf(items: seq<Indexable>, id: string): (r: Option<Indexable>)
    ensures r.None? <==> forall i :: 0 <= i < |items| ==> items[i].id != id
    ensures r.Some? ==> exists i :: 0 <= i < |items| && items[i] == r.value && items[i].id == id
                                    && forall j :: i < j < |items| ==> items[j].id != id
  {
    if items == [] then None
    else if items[|items| - 1].id == id then Some(items[|items| - 1])
    else LastOf(items[..|items| - 1], id)
  }

  lemma {:induction false} AddAllGets(index: Index, items: seq<Indexable>, id: string)
    requires Unique(index)
    ensures Unique(AddAll(index, items))
    ensures Get(AddAll(index, items), id)
         == if LastOf(items, id).Some? then LastOf(items, id) else Get(index, id)
  {
    if items != [] {
      var init, item := items[..|items| - 1], items[|items| - 1];
      AddAllGets(index, init, id);
      SetUnique(AddAll(index, init), item.id, item);
      GetSet(AddAll(index, init), item.id, item, id);
    }
  }

  lemma {:induction false} RemoveAllGets(index: Index, ids: seq<string>, id: string)
    requires Unique(index)
    ensures Unique(RemoveAll(index, ids))
    ensures Get(RemoveAll(index, ids), id) == if id in ids then None else Get(index, id)
  {
    if ids != [] {
      var init, last := ids[..|ids| - 1], ids[|ids| - 1];
      RemoveAllGets(index, init, id);
      PopUnique(RemoveAll(index, init), last);
      GetPop(RemoveAll(index, init), last, id);
      assert ids == init + [last];
    }
  }

  ghost predicate Dicts(s: State) { Unique(s.registered) && Unique(s.primary) && Unique(s.fallback) }

  /** A registered id is held, with its current content, by at least one backend. */
  ghost predicate Held(s: State, id: string) {
    Get(s.registered, id).Some? ==>
      Get(s.primary, id) == Get(s.registered, id) || Get(s.fallback, id) == Get(s.registered, id)
  }

  /** Whatever calls fail, no registered id is ever without a backend that holds its current
      content: not after an update that reached one backend only, nor after a removal that
      reached none. */
  lemma {:induction false} NoRegistrationIsLost(ops: seq<Op>, id: string)
    ensures Dicts(After(ops)) && Held(After(ops), id)
  {
    if ops != [] {
      var s, op := After(ops[..|ops| - 1]), ops[|ops| - 1];
      NoRegistrationIsLost(ops[..|ops| - 1], id);
      match op {
        case RegisterOp(items, _, _) =>
          AddAllGets(s.registered, items, id);
          AddAllGets(s.primary, items, id);
          AddAllGets(s.fallback, items, id);
        case DeregisterOp(ids, _, _) =>
          RemoveAllGets(s.registered, ids, id);
          RemoveAllGets(s.primary, ids, id);
          RemoveAllGets(s.fallback, ids, id);
      }
    }
  }

  /** What `id` finds in a backend or in the bookkeeping after a batch was added to it. */
  function Merged(before: Option<Indexable>, items: seq<Indexable>, id: string): Option<Indexable> {
    if LastOf(items, id).Some? then LastOf(items, id) else before
  }

  /** A registration is refused as a duplicate exactly when an item of the batch differs from the one
      registered under its id in kind, name or description, and as unavailable exactly when both
      backends failed on a batch without such an item. A refused batch changes nothing; an accepted
      one is found, the last item of each id, in the bookkeeping and in each backend that answered. */
  lemma RegisterFinds(s: State, items: seq<Indexable>, p: bool, f: bool, id: string)
    requires Dicts(s)
    ensures var (t, outcome) := Registering(s, items, p, f);
            && t == Apply(s, RegisterOp(items, p, f))
            && (outcome == Duplicate <==>
                  exists item, x :: item in items && Get(s.registered, item.id) == Some(x)
                                    && (x.kind, x.name, x.description) != (item.kind, item.name, item.description))
            && (outcome == Unavailable <==> outcome != Duplicate && !p && !f)
            && (outcome != Done ==> t == s)
            && (outcome == Done ==>
                  && Get(t.registered, id) == Merged(Get(s.registered, id), items, id)
                  && Get(t.primary, id) == (if p then Merged(Get(s.primary, id), items, id) else Get(s.primary, id))
                  && Get(t.fallback, id)
                     == if f then Merged(Get(s.fallback, id), items, id) else Get(s.fallback, id))
  {
    AddAllGets(s.registered, items, id);
    AddAllGets(s.primary, items, id);
    AddAllGets(s.fallback, items, id);
    if i :| 0 <= i < |items| && Conflicts(s.registered, items[i]) {
      assert items[i] in items && Get(s.registered, items[i].id).Some?;
    }
  }

  /** After a deregistration exactly the listed ids are gone from the bookkeeping, and from each
      backend that answered; a backend that failed is as it was. */
  lemma DeregisterRemoves(s: State, ids: seq<string>, p: bool, f: bool, id: string)
    requires Dicts(s)
    ensures var t := Apply(s, DeregisterOp(ids, p, f));
            && Get(t.registered, id) == (if id in ids then None else Get(s.registered, id))
            && Get(t.primary, id) == (if p && id in ids then None else Get(s.primary, id))
            && Get(t.fallback, id) == (if f && id in ids then None else Get(s.fallback, id))
            && (!p ==> t.primary == s.primary) && (!f ==> t.fallback == s.fallback)
  {
    RemoveAllGets(s.registered, ids, id);
    RemoveAllGets(s.primary, ids, id);
    RemoveAllGets(s.fallback, ids, id);
  }

  /** The primary's answer is the one given whenever there is one, whatever the fallback holds; the
      fallback's otherwise; and a search fails exactly when neither backend answers. */
  lemma SearchPrefersPrimary(
    s: State, query: string, kind: Option<Kind>, limit: int, score: Scorer, p: bool, f: bool,
    other: Index, registered: Index)
    ensures var first, second := Query(s.primary, query, kind, limit, score),
                                 Query(s.fallback, query, kind, limit, score);
            && (Search(s, query, kind, limit, score, p, f).None? <==> !(p && first.Some?) && !(f && second.Some?))
            && (p && first.Some? ==>
                  Search(s.(fallback := other, registered := registered), query, kind, limit, score, p, f) == first)
            && (!(p && first.Some?) && f ==> Search(s, query, kind, limit, score, p, f) == second)
  {
  }

  /** If no backend call fails, both backends are the bookkeeping, order included, so a search
      that falls back answers as the primary would have. */
  lemma {:induction false} WithoutFailuresAllAgree(
    ops: seq<Op>, query: string, kind: Option<Kind>, limit: int, score: Scorer, primaryOk: bool)
    requires forall i :: 0 <= i < |ops| ==> ops[i].primaryOk && ops[i].fallbackOk
    ensures After(ops).primary == After(ops).registered == After(ops).fallback
    ensures Search(After(ops), query, kind, limit, score, primaryOk, true)
         == Query(After(ops).registered, query, kind, limit, score)
  {
    if ops != [] {
      WithoutFailuresAllAgree(ops[..|ops| - 1], query, kind, limit, score, primaryOk);
    }
  }

  lemma {:induction false} CandidatesAreWanted(items: seq<Indexable>, kind: Option<Kind>, item: Indexable)
    ensures item in Candidates(items, kind) <==> item in items && (kind == None || kind.value == item.kind)
  {
    if items != [] {
      CandidatesAreWanted(items[..|items| - 1], kind, item);
      assert items == items[..|items| - 1] + [items[|items| - 1]];
    }
  }

  /** A query returns ranks 0..k-1 of the stable descending order of the items of the requested
      kind, and only such items; a negative limit counts from the end. */
  lemma QueryRanks(index: Index, query: string, kind: Option<Kind>, limit: int, score: Scorer, r: real)
    requires Query(index, query, kind, limit, score).Some?
    ensures var found := Query(index, query, kind, limit, score).value;
            var candidates := Candidates(Values(index), kind);
            && |found| == Kept(|candidates|, limit)
            && (forall i :: 0 <= i < |found| ==>
                  found[i].rank == i && found[i].item in Values(index)
                  && (kind == None || kind.value == found[i].item.kind))
            && (candidates != [] ==>
                  var scored := Zip(candidates, score(Descriptions(candidates), query));
                  && (forall i :: 0 <= i < |found| ==> found[i].item == Ranked(scored)[i].0)
                  && Descending(Ranked(scored)) && multiset(Ranked(scored)) == multiset(scored)
                  && WithScore(Ranked(scored), r) == WithScore(scored, r))
  {
    var found := Query(index, query, kind, limit, score).value;
    var candidates := Candidates(Values(index), kind);
    if candidates != [] {
      var scored := Zip(candidates, score(Descriptions(candidates), query));
      RankedIsStable(scored, r);
      forall i | 0 <= i < |found| ensures found[i].item in Values(index) && Wanted(found[i].item, kind) {
        assert Ranked(scored)[i] in multiset(Ranked(scored));
        assert Ranked(scored)[i] in scored;
        CandidatesAreWanted(Values(index), kind, found[i].item);
      }
    }
  }
}
