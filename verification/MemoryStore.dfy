/** Long-term memory: items per scope, ranked search, and the write-through store that persists
    a snapshot of everything after each change. */
module MemoryStore {
  import opened Wrappers
  import opened PyDict
  import opened Ranking

  /** user, session, agent and team id. */
  type ScopeKey = (Option<string>, Option<string>, Option<string>, Option<string>)

  type Timestamp = int

  /** A stored item; `created` is always set when an item is stored. */
  datatype Item = Item(id: string, content: string, metadata: string, created: Timestamp)

  datatype NewItem = NewItem(id: Option<string>, content: string, metadata: string, created: Option<Timestamp>)

  type Items = Nested<ScopeKey, string, Item>

  /** The BM25 scores of a corpus against a query. */
  type Scorer = (seq<string>, string) -> seq<real>

  // ---- The store as a value ------------------------------------------------------------------

  /** The item as `write` stores it. An empty id counts as none. */
  function Stored(item: NewItem, uuid: string, now: Timestamp): Item {
    Item(match item.id case None => uuid case Some(id) => if id == "" then uuid else id,
         item.content, item.metadata, match item.created case None => now case Some(t) => t)
  }

  function Written(items: Items, scope: ScopeKey, item: Item): Items { Put(items, scope, item.id, item) }

  function Lookup(items: Items, scope: ScopeKey, id: string): Option<Item> {
    Get(GetOr(items, scope, []), id)
  }

  function Contents(candidates: seq<Item>): (cs: seq<string>)
    ensures |cs| == |candidates| && forall i :: 0 <= i < |cs| ==> cs[i] == candidates[i].content
  {
    seq(|candidates|, i requires 0 <= i < |candidates| => candidates[i].content)
  }

  /** `search`. `None` is the backend error of a scorer that returns the wrong number of scores. */
  function Search(items: Items, scope: ScopeKey, query: string, limit: int, score: Scorer): Option<seq<Scored<Item>>> {
    var candidates := Values(GetOr(items, scope, []));
    if candidates == [] then Some([])
    else
      var scores := score(Contents(candidates), query);
      if |scores| != |candidates| then None else Some(Upto(Ranked(Zip(candidates, scores)), limit))
  }

  /** A record of the snapshot: the scope and the item, whose own id is written out; the key it
      was stored under is not. */
  type Record = (ScopeKey, Item)

  type Row = (ScopeKey, string, Item)

  function Records(rows: seq<Row>): (rs: seq<Record>)
    ensures |rs| == |rows| && forall i :: 0 <= i < |rows| ==> rs[i] == (rows[i].0, rows[i].2)
  {
    seq(|rows|, i requires 0 <= i < |rows| => (rows[i].0, rows[i].2))
  }

  /** The rows a restore puts back: each item under its own id. */
  function Rows(records: seq<Record>): (rows: seq<Row>)
    ensures |rows| == |records|
    ensures forall i :: 0 <= i < |records| ==> rows[i] == (records[i].0, records[i].1.id, records[i].1)
  {
    seq(|records|, i requires 0 <= i < |records| => (records[i].0, records[i].1.id, records[i].1))
  }

  function Snapshot(items: Items): seq<Record> { Records(Flatten(items)) }

  function Restored(records: seq<Record>): Items { Rebuild([], Rows(records)) }

  // ---- The classes ------------------------------------------------------------------------------

  class InMemoryStore {
    var items: Items

    constructor ()
      ensures items == []
    {
      items := [];
    }

    method Write(scope: ScopeKey, item: NewItem, uuid: string, now: Timestamp) returns (id: string)
      modifies this
      ensures items == Written(old(items), scope, Stored(item, uuid, now)) && id == Stored(item, uuid, now).id
    {
      var stored := Stored(item, uuid, now);
      var inner: Dict<string, Item> := GetOr(items, scope, []);
      items := PyDict.Set(items, scope, PyDict.Set(inner, stored.id, stored));
      return stored.id;
    }

    method Forget(scope: ScopeKey, id: string)
      modifies this
      ensures items == Remove(old(items), scope, id)
    {
      var inner := Get(items, scope);
      match inner {
        case None =>
        case Some(dict) => items := PyDict.Set(items, scope, Pop(dict, id));
      }
    }

    /** `_memory_snapshot`. */
    method TakeSnapshot() returns (records: seq<Record>)
      ensures records == Snapshot(items)
    {
      records := [];
      for i := 0 to |items|
        invariant records == Records(Flatten(items[..i]))
      {
        var scope, dict := items[i].0, items[i].1;
        for j := 0 to |dict|
          invariant records == Records(Flatten(items[..i]) + RowsOf(scope, dict[..j]))
        {
          records := records + [(scope, dict[j].1)];
          assert RowsOf(scope, dict[..j + 1]) == RowsOf(scope, dict[..j]) + [(scope, dict[j].0, dict[j].1)];
        }
        assert dict[..|dict|] == dict && items[..i + 1][..i] == items[..i];
      }
      assert items[..|items|] == items;
    }

    /** `_restore_memory_snapshot` into an empty store. */
    method RestoreSnapshot(records: seq<Record>)
      requires items == []
      modifies this
      ensures items == Restored(records)
    {
      for i := 0 to |records|
        invariant items == Rebuild([], Rows(records[..i]))
      {
        var scope, item := records[i].0, records[i].1;
        items := Put(items, scope, item.id, item);
        assert Rows(records[..i + 1])[..i] == Rows(records[..i]);
      }
      assert records[..|records|] == records;
    }
  }

  /** Every change goes to the delegate first and then, whole, to the blob. */
  class PersistedStore {
    const delegate: InMemoryStore
    var blob: Option<seq<Record>>

    /** `create`: load the blob, if there is one. */
    constructor (blob: Option<seq<Record>>)
      ensures fresh(delegate) && this.blob == blob
      ensures delegate.items == match blob case None => [] case Some(records) => Restored(records)
    {
      delegate := new InMemoryStore();
      this.blob := blob;
      new;
      if blob.Some? {
        delegate.RestoreSnapshot(blob.value);
      }
    }

    method Write(scope: ScopeKey, item: NewItem, uuid: string, now: Timestamp) returns (id: string)
      modifies this, delegate
      ensures delegate.items == Written(old(delegate.items), scope, Stored(item, uuid, now))
      ensures blob == Some(Snapshot(delegate.items)) && id == Stored(item, uuid, now).id
    {
      id := delegate.Write(scope, item, uuid, now);
      var records := delegate.TakeSnapshot();
      blob := Some(records);
    }

    method Forget(scope: ScopeKey, id: string)
      modifies this, delegate
      ensures delegate.items == Remove(old(delegate.items), scope, id)
      ensures blob == Some(Snapshot(delegate.items))
    {
      delegate.Forget(scope, id);
      var records := delegate.TakeSnapshot();
      blob := Some(records);
    }
  }

  // ---- Runs and restarts ------------------------------------------------------------------------

  datatype Op =
    | Write(scope: ScopeKey, item: NewItem, uuid: string, now: Timestamp)
    | Forget(scope: ScopeKey, id: string)

  function Apply(items: Items, op: Op): Items {
    match op
    case Write(scope, item, uuid, now) => Written(items, scope, Stored(item, uuid, now))
    case Forget(scope, id) => Remove(items, scope, id)
  }

  function After(ops: seq<Op>): Items {
    if ops == [] then [] else Apply(After(ops[..|ops| - 1]), ops[|ops| - 1])
  }

  /** The blob after a run: nothing before the first change, then always the latest snapshot. */
  function BlobAfter(ops: seq<Op>): Option<seq<Record>> {
    if ops == [] then None else Some(Snapshot(After(ops)))
  }

  ghost predicate KeyedById(items: Items) {
    forall scope, id :: Lookup(items, scope, id).Some? ==> Lookup(items, scope, id).value.id == id
  }

  lemma {:induction false} RunsStayWellFormed(ops: seq<Op>)
    ensures NestedUnique(After(ops)) && KeyedById(After(ops))
  {
    if ops != [] {
      var items, op := After(ops[..|ops| - 1]), ops[|ops| - 1];
      RunsStayWellFormed(ops[..|ops| - 1]);
      match op {
        case Write(scope, item, uuid, now) =>
          var stored := Stored(item, uuid, now);
          PutUnique(items, scope, stored.id, stored);
          forall s, id | Lookup(After(ops), s, id).Some? ensures Lookup(After(ops), s, id).value.id == id {
            LookupAfterWrite(items, scope, stored, s, id);
          }
        case Forget(scope, gone) =>
          RemoveUnique(items, scope, gone);
          forall s, id | Lookup(After(ops), s, id).Some? ensures Lookup(After(ops), s, id).value.id == id {
            LookupAfterForget(items, scope, gone, s, id);
          }
      }
    }
  }

  lemma LookupAfterWrite(items: Items, scope: ScopeKey, item: Item, s: ScopeKey, id: string)
    ensures Lookup(Written(items, scope, item), s, id)
         == if s == scope && id == item.id then Some(item) else Lookup(items, s, id)
  {
    var inner: Dict<string, Item> := GetOr(items, scope, []);
    GetSet(items, scope, PyDict.Set(inner, item.id, item), s);
    GetSet(inner, item.id, item, id);
  }

  /** What was written is found under the id that `write` returned: the item's own, unless that is
      missing or empty, with the content and metadata given, and its time unless it had none. */
  lemma WriteKeeps(items: Items, scope: ScopeKey, item: NewItem, uuid: string, now: Timestamp)
    ensures var id := if item.id.Some? && item.id.value != "" then item.id.value else uuid;
            && id == Stored(item, uuid, now).id
            && Lookup(Apply(items, Write(scope, item, uuid, now)), scope, id).Some?
            && var x := Lookup(Apply(items, Write(scope, item, uuid, now)), scope, id).value;
               && x.id == id && x.content == item.content && x.metadata == item.metadata
               && (item.created.Some? ==> x.created == item.created.value)
               && (item.created.None? ==> x.created == now)
  {
    var stored := Stored(item, uuid, now);
    LookupAfterWrite(items, scope, stored, scope, stored.id);
  }

  lemma LookupAfterForget(items: Items, scope: ScopeKey, gone: string, s: ScopeKey, id: string)
    requires NestedUnique(items)
    ensures Lookup(Remove(items, scope, gone), s, id)
         == if s == scope && id == gone then None else Lookup(items, s, id)
  {
    GetInner(items, scope);
    if Get(items, scope).Some? {
      var inner := Get(items, scope).value;
      GetSet(items, scope, Pop(inner, gone), s);
      GetPop(inner, gone, id);
    }
  }

  /** Because every item lies under its own id, the snapshot loses no key. */
  lemma KeysAreWrittenOut(items: Items)
    requires NestedUnique(items) && KeyedById(items)
    ensures Rows(Snapshot(items)) == Flatten(items)
  {
    forall i | 0 <= i < |Flatten(items)| ensures Rows(Snapshot(items))[i] == Flatten(items)[i] {
      FlattenedIsEntry(items, i);
      var row := Flatten(items)[i];
      assert Lookup(items, row.0, row.1) == Some(row.2);
    }
  }

  /** A store rebuilt from the blob of any run answers every `get` and every `search`, order and
      ties included, as the store that ran; an id found is the id of the item under it. */
  lemma RestartEquivalence(ops: seq<Op>, scope: ScopeKey, id: string, query: string, limit: int, score: Scorer)
    ensures var live := After(ops);
            var restarted := match BlobAfter(ops) case None => [] case Some(records) => Restored(records);
            && Lookup(restarted, scope, id) == Lookup(live, scope, id)
            && Search(restarted, scope, query, limit, score) == Search(live, scope, query, limit, score)
            && (Lookup(live, scope, id).Some? ==> Lookup(live, scope, id).value.id == id)
  {
    var live := After(ops);
    RunsStayWellFormed(ops);
    if ops != [] {
      KeysAreWrittenOut(live);
      RebuildFlatten(live);
      DropEmptyGetOr(live, scope);
    }
  }

  /** An operation on one scope leaves every other scope's results alone. */
  lemma ScopesAreIsolated(items: Items, op: Op, other: ScopeKey, id: string, query: string, limit: int, score: Scorer)
    requires other != op.scope
    ensures Lookup(Apply(items, op), other, id) == Lookup(items, other, id)
    ensures Search(Apply(items, op), other, query, limit, score) == Search(items, other, query, limit, score)
  {
    match op {
      case Write(scope, item, uuid, now) =>
        var stored := Stored(item, uuid, now);
        var inner: Dict<string, Item> := GetOr(items, scope, []);
        GetSet(items, scope, PyDict.Set(inner, stored.id, stored), other);
      case Forget(scope, gone) =>
        if Get(items, scope).Some? {
          GetSet(items, scope, Pop(Get(items, scope).value, gone), other);
        }
    }
  }

  /** What a search returns: the best `limit` items of the scope, best first, equal scores in
      the order they were first stored; a negative limit counts from the end. */
  lemma SearchRanks(items: Items, scope: ScopeKey, query: string, limit: int, score: Scorer, r: real)
    ensures var candidates := Values(GetOr(items, scope, []));
            var scores := score(Contents(candidates), query);
            candidates != [] && |scores| == |candidates| ==>
              var found := Search(items, scope, query, limit, score).value;
              var all := Ranked(Zip(candidates, scores));
              && |found| == Kept(|candidates|, limit)
              && found <= all && Descending(all) && multiset(all) == multiset(Zip(candidates, scores))
              && WithScore(all, r) == WithScore(Zip(candidates, scores), r)
  {
    var candidates := Values(GetOr(items, scope, []));
    var scores := score(Contents(candidates), query);
    if |scores| == |candidates| {
      RankedIsStable(Zip(candidates, scores), r);
    }
  }
}
