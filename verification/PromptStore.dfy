/** Versioned prompt templates: the in-memory store, its JSON-shaped snapshot with version
    numbers as strings, and the write-through store built from both. */
module PromptStore {
  import opened Wrappers
  import opened PyDict
  import opened Utf8
  import Decimal

  type Timestamp = int

  /** What a caller supplies to `put`. */
  datatype Draft = Draft(content: Text, metadata: string, cacheable: bool, boundary: Option<int>)

  datatype Template = Template(name: string, version: int, draft: Draft, created: Timestamp)

  type Versions = Dict<int, Template>
  type Templates = Nested<string, int, Template>

  const MAX_PROMPT_CONTENT_BYTES := 256 * 1024

  /** `PromptTemplate.__post_init__`: otherwise the construction raises. */
  predicate Constructible(d: Draft) {
    |Encode(d.content)| <= MAX_PROMPT_CONTENT_BYTES
    && (d.boundary.Some? ==> 0 <= d.boundary.value <= |d.content|)
  }

  // ---- The store as a value ---------------------------------------------------------------------

  const NO_VERSIONS: Versions := []

  /** `max(versions.keys(), default=0)`. */
  function MaxVersion(versions: Versions): int {
    if versions == [] then 0
    else if |versions| == 1 then versions[0].0
    else
      var rest := MaxVersion(versions[1..]);
      if versions[0].0 > rest then versions[0].0 else rest
  }

  function NextVersion(templates: Templates, name: string): int { MaxVersion(GetOr(templates, name, NO_VERSIONS)) + 1 }

  /** `put`: a template that cannot be constructed still leaves its name behind. */
  function PutInto(templates: Templates, name: string, draft: Draft, now: Timestamp): (Templates, Option<Template>) {
    if !Constructible(draft) then
      (if Get(templates, name) == None then PyDict.Set(templates, name, NO_VERSIONS) else templates, None)
    else
      var t := Template(name, NextVersion(templates, name), draft, now);
      (PyDict.Put(templates, name, t.version, t), Some(t))
  }

  /** `get`: without a version, the one with the greatest number. */
  function Lookup(templates: Templates, name: string, version: Option<int>): Option<Template> {
    var versions := GetOr(templates, name, NO_VERSIONS);
    if versions == [] then None
    else Get(versions, match version case None => MaxVersion(versions) case Some(v) => v)
  }

  function DeleteFrom(templates: Templates, name: string, version: Option<int>): Templates {
    match version
    case None => Pop(templates, name)
    case Some(v) => Remove(templates, name, v)
  }

  function InsertSorted(x: int, ys: seq<int>): seq<int> {
    if ys == [] || x <= ys[0] then [x] + ys else [ys[0]] + InsertSorted(x, ys[1..])
  }

  function Sorted(xs: seq<int>): seq<int> {
    if xs == [] then [] else InsertSorted(xs[0], Sorted(xs[1..]))
  }

  function ListVersions(templates: Templates, name: string): seq<int> {
    Sorted(Keys(GetOr(templates, name, NO_VERSIONS)))
  }

  function ListNames(templates: Templates): seq<string> { Keys(templates) }

  lemma {:induction false} MaxIsGreatest(versions: Versions, v: int)
    ensures Get(versions, v).Some? ==> v <= MaxVersion(versions)
    ensures versions != [] ==> Get(versions, MaxVersion(versions)).Some?
  {
    if |versions| == 1 {
      var rest := versions[1..];
      assert Get(rest, v) == None;
      assert Get(versions, v).Some? ==> v == versions[0].0;
    } else if versions != [] {
      MaxIsGreatest(versions[1..], v);
    }
  }

  lemma {:induction false} InsertKeepsSorted(x: int, ys: seq<int>)
    requires x !in ys && forall i, j :: 0 <= i < j < |ys| ==> ys[i] < ys[j]
    ensures var zs := InsertSorted(x, ys);
            && (forall i, j :: 0 <= i < j < |zs| ==> zs[i] < zs[j])
            && (forall z :: z in zs <==> z == x || z in ys)
  {
    if ys != [] && x > ys[0] {
      InsertKeepsSorted(x, ys[1..]);
      var rest := InsertSorted(x, ys[1..]);
      forall i | 0 <= i < |rest| ensures ys[0] < rest[i] {
        assert rest[i] in rest;
      }
      assert ys == [ys[0]] + ys[1..];
    }
  }

  lemma {:induction false} SortedKeys(xs: seq<int>)
    requires forall i, j :: 0 <= i < j < |xs| ==> xs[i] != xs[j]
    ensures forall i, j :: 0 <= i < j < |Sorted(xs)| ==> Sorted(xs)[i] < Sorted(xs)[j]
    ensures forall x :: x in Sorted(xs) <==> x in xs
  {
    if xs != [] {
      SortedKeys(xs[1..]);
      InsertKeepsSorted(xs[0], Sorted(xs[1..]));
      assert xs == [xs[0]] + xs[1..];
    }
  }

  /** `list_versions` is the live version numbers, each once, in ascending order. */
  lemma VersionsListed(templates: Templates, name: string, v: int)
    requires NestedUnique(templates)
    ensures var vs := ListVersions(templates, name);
            && (forall i, j :: 0 <= i < j < |vs| ==> vs[i] < vs[j])
            && (v in vs <==> Lookup(templates, name, Some(v)).Some?)
  {
    var versions := GetOr(templates, name, NO_VERSIONS);
    GetInner(templates, name);
    SortedKeys(Keys(versions));
    GetMeans(versions, v);
    if v in Keys(versions) {
      var i :| 0 <= i < |versions| && Keys(versions)[i] == v;
      GetAt(versions, i);
    }
    if Get(versions, v).Some? {
      var i :| 0 <= i < |versions| && versions[i] == (v, Get(versions, v).value);
      assert Keys(versions)[i] == v;
    }
  }

  /** The latest template is the live one with the greatest number. */
  lemma LatestIsGreatest(templates: Templates, name: string, t: Template)
    ensures Lookup(templates, name, None) == Some(t) <==>
            exists v :: Lookup(templates, name, Some(v)) == Some(t)
                        && forall u :: u > v ==> Lookup(templates, name, Some(u)) == None
  {
    var versions := GetOr(templates, name, NO_VERSIONS);
    var m := MaxVersion(versions);
    forall u ensures u > m ==> Lookup(templates, name, Some(u)) == None {
      MaxIsGreatest(versions, u);
    }
    if v :| Lookup(templates, name, Some(v)) == Some(t)
            && forall u :: u > v ==> Lookup(templates, name, Some(u)) == None {
      MaxIsGreatest(versions, v);
      assert Lookup(templates, name, Some(m)).Some?;
    }
    if Lookup(templates, name, None) == Some(t) {
      assert Lookup(templates, name, Some(m)) == Some(t);
    }
  }

  /** A put succeeds exactly on a draft whose text has at most 256 KiB and whose boundary, if it has
      one, lies in the text. Its template is what the caller supplied, with the time of the call and
      a number one above the greatest live version, or 1. */
  lemma PutStores(templates: Templates, name: string, draft: Draft, now: Timestamp)
    ensures var (after, t) := PutInto(templates, name, draft, now);
            && (t.Some? <==> |Encode(draft.content)| <= 262144
                             && (draft.boundary.Some? ==> 0 <= draft.boundary.value <= |draft.content|))
            && (t.Some? ==> t.value == Template(name, t.value.version, draft, now))
            && (t.Some? ==> Lookup(after, name, Some(t.value.version)) == t && Lookup(after, name, None) == t)
            && (t.Some? ==>
                  if forall v :: Lookup(templates, name, Some(v)) == None then t.value.version == 1
                  else Lookup(templates, name, Some(t.value.version - 1)).Some?
                       && forall v :: v >= t.value.version ==> Lookup(templates, name, Some(v)) == None)
  {
    var (after, t) := PutInto(templates, name, draft, now);
    if t.Some? {
      PutIsNew(templates, name, draft, now, name, None);
      var versions := GetOr(templates, name, NO_VERSIONS);
      forall v ensures v >= t.value.version ==> Lookup(templates, name, Some(v)) == None {
        MaxIsGreatest(versions, v);
      }
      if versions != [] {
        MaxIsGreatest(versions, 0);
        assert Lookup(templates, name, Some(t.value.version - 1)).Some?;
      }
    }
  }

  /** A put numbers its template one above every live version, so it overwrites none, and
      changes only what that number and "latest" mean for its name. */
  lemma PutIsNew(templates: Templates, name: string, draft: Draft, now: Timestamp, n: string, v: Option<int>)
    ensures var (after, t) := PutInto(templates, name, draft, now);
            && (t.Some? ==> Lookup(templates, name, Some(t.value.version)) == None)
            && (t.Some? ==> Lookup(after, name, None) == t && Lookup(after, name, Some(t.value.version)) == t)
            && ((n != name || t.None? || (v.Some? && v.value != t.value.version)) ==>
                  Lookup(after, n, v) == Lookup(templates, n, v))
  {
    var (after, t) := PutInto(templates, name, draft, now);
    var versions := GetOr(templates, name, NO_VERSIONS);
    if t.Some? {
      var next := t.value.version;
      MaxIsGreatest(versions, next);
      GetSet(templates, name, PyDict.Set(versions, next, t.value), n);
      GetSet(templates, name, PyDict.Set(versions, next, t.value), name);
      GetSet(versions, next, t.value, next);
      if v.Some? { GetSet(versions, next, t.value, v.value); }
      var after' := PyDict.Set(versions, next, t.value);
      SetShape(versions, next, t.value);
      MaxIsGreatest(after', next);
      var m := MaxVersion(after');
      MaxIsGreatest(after', m);
      GetSet(versions, next, t.value, m);
      MaxIsGreatest(versions, m);
    } else if Get(templates, name) == None {
      GetSet(templates, name, NO_VERSIONS, n);
    }
  }

  /** A delete removes one version, or all of them, of its own name, and no other. */
  lemma DeleteRemoves(templates: Templates, name: string, version: Option<int>, v: int)
    requires NestedUnique(templates)
    ensures Lookup(DeleteFrom(templates, name, version), name, Some(v))
         == if version == None || version == Some(v) then None else Lookup(templates, name, Some(v))
    ensures version == None ==> name !in ListNames(DeleteFrom(templates, name, version))
  {
    match version {
      case None =>
        GetPop(templates, name, name);
        var after := Pop(templates, name);
        PopUnique(templates, name);
        if name in Keys(after) {
          var i :| 0 <= i < |after| && Keys(after)[i] == name;
          GetAt(after, i);
        }
      case Some(w) =>
        GetInner(templates, name);
        if Get(templates, name).Some? {
          var versions := Get(templates, name).value;
          GetSet(templates, name, Pop(versions, w), name);
          GetPop(versions, w, v);
        }
    }
  }

  lemma DeleteForgets(templates: Templates, name: string, version: Option<int>, n: string, v: Option<int>)
    requires NestedUnique(templates) && n != name
    ensures Lookup(DeleteFrom(templates, name, version), n, v) == Lookup(templates, n, v)
  {
    match version {
      case None => GetPop(templates, name, n);
      case Some(w) =>
        if Get(templates, name).Some? {
          GetSet(templates, name, Pop(Get(templates, name).value, w), n);
        }
    }
  }

  // ---- The snapshot ------------------------------------------------------------------------------

  datatype Fields = Fields(draft: Draft, created: Timestamp)

  type Blob = Nested<string, string, Fields>

  function PrintVersions(versions: Versions): (b: Dict<string, Fields>)
    ensures |b| == |versions|
    ensures forall i :: 0 <= i < |versions| ==>
              b[i] == (Decimal.Print(versions[i].0), Fields(versions[i].1.draft, versions[i].1.created))
  {
    seq(|versions|, i requires 0 <= i < |versions| =>
      (Decimal.Print(versions[i].0), Fields(versions[i].1.draft, versions[i].1.created)))
  }

  function Snapshot(templates: Templates): (b: Blob)
    ensures |b| == |templates|
    ensures forall i :: 0 <= i < |templates| ==> b[i] == (templates[i].0, PrintVersions(templates[i].1))
  {
    seq(|templates|, i requires 0 <= i < |templates| => (templates[i].0, PrintVersions(templates[i].1)))
  }

  /** One entry read back; `None` is an exception from `int` or from the template. */
  function ReadRow(row: (string, string, Fields)): Option<(string, int, Template)> {
    match Decimal.Parse(row.1)
    case None => None
    case Some(v) =>
      if Constructible(row.2.draft) then Some((row.0, v, Template(row.0, v, row.2.draft, row.2.created))) else None
  }

  function RestoreRows(rows: seq<(string, string, Fields)>): Option<Templates> {
    if rows == [] then Some([])
    else
      match (RestoreRows(rows[..|rows| - 1]), ReadRow(rows[|rows| - 1]))
      case (Some(templates), Some(row)) => Some(PyDict.Put(templates, row.0, row.1, row.2))
      case _ => None
  }

  function Restored(blob: Blob): Option<Templates> { RestoreRows(Flatten(blob)) }

  // ---- The classes --------------------------------------------------------------------------------

  class InMemoryPromptStore {
    var templates: Templates

    constructor ()
      ensures templates == []
    {
      templates := [];
    }

    method Put(name: string, draft: Draft, now: Timestamp) returns (r: Option<Template>)
      modifies this
      ensures (templates, r) == PutInto(old(templates), name, draft, now)
    {
      if Get(templates, name) == None {
        templates := PyDict.Set(templates, name, NO_VERSIONS);
      }
      ghost var base := templates;
      var versions: Versions := GetOr(templates, name, NO_VERSIONS);
      GetSet(old(templates), name, NO_VERSIONS, name);
      var nextVersion := MaxVersion(versions) + 1;
      if !Constructible(draft) {
        return None;
      }
      var t := Template(name, nextVersion, draft, now);
      templates := PyDict.Set(templates, name, PyDict.Set(versions, nextVersion, t));
      SetTwice(old(templates), name, NO_VERSIONS, PyDict.Set(versions, nextVersion, t));
      return Some(t);
    }

    method Delete(name: string, version: Option<int>)
      modifies this
      ensures templates == DeleteFrom(old(templates), name, version)
    {
      match version {
        case None => templates := Pop(templates, name);
        case Some(v) => templates := Remove(templates, name, v);
      }
    }

    /** `_prompt_snapshot`: dictionaries filled key by key. */
    method TakeSnapshot() returns (blob: Blob)
      requires NestedUnique(templates)
      ensures blob == Snapshot(templates)
    {
      blob := [];
      for i := 0 to |templates|
        invariant blob == Snapshot(templates[..i])
      {
        var name, versions := templates[i].0, templates[i].1;
        var printed: Dict<string, Fields> := [];
        for j := 0 to |versions|
          invariant printed == PrintVersions(versions[..j])
        {
          var key := Decimal.Print(versions[j].0);
          KeyIsNew(versions, j);
          SetShape(printed, key, Fields(versions[j].1.draft, versions[j].1.created));
          printed := PyDict.Set(printed, key, Fields(versions[j].1.draft, versions[j].1.created));
          assert printed == PrintVersions(versions[..j + 1]);
        }
        assert versions[..|versions|] == versions;
        GetMeans(blob, name);
        SetShape(blob, name, printed);
        blob := PyDict.Set(blob, name, printed);
        assert blob == Snapshot(templates[..i + 1]);
      }
      assert templates[..|templates|] == templates;
    }

    /** `_restore_prompt_snapshot` into an empty store. */
    method RestoreSnapshot(blob: Blob) returns (ok: bool)
      requires templates == []
      modifies this
      ensures ok <==> Restored(blob).Some?
      ensures ok ==> templates == Restored(blob).value
    {
      var rows := Flatten(blob);
      for i := 0 to |rows|
        invariant RestoreRows(rows[..i]) == Some(templates)
      {
        assert rows[..i + 1][..i] == rows[..i];
        match ReadRow(rows[i]) {
          case None =>
            StuckRow(rows, i + 1);
            return false;
          case Some(row) => templates := PyDict.Put(templates, row.0, row.1, row.2);
        }
      }
      assert rows[..|rows|] == rows;
      return true;
    }
  }

  lemma {:induction false} SetTwice<K, V>(d: Dict<K, V>, k: K, v: V, w: V)
    ensures PyDict.Set(PyDict.Set(d, k, v), k, w) == PyDict.Set(d, k, w)
  {
    if d != [] && d[0].0 != k {
      SetTwice(d[1..], k, v, w);
      assert PyDict.Set(d, k, v)[1..] == PyDict.Set(d[1..], k, v);
    }
  }

  /** Distinct version numbers print as distinct keys. */
  lemma KeyIsNew(versions: Versions, j: nat)
    requires Unique(versions) && j < |versions|
    ensures Get(PrintVersions(versions[..j]), Decimal.Print(versions[j].0)) == None
  {
    var printed, key := PrintVersions(versions[..j]), Decimal.Print(versions[j].0);
    GetMeans(printed, key);
    if Get(printed, key).Some? {
      var i :| 0 <= i < j && printed[i] == (key, Get(printed, key).value);
      Decimal.PrintInjective(versions[i].0, versions[j].0);
      assert false;
    }
  }

  /** A row that cannot be read fails the whole restore. */
  lemma {:induction false} StuckRow(rows: seq<(string, string, Fields)>, n: nat)
    requires n <= |rows| && RestoreRows(rows[..n]) == None
    ensures RestoreRows(rows) == None
    decreases |rows| - n
  {
    if n == |rows| {
      assert rows[..n] == rows;
    } else {
      assert rows[..n + 1][..n] == rows[..n];
      StuckRow(rows, n + 1);
    }
  }

  class PersistedPromptStore {
    const delegate: InMemoryPromptStore
    var blob: Option<Blob>

    /** `create` on a blob that this store wrote. */
    constructor (blob: Option<Blob>)
      requires blob.Some? ==> Restored(blob.value).Some?
      ensures fresh(delegate) && this.blob == blob
      ensures delegate.templates == match blob case None => [] case Some(b) => Restored(b).value
    {
      delegate := new InMemoryPromptStore();
      this.blob := blob;
      new;
      if blob.Some? {
        var ok := delegate.RestoreSnapshot(blob.value);
      }
    }

    method Put(name: string, draft: Draft, now: Timestamp) returns (r: Option<Template>)
      requires NestedUnique(delegate.templates)
      modifies this, delegate
      ensures (delegate.templates, r) == PutInto(old(delegate.templates), name, draft, now)
      ensures blob == if r.None? then old(blob) else Some(Snapshot(delegate.templates))
      ensures NestedUnique(delegate.templates)
    {
      PutKeepsUnique(delegate.templates, name, draft, now);
      r := delegate.Put(name, draft, now);
      if r.Some? {
        var b := delegate.TakeSnapshot();
        blob := Some(b);
      }
    }

    method Delete(name: string, version: Option<int>)
      requires NestedUnique(delegate.templates)
      modifies this, delegate
      ensures delegate.templates == DeleteFrom(old(delegate.templates), name, version)
      ensures blob == Some(Snapshot(delegate.templates))
      ensures NestedUnique(delegate.templates)
    {
      DeleteKeepsUnique(delegate.templates, name, version);
      delegate.Delete(name, version);
      var b := delegate.TakeSnapshot();
      blob := Some(b);
    }
  }

  lemma PutKeepsUnique(templates: Templates, name: string, draft: Draft, now: Timestamp)
    requires NestedUnique(templates)
    ensures NestedUnique(PutInto(templates, name, draft, now).0)
  {
    SetNestedUnique(templates, name, NO_VERSIONS);
    var t := Template(name, NextVersion(templates, name), draft, now);
    PutUnique(templates, name, t.version, t);
  }

  lemma DeleteKeepsUnique(templates: Templates, name: string, version: Option<int>)
    requires NestedUnique(templates)
    ensures NestedUnique(DeleteFrom(templates, name, version))
  {
    match version {
      case None =>
        PopUnique(templates, name);
        PopShape(templates, name);
      case Some(v) => RemoveUnique(templates, name, v);
    }
  }

  // ---- Runs and restarts ---------------------------------------------------------------------------

  datatype Op =
    | PutOp(name: string, draft: Draft, now: Timestamp)
    | DeleteOp(name: string, version: Option<int>)

  function Apply(templates: Templates, op: Op): Templates {
    match op
    case PutOp(name, draft, now) => PutInto(templates, name, draft, now).0
    case DeleteOp(name, version) => DeleteFrom(templates, name, version)
  }

  function After(ops: seq<Op>): Templates {
    if ops == [] then [] else Apply(After(ops[..|ops| - 1]), ops[|ops| - 1])
  }

  /** A put that raises persists nothing. */
  predicate Persists(op: Op) { op.PutOp? ==> Constructible(op.draft) }

  function BlobAfter(ops: seq<Op>): Option<Blob> {
    if ops == [] then None
    else if Persists(ops[|ops| - 1]) then Some(Snapshot(After(ops)))
    else BlobAfter(ops[..|ops| - 1])
  }

  /** Every template lies under its own name and version and could be constructed. */
  ghost predicate WellFormed(templates: Templates) {
    && NestedUnique(templates)
    && forall name, v :: Get(GetOr(templates, name, NO_VERSIONS), v).Some? ==>
         var t := Get(GetOr(templates, name, NO_VERSIONS), v).value;
         t.name == name && t.version == v && Constructible(t.draft)
  }

  lemma ApplyKeepsWellFormed(templates: Templates, op: Op)
    requires WellFormed(templates)
    ensures WellFormed(Apply(templates, op))
  {
    var after := Apply(templates, op);
    match op {
      case PutOp(name, draft, now) =>
        PutKeepsUnique(templates, name, draft, now);
        var versions := GetOr(templates, name, NO_VERSIONS);
        var t := Template(name, NextVersion(templates, name), draft, now);
        var inner := if Constructible(draft) then PyDict.Set(versions, t.version, t) else versions;
        assert after == PyDict.Set(templates, name, inner) || after == templates;
        forall n, v | Get(GetOr(after, n, NO_VERSIONS), v).Some?
          ensures var u := Get(GetOr(after, n, NO_VERSIONS), v).value;
                  u.name == n && u.version == v && Constructible(u.draft)
        {
          GetSet(templates, name, inner, n);
          GetSet(versions, t.version, t, v);
          assert Get(GetOr(after, n, NO_VERSIONS), v) == Get(GetOr(templates, n, NO_VERSIONS), v)
                 || (Constructible(draft) && n == name && v == t.version
                     && Get(GetOr(after, n, NO_VERSIONS), v) == Some(t));
        }
      case DeleteOp(name, version) =>
        DeleteKeepsUnique(templates, name, version);
        GetInner(templates, name);
        forall n, v | Get(GetOr(after, n, NO_VERSIONS), v).Some?
          ensures var u := Get(GetOr(after, n, NO_VERSIONS), v).value;
                  u.name == n && u.version == v && Constructible(u.draft)
        {
          match version {
            case None => GetPop(templates, name, n);
            case Some(w) =>
              if Get(templates, name).Some? {
                GetSet(templates, name, Pop(Get(templates, name).value, w), n);
                GetPop(Get(templates, name).value, w, v);
              }
          }
          assert Get(GetOr(templates, n, NO_VERSIONS), v) == Get(GetOr(after, n, NO_VERSIONS), v);
        }
    }
  }

  lemma {:induction false} FlattenSnapshot(templates: Templates)
    ensures |Flatten(Snapshot(templates))| == |Flatten(templates)|
    ensures forall i :: 0 <= i < |Flatten(templates)| ==>
              var row := Flatten(templates)[i];
              Flatten(Snapshot(templates))[i] == (row.0, Decimal.Print(row.1), Fields(row.2.draft, row.2.created))
  {
    if templates != [] {
      var n := |templates| - 1;
      FlattenSnapshot(templates[..n]);
      assert Snapshot(templates)[..n] == Snapshot(templates[..n]);
    }
  }

  /** Rows that read back as the entries they were printed from restore what those rebuild. */
  lemma {:induction false} RestoreIsRebuild(rows: seq<(string, string, Fields)>, entries: seq<(string, int, Template)>)
    requires |rows| == |entries| && forall i :: 0 <= i < |rows| ==> ReadRow(rows[i]) == Some(entries[i])
    ensures RestoreRows(rows) == Some(Rebuild([], entries))
  {
    if rows != [] {
      RestoreIsRebuild(rows[..|rows| - 1], entries[..|rows| - 1]);
    }
  }

  /** Restoring a snapshot loses exactly the names with no versions. */
  lemma RestoreSnapshotRoundTrip(templates: Templates)
    requires WellFormed(templates)
    ensures Restored(Snapshot(templates)) == Some(DropEmpty(templates))
  {
    var rows, entries := Flatten(Snapshot(templates)), Flatten(templates);
    FlattenSnapshot(templates);
    forall i | 0 <= i < |rows| ensures ReadRow(rows[i]) == Some(entries[i]) {
      FlattenedIsEntry(templates, i);
      Decimal.ParsePrint(entries[i].1);
    }
    RestoreIsRebuild(rows, entries);
    RebuildFlatten(templates);
  }

  function Restart(blob: Option<Blob>): Option<Templates> {
    match blob
    case None => Some([])
    case Some(b) => Restored(b)
  }

  lemma FailedPutAddsNoVersion(templates: Templates, name: string, draft: Draft, now: Timestamp)
    requires !Constructible(draft)
    ensures DropEmpty(PutInto(templates, name, draft, now).0) == DropEmpty(templates)
  {
    if Get(templates, name) == None {
      SetShape(templates, name, NO_VERSIONS);
      var after := templates + [(name, NO_VERSIONS)];
      assert after[..|templates|] == templates;
      assert DropEmpty(after) == DropEmpty(templates) + [];
    }
  }

  lemma {:induction false} RestartDropsEmpty(ops: seq<Op>)
    ensures WellFormed(After(ops))
    ensures Restart(BlobAfter(ops)) == Some(DropEmpty(After(ops)))
  {
    if ops != [] {
      var init, op := ops[..|ops| - 1], ops[|ops| - 1];
      RestartDropsEmpty(init);
      ApplyKeepsWellFormed(After(init), op);
      if Persists(op) {
        RestoreSnapshotRoundTrip(After(ops));
      } else {
        FailedPutAddsNoVersion(After(init), op.name, op.draft, op.now);
      }
    }
  }

  /** The names that still have a version, in order. */
  function LiveNames(templates: Templates): seq<string> {
    if templates == [] then []
    else
      var last := templates[|templates| - 1];
      LiveNames(templates[..|templates| - 1]) + if last.1 == [] then [] else [last.0]
  }

  lemma {:induction false} NamesKept(templates: Templates)
    ensures Keys(DropEmpty(templates)) == LiveNames(templates)
  {
    if templates != [] {
      NamesKept(templates[..|templates| - 1]);
    }
  }

  /** Names without versions are invisible to everything but `list_names`. */
  lemma DropEmptyIsInvisible(templates: Templates, name: string, version: Option<int>)
    requires NestedUnique(templates)
    ensures Lookup(DropEmpty(templates), name, version) == Lookup(templates, name, version)
    ensures ListVersions(DropEmpty(templates), name) == ListVersions(templates, name)
    ensures NextVersion(DropEmpty(templates), name) == NextVersion(templates, name)
  {
    DropEmptyGetOr(templates, name);
    assert GetOr(DropEmpty(templates), name, NO_VERSIONS) == GetOr(templates, name, NO_VERSIONS);
  }

  /** After any run of puts and deletes, failing puts included, a store rebuilt from the blob
      answers get and list_versions as before and numbers the next version as before; its
      list_names loses exactly the names left with no version. */
  lemma RestartEquivalence(ops: seq<Op>, name: string, version: Option<int>)
    ensures Restart(BlobAfter(ops)).Some?
    ensures var live, restarted := After(ops), Restart(BlobAfter(ops)).value;
            && Lookup(restarted, name, version) == Lookup(live, name, version)
            && ListVersions(restarted, name) == ListVersions(live, name)
            && NextVersion(restarted, name) == NextVersion(live, name)
            && ListNames(restarted) == LiveNames(live)
  {
    RestartDropsEmpty(ops);
    DropEmptyIsInvisible(After(ops), name, version);
    NamesKept(After(ops));
  }
}
