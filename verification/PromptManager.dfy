/** The read cache over a prompt store. Used by one caller it is invisible; used by several, with
    calls suspended while the store persists, or failing there, it is stated exactly when it
    agrees with the store once none is. */
module PromptManager {
  import opened Wrappers
  import opened PyDict
  import opened PromptStore

  type Key = (string, Option<int>)
  type Cache = map<Key, Template>

  /** A PROMPT.md after parsing: its name and draft, or a parse error. */
  type File = Option<(string, Draft)>

  /** `put`, after the store returned: "latest" has changed, and the new version is known. */
  function CachePut(cache: Cache, t: Template): Cache {
    (cache - {(t.name, None)})[(t.name, Some(t.version)) := t]
  }

  /** `delete`, after the store returned: drop every entry of the name. */
  function CacheDrop(cache: Cache, name: string): Cache {
    map key | key in cache && key.0 != name :: cache[key]
  }

  /** `get`: the answer and the cache afterwards. */
  function CachedGet(templates: Templates, cache: Cache, key: Key): (Cache, Option<Template>) {
    if key in cache then (cache, Some(cache[key]))
    else
      match Lookup(templates, key.0, key.1)
      case None => (cache, None)
      case Some(t) => (cache[key := t], Some(t))
  }

  // ---- The class --------------------------------------------------------------------------------

  class Manager {
    const store: InMemoryPromptStore
    var cache: Cache

    constructor (store: InMemoryPromptStore)
      ensures this.store == store && cache == map[]
    {
      this.store := store;
      cache := map[];
    }

    method Get(name: string, version: Option<int>) returns (r: Option<Template>)
      modifies this
      ensures (cache, r) == CachedGet(store.templates, old(cache), (name, version))
    {
      var key := (name, version);
      if key in cache {
        return Some(cache[key]);
      }
      r := Lookup(store.templates, name, version);
      if r.Some? {
        cache := cache[key := r.value];
      }
    }

    /** `None`: the template could not be constructed, and the error propagated. */
    method Put(name: string, draft: Draft, now: Timestamp) returns (r: Option<Template>)
      modifies this, store
      ensures (store.templates, r) == PutInto(old(store.templates), name, draft, now)
      ensures cache == match r case None => old(cache) case Some(t) => CachePut(old(cache), t)
    {
      r := store.Put(name, draft, now);
      if r.Some? {
        cache := cache - {(name, None)};
        cache := cache[(name, Some(r.value.version)) := r.value];
      }
    }

    method Delete(name: string, version: Option<int>)
      modifies this, store
      ensures store.templates == DeleteFrom(old(store.templates), name, version)
      ensures cache == CacheDrop(old(cache), name)
    {
      store.Delete(name, version);
      var keys := set key | key in cache && key.0 == name;
      while keys != {}
        invariant keys <= cache.Keys && forall key :: key in keys ==> key.0 == name
        invariant cache.Keys <= old(cache).Keys && forall key :: key in cache ==> cache[key] == old(cache)[key]
        invariant forall key :: key in old(cache) && key.0 != name ==> key in cache
        invariant forall key :: key in cache && key.0 == name ==> key in keys
        invariant store.templates == DeleteFrom(old(store.templates), name, version)
        decreases |keys|
      {
        var key :| key in keys;
        cache := cache - {key};
        keys := keys - {key};
      }
    }

    method Load(file: File, now: Timestamp) returns (r: Option<Template>)
      modifies this, store
      ensures var m, answer := CachedLoad(old(store.templates), old(cache), file, now).0,
                               CachedLoad(old(store.templates), old(cache), file, now).1;
              store.templates == m.templates && cache == m.cache && r == answer
    {
      match file {
        case None => return None;
        case Some((name, draft)) =>
          var existing := Get(name, None);
          if existing.Some? && existing.value.draft == draft {
            return existing;
          }
          r := Put(name, draft, now);
      }
    }
  }

  datatype Managed = Managed(templates: Templates, cache: Cache)

  /** `load` does not write a file again that is already the latest version. */
  function CachedLoad(templates: Templates, cache: Cache, file: File, now: Timestamp): (Managed, Option<Template>) {
    match file
    case None => (Managed(templates, cache), None)
    case Some((name, draft)) =>
      var (cache', existing) := CachedGet(templates, cache, (name, None));
      if existing.Some? && existing.value.draft == draft then (Managed(templates, cache'), existing)
      else
        var (templates', r) := PutInto(templates, name, draft, now);
        (Managed(templates', match r case None => cache' case Some(t) => CachePut(cache', t)), r)
  }

  // ---- One caller: the cache is invisible ---------------------------------------------------------

  datatype Call =
    | GetCall(name: string, version: Option<int>)
    | PutCall(name: string, draft: Draft, now: Timestamp)
    | DeleteCall(name: string, version: Option<int>)
    | LoadCall(file: File, now: Timestamp)

  /** What the manager does: its new state and its answer. */
  function Do(m: Managed, call: Call): (Managed, Option<Template>) {
    match call
    case GetCall(name, version) =>
      var (cache, r) := CachedGet(m.templates, m.cache, (name, version));
      (m.(cache := cache), r)
    case PutCall(name, draft, now) =>
      var (templates, r) := PutInto(m.templates, name, draft, now);
      (Managed(templates, match r case None => m.cache case Some(t) => CachePut(m.cache, t)), r)
    case DeleteCall(name, version) =>
      (Managed(DeleteFrom(m.templates, name, version), CacheDrop(m.cache, name)), None)
    case LoadCall(file, now) => CachedLoad(m.templates, m.cache, file, now)
  }

  /** What the bare store would do. */
  function DoBare(templates: Templates, call: Call): (Templates, Option<Template>) {
    match call
    case GetCall(name, version) => (templates, Lookup(templates, name, version))
    case PutCall(name, draft, now) => PutInto(templates, name, draft, now)
    case DeleteCall(name, version) => (DeleteFrom(templates, name, version), None)
    case LoadCall(None, _) => (templates, None)
    case LoadCall(Some((name, draft)), now) =>
      var existing := Lookup(templates, name, None);
      if existing.Some? && existing.value.draft == draft then (templates, existing)
      else PutInto(templates, name, draft, now)
  }

  function Answers(m: Managed, calls: seq<Call>): seq<Option<Template>>
    decreases |calls|
  {
    if calls == [] then []
    else var (m', r) := Do(m, calls[0]); [r] + Answers(m', calls[1..])
  }

  function BareAnswers(templates: Templates, calls: seq<Call>): seq<Option<Template>>
    decreases |calls|
  {
    if calls == [] then []
    else var (templates', r) := DoBare(templates, calls[0]); [r] + BareAnswers(templates', calls[1..])
  }

  /** Every cached entry is what the store would answer. */
  ghost predicate Agrees(templates: Templates, cache: Cache) {
    forall key :: key in cache ==> Lookup(templates, key.0, key.1) == Some(cache[key])
  }

  lemma PutAgrees(templates: Templates, cache: Cache, name: string, draft: Draft, now: Timestamp)
    requires Agrees(templates, cache)
    ensures var (templates', r) := PutInto(templates, name, draft, now);
            Agrees(templates', match r case None => cache case Some(t) => CachePut(cache, t))
  {
    var (templates', r) := PutInto(templates, name, draft, now);
    var cache' := match r case None => cache case Some(t) => CachePut(cache, t);
    forall key | key in cache' ensures Lookup(templates', key.0, key.1) == Some(cache'[key]) {
      PutIsNew(templates, name, draft, now, key.0, key.1);
    }
  }

  lemma DeleteAgrees(templates: Templates, cache: Cache, name: string, version: Option<int>)
    requires NestedUnique(templates) && Agrees(templates, cache)
    ensures Agrees(DeleteFrom(templates, name, version), CacheDrop(cache, name))
  {
    var cache' := CacheDrop(cache, name);
    forall key | key in cache'
      ensures Lookup(DeleteFrom(templates, name, version), key.0, key.1) == Some(cache'[key])
    {
      DeleteForgets(templates, name, version, key.0, key.1);
    }
  }

  /** What a get answers is what every later one answers, from whatever store, until the entry is
      dropped: the store is not asked again. */
  lemma AnswersAreCached(templates: Templates, cache: Cache, key: Key, later: Templates)
    ensures var (cache', r) := CachedGet(templates, cache, key);
            && (r.Some? ==> CachedGet(later, cache', key) == (cache', r))
            && (r.None? ==> cache' == cache && Lookup(templates, key.0, key.1) == None)
  {
  }

  /** After a put the new version is answered without the store and "latest" is asked for again; after
      a delete no entry of the name is left; all other entries are as they were. */
  lemma ChangesAreCached(cache: Cache, t: Template, name: string, key: Key, later: Templates)
    ensures CachedGet(later, CachePut(cache, t), (t.name, Some(t.version))) == (CachePut(cache, t), Some(t))
    ensures key in CachePut(cache, t) <==> key == (t.name, Some(t.version)) || (key in cache && key != (t.name, None))
    ensures key in CacheDrop(cache, name) <==> key in cache && key.0 != name
    ensures key in cache && key != (t.name, Some(t.version)) && key in CachePut(cache, t) ==>
              CachePut(cache, t)[key] == cache[key]
    ensures key in CacheDrop(cache, name) ==> CacheDrop(cache, name)[key] == cache[key]
  {
  }

  /** Loading a file gives a template with its draft that is the latest of its name, and loading it
      again gives the same one and writes nothing. */
  lemma LoadIsIdempotent(m: Managed, name: string, draft: Draft, now: Timestamp, later: Timestamp)
    requires NestedUnique(m.templates) && Agrees(m.templates, m.cache)
    ensures var (m', r) := Do(m, LoadCall(Some((name, draft)), now));
            var (m'', again) := Do(m', LoadCall(Some((name, draft)), later));
            r.Some? ==>
              && r.value.draft == draft && Lookup(m'.templates, name, None) == r
              && m''.templates == m'.templates && again == r
  {
    var (m', r) := Do(m, LoadCall(Some((name, draft)), now));
    DoIsDoBare(m, LoadCall(Some((name, draft)), now));
    DoIsDoBare(m', LoadCall(Some((name, draft)), later));
    PutStores(m.templates, name, draft, now);
  }

  lemma DoIsDoBare(m: Managed, call: Call)
    requires NestedUnique(m.templates) && Agrees(m.templates, m.cache)
    ensures var (m', r) := Do(m, call);
            (m'.templates, r) == DoBare(m.templates, call)
            && NestedUnique(m'.templates) && Agrees(m'.templates, m'.cache)
  {
    match call {
      case GetCall(_, _) =>
      case PutCall(name, draft, now) =>
        PutAgrees(m.templates, m.cache, name, draft, now);
        PutKeepsUnique(m.templates, name, draft, now);
      case DeleteCall(name, version) =>
        DeleteAgrees(m.templates, m.cache, name, version);
        DeleteKeepsUnique(m.templates, name, version);
      case LoadCall(None, _) =>
      case LoadCall(Some((name, draft)), now) =>
        var (cache, _) := CachedGet(m.templates, m.cache, (name, None));
        assert Agrees(m.templates, cache);
        PutAgrees(m.templates, cache, name, draft, now);
        PutKeepsUnique(m.templates, name, draft, now);
    }
  }

  /** For every sequence of get, put, delete and load the manager answers as the bare store
      would, from an empty cache over any store; a deleted newest version number that is given
      out again is no exception. */
  lemma CacheIsInvisible(templates: Templates, calls: seq<Call>)
    requires NestedUnique(templates)
    ensures Answers(Managed(templates, map[]), calls) == BareAnswers(templates, calls)
  {
    AnswersAgree(Managed(templates, map[]), calls);
  }

  lemma {:induction false} AnswersAgree(m: Managed, calls: seq<Call>)
    requires NestedUnique(m.templates) && Agrees(m.templates, m.cache)
    ensures Answers(m, calls) == BareAnswers(m.templates, calls)
    decreases |calls|
  {
    if calls != [] {
      DoIsDoBare(m, calls[0]);
      AnswersAgree(Do(m, calls[0]).0, calls[1..]);
    }
  }

  // ---- Several callers, suspended while the store persists ------------------------------------------

  /** A put or delete between the store's change and the cache's; it resumes, or it ends there when
      persisting raises. */
  datatype Pending = PutPending(t: Template) | DeletePending(name: string) | Finished

  datatype Shared = Shared(templates: Templates, cache: Cache, pending: seq<Pending>)

  datatype Step =
    | GetStep(name: string, version: Option<int>)
    | PutBegins(name: string, draft: Draft, now: Timestamp)
    | DeleteBegins(name: string, version: Option<int>)
    | Resumes(i: nat)
    | Fails(i: nat)

  function StepShared(s: Shared, step: Step): Shared {
    match step
    case GetStep(name, version) => s.(cache := CachedGet(s.templates, s.cache, (name, version)).0)
    case PutBegins(name, draft, now) =>
      var (templates, r) := PutInto(s.templates, name, draft, now);
      Shared(templates, s.cache, s.pending + match r case None => [] case Some(t) => [PutPending(t)])
    case DeleteBegins(name, version) =>
      s.(templates := DeleteFrom(s.templates, name, version), pending := s.pending + [DeletePending(name)])
    case Resumes(i) =>
      if i >= |s.pending| then s
      else
        (match s.pending[i]
         case PutPending(t) => s.(cache := CachePut(s.cache, t), pending := s.pending[i := Finished])
         case DeletePending(name) => s.(cache := CacheDrop(s.cache, name), pending := s.pending[i := Finished])
         case Finished => s)
    case Fails(i) => if i >= |s.pending| then s else s.(pending := s.pending[i := Finished])
  }

  /** The entries that a suspended call drops when it resumes, and leaves when it fails. */
  function Droppable(cache: Cache, p: Pending): Cache {
    match p
    case PutPending(t) => map key | key in cache && key == (t.name, None) :: cache[key]
    case DeletePending(name) => map key | key in cache && key.0 == name :: cache[key]
    case Finished => map[]
  }

  ghost predicate PutsPending(s: Shared, name: string) {
    exists i :: 0 <= i < |s.pending| && s.pending[i].PutPending? && s.pending[i].t.name == name
  }

  ghost predicate DeletesPending(s: Shared, name: string) {
    exists i :: 0 <= i < |s.pending| && s.pending[i] == DeletePending(name)
  }

  /** The step does not make a delete of a name overlap a put of that name, and is no failure that
      leaves an entry behind. */
  ghost predicate Harmless(s: Shared, step: Step) {
    match step
    case PutBegins(name, _, _) => !DeletesPending(s, name)
    case DeleteBegins(name, _) => !PutsPending(s, name)
    case Fails(i) => i < |s.pending| ==> Droppable(s.cache, s.pending[i]) == map[]
    case _ => true
  }

  function RunShared(s: Shared, steps: seq<Step>): Shared
    decreases |steps|
  {
    if steps == [] then s else RunShared(StepShared(s, steps[0]), steps[1..])
  }

  ghost predicate AlwaysHarmless(s: Shared, steps: seq<Step>)
    decreases |steps|
  {
    steps == [] || (Harmless(s, steps[0]) && AlwaysHarmless(StepShared(s, steps[0]), steps[1..]))
  }

  ghost predicate Quiescent(s: Shared) {
    forall i :: 0 <= i < |s.pending| ==> s.pending[i] == Finished
  }

  // What the calls that have ended left in the cache.

  /** For each name and version the template of the last put that resumed, and each entry that a
      failed put or delete should have dropped, unless a call that has resumed since dropped it.
      Nothing is read off the cache but what a failure leaves in it. */
  type Leavings = Cache

  function StepLeavings(s: Shared, w: Leavings, step: Step): Leavings {
    match step
    case Resumes(i) =>
      if i >= |s.pending| then w
      else
        (match s.pending[i]
         case PutPending(t) => CachePut(w, t)
         case DeletePending(name) => CacheDrop(w, name)
         case Finished => w)
    case Fails(i) => if i >= |s.pending| then w else w + Droppable(s.cache, s.pending[i])
    case _ => w
  }

  function AllLeavings(s: Shared, w: Leavings, steps: seq<Step>): Leavings
    decreases |steps|
  {
    if steps == [] then w else AllLeavings(StepShared(s, steps[0]), StepLeavings(s, w, steps[0]), steps[1..])
  }

  /** An entry that differs from the store is bound to be dropped, or was left. */
  ghost predicate Explained(s: Shared, w: Leavings, key: Key)
    requires key in s.cache
  {
    Lookup(s.templates, key.0, key.1) == Some(s.cache[key])
    || DeletesPending(s, key.0) || (key.1 == None && PutsPending(s, key.0)) || key in w
  }

  ghost predicate Tracked(s: Shared, w: Leavings) {
    && (forall key :: key in s.cache ==> Explained(s, w, key))
    && (forall key :: key in w ==> key in s.cache && s.cache[key] == w[key])
  }

  lemma StepKeepsUnique(s: Shared, step: Step)
    requires NestedUnique(s.templates)
    ensures NestedUnique(StepShared(s, step).templates)
  {
    match step {
      case PutBegins(name, draft, now) => PutKeepsUnique(s.templates, name, draft, now);
      case DeleteBegins(name, version) => DeleteKeepsUnique(s.templates, name, version);
      case _ =>
    }
  }

  /** A suspended call stays suspended until it resumes or fails. */
  lemma StaysPending(s: Shared, step: Step, name: string)
    requires (step.Resumes? || step.Fails?) && step.i < |s.pending| ==> s.pending[step.i] != DeletePending(name)
    ensures DeletesPending(s, name) ==> DeletesPending(StepShared(s, step), name)
    ensures PutsPending(s, name) ==>
              PutsPending(StepShared(s, step), name)
              || ((step.Resumes? || step.Fails?) && s.pending[step.i].PutPending? && s.pending[step.i].t.name == name)
  {
    var s' := StepShared(s, step);
    if DeletesPending(s, name) {
      var i :| 0 <= i < |s.pending| && s.pending[i] == DeletePending(name);
      assert s'.pending[i] == DeletePending(name);
    }
    if PutsPending(s, name) {
      var i :| 0 <= i < |s.pending| && s.pending[i].PutPending? && s.pending[i].t.name == name;
      assert s'.pending[i] == s.pending[i] || ((step.Resumes? || step.Fails?) && step.i == i);
    }
  }

  lemma PutBeginsTracked(s: Shared, w: Leavings, name: string, draft: Draft, now: Timestamp)
    requires Tracked(s, w)
    ensures Tracked(StepShared(s, PutBegins(name, draft, now)), w)
  {
    var s' := StepShared(s, PutBegins(name, draft, now));
    forall key | key in s'.cache ensures Explained(s', w, key) {
      assert Explained(s, w, key);
      StaysPending(s, PutBegins(name, draft, now), key.0);
      PutIsNew(s.templates, name, draft, now, key.0, key.1);
      if |s'.pending| > |s.pending| {
        assert s'.pending[|s.pending|].PutPending?;
      }
    }
  }

  lemma DeleteBeginsTracked(s: Shared, w: Leavings, name: string, version: Option<int>)
    requires NestedUnique(s.templates) && Tracked(s, w)
    ensures Tracked(StepShared(s, DeleteBegins(name, version)), w)
  {
    var s' := StepShared(s, DeleteBegins(name, version));
    assert s'.pending[|s.pending|] == DeletePending(name);
    forall key | key in s'.cache ensures Explained(s', w, key) {
      assert Explained(s, w, key);
      StaysPending(s, DeleteBegins(name, version), key.0);
      if key.0 != name {
        DeleteForgets(s.templates, name, version, key.0, key.1);
      }
    }
  }

  lemma ResumesTracked(s: Shared, w: Leavings, i: nat)
    requires Tracked(s, w)
    ensures Tracked(StepShared(s, Resumes(i)), StepLeavings(s, w, Resumes(i)))
  {
    var s', w' := StepShared(s, Resumes(i)), StepLeavings(s, w, Resumes(i));
    forall key | key in s'.cache ensures Explained(s', w', key) {
      if key in s.cache {
        assert Explained(s, w, key);
      }
      if !(i < |s.pending| && s.pending[i] == DeletePending(key.0)) {
        StaysPending(s, Resumes(i), key.0);
      }
    }
  }

  lemma FailsTracked(s: Shared, w: Leavings, i: nat)
    requires Tracked(s, w)
    ensures Tracked(StepShared(s, Fails(i)), StepLeavings(s, w, Fails(i)))
  {
    var s', w' := StepShared(s, Fails(i)), StepLeavings(s, w, Fails(i));
    forall key | key in s'.cache ensures Explained(s', w', key) {
      assert Explained(s, w, key);
      if !(i < |s.pending| && s.pending[i] == DeletePending(key.0)) {
        StaysPending(s, Fails(i), key.0);
      }
    }
  }

  lemma {:induction false} RunTracked(s: Shared, w: Leavings, steps: seq<Step>)
    requires NestedUnique(s.templates) && Tracked(s, w)
    ensures Tracked(RunShared(s, steps), AllLeavings(s, w, steps))
    decreases |steps|
  {
    if steps != [] {
      match steps[0] {
        case GetStep(_, _) => assert Tracked(StepShared(s, steps[0]), w);
        case PutBegins(name, draft, now) => PutBeginsTracked(s, w, name, draft, now);
        case DeleteBegins(name, version) => DeleteBeginsTracked(s, w, name, version);
        case Resumes(i) => ResumesTracked(s, w, i);
        case Fails(i) => FailsTracked(s, w, i);
      }
      StepKeepsUnique(s, steps[0]);
      RunTracked(StepShared(s, steps[0]), StepLeavings(s, w, steps[0]), steps[1..]);
    }
  }

  // What the puts and deletes that have begun left in the store.

  /** For each name and version, the template of the last put of it that began, or what the store
      first held, unless a delete that covers it has begun since. It is read off the order of the
      beginnings. */
  type Begun = ((string, int)) -> Option<Template>

  function AtFirst(templates: Templates): Begun { (k: (string, int)) => Lookup(templates, k.0, Some(k.1)) }

  function StepBegun(s: Shared, b: Begun, step: Step): Begun {
    match step
    case PutBegins(name, draft, now) =>
      (match PutInto(s.templates, name, draft, now).1
       case None => b
       case Some(t) => (k: (string, int)) => if k == (name, t.version) then Some(t) else b(k))
    case DeleteBegins(name, version) =>
      (k: (string, int)) => if k.0 == name && (version == None || version == Some(k.1)) then None else b(k)
    case _ => b
  }

  function LastBegun(s: Shared, b: Begun, steps: seq<Step>): Begun
    decreases |steps|
  {
    if steps == [] then b else LastBegun(StepShared(s, steps[0]), StepBegun(s, b, steps[0]), steps[1..])
  }

  /** The store holds what has begun. */
  ghost predicate Stands(s: Shared, b: Begun) {
    forall k: (string, int) :: Lookup(s.templates, k.0, Some(k.1)) == b(k)
  }

  lemma PutBeginsStands(s: Shared, b: Begun, name: string, draft: Draft, now: Timestamp)
    requires Stands(s, b)
    ensures Stands(StepShared(s, PutBegins(name, draft, now)), StepBegun(s, b, PutBegins(name, draft, now)))
  {
    var step := PutBegins(name, draft, now);
    var s', b' := StepShared(s, step), StepBegun(s, b, step);
    forall k: (string, int) ensures Lookup(s'.templates, k.0, Some(k.1)) == b'(k) {
      PutIsNew(s.templates, name, draft, now, k.0, Some(k.1));
    }
  }

  lemma DeleteBeginsStands(s: Shared, b: Begun, name: string, version: Option<int>)
    requires NestedUnique(s.templates) && Stands(s, b)
    ensures Stands(StepShared(s, DeleteBegins(name, version)), StepBegun(s, b, DeleteBegins(name, version)))
  {
    var step := DeleteBegins(name, version);
    var s', b' := StepShared(s, step), StepBegun(s, b, step);
    forall k: (string, int) ensures Lookup(s'.templates, k.0, Some(k.1)) == b'(k) {
      if k.0 == name {
        DeleteRemoves(s.templates, name, version, k.1);
      } else {
        DeleteForgets(s.templates, name, version, k.0, Some(k.1));
      }
    }
  }

  lemma {:induction false} RunStands(s: Shared, b: Begun, steps: seq<Step>)
    requires NestedUnique(s.templates) && Stands(s, b)
    ensures Stands(RunShared(s, steps), LastBegun(s, b, steps))
    decreases |steps|
  {
    if steps != [] {
      match steps[0] {
        case PutBegins(name, draft, now) => PutBeginsStands(s, b, name, draft, now);
        case DeleteBegins(name, version) => DeleteBeginsStands(s, b, name, version);
        case _ => assert StepShared(s, steps[0]).templates == s.templates;
      }
      StepKeepsUnique(s, steps[0]);
      RunStands(StepShared(s, steps[0]), StepBegun(s, b, steps[0]), steps[1..]);
    }
  }

  /** What has begun makes `t` the answer for `key`: for "latest", it is the greatest version left. */
  ghost predicate BegunGives(b: Begun, key: Key, t: Template) {
    match key.1
    case Some(v) => b((key.0, v)) == Some(t)
    case None => exists v :: b((key.0, v)) == Some(t) && forall u :: u > v ==> b((key.0, u)) == None
  }

  lemma BegunAnswers(s: Shared, b: Begun, key: Key, t: Template)
    requires Stands(s, b)
    ensures Lookup(s.templates, key.0, key.1) == Some(t) <==> BegunGives(b, key, t)
  {
    if key.1 == None {
      LatestIsGreatest(s.templates, key.0, t);
      assert forall u :: b((key.0, u)) == Lookup(s.templates, key.0, Some(u));
    }
  }

  /** Every put that was the last to resume for its name and version was also the last to begin, or
      one of an identical template was; and every entry that a failed call should have dropped, and
      none since has, is still what the beginnings make the answer. */
  ghost predicate LeftInOrder(templates: Templates, steps: seq<Step>) {
    var s0 := Shared(templates, map[], []);
    var w, b := AllLeavings(s0, map[], steps), LastBegun(s0, AtFirst(templates), steps);
    forall key :: key in w ==> BegunGives(b, key, w[key])
  }

  /** Under any interleaving, overlaps and failures included, and from an empty cache over any
      store: once nothing is suspended, the cache agrees with the store if and only if what the
      ended calls left in the cache is in the order of their beginnings. */
  lemma LeavingsDecide(templates: Templates, steps: seq<Step>)
    requires NestedUnique(templates) && Quiescent(RunShared(Shared(templates, map[], []), steps))
    ensures var s := RunShared(Shared(templates, map[], []), steps);
            Agrees(s.templates, s.cache) <==> LeftInOrder(templates, steps)
  {
    var s0 := Shared(templates, map[], []);
    var s, w, b := RunShared(s0, steps), AllLeavings(s0, map[], steps), LastBegun(s0, AtFirst(templates), steps);
    RunTracked(s0, map[], steps);
    RunStands(s0, AtFirst(templates), steps);
    forall key | key in w ensures Lookup(s.templates, key.0, key.1) == Some(w[key]) <==> BegunGives(b, key, w[key]) {
      BegunAnswers(s, b, key, w[key]);
    }
    if !Agrees(s.templates, s.cache) {
      var key :| key in s.cache && Lookup(s.templates, key.0, key.1) != Some(s.cache[key]);
      assert Explained(s, w, key);
      assert key in w;
    } else {
      assert forall key :: key in w ==> key in s.cache;
    }
  }

  // One call that fails.

  /** A put whose persisting raises leaves an agreeing cache agreeing if and only if the name's latest
      version was not cached. */
  lemma FailedPutLeaves(s: Shared, name: string, draft: Draft, now: Timestamp)
    requires WellFormed(s.templates) && Agrees(s.templates, s.cache) && Constructible(draft)
    ensures var s' := StepShared(StepShared(s, PutBegins(name, draft, now)), Fails(|s.pending|));
            Agrees(s'.templates, s'.cache) <==> (name, None) !in s.cache
  {
    var (templates, r) := PutInto(s.templates, name, draft, now);
    forall key | key in s.cache && key != (name, None)
      ensures Lookup(templates, key.0, key.1) == Some(s.cache[key])
    {
      PutIsNew(s.templates, name, draft, now, key.0, key.1);
    }
    PutIsNew(s.templates, name, draft, now, name, None);
    if (name, None) in s.cache {
      LatestNumber(s.templates, name);
    }
  }

  /** The latest template bears the greatest number. */
  lemma LatestNumber(templates: Templates, name: string)
    requires WellFormed(templates)
    ensures Lookup(templates, name, None).Some? ==>
              Lookup(templates, name, None).value.version == MaxVersion(GetOr(templates, name, NO_VERSIONS))
  {
  }

  /** The delete leaves what `key` finds alone. */
  predicate Spares(templates: Templates, version: Option<int>, key: Key) {
    version.Some? && version.value != match key.1
                                      case None => MaxVersion(GetOr(templates, key.0, NO_VERSIONS))
                                      case Some(v) => v
  }

  lemma DeleteSpares(templates: Templates, name: string, version: Option<int>, v: Option<int>)
    requires WellFormed(templates) && Lookup(templates, name, v).Some?
    ensures Lookup(DeleteFrom(templates, name, version), name, v) == Lookup(templates, name, v)
            <==> Spares(templates, version, (name, v))
  {
    var after := DeleteFrom(templates, name, version);
    DeleteKeepsUnique(templates, name, version);
    match v {
      case Some(u) => DeleteRemoves(templates, name, version, u);
      case None =>
        var versions, rest := GetOr(templates, name, NO_VERSIONS), GetOr(after, name, NO_VERSIONS);
        var m, n := MaxVersion(versions), MaxVersion(rest);
        DeleteRemoves(templates, name, version, m);
        DeleteRemoves(templates, name, version, n);
        MaxIsGreatest(versions, n);
        MaxIsGreatest(rest, m);
        MaxIsGreatest(rest, n);
        assert Lookup(after, name, Some(n)) == Get(rest, n) && Lookup(after, name, Some(m)) == Get(rest, m);
        LatestNumber(templates, name);
    }
  }

  /** A delete whose persisting raises leaves an agreeing cache agreeing if and only if every cached
      entry of the name is for a version that it does not delete, the greatest one for "latest". */
  lemma FailedDeleteLeaves(s: Shared, name: string, version: Option<int>)
    requires WellFormed(s.templates) && Agrees(s.templates, s.cache)
    ensures var s' := StepShared(StepShared(s, DeleteBegins(name, version)), Fails(|s.pending|));
            Agrees(s'.templates, s'.cache)
            <==> forall key :: key in s.cache && key.0 == name ==> Spares(s.templates, version, key)
  {
    var after := DeleteFrom(s.templates, name, version);
    forall key | key in s.cache
      ensures Lookup(after, key.0, key.1) == Some(s.cache[key])
              <==> (key.0 == name ==> Spares(s.templates, version, key))
    {
      if key.0 == name {
        DeleteSpares(s.templates, name, version, key.1);
      } else {
        DeleteForgets(s.templates, name, version, key.0, key.1);
      }
    }
  }

  // Without an overlap or such a failure.

  ghost predicate Covered(s: Shared, w: Leavings) {
    && (forall key :: key in w ==> key in s.cache && key.1.Some?)
    && (forall key :: key in w ==>
          Lookup(s.templates, key.0, key.1) == Some(w[key]) || DeletesPending(s, key.0))
    && (forall i :: 0 <= i < |s.pending| && s.pending[i].PutPending? ==>
          var t := s.pending[i].t;
          !DeletesPending(s, t.name) && Lookup(s.templates, t.name, Some(t.version)) == Some(t))
  }

  lemma PutBeginsCovered(s: Shared, w: Leavings, name: string, draft: Draft, now: Timestamp)
    requires Covered(s, w) && !DeletesPending(s, name)
    ensures Covered(StepShared(s, PutBegins(name, draft, now)), w)
  {
    var s' := StepShared(s, PutBegins(name, draft, now));
    assert forall n :: DeletesPending(s', n) ==> DeletesPending(s, n);
    forall k | k in w ensures Lookup(s'.templates, k.0, k.1) == Some(w[k]) || DeletesPending(s', k.0) {
      StaysPending(s, PutBegins(name, draft, now), k.0);
      PutIsNew(s.templates, name, draft, now, k.0, k.1);
    }
    forall i | 0 <= i < |s'.pending| && s'.pending[i].PutPending?
      ensures var t := s'.pending[i].t;
              !DeletesPending(s', t.name) && Lookup(s'.templates, t.name, Some(t.version)) == Some(t)
    {
      var t := s'.pending[i].t;
      PutIsNew(s.templates, name, draft, now, t.name, Some(t.version));
    }
  }

  lemma DeleteBeginsCovered(s: Shared, w: Leavings, name: string, version: Option<int>)
    requires NestedUnique(s.templates) && Covered(s, w) && !PutsPending(s, name)
    ensures Covered(StepShared(s, DeleteBegins(name, version)), w)
  {
    var s' := StepShared(s, DeleteBegins(name, version));
    assert s'.pending[|s.pending|] == DeletePending(name);
    forall k | k in w ensures Lookup(s'.templates, k.0, k.1) == Some(w[k]) || DeletesPending(s', k.0) {
      StaysPending(s, DeleteBegins(name, version), k.0);
      if k.0 != name {
        DeleteForgets(s.templates, name, version, k.0, k.1);
      }
    }
    forall i | 0 <= i < |s'.pending| && s'.pending[i].PutPending?
      ensures var t := s'.pending[i].t;
              !DeletesPending(s', t.name) && Lookup(s'.templates, t.name, Some(t.version)) == Some(t)
    {
      var t := s'.pending[i].t;
      assert s.pending[i] == s'.pending[i];
      DeleteForgets(s.templates, name, version, t.name, Some(t.version));
    }
  }

  lemma ResumesCovered(s: Shared, w: Leavings, i: nat)
    requires Covered(s, w)
    ensures Covered(StepShared(s, Resumes(i)), StepLeavings(s, w, Resumes(i)))
  {
    var s', w' := StepShared(s, Resumes(i)), StepLeavings(s, w, Resumes(i));
    assert forall n :: DeletesPending(s', n) ==> DeletesPending(s, n);
    forall k | k in w' ensures Lookup(s'.templates, k.0, k.1) == Some(w'[k]) || DeletesPending(s', k.0) {
      if !(i < |s.pending| && s.pending[i] == DeletePending(k.0)) {
        StaysPending(s, Resumes(i), k.0);
      }
    }
  }

  lemma FailsCovered(s: Shared, w: Leavings, i: nat)
    requires Covered(s, w) && Harmless(s, Fails(i))
    ensures Covered(StepShared(s, Fails(i)), StepLeavings(s, w, Fails(i)))
  {
    var s' := StepShared(s, Fails(i));
    assert StepLeavings(s, w, Fails(i)) == w;
    assert forall n :: DeletesPending(s', n) ==> DeletesPending(s, n);
    assert i < |s.pending| ==> forall key :: key in s.cache && s.pending[i] == DeletePending(key.0) ==>
                                 key in Droppable(s.cache, s.pending[i]);
    forall k | k in w ensures Lookup(s'.templates, k.0, k.1) == Some(w[k]) || DeletesPending(s', k.0) {
      StaysPending(s, Fails(i), k.0);
    }
  }

  lemma {:induction false} RunCovered(s: Shared, w: Leavings, steps: seq<Step>)
    requires NestedUnique(s.templates) && Covered(s, w) && AlwaysHarmless(s, steps)
    ensures Covered(RunShared(s, steps), AllLeavings(s, w, steps))
    decreases |steps|
  {
    if steps != [] {
      match steps[0] {
        case GetStep(_, _) => assert Covered(StepShared(s, steps[0]), w);
        case PutBegins(name, draft, now) => PutBeginsCovered(s, w, name, draft, now);
        case DeleteBegins(name, version) => DeleteBeginsCovered(s, w, name, version);
        case Resumes(i) => ResumesCovered(s, w, i);
        case Fails(i) => FailsCovered(s, w, i);
      }
      StepKeepsUnique(s, steps[0]);
      RunCovered(StepShared(s, steps[0]), StepLeavings(s, w, steps[0]), steps[1..]);
    }
  }

  /** So, when no delete of a name overlaps a put of that name and no failing call would have dropped
      an entry, the cache agrees with the store at every point where no put or delete is suspended. */
  lemma QuiescentCacheAgrees(templates: Templates, steps: seq<Step>)
    requires NestedUnique(templates) && AlwaysHarmless(Shared(templates, map[], []), steps)
    requires Quiescent(RunShared(Shared(templates, map[], []), steps))
    ensures var s := RunShared(Shared(templates, map[], []), steps);
            Agrees(s.templates, s.cache)
  {
    var s0 := Shared(templates, map[], []);
    RunCovered(s0, map[], steps);
    RunStands(s0, AtFirst(templates), steps);
    var s, w, b := RunShared(s0, steps), AllLeavings(s0, map[], steps), LastBegun(s0, AtFirst(templates), steps);
    forall key | key in w ensures BegunGives(b, key, w[key]) {
      BegunAnswers(s, b, key, w[key]);
    }
    LeavingsDecide(templates, steps);
  }

  /** An overlap can do harm: a delete that begins and resumes inside a put of the same name leaves
      a deleted template in the cache when the put resumes. */
  lemma OverlapLeavesStaleEntry(name: string, draft: Draft, now: Timestamp)
    requires Constructible(draft)
    ensures var s := RunShared(Shared([], map[], []),
                               [PutBegins(name, draft, now), DeleteBegins(name, None), Resumes(1), Resumes(0)]);
            Quiescent(s) && !Agrees(s.templates, s.cache)
  {
    var s0 := Shared([], map[], []);
    var t := Template(name, 1, draft, now);
    var s1 := StepShared(s0, PutBegins(name, draft, now));
    assert s1 == Shared([(name, [(1, t)])], map[], [PutPending(t)]);
    var s2 := StepShared(s1, DeleteBegins(name, None));
    assert s2 == Shared([], map[], [PutPending(t), DeletePending(name)]);
    var s3 := StepShared(s2, Resumes(1));
    assert s3.pending == [PutPending(t), Finished] && s3.templates == [];
    var s4 := StepShared(s3, Resumes(0));
    assert (name, Some(1)) in s4.cache && s4.templates == [];
    var steps := [PutBegins(name, draft, now), DeleteBegins(name, None), Resumes(1), Resumes(0)];
    assert steps[1..] == [DeleteBegins(name, None), Resumes(1), Resumes(0)];
    assert steps[1..][1..] == [Resumes(1), Resumes(0)];
    assert steps[1..][1..][1..] == [Resumes(0)];
    assert RunShared(s3, [Resumes(0)]) == s4;
    assert RunShared(s2, steps[1..][1..]) == s4;
    assert RunShared(s1, steps[1..]) == s4;
  }
}
