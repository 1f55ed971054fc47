/** What the calls of `boot_clean` come to: how each step of a call changes its phase, when a call
    returns a handle and when it raises, and that no handle is returned twice. */
module BootCalls {
  import opened Wrappers
  import opened Ledgers
  import opened GoldenSnapshot

  /** The steps of a call. */
  predicate OfCall(a: Action) {
    a.Begin? || a.Lock? || a.Install? || a.Appear? || a.AppearGolden? || a.Ready? || a.Kill? || a.NotReady?
    || a.Reaped? || a.Abandon?
  }

  /** From which phase to which each of them takes its call. */
  predicate Leads(s: State, a: Action, p: Call, q: Call) {
    match a
    case Begin(_) =>
      p == Arrived
      && q == if !s.snapshots then ColdBooting(s.next) else if s.golden then Restoring(s.next) else WantsLock
    case Lock(_) => p == WantsLock && q == if s.golden then Restoring(s.next) else GoldenBooting(s.next)
    case Install(_) => p.TearingDown? && q == Restoring(s.next)
    case Ready(_) =>
      (match p
       case ColdBooting(h) => q == Returned(h)
       case Restoring(h) => q == Returned(h)
       case GoldenBooting(g) => q == Snapshotting(g)
       case _ => false)
    case Kill(_) => Killed(p) == Some(q)
    case NotReady(_) => (p.ColdBooting? || p.GoldenBooting? || p.Restoring?) && q == Raised
    case Reaped(_) => (p.ColdFailing? || p.GoldenFailing? || p.RestoreFailing?) && q == Raised
    case Abandon(_, _) => !Ended(p) && q == Raised
    case Appear(_, _) | AppearGolden(_, _) => q == p
    case _ => false
  }

  /** Call `c` alone changes, and an id it is given is used up. */
  ghost predicate Changes(s: State, a: Action, c: nat, t: State) {
    && c < |s.calls| == |t.calls| && t.calls == s.calls[c := t.calls[c]] && Leads(s, a, s.calls[c], t.calls[c])
    && s.next <= t.next
    && (Holder(t.calls[c]) == Some(s.next) ==> s.next < t.next || Holder(s.calls[c]) == Some(s.next))
  }

  lemma StartChanges(s: State, a: Action, c: nat)
    requires c < |s.calls| && StartStep(s, a, c).Some?
    ensures Changes(s, a, c, StartStep(s, a, c).value)
  {
  }

  lemma FileChanges(s: State, a: Action, c: nat)
    requires c < |s.calls| && FileStep(s, a, c).Some?
    ensures Changes(s, a, c, FileStep(s, a, c).value)
  {
  }

  lemma FailChanges(s: State, a: Action, c: nat)
    requires c < |s.calls| && FailStep(s, a, c).Some?
    ensures Changes(s, a, c, FailStep(s, a, c).value)
  {
  }

  lemma ReadyChanges(s: State, c: nat)
    requires c < |s.calls| && ReadyStep(s, Ready(c), c).Some?
    ensures Changes(s, Ready(c), c, ReadyStep(s, Ready(c), c).value)
  {
  }

  lemma AbandonChanges(s: State, c: nat, unlinked: set<File>)
    requires c < |s.calls| && AbandonStep(s, c, unlinked).Some?
    ensures Changes(s, Abandon(c, unlinked), c, AbandonStep(s, c, unlinked).value)
  {
  }

  /** A step of a call takes that call where the table says, and no other anywhere. */
  lemma StepChanges(s: State, a: Action)
    requires Step(s, a).Some? && OfCall(a)
    ensures Changes(s, a, a.c, Step(s, a).value)
  {
    match a
    case Begin(c) => StartChanges(s, a, c);
    case Lock(c) => StartChanges(s, a, c);
    case Install(c) => StartChanges(s, a, c);
    case Appear(c, _) => FileChanges(s, a, c);
    case AppearGolden(c, _) => FileChanges(s, a, c);
    case Ready(c) => ReadyChanges(s, c);
    case Kill(_) =>
    case NotReady(c) => FailChanges(s, a, c);
    case Reaped(c) => FailChanges(s, a, c);
    case Abandon(c, unlinked) => AbandonChanges(s, c, unlinked);
  }

  lemma OthersChangeNothing(s: State, a: Action)
    requires Step(s, a).Some? && !OfCall(a)
    ensures Step(s, a).value.calls == s.calls + (if a.Boot? then [Arrived] else [])
    ensures Step(s, a).value.next == s.next
  {
  }

  /** Call `c` is `q` now and was not before. */
  predicate Becomes(s: State, t: State, c: nat, q: Call) {
    c < |t.calls| && t.calls[c] == q && !(c < |s.calls| && s.calls[c] == q)
  }

  /** What becomes of a call becomes of it by a step of its own. */
  lemma BecomesByOwnStep(s: State, a: Action, c: nat, q: Call)
    requires Step(s, a).Some? && Becomes(s, Step(s, a).value, c, q) && q != Arrived
    ensures OfCall(a) && a.c == c < |s.calls| && Leads(s, a, s.calls[c], q)
  {
    if OfCall(a) {
      StepChanges(s, a);
    } else {
      OthersChangeNothing(s, a);
    }
  }

  lemma ReadyIsLive(s: State, c: nat)
    requires Step(s, Ready(c)).Some? && !s.calls[c].GoldenBooting?
    ensures var t, id := Step(s, Ready(c)).value, s.calls[c].id;
            t.calls[c] == Returned(id) && id in t.instances && t.instances[id] == s.calls[c].ColdBooting?
  {
  }

  /** A call returns a handle exactly when the instance of that id, cold booted or restored by this
      call, says that it is ready; the instance is live from then on, with a rootfs copy of its own
      exactly when it was cold booted. */
  lemma CallReturns(s: State, a: Action, c: nat, h: Id)
    requires Step(s, a).Some?
    ensures Becomes(s, Step(s, a).value, c, Returned(h))
            <==> a == Ready(c) && c < |s.calls| && s.calls[c] in {ColdBooting(h), Restoring(h)}
    ensures Becomes(s, Step(s, a).value, c, Returned(h)) ==>
              h in Step(s, a).value.instances && Step(s, a).value.instances[h] == s.calls[c].ColdBooting?
  {
    if Becomes(s, Step(s, a).value, c, Returned(h)) {
      BecomesByOwnStep(s, a, c, Returned(h));
    }
    if a == Ready(c) && c < |s.calls| && s.calls[c] in {ColdBooting(h), Restoring(h)} {
      ReadyIsLive(s, c);
    }
  }

  /** It raises exactly when its instance sent something else first, when the process that was killed
      for its silence has exited, or when an exception that nothing handles ends it. */
  lemma CallRaises(s: State, a: Action, c: nat)
    requires Step(s, a).Some?
    ensures Becomes(s, Step(s, a).value, c, Raised)
            <==> (a.NotReady? || a.Reaped? || a.Abandon?) && a.c == c
  {
    if Becomes(s, Step(s, a).value, c, Raised) {
      BecomesByOwnStep(s, a, c, Raised);
    }
    if (a.NotReady? || a.Reaped? || a.Abandon?) && a.c == c {
      StepChanges(s, a);
    }
  }

  /** A boot that fails in a way that is handled leaves no file of its instance, which is not live,
      and does not hold the lock. */
  lemma FailedBootLeavesNothing(s: State, a: Action)
    requires Inv(s) && Step(s, a).Some? && (a.NotReady? || a.Reaped?)
    ensures var t, id := Step(s, a).value, s.calls[a.c].id;
            && t.calls[a.c] == Raised && t.lock != Some(a.c)
            && id !in t.instances && forall k :: Of(id, k) !in t.files
  {
    var id := s.calls[a.c].id;
    assert Accounted(s, id);
    StepChanges(s, a);
    StepAccounts(s, a, id);
    StepGuards(s, a);
    HeldByCallOnly(s, a.c);
    CallMoves(s.calls, a.c, Raised, id);
  }

  /** The snapshot is written over no older one. */
  lemma SnapshotStartsFresh(s: State, a: Action, c: nat, g: Id)
    requires Step(s, a).Some? && Becomes(s, Step(s, a).value, c, Snapshotting(g))
    ensures a == Ready(c) && c < |s.calls| && s.calls[c] == GoldenBooting(g)
    ensures GOLDEN_FILES !! Step(s, a).value.files
  {
    BecomesByOwnStep(s, a, c, Snapshotting(g));
  }

  // No handle twice.

  /** The calls that were given instance `id`, for themselves or to return it. */
  function Drew(id: Id): Call -> bool { p => Holder(p) == Some(id) || p == Returned(id) }

  ghost predicate DrawnOnce(s: State, id: Id) {
    Tally(s.calls, Drew(id)) <= if id < s.next then 1 else 0
  }

  lemma StepDrawsOnce(s: State, a: Action, id: Id)
    requires Step(s, a).Some? && DrawnOnce(s, id)
    ensures DrawnOnce(Step(s, a).value, id)
  {
    if OfCall(a) {
      StepChanges(s, a);
      ChangeDrawsOnce(s, a, a.c, Step(s, a).value, id);
    } else {
      OthersChangeNothing(s, a);
      TallyAppend(s.calls, Arrived, Drew(id));
      assert s.calls + [] == s.calls;
    }
  }

  lemma ChangeDrawsOnce(s: State, a: Action, c: nat, t: State, id: Id)
    requires Changes(s, a, c, t) && DrawnOnce(s, id)
    ensures DrawnOnce(t, id)
  {
    TallyUpdate(s.calls, c, t.calls[c], Drew(id));
    if Drew(id)(s.calls[c]) {
      TallySome(s.calls, c, Drew(id));
    }
  }

  lemma {:induction false} RunDrawsOnce(s: State, acts: seq<Action>, id: Id)
    requires RunFrom(s, acts).Some? && DrawnOnce(s, id)
    ensures DrawnOnce(RunFrom(s, acts).value, id)
    decreases |acts|
  {
    if acts != [] {
      StepDrawsOnce(s, acts[0], id);
      RunDrawsOnce(Step(s, acts[0]).value, acts[1..], id);
    }
  }

  /** Over any run no two calls return the same handle. */
  lemma HandlesAreDistinct(snapshots: bool, acts: seq<Action>)
    requires RunFrom(Init(snapshots), acts).Some?
    ensures var calls := RunFrom(Init(snapshots), acts).value.calls;
            forall c, d :: 0 <= c < d < |calls| && calls[c].Returned? && calls[d].Returned? ==>
              calls[c].handle != calls[d].handle
  {
    var calls := RunFrom(Init(snapshots), acts).value.calls;
    forall c, d | 0 <= c < d < |calls| && calls[c].Returned? && calls[d].Returned?
      ensures calls[c].handle != calls[d].handle
    {
      RunDrawsOnce(Init(snapshots), acts, calls[c].handle);
      if calls[d] == calls[c] {
        TallyTwo(calls, c, d, Drew(calls[c].handle));
      }
    }
  }
}
