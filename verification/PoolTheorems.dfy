/** What holds of the pool over whole runs, for any number of overlapping callers and any
    interleaving. */
module PoolTheorems {
  import opened Ledgers
  import opened SandboxPool
  import opened PoolMachine
  import opened PoolConservation

  // ---- Conservation -------------------------------------------------------------------

  ghost function InWarm(s: State, h: Id): nat { Tally(s.core.warm, Is(h)) }
  ghost function WithCaller(s: State, h: Id): nat { Tally(s.calls, RunningIs(h)) }
  ghost function Unplaced(s: State, h: Id): nat { Tally(s.refills, BootedIs(h)) }
  ghost function BeingTerminated(s: State, h: Id): nat {
    Tally(s.calls, TerminatingIs(h)) + Tally(s.refills, RTerminatingIs(h))
    + if s.closer.Draining? then Tally(s.closer.left, Is(h)) else 0
  }
  ghost function Terminated(s: State, h: Id): nat { Tally(s.gone, Is(h)) }
  ghost function Stranded(s: State, h: Id): nat {
    Tally(s.calls, StrandedIs(h)) + Tally(s.refills, RStrandedIs(h))
    + if s.closer.CloseFailed? then Tally(s.closer.left, Is(h)) else 0
  }
  ghost function LostInBoot(s: State, h: Id): nat { Tally(s.calls, LostIs(h)) + Tally(s.strays, Is(h)) }

  /** The ids ever booted are the disjoint union of the seven categories, without repetition. */
  lemma HandleConservation(warmSize: int, maxConcurrent: int, acts: seq<Action>)
    requires RunFrom(Init(warmSize, maxConcurrent), acts).Some?
    ensures var s := RunFrom(Init(warmSize, maxConcurrent), acts).value;
            forall h :: InWarm(s, h) + WithCaller(s, h) + Unplaced(s, h) + BeingTerminated(s, h)
                        + Terminated(s, h) + Stranded(s, h) + LostInBoot(s, h)
                        == if h in s.booted then 1 else 0
  {
    InitInv(warmSize, maxConcurrent);
    RunKeepsInv(Init(warmSize, maxConcurrent), acts);
    var s := RunFrom(Init(warmSize, maxConcurrent), acts).value;
    forall h ensures InWarm(s, h) + WithCaller(s, h) + Unplaced(s, h) + BeingTerminated(s, h)
                     + Terminated(s, h) + Stranded(s, h) + LostInBoot(s, h) == if h in s.booted then 1 else 0
    {
      assert Placed(s, h);
      CallSplit(s.calls, h);
      RefillSplit(s.refills, h);
    }
  }

  /** Over any run, no id is handed out twice or after its termination was requested, and its
      termination is requested at most once. */
  lemma HandedOutOnce(warmSize: int, maxConcurrent: int, acts: seq<Action>)
    requires RunFrom(Init(warmSize, maxConcurrent), acts).Some?
    ensures var log := RunFrom(Init(warmSize, maxConcurrent), acts).value.log;
            forall i, j :: 0 <= i < j < |log| && !log[i].BackendClosed? ==>
              log[i] != log[j] && !(log[i].TerminateCalled? && log[j] == HandedOut(log[i].handle))
  {
    InitInv(warmSize, maxConcurrent);
    RunKeepsInv(Init(warmSize, maxConcurrent), acts);
    var s := RunFrom(Init(warmSize, maxConcurrent), acts).value;
    forall i, j | 0 <= i < j < |s.log| && !s.log[i].BackendClosed?
      ensures s.log[i] != s.log[j] && !(s.log[i].TerminateCalled? && s.log[j] == HandedOut(s.log[i].handle))
    {
      assert Fits(s, s.log[i].handle);
      UnbrokenLife(s.log, s.log[i].handle);
    }
  }

  predicate MidBoot(p: Phase) { p.Booting? }
  predicate WithHandle(p: Phase) { p.Running? }
  predicate MidRelease(p: Phase) { p.Terminating? || p.Releasing? }

  lemma {:induction false} SlotSplit(calls: seq<Phase>)
    ensures Tally(calls, HoldsSlot)
         == Tally(calls, WithHandle) + Tally(calls, MidBoot) + Tally(calls, MidRelease) + Tally(calls, KeepsSlot)
  {
    if calls != [] {
      SlotSplit(calls[..|calls| - 1]);
    }
  }

  /** `_concurrent_count` is the number of calls that hold a handle, are booting one (at most
      one is, since it holds the lock), are releasing one, or ended with their slot kept. */
  lemma SlotAccounting(warmSize: int, maxConcurrent: int, acts: seq<Action>)
    requires RunFrom(Init(warmSize, maxConcurrent), acts).Some?
    ensures var s := RunFrom(Init(warmSize, maxConcurrent), acts).value;
            && s.core.count == Tally(s.calls, WithHandle) + Tally(s.calls, MidBoot)
                               + Tally(s.calls, MidRelease) + Tally(s.calls, KeepsSlot)
            && Tally(s.calls, MidBoot) <= 1
            && |s.core.warm| <= (if warmSize > 0 then warmSize else 0)
  {
    InitInv(warmSize, maxConcurrent);
    RunKeepsInv(Init(warmSize, maxConcurrent), acts);
    SizesFixed(Init(warmSize, maxConcurrent), acts);
    var s := RunFrom(Init(warmSize, maxConcurrent), acts).value;
    SlotSplit(s.calls);
    OneBoot(s, s.calls);
  }

  lemma {:induction false} OneBoot(s: State, calls: seq<Phase>)
    requires LockHeldByOne(s) && calls <= s.calls
    ensures Tally(calls, MidBoot) <= 1
  {
    if calls != [] {
      var n := |calls| - 1;
      if calls[n].Booting? {
        assert s.lock == ByCall(n);
        forall c | 0 <= c < n ensures !MidBoot(calls[..n][c]) { assert s.calls[c] == calls[c]; }
        TallyNone(calls[..n], MidBoot);
      } else {
        OneBoot(s, calls[..n]);
      }
    }
  }

  lemma {:induction false} SizesFixed(s: State, acts: seq<Action>)
    requires RunFrom(s, acts).Some?
    ensures RunFrom(s, acts).value.warmSize == s.warmSize
    ensures RunFrom(s, acts).value.maxConcurrent == s.maxConcurrent
    decreases |acts|
  {
    if acts != [] {
      SizesFixed(Step(s, acts[0]).value, acts[1..]);
    }
  }

  // ---- Start-up prewarming ----------------------------------------------------------------

  predicate IsPrewarm(a: Action) { a.PrewarmStart? || a.PrewarmBootOk? || a.PrewarmStop? || a.PrewarmRaises? }

  ghost predicate NoPrewarm(acts: seq<Action>) {
    forall i :: 0 <= i < |acts| ==> !IsPrewarm(acts[i])
  }

  /** Every prewarm step comes before every other step. */
  ghost predicate PrewarmFirst(acts: seq<Action>)
    decreases |acts|
  {
    acts == [] || (if IsPrewarm(acts[0]) then PrewarmFirst(acts[1..]) else NoPrewarm(acts))
  }

  /** Either nothing has happened but prewarming, or no prewarming is left to come. */
  ghost predicate StartUpOnly(s: State, acts: seq<Action>) {
    NoPrewarm(acts) || (PrewarmFirst(acts) && s.calls == [] && s.refills == [] && s.core.count == 0)
  }

  lemma StartUpStep(s: State, acts: seq<Action>)
    requires StartUpOnly(s, acts) && acts != [] && Step(s, acts[0]).Some?
    ensures StartUpOnly(Step(s, acts[0]).value, acts[1..])
    ensures IsPrewarm(acts[0]) ==> s.calls == [] && s.refills == [] && s.core.count == 0
  {
  }

  // ---- No lost wakeup -----------------------------------------------------------------------

  ghost predicate SomeoneParked(s: State) {
    exists c :: 0 <= c < |s.calls| && s.calls[c] == Parked
  }

  /** A caller parked without a notification has nothing to be woken for. */
  ghost predicate NoLostWakeup(s: State) {
    SomeoneParked(s) ==> s.core.warm == [] && s.core.count >= s.maxConcurrent
  }

  /** A wakeup is lost by exactly one kind of step: a `prewarm` that appends, which notifies
      nobody, while a caller is parked. */
  lemma StepLosesWakeup(s: State, a: Action)
    requires NoLostWakeup(s) && Step(s, a).Some?
    ensures NoLostWakeup(Step(s, a).value) <==> !(a.PrewarmBootOk? && SomeoneParked(s))
  {
    var t := Step(s, a).value;
    if a.PrewarmBootOk? {
      assert t.calls == s.calls;
    } else if c :| 0 <= c < |t.calls| && t.calls[c] == Parked {
      if s.core.warm == [] && s.core.count >= s.maxConcurrent {
        ParkedIsQuiet(s, a, c);
      } else {
        NobodyParks(s, a, c);
      }
    }
  }

  /** A step with a caller parked after it leaves nothing to be woken for where there was nothing. */
  lemma ParkedIsQuiet(s: State, a: Action, c: nat)
    requires s.core.warm == [] && s.core.count >= s.maxConcurrent && !a.PrewarmBootOk? && Step(s, a).Some?
    requires c < |Step(s, a).value.calls| && Step(s, a).value.calls[c] == Parked
    ensures Step(s, a).value.core.warm == [] && Step(s, a).value.core.count >= s.maxConcurrent
    ensures Step(s, a).value.maxConcurrent == s.maxConcurrent
  {
  }

  /** With a warm instance or a free slot nobody parks. */
  lemma NobodyParks(s: State, a: Action, c: nat)
    requires (s.core.warm != [] || s.core.count < s.maxConcurrent) && Step(s, a).Some?
    requires c < |Step(s, a).value.calls| && Step(s, a).value.calls[c] == Parked
    ensures c < |s.calls| && s.calls[c] == Parked
  {
  }

  /** No state of the run has a lost wakeup. */
  ghost predicate AlwaysAwake(s: State, acts: seq<Action>)
    decreases |acts|
  {
    NoLostWakeup(s) && (acts != [] && Step(s, acts[0]).Some? ==> AlwaysAwake(Step(s, acts[0]).value, acts[1..]))
  }

  /** No `prewarm` of the run appends while a caller is parked. */
  ghost predicate NoAppendWhileParked(s: State, acts: seq<Action>)
    decreases |acts|
  {
    acts == [] ||
    (!(acts[0].PrewarmBootOk? && SomeoneParked(s)) &&
     (Step(s, acts[0]).Some? ==> NoAppendWhileParked(Step(s, acts[0]).value, acts[1..])))
  }

  lemma {:induction false} RunLosesWakeup(s: State, acts: seq<Action>)
    requires NoLostWakeup(s) && RunFrom(s, acts).Some?
    ensures AlwaysAwake(s, acts) <==> NoAppendWhileParked(s, acts)
    decreases |acts|
  {
    if acts != [] {
      StepLosesWakeup(s, acts[0]);
      if NoLostWakeup(Step(s, acts[0]).value) {
        RunLosesWakeup(Step(s, acts[0]).value, acts[1..]);
      }
    }
  }

  /** In every state of a run, even while the lock is held, an un-notified parked caller implies
      an empty warm pool and no free slot, if and only if no `prewarm` appends while a caller is
      parked. */
  lemma NoWakeupIsLost(warmSize: int, maxConcurrent: int, acts: seq<Action>)
    requires RunFrom(Init(warmSize, maxConcurrent), acts).Some?
    ensures AlwaysAwake(Init(warmSize, maxConcurrent), acts)
            <==> NoAppendWhileParked(Init(warmSize, maxConcurrent), acts)
  {
    RunLosesWakeup(Init(warmSize, maxConcurrent), acts);
  }

  /** Prewarming before anything else is one way to meet that condition. */
  lemma {:induction false} StartUpIsSafe(s: State, acts: seq<Action>)
    requires StartUpOnly(s, acts) && RunFrom(s, acts).Some?
    ensures NoAppendWhileParked(s, acts)
    decreases |acts|
  {
    if acts != [] {
      StartUpStep(s, acts);
      StartUpIsSafe(Step(s, acts[0]).value, acts[1..]);
    }
  }

  // ---- When a refill starts, and where its instance goes -----------------------------------------

  /** A refill is started by exactly one kind of step: a release that finds the warm pool short. */
  lemma StepStartsRefill(s: State, a: Action)
    requires Step(s, a).Some?
    ensures var t := Step(s, a).value;
            && (a.FreeSlot? && |s.core.warm| < s.warmSize ==> t.refills == s.refills + [RBooting])
            && (!(a.FreeSlot? && |s.core.warm| < s.warmSize) ==> |t.refills| == |s.refills|)
  {
  }

  /** How many releases of the run found the warm pool short. */
  ghost function ShortReleases(s: State, acts: seq<Action>): nat
    decreases |acts|
  {
    if acts == [] || Step(s, acts[0]).None? then 0
    else
      (if acts[0].FreeSlot? && |s.core.warm| < s.warmSize then 1 else 0)
      + ShortReleases(Step(s, acts[0]).value, acts[1..])
  }

  lemma {:induction false} RunStartsRefills(s: State, acts: seq<Action>)
    requires RunFrom(s, acts).Some?
    ensures |RunFrom(s, acts).value.refills| == |s.refills| + ShortReleases(s, acts)
    decreases |acts|
  {
    if acts != [] {
      StepStartsRefill(s, acts[0]);
      RunStartsRefills(Step(s, acts[0]).value, acts[1..]);
    }
  }

  /** Over any run as many refills were started as releases found the warm pool short, whatever
      refills were in flight. */
  lemma RefillsStarted(warmSize: int, maxConcurrent: int, acts: seq<Action>)
    requires RunFrom(Init(warmSize, maxConcurrent), acts).Some?
    ensures |RunFrom(Init(warmSize, maxConcurrent), acts).value.refills|
            == ShortReleases(Init(warmSize, maxConcurrent), acts)
  {
    RunStartsRefills(Init(warmSize, maxConcurrent), acts);
  }

  /** A warm instance is added by a `prewarm` that boots one, or by a refill whose instance finds
      room; the instance of a refill that finds none is terminated instead, and of the steps of a
      refill no other calls `terminate`. */
  lemma StepAddsWarm(s: State, a: Action, h: Id)
    requires Step(s, a).Some?
    ensures var t := Step(s, a).value;
            var lands := a.RefillPlace? && s.refills[a.t] == RBooted(h);
            && (t.core.warm == s.core.warm + [h]
                <==> a == PrewarmBootOk(h) || (lands && |s.core.warm| < s.warmSize))
            && (lands && |s.core.warm| >= s.warmSize <==>
                  t.refills != s.refills && t.log == s.log + [TerminateCalled(h)])
  {
    var t := Step(s, a).value;
    if t.core.warm == s.core.warm + [h] {
      assert t.core.warm[|s.core.warm|] == h;
    }
    if a.RefillPlace? && |s.core.warm| >= s.warmSize {
      assert t.refills[a.t] != s.refills[a.t];
    }
    if t.log == s.log + [TerminateCalled(h)] {
      assert t.log[|s.log|] == TerminateCalled(h);
    }
  }

  // ---- How the count comes to exceed the limit --------------------------------------------------

  /** A warm hit with every slot taken. */
  predicate FullHit(s: State, a: Action) {
    a.Enter? && s.core.warm != [] && s.core.count >= s.maxConcurrent
  }

  lemma StepExceeds(s: State, a: Action)
    requires s.core.count <= s.maxConcurrent && Step(s, a).Some?
    ensures Step(s, a).value.core.count > s.maxConcurrent <==> FullHit(s, a)
  {
  }

  ghost predicate AlwaysWithin(s: State, acts: seq<Action>)
    decreases |acts|
  {
    s.core.count <= s.maxConcurrent
    && (acts != [] && Step(s, acts[0]).Some? ==> AlwaysWithin(Step(s, acts[0]).value, acts[1..]))
  }

  ghost predicate NoFullHit(s: State, acts: seq<Action>)
    decreases |acts|
  {
    acts == [] ||
    (!FullHit(s, acts[0]) && (Step(s, acts[0]).Some? ==> NoFullHit(Step(s, acts[0]).value, acts[1..])))
  }

  /** The count stays within `max_concurrent` throughout a run if and only if no caller takes a
      warm instance while every slot is taken. */
  lemma {:induction false} CountExceedsExactly(s: State, acts: seq<Action>)
    requires s.core.count <= s.maxConcurrent && RunFrom(s, acts).Some?
    ensures AlwaysWithin(s, acts) <==> NoFullHit(s, acts)
    decreases |acts|
  {
    if acts != [] {
      var t := Step(s, acts[0]).value;
      StepExceeds(s, acts[0]);
      SizesFixed(s, [acts[0]]);
      if t.core.count <= t.maxConcurrent {
        CountExceedsExactly(t, acts[1..]);
      }
    }
  }

  // ---- The live bound -----------------------------------------------------------------------

  /** Instances that exist or are on their way: slots, warm instances and refills in flight. */
  ghost function Live(s: State): int { s.core.count + |s.core.warm| + InFlight(s) }

  predicate IsColdStart(s: State, a: Action) {
    a.Enter? && Step(s, a).Some? && Step(s, a).value.calls[a.c] == Booting
  }

  /** Every cold start of the run is admitted with at most `k` refills in flight. */
  ghost predicate ColdStartsWithin(s: State, acts: seq<Action>, k: int)
    decreases |acts|
  {
    acts == [] ||
    ((IsColdStart(s, acts[0]) ==> InFlight(s) <= k) &&
     (Step(s, acts[0]).Some? ==> ColdStartsWithin(Step(s, acts[0]).value, acts[1..], k)))
  }

  function Cap(warmSize: int, maxConcurrent: int, k: int): int {
    var m := if warmSize > maxConcurrent + k then warmSize else maxConcurrent + k;
    if m > 0 then m else 0
  }

  lemma RefillWithinCap(s: State, a: Action)
    requires RefillStep(s, a).Some?
    ensures Live(RefillStep(s, a).value) <= Live(s)
  {
    TallyUpdate(s.refills, a.t, RefillStep(s, a).value.refills[a.t], InFlightRefill);
  }

  lemma AcquireWithinCap(s: State, a: Action, k: int)
    requires Live(s) <= Cap(s.warmSize, s.maxConcurrent, k) && AcquireStep(s, a).Some?
    requires a.Enter? && AcquireStep(s, a).value.calls[a.c] == Booting ==> InFlight(s) <= k
    ensures Live(AcquireStep(s, a).value) <= Cap(s.warmSize, s.maxConcurrent, k)
  {
  }

  lemma ReleaseWithinCap(s: State, a: Action, k: int)
    requires Live(s) <= Cap(s.warmSize, s.maxConcurrent, k) && ReleaseStep(s, a).Some?
    ensures Live(ReleaseStep(s, a).value) <= Cap(s.warmSize, s.maxConcurrent, k)
  {
    TallyAppend(s.refills, RBooting, InFlightRefill);
    assert s.refills + [] == s.refills;
  }

  lemma StepWithinCap(s: State, a: Action, k: int)
    requires Live(s) <= Cap(s.warmSize, s.maxConcurrent, k) && Step(s, a).Some?
    requires IsColdStart(s, a) ==> InFlight(s) <= k
    requires IsPrewarm(a) ==> s.refills == [] && s.core.count == 0
    ensures Live(Step(s, a).value) <= Cap(s.warmSize, s.maxConcurrent, k)
  {
    match a
    case Enter(_) | BootOk(_, _) | BootFails(_, _) | TimeOut(_) => AcquireWithinCap(s, a, k);
    case RunEnds(_, _) | TerminateOk(_) | TerminateFails(_) | FreeSlot(_) => ReleaseWithinCap(s, a, k);
    case RefillBootOk(_, _) | RefillBootFails(_, _) | RefillPlace(_)
       | RefillTerminateOk(_) | RefillTerminateFails(_) => RefillWithinCap(s, a);
    case _ =>
  }

  lemma {:induction false} RunWithinCap(s: State, acts: seq<Action>, k: int)
    requires Live(s) <= Cap(s.warmSize, s.maxConcurrent, k)
    requires StartUpOnly(s, acts) && RunFrom(s, acts).Some? && ColdStartsWithin(s, acts, k)
    ensures Live(RunFrom(s, acts).value) <= Cap(s.warmSize, s.maxConcurrent, k)
    decreases |acts|
  {
    if acts != [] {
      StartUpStep(s, acts);
      StepWithinCap(s, acts[0], k);
      SizesFixed(s, [acts[0]]);
      RunWithinCap(Step(s, acts[0]).value, acts[1..], k);
    }
  }

  /** With prewarming only at start, slots plus warm instances plus refills in flight never
      exceed max(warm_size, max_concurrent + k). Every prefix of a run is a run, so this holds
      throughout. */
  lemma LiveBound(warmSize: int, maxConcurrent: int, acts: seq<Action>, k: int)
    requires PrewarmFirst(acts) && RunFrom(Init(warmSize, maxConcurrent), acts).Some?
    requires ColdStartsWithin(Init(warmSize, maxConcurrent), acts, k)
    ensures Live(RunFrom(Init(warmSize, maxConcurrent), acts).value) <= Cap(warmSize, maxConcurrent, k)
  {
    RunWithinCap(Init(warmSize, maxConcurrent), acts, k);
  }

  // ---- A pool whose slots are all kept --------------------------------------------------------

  /** Every slot was kept by a failed call, and nothing is warm or on its way. */
  ghost predicate Wedged(s: State) {
    && s.core.warm == [] && s.core.count >= s.maxConcurrent
    && (forall c :: 0 <= c < |s.calls| ==>
          !s.calls[c].Running? && !s.calls[c].Booting? && !s.calls[c].Terminating? && !s.calls[c].Releasing?)
    && (forall t :: 0 <= t < |s.refills| ==> s.refills[t].RDone?)
  }

  lemma WedgedAcquire(s: State, a: Action)
    requires Wedged(s) && AcquireStep(s, a).Some?
    ensures var t := AcquireStep(s, a).value; Wedged(t) && t.booted == s.booted && t.log == s.log
  {
  }

  lemma WedgedClose(s: State, a: Action)
    requires Wedged(s) && CloseStep(s, a).Some?
    ensures var t := CloseStep(s, a).value;
            Wedged(t) && t.booted == s.booted && forall h :: HandedOut(h) in t.log ==> HandedOut(h) in s.log
  {
  }

  lemma WedgedStep(s: State, a: Action)
    requires Wedged(s) && !IsPrewarm(a) && Step(s, a).Some?
    ensures var t := Step(s, a).value;
            Wedged(t) && t.booted == s.booted && forall h :: HandedOut(h) in t.log ==> HandedOut(h) in s.log
  {
    match a
    case Enter(_) | BootOk(_, _) | BootFails(_, _) | TimeOut(_) => WedgedAcquire(s, a);
    case CloseStart | CloseDrain | CloseTerminateOk | CloseTerminateFails | CloseBackend => WedgedClose(s, a);
    case _ =>
  }

  /** A slot kept by an aborted cold boot never comes back: once all are kept, no later call is
      ever given a handle, however many are made and however long they wait. */
  lemma {:induction false} WedgedForever(s: State, acts: seq<Action>)
    requires Wedged(s) && NoPrewarm(acts) && RunFrom(s, acts).Some?
    ensures var t := RunFrom(s, acts).value;
            Wedged(t) && t.booted == s.booted && forall h :: HandedOut(h) in t.log ==> HandedOut(h) in s.log
    decreases |acts|
  {
    if acts != [] {
      var t := Step(s, acts[0]).value;
      WedgedStep(s, acts[0]);
      WedgedForever(t, acts[1..]);
    }
  }

  // ---- execute_in_sandbox over whole runs -----------------------------------------------------

  /** The steps after which a call keeps its slot. */
  predicate LosesSlot(a: Action) { a.BootFails? || a.TerminateFails? }

  ghost predicate AllReturned(s: State) {
    forall c :: 0 <= c < |s.calls| ==> s.calls[c].Done?
  }

  lemma GrantKeepsSlots(s: State, a: Action)
    requires GrantStep(s, a).Some?
    ensures Tally(GrantStep(s, a).value.calls, KeepsSlot) == Tally(s.calls, KeepsSlot)
  {
    match a
    case Call => TallyAppend(s.calls, Granting, KeepsSlot);
    case Grant(c, _) => TallyUpdate(s.calls, c, GrantStep(s, a).value.calls[c], KeepsSlot);
  }

  lemma AcquireKeepsSlots(s: State, a: Action)
    requires AcquireStep(s, a).Some?
    ensures Tally(AcquireStep(s, a).value.calls, KeepsSlot)
         == Tally(s.calls, KeepsSlot) + if LosesSlot(a) then 1 else 0
  {
    TallyUpdate(s.calls, a.c, AcquireStep(s, a).value.calls[a.c], KeepsSlot);
  }

  lemma ReleaseKeepsSlots(s: State, a: Action)
    requires ReleaseStep(s, a).Some?
    ensures Tally(ReleaseStep(s, a).value.calls, KeepsSlot)
         == Tally(s.calls, KeepsSlot) + if LosesSlot(a) then 1 else 0
  {
    var t := ReleaseStep(s, a).value;
    var p := if a.FreeSlot? then Done(Finished(s.calls[a.c].ok)) else t.calls[a.c];
    TallyUpdate(s.calls, a.c, p, KeepsSlot);
    TallyAgree(t.calls, s.calls[a.c := p], KeepsSlot);
  }

  lemma StepKeepsSlots(s: State, a: Action)
    requires Step(s, a).Some?
    ensures Tally(Step(s, a).value.calls, KeepsSlot) == Tally(s.calls, KeepsSlot) + if LosesSlot(a) then 1 else 0
  {
    match a
    case Call | Grant(_, _) => GrantKeepsSlots(s, a);
    case Enter(_) | BootOk(_, _) | BootFails(_, _) | TimeOut(_) => AcquireKeepsSlots(s, a);
    case RunEnds(_, _) | TerminateOk(_) | TerminateFails(_) | FreeSlot(_) => ReleaseKeepsSlots(s, a);
    case RefillPlace(_) => TallyAgree(Woken(s.calls), s.calls, KeepsSlot);
    case _ =>
  }

  lemma {:induction false} RunKeepsSlots(s: State, acts: seq<Action>)
    requires RunFrom(s, acts).Some?
    ensures Tally(RunFrom(s, acts).value.calls, KeepsSlot) == Tally(s.calls, KeepsSlot) + Tally(acts, LosesSlot)
    decreases |acts|
  {
    if acts != [] {
      StepKeepsSlots(s, acts[0]);
      RunKeepsSlots(Step(s, acts[0]).value, acts[1..]);
      TallyConcat([acts[0]], acts[1..], LosesSlot);
      assert acts == [acts[0]] + acts[1..];
      assert [acts[0]][..0] == [];
    }
  }

  lemma KeptAreCounted(calls: seq<Phase>)
    requires forall c :: 0 <= c < |calls| ==> calls[c].Done?
    ensures Tally(calls, HoldsSlot) == Tally(calls, KeepsSlot)
  {
    SlotSplit(calls);
    TallyNone(calls, WithHandle);
    TallyNone(calls, MidBoot);
    TallyNone(calls, MidRelease);
  }

  /** Once every call has returned, whatever mix of denials, approvals, exhaustion, crashes and
      successes they met, the count is the number of cold boots and of releases that failed; so
      every slot came back if and only if there was none. */
  lemma SlotsComeBack(warmSize: int, maxConcurrent: int, acts: seq<Action>)
    requires RunFrom(Init(warmSize, maxConcurrent), acts).Some?
    requires AllReturned(RunFrom(Init(warmSize, maxConcurrent), acts).value)
    ensures var s := RunFrom(Init(warmSize, maxConcurrent), acts).value;
            && s.core.count == Tally(acts, LosesSlot)
            && (s.core.count == 0 <==> forall i :: 0 <= i < |acts| ==> !LosesSlot(acts[i]))
  {
    var s0 := Init(warmSize, maxConcurrent);
    InitInv(warmSize, maxConcurrent);
    RunKeepsInv(s0, acts);
    RunKeepsSlots(s0, acts);
    KeptAreCounted(RunFrom(s0, acts).value.calls);
    if i :| 0 <= i < |acts| && LosesSlot(acts[i]) {
      TallySome(acts, i, LosesSlot);
    } else {
      TallyNone(acts, LosesSlot);
    }
  }

  // ---- A close after the last return ------------------------------------------------------------

  /** The steps after which an instance is never terminated. */
  predicate Strands(a: Action) {
    ((a.BootFails? || a.RefillBootFails? || a.PrewarmRaises?) && a.lost.Some?)
    || a.TerminateFails? || a.RefillTerminateFails?
  }

  /** Ended with an instance on its hands. */
  predicate Stuck(p: Phase) { p.Done? && HeldId(p).Some? }
  predicate RStuck(r: Refill) { r.RDone? && r.stranded.Some? }

  ghost predicate NothingStranded(s: State) {
    s.strays == []
    && (forall c :: 0 <= c < |s.calls| ==> !Stuck(s.calls[c]))
    && forall r :: 0 <= r < |s.refills| ==> !RStuck(s.refills[r])
  }

  lemma GrantStrands(s: State, a: Action)
    requires GrantStep(s, a).Some?
    ensures NothingStranded(GrantStep(s, a).value) <==> NothingStranded(s)
  {
    var t := GrantStep(s, a).value;
    assert forall c :: 0 <= c < |s.calls| ==> Stuck(t.calls[c]) == Stuck(s.calls[c]);
  }

  lemma AcquireStrands(s: State, a: Action)
    requires AcquireStep(s, a).Some?
    ensures NothingStranded(AcquireStep(s, a).value) <==> NothingStranded(s) && !Strands(a)
  {
    var t := AcquireStep(s, a).value;
    assert !Stuck(s.calls[a.c]) && (Stuck(t.calls[a.c]) <==> Strands(a));
    assert forall c :: 0 <= c < |s.calls| && c != a.c ==> Stuck(t.calls[c]) == Stuck(s.calls[c]);
  }

  lemma ReleaseStrands(s: State, a: Action)
    requires ReleaseStep(s, a).Some?
    ensures NothingStranded(ReleaseStep(s, a).value) <==> NothingStranded(s) && !Strands(a)
  {
    var t := ReleaseStep(s, a).value;
    assert !Stuck(s.calls[a.c]) && (Stuck(t.calls[a.c]) <==> Strands(a));
    assert forall c :: 0 <= c < |s.calls| && c != a.c ==> Stuck(t.calls[c]) == Stuck(s.calls[c]);
    assert forall r :: 0 <= r < |s.refills| ==> t.refills[r] == s.refills[r];
  }

  lemma RefillStrands(s: State, a: Action)
    requires RefillStep(s, a).Some?
    ensures NothingStranded(RefillStep(s, a).value) <==> NothingStranded(s) && !Strands(a)
  {
    var t := RefillStep(s, a).value;
    assert forall c :: 0 <= c < |s.calls| ==> Stuck(t.calls[c]) == Stuck(s.calls[c]);
    assert !RStuck(s.refills[a.t]) && (RStuck(t.refills[a.t]) <==> Strands(a));
    assert forall r :: 0 <= r < |s.refills| && r != a.t ==> t.refills[r] == s.refills[r];
  }

  lemma StepStrands(s: State, a: Action)
    requires Step(s, a).Some?
    ensures NothingStranded(Step(s, a).value) <==> NothingStranded(s) && !Strands(a)
  {
    match a
    case Call | Grant(_, _) => GrantStrands(s, a);
    case Enter(_) | BootOk(_, _) | BootFails(_, _) | TimeOut(_) => AcquireStrands(s, a);
    case RunEnds(_, _) | TerminateOk(_) | TerminateFails(_) | FreeSlot(_) => ReleaseStrands(s, a);
    case RefillBootOk(_, _) | RefillBootFails(_, _) | RefillPlace(_)
       | RefillTerminateOk(_) | RefillTerminateFails(_) => RefillStrands(s, a);
    case _ =>
  }

  lemma {:induction false} RunStrands(s: State, acts: seq<Action>)
    requires RunFrom(s, acts).Some?
    ensures NothingStranded(RunFrom(s, acts).value)
            <==> NothingStranded(s) && forall i :: 0 <= i < |acts| ==> !Strands(acts[i])
    decreases |acts|
  {
    if acts != [] {
      StepStrands(s, acts[0]);
      RunStrands(Step(s, acts[0]).value, acts[1..]);
      assert forall i :: 0 < i < |acts| ==> acts[i] == acts[1..][i - 1];
      assert forall i :: 0 <= i < |acts[1..]| ==> acts[1..][i] == acts[i + 1];
    }
  }

  /** How far a close that starts after the last return has come. */
  ghost predicate Closing(s: State) {
    && AllReturned(s)
    && (s.closer.Awaiting? ==> s.closer.pending == |s.refills|)
    && (s.closer.Draining? || s.closer.Shut? ==>
          s.core.warm == [] && forall t :: 0 <= t < |s.refills| ==> s.refills[t].RDone?)
    && (s.closer.Shut? ==> s.log != [] && s.log[|s.log| - 1] == BackendClosed)
  }

  lemma ClosingRefill(s: State, a: Action)
    requires Closing(s) && RefillStep(s, a).Some?
    ensures Closing(RefillStep(s, a).value) && RefillStep(s, a).value.core.count == s.core.count
  {
  }

  lemma ClosingClose(s: State, a: Action)
    requires Closing(s) && CloseStep(s, a).Some?
    ensures Closing(CloseStep(s, a).value) && CloseStep(s, a).value.core.count == s.core.count
  {
  }

  /** No call moves any more. */
  lemma ClosingStep(s: State, a: Action)
    requires Closing(s) && !IsPrewarm(a) && a != Call && Step(s, a).Some?
    ensures Closing(Step(s, a).value) && Step(s, a).value.core.count == s.core.count
  {
    match a
    case RefillBootOk(_, _) | RefillBootFails(_, _) | RefillPlace(_)
       | RefillTerminateOk(_) | RefillTerminateFails(_) => ClosingRefill(s, a);
    case CloseStart | CloseDrain | CloseTerminateOk | CloseTerminateFails | CloseBackend => ClosingClose(s, a);
    case _ =>
  }

  lemma {:induction false} RunKeepsClosing(s: State, acts: seq<Action>)
    requires Closing(s) && NoPrewarm(acts) && Call !in acts && RunFrom(s, acts).Some?
    ensures Closing(RunFrom(s, acts).value) && RunFrom(s, acts).value.core.count == s.core.count
    decreases |acts|
  {
    if acts != [] {
      ClosingStep(s, acts[0]);
      RunKeepsClosing(Step(s, acts[0]).value, acts[1..]);
    }
  }

  /** At the end of a close an id was terminated unless a call or a refill still holds it. */
  lemma TerminatedUnlessStranded(t: State)
    requires Conserved(t) && Closing(t) && t.closer == Shut
    ensures (forall h :: Tally(t.gone, Is(h)) == if h in t.booted then 1 else 0) <==> NothingStranded(t)
  {
    if NothingStranded(t) {
      forall h ensures Tally(t.gone, Is(h)) == if h in t.booted then 1 else 0 {
        assert Placed(t, h);
        TallyNone(t.calls, Holds(h));
        TallyNone(t.refills, RHolds(h));
      }
    } else if t.strays != [] {
      assert Placed(t, t.strays[0]);
      TallySome(t.strays, 0, Is(t.strays[0]));
    } else if c :| 0 <= c < |t.calls| && Stuck(t.calls[c]) {
      var h := HeldId(t.calls[c]).value;
      assert Placed(t, h);
      TallySome(t.calls, c, Holds(h));
    } else {
      var r :| 0 <= r < |t.refills| && RStuck(t.refills[r]);
      var h := t.refills[r].stranded.value;
      assert Placed(t, h);
      TallySome(t.refills, r, RHolds(h));
    }
  }

  /** A `close` after the last call returned closes the backend last, with nothing left warm; and
      it leaves every id ever booted terminated exactly once if and only if no instance was lost
      to a boot or to a `terminate` that raised. */
  lemma CloseTerminatesAll(warmSize: int, maxConcurrent: int, acts: seq<Action>, closing: seq<Action>)
    requires RunFrom(Init(warmSize, maxConcurrent), acts).Some?
    requires AllReturned(RunFrom(Init(warmSize, maxConcurrent), acts).value)
    requires RunFrom(Init(warmSize, maxConcurrent), acts).value.closer == Open
    requires NoPrewarm(closing) && Call !in closing
    requires RunFrom(RunFrom(Init(warmSize, maxConcurrent), acts).value, closing).Some?
    requires RunFrom(RunFrom(Init(warmSize, maxConcurrent), acts).value, closing).value.closer == Shut
    ensures var t := RunFrom(RunFrom(Init(warmSize, maxConcurrent), acts).value, closing).value;
            && t.core == Core([], Tally(acts, LosesSlot))
            && t.log != [] && t.log[|t.log| - 1] == BackendClosed
            && ((forall h :: Tally(t.gone, Is(h)) == if h in t.booted then 1 else 0)
                <==> forall a :: a in acts + closing ==> !Strands(a))
  {
    var s0 := Init(warmSize, maxConcurrent);
    InitInv(warmSize, maxConcurrent);
    RunKeepsInv(s0, acts);
    var s := RunFrom(s0, acts).value;
    RunKeepsInv(s, closing);
    RunKeepsClosing(s, closing);
    SlotsComeBack(warmSize, maxConcurrent, acts);
    TerminatedUnlessStranded(RunFrom(s, closing).value);
    RunStrands(s0, acts);
    RunStrands(s, closing);
  }

  /** The steps in which call `c` touches the pool. */
  predicate PoolStepOf(a: Action, c: nat) {
    match a
    case Enter(d) => d == c
    case BootOk(d, _) => d == c
    case BootFails(d, _) => d == c
    case TimeOut(d) => d == c
    case RunEnds(d, _) => d == c
    case TerminateOk(d) => d == c
    case TerminateFails(d) => d == c
    case FreeSlot(d) => d == c
    case _ => false
  }

  predicate NotAllowed(p: Phase) { p in {Done(Denied), Done(NeedsApproval), Done(GrantRaised)} }

  /** Call `c` has not got past `check_grant`. */
  predicate NotPast(s: State, c: nat) { c < |s.calls| ==> s.calls[c] == Granting || NotAllowed(s.calls[c]) }

  lemma AcquireIsPast(s: State, a: Action, c: nat)
    requires AcquireStep(s, a).Some? && NotPast(AcquireStep(s, a).value, c)
    ensures NotPast(s, c) && !PoolStepOf(a, c)
  {
  }

  lemma ReleaseIsPast(s: State, a: Action, c: nat)
    requires ReleaseStep(s, a).Some? && NotPast(ReleaseStep(s, a).value, c)
    ensures NotPast(s, c) && !PoolStepOf(a, c)
  {
  }

  lemma BeforeNotAllowed(s: State, a: Action, c: nat)
    requires Step(s, a).Some? && NotPast(Step(s, a).value, c)
    ensures NotPast(s, c) && !PoolStepOf(a, c)
  {
    match a
    case Enter(_) | BootOk(_, _) | BootFails(_, _) | TimeOut(_) => AcquireIsPast(s, a, c);
    case RunEnds(_, _) | TerminateOk(_) | TerminateFails(_) | FreeSlot(_) => ReleaseIsPast(s, a, c);
    case _ =>
  }

  /** A call that was denied, needs approval, or got no answer took no pool step at any time in
      the run. */
  lemma {:induction false} NotAllowedTakesNoPoolStep(s: State, acts: seq<Action>, c: nat)
    requires RunFrom(s, acts).Some? && c < |RunFrom(s, acts).value.calls|
    requires NotAllowed(RunFrom(s, acts).value.calls[c])
    ensures NotPast(s, c)
    ensures forall i :: 0 <= i < |acts| ==> !PoolStepOf(acts[i], c)
    decreases |acts|
  {
    if acts != [] {
      NotAllowedTakesNoPoolStep(Step(s, acts[0]).value, acts[1..], c);
      BeforeNotAllowed(s, acts[0], c);
    }
  }
}
