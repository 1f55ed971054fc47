/** What every step of the pool machine keeps: no handle id is lost or duplicated, the slot
    counter counts exactly the calls that occupy a slot, and no id is handed out twice or
    after its termination. */
module PoolConservation {
  import opened Wrappers
  import opened Ledgers
  import opened SandboxPool
  import opened PoolMachine

  /** The id a suspended or ended call accounts for. */
  function HeldId(p: Phase): Option<Id> {
    match p
    case Running(h) => Some(h)
    case Terminating(h, _) => Some(h)
    case Done(ReleaseFailed(h)) => Some(h)
    case Done(BootAborted(lost)) => lost
    case _ => None
  }

  /** The id a refill task accounts for. */
  function RHeldId(r: Refill): Option<Id> {
    match r
    case RBooted(h) => Some(h)
    case RTerminating(h) => Some(h)
    case RDone(stranded) => stranded
    case RBooting => None
  }

  function CloserIds(c: Closer): seq<Id> {
    match c
    case Draining(left) => left
    case CloseFailed(left) => left
    case _ => []
  }

  /** The handles `close` has drained but not yet passed to `terminate`. */
  function Queued(c: Closer): seq<Id> {
    if c.Draining? && c.left != [] then c.left[1..] else []
  }

  function Is(h: Id): Id -> bool { x => x == h }
  function Holds(h: Id): Phase -> bool { p => HeldId(p) == Some(h) }
  function RHolds(h: Id): Refill -> bool { r => RHeldId(r) == Some(h) }

  // The categories the entries fall into.

  function RunningIs(h: Id): Phase -> bool { p => p == Running(h) }
  function TerminatingIs(h: Id): Phase -> bool { (p: Phase) => p.Terminating? && p.handle == h }
  function StrandedIs(h: Id): Phase -> bool { p => p == Done(ReleaseFailed(h)) }
  function LostIs(h: Id): Phase -> bool { p => p == Done(BootAborted(Some(h))) }
  function BootedIs(h: Id): Refill -> bool { r => r == RBooted(h) }
  function RTerminatingIs(h: Id): Refill -> bool { r => r == RTerminating(h) }
  function RStrandedIs(h: Id): Refill -> bool { r => r == RDone(Some(h)) }

  datatype Stage = Unused | InUse | Ended | Broken

  /** The life of `h` as the log tells it; `Broken` once it is handed out twice or after its
      termination, or terminated twice. */
  function Life(log: seq<Event>, h: Id): Stage {
    if log == [] then Unused else After(Life(log[..|log| - 1], h), log[|log| - 1], h)
  }

  function After(stage: Stage, e: Event, h: Id): Stage {
    if e == HandedOut(h) then (if stage == Unused then InUse else Broken)
    else if e == TerminateCalled(h) then (if stage == Unused || stage == InUse then Ended else Broken)
    else stage
  }

  /** The phases that occupy a slot of `_concurrent_count`. */
  predicate HoldsSlot(p: Phase) {
    p.Running? || p.Booting? || p.Terminating? || p.Releasing? || KeepsSlot(p)
  }

  /** The calls that ended without giving their slot back. */
  predicate KeepsSlot(p: Phase) {
    p.Done? && (p.outcome.BootAborted? || p.outcome.ReleaseFailed?)
  }

  predicate InFlightRefill(r: Refill) { !r.RDone? }

  ghost function InFlight(s: State): nat { Tally(s.refills, InFlightRefill) }

  /** How many places of the machine account for `h`. */
  ghost function Places(s: State, h: Id): nat {
    Tally(s.core.warm, Is(h)) + Tally(s.calls, Holds(h)) + Tally(s.refills, RHolds(h))
    + Tally(CloserIds(s.closer), Is(h)) + Tally(s.strays, Is(h)) + Tally(s.gone, Is(h))
  }

  /** An id that was booted is in exactly one place; any other id is in none. */
  ghost predicate Placed(s: State, h: Id) {
    Places(s, h) == if h in s.booted then 1 else 0
  }

  ghost predicate Conserved(s: State) {
    forall h :: Placed(s, h)
  }

  ghost predicate SlotsCounted(s: State) {
    s.core.count == Tally(s.calls, HoldsSlot)
  }

  ghost predicate LockHeldByOne(s: State) {
    && (forall c: nat :: (c < |s.calls| && s.calls[c].Booting?) <==> s.lock == ByCall(c))
    && (forall t: nat :: (t < |s.refills| && s.refills[t].RTerminating?) <==> s.lock == ByRefill(t))
    && |s.core.warm| <= (if s.warmSize > 0 then s.warmSize else 0)
  }

  /** The places of a handle that nobody has used yet, and of one in use. */
  ghost function Fresh(s: State, h: Id): nat {
    Tally(s.core.warm, Is(h)) + Tally(s.refills, BootedIs(h)) + Tally(Queued(s.closer), Is(h))
  }

  ghost function Lent(s: State, h: Id): nat { Tally(s.calls, RunningIs(h)) }

  /** What `h`'s place says about its life so far. */
  ghost predicate Fits(s: State, h: Id) {
    && Life(s.log, h) != Broken
    && (h !in s.booted ==> Life(s.log, h) == Unused)
    && (Fresh(s, h) > 0 ==> Life(s.log, h) == Unused)
    && (Lent(s, h) > 0 ==> Life(s.log, h) == InUse)
  }

  ghost predicate Staged(s: State) {
    forall h :: Fits(s, h)
  }

  ghost predicate Inv(s: State) {
    Conserved(s) && SlotsCounted(s) && LockHeldByOne(s) && Staged(s)
  }

  lemma InitInv(warmSize: int, maxConcurrent: int)
    ensures Inv(Init(warmSize, maxConcurrent))
  {
  }

  // Conservation.

  lemma WakingMovesNothing(calls: seq<Phase>, h: Id)
    ensures Tally(Woken(calls), Holds(h)) == Tally(calls, Holds(h))
  {
    TallyAgree(Woken(calls), calls, Holds(h));
  }

  lemma GrantMoves(s: State, a: Action, h: Id)
    requires GrantStep(s, a).Some?
    ensures Places(GrantStep(s, a).value, h) == Places(s, h)
  {
    match a {
      case Call => TallyAppend(s.calls, Granting, Holds(h));
      case Grant(c, d) => TallyUpdate(s.calls, c, GrantStep(s, a).value.calls[c], Holds(h));
    }
  }

  lemma AcquireMoves(s: State, a: Action, h: Id)
    requires AcquireStep(s, a).Some?
    ensures var t := AcquireStep(s, a).value;
            Places(t, h) == Places(s, h) + if h in t.booted && h !in s.booted then 1 else 0
  {
    var t := AcquireStep(s, a).value;
    TallyUpdate(s.calls, a.c, t.calls[a.c], Holds(h));
    if a.Enter? && s.core.warm != [] {
      TallyAppend(t.core.warm, t.calls[a.c].handle, Is(h));
    }
  }

  /** A call that has given its handle up holds nothing, before and after it ends. */
  lemma FreeingMovesNothing(calls: seq<Phase>, c: nat, ok: bool, h: Id)
    requires c < |calls| && calls[c].Releasing?
    ensures Tally(Woken(calls[c := Done(Finished(ok))]), Holds(h)) == Tally(calls, Holds(h))
  {
    TallyUpdate(calls, c, Done(Finished(ok)), Holds(h));
    WakingMovesNothing(calls[c := Done(Finished(ok))], h);
  }

  /** Nor does a refill that has yet to boot. */
  lemma NewRefillHoldsNothing(refills: seq<Refill>, more: seq<Refill>, h: Id)
    requires more == [] || more == [RBooting]
    ensures Tally(refills + more, RHolds(h)) == Tally(refills, RHolds(h))
  {
    if more == [] {
      assert refills + more == refills;
    } else {
      TallyAppend(refills, RBooting, RHolds(h));
    }
  }

  lemma FreeSlotMoves(s: State, c: nat, ok: bool, h: Id)
    requires c < |s.calls| && s.calls[c].Releasing?
    ensures Places(Freed(s, c, ok), h) == Places(s, h)
  {
    FreeingMovesNothing(s.calls, c, ok, h);
    NewRefillHoldsNothing(s.refills, if |s.core.warm| < s.warmSize then [RBooting] else [], h);
  }

  lemma ReleaseMoves(s: State, a: Action, h: Id)
    requires ReleaseStep(s, a).Some?
    ensures Places(ReleaseStep(s, a).value, h) == Places(s, h)
  {
    var t := ReleaseStep(s, a).value;
    if a.FreeSlot? {
      FreeSlotMoves(s, a.c, s.calls[a.c].ok, h);
    } else {
      TallyUpdate(s.calls, a.c, t.calls[a.c], Holds(h));
      if a.TerminateOk? {
        TallyAppend(s.gone, s.calls[a.c].handle, Is(h));
      }
    }
  }

  lemma PlaceMoves(s: State, r: nat, h: Id)
    requires RefillStep(s, RefillPlace(r)).Some?
    ensures Places(RefillStep(s, RefillPlace(r)).value, h) == Places(s, h)
  {
    TallyUpdate(s.refills, r, RefillStep(s, RefillPlace(r)).value.refills[r], RHolds(h));
    WakingMovesNothing(s.calls, h);
    TallyAppend(s.core.warm, s.refills[r].handle, Is(h));
  }

  lemma RefillMoves(s: State, a: Action, h: Id)
    requires RefillStep(s, a).Some?
    ensures var t := RefillStep(s, a).value;
            Places(t, h) == Places(s, h) + if h in t.booted && h !in s.booted then 1 else 0
  {
    var t := RefillStep(s, a).value;
    TallyUpdate(s.refills, a.t, t.refills[a.t], RHolds(h));
    match a {
      case RefillPlace(r) => PlaceMoves(s, r, h);
      case RefillTerminateOk(r) => TallyAppend(s.gone, s.refills[r].handle, Is(h));
      case _ =>
    }
  }

  lemma PrewarmMoves(s: State, a: Action, h: Id)
    requires PrewarmStep(s, a).Some?
    ensures var t := PrewarmStep(s, a).value;
            Places(t, h) == Places(s, h) + if h in t.booted && h !in s.booted then 1 else 0
  {
    match a {
      case PrewarmBootOk(id) => TallyAppend(s.core.warm, id, Is(h));
      case PrewarmRaises(Some(id)) => TallyAppend(s.strays, id, Is(h));
      case PrewarmRaises(None) => assert s.strays + [] == s.strays;
      case _ =>
    }
  }

  lemma CloseMoves(s: State, a: Action, h: Id)
    requires CloseStep(s, a).Some?
    ensures Places(CloseStep(s, a).value, h) == Places(s, h)
  {
    if a.CloseTerminateOk? {
      var x, rest := s.closer.left[0], s.closer.left[1..];
      assert s.closer.left == [x] + rest;
      TallyConcat([x], rest, Is(h));
      TallyAppend([], x, Is(h));
      assert [] + [x] == [x];
      TallyAppend(s.gone, x, Is(h));
    }
  }

  lemma BootedGrows(s: State, a: Action)
    requires Step(s, a).Some?
    ensures s.booted <= Step(s, a).value.booted
  {
  }

  lemma StepMoves(s: State, a: Action, h: Id)
    requires Step(s, a).Some?
    ensures var t := Step(s, a).value;
            Places(t, h) == Places(s, h) + if h in t.booted && h !in s.booted then 1 else 0
  {
    match a
    case Call | Grant(_, _) => GrantMoves(s, a, h);
    case Enter(_) | BootOk(_, _) | BootFails(_, _) | TimeOut(_) => AcquireMoves(s, a, h);
    case RunEnds(_, _) | TerminateOk(_) | TerminateFails(_) | FreeSlot(_) => ReleaseMoves(s, a, h);
    case RefillBootOk(_, _) | RefillBootFails(_, _) | RefillPlace(_)
       | RefillTerminateOk(_) | RefillTerminateFails(_) => RefillMoves(s, a, h);
    case PrewarmStart | PrewarmBootOk(_) | PrewarmStop | PrewarmRaises(_) => PrewarmMoves(s, a, h);
    case CloseStart | CloseDrain | CloseTerminateOk | CloseTerminateFails | CloseBackend => CloseMoves(s, a, h);
  }

  lemma StepConserves(s: State, a: Action)
    requires Conserved(s) && Step(s, a).Some?
    ensures Conserved(Step(s, a).value)
  {
    var t := Step(s, a).value;
    BootedGrows(s, a);
    forall h ensures Placed(t, h) {
      assert Placed(s, h);
      StepMoves(s, a, h);
    }
  }

  // The slot counter and the lock.

  lemma AcquireCounts(s: State, a: Action)
    requires SlotsCounted(s) && AcquireStep(s, a).Some?
    ensures SlotsCounted(AcquireStep(s, a).value)
  {
    TallyUpdate(s.calls, a.c, AcquireStep(s, a).value.calls[a.c], HoldsSlot);
  }

  lemma ReleaseCounts(s: State, a: Action)
    requires SlotsCounted(s) && ReleaseStep(s, a).Some?
    ensures SlotsCounted(ReleaseStep(s, a).value)
  {
    var t := ReleaseStep(s, a).value;
    var p := if a.FreeSlot? then Done(Finished(s.calls[a.c].ok)) else t.calls[a.c];
    TallyUpdate(s.calls, a.c, p, HoldsSlot);
    TallyAgree(t.calls, s.calls[a.c := p], HoldsSlot);
  }

  lemma GrantCounts(s: State, a: Action)
    requires SlotsCounted(s) && GrantStep(s, a).Some?
    ensures SlotsCounted(GrantStep(s, a).value)
  {
    match a
    case Call => TallyAppend(s.calls, Granting, HoldsSlot);
    case Grant(c, _) => TallyUpdate(s.calls, c, GrantStep(s, a).value.calls[c], HoldsSlot);
  }

  lemma RefillCounts(s: State, a: Action)
    requires SlotsCounted(s) && RefillStep(s, a).Some?
    ensures SlotsCounted(RefillStep(s, a).value)
  {
    TallyAgree(Woken(s.calls), s.calls, HoldsSlot);
  }

  lemma StepCounts(s: State, a: Action)
    requires SlotsCounted(s) && Step(s, a).Some?
    ensures SlotsCounted(Step(s, a).value)
  {
    match a
    case Call | Grant(_, _) => GrantCounts(s, a);
    case Enter(_) | BootOk(_, _) | BootFails(_, _) | TimeOut(_) => AcquireCounts(s, a);
    case RunEnds(_, _) | TerminateOk(_) | TerminateFails(_) | FreeSlot(_) => ReleaseCounts(s, a);
    case RefillBootOk(_, _) | RefillBootFails(_, _) | RefillPlace(_)
       | RefillTerminateOk(_) | RefillTerminateFails(_) => RefillCounts(s, a);
    case _ =>
  }

  lemma CallLocks(s: State, a: Action)
    requires LockHeldByOne(s)
    ensures GrantStep(s, a).Some? ==> LockHeldByOne(GrantStep(s, a).value)
    ensures AcquireStep(s, a).Some? ==> LockHeldByOne(AcquireStep(s, a).value)
  {
  }

  lemma ReleaseLocks(s: State, a: Action)
    requires LockHeldByOne(s) && ReleaseStep(s, a).Some?
    ensures LockHeldByOne(ReleaseStep(s, a).value)
  {
  }

  lemma RefillLocks(s: State, a: Action)
    requires LockHeldByOne(s) && RefillStep(s, a).Some?
    ensures LockHeldByOne(RefillStep(s, a).value)
  {
  }

  lemma StepLocks(s: State, a: Action)
    requires LockHeldByOne(s) && Step(s, a).Some?
    ensures LockHeldByOne(Step(s, a).value)
  {
    match a
    case Call | Grant(_, _) | Enter(_) | BootOk(_, _) | BootFails(_, _) | TimeOut(_) => CallLocks(s, a);
    case RunEnds(_, _) | TerminateOk(_) | TerminateFails(_) | FreeSlot(_) => ReleaseLocks(s, a);
    case RefillBootOk(_, _) | RefillBootFails(_, _) | RefillPlace(_)
       | RefillTerminateOk(_) | RefillTerminateFails(_) => RefillLocks(s, a);
    case _ =>
  }

  // The log.

  lemma LifeAppend(log: seq<Event>, e: Event, h: Id)
    ensures Life(log + [e], h) == After(Life(log, h), e, h)
  {
    assert (log + [e])[..|log|] == log;
  }

  /** What an unbroken life means for the log. */
  lemma {:induction false} UnbrokenLife(log: seq<Event>, h: Id)
    ensures Life(log, h) == Unused ==> HandedOut(h) !in log && TerminateCalled(h) !in log
    ensures Life(log, h) == InUse ==> TerminateCalled(h) !in log
    ensures Life(log, h) != Broken ==> forall i, j :: 0 <= i < j < |log| ==>
              !(log[i] == HandedOut(h) == log[j]) && !(log[i] == TerminateCalled(h) && log[j] == TerminateCalled(h))
              && !(log[i] == TerminateCalled(h) && log[j] == HandedOut(h))
    decreases |log|
  {
    if log != [] {
      var n := |log| - 1;
      UnbrokenLife(log[..n], h);
      assert log == log[..n] + [log[n]];
      assert forall i :: 0 <= i < n ==> log[i] in log[..n];
    }
  }

  lemma {:induction false} CallSplit(calls: seq<Phase>, h: Id)
    ensures Tally(calls, Holds(h)) == Tally(calls, RunningIs(h)) + Tally(calls, TerminatingIs(h))
                                      + Tally(calls, StrandedIs(h)) + Tally(calls, LostIs(h))
  {
    if calls != [] {
      CallSplit(calls[..|calls| - 1], h);
    }
  }

  lemma {:induction false} RefillSplit(refills: seq<Refill>, h: Id)
    ensures Tally(refills, RHolds(h)) == Tally(refills, BootedIs(h)) + Tally(refills, RTerminatingIs(h))
                                         + Tally(refills, RStrandedIs(h))
  {
    if refills != [] {
      RefillSplit(refills[..|refills| - 1], h);
    }
  }

  lemma QueuedAmong(c: Closer, h: Id)
    ensures Tally(Queued(c), Is(h)) <= Tally(CloserIds(c), Is(h))
    ensures c.Draining? && c.left != [] ==>
              Tally(CloserIds(c), Is(h)) == Tally(Queued(c), Is(h)) + if c.left[0] == h then 1 else 0
  {
    if c.Draining? && c.left != [] {
      var x := c.left[0];
      assert c.left == [x] + c.left[1..];
      TallyConcat([x], c.left[1..], Is(h));
      TallyAppend([], x, Is(h));
      assert [] + [x] == [x];
    }
  }

  /** The places the log speaks of never hold `h` twice, and never before it is booted. */
  lemma OnePlace(s: State, h: Id)
    requires Placed(s, h)
    ensures Fresh(s, h) + Lent(s, h) + Tally(s.refills, RTerminatingIs(h)) <= if h in s.booted then 1 else 0
    ensures Tally(s.core.warm, Is(h)) + Tally(s.refills, BootedIs(h)) + Lent(s, h) + Tally(CloserIds(s.closer), Is(h))
            <= if h in s.booted then 1 else 0
  {
    CallSplit(s.calls, h);
    RefillSplit(s.refills, h);
    QueuedAmong(s.closer, h);
  }

  /** Handing `x` out moves it from the fresh places to the lent ones. */
  lemma {:induction false} HandOutFits(s: State, t: State, x: Id, h: Id)
    requires Fits(s, h) && t.log == s.log + [HandedOut(x)] && s.booted <= t.booted
    requires Fresh(t, h) <= Fresh(s, h) && Lent(t, h) <= Lent(s, h) + if x == h then 1 else 0
    requires x == h ==> Life(s.log, h) == Unused && Fresh(t, h) == 0 && h in t.booted
    ensures Fits(t, h)
  {
    LifeAppend(s.log, HandedOut(x), h);
  }

  /** A handle whose `terminate` is called leaves both. */
  lemma {:induction false} TerminateFits(s: State, t: State, x: Id, h: Id)
    requires Fits(s, h) && t.log == s.log + [TerminateCalled(x)] && s.booted <= t.booted
    requires Fresh(t, h) <= Fresh(s, h) && Lent(t, h) <= Lent(s, h)
    requires x == h ==> Life(s.log, h) in {Unused, InUse} && Fresh(t, h) == 0 && Lent(t, h) == 0 && h in t.booted
    ensures Fits(t, h)
  {
    LifeAppend(s.log, TerminateCalled(x), h);
  }

  /** Call `c` goes from one phase to another, with its handle in use in neither. */
  lemma IdleFits(s: State, t: State, c: nat, h: Id)
    requires Fits(s, h) && c < |s.calls| && c < |t.calls| && t.calls == s.calls[c := t.calls[c]]
    requires !s.calls[c].Running? && !t.calls[c].Running?
    requires t.core.warm == s.core.warm && t.refills == s.refills && t.closer == s.closer
    requires t.log == s.log && s.booted <= t.booted
    ensures Fits(t, h)
  {
    TallyUpdate(s.calls, c, t.calls[c], RunningIs(h));
  }

  lemma EnterFits(s: State, c: nat, h: Id)
    requires Placed(s, h) && Fits(s, h) && AcquireStep(s, Enter(c)).Some?
    ensures Fits(AcquireStep(s, Enter(c)).value, h)
  {
    var t := AcquireStep(s, Enter(c)).value;
    TallyUpdate(s.calls, c, t.calls[c], RunningIs(h));
    if t.calls[c].Running? {
      var x := t.calls[c].handle;
      TallyAppend(t.core.warm, x, Is(h));
      OnePlace(s, h);
      HandOutFits(s, t, x, h);
    }
  }

  lemma BootOkFits(s: State, c: nat, id: Id, h: Id)
    requires Placed(s, h) && Fits(s, h) && At(s, c, Booting) && id !in s.booted
    ensures Fits(BootedTo(s, c, id), h)
  {
    TallyUpdate(s.calls, c, Running(id), RunningIs(h));
    OnePlace(s, h);
    HandOutFits(s, BootedTo(s, c, id), id, h);
  }

  lemma RunEndsFits(s: State, c: nat, ok: bool, h: Id)
    requires Placed(s, h) && Fits(s, h) && ReleaseStep(s, RunEnds(c, ok)).Some?
    ensures Fits(ReleaseStep(s, RunEnds(c, ok)).value, h)
  {
    var x := s.calls[c].handle;
    TallyUpdate(s.calls, c, Terminating(x, ok), RunningIs(h));
    OnePlace(s, h);
    if x == h {
      TallySome(s.calls, c, RunningIs(h));
    }
    TerminateFits(s, ReleaseStep(s, RunEnds(c, ok)).value, x, h);
  }

  lemma FreeSlotFits(s: State, c: nat, ok: bool, h: Id)
    requires Fits(s, h) && c < |s.calls| && s.calls[c].Releasing?
    ensures Fits(Freed(s, c, ok), h)
  {
    var t := Freed(s, c, ok);
    var p := Done(Finished(ok));
    TallyUpdate(s.calls, c, p, RunningIs(h));
    TallyAgree(Woken(s.calls[c := p]), s.calls[c := p], RunningIs(h));
    TallyAppend(s.refills, RBooting, BootedIs(h));
    assert s.refills + [] == s.refills;
    assert Fresh(t, h) == Fresh(s, h) && Lent(t, h) == Lent(s, h);
  }

  lemma PlaceFits(s: State, i: nat, h: Id)
    requires Placed(s, h) && Fits(s, h) && RefillStep(s, RefillPlace(i)).Some?
    ensures Fits(RefillStep(s, RefillPlace(i)).value, h)
  {
    var t := RefillStep(s, RefillPlace(i)).value;
    var x := s.refills[i].handle;
    TallyUpdate(s.refills, i, t.refills[i], BootedIs(h));
    OnePlace(s, h);
    if |s.core.warm| < s.warmSize {
      TallyAgree(Woken(s.calls), s.calls, RunningIs(h));
      TallyAppend(s.core.warm, x, Is(h));
    } else {
      if x == h {
        TallySome(s.refills, i, BootedIs(h));
      }
      TerminateFits(s, t, x, h);
    }
  }

  lemma RefillBootFits(s: State, i: nat, id: Id, h: Id)
    requires Placed(s, h) && Fits(s, h) && i < |s.refills| && s.refills[i] == RBooting && id !in s.booted
    ensures Fits(NowRefill(s, i, RBooted(id)).(booted := s.booted + {id}), h)
  {
    TallyUpdate(s.refills, i, RBooted(id), BootedIs(h));
    OnePlace(s, h);
  }

  lemma RefillFits(s: State, a: Action, h: Id)
    requires Placed(s, h) && Fits(s, h) && RefillStep(s, a).Some?
    ensures Fits(RefillStep(s, a).value, h)
  {
    if a.RefillPlace? {
      PlaceFits(s, a.t, h);
    } else if a.RefillBootOk? {
      RefillBootFits(s, a.t, a.id, h);
    } else {
      TallyUpdate(s.refills, a.t, RefillStep(s, a).value.refills[a.t], BootedIs(h));
    }
  }

  lemma PrewarmFits(s: State, a: Action, h: Id)
    requires Placed(s, h) && Fits(s, h) && PrewarmStep(s, a).Some?
    ensures Fits(PrewarmStep(s, a).value, h)
  {
    OnePlace(s, h);
    if a.PrewarmBootOk? {
      TallyAppend(s.core.warm, a.id, Is(h));
    }
  }

  lemma DrainFits(s: State, h: Id)
    requires Placed(s, h) && Fits(s, h)
    ensures Fits(Drained(s), h)
  {
    var t := Drained(s);
    OnePlace(s, h);
    QueuedAmong(t.closer, h);
    if s.core.warm != [] {
      TerminateFits(s, t, s.core.warm[0], h);
    } else {
      assert t.log == s.log;
    }
  }

  lemma TerminateWarmFits(s: State, h: Id)
    requires Placed(s, h) && Fits(s, h) && CloseStep(s, CloseTerminateOk).Some?
    ensures Fits(CloseStep(s, CloseTerminateOk).value, h)
  {
    var t := CloseStep(s, CloseTerminateOk).value;
    OnePlace(s, h);
    QueuedAmong(t.closer, h);
    if t.closer.left != [] {
      TerminateFits(s, t, t.closer.left[0], h);
    } else {
      assert t.log == s.log;
    }
  }

  lemma CloseFits(s: State, a: Action, h: Id)
    requires Placed(s, h) && Fits(s, h) && CloseStep(s, a).Some?
    ensures Fits(CloseStep(s, a).value, h)
  {
    match a {
      case CloseDrain => DrainFits(s, h);
      case CloseTerminateOk => TerminateWarmFits(s, h);
      case CloseBackend => LifeAppend(s.log, BackendClosed, h);
      case _ =>
    }
  }

  lemma StepFits(s: State, a: Action, h: Id)
    requires Placed(s, h) && Fits(s, h) && Step(s, a).Some?
    ensures Fits(Step(s, a).value, h)
  {
    match a
    case Call => TallyAppend(s.calls, Granting, RunningIs(h));
    case Enter(c) => EnterFits(s, c, h);
    case BootOk(c, id) => BootOkFits(s, c, id, h);
    case RunEnds(c, ok) => RunEndsFits(s, c, ok, h);
    case FreeSlot(c) => FreeSlotFits(s, c, s.calls[c].ok, h);
    case Grant(_, _) | BootFails(_, _) | TimeOut(_) | TerminateOk(_) | TerminateFails(_) =>
      IdleFits(s, Step(s, a).value, a.c, h);
    case RefillBootOk(_, _) | RefillBootFails(_, _) | RefillPlace(_)
       | RefillTerminateOk(_) | RefillTerminateFails(_) => RefillFits(s, a, h);
    case PrewarmStart | PrewarmBootOk(_) | PrewarmStop | PrewarmRaises(_) => PrewarmFits(s, a, h);
    case CloseStart | CloseDrain | CloseTerminateOk | CloseTerminateFails | CloseBackend => CloseFits(s, a, h);
  }

  lemma StepKeepsInv(s: State, a: Action)
    requires Inv(s) && Step(s, a).Some?
    ensures Inv(Step(s, a).value)
  {
    StepConserves(s, a);
    StepCounts(s, a);
    StepLocks(s, a);
    forall h ensures Fits(Step(s, a).value, h) {
      assert Placed(s, h) && Fits(s, h);
      StepFits(s, a, h);
    }
  }

  lemma {:induction false} RunKeepsInv(s: State, acts: seq<Action>)
    requires Inv(s) && RunFrom(s, acts).Some?
    ensures Inv(RunFrom(s, acts).value)
    decreases |acts|
  {
    if acts != [] {
      StepKeepsInv(s, acts[0]);
      RunKeepsInv(Step(s, acts[0]).value, acts[1..]);
    }
  }
}
