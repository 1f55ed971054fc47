/** `execute_in_sandbox` as one caller runs it against the pool's in-place methods: what the
    call leaves behind in the pool and the backend, for each way it can end. Overlapping calls
    are the subject of `PoolMachine`, of which this call, left alone, is a run. */
module ExecuteInSandbox {
  import opened Wrappers
  import opened SandboxPool
  import opened PoolMachine

  /** `boot_clean` returns an instance, or raises with or without one running. */
  datatype Boot = Booted(id: Id) | BootRaised(lost: Option<Id>)

  /** The steps of the machine that the call `c` takes when nobody else moves. */
  function Steps(s: State, c: nat, decision: Decision, boot: Boot, ran: bool, terminates: bool): seq<Action> {
    [Call] + ([Grant(c, decision)]
    + if decision != Allow then []
      else if Admit(s.core, s.maxConcurrent).1.Wait? then [Enter(c)] + [TimeOut(c)]
      else [Enter(c)] + BootSteps(s, c, boot, ran, terminates))
  }

  function BootSteps(s: State, c: nat, boot: Boot, ran: bool, terminates: bool): seq<Action> {
    if Admit(s.core, s.maxConcurrent).1.Hit? then ReleaseSteps(c, ran, terminates)
    else ColdSteps(c, boot, ran, terminates)
  }

  function ColdSteps(c: nat, boot: Boot, ran: bool, terminates: bool): seq<Action> {
    match boot
    case Booted(id) => [BootOk(c, id)] + ReleaseSteps(c, ran, terminates)
    case BootRaised(lost) => [BootFails(c, lost)]
  }

  function ReleaseSteps(c: nat, ran: bool, terminates: bool): seq<Action> {
    [RunEnds(c, ran)] + if terminates then [TerminateOk(c)] + [FreeSlot(c)] else [TerminateFails(c)]
  }

  lemma Before(s: State, a: Action, rest: seq<Action>)
    requires Step(s, a).Some?
    ensures RunFrom(s, [a] + rest) == RunFrom(Step(s, a).value, rest)
  {
    assert ([a] + rest)[1..] == rest;
  }

  lemma Last(s: State, a: Action)
    ensures RunFrom(s, [a]) == Step(s, a)
  {
  }

  /** The boot's id is one the backend has not used before. */
  predicate IsNew(s: State, boot: Boot) {
    match boot
    case Booted(id) => id !in s.booted
    case BootRaised(lost) => lost.Some? ==> lost.value !in s.booted
  }

  /** What a call that ends leaves beside the counters: its handle on the list of the terminated ones,
      and a refill exactly when the warm pool is short; both only if `terminate` returned. */
  ghost predicate Traces(s: State, t: State, terminated: bool, h: Id) {
    && t.gone == s.gone + (if terminated then [h] else [])
    && t.refills == s.refills + (if terminated && |t.core.warm| < s.warmSize then [RBooting] else [])
  }

  function Ended(s: State, c: nat): Outcome {
    if c < |s.calls| && s.calls[c].Done? then s.calls[c].outcome else Exhausted
  }

  /** The run has taken call `c` to its end, with these counters and this outcome. */
  ghost predicate Took(s: State, r: Option<State>, c: nat, ended: (Core, Phase), h: Id) {
    && r.Some? && c < |r.value.calls| && (r.value.core, r.value.calls[c]) == ended
    && Traces(s, r.value, Ended(r.value, c).Finished?, h)
  }

  /** A run from `s` is one from `t`, when nothing that it is judged by has changed in between but
      the counters. */
  lemma TookBefore(s: State, t: State, r: Option<State>, c: nat, ended: (Core, Phase), h: Id)
    requires Took(t, r, c, ended, h) && t.gone == s.gone && t.refills == s.refills && t.warmSize == s.warmSize
    ensures Took(s, r, c, ended, h)
  {
  }

  /** From the terminated handle to the end of the call. */
  lemma FreeRun(s: State, c: nat, h: Id, ran: bool)
    requires At(s, c, Terminating(h, ran)) && s.lock == Free
    ensures Took(s, RunFrom(s, [TerminateOk(c)] + [FreeSlot(c)]), c,
                 (s.core.(count := s.core.count - 1), Done(Finished(ran))), h)
  {
    Before(s, TerminateOk(c), [FreeSlot(c)]);
    Last(Step(s, TerminateOk(c)).value, FreeSlot(c));
  }

  lemma KeepRun(s: State, c: nat, h: Id, ran: bool)
    requires At(s, c, Terminating(h, ran))
    ensures Took(s, RunFrom(s, [TerminateFails(c)]), c, (s.core, Done(ReleaseFailed(h))), h)
  {
    Last(s, TerminateFails(c));
  }

  /** How a call ends that holds `h`. */
  function Released(core: Core, h: Id, ran: bool, terminates: bool): (Core, Phase) {
    if terminates then (core.(count := core.count - 1), Done(Finished(ran))) else (core, Done(ReleaseFailed(h)))
  }

  lemma ReleaseRun(s: State, c: nat, h: Id, ran: bool, terminates: bool)
    requires At(s, c, Running(h)) && s.lock == Free
    ensures Took(s, RunFrom(s, ReleaseSteps(c, ran, terminates)), c, Released(s.core, h, ran, terminates), h)
  {
    var t := Step(s, RunEnds(c, ran)).value;
    var rest := if terminates then [TerminateOk(c)] + [FreeSlot(c)] else [TerminateFails(c)];
    Before(s, RunEnds(c, ran), rest);
    if terminates {
      FreeRun(t, c, h, ran);
    } else {
      KeepRun(t, c, h, ran);
    }
    TookBefore(s, t, RunFrom(t, rest), c, Released(s.core, h, ran, terminates), h);
  }

  lemma ColdRun(s: State, c: nat, boot: Boot, ran: bool, terminates: bool)
    requires At(s, c, Booting) && s.lock != Free && IsNew(s, boot)
    ensures Took(s, RunFrom(s, ColdSteps(c, boot, ran, terminates)), c,
                 if boot.BootRaised? then (s.core, Done(BootAborted(boot.lost)))
                 else Released(s.core, boot.id, ran, terminates),
                 if boot.Booted? then boot.id else 0)
  {
    match boot {
      case Booted(id) =>
        Before(s, BootOk(c, id), ReleaseSteps(c, ran, terminates));
        ReleaseRun(Step(s, BootOk(c, id)).value, c, id, ran, terminates);
      case BootRaised(lost) => Last(s, BootFails(c, lost));
    }
  }

  /** The handle that an admitted call gets. */
  function HandleOf(core: Core, boot: Boot): Id {
    if core.warm != [] then core.warm[|core.warm| - 1] else if boot.Booted? then boot.id else 0
  }

  lemma HitRun(s: State, c: nat, boot: Boot, ran: bool, terminates: bool)
    requires At(s, c, Contending) && s.lock == Free && s.core.warm != []
    ensures Took(s, RunFrom(s, [Enter(c)] + ReleaseSteps(c, ran, terminates)), c,
                 Admitted(s.core, s.maxConcurrent, boot, ran, terminates), HandleOf(s.core, boot))
  {
    var t, h := Step(s, Enter(c)).value, HandleOf(s.core, boot);
    Before(s, Enter(c), ReleaseSteps(c, ran, terminates));
    ReleaseRun(t, c, h, ran, terminates);
    TookBefore(s, t, RunFrom(t, ReleaseSteps(c, ran, terminates)), c, Released(t.core, h, ran, terminates), h);
  }

  lemma ColdStartRun(s: State, c: nat, boot: Boot, ran: bool, terminates: bool)
    requires At(s, c, Contending) && s.lock == Free && IsNew(s, boot)
    requires s.core.warm == [] && s.core.count < s.maxConcurrent
    ensures Took(s, RunFrom(s, [Enter(c)] + ColdSteps(c, boot, ran, terminates)), c,
                 Admitted(s.core, s.maxConcurrent, boot, ran, terminates), HandleOf(s.core, boot))
  {
    var t, h := Step(s, Enter(c)).value, HandleOf(s.core, boot);
    Before(s, Enter(c), ColdSteps(c, boot, ran, terminates));
    ColdRun(t, c, boot, ran, terminates);
    TookBefore(s, t, RunFrom(t, ColdSteps(c, boot, ran, terminates)), c,
               Admitted(s.core, s.maxConcurrent, boot, ran, terminates), h);
  }

  /** What the machine makes of the call when it is admitted. */
  lemma AdmittedRun(s: State, c: nat, boot: Boot, ran: bool, terminates: bool)
    requires At(s, c, Contending) && s.lock == Free && IsNew(s, boot)
    requires !Admit(s.core, s.maxConcurrent).1.Wait?
    ensures Took(s, RunFrom(s, [Enter(c)] + BootSteps(s, c, boot, ran, terminates)), c,
                 Admitted(s.core, s.maxConcurrent, boot, ran, terminates), HandleOf(s.core, boot))
  {
    if s.core.warm != [] {
      HitRun(s, c, boot, ran, terminates);
    } else {
      ColdStartRun(s, c, boot, ran, terminates);
    }
  }

  /** The counters and the outcome of an admitted call: the slot comes back exactly when the
      handle is terminated. */
  function Admitted(core: Core, maxConcurrent: int, boot: Boot, ran: bool, terminates: bool): (Core, Phase) {
    var (taken, admission) := Admit(core, maxConcurrent);
    if !admission.Hit? && boot.BootRaised? then (taken, Done(BootAborted(boot.lost)))
    else
      var h := if admission.Hit? then admission.handle else boot.id;
      if terminates then (taken.(count := core.count), Done(Finished(ran))) else (taken, Done(ReleaseFailed(h)))
  }

  function NotAllowedAs(decision: Decision): Outcome
    requires decision != Allow
  {
    match decision
    case Deny => Denied
    case RequireApproval => NeedsApproval
    case CheckRaises => GrantRaised
  }

  /** Counters and outcome of the whole call. */
  function Whole(core: Core, maxConcurrent: int, decision: Decision, boot: Boot, ran: bool, terminates: bool)
    : (Core, Phase)
  {
    if decision != Allow then (core, Done(NotAllowedAs(decision)))
    else if Admit(core, maxConcurrent).1.Wait? then (core, Done(Exhausted))
    else Admitted(core, maxConcurrent, boot, ran, terminates)
  }

  /** The call has been let through, and wants the lock. */
  ghost function Arrived(s: State, decision: Decision): State {
    s.(calls := s.calls + [if decision == Allow then Contending else Done(NotAllowedAs(decision))])
  }

  lemma Arrives(s: State, decision: Decision, rest: seq<Action>)
    ensures RunFrom(s, [Call] + ([Grant(|s.calls|, decision)] + rest)) == RunFrom(Arrived(s, decision), rest)
  {
    var c, s1 := |s.calls|, Step(s, Call).value;
    assert s1.calls[c := Arrived(s, decision).calls[c]] == Arrived(s, decision).calls;
    assert Step(s1, Grant(c, decision)) == Some(Arrived(s, decision));
    Before(s1, Grant(c, decision), rest);
    Before(s, Call, [Grant(c, decision)] + rest);
  }

  lemma ExhaustedRun(s: State, c: nat)
    requires At(s, c, Contending) && s.lock == Free && Admit(s.core, s.maxConcurrent).1.Wait?
    ensures Took(s, RunFrom(s, [Enter(c)] + [TimeOut(c)]), c, (s.core, Done(Exhausted)), 0)
  {
    Before(s, Enter(c), [TimeOut(c)]);
    Last(Step(s, Enter(c)).value, TimeOut(c));
  }

  /** Left alone from any state with the lock free, the machine takes the call there. */
  lemma LoneCall(s: State, decision: Decision, boot: Boot, ran: bool, terminates: bool)
    requires s.lock == Free && IsNew(s, boot)
    ensures Took(s, RunFrom(s, Steps(s, |s.calls|, decision, boot, ran, terminates)), |s.calls|,
                 Whole(s.core, s.maxConcurrent, decision, boot, ran, terminates), HandleOf(s.core, boot))
  {
    var c, t := |s.calls|, Arrived(s, decision);
    if decision != Allow {
      Arrives(s, decision, []);
    } else if Admit(s.core, s.maxConcurrent).1.Wait? {
      Arrives(s, decision, [Enter(c)] + [TimeOut(c)]);
      ExhaustedRun(t, c);
    } else {
      Arrives(s, decision, [Enter(c)] + BootSteps(s, c, boot, ran, terminates));
      AdmittedRun(t, c, boot, ran, terminates);
      assert BootSteps(t, c, boot, ran, terminates) == BootSteps(s, c, boot, ran, terminates);
      TookBefore(s, t, RunFrom(t, [Enter(c)] + BootSteps(s, c, boot, ran, terminates)), c,
                 Admitted(s.core, s.maxConcurrent, boot, ran, terminates), HandleOf(s.core, boot));
    }
  }

  /** `boot`, `ran` and `terminates` say how the backend's three calls go; `task` names the
      refill that a release would start. A lone caller at the limit waits until its timeout.
      `s` is any machine state that shows the pool as it is. */
  method Execute(
    decision: Decision, pool: Pool, backend: Backend, boot: Boot, ran: bool, terminates: bool, task: nat,
    ghost s: State)
    returns (o: Outcome)
    requires task !in pool.refillTasks
    requires s.core == pool.View() && s.maxConcurrent == pool.maxConcurrent && s.warmSize == pool.warmSize
    requires s.lock == Free && IsNew(s, boot)
    modifies pool, backend
    // The call is a run of the machine.
    ensures var r := RunFrom(s, Steps(s, |s.calls|, decision, boot, ran, terminates));
            && r.Some? && |s.calls| < |r.value.calls|
            && r.value.core == pool.View() && r.value.calls[|s.calls|] == Done(o)
            && |r.value.refills| - |s.refills| == |pool.refillTasks - old(pool.refillTasks)|
            && s.gone <= r.value.gone && old(backend.terminated) <= backend.terminated
            && r.value.gone[|s.gone|..] == backend.terminated[|old(backend.terminated)|..]
    // A call that is not allowed, or finds no slot, leaves everything as it was.
    ensures (o == Denied <==> decision == Deny) && (o == NeedsApproval <==> decision == RequireApproval)
    ensures decision != Allow <==> o in {Denied, NeedsApproval, GrantRaised}
    ensures o in {Denied, NeedsApproval, GrantRaised, Exhausted} ==>
              pool.View() == old(pool.View()) && pool.refillTasks == old(pool.refillTasks)
              && backend.terminated == old(backend.terminated)
    // Otherwise the slot comes back exactly when the handle was terminated.
    ensures decision == Allow && o != Exhausted ==>
              pool.concurrentCount == old(pool.concurrentCount) + if o.Finished? then 0 else 1
    ensures o.BootAborted? || o.ReleaseFailed? ==> backend.terminated == old(backend.terminated)
    ensures o.Finished? ==>
              terminates && o.ok == ran && (old(pool.warm) == [] ==> boot.Booted?)
              && backend.terminated == old(backend.terminated)
                   + [if old(pool.warm) == [] then boot.id else old(pool.warm[|pool.warm| - 1])]
    ensures backend.closed == old(backend.closed)
    ensures pool.refillTasks == old(pool.refillTasks)
                                + if o.Finished? && |pool.warm| < pool.warmSize then {task} else {}
  {
    LoneCall(s, decision, boot, ran, terminates);
    match decision {
      case Deny => return Denied;
      case RequireApproval => return NeedsApproval;
      case CheckRaises => return GrantRaised;
      case Allow =>
    }
    var admission := pool.TryAcquire();
    var handle;
    match admission {
      case Hit(h) => handle := h;
      case Wait => return Exhausted;
      case ColdStart =>
        match boot {
          case Booted(id) => handle := id;
          case BootRaised(lost) => return BootAborted(lost);
        }
    }
    // `run` may raise; `finally` releases the handle either way.
    if !terminates {
      return ReleaseFailed(handle);
    }
    backend.Terminate(handle);
    var _ := pool.FinishRelease(task);
    return Finished(ran);
  }
}
