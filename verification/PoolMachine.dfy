/** The pool under concurrent callers, as a step machine. One step is the code between two
    awaits; a step that needs the condition's lock is enabled only while the lock is free.
    Callers follow `execute_in_sandbox`: grant, acquire, run, and always release. */
module PoolMachine {
  import opened Wrappers
  import opened SandboxPool

  /** How `check_grant` ends. `Allow` stands for every decision but the other two. */
  datatype Decision = Allow | Deny | RequireApproval | CheckRaises

  datatype Outcome =
    | Denied
    | NeedsApproval
    | GrantRaised                      // check_grant raised
    | Exhausted                        // acquire timed out while queued or parked
    | BootAborted(lost: Option<Id>)    // the cold boot raised or was cancelled by the timeout
    | ReleaseFailed(handle: Id)        // terminate raised
    | Finished(ok: bool)               // run returned, or raised and was re-raised

  /** Where one `execute_in_sandbox` call is suspended. */
  datatype Phase =
    | Granting                         // in check_grant
    | Contending                       // wants the lock: first entry, or notified
    | Parked                           // in condition.wait(), not notified
    | Booting                          // in boot_clean(), holding the lock
    | Running(handle: Id)              // in run()
    | Terminating(handle: Id, ok: bool) // in release(): terminate() in flight
    | Releasing(handle: Id, ok: bool)  // terminated, wants the lock to give its slot back
    | Done(outcome: Outcome)

  /** Where one background refill task is suspended. */
  datatype Refill =
    | RBooting                         // in boot_clean()
    | RBooted(handle: Id)              // wants the lock to place its instance
    | RTerminating(handle: Id)         // no room: terminating it, holding the lock
    | RDone(stranded: Option<Id>)      // a boot or a terminate that raised may strand its instance

  datatype Closer =
    | Open
    | Awaiting(pending: nat)           // gathering the first `pending` refill tasks
    | Draining(left: seq<Id>)          // left[0]'s terminate is in flight, if there is one
    | CloseFailed(left: seq<Id>)       // a terminate raised out of close()
    | Shut                             // backend.close() has been called

  datatype Lock = Free | ByCall(call: nat) | ByRefill(task: nat) | ByPrewarm

  datatype Event = HandedOut(handle: Id) | TerminateCalled(handle: Id) | BackendClosed

  /** `booted`, `strays`, `gone` and `log` are history: every id the backend ever returned (or
      lost in an aborted boot), those lost to a boot that raised out of `prewarm`, every id whose
      `terminate` returned, and the calls made in order. */
  datatype State = State(
    warmSize: int,
    maxConcurrent: int,
    core: Core,
    lock: Lock,
    calls: seq<Phase>,
    refills: seq<Refill>,
    closer: Closer,
    booted: set<Id>,
    strays: seq<Id>,
    gone: seq<Id>,
    log: seq<Event>)

  function Init(warmSize: int, maxConcurrent: int): State {
    State(warmSize, maxConcurrent, Core([], 0), Free, [], [], Open, {}, [], [], [])
  }

  datatype Action =
    | Call
    | Grant(c: nat, decision: Decision)
    | Enter(c: nat)
    | BootOk(c: nat, id: Id)
    | BootFails(c: nat, lost: Option<Id>)
    | TimeOut(c: nat)
    | RunEnds(c: nat, ok: bool)
    | TerminateOk(c: nat)
    | TerminateFails(c: nat)
    | FreeSlot(c: nat)
    | RefillBootOk(t: nat, id: Id)
    | RefillBootFails(t: nat, lost: Option<Id>)
    | RefillPlace(t: nat)
    | RefillTerminateOk(t: nat)
    | RefillTerminateFails(t: nat)
    | PrewarmStart
    | PrewarmBootOk(id: Id)
    | PrewarmStop
    | PrewarmRaises(lost: Option<Id>)
    | CloseStart
    | CloseDrain
    | CloseTerminateOk
    | CloseTerminateFails
    | CloseBackend

  /** `notify_all`: every parked caller will contend for the lock again. */
  function Woken(calls: seq<Phase>): (r: seq<Phase>)
    ensures |r| == |calls|
    ensures forall c :: 0 <= c < |calls| ==> r[c] == if calls[c] == Parked then Contending else calls[c]
  {
    seq(|calls|, c requires 0 <= c < |calls| => if calls[c] == Parked then Contending else calls[c])
  }

  predicate At(s: State, c: nat, p: Phase) {
    c < |s.calls| && s.calls[c] == p
  }

  predicate AtRefill(s: State, t: nat, r: Refill) {
    t < |s.refills| && s.refills[t] == r
  }

  function Now(s: State, c: nat, p: Phase): State
    requires c < |s.calls|
  {
    s.(calls := s.calls[c := p])
  }

  function NowRefill(s: State, t: nat, r: Refill): State
    requires t < |s.refills|
  {
    s.(refills := s.refills[t := r])
  }

  function LostId(o: Outcome): set<Id> {
    if o.BootAborted? && o.lost.Some? then {o.lost.value} else {}
  }

  function Strays(lost: Option<Id>): seq<Id> { if lost.Some? then [lost.value] else [] }

  /** `None` when the step is not enabled. */
  function Step(s: State, a: Action): Option<State> {
    match a
    case Call | Grant(_, _) => GrantStep(s, a)
    case Enter(_) | BootOk(_, _) | BootFails(_, _) | TimeOut(_) => AcquireStep(s, a)
    case RunEnds(_, _) | TerminateOk(_) | TerminateFails(_) | FreeSlot(_) => ReleaseStep(s, a)
    case RefillBootOk(_, _) | RefillBootFails(_, _) | RefillPlace(_)
       | RefillTerminateOk(_) | RefillTerminateFails(_) => RefillStep(s, a)
    case PrewarmStart | PrewarmBootOk(_) | PrewarmStop | PrewarmRaises(_) => PrewarmStep(s, a)
    case CloseStart | CloseDrain | CloseTerminateOk | CloseTerminateFails | CloseBackend => CloseStep(s, a)
  }

  function GrantStep(s: State, a: Action): Option<State> {
    match a
    case Call =>
      Some(s.(calls := s.calls + [Granting]))
    case Grant(c, d) =>
      if !At(s, c, Granting) then None
      else Some(Now(s, c, match d
                          case Allow => Contending
                          case Deny => Done(Denied)
                          case RequireApproval => Done(NeedsApproval)
                          case CheckRaises => Done(GrantRaised)))
    case _ => None
  }

  /** The booting call `c` gets its instance and leaves the lock. */
  function BootedTo(s: State, c: nat, id: Id): State
    requires c < |s.calls|
  {
    Now(s, c, Running(id)).(lock := Free, booted := s.booted + {id}, log := s.log + [HandedOut(id)])
  }

  function AcquireStep(s: State, a: Action): Option<State> {
    match a
    case Enter(c) =>
      if !(At(s, c, Contending) && s.lock == Free) then None
      else
        var (core, admission) := Admit(s.core, s.maxConcurrent);
        (match admission
         case Hit(h) => Some(Now(s, c, Running(h)).(core := core, log := s.log + [HandedOut(h)]))
         case ColdStart => Some(Now(s, c, Booting).(core := core, lock := ByCall(c)))
         case Wait => Some(Now(s, c, Parked)))
    case BootOk(c, id) =>
      if !(At(s, c, Booting) && id !in s.booted) then None
      else Some(BootedTo(s, c, id))
    case BootFails(c, lost) =>
      if !(At(s, c, Booting) && LostId(BootAborted(lost)) !! s.booted) then None
      else Some(Now(s, c, Done(BootAborted(lost))).(lock := Free, booted := s.booted + LostId(BootAborted(lost))))
    case TimeOut(c) =>
      // A parked caller re-enters the lock only to leave it again: no field changes.
      if !(At(s, c, Contending) || At(s, c, Parked)) then None
      else Some(Now(s, c, Done(Exhausted)))
    case _ => None
  }

  /** Call `c` gives its slot back, wakes everyone and starts a refill where one is missing. */
  function Freed(s: State, c: nat, ok: bool): State
    requires c < |s.calls|
  {
    s.(calls := Woken(s.calls[c := Done(Finished(ok))]),
       core := s.core.(count := s.core.count - 1),
       refills := s.refills + if |s.core.warm| < s.warmSize then [RBooting] else [])
  }

  function ReleaseStep(s: State, a: Action): Option<State> {
    match a
    case RunEnds(c, ok) =>
      if !(c < |s.calls| && s.calls[c].Running?) then None
      else var h := s.calls[c].handle;
           Some(Now(s, c, Terminating(h, ok)).(log := s.log + [TerminateCalled(h)]))
    case TerminateOk(c) =>
      if !(c < |s.calls| && s.calls[c].Terminating?) then None
      else var h := s.calls[c].handle;
           Some(Now(s, c, Releasing(h, s.calls[c].ok)).(gone := s.gone + [h]))
    case TerminateFails(c) =>
      if !(c < |s.calls| && s.calls[c].Terminating?) then None
      else Some(Now(s, c, Done(ReleaseFailed(s.calls[c].handle))))
    case FreeSlot(c) =>
      if !(c < |s.calls| && s.calls[c].Releasing? && s.lock == Free) then None
      else Some(Freed(s, c, s.calls[c].ok))
    case _ => None
  }

  function RefillStep(s: State, a: Action): Option<State> {
    match a
    case RefillBootOk(t, id) =>
      if !(AtRefill(s, t, RBooting) && id !in s.booted) then None
      else Some(NowRefill(s, t, RBooted(id)).(booted := s.booted + {id}))
    case RefillBootFails(t, lost) =>
      if !(AtRefill(s, t, RBooting) && LostId(BootAborted(lost)) !! s.booted) then None
      else Some(NowRefill(s, t, RDone(lost)).(booted := s.booted + LostId(BootAborted(lost))))
    case RefillPlace(t) =>
      if !(t < |s.refills| && s.refills[t].RBooted? && s.lock == Free) then None
      else
        var h := s.refills[t].handle;
        var (core, placed) := Place(s.core, s.warmSize, h);
        if placed then Some(NowRefill(s, t, RDone(None)).(core := core, calls := Woken(s.calls)))
        else Some(NowRefill(s, t, RTerminating(h)).(lock := ByRefill(t), log := s.log + [TerminateCalled(h)]))
    case RefillTerminateOk(t) =>
      if !(t < |s.refills| && s.refills[t].RTerminating?) then None
      else Some(NowRefill(s, t, RDone(None)).(lock := Free, gone := s.gone + [s.refills[t].handle]))
    case RefillTerminateFails(t) =>
      if !(t < |s.refills| && s.refills[t].RTerminating?) then None
      else Some(NowRefill(s, t, RDone(Some(s.refills[t].handle))).(lock := Free))
    case _ => None
  }

  function PrewarmStep(s: State, a: Action): Option<State> {
    match a
    case PrewarmStart =>
      if s.lock != Free then None else Some(s.(lock := ByPrewarm))
    case PrewarmBootOk(id) =>
      if !(s.lock == ByPrewarm && |s.core.warm| < s.warmSize && id !in s.booted) then None
      else Some(s.(core := s.core.(warm := s.core.warm + [id]), booted := s.booted + {id}))
    case PrewarmStop =>
      if !(s.lock == ByPrewarm && |s.core.warm| >= s.warmSize) then None else Some(s.(lock := Free))
    case PrewarmRaises(lost) =>
      if !(s.lock == ByPrewarm && |s.core.warm| < s.warmSize && LostId(BootAborted(lost)) !! s.booted) then None
      else Some(s.(lock := Free, booted := s.booted + LostId(BootAborted(lost)), strays := s.strays + Strays(lost)))
    case _ => None
  }

  /** `close` takes every warm instance and calls `terminate` on the first. */
  function Drained(s: State): State {
    s.(closer := Draining(s.core.warm), core := s.core.(warm := []),
       log := s.log + if s.core.warm == [] then [] else [TerminateCalled(s.core.warm[0])])
  }

  function CloseStep(s: State, a: Action): Option<State> {
    match a
    case CloseStart =>
      if s.closer != Open then None else Some(s.(closer := Awaiting(|s.refills|)))
    case CloseDrain =>
      if !(s.closer.Awaiting? && s.lock == Free && s.closer.pending <= |s.refills|
           && forall t :: 0 <= t < s.closer.pending ==> s.refills[t].RDone?) then None
      else Some(Drained(s))
    case CloseTerminateOk =>
      if !(s.closer.Draining? && s.closer.left != []) then None
      else
        var rest := s.closer.left[1..];
        Some(s.(closer := Draining(rest), gone := s.gone + [s.closer.left[0]],
                log := s.log + if rest == [] then [] else [TerminateCalled(rest[0])]))
    case CloseTerminateFails =>
      if !(s.closer.Draining? && s.closer.left != []) then None
      else Some(s.(closer := CloseFailed(s.closer.left)))
    case CloseBackend =>
      if s.closer != Draining([]) then None
      else Some(s.(closer := Shut, log := s.log + [BackendClosed]))
    case _ => None
  }

  /** The state after `acts`, or `None` when one of them is not enabled. */
  function RunFrom(s: State, acts: seq<Action>): Option<State>
    decreases |acts|
  {
    if acts == [] then Some(s)
    else
      match Step(s, acts[0])
      case None => None
      case Some(t) => RunFrom(t, acts[1..])
  }

  lemma {:induction false} RunConcat(s: State, a: seq<Action>, b: seq<Action>)
    ensures RunFrom(s, a + b) ==
            match RunFrom(s, a)
            case None => None
            case Some(t) => RunFrom(t, b)
    decreases |a|
  {
    if a == [] {
      assert a + b == b;
    } else if Step(s, a[0]).Some? {
      assert (a + b)[1..] == a[1..] + b;
      RunConcat(Step(s, a[0]).value, a[1..], b);
    }
  }
}
