/** `SandboxPool`: the code between two awaits, as functions of the pool's two counters and
    as the methods that update them in place. How these pieces interleave is the subject
    of `PoolMachine`. */
module SandboxPool {
  import opened Wrappers

  /** A handle id. The backend hands out ids it has never used before. */
  type Id = int

  /** `_warm` (a stack: the last element is popped first) and `_concurrent_count`. */
  datatype Core = Core(warm: seq<Id>, count: int)

  datatype Admission = Hit(handle: Id) | ColdStart | Wait

  /** One pass of `acquire`'s loop body, under the condition's lock. */
  function Admit(p: Core, maxConcurrent: int): (r: (Core, Admission))
    ensures r.1.Hit? ==> r.0.warm + [r.1.handle] == p.warm
    ensures r.1.Wait? <==> p.warm == [] && p.count >= maxConcurrent
    ensures r.0.count == p.count + if r.1.Wait? then 0 else 1
  {
    if p.warm != [] then
      (Core(p.warm[..|p.warm| - 1], p.count + 1), Hit(p.warm[|p.warm| - 1]))
    else if p.count < maxConcurrent then
      (p.(count := p.count + 1), ColdStart)
    else
      (p, Wait)
  }

  /** Placing a booted refill: kept only while the pool is below `warmSize`. */
  function Place(p: Core, warmSize: int, booted: Id): (r: (Core, bool))
    ensures r.1 <==> |p.warm| < warmSize
    ensures r.0.count == p.count && r.0.warm == p.warm + if r.1 then [booted] else []
  {
    if |p.warm| < warmSize then (p.(warm := p.warm + [booted]), true) else (p, false)
  }

  /** The backend calls that `close` makes, as it sees them. */
  class Backend {
    var terminated: seq<Id>
    var closed: bool

    constructor ()
      ensures terminated == [] && !closed
    {
      terminated, closed := [], false;
    }

    method Terminate(h: Id)
      modifies this
      ensures terminated == old(terminated) + [h] && closed == old(closed)
    {
      terminated := terminated + [h];
    }

    method Close()
      modifies this
      ensures closed && terminated == old(terminated)
    {
      closed := true;
    }
  }

  class Pool {
    const warmSize: int
    const maxConcurrent: int
    var warm: seq<Id>
    var concurrentCount: int
    var refillTasks: set<nat>

    constructor (warmSize: int, maxConcurrent: int)
      ensures this.warmSize == warmSize && this.maxConcurrent == maxConcurrent
      ensures View() == Core([], 0) && refillTasks == {}
    {
      this.warmSize, this.maxConcurrent := warmSize, maxConcurrent;
      warm, concurrentCount, refillTasks := [], 0, {};
    }

    ghost function View(): Core
      reads this
    {
      Core(warm, concurrentCount)
    }

    /** `boots` are the results of the successive `boot_clean` calls; `None` is a boot that
        raises, which ends the loop. */
    method Prewarm(boots: seq<Option<Id>>) returns (raised: bool)
      requires |boots| >= warmSize - |warm|
      modifies this`warm
      ensures old(warm) <= warm && |warm| - |old(warm)| <= |boots|
      ensures forall i :: |old(warm)| <= i < |warm| ==> boots[i - |old(warm)|] == Some(warm[i])
      ensures !raised ==> |warm| == if |old(warm)| < warmSize then warmSize else |old(warm)|
      ensures raised ==> |warm| < warmSize && boots[|warm| - |old(warm)|] == None
    {
      var next := 0;
      raised := false;
      while |warm| < warmSize
        invariant 0 <= next <= |boots| && |warm| == |old(warm)| + next
        invariant next > 0 ==> |warm| <= warmSize
        invariant old(warm) <= warm
        invariant forall i :: |old(warm)| <= i < |warm| ==> boots[i - |old(warm)|] == Some(warm[i])
        decreases warmSize - |warm|
      {
        match boots[next] {
          case None => raised := true; return;
          case Some(h) => warm := warm + [h];
        }
        next := next + 1;
      }
    }

    /** One pass of `acquire`'s `while True` body. After `ColdStart` the caller awaits the
        boot with the lock still held; after `Wait` it parks on the condition. */
    method TryAcquire() returns (a: Admission)
      modifies this`warm, this`concurrentCount
      ensures (View(), a) == Admit(old(View()), maxConcurrent)
    {
      if warm != [] {
        var handle := warm[|warm| - 1];
        warm := warm[..|warm| - 1];
        concurrentCount := concurrentCount + 1;
        return Hit(handle);
      }
      if concurrentCount < maxConcurrent {
        concurrentCount := concurrentCount + 1;
        return ColdStart;
      }
      return Wait;
    }

    /** The rest of `release` once the handle has been terminated: free the slot, then
        start refill `task` when the warm pool is short. */
    method FinishRelease(task: nat) returns (needsRefill: bool)
      requires task !in refillTasks
      modifies this`concurrentCount, this`refillTasks
      ensures View() == old(View()).(count := old(concurrentCount) - 1)
      ensures needsRefill <==> |warm| < warmSize
      ensures refillTasks == old(refillTasks) + if needsRefill then {task} else {}
    {
      concurrentCount := concurrentCount - 1;
      needsRefill := |warm| < warmSize;
      if needsRefill {
        refillTasks := refillTasks + {task};
      }
    }

    /** `_refill_one` once its boot succeeded and it holds the lock. */
    method PlaceRefill(booted: Id) returns (placed: bool)
      modifies this`warm
      ensures (View(), placed) == Place(old(View()), warmSize, booted)
    {
      placed := |warm| < warmSize;
      if placed {
        warm := warm + [booted];
      }
    }

    /** `close` after its pending refills are done. `outcomes[i]` tells whether the i-th
        `terminate` returns; one that raises leaves the rest, and the backend, as they are. */
    method Close(backend: Backend, outcomes: seq<bool>) returns (raised: bool)
      requires |outcomes| >= |warm|
      modifies this`warm, backend
      ensures View() == old(View()).(warm := [])
      ensures old(backend.terminated) <= backend.terminated <= old(backend.terminated) + old(warm)
      ensures forall i :: 0 <= i < |backend.terminated| - |old(backend.terminated)| ==> outcomes[i]
      ensures !raised ==> backend.terminated == old(backend.terminated) + old(warm) && backend.closed
      ensures raised ==> backend.closed == old(backend.closed)
      ensures raised ==> var n := |backend.terminated| - |old(backend.terminated)|;
                         n < |old(warm)| && !outcomes[n]
    {
      var handles := warm;
      warm := [];
      for i := 0 to |handles|
        invariant warm == []
        invariant backend.terminated == old(backend.terminated) + handles[..i]
        invariant backend.closed == old(backend.closed)
        invariant forall j :: 0 <= j < i ==> outcomes[j]
      {
        if !outcomes[i] {
          return true;
        }
        backend.Terminate(handles[i]);
      }
      backend.Close();
      return false;
    }
  }
}
