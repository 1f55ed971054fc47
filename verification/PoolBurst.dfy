/** Runs that show which hypotheses of `PoolTheorems` are needed: a late `prewarm` loses a
    wakeup, failing cold boots wedge the pool, and without a limit on the refills in flight
    `_concurrent_count` exceeds `max_concurrent` by any amount. */
module PoolBurst {
  import opened Wrappers
  import opened Ledgers
  import opened SandboxPool
  import opened PoolMachine
  import opened PoolConservation
  import opened PoolTheorems

  /** Putting one step in front of a run. */
  lemma Before(s: State, a: Action, rest: seq<Action>, k: int)
    requires Step(s, a).Some? && RunFrom(Step(s, a).value, rest).Some?
    requires ColdStartsWithin(Step(s, a).value, rest, k) && (IsColdStart(s, a) ==> InFlight(s) <= k)
    ensures RunFrom(s, [a] + rest) == RunFrom(Step(s, a).value, rest)
    ensures ColdStartsWithin(s, [a] + rest, k)
  {
    assert ([a] + rest)[1..] == rest;
  }

  lemma {:induction false} ColdStartsConcat(s: State, a: seq<Action>, b: seq<Action>, k: int)
    requires RunFrom(s, a).Some? && ColdStartsWithin(s, a, k) && ColdStartsWithin(RunFrom(s, a).value, b, k)
    ensures ColdStartsWithin(s, a + b, k)
    decreases |a|
  {
    if a == [] {
      assert a + b == b;
    } else {
      assert (a + b)[1..] == a[1..] + b;
      ColdStartsConcat(Step(s, a[0]).value, a[1..], b, k);
    }
  }

  lemma {:induction false} TallyAtMost<P>(ps: seq<P>, g: P -> bool)
    ensures Tally(ps, g) <= |ps|
  {
    if ps != [] {
      TallyAtMost(ps[..|ps| - 1], g);
    }
  }

  /** All ids so far are below `m`, the pool is unlocked and its warm list is empty. */
  ghost predicate Settled(s: State, m: nat) {
    s.lock == Free && s.core.warm == [] && 0 < s.warmSize && forall h :: h in s.booted ==> h < m
  }

  /** A new caller that is allowed to run arrives at the lock. */
  ghost function Arrived(s: State): State { s.(calls := s.calls + [Contending]) }

  lemma Arrives(s: State, rest: seq<Action>, k: int) returns (acts: seq<Action>)
    requires RunFrom(Arrived(s), rest).Some? && ColdStartsWithin(Arrived(s), rest, k)
    ensures acts == [Call] + ([Grant(|s.calls|, Allow)] + rest)
    ensures RunFrom(s, acts) == RunFrom(Arrived(s), rest) && ColdStartsWithin(s, acts, k)
  {
    var c := |s.calls|;
    var s1 := Step(s, Call).value;
    assert s1.calls[c := Contending] == Arrived(s).calls;
    assert Step(s1, Grant(c, Allow)) == Some(Arrived(s));
    Before(s1, Grant(c, Allow), rest, k);
    Before(s, Call, [Grant(c, Allow)] + rest, k);
    acts := [Call] + ([Grant(c, Allow)] + rest);
  }

  /** One more caller cold-starts and keeps running. */
  lemma ColdRound(s: State, m: nat, k: int) returns (acts: seq<Action>, t: State)
    requires Settled(s, m) && s.core.count < s.maxConcurrent && |s.refills| <= k
    ensures RunFrom(s, acts) == Some(t) && ColdStartsWithin(s, acts, k) && NoPrewarm(acts)
    ensures Settled(t, m + 1) && t.core == Core([], s.core.count + 1) && t.refills == s.refills
    ensures t.warmSize == s.warmSize && t.maxConcurrent == s.maxConcurrent
    ensures |t.calls| == |s.calls| + 1 && t.calls[|s.calls|] == Running(m)
  {
    var c := |s.calls|;
    var s1 := Arrived(s);
    var s2 := Step(s1, Enter(c)).value;
    t := Step(s2, BootOk(c, m)).value;
    TallyAtMost(s.refills, InFlightRefill);
    Before(s2, BootOk(c, m), [], k);
    Before(s1, Enter(c), [BootOk(c, m)] + [], k);
    acts := Arrives(s, [Enter(c)] + ([BootOk(c, m)] + []), k);
  }

  /** The caller `c` that holds `h` releases it, which starts one refill. */
  lemma ReleaseRound(s: State, m: nat, c: nat, h: Id, k: int) returns (acts: seq<Action>, t: State)
    requires Settled(s, m) && c < |s.calls| && s.calls[c] == Running(h)
    ensures RunFrom(s, acts) == Some(t) && ColdStartsWithin(s, acts, k) && NoPrewarm(acts)
    ensures Settled(t, m) && t.core == Core([], s.core.count - 1) && t.refills == s.refills + [RBooting]
    ensures t.warmSize == s.warmSize && t.maxConcurrent == s.maxConcurrent
  {
    var s1 := Step(s, RunEnds(c, true)).value;
    var s2 := Step(s1, TerminateOk(c)).value;
    t := Step(s2, FreeSlot(c)).value;
    Before(s2, FreeSlot(c), [], k);
    Before(s1, TerminateOk(c), [FreeSlot(c)] + [], k);
    acts := [RunEnds(c, true)] + ([TerminateOk(c)] + ([FreeSlot(c)] + []));
    Before(s, RunEnds(c, true), acts[1..], k);
  }

  /** The refill `i` in flight lands in the warm pool. */
  lemma LandRound(s: State, m: nat, i: nat, k: int) returns (acts: seq<Action>, t: State)
    requires Settled(s, m) && i < |s.refills| && s.refills[i] == RBooting
    ensures RunFrom(s, acts) == Some(t) && ColdStartsWithin(s, acts, k) && NoPrewarm(acts)
    ensures t == s.(core := Core([m], s.core.count), calls := Woken(s.calls), booted := s.booted + {m},
                    refills := s.refills[i := RDone(None)])
  {
    var s1 := Step(s, RefillBootOk(i, m)).value;
    t := Step(s1, RefillPlace(i)).value;
    Before(s1, RefillPlace(i), [], k);
    acts := [RefillBootOk(i, m)] + ([RefillPlace(i)] + []);
    Before(s, RefillBootOk(i, m), acts[1..], k);
  }

  /** A new caller takes the only warm instance, without a look at `max_concurrent`. */
  lemma HitRound(s: State, h: Id, k: int) returns (acts: seq<Action>, t: State)
    requires s.lock == Free && s.core.warm == [h]
    ensures RunFrom(s, acts) == Some(t) && ColdStartsWithin(s, acts, k) && NoPrewarm(acts)
    ensures t == s.(core := Core([], s.core.count + 1), calls := s.calls + [Running(h)],
                    log := s.log + [HandedOut(h)])
  {
    var c := |s.calls|;
    t := Step(Arrived(s), Enter(c)).value;
    Before(Arrived(s), Enter(c), [], k);
    acts := Arrives(s, [Enter(c)] + [], k);
    assert t.calls == s.calls + [Running(h)];
  }

  lemma WarmRound(s: State, m: nat, i: nat, k: int) returns (acts: seq<Action>, t: State)
    requires Settled(s, m) && i < |s.refills| && s.refills[i] == RBooting
    ensures RunFrom(s, acts) == Some(t) && ColdStartsWithin(s, acts, k) && NoPrewarm(acts)
    ensures Settled(t, m + 1) && t.core == Core([], s.core.count + 1) && t.refills == s.refills[i := RDone(None)]
    ensures t.warmSize == s.warmSize && t.maxConcurrent == s.maxConcurrent
  {
    var a, mid := LandRound(s, m, i, k);
    var b, last := HitRound(mid, m, k);
    Join(s, a, mid, b, k);
    acts, t := a + b, last;
  }

  lemma Join(s: State, a: seq<Action>, t: State, b: seq<Action>, k: int)
    requires RunFrom(s, a) == Some(t) && RunFrom(t, b).Some?
    requires ColdStartsWithin(s, a, k) && ColdStartsWithin(t, b, k) && NoPrewarm(a) && NoPrewarm(b)
    ensures RunFrom(s, a + b) == RunFrom(t, b) && ColdStartsWithin(s, a + b, k) && NoPrewarm(a + b)
  {
    RunConcat(s, a, b);
    ColdStartsConcat(s, a, b, k);
  }

  /** `n` callers in turn acquire and release, leaving `n` refills in flight. */
  lemma {:induction false} PileUpRefills(s: State, m: nat, n: nat, k: int)
    returns (acts: seq<Action>, t: State, m': nat)
    requires Settled(s, m) && s.core.count < s.maxConcurrent && |s.refills| + n <= k
    requires forall i :: 0 <= i < |s.refills| ==> s.refills[i] == RBooting
    ensures RunFrom(s, acts) == Some(t) && ColdStartsWithin(s, acts, k) && NoPrewarm(acts)
    ensures Settled(t, m') && t.core == s.core && |t.refills| == |s.refills| + n
    ensures forall i :: 0 <= i < |t.refills| ==> t.refills[i] == RBooting
    ensures t.warmSize == s.warmSize && t.maxConcurrent == s.maxConcurrent
    decreases n
  {
    if n == 0 {
      acts, t, m' := [], s, m;
    } else {
      var a, u := ColdRound(s, m, k);
      var b, v := ReleaseRound(u, m + 1, |s.calls|, m, k);
      Join(s, a, u, b, k);
      var rest;
      rest, t, m' := PileUpRefills(v, m + 1, n - 1, k);
      Join(s, a + b, v, rest, k);
      acts := (a + b) + rest;
    }
  }

  /** Cold starts fill every slot up to `max_concurrent`. */
  lemma {:induction false} FillSlots(s: State, m: nat, n: nat, k: int)
    returns (acts: seq<Action>, t: State, m': nat)
    requires Settled(s, m) && s.core.count + n == s.maxConcurrent && |s.refills| <= k
    ensures RunFrom(s, acts) == Some(t) && ColdStartsWithin(s, acts, k) && NoPrewarm(acts)
    ensures Settled(t, m') && t.core == Core([], s.maxConcurrent) && t.refills == s.refills
    ensures t.warmSize == s.warmSize && t.maxConcurrent == s.maxConcurrent
    decreases n
  {
    if n == 0 {
      acts, t, m' := [], s, m;
    } else {
      var a, u := ColdRound(s, m, k);
      var rest;
      rest, t, m' := FillSlots(u, m + 1, n - 1, k);
      Join(s, a, u, rest, k);
      acts := a + rest;
    }
  }

  /** The refills still in flight land one by one and are taken one by one. */
  lemma {:induction false} DrainRefills(s: State, m: nat, i: nat, k: int)
    returns (acts: seq<Action>, t: State)
    requires Settled(s, m) && i <= |s.refills|
    requires forall j :: i <= j < |s.refills| ==> s.refills[j] == RBooting
    ensures RunFrom(s, acts) == Some(t) && ColdStartsWithin(s, acts, k) && NoPrewarm(acts)
    ensures t.core.count == s.core.count + |s.refills| - i
    decreases |s.refills| - i
  {
    if i == |s.refills| {
      acts, t := [], s;
    } else {
      var a, u := WarmRound(s, m, i, k);
      var rest;
      rest, t := DrainRefills(u, m + 1, i + 1, k);
      Join(s, a, u, rest, k);
      acts := a + rest;
    }
  }

  /** `count <= max_concurrent` is not an invariant, and `LiveBound` is tight: for all sizes of
      at least one and every n, some run in which no cold start meets more than n refills in
      flight brings the count to `max_concurrent + n`. */
  lemma CountExceedsMaxConcurrent(warmSize: int, maxConcurrent: int, n: nat) returns (acts: seq<Action>)
    requires warmSize >= 1 && maxConcurrent >= 1
    ensures RunFrom(Init(warmSize, maxConcurrent), acts).Some? && NoPrewarm(acts)
    ensures ColdStartsWithin(Init(warmSize, maxConcurrent), acts, n)
    ensures RunFrom(Init(warmSize, maxConcurrent), acts).value.core.count == maxConcurrent + n
  {
    var s0 := Init(warmSize, maxConcurrent);
    var a, s1, m1 := PileUpRefills(s0, 0, n, n);
    var b, s2, m2 := FillSlots(s1, m1, maxConcurrent, n);
    var c, s3 := DrainRefills(s2, m2, 0, n);
    Join(s0, a, s1, b, n);
    Join(s0, a + b, s2, c, n);
    acts := (a + b) + c;
  }

  /** A second caller finds every slot taken and parks. */
  lemma ParkRound(s: State, k: int) returns (acts: seq<Action>, t: State)
    requires s.lock == Free && s.core.warm == [] && s.core.count >= s.maxConcurrent
    ensures RunFrom(s, acts) == Some(t) && ColdStartsWithin(s, acts, k)
    ensures t == s.(calls := s.calls + [Parked])
  {
    var c := |s.calls|;
    t := Step(Arrived(s), Enter(c)).value;
    Before(Arrived(s), Enter(c), [], k);
    acts := Arrives(s, [Enter(c)] + [], k);
  }

  /** A `prewarm` that boots the one missing instance, whoever is parked. */
  lemma PrewarmRound(s: State, id: Id, k: int) returns (acts: seq<Action>, t: State)
    requires s.lock == Free && |s.core.warm| + 1 == s.warmSize && id !in s.booted
    ensures RunFrom(s, acts) == Some(t)
    ensures t == s.(core := s.core.(warm := s.core.warm + [id]), booted := s.booted + {id})
  {
    var s1 := Step(s, PrewarmStart).value;
    var s2 := Step(s1, PrewarmBootOk(id)).value;
    t := Step(s2, PrewarmStop).value;
    Before(s2, PrewarmStop, [], k);
    Before(s1, PrewarmBootOk(id), [PrewarmStop] + [], k);
    acts := [PrewarmStart] + ([PrewarmBootOk(id)] + ([PrewarmStop] + []));
    Before(s, PrewarmStart, acts[1..], k);
  }

  /** `prewarm` appends without notifying: run late, it leaves a warm instance beside an
      un-notified parked caller with the lock free. */
  lemma LatePrewarmLosesAWakeup() returns (acts: seq<Action>)
    ensures RunFrom(Init(1, 1), acts).Some? && !NoLostWakeup(RunFrom(Init(1, 1), acts).value)
    ensures RunFrom(Init(1, 1), acts).value.lock == Free
  {
    var s0 := Init(1, 1);
    var a, s1 := ColdRound(s0, 0, 0);
    var b, s2 := ParkRound(s1, 0);
    var c, s3 := PrewarmRound(s2, 1, 0);
    RunConcat(s1, b, c);
    RunConcat(s0, a, b + c);
    acts := a + (b + c);
    assert s3.calls[|s1.calls|] == Parked;
  }

  /** One more caller cold-starts and its boot fails. */
  lemma AbortRound(s: State) returns (acts: seq<Action>, t: State)
    requires s.lock == Free && s.core.warm == [] && s.core.count < s.maxConcurrent
    ensures RunFrom(s, acts) == Some(t) && NoPrewarm(acts)
    ensures t == s.(core := Core([], s.core.count + 1), calls := s.calls + [Done(BootAborted(None))])
  {
    var c, k := |s.calls|, |s.refills|;
    var s1 := Arrived(s);
    var s2 := Step(s1, Enter(c)).value;
    t := Step(s2, BootFails(c, None)).value;
    TallyAtMost(s.refills, InFlightRefill);
    Before(s2, BootFails(c, None), [], k);
    Before(s1, Enter(c), [BootFails(c, None)] + [], k);
    acts := Arrives(s, [Enter(c)] + ([BootFails(c, None)] + []), k);
    assert t.calls == s.calls + [Done(BootAborted(None))];
  }

  lemma {:induction false} AbortAll(s: State, n: nat) returns (acts: seq<Action>, t: State)
    requires s.lock == Free && s.core.warm == [] && s.core.count + n == s.maxConcurrent
    requires s.refills == [] && forall c :: 0 <= c < |s.calls| ==> s.calls[c].Done?
    ensures RunFrom(s, acts) == Some(t) && NoPrewarm(acts)
    ensures t.lock == Free && Wedged(t) && AllReturned(t) && t.log == s.log && t.core.count == s.maxConcurrent
    decreases n
  {
    if n == 0 {
      acts, t := [], s;
    } else {
      var a, u := AbortRound(s);
      var rest;
      rest, t := AbortAll(u, n - 1);
      RunConcat(s, a, rest);
      acts := a + rest;
    }
  }

  /** For every limit of at least one, failing cold boots alone bring the pool to a state in which
      every call has returned, every slot is taken, and no call of any later run without a
      `prewarm` is ever handed a handle. */
  lemma FailedBootsWedge(warmSize: int, maxConcurrent: int) returns (acts: seq<Action>, t: State)
    requires maxConcurrent >= 1
    ensures RunFrom(Init(warmSize, maxConcurrent), acts) == Some(t) && NoPrewarm(acts)
    ensures AllReturned(t) && t.core.count == maxConcurrent && t.lock == Free
    ensures forall later, h :: NoPrewarm(later) && RunFrom(t, later).Some? ==>
              HandedOut(h) !in RunFrom(t, later).value.log
  {
    acts, t := AbortAll(Init(warmSize, maxConcurrent), maxConcurrent);
    forall later, h | NoPrewarm(later) && RunFrom(t, later).Some?
      ensures HandedOut(h) !in RunFrom(t, later).value.log
    {
      WedgedForever(t, later);
    }
  }
}
