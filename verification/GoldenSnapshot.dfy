/** `FirecrackerSandbox`'s golden snapshot and the files its virtual machines leave on disk,
    under concurrent `boot_clean`, `terminate` and `close` calls. One step is the code
    between two awaits; a process that is running may create its sockets at any moment. */
module GoldenSnapshot {
  import opened Wrappers
  import opened Ledgers

  /** An instance id. Every boot draws one that was never used before. */
  type Id = nat

  datatype Kind = ApiSock | ConsoleLog | VsockUds | VsockPort | Rootfs

  datatype File = Of(id: Id, kind: Kind) | GoldenState | GoldenMem

  const GOLDEN_FILES: set<File> := {GoldenState, GoldenMem}

  /** What tearing instance `id` down unlinks: everything of its own, except that the rootfs
      copy is only touched when it owns one. */
  function InstanceFiles(id: Id, ownsRootfs: bool): set<File> {
    set k: Kind | ownsRootfs || k != Rootfs :: Of(id, k)
  }

  /** Where one `boot_clean` call is suspended. The four phases named after the golden
      instance hold the snapshot lock. */
  datatype Call =
    | Arrived
    | WantsLock
    | ColdBooting(id: Id)       // waiting for "ready", with the snapshot mode off
    | ColdFailing(id: Id)       // killed, waiting for its exit
    | GoldenBooting(id: Id)
    | GoldenFailing(id: Id)
    | Snapshotting(id: Id)      // pausing it and writing the snapshot
    | TearingDown(id: Id)       // killed, waiting for its exit
    | Restoring(id: Id)
    | RestoreFailing(id: Id)
    | Returned(handle: Id)
    | Raised

  function Holder(c: Call): Option<Id> {
    match c
    case ColdBooting(id) => Some(id)
    case ColdFailing(id) => Some(id)
    case GoldenBooting(id) => Some(id)
    case GoldenFailing(id) => Some(id)
    case Snapshotting(id) => Some(id)
    case TearingDown(id) => Some(id)
    case Restoring(id) => Some(id)
    case RestoreFailing(id) => Some(id)
    case _ => None
  }

  predicate IsCold(c: Call) { c.ColdBooting? || c.ColdFailing? }
  predicate IsCreating(c: Call) { c.GoldenBooting? || c.GoldenFailing? || c.Snapshotting? || c.TearingDown? }
  predicate IsRestoring(c: Call) { c.Restoring? || c.RestoreFailing? }
  predicate NeedsRootfs(c: Call, id: Id) { Holder(c) == Some(id) && !IsRestoring(c) }
  predicate IsRunning(c: Call) { c.ColdBooting? || c.GoldenBooting? || c.Snapshotting? || c.Restoring? }
  predicate Ended(c: Call) { c.Returned? || c.Raised? }

  /** `golden` is `_golden_snapshot` being set, `goldenRootfs` the id in
      `_golden_rootfs_copy`. `instances` and `reaping` tell of each live instance, and each
      one whose `terminate` awaits its exit, whether it has a rootfs copy of its own.
      `abandoned` are the instances that an exception left behind with whatever they had on
      disk; it tells whether a snapshot of theirs may still be under way. `creations` and
      `closes` are history. */
  datatype State = State(
    snapshots: bool,
    calls: seq<Call>,
    lock: Option<nat>,
    instances: map<Id, bool>,
    reaping: map<Id, bool>,
    abandoned: map<Id, bool>,
    golden: bool,
    goldenRootfs: Option<Id>,
    files: set<File>,
    next: Id,
    creations: nat,
    closes: nat)

  function Init(snapshots: bool): State {
    State(snapshots, [], None, map[], map[], map[], false, None, {}, 0, 0, 0)
  }

  datatype Action =
    | Boot                      // a new boot_clean call
    | Begin(c: nat)             // up to its first await
    | Lock(c: nat)
    | Appear(c: nat, kind: Kind)
    | AppearGolden(c: nat, file: File)
    | Ready(c: nat)
    | NotReady(c: nat)          // an unexpected first message
    | Kill(c: nat)              // it stayed silent or broke the stream, or its snapshot is done
    | Reaped(c: nat)            // the exit of one that was killed for failing
    | Install(c: nat)
    | Abandon(c: nat, unlinked: set<File>)        // see AbandonStep
    | AbandonReap(id: Id, unlinked: set<File>)
    | AppearLate(id: Id, file: File)
    | Terminate(id: Id)
    | Reap(id: Id)
    | Close

  function Now(s: State, c: nat, p: Call): State
    requires c < |s.calls|
  {
    s.(calls := s.calls[c := p])
  }

  /** A fresh instance starts: only a cold boot copies the rootfs first. */
  function Start(s: State, c: nat, p: Call): State
    requires c < |s.calls| && Holder(p) == Some(s.next)
  {
    Now(s, c, p).(next := s.next + 1, files := s.files + if IsRestoring(p) then {} else {Of(s.next, Rootfs)})
  }

  /** Clean up after a failed boot and raise, leaving the lock if this call holds it. */
  function Abort(s: State, c: nat): State
    requires c < |s.calls| && Holder(s.calls[c]).Some?
  {
    var p := s.calls[c];
    Now(s, c, Raised).(files := s.files - InstanceFiles(p.id, !IsRestoring(p)),
                       lock := if IsCreating(p) then None else s.lock)
  }

  /** `None` when the step is not enabled. */
  function Step(s: State, a: Action): Option<State> {
    match a
    case Boot => Some(s.(calls := s.calls + [Arrived]))
    case Begin(c) => if c < |s.calls| then StartStep(s, a, c) else None
    case Lock(c) => if c < |s.calls| then StartStep(s, a, c) else None
    case Install(c) => if c < |s.calls| then StartStep(s, a, c) else None
    case Appear(c, _) => if c < |s.calls| then FileStep(s, a, c) else None
    case AppearGolden(c, _) => if c < |s.calls| then FileStep(s, a, c) else None
    case Ready(c) => if c < |s.calls| then ReadyStep(s, a, c) else None
    case Kill(c) => if c < |s.calls| then KillStep(s, c) else None
    case NotReady(c) => if c < |s.calls| then FailStep(s, a, c) else None
    case Reaped(c) => if c < |s.calls| then FailStep(s, a, c) else None
    case Abandon(c, unlinked) => if c < |s.calls| then AbandonStep(s, c, unlinked) else None
    case Terminate(_) | Reap(_) | AbandonReap(_, _) | Close => BackendStep(s, a)
    case AppearLate(_, _) => LateStep(s, a)
  }

  /** The steps that start an instance. */
  function StartStep(s: State, a: Action, c: nat): Option<State>
    requires c < |s.calls|
  {
    var p := s.calls[c];
    match a
    case Begin(_) =>
      if !p.Arrived? then None
      else if !s.snapshots then Some(Start(s, c, ColdBooting(s.next)))
      else if s.golden then Some(Start(s, c, Restoring(s.next)))
      else Some(Now(s, c, WantsLock))
    case Lock(_) =>
      if !(p.WantsLock? && s.lock == None) then None
      else if s.golden then Some(Start(s, c, Restoring(s.next)))
      else Some(Start(s, c, GoldenBooting(s.next)).(lock := Some(c)))
    case Install(_) =>
      // Keeps the rootfs copy, frees the lock and restores, with no await in between.
      if !p.TearingDown? then None
      else
        Some(Start(s, c, Restoring(s.next)).(files := s.files - InstanceFiles(p.id, false), lock := None,
                   golden := true, goldenRootfs := Some(p.id), creations := s.creations + 1))
    case _ => None
  }

  /** What a running process may leave on disk. */
  function FileStep(s: State, a: Action, c: nat): Option<State>
    requires c < |s.calls|
  {
    var p := s.calls[c];
    match a
    case Appear(_, kind) =>
      if !(IsRunning(p) && kind != Rootfs) then None else Some(s.(files := s.files + {Of(p.id, kind)}))
    case AppearGolden(_, f) =>
      if !(p.Snapshotting? && f in GOLDEN_FILES) then None else Some(s.(files := s.files + {f}))
    case _ => None
  }

  /** The "ready" message arrives. */
  function ReadyStep(s: State, a: Action, c: nat): Option<State>
    requires c < |s.calls|
  {
    var p := s.calls[c];
    if !a.Ready? then None
    else
      match p
      case GoldenBooting(id) => Some(Now(s, c, Snapshotting(id)).(files := s.files - GOLDEN_FILES))
      case ColdBooting(id) => Some(Now(s, c, Returned(id)).(instances := s.instances[id := true]))
      case Restoring(id) => Some(Now(s, c, Returned(id)).(instances := s.instances[id := false]))
      case _ => None
  }

  /** The phase that waits for the exit of the process of phase `p`. */
  function Killed(p: Call): (r: Option<Call>)
    ensures r.Some? <==> IsRunning(p)
    ensures r.Some? ==> forall id: Id :: (Holder(r.value) == Some(id) <==> Holder(p) == Some(id))
                                     && (NeedsRootfs(r.value, id) <==> NeedsRootfs(p, id))
    ensures r.Some? ==> (IsCreating(r.value) <==> IsCreating(p)) && (IsRestoring(r.value) <==> IsRestoring(p))
  {
    match p
    case ColdBooting(id) => Some(ColdFailing(id))
    case GoldenBooting(id) => Some(GoldenFailing(id))
    case Snapshotting(id) => Some(TearingDown(id))
    case Restoring(id) => Some(RestoreFailing(id))
    case _ => None
  }

  function KillStep(s: State, c: nat): Option<State>
    requires c < |s.calls|
  {
    match Killed(s.calls[c])
    case None => None
    case Some(q) => Some(Now(s, c, q))
  }

  /** The steps that give an instance up. */
  function FailStep(s: State, a: Action, c: nat): Option<State>
    requires c < |s.calls|
  {
    var p := s.calls[c];
    match a
    case NotReady(_) =>
      if p.ColdBooting? || p.GoldenBooting? || p.Restoring? then Some(Abort(s, c)) else None
    case Reaped(_) =>
      if p.ColdFailing? || p.GoldenFailing? || p.RestoreFailing? then Some(Abort(s, c)) else None
    case _ => None
  }

  /** What a call in phase `p` may have unlinked when an exception cuts its clean-up short. */
  function Unlinkable(p: Call): set<File> {
    if Holder(p).None? then {}
    else
      InstanceFiles(p.id, !IsRestoring(p) && !p.Snapshotting? && !p.TearingDown?)
      + if p.GoldenBooting? then GOLDEN_FILES else {}
  }

  /** An exception that no handler of `boot_clean` names ends the call, at any await or before
      the first: the process had exited by itself when it was to be killed, the launch, a
      connection, the ready message or a step of the clean-up raised, or the call was cancelled.
      The lock is left, and what was not `unlinked` stays. */
  function AbandonStep(s: State, c: nat, unlinked: set<File>): Option<State>
    requires c < |s.calls|
  {
    var p := s.calls[c];
    if Ended(p) || !(unlinked <= Unlinkable(p)) then None
    else if Holder(p).None? then Some(Now(s, c, Raised))
    else
      Some(Left(s, c, p.Snapshotting? || p.TearingDown?, unlinked, if IsCreating(p) then None else s.lock))
  }

  function Left(s: State, c: nat, snapshot: bool, unlinked: set<File>, lock: Option<nat>): State
    requires c < |s.calls| && Holder(s.calls[c]).Some?
  {
    Now(s, c, Raised).(files := s.files - unlinked, abandoned := s.abandoned[s.calls[c].id := snapshot], lock := lock)
  }

  /** The process of an abandoned instance may still be running: one that has its listener or its
      console log may add to its files, and one that was writing the snapshot may go on. */
  function LateStep(s: State, a: Action): Option<State> {
    match a
    case AppearLate(id, f) =>
      if id in s.abandoned
         && (if f.Of? then f.id == id && f.kind != Rootfs && HasFiles(s.files, id) else s.abandoned[id])
      then Some(s.(files := s.files + {f}))
      else None
    case _ => None
  }

  predicate HasFiles(files: set<File>, id: Id) { exists f :: f in files && f.Of? && f.id == id }

  function BackendStep(s: State, a: Action): Option<State> {
    match a
    case Terminate(id) =>
      if id !in s.instances then Some(s)
      else Some(s.(instances := s.instances - {id}, reaping := s.reaping[id := s.instances[id]]))
    case Reap(id) =>
      if id !in s.reaping then None
      else Some(s.(reaping := s.reaping - {id}, files := s.files - InstanceFiles(id, s.reaping[id])))
    case AbandonReap(id, unlinked) =>
      // The terminate is cancelled while it waits, or its clean-up raises.
      if !(id in s.reaping && unlinked <= InstanceFiles(id, s.reaping[id])) then None
      else Some(s.(reaping := s.reaping - {id}, abandoned := s.abandoned[id := false], files := s.files - unlinked))
    case Close => Some(Closed(s))
    case _ => None
  }

  function Closed(s: State): State {
    s.(golden := false, goldenRootfs := None, closes := s.closes + 1,
       files := s.files - (if s.golden then GOLDEN_FILES else {})
                        - (if s.goldenRootfs.Some? then {Of(s.goldenRootfs.value, Rootfs)} else {}))
  }

  /** The state after `acts`, or `None` when one of them is not enabled. */
  function RunFrom(s: State, acts: seq<Action>): Option<State>
    decreases |acts|
  {
    if acts == [] then Some(s)
    else
      match Step(s, acts[0])
      case None => None
      case Some(t) => RunFrom(t, acts[1..])
  }

  // ---- Ownership ------------------------------------------------------------------------------------

  function Holds(id: Id): Call -> bool { c => Holder(c) == Some(id) }
  function HoldsRootfs(id: Id): Call -> bool { c => NeedsRootfs(c, id) }

  /** How many parties account for instance `id`, and for its rootfs copy. */
  ghost function Owners(s: State, id: Id): nat {
    Tally(s.calls, Holds(id)) + (if id in s.instances then 1 else 0) + (if id in s.reaping then 1 else 0)
    + (if id in s.abandoned then 1 else 0) + if s.goldenRootfs == Some(id) then 1 else 0
  }

  ghost function RootfsOwners(s: State, id: Id): nat {
    Tally(s.calls, HoldsRootfs(id)) + (if id in s.instances && s.instances[id] then 1 else 0)
    + (if id in s.reaping && s.reaping[id] then 1 else 0) + (if id in s.abandoned then 1 else 0)
    + if s.goldenRootfs == Some(id) then 1 else 0
  }

  /** `id` has at most one owner, none before it is drawn, and no file without one; of the
      golden instance only the rootfs copy is left. */
  ghost predicate Accounted(s: State, id: Id) {
    && Owners(s, id) <= (if id < s.next then 1 else 0)
    && forall k :: Of(id, k) in s.files ==>
         Owners(s, id) == 1 && if k == Rootfs then RootfsOwners(s, id) == 1 else s.goldenRootfs != Some(id)
  }

  /** Only an owner of `id` that still needs its rootfs copy is sure to find it. */
  ghost predicate RootfsKept(s: State) {
    && (forall c :: 0 <= c < |s.calls| && Holder(s.calls[c]).Some? && !IsRestoring(s.calls[c])
                    ==> Of(s.calls[c].id, Rootfs) in s.files)
    && (s.goldenRootfs.Some? ==> Of(s.goldenRootfs.value, Rootfs) in s.files)
    && (forall id :: id in s.abandoned && s.abandoned[id] ==> Of(id, Rootfs) in s.files)
  }

  ghost predicate SnapshotAbandoned(s: State) { exists id :: id in s.abandoned && s.abandoned[id] }

  ghost predicate Guarded(s: State) {
    && (s.lock.Some? ==> s.lock.value < |s.calls| && !s.golden)
    && (forall c :: 0 <= c < |s.calls| ==> (IsCreating(s.calls[c]) <==> s.lock == Some(c)))
    && (s.golden <==> s.goldenRootfs.Some?)
    && (!s.golden && (GoldenState in s.files || GoldenMem in s.files) ==>
          SnapshotAbandoned(s)
          || (s.lock.Some? && (s.calls[s.lock.value].Snapshotting? || s.calls[s.lock.value].TearingDown?)))
  }

  ghost predicate Counted(s: State) {
    && (if s.golden then 0 < s.creations <= s.closes + 1 else s.creations <= s.closes)
    && (!s.snapshots ==> s.creations == 0 && s.lock == None)
    && forall c :: 0 <= c < |s.calls| ==>
         && (IsRestoring(s.calls[c]) ==> s.creations > 0)
         && if s.snapshots then !IsCold(s.calls[c]) else !s.calls[c].WantsLock?
  }

  ghost predicate Inv(s: State) {
    (forall id :: Accounted(s, id)) && RootfsKept(s) && Guarded(s) && Counted(s)
  }

  // ---- What every step keeps ------------------------------------------------------------------------

  lemma InitInv(snapshots: bool)
    ensures Inv(Init(snapshots))
  {
  }

  lemma {:induction false} RootfsAmongHolders(calls: seq<Call>, id: Id)
    ensures Tally(calls, HoldsRootfs(id)) <= Tally(calls, Holds(id))
  {
    if calls != [] {
      RootfsAmongHolders(calls[..|calls| - 1], id);
    }
  }

  /** Changing one call moves the owners of `id` by that call alone. */
  lemma CallMoves(calls: seq<Call>, c: nat, q: Call, id: Id)
    requires c < |calls|
    ensures Tally(calls[c := q], Holds(id)) - Tally(calls, Holds(id))
            == (if Holder(q) == Some(id) then 1 else 0) - (if Holder(calls[c]) == Some(id) then 1 else 0)
    ensures Tally(calls[c := q], HoldsRootfs(id)) - Tally(calls, HoldsRootfs(id))
            == (if NeedsRootfs(q, id) then 1 else 0) - (if NeedsRootfs(calls[c], id) then 1 else 0)
    ensures Tally(calls[c := q], HoldsRootfs(id)) <= Tally(calls[c := q], Holds(id))
    ensures Holder(calls[c]) == Some(id) ==> Tally(calls, Holds(id)) >= 1
    ensures NeedsRootfs(calls[c], id) ==> Tally(calls, HoldsRootfs(id)) >= 1
  {
    TallyUpdate(calls, c, q, Holds(id));
    TallyUpdate(calls, c, q, HoldsRootfs(id));
    RootfsAmongHolders(calls[c := q], id);
    RootfsAmongHolders(calls, id);
    if Holds(id)(calls[c]) {
      TallySome(calls, c, Holds(id));
    }
    if HoldsRootfs(id)(calls[c]) {
      TallySome(calls, c, HoldsRootfs(id));
    }
  }

  /** A call that holds nothing starts the next instance. */
  lemma FreshAccounts(s: State, c: nat, q: Call, id: Id)
    requires c < |s.calls| && Accounted(s, id) && Holder(s.calls[c]) == None && Holder(q) == Some(s.next)
    ensures Accounted(Start(s, c, q), id)
  {
    CallMoves(s.calls, c, q, id);
  }

  lemma InstallAccounts(s: State, c: nat, id: Id)
    requires c < |s.calls| && StartStep(s, Install(c), c).Some? && Accounted(s, id) && Guarded(s)
    ensures Accounted(StartStep(s, Install(c), c).value, id)
  {
    CallMoves(s.calls, c, Restoring(s.next), id);
  }

  lemma StartAccounts(s: State, a: Action, c: nat, id: Id)
    requires c < |s.calls| && StartStep(s, a, c).Some? && Accounted(s, id) && Guarded(s)
    ensures Accounted(StartStep(s, a, c).value, id)
  {
    if a.Install? {
      InstallAccounts(s, c, id);
    } else if s.snapshots && !s.golden && a.Begin? {
      CallMoves(s.calls, c, WantsLock, id);
    } else {
      var t := StartStep(s, a, c).value;
      FreshAccounts(s, c, t.calls[c], id);
      assert t.(lock := s.lock) == Start(s, c, t.calls[c]);
    }
  }

  lemma FileAccounts(s: State, a: Action, c: nat, id: Id)
    requires c < |s.calls| && FileStep(s, a, c).Some? && Accounted(s, id)
    ensures Accounted(FileStep(s, a, c).value, id)
  {
    CallMoves(s.calls, c, s.calls[c], id);
    assert s.calls[c := s.calls[c]] == s.calls;
  }

  /** An instance that is ready moves from its call to the table of live ones. */
  lemma LiveAccounts(s: State, c: nat, ownsRootfs: bool, id: Id)
    requires c < |s.calls| && Accounted(s, id)
    requires Holder(s.calls[c]).Some? && IsRestoring(s.calls[c]) != ownsRootfs
    ensures var g := s.calls[c].id;
            Accounted(Now(s, c, Returned(g)).(instances := s.instances[g := ownsRootfs]), id)
  {
    CallMoves(s.calls, c, Returned(s.calls[c].id), id);
  }

  lemma ReadyAccounts(s: State, a: Action, c: nat, id: Id)
    requires c < |s.calls| && ReadyStep(s, a, c).Some? && Accounted(s, id)
    ensures Accounted(ReadyStep(s, a, c).value, id)
  {
    match s.calls[c]
    case GoldenBooting(g) => CallMoves(s.calls, c, Snapshotting(g), id);
    case ColdBooting(g) => LiveAccounts(s, c, true, id);
    case Restoring(g) => LiveAccounts(s, c, false, id);
  }

  lemma KillAccounts(s: State, c: nat, id: Id)
    requires c < |s.calls| && KillStep(s, c).Some? && Accounted(s, id)
    ensures Accounted(KillStep(s, c).value, id)
  {
    var q := Killed(s.calls[c]).value;
    CallMoves(s.calls, c, q, id);
    assert Owners(Now(s, c, q), id) == Owners(s, id);
  }

  lemma FailAccounts(s: State, a: Action, c: nat, id: Id)
    requires c < |s.calls| && FailStep(s, a, c).Some? && Accounted(s, id)
    ensures Accounted(FailStep(s, a, c).value, id)
  {
    CallMoves(s.calls, c, Raised, id);
  }

  /** An abandoned instance moves from its call to the ledger of abandoned ones. */
  lemma LeftAccounts(s: State, c: nat, snapshot: bool, unlinked: set<File>, lock: Option<nat>, id: Id)
    requires c < |s.calls| && Accounted(s, id) && Holder(s.calls[c]).Some?
    ensures Accounted(Left(s, c, snapshot, unlinked, lock), id)
  {
    CallMoves(s.calls, c, Raised, id);
  }

  lemma RaisedAccounts(s: State, c: nat, id: Id)
    requires c < |s.calls| && Accounted(s, id) && Holder(s.calls[c]).None?
    ensures Accounted(Now(s, c, Raised), id)
  {
    CallMoves(s.calls, c, Raised, id);
  }

  lemma AbandonAccounts(s: State, c: nat, unlinked: set<File>, id: Id)
    requires c < |s.calls| && AbandonStep(s, c, unlinked).Some? && Accounted(s, id)
    ensures Accounted(AbandonStep(s, c, unlinked).value, id)
  {
    var p := s.calls[c];
    if Holder(p).Some? {
      LeftAccounts(s, c, p.Snapshotting? || p.TearingDown?, unlinked, if IsCreating(p) then None else s.lock, id);
    } else {
      RaisedAccounts(s, c, id);
    }
  }

  /** A late file belongs to an instance that is accounted for. */
  lemma LateAccounts(s: State, a: Action, id: Id)
    requires LateStep(s, a).Some? && Accounted(s, id)
    ensures Accounted(LateStep(s, a).value, id)
  {
  }

  lemma BackendAccounts(s: State, a: Action, id: Id)
    requires BackendStep(s, a).Some? && Accounted(s, id)
    ensures Accounted(BackendStep(s, a).value, id)
  {
    RootfsAmongHolders(s.calls, id);
  }

  lemma StepAccounts(s: State, a: Action, id: Id)
    requires Step(s, a).Some? && Accounted(s, id) && Guarded(s)
    ensures Accounted(Step(s, a).value, id)
  {
    match a
    case Boot =>
      TallyAppend(s.calls, Arrived, Holds(id));
      TallyAppend(s.calls, Arrived, HoldsRootfs(id));
    case Appear(c, _) => FileAccounts(s, a, c, id);
    case AppearGolden(c, _) => FileAccounts(s, a, c, id);
    case Abandon(c, unlinked) => AbandonAccounts(s, c, unlinked, id);
    case AbandonReap(_, _) => BackendAccounts(s, a, id);
    case AppearLate(_, _) => LateAccounts(s, a, id);
    case Terminate(_) => BackendAccounts(s, a, id);
    case Reap(_) => BackendAccounts(s, a, id);
    case Close => BackendAccounts(s, a, id);
    case Begin(c) => StartAccounts(s, a, c, id);
    case Lock(c) => StartAccounts(s, a, c, id);
    case Install(c) => StartAccounts(s, a, c, id);
    case NotReady(c) => FailAccounts(s, a, c, id);
    case Reaped(c) => FailAccounts(s, a, c, id);
    case Ready(c) => ReadyAccounts(s, a, c, id);
    case Kill(c) => KillAccounts(s, c, id);
  }

  /** No two parties hold one instance. */
  lemma HeldOnce(s: State, c: nat, d: nat)
    requires c < |s.calls| && d < |s.calls| && c != d && Holder(s.calls[c]).Some?
    requires Accounted(s, s.calls[c].id)
    ensures Holder(s.calls[d]) != Holder(s.calls[c])
  {
    var id := s.calls[c].id;
    if Holder(s.calls[d]) == Some(id) {
      TallyTwo(s.calls, if c < d then c else d, if c < d then d else c, Holds(id));
      assert false;
    }
  }

  lemma HeldByCallOnly(s: State, c: nat)
    requires c < |s.calls| && Holder(s.calls[c]).Some?
    requires Accounted(s, s.calls[c].id)
    ensures var id := s.calls[c].id;
            id < s.next && id !in s.instances && id !in s.reaping && id !in s.abandoned && s.goldenRootfs != Some(id)
  {
    TallySome(s.calls, c, Holds(s.calls[c].id));
  }

  /** The files a step may unlink. */
  function Removed(s: State, a: Action): set<File> {
    match a
    case Ready(c) => if c < |s.calls| && s.calls[c].GoldenBooting? then GOLDEN_FILES else {}
    case NotReady(c) => BootFiles(s, c)
    case Reaped(c) => BootFiles(s, c)
    case Install(c) => if c < |s.calls| && s.calls[c].TearingDown? then InstanceFiles(s.calls[c].id, false) else {}
    case Abandon(_, unlinked) => unlinked
    case Reap(id) => if id in s.reaping then InstanceFiles(id, s.reaping[id]) else {}
    case AbandonReap(_, unlinked) => unlinked
    case Close => (if s.golden then GOLDEN_FILES else {})
                  + if s.goldenRootfs.Some? then {Of(s.goldenRootfs.value, Rootfs)} else {}
    case _ => {}
  }

  function BootFiles(s: State, c: nat): set<File> {
    if c < |s.calls| && Holder(s.calls[c]).Some? then InstanceFiles(s.calls[c].id, !IsRestoring(s.calls[c])) else {}
  }

  lemma OnlyRemoves(s: State, a: Action)
    requires Step(s, a).Some?
    ensures s.files - Removed(s, a) <= Step(s, a).value.files
  {
  }

  /** The instance whose files a step may unlink. */
  function Actor(s: State, a: Action): Option<Id> {
    match a
    case NotReady(c) => HolderAt(s, c)
    case Reaped(c) => HolderAt(s, c)
    case Install(c) => HolderAt(s, c)
    case Abandon(c, _) => HolderAt(s, c)
    case Reap(id) => if id in s.reaping then Some(id) else None
    case AbandonReap(id, _) => if id in s.reaping then Some(id) else None
    case Close => s.goldenRootfs
    case _ => None
  }

  function HolderAt(s: State, c: nat): Option<Id> { if c < |s.calls| then Holder(s.calls[c]) else None }

  lemma OnlyActorLoses(s: State, a: Action, id: Id)
    requires Step(s, a).Some? && Actor(s, a) != Some(id)
    ensures forall k :: Of(id, k) !in Removed(s, a)
  {
  }

  /** The actor's instance has no other owner. */
  lemma ActorOwns(s: State, a: Action, id: Id)
    requires Actor(s, a) == Some(id) && Accounted(s, id)
    ensures id !in s.instances && id !in s.abandoned && (!a.Close? ==> s.goldenRootfs != Some(id))
    ensures forall d :: 0 <= d < |s.calls| && Holder(s.calls[d]) == Some(id) ==>
              (a.NotReady? || a.Reaped? || a.Install? || a.Abandon?) && a.c == d
  {
    if a.NotReady? || a.Reaped? || a.Install? || a.Abandon? {
      HeldByCallOnly(s, a.c);
      forall d | 0 <= d < |s.calls| && d != a.c ensures Holder(s.calls[d]) != Some(id) {
        HeldOnce(s, a.c, d);
      }
    } else {
      forall d | 0 <= d < |s.calls| ensures Holder(s.calls[d]) != Some(id) {
        if Holder(s.calls[d]) == Some(id) {
          HeldByCallOnly(s, d);
        }
      }
    }
  }

  /** A step never unlinks what another call has on disk, an abandoned instance, or a live one;
      nor the golden rootfs, which only `close` does. */
  lemma OthersKeep(s: State, a: Action, id: Id)
    requires Inv(s) && Step(s, a).Some?
    requires id in s.instances || id in s.abandoned || (s.goldenRootfs == Some(id) && !a.Close?)
             || exists d :: 0 <= d < |s.calls| && Holder(s.calls[d]) == Some(id)
                            && d < |Step(s, a).value.calls| && Step(s, a).value.calls[d] == s.calls[d]
    ensures forall k :: Of(id, k) in s.files ==> Of(id, k) in Step(s, a).value.files
  {
    OnlyRemoves(s, a);
    assert Accounted(s, id);
    if Actor(s, a) == Some(id) {
      ActorOwns(s, a, id);
      ActorMoves(s, a);
    }
    OnlyActorLoses(s, a, id);
  }

  /** A call that gives its instance up changes its phase. */
  lemma ActorMoves(s: State, a: Action)
    requires Step(s, a).Some? && (a.NotReady? || a.Reaped? || a.Install? || a.Abandon?)
    ensures Step(s, a).value.calls[a.c] != s.calls[a.c]
  {
  }

  lemma AbandonedGrows(s: State, a: Action, id: Id)
    requires Accounted(s, id) && Step(s, a).Some? && id in s.abandoned
    ensures id in Step(s, a).value.abandoned && Step(s, a).value.abandoned[id] == s.abandoned[id]
  {
    if (a.Abandon? || a.AbandonReap?) && Actor(s, a) == Some(id) {
      ActorOwns(s, a, id);
    }
  }

  /** If call `d` has just taken a phase that needs a rootfs copy, that copy is there: newly made,
      or the one it had before, which no unlinking reaches. */
  ghost predicate TakesRootfs(s: State, t: State, d: nat)
    requires d < |t.calls|
  {
    var q := t.calls[d];
    Holder(q).Some? && !IsRestoring(q) && (d < |s.calls| ==> q != s.calls[d]) ==>
      (q.id == s.next && Of(q.id, Rootfs) in t.files)
      || (d < |s.calls| && Holder(s.calls[d]) == Some(q.id) && !IsRestoring(s.calls[d])
          && t.files >= s.files - GOLDEN_FILES)
  }

  lemma StartTakesRootfs(s: State, a: Action, c: nat, d: nat)
    requires c < |s.calls| && StartStep(s, a, c).Some? && d < |s.calls|
    ensures TakesRootfs(s, StartStep(s, a, c).value, d)
  {
  }

  lemma ReadyTakesRootfs(s: State, a: Action, c: nat, d: nat)
    requires c < |s.calls| && ReadyStep(s, a, c).Some? && d < |s.calls|
    ensures TakesRootfs(s, ReadyStep(s, a, c).value, d)
  {
  }

  lemma KillTakesRootfs(s: State, c: nat, d: nat)
    requires c < |s.calls| && KillStep(s, c).Some? && d < |s.calls|
    ensures TakesRootfs(s, KillStep(s, c).value, d)
  {
  }

  lemma FailTakesRootfs(s: State, a: Action, c: nat, d: nat)
    requires c < |s.calls| && FailStep(s, a, c).Some? && d < |s.calls|
    ensures TakesRootfs(s, FailStep(s, a, c).value, d)
  {
  }

  /** The steps of a call that has begun, but for those of `FileStep` and `AbandonStep`. */
  predicate Moves(a: Action) {
    a.Begin? || a.Lock? || a.Install? || a.Ready? || a.Kill? || a.NotReady? || a.Reaped?
  }

  lemma OthersTakeNothing(s: State, a: Action, d: nat)
    requires Step(s, a).Some? && d < |Step(s, a).value.calls| && !Moves(a)
    ensures var q := Step(s, a).value.calls[d];
            (d < |s.calls| && q == s.calls[d]) || Holder(q).None?
  {
  }

  lemma StepTakesRootfs(s: State, a: Action, d: nat)
    requires Step(s, a).Some? && d < |Step(s, a).value.calls|
    ensures TakesRootfs(s, Step(s, a).value, d)
  {
    match a
    case Begin(c) => StartTakesRootfs(s, a, c, d);
    case Lock(c) => StartTakesRootfs(s, a, c, d);
    case Install(c) => StartTakesRootfs(s, a, c, d);
    case Ready(c) => ReadyTakesRootfs(s, a, c, d);
    case Kill(c) => KillTakesRootfs(s, c, d);
    case NotReady(c) => FailTakesRootfs(s, a, c, d);
    case Reaped(c) => FailTakesRootfs(s, a, c, d);
    case _ => OthersTakeNothing(s, a, d);
  }

  lemma AbandonsWithRootfs(s: State, a: Action, id: Id)
    requires RootfsKept(s) && Step(s, a).Some? && id !in s.abandoned
    requires id in Step(s, a).value.abandoned && Step(s, a).value.abandoned[id]
    ensures Of(id, Rootfs) in Step(s, a).value.files
  {
  }

  lemma InstallsWithRootfs(s: State, a: Action)
    requires RootfsKept(s) && Step(s, a).Some? && Step(s, a).value.goldenRootfs != s.goldenRootfs
    ensures var g := Step(s, a).value.goldenRootfs; g.Some? ==> Of(g.value, Rootfs) in Step(s, a).value.files
  {
  }

  lemma StepKeepsRootfs(s: State, a: Action)
    requires Inv(s) && Step(s, a).Some?
    ensures RootfsKept(Step(s, a).value)
  {
    var t := Step(s, a).value;
    forall d: nat | d < |t.calls| && Holder(t.calls[d]).Some? && !IsRestoring(t.calls[d])
      ensures Of(t.calls[d].id, Rootfs) in t.files
    {
      if d < |s.calls| && t.calls[d] == s.calls[d] {
        OthersKeep(s, a, s.calls[d].id);
      } else {
        StepTakesRootfs(s, a, d);
      }
    }
    if t.goldenRootfs.Some? {
      if t.goldenRootfs == s.goldenRootfs {
        assert !a.Close?;
        OthersKeep(s, a, t.goldenRootfs.value);
      } else {
        InstallsWithRootfs(s, a);
      }
    }
    forall id | id in t.abandoned && t.abandoned[id] ensures Of(id, Rootfs) in t.files {
      if id in s.abandoned {
        assert Accounted(s, id);
        AbandonedGrows(s, a, id);
        OthersKeep(s, a, id);
      } else {
        AbandonsWithRootfs(s, a, id);
      }
    }
  }

  lemma StartGuards(s: State, a: Action, c: nat)
    requires c < |s.calls| && StartStep(s, a, c).Some? && Guarded(s) && Counted(s)
    ensures Guarded(StartStep(s, a, c).value) && Counted(StartStep(s, a, c).value)
  {
  }

  lemma FileGuards(s: State, a: Action, c: nat)
    requires c < |s.calls| && FileStep(s, a, c).Some? && Guarded(s) && Counted(s)
    ensures Guarded(FileStep(s, a, c).value) && Counted(FileStep(s, a, c).value)
  {
  }

  lemma SnapshotGuards(s: State, c: nat)
    requires c < |s.calls| && s.calls[c].GoldenBooting? && Guarded(s) && Counted(s)
    ensures var t := Now(s, c, Snapshotting(s.calls[c].id)).(files := s.files - GOLDEN_FILES);
            Guarded(t) && Counted(t)
  {
  }

  lemma ReadyGuards(s: State, a: Action, c: nat)
    requires c < |s.calls| && ReadyStep(s, a, c).Some? && Guarded(s) && Counted(s)
    ensures Guarded(ReadyStep(s, a, c).value) && Counted(ReadyStep(s, a, c).value)
  {
    if s.calls[c].GoldenBooting? {
      SnapshotGuards(s, c);
    }
  }

  lemma KillGuards(s: State, c: nat)
    requires c < |s.calls| && KillStep(s, c).Some? && Guarded(s) && Counted(s)
    ensures Guarded(KillStep(s, c).value) && Counted(KillStep(s, c).value)
  {
  }

  lemma FailGuards(s: State, a: Action, c: nat)
    requires c < |s.calls| && FailStep(s, a, c).Some? && Guarded(s) && Counted(s)
    ensures Guarded(FailStep(s, a, c).value) && Counted(FailStep(s, a, c).value)
  {
  }

  lemma LeftStaysAbandoned(s: State, c: nat, snapshot: bool, unlinked: set<File>, lock: Option<nat>)
    requires c < |s.calls| && Holder(s.calls[c]).Some? && s.calls[c].id !in s.abandoned
    ensures SnapshotAbandoned(s) || snapshot ==> SnapshotAbandoned(Left(s, c, snapshot, unlinked, lock))
  {
    var t := Left(s, c, snapshot, unlinked, lock);
    if id :| id in s.abandoned && s.abandoned[id] {
      assert t.abandoned[id];
    }
    assert t.abandoned[s.calls[c].id] == snapshot;
  }

  lemma LeftGuards(s: State, c: nat, snapshot: bool, unlinked: set<File>)
    requires c < |s.calls| && Guarded(s) && Holder(s.calls[c]).Some? && s.calls[c].id !in s.abandoned
    requires s.calls[c].Snapshotting? || s.calls[c].TearingDown? ==> snapshot
    ensures Guarded(Left(s, c, snapshot, unlinked, if IsCreating(s.calls[c]) then None else s.lock))
  {
    LeftStaysAbandoned(s, c, snapshot, unlinked, if IsCreating(s.calls[c]) then None else s.lock);
  }

  lemma RaisedGuards(s: State, c: nat)
    requires c < |s.calls| && Guarded(s) && Holder(s.calls[c]).None?
    ensures Guarded(Now(s, c, Raised))
  {
  }

  lemma AbandonGuards(s: State, c: nat, unlinked: set<File>)
    requires Inv(s) && c < |s.calls| && AbandonStep(s, c, unlinked).Some?
    ensures Guarded(AbandonStep(s, c, unlinked).value)
  {
    var p := s.calls[c];
    if Holder(p).Some? {
      assert Accounted(s, p.id);
      HeldByCallOnly(s, c);
      LeftGuards(s, c, p.Snapshotting? || p.TearingDown?, unlinked);
    } else {
      RaisedGuards(s, c);
    }
  }

  lemma AbandonCounts(s: State, c: nat, unlinked: set<File>)
    requires c < |s.calls| && AbandonStep(s, c, unlinked).Some? && Counted(s)
    ensures Counted(AbandonStep(s, c, unlinked).value)
  {
  }

  lemma LateGuards(s: State, a: Action)
    requires LateStep(s, a).Some? && Guarded(s) && Counted(s)
    ensures Guarded(LateStep(s, a).value) && Counted(LateStep(s, a).value)
  {
  }

  lemma BackendGuards(s: State, a: Action)
    requires BackendStep(s, a).Some? && Guarded(s) && Counted(s)
    requires a.AbandonReap? ==> a.id !in s.abandoned
    ensures Guarded(BackendStep(s, a).value) && Counted(BackendStep(s, a).value)
  {
    if id :| id in s.abandoned && s.abandoned[id] {
      assert BackendStep(s, a).value.abandoned[id];
    }
  }

  lemma StepGuards(s: State, a: Action)
    requires Inv(s) && Step(s, a).Some?
    ensures Guarded(Step(s, a).value) && Counted(Step(s, a).value)
  {
    match a
    case Boot =>
    case Appear(c, _) => FileGuards(s, a, c);
    case AppearGolden(c, _) => FileGuards(s, a, c);
    case Abandon(c, unlinked) =>
      AbandonGuards(s, c, unlinked);
      AbandonCounts(s, c, unlinked);
    case AbandonReap(id, _) =>
      assert Accounted(s, id);
      BackendGuards(s, a);
    case AppearLate(_, _) => LateGuards(s, a);
    case Terminate(_) => BackendGuards(s, a);
    case Reap(_) => BackendGuards(s, a);
    case Close => BackendGuards(s, a);
    case Begin(c) => StartGuards(s, a, c);
    case Lock(c) => StartGuards(s, a, c);
    case Install(c) => StartGuards(s, a, c);
    case NotReady(c) => FailGuards(s, a, c);
    case Reaped(c) => FailGuards(s, a, c);
    case Ready(c) => ReadyGuards(s, a, c);
    case Kill(c) => KillGuards(s, c);
  }

  lemma StepKeepsInv(s: State, a: Action)
    requires Inv(s) && Step(s, a).Some?
    ensures Inv(Step(s, a).value)
  {
    var t := Step(s, a).value;
    forall id ensures Accounted(t, id) {
      assert Accounted(s, id);
      StepAccounts(s, a, id);
    }
    StepKeepsRootfs(s, a);
    StepGuards(s, a);
  }

  lemma {:induction false} RunKeepsInv(s: State, acts: seq<Action>)
    requires Inv(s) && RunFrom(s, acts).Some?
    ensures Inv(RunFrom(s, acts).value)
    decreases |acts|
  {
    if acts != [] {
      StepKeepsInv(s, acts[0]);
      RunKeepsInv(Step(s, acts[0]).value, acts[1..]);
    }
  }

  lemma ReachableInv(snapshots: bool, acts: seq<Action>)
    requires RunFrom(Init(snapshots), acts).Some?
    ensures Inv(RunFrom(Init(snapshots), acts).value)
  {
    InitInv(snapshots);
    RunKeepsInv(Init(snapshots), acts);
  }

  // ---- Main results ---------------------------------------------------------------------------------

  /** However many first boots race, one creation succeeds per life of the snapshot: a new
      one needs a `close` in between, and at most one call is creating at a time. */
  lemma OneCreation(snapshots: bool, acts: seq<Action>)
    requires RunFrom(Init(snapshots), acts).Some?
    ensures var s := RunFrom(Init(snapshots), acts).value;
            && s.creations <= s.closes + (if s.golden then 1 else 0)
            && (s.closes == 0 ==> s.creations == if s.golden then 1 else 0)
            && (forall c, d :: 0 <= c < d < |s.calls| ==> !(IsCreating(s.calls[c]) && IsCreating(s.calls[d])))
            && (s.golden ==> forall c :: 0 <= c < |s.calls| ==> !IsCreating(s.calls[c]))
  {
    ReachableInv(snapshots, acts);
  }

  lemma RestoreStarts(s: State, a: Action, c: nat)
    requires Step(s, a).Some? && c < |Step(s, a).value.calls|
    requires IsRestoring(Step(s, a).value.calls[c]) && !(c < |s.calls| && IsRestoring(s.calls[c]))
    ensures Step(s, a).value.golden
  {
  }

  /** Whatever has happened before, a restore starts only while a golden snapshot is installed
      and its rootfs copy is on disk. */
  lemma RestoreFollowsCreation(snapshots: bool, acts: seq<Action>, s: State, a: Action, t: State)
    requires RunFrom(Init(snapshots), acts) == Some(s) && Step(s, a) == Some(t)
    ensures forall c: nat :: c < |t.calls| && IsRestoring(t.calls[c]) && !(c < |s.calls| && IsRestoring(s.calls[c])) ==>
              t.golden && t.creations > 0 && t.goldenRootfs.Some? && Of(t.goldenRootfs.value, Rootfs) in t.files
  {
    ReachableInv(snapshots, acts);
    StepKeepsInv(s, a);
    if c: nat :| c < |t.calls| && IsRestoring(t.calls[c]) && !(c < |s.calls| && IsRestoring(s.calls[c])) {
      RestoreStarts(s, a, c);
    }
  }

  lemma GoldenFilesStay(s: State, a: Action)
    requires Guarded(s) && Step(s, a).Some? && s.golden && !a.Close?
    ensures var t := Step(s, a).value;
            t.golden && t.goldenRootfs == s.goldenRootfs && t.creations == s.creations
    ensures GOLDEN_FILES !! Removed(s, a)
  {
  }

  /** Nothing but `close` unlinks a golden file or forgets the snapshot. */
  lemma GoldenSurvivesStep(s: State, a: Action)
    requires Inv(s) && Step(s, a).Some? && s.golden && !a.Close?
    ensures var t := Step(s, a).value;
            && t.golden && t.goldenRootfs == s.goldenRootfs && t.creations == s.creations
            && s.files * GoldenOf(s) <= t.files
  {
    GoldenFilesStay(s, a);
    OnlyRemoves(s, a);
    OthersKeep(s, a, s.goldenRootfs.value);
  }

  function GoldenOf(s: State): set<File> {
    if s.goldenRootfs.Some? then GOLDEN_FILES + {Of(s.goldenRootfs.value, Rootfs)} else {}
  }

  lemma {:induction false} GoldenSurvives(s: State, acts: seq<Action>)
    requires Inv(s) && s.golden && RunFrom(s, acts).Some? && Close !in acts
    ensures var t := RunFrom(s, acts).value;
            && t.golden && t.goldenRootfs == s.goldenRootfs && t.creations == s.creations
            && s.files * GoldenOf(s) <= t.files
    decreases |acts|
  {
    if acts != [] {
      GoldenSurvivesStep(s, acts[0]);
      StepKeepsInv(s, acts[0]);
      GoldenSurvives(Step(s, acts[0]).value, acts[1..]);
    }
  }

  lemma StaysLive(s: State, a: Action, id: Id)
    requires Accounted(s, id) && Step(s, a).Some? && id in s.instances && a != Terminate(id)
    ensures id in Step(s, a).value.instances && Step(s, a).value.instances[id] == s.instances[id]
  {
    if a.Ready? && HolderAt(s, a.c) == Some(id) {
      HeldByCallOnly(s, a.c);
    }
  }

  /** A live instance keeps its files and its place until its own `terminate`. */
  lemma LiveInstanceUndisturbed(s: State, a: Action, id: Id)
    requires Inv(s) && Step(s, a).Some? && id in s.instances && a != Terminate(id)
    ensures var t := Step(s, a).value;
            && id in t.instances && t.instances[id] == s.instances[id]
            && forall k :: Of(id, k) in s.files ==> Of(id, k) in t.files
  {
    assert Accounted(s, id);
    StaysLive(s, a, id);
    OthersKeep(s, a, id);
  }

  ghost predicate Quiet(s: State) {
    (forall c :: 0 <= c < |s.calls| ==> Ended(s.calls[c])) && s.instances == map[] && s.reaping == map[]
  }

  /** Some file of an abandoned instance is on disk. */
  ghost predicate Stranded(s: State) { exists id :: id in s.abandoned && HasFiles(s.files, id) }

  function AbandonedFiles(s: State): set<File> { set f | f in s.files && f.Of? && f.id in s.abandoned }

  /** Once every call has ended and every handle is terminated, only golden files and those of
      abandoned instances are left, and nothing at all if and only if no golden snapshot is
      installed and no abandoned instance has left a file. */
  lemma OnlyGoldenLeft(s: State)
    requires Inv(s) && Quiet(s)
    ensures s.files <= GoldenOf(s) + AbandonedFiles(s) + if SnapshotAbandoned(s) then GOLDEN_FILES else {}
    ensures s.files == {} <==> !s.golden && !Stranded(s)
  {
    forall f | f in s.files
      ensures f in GoldenOf(s) + AbandonedFiles(s) + if SnapshotAbandoned(s) then GOLDEN_FILES else {}
    {
      if f.Of? {
        assert Accounted(s, f.id);
        TallyNone(s.calls, Holds(f.id));
      }
    }
    if id :| id in s.abandoned && s.abandoned[id] {
      assert Of(id, Rootfs) in s.files;
      assert HasFiles(s.files, id);
    }
    if !s.golden && s.files != {} {
      var f :| f in s.files;
      assert f.Of? ==> f.id in s.abandoned && HasFiles(s.files, f.id);
    }
  }

  /** The step abandons an instance that has a file on disk and does not unlink all of them. A
      cold boot has its rootfs copy there from the start. */
  ghost predicate LeavesFiles(s: State, a: Action) {
    match a
    case Abandon(c, unlinked) =>
      c < |s.calls| && Holder(s.calls[c]).Some? && HasFiles(s.files - unlinked, s.calls[c].id)
    case AbandonReap(id, unlinked) => HasFiles(s.files - unlinked, id)
    case _ => false
  }

  lemma StrandedStays(s: State, a: Action)
    requires Inv(s) && Step(s, a).Some? && Stranded(s)
    ensures Stranded(Step(s, a).value)
  {
    var t := Step(s, a).value;
    var id :| id in s.abandoned && HasFiles(s.files, id);
    var f :| f in s.files && f.Of? && f.id == id;
    assert Accounted(s, id);
    AbandonedGrows(s, a, id);
    OthersKeep(s, a, id);
    assert f == Of(id, f.kind) && f in t.files;
    assert HasFiles(t.files, id);
  }

  /** An instance that was abandoned before the step gets a file only if it had one. */
  lemma OldOnesStay(s: State, a: Action, id: Id)
    requires Inv(s) && Step(s, a).Some? && id in s.abandoned && HasFiles(Step(s, a).value.files, id)
    ensures HasFiles(s.files, id)
  {
    var f :| f in Step(s, a).value.files && f.Of? && f.id == id;
    assert Accounted(s, id);
    if a.Appear? {
      assert Accounted(s, s.calls[a.c].id);
      HeldByCallOnly(s, a.c);
    }
    assert a.AppearLate? || f in s.files;
  }

  lemma LeavingStrands(s: State, a: Action)
    requires Step(s, a).Some? && LeavesFiles(s, a)
    ensures Stranded(Step(s, a).value)
  {
    var t := Step(s, a).value;
    var id := if a.Abandon? then s.calls[a.c].id else a.id;
    assert id in t.abandoned && HasFiles(t.files, id);
  }

  lemma NewOnesWereLeft(s: State, a: Action, id: Id)
    requires Step(s, a).Some? && id !in s.abandoned && id in Step(s, a).value.abandoned
    requires HasFiles(Step(s, a).value.files, id)
    ensures LeavesFiles(s, a)
  {
  }

  lemma StrandedStep(s: State, a: Action)
    requires Inv(s) && Step(s, a).Some?
    ensures Stranded(Step(s, a).value) <==> Stranded(s) || LeavesFiles(s, a)
  {
    if Stranded(s) {
      StrandedStays(s, a);
    } else if LeavesFiles(s, a) {
      LeavingStrands(s, a);
    } else if id :| id in Step(s, a).value.abandoned && HasFiles(Step(s, a).value.files, id) {
      if id in s.abandoned {
        OldOnesStay(s, a, id);
      } else {
        NewOnesWereLeft(s, a, id);
      }
    }
  }

  /** Some step of the run leaves files behind. */
  ghost predicate SomeLeavesFiles(s: State, acts: seq<Action>)
    decreases |acts|
  {
    acts != [] &&
    (LeavesFiles(s, acts[0]) || (Step(s, acts[0]).Some? && SomeLeavesFiles(Step(s, acts[0]).value, acts[1..])))
  }

  lemma {:induction false} RunStrands(s: State, acts: seq<Action>)
    requires Inv(s) && RunFrom(s, acts).Some?
    ensures Stranded(RunFrom(s, acts).value) <==> Stranded(s) || SomeLeavesFiles(s, acts)
    decreases |acts|
  {
    if acts != [] {
      StrandedStep(s, acts[0]);
      StepKeepsInv(s, acts[0]);
      RunStrands(Step(s, acts[0]).value, acts[1..]);
    }
  }

  /** So a `close` that runs after everything else has ended leaves no file behind if and only if
      no exception did; with the snapshot mode off the same holds even before it. */
  lemma CloseLeavesNothing(snapshots: bool, acts: seq<Action>)
    requires RunFrom(Init(snapshots), acts).Some? && Quiet(RunFrom(Init(snapshots), acts).value)
    ensures var s := RunFrom(Init(snapshots), acts).value;
            && (Step(s, Close).value.files == {} <==> !SomeLeavesFiles(Init(snapshots), acts))
            && (!snapshots ==> (s.files == {} <==> !SomeLeavesFiles(Init(snapshots), acts)))
  {
    var s := RunFrom(Init(snapshots), acts).value;
    ReachableInv(snapshots, acts);
    StepKeepsInv(s, Close);
    OnlyGoldenLeft(s);
    OnlyGoldenLeft(Step(s, Close).value);
    SnapshotsFixed(Init(snapshots), acts);
    InitInv(snapshots);
    RunStrands(Init(snapshots), acts);
    StrandedStep(s, Close);
  }

  /** A creation was installed that no `close` followed. */
  ghost predicate InstalledLast(acts: seq<Action>) {
    exists i :: 0 <= i < |acts| && acts[i].Install? && Close !in acts[i..]
  }

  lemma InstalledLastLater(acts: seq<Action>)
    requires acts != []
    ensures InstalledLast(acts) <==> InstalledLast(acts[1..]) || (acts[0].Install? && Close !in acts[1..])
    ensures Close in acts <==> acts[0] == Close || Close in acts[1..]
  {
    var rest := acts[1..];
    assert acts == [acts[0]] + rest && acts[0..] == acts;
    if InstalledLast(rest) {
      var i :| 0 <= i < |rest| && rest[i].Install? && Close !in rest[i..];
      assert acts[i + 1].Install? && acts[i + 1..] == rest[i..];
    }
    if i :| 0 < i < |acts| && acts[i].Install? && Close !in acts[i..] {
      assert rest[i - 1].Install? && rest[i - 1..] == acts[i..];
    }
  }

  lemma {:induction false} GoldenIsInstalledLast(s: State, acts: seq<Action>)
    requires RunFrom(s, acts).Some?
    ensures RunFrom(s, acts).value.golden <==> InstalledLast(acts) || (s.golden && Close !in acts)
    decreases |acts|
  {
    if acts != [] {
      InstalledLastLater(acts);
      GoldenIsInstalledLast(Step(s, acts[0]).value, acts[1..]);
    }
  }

  /** Whatever overlapped: once everything has ended, files are left if and only if some creation
      was installed after the last `close` had run, or an exception left an instance behind with
      a file on disk. */
  lemma FilesLeftExactly(snapshots: bool, acts: seq<Action>)
    requires RunFrom(Init(snapshots), acts).Some? && Quiet(RunFrom(Init(snapshots), acts).value)
    ensures RunFrom(Init(snapshots), acts).value.files != {}
            <==> InstalledLast(acts) || SomeLeavesFiles(Init(snapshots), acts)
  {
    ReachableInv(snapshots, acts);
    OnlyGoldenLeft(RunFrom(Init(snapshots), acts).value);
    GoldenIsInstalledLast(Init(snapshots), acts);
    InitInv(snapshots);
    RunStrands(Init(snapshots), acts);
  }

  /** With the snapshot mode off, a boot whose process has exited by itself when it is to be killed
      leaves its rootfs copy for good: no later run removes it. */
  lemma AbandonedBootLeaks() returns (acts: seq<Action>, s: State)
    ensures RunFrom(Init(false), acts) == Some(s) && Quiet(s) && s.files == {Of(0, Rootfs)}
    ensures forall later :: RunFrom(s, later).Some? ==> RunFrom(s, later).value.files != {}
  {
    var s0 := Init(false);
    var s1 := Step(s0, Boot).value;
    var s2 := Step(s1, Begin(0)).value;
    s := Step(s2, Abandon(0, {})).value;
    Before(s2, Abandon(0, {}), []);
    Before(s1, Begin(0), [Abandon(0, {})] + []);
    acts := [Boot] + ([Begin(0)] + ([Abandon(0, {})] + []));
    Before(s0, Boot, acts[1..]);
    assert Of(0, Rootfs) in s.files;
    assert HasFiles(s.files, 0);
    ReachableInv(false, acts);
    assert Stranded(s);
    forall later | RunFrom(s, later).Some? ensures RunFrom(s, later).value.files != {} {
      RunStrands(s, later);
    }
  }

  lemma ModeFixed(s: State, a: Action)
    requires Step(s, a).Some?
    ensures Step(s, a).value.snapshots == s.snapshots
  {
  }

  lemma {:induction false} SnapshotsFixed(s: State, acts: seq<Action>)
    requires RunFrom(s, acts).Some?
    ensures RunFrom(s, acts).value.snapshots == s.snapshots
    decreases |acts|
  {
    if acts != [] {
      ModeFixed(s, acts[0]);
      SnapshotsFixed(Step(s, acts[0]).value, acts[1..]);
    }
  }

  lemma Before(s: State, a: Action, rest: seq<Action>)
    requires Step(s, a).Some?
    ensures RunFrom(s, [a] + rest) == RunFrom(Step(s, a).value, rest)
  {
    assert ([a] + rest)[1..] == rest;
  }

  /** A first boot that has begun to create the snapshot, and a `close` beside it. */
  function ClosedWhileCreating(): State {
    State(true, [Snapshotting(0)], Some(0), map[], map[], map[], false, None, {Of(0, Rootfs)}, 1, 0, 1)
  }

  lemma ReachClosedWhileCreating(rest: seq<Action>)
    ensures RunFrom(Init(true), [Boot] + ([Begin(0)] + ([Lock(0)] + ([Ready(0)] + ([Close] + rest)))))
            == RunFrom(ClosedWhileCreating(), rest)
  {
    var s0 := Init(true);
    var s1 := Step(s0, Boot).value;
    var s2 := Step(s1, Begin(0)).value;
    var s3 := Step(s2, Lock(0)).value;
    var s4 := Step(s3, Ready(0)).value;
    assert Step(s4, Close).value == ClosedWhileCreating();
    Before(s4, Close, rest);
    Before(s3, Ready(0), [Close] + rest);
    Before(s2, Lock(0), [Ready(0)] + ([Close] + rest));
    Before(s1, Begin(0), [Lock(0)] + ([Ready(0)] + ([Close] + rest)));
    Before(s0, Boot, [Begin(0)] + ([Lock(0)] + ([Ready(0)] + ([Close] + rest))));
  }

  /** From there the boot goes on undisturbed. */
  lemma FinishCreating(rest: seq<Action>) returns (acts: seq<Action>, t: State)
    ensures RunFrom(ClosedWhileCreating(), acts) == RunFrom(t, rest)
    ensures t == State(true, [Restoring(1)], None, map[], map[], map[], true, Some(0),
                       {GoldenMem, Of(0, Rootfs)}, 2, 1, 1)
  {
    var s0 := ClosedWhileCreating();
    var s1 := Step(s0, AppearGolden(0, GoldenMem)).value;
    var s2 := Step(s1, Kill(0)).value;
    t := Step(s2, Install(0)).value;
    assert t.files == {GoldenMem, Of(0, Rootfs)};
    Before(s2, Install(0), rest);
    acts := [Install(0)] + rest;
    Before(s1, Kill(0), acts);
    acts := [Kill(0)] + acts;
    Before(s0, AppearGolden(0, GoldenMem), acts);
    acts := [AppearGolden(0, GoldenMem)] + acts;
  }

  /** Its instance starts, and is terminated. */
  lemma FinishRestoring(s: State) returns (acts: seq<Action>, t: State)
    requires s.calls == [Restoring(1)] && s.instances == map[] && s.reaping == map[]
    requires s.files == {GoldenMem, Of(0, Rootfs)}
    ensures RunFrom(s, acts) == Some(t) && Quiet(t) && t.files == {GoldenMem, Of(0, Rootfs)}
  {
    var s1 := Step(s, Ready(0)).value;
    var s2 := Step(s1, Terminate(1)).value;
    t := Step(s2, Reap(1)).value;
    assert t.files == s.files && t.instances == map[] && t.reaping == map[];
    Before(s2, Reap(1), []);
    acts := [Reap(1)] + [];
    Before(s1, Terminate(1), acts);
    acts := [Terminate(1)] + acts;
    Before(s, Ready(0), acts);
    acts := [Ready(0)] + acts;
  }

  /** `close` takes no lock. One that runs while the first boot is still creating the
      snapshot finds nothing to release, and what that boot installs afterwards outlives the
      termination of every handle. */
  lemma CloseDuringCreationLeaks() returns (acts: seq<Action>)
    ensures Close in acts && RunFrom(Init(true), acts).Some? && Quiet(RunFrom(Init(true), acts).value)
    ensures RunFrom(Init(true), acts).value.files == {GoldenMem, Of(0, Rootfs)}
  {
    var installed := State(
      true, [Restoring(1)], None, map[], map[], map[], true, Some(0), {GoldenMem, Of(0, Rootfs)}, 2, 1, 1);
    var last, t := FinishRestoring(installed);
    var rest, _ := FinishCreating(last);
    ReachClosedWhileCreating(rest);
    acts := [Boot] + ([Begin(0)] + ([Lock(0)] + ([Ready(0)] + ([Close] + rest))));
    assert acts[4] == Close;
  }

  // ---- The same segments, updating the backend in place ---------------------------------------------

  class FirecrackerSandbox {
    var files: set<File>              // the socket directory
    var instances: map<Id, bool>
    var golden: bool
    var goldenRootfs: Option<Id>

    constructor ()
      ensures View() == Init(true)
    {
      files, instances, golden, goldenRootfs := {}, map[], false, None;
    }

    /** The backend at rest: no call in progress. */
    ghost function View(): State
      reads this
    {
      State(true, [], None, instances, map[], map[], golden, goldenRootfs, files, 0, 0, 0)
    }

    /** `_cleanup_files`: unlink every path on the list, missing or not. */
    method CleanupFiles(id: Id, ownsRootfs: bool)
      modifies this`files
      ensures files == old(files) - InstanceFiles(id, ownsRootfs)
    {
      var paths := [Of(id, ApiSock), Of(id, ConsoleLog), Of(id, VsockUds), Of(id, VsockPort)];
      if ownsRootfs {
        paths := paths + [Of(id, Rootfs)];
      }
      for i := 0 to |paths|
        invariant files == old(files) - set j | 0 <= j < i :: paths[j]
      {
        files := files - {paths[i]};
      }
      ghost var unlinked := set j | 0 <= j < |paths| :: paths[j];
      forall k: Kind ensures Of(id, k) in unlinked <==> ownsRootfs || k != Rootfs {
        match k {
          case ApiSock => assert paths[0] in unlinked;
          case ConsoleLog => assert paths[1] in unlinked;
          case VsockUds => assert paths[2] in unlinked;
          case VsockPort => assert paths[3] in unlinked;
          case Rootfs => assert ownsRootfs ==> paths[4] in unlinked;
        }
      }
      assert unlinked == InstanceFiles(id, ownsRootfs);
    }

    /** The end of `_ensure_golden_snapshot`, once the throwaway instance has exited. */
    method InstallGolden(id: Id)
      modifies this
      ensures View() == old(View()).(golden := true, goldenRootfs := Some(id),
                                     files := old(files) - InstanceFiles(id, false))
      ensures Of(id, Rootfs) in old(files) ==> GoldenOf(View()) * old(files) <= files
    {
      CleanupFiles(id, false);
      goldenRootfs := Some(id);
      golden := true;
    }

    /** `terminate` with no other caller around. */
    method Terminate(id: Id)
      modifies this
      ensures Some(View()) ==
              RunFrom(old(View()), [Action.Terminate(id)] + if id in old(instances) then [Reap(id)] else [])
    {
      if id !in instances {
        return;
      }
      var ownsRootfs := instances[id];
      instances := instances - {id};
      CleanupFiles(id, ownsRootfs);
      ghost var before := old(View());
      ghost var popped := Step(before, Action.Terminate(id)).value;
      assert [Action.Terminate(id)] + [Reap(id)] == [Action.Terminate(id), Reap(id)];
      assert [Action.Terminate(id), Reap(id)][1..] == [Reap(id)];
      assert RunFrom(popped, [Reap(id)]) == Step(popped, Reap(id));
      assert popped.reaping - {id} == map[];
    }

    method Close()
      modifies this
      ensures View() == Closed(old(View())).(closes := 0)
    {
      if golden {
        files := files - {GoldenState};
        files := files - {GoldenMem};
        golden := false;
      }
      if goldenRootfs.Some? {
        files := files - {Of(goldenRootfs.value, Rootfs)};
        goldenRootfs := None;
      }
    }
  }
}
