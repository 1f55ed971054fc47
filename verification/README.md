# Fabrica: the sandbox pool, its backends, and the stores around it

A Dafny model of the parts of Fabrica where state is shared between calls that are suspended at
awaits, where a protocol has two ends, or where a fast form stands in for a simple one. The code
runs on one asyncio thread, so an interleaving is a sequence of the code segments between two
awaits. Code that updates fields in place is modelled by classes whose methods are proved equal to
functions on values; everything about runs and interleavings is proved about those functions.

| files | what they model |
|---|---|
| `SandboxPool`, `PoolMachine`, `PoolConservation`, `PoolTheorems`, `PoolBurst`, `ExecuteInSandbox` | the pool's methods in place, the pool as a step machine under any number of overlapping `execute_in_sandbox` calls, what every step keeps, the theorems about whole runs, and the runs that reach the limits |
| `Utf8`, `Framing`, `Trailer`, `ExecProtocol`, `ExecTranscript`, `ExecAnswers`, `VsockExecution` | running code in a sandbox that calls back into the host: text encoding and truncation, length-prefixed frames, the result trailer, host and guest as two machines compared with direct evaluation, and the vsock machine and its two loops down to frames that arrive in pieces |
| `GoldenSnapshot`, `BootCalls` | concurrent first boots, restores, terminations and closes of the Firecracker backend, with the files they create and unlink, and what each boot call comes to |
| `CircuitBreaker` | the breaker as a function of its log of questions and outcomes, and the client that uses it |
| `PromptStore`, `PromptManager`, `Decimal` | versioned prompts, their snapshot and restore, and the read cache in front of them |
| `MemoryStore`, `Retriever`, `PyDict`, `Ranking` | scoped memory with ranked search, the dual-write retriever, and insertion-ordered dictionaries and stable descending sorts |
| `Compactor`, `CompactionScore` | which messages are kept, how a summary is scored, and which summary is returned |
| `Ledgers`, `Wrappers` | counting entries of a table; `Option` |

Where the code and its documentation disagree the model follows the code:

- The breaker's `allow_request` speaks of the one real call HALF_OPEN allows. Everyone who asks
  before an outcome is recorded is let through (`HalfOpenAdmitsEveryone`); the rule that does hold
  is `AdmissionRule`, and one call per cooldown holds for callers in turn (`ProbesAreSpaced`).
- `check_grant` says it never raises. It does, leaving no outcome in the breaker, exactly when it
  is let through and either the request or the parsing raises something other than `HTTPError` and
  `ValueError` (deeply nested JSON raises `RecursionError`, a malformed base URL raises
  `InvalidURL`), or the `decision` is a list or an object, on which the set-membership test raises
  `TypeError` (`Client.CheckGrant`).
- `max_concurrent` does not bound `_concurrent_count`: warm hits do not look at it and a release
  ignores refills in flight (`CountExceedsMaxConcurrent`). It stays within it throughout a run if
  and only if no caller takes a warm instance while every slot is taken (`CountExceedsExactly`). The
  bound that holds on everything live is `LiveBound`.
- A cold boot that fails or times out, and a release whose `terminate` raises, keep their slot for
  good. Once every call has returned the count is the number of such failures, so every slot came
  back if and only if there was none (`SlotsComeBack`); enough of them wedge the pool
  (`FailedBootsWedge`, `WedgedForever`).
- `prewarm` notifies nobody. No wakeup is lost in a run if and only if no `prewarm` appends while a
  caller is parked (`NoWakeupIsLost`); start-up is one way to ensure it (`StartUpIsSafe`), and
  `LatePrewarmLosesAWakeup` is a run that does not.
- `FirecrackerSandbox.close` takes no lock. When it overlaps the creation of the golden snapshot,
  the files of that snapshot stay (`CloseDuringCreationLeaks`).
- A boot cleans up after a time-out, a broken stream or an unexpected first message only. Any other
  exception leaves its files for good, with the snapshot mode off too (`AbandonedBootLeaks`): the
  process has exited by itself, so that `process.kill()` raises `ProcessLookupError`; the launch, the
  connection or the parsing of the ready message raises; or the call is cancelled. Once everything
  has ended, files are left if and only if a creation was installed after the last close, or some
  exception left an instance behind with a file on disk (`FilesLeftExactly`).
- The request/reply host reads its trailer together with an unfinished stderr line of the code, so
  a run whose stderr does not end in a line break is reported as it was if and only if both still
  read as the trailer. It is a crash if and only if they are no trailer; an exception other than
  `JSONDecodeError` from the parser, on too many digits or too deep a nesting, comes out instead
  (`CompletedRuns`, `UnfinishedLine`).
- The two tiers' call counts differ by the calls whose params cannot be serialized: the guest shim
  counts them before it fails to send them (`TiersAgreeOnCompletion`).
- A delete that overlaps a put of the same name can leave a deleted template in the prompt cache
  (`OverlapLeavesStaleEntry`), and so can a put or delete whose persisting raises after the store
  has changed: a put exactly when the latest version was cached (`FailedPutLeaves`), a delete
  exactly when it deletes a version that was (`FailedDeleteLeaves`). Once every call has ended, the
  cache agrees with the store if and only if each put that was the last to resume for its name and
  version was also the last to begin, and each entry that a failed call should have dropped is
  still what the calls that have begun make the answer (`LeavingsDecide`).
- A callback that raises `TimeoutError` or a connection error is reported differently by the two
  tiers (`TiersAgreeOnFailure`).

## Model

| member | source | states |
|---|---|---|
| SandboxPool.Admit | src/fabrica/sandbox/pool.py:104-129 | one pass of the acquire loop: a hit pops the last warm instance, waiting happens exactly at the limit with nothing warm, and only waiting takes no slot |
| SandboxPool.Pool.Prewarm | src/fabrica/sandbox/pool.py:67-77 | fills up to `warm_size` with the booted handles in order; a boot that raises ends it where it stands |
| SandboxPool.Pool.TryAcquire | src/fabrica/sandbox/pool.py:104-132 | updates the pool in place as `Admit` says |
| SandboxPool.Pool.FinishRelease | src/fabrica/sandbox/pool.py:190-209 | gives exactly one slot back and starts a refill exactly when the warm pool is short |
| SandboxPool.Pool.PlaceRefill | src/fabrica/sandbox/pool.py:217-224 | updates the pool in place as `Place` says |
| SandboxPool.Pool.Close | src/fabrica/sandbox/pool.py:245-254 | terminates the warm instances in order and closes the backend last; a terminate that raises leaves the rest and the backend alone |
| PoolConservation.StepConserves | src/fabrica/sandbox/pool.py:67-254 | every step keeps each booted id in exactly one place and every other id in none |
| PoolConservation.StepCounts | src/fabrica/sandbox/pool.py:105-193 | every step keeps `_concurrent_count` equal to the number of calls that occupy a slot |
| PoolConservation.StepLocks | src/fabrica/sandbox/pool.py:103-132 | the lock is held across an await exactly by the one booting caller or the one refill terminating its surplus; the warm pool never exceeds `warm_size` |
| PoolConservation.StepKeepsInv | src/fabrica/sandbox/pool.py:67-254 | all of the above and the life stage of every id are kept by every step |
| PoolTheorems.HandleConservation | src/fabrica/sandbox/pool.py:67-224 | in every reachable state the ids ever booted are the disjoint union of warm, with a caller, unplaced, being terminated, terminated, stranded by a terminate or a refill's boot that raised, and lost to a cold boot or a boot of `prewarm` that raised |
| PoolTheorems.HandedOutOnce | src/fabrica/sandbox/pool.py:104-129 | over any run no id is handed out twice or after its termination was requested, and its termination is requested at most once |
| PoolTheorems.SlotAccounting | src/fabrica/sandbox/pool.py:105-124 | the count is the calls that hold a handle, boot one, or are mid-release, plus the calls that ended without giving their slot back; at most one call boots |
| PoolTheorems.NoWakeupIsLost | src/fabrica/sandbox/pool.py:67-132 | for every run: no state has a parked un-notified caller beside a warm instance or a free slot, if and only if no `prewarm` appends while a caller is parked |
| PoolTheorems.StepLosesWakeup | src/fabrica/sandbox/pool.py:76-193 | the one step that loses a wakeup is a `prewarm` append while a caller is parked |
| PoolTheorems.StartUpIsSafe | src/fabrica/sandbox/pool.py:67-77 | prewarming before anything else never appends while a caller is parked |
| PoolTheorems.CountExceedsExactly | src/fabrica/sandbox/pool.py:105-112 | the count stays within `max_concurrent` throughout a run if and only if no caller takes a warm instance while every slot is taken |
| PoolTheorems.StepStartsRefill | src/fabrica/sandbox/pool.py:190-209 | a step starts a refill if and only if it is a release that finds the warm pool short, and then exactly one |
| PoolTheorems.RefillsStarted | src/fabrica/sandbox/pool.py:192-195 | over any run as many refills were started as releases found the warm pool short |
| PoolTheorems.StepAddsWarm | src/fabrica/sandbox/pool.py:217-224 | an instance becomes warm exactly by a `prewarm` that boots it or a refill that finds room; exactly a refill that finds none terminates its instance |
| PoolTheorems.LiveBound | src/fabrica/sandbox/pool.py:105-129 | with prewarming at start only and every cold start admitted with at most k refills in flight, slots plus warm plus refills in flight stay within max(warm_size, max_concurrent + k) |
| PoolTheorems.WedgedForever | src/fabrica/sandbox/pool.py:113-124 | once every slot is kept and nothing is warm or on its way, no later call is ever handed a handle |
| PoolTheorems.SlotsComeBack | src/fabrica/managers/execute_in_sandbox.py:81-100 | once every call has returned the count is the number of cold boots and releases that failed; it is zero if and only if none did |
| PoolTheorems.CloseTerminatesAll | src/fabrica/sandbox/pool.py:226-254 | a close after the last return closes the backend last with nothing warm left, and leaves every id ever booted terminated exactly once if and only if no instance was lost to a boot, those of `prewarm` included, or to a terminate that raised |
| PoolTheorems.NotAllowedTakesNoPoolStep | src/fabrica/managers/execute_in_sandbox.py:73-84 | a call that was denied, needs approval, or whose `check_grant` raised took no pool step at any time in the run |
| PoolBurst.CountExceedsMaxConcurrent | src/fabrica/sandbox/pool.py:105-112 | with both sizes at least one, for every n some run without late prewarming reaches a count of max_concurrent + n |
| PoolBurst.LatePrewarmLosesAWakeup | src/fabrica/sandbox/pool.py:67-77 | a concrete run in which a late prewarm leaves a warm instance beside a parked caller with the lock free |
| PoolBurst.FailedBootsWedge | src/fabrica/sandbox/pool.py:113-124 | for every `max_concurrent` of at least one, failing cold boots alone reach a state where every call has returned, every slot is taken, and no later run hands out a handle |
| ExecuteInSandbox.Execute | src/fabrica/managers/execute_in_sandbox.py:73-104 | one caller's code does what the pool machine does with that call alone, refills and terminated handles included: not allowed or no slot leaves pool and backend as they were; otherwise the slot comes back exactly when the handle was terminated, whether or not the run raised |
| ExecuteInSandbox.LoneCall | src/fabrica/managers/execute_in_sandbox.py:73-104 | from any state with the lock free the machine runs the call to its end, with the counters, the outcome, the terminated handle and the refill of each case |
| Utf8.DecodeEncode | src/fabrica/sandbox/firecracker_backend.py:983-985 | decoding with replacement undoes UTF-8 encoding (section 3 of RFC 3629) |
| Utf8.EncodingKeepsOrder | src/fabrica/sandbox/firecracker_backend.py:983-985 | encoded characters compare, as byte strings, as the characters do (section 1 of RFC 3629) |
| Utf8.FittingIsLongest | src/fabrica/sandbox/firecracker_backend.py:983-985 | `Fitting` is the length of the longest prefix of whole characters within the limit |
| Utf8.DecodePrefix | src/fabrica/sandbox/firecracker_backend.py:985 | any byte prefix of an encoded text decodes to the characters that fit whole, then one U+FFFD if one was cut |
| Utf8.TruncationIsFaithful | src/fabrica/sandbox/_shim_runner.py:190-191 | both tiers capture the same text: unchanged within the limit, else its longest fitting prefix and at most one U+FFFD, re-encoding to at most limit + 2 bytes, with the flag set exactly when it was too long |
| Framing.MessagesOfFrames | src/fabrica/sandbox/_firecracker_guest_shim.py:55-65 | receiving undoes sending for every list of bodies shorter than 2^32 bytes |
| Framing.PackKeepsOrder | src/fabrica/sandbox/_firecracker_guest_shim.py:55-65 | headers compare, as byte strings, as the lengths do: big-endian |
| Framing.WholeIsMaximal | src/fabrica/sandbox/_firecracker_guest_shim.py:60-77 | `Whole` counts exactly the frames that end within the first n bytes |
| Framing.CutStream | src/fabrica/sandbox/_firecracker_guest_shim.py:68-77 | a stream cut anywhere yields exactly its whole messages, never a wrong one |
| Framing.Socket.RecvExact | src/fabrica/sandbox/_firecracker_guest_shim.py:68-77 | returns the next n bytes however they are chunked, and raises exactly when the stream is shorter |
| Framing.Socket.Receive | src/fabrica/sandbox/firecracker_backend.py:144-149 | returns the first frame's body and leaves the rest, or raises on a stream that ends first |
| Framing.Socket.ReceiveAll | src/fabrica/sandbox/_firecracker_guest_shim.py:60-77 | repeated receive terminates with all whole messages in order |
| Framing.ReceiveEverySplit | src/fabrica/sandbox/_firecracker_guest_shim.py:55-77 | for every list of bodies and every split of the frames into non-empty chunks, receiving returns the bodies |
| Framing.ConnectAndWaitForCode | src/fabrica/sandbox/_firecracker_guest_shim.py:88-124 | retries exactly the attempts that raise `OSError`, ends with the first other result, and gives up exactly after 200 of them |
| Trailer.LinesExtend | src/fabrica/sandbox/_shim_runner.py:209 | text without a line break only lengthens the last line |
| Trailer.ParserSees | src/fabrica/sandbox/_shim_runner.py:204-226 | whatever was on stderr before, the parser's outcome, an uncaught exception included, is that of the trailer's line with the unfinished line in front of it |
| Trailer.ParserReadsLastLine | src/fabrica/sandbox/_shim_runner.py:204-226 | the parser's outcome is that of the last line that is not blank, given by its position in the text, and no trailer when every line is blank |
| Trailer.TailEmpty | src/fabrica/sandbox/_shim_runner.py:209 | there is no unfinished line exactly when stderr is empty or ends in a line break |
| ExecProtocol.OneCanMove | src/fabrica/sandbox/firecracker_backend.py:927-968 | until the host has its answer exactly one party can move, and none afterwards |
| ExecProtocol.RunStaysOnTrack | src/fabrica/sandbox/_firecracker_guest_shim.py:127-167 | every schedule keeps at most one message in flight, the host's count the calls it served and the guest's the calls made, and direct evaluation from here leading to the same verdict |
| ExecProtocol.RemoteIsDirect | src/fabrica/sandbox/firecracker_backend.py:927-980 | for every code and stateful callback on which direct evaluation ends, every schedule of either protocol is bounded, never deadlocks, and ends with direct evaluation's answer and callback state |
| ExecProtocol.DirectCounts | src/fabrica/sandbox/_firecracker_guest_shim.py:133-138 | the calls made are those that reached the callback and those refused before they were sent |
| ExecTranscript.DirectIsTheRecord | src/fabrica/sandbox/_firecracker_guest_shim.py:127-167 | direct evaluation gives a verdict if and only if some record of calls and replies that code and callback agree on ends in it; output, counts and callback state are read off that record |
| ExecAnswers.CompletedRuns | src/fabrica/sandbox/_guest_shim.py:36-66 | a run that returns or raises is reported as direct evaluation says, output cut to the limit; for request/reply when stderr has no unfinished line |
| ExecAnswers.UnfinishedLine | src/fabrica/sandbox/_shim_runner.py:183-226 | with an unfinished line, the run counts as a crash exactly when line and trailer are no trailer together, raises exactly when the parser raises what is not caught, and is reported as it was exactly when they still read as the trailer |
| ExecAnswers.DeadRuns | src/fabrica/sandbox/_shim_runner.py:183-226 | code that ends without reporting: over vsock always a crash; otherwise a crash when stderr is blank, and else exactly when its last line that is not blank is no trailer |
| ExecAnswers.FailedCallbacks | src/fabrica/sandbox/firecracker_backend.py:931-977 | which failures of a callback become a tool-call timeout, a timeout, a crash, or come out as they are |
| ExecAnswers.TiersAgreeOnCompletion | src/fabrica/sandbox/_guest_shim.py:39-66 | a completed run without an unfinished line is reported alike by both transports if and only if none of its calls was refused before it was sent |
| ExecAnswers.TiersAgreeOnFailure | src/fabrica/sandbox/_shim_runner.py:88-119 | the tiers report a failing callback alike exactly when it raised another error, or a timeout under a per-call limit |
| VsockExecution.BytesAreDirect | src/fabrica/sandbox/firecracker_backend.py:138-149 | however the frames of a conversation are cut and delayed, the parties make a bounded number of moves, something can move or arrive until the host has its answer, and then answer and callback state are those of direct evaluation |
| VsockExecution.MoveRefines | src/fabrica/sandbox/_firecracker_guest_shim.py:55-77 | every move on bytes is the same move on messages, or a delivery that the messages do not see |
| VsockExecution.ServeOne | src/fabrica/sandbox/firecracker_backend.py:931-968 | the host's reaction to one message: run the callback under its limit and reply, report with the count so far, or fail |
| VsockExecution.Execute | src/fabrica/sandbox/firecracker_backend.py:927-980 | the host loop over the socket counts each call it serves, and its answer, replies and final callback state are what its reactions to the frames it receives, in order, say |
| VsockExecution.GuestMain | src/fabrica/sandbox/_firecracker_guest_shim.py:127-167 | the guest loop sends what the code says when given the replies it receives, a reply that cannot be read raising into the code, up to the loss of the connection |
| VsockExecution.ServeIsDirect | src/fabrica/sandbox/firecracker_backend.py:929-968 | a host that hears what the guest says gives exactly the replies the guest was given, and ends with direct evaluation's answer and callback state |
| VsockExecution.Converse | src/fabrica/sandbox/firecracker_backend.py:912-980 | both loops, each reading the other's frames in arbitrary pieces, send what the other one reads and end with direct evaluation's answer and callback state |
| GoldenSnapshot.StepKeepsInv | src/fabrica/sandbox/firecracker_backend.py:774-910 | every step, abandoned boots and terminates included, keeps at most one owner per instance, no file without an owner, the rootfs copies still needed on disk, and the lock with the one creating call |
| GoldenSnapshot.OneCreation | src/fabrica/sandbox/firecracker_backend.py:774-821 | for any number of racing boots at most one call creates at a time, none while a snapshot is installed, and successful creations never exceed closes by more than one |
| BootCalls.CallReturns | src/fabrica/sandbox/firecracker_backend.py:546-587 | a step makes a boot call return handle h if and only if it is the ready message of an instance h that this call cold booted or restored; h is live then, owning a rootfs copy exactly when cold booted |
| BootCalls.CallRaises | src/fabrica/sandbox/firecracker_backend.py:546-574 | a boot call raises exactly at an unexpected first message, at the exit of the process killed for its silence, or at an exception nothing handles |
| BootCalls.FailedBootLeavesNothing | src/fabrica/sandbox/firecracker_backend.py:546-574 | a boot that fails in a handled way raises, leaves no file of its instance, which is not live, and does not hold the lock |
| BootCalls.HandlesAreDistinct | src/fabrica/sandbox/firecracker_backend.py:576-587 | over any run no two boot calls return the same handle |
| BootCalls.SnapshotStartsFresh | src/fabrica/sandbox/firecracker_backend.py:781-791 | a snapshot is begun only with no older snapshot file on disk |
| BootCalls.StepChanges | src/fabrica/sandbox/firecracker_backend.py:774-905 | each step of a boot call takes that call, and no other, from one phase to the next as the table says |
| GoldenSnapshot.RestoreFollowsCreation | src/fabrica/sandbox/firecracker_backend.py:543-545 | a restore starts only while a snapshot is installed, its rootfs copy on disk |
| GoldenSnapshot.GoldenSurvives | src/fabrica/sandbox/firecracker_backend.py:152-170 | no run without a close unlinks a golden file, forgets the snapshot or creates another |
| GoldenSnapshot.LiveInstanceUndisturbed | src/fabrica/sandbox/firecracker_backend.py:1024-1043 | no failed boot, close or termination of another instance touches a live instance's files or its entry |
| GoldenSnapshot.OnlyGoldenLeft | src/fabrica/sandbox/firecracker_backend.py:152-170 | once every call has ended and every handle is terminated only golden files and those of abandoned instances are left, and none exactly when no snapshot is installed and no abandoned instance has a file |
| GoldenSnapshot.StrandedStep | src/fabrica/sandbox/firecracker_backend.py:542-575 | the files of abandoned instances stay, and there come to be some exactly when a step abandons an instance with a file it does not unlink |
| GoldenSnapshot.CloseLeavesNothing | src/fabrica/sandbox/firecracker_backend.py:1070-1092 | a close after that leaves no file if and only if no step of the run abandoned an instance with a file on disk; with the snapshot mode off the same holds before it |
| GoldenSnapshot.FilesLeftExactly | src/fabrica/sandbox/firecracker_backend.py:1085-1092 | whatever overlapped, once everything has ended files are left if and only if a creation was installed after the last close or a step abandoned an instance with a file on disk |
| GoldenSnapshot.CloseDuringCreationLeaks | src/fabrica/sandbox/firecracker_backend.py:1085-1092 | a concrete run in which a close overlapping the creation leaves files behind |
| GoldenSnapshot.AbandonedBootLeaks | src/fabrica/sandbox/firecracker_backend.py:546-556 | with the snapshot mode off, a boot whose kill raises leaves its rootfs copy, and none of all later runs empties the directory |
| GoldenSnapshot.FirecrackerSandbox.CleanupFiles | src/fabrica/sandbox/firecracker_backend.py:152-170 | unlinks exactly the instance's files, the rootfs copy only when it has one |
| GoldenSnapshot.FirecrackerSandbox.InstallGolden | src/fabrica/sandbox/firecracker_backend.py:809-821 | removes the throwaway instance's files, keeps its rootfs copy, and sets both golden fields |
| GoldenSnapshot.FirecrackerSandbox.Terminate | src/fabrica/sandbox/firecracker_backend.py:1024-1043 | equals the machine's terminate and reap; an unknown id changes nothing |
| GoldenSnapshot.FirecrackerSandbox.Close | src/fabrica/sandbox/firecracker_backend.py:1085-1092 | equals the machine's close |
| CircuitBreaker.BreakerIsItsLog | src/fabrica/presidium/rest_client.py:86-114 | under any interleaving: not CLOSED exactly when the trailing failures reach the threshold, opened at the latest failure, and HALF_OPEN exactly when somebody asked after the cooldown since |
| CircuitBreaker.AdmissionRule | src/fabrica/presidium/rest_client.py:86-101 | who is let through, in terms of the log alone |
| CircuitBreaker.HalfOpenAdmitsEveryone | src/fabrica/presidium/rest_client.py:91-101 | any number of callers that ask in HALF_OPEN before an outcome are let through |
| CircuitBreaker.ProbesAreSpaced | src/fabrica/presidium/rest_client.py:95-114 | for callers in turn that all fail, the k-th call after the trip that reaches the network asks no earlier than k cooldowns after it |
| CircuitBreaker.ProbeRate | src/fabrica/presidium/rest_client.py:95-114 | at most floor(t / cooldown) calls reach the network within t of the trip |
| CircuitBreaker.Client.AllowRequest | src/fabrica/presidium/rest_client.py:86-101 | updates the breaker in place as the value function says |
| CircuitBreaker.Client.RecordSuccess | src/fabrica/presidium/rest_client.py:103-106 | resets the breaker to its initial state |
| CircuitBreaker.Client.RecordFailure | src/fabrica/presidium/rest_client.py:108-114 | updates the breaker in place as the value function says |
| CircuitBreaker.Client.CheckGrant | src/fabrica/presidium/rest_client.py:210-251 | grants exactly a recognized decision on an admitted call and records a success; raises, recording nothing, exactly on an admitted call whose request or parsing raises what the handler does not name or whose decision cannot be hashed; otherwise denies, recording a failure when the network was asked |
| PromptStore.MaxIsGreatest | src/fabrica/prompts/store.py:62 | `max` with default 0 is a live version and no live version is above it |
| PromptStore.VersionsListed | src/fabrica/prompts/store.py:94-95 | `list_versions` is the live versions, each once, ascending |
| PromptStore.LatestIsGreatest | src/fabrica/prompts/store.py:85-92 | a lookup without a version finds the live template with the greatest number |
| PromptStore.PutStores | src/fabrica/prompts/store.py:59-73 | a put succeeds exactly on a text of at most 256 KiB whose boundary lies in it; its template is the caller's draft with the time of the call and a number one above the greatest live version, or 1 |
| PromptStore.PutIsNew | src/fabrica/prompts/store.py:59-73 | a put overwrites no live version, becomes the latest, and changes no other lookup; one that raises changes none |
| PromptStore.DeleteForgets | src/fabrica/prompts/store.py:100-104 | a delete changes no other name's lookups |
| PromptStore.DeleteRemoves | src/fabrica/prompts/store.py:100-104 | a delete removes that version, or all and the name itself, and no other version |
| PromptStore.InMemoryPromptStore.Put | src/fabrica/prompts/store.py:59-73 | updates the templates in place as `PutInto` says, the name left behind by a failed put included |
| PromptStore.InMemoryPromptStore.Delete | src/fabrica/prompts/store.py:100-104 | updates the templates in place as `DeleteFrom` says |
| PromptStore.InMemoryPromptStore.TakeSnapshot | src/fabrica/prompts/store.py:181-199 | the loops build `Snapshot` of the templates |
| PromptStore.InMemoryPromptStore.RestoreSnapshot | src/fabrica/prompts/store.py:202-216 | the loops rebuild the templates from a blob, or raise on a row whose key `int` cannot read or whose template cannot be constructed |
| PromptStore.PersistedPromptStore.Put | src/fabrica/prompts/store.py:152-165 | a put that succeeds persists the snapshot of the new state, one that raises persists nothing |
| PromptStore.PersistedPromptStore.Delete | src/fabrica/prompts/store.py:176-178 | a delete persists the snapshot of the new state |
| Decimal.ParsePrint | src/fabrica/prompts/store.py:209 | `int` undoes `str` on every integer |
| Decimal.PrintsDigits | src/fabrica/prompts/store.py:190 | the digits are those of the number to base ten |
| Decimal.PrintInjective | src/fabrica/prompts/store.py:190 | two versions never print to one key |
| PromptStore.RestoreSnapshotRoundTrip | src/fabrica/prompts/store.py:181-216 | restoring a snapshot gives the store back, in order, without the names that have no version |
| PromptStore.RestartEquivalence | src/fabrica/prompts/store.py:141-216 | after any run of puts and deletes a rebuilt store agrees on get, list_versions and the next version, and list_names loses exactly the names without versions |
| PromptManager.Manager.Get | src/fabrica/prompts/manager.py:42-63 | answers from the cache or the store, and caches what the store found |
| PromptManager.Manager.Put | src/fabrica/prompts/manager.py:65-89 | drops the cached latest and caches the new version, and only when the store succeeded |
| PromptManager.Manager.Delete | src/fabrica/prompts/manager.py:100-106 | the loop drops every entry of the name and no other |
| PromptManager.Manager.Load | src/fabrica/prompts/manager.py:108-157 | does not write a file that is already the latest version |
| PromptManager.CacheIsInvisible | src/fabrica/prompts/manager.py:42-106 | for every sequence of get, put, delete and load, the manager answers as the bare store would |
| PromptManager.AnswersAreCached | src/fabrica/prompts/manager.py:48-56 | an answer that was found is given again without asking the store; one that was not is not cached |
| PromptManager.ChangesAreCached | src/fabrica/prompts/manager.py:82-106 | a put makes its version answered from the cache and drops the latest, a delete drops exactly the entries of its name, and neither touches another entry |
| PromptManager.LoadIsIdempotent | src/fabrica/prompts/manager.py:142-157 | a loaded file is the latest template of its name, and loading it again returns the same and writes nothing |
| PromptManager.QuiescentCacheAgrees | src/fabrica/prompts/manager.py:65-106 | under any interleaving at the persist await in which no delete of a name overlaps a put of it and no failing call would have dropped an entry, the cache agrees with the store whenever nothing is suspended |
| PromptManager.LeavingsDecide | src/fabrica/prompts/manager.py:42-106 | under any interleaving, overlaps and failures at the persist await included: when nothing is suspended the cache agrees with the store if and only if each put that was the last to resume for its name and version was also the last to begin, no delete that covers it having begun since, and each entry that a failed call should have dropped, and none since has, is still the answer by what has begun |
| PromptManager.FailedPutLeaves | src/fabrica/prompts/manager.py:75-83 | a put that raises after the store has changed leaves an agreeing cache agreeing if and only if the latest version of its name was not cached |
| PromptManager.FailedDeleteLeaves | src/fabrica/prompts/manager.py:100-106 | a delete that raises after the store has changed leaves an agreeing cache agreeing if and only if every cached entry of the name is for a version it does not delete, the greatest one for an entry without a version |
| PromptManager.OverlapLeavesStaleEntry | src/fabrica/prompts/manager.py:100-106 | a delete inside a put of the same name leaves a deleted template in the cache |
| MemoryStore.InMemoryStore.Write | src/fabrica/memory/store.py:53-66 | stores the item under its own id, or a new one when it has none or an empty one |
| MemoryStore.InMemoryStore.Forget | src/fabrica/memory/store.py:93-94 | removes the id from its scope; an unknown one changes nothing |
| MemoryStore.InMemoryStore.TakeSnapshot | src/fabrica/memory/store.py:171-190 | the loops build the records in dictionary order |
| MemoryStore.InMemoryStore.RestoreSnapshot | src/fabrica/memory/store.py:193-204 | the loop rebuilds the items from the records |
| MemoryStore.PersistedStore.Write | src/fabrica/memory/store.py:155-158 | every write persists the snapshot of the new state |
| MemoryStore.PersistedStore.Forget | src/fabrica/memory/store.py:166-168 | every forget persists the snapshot of the new state |
| MemoryStore.RunsStayWellFormed | src/fabrica/memory/store.py:53-94 | after any run every item lies under its own id, each key once |
| MemoryStore.LookupAfterWrite | src/fabrica/memory/store.py:63 | a write changes what its own scope and id find and nothing else |
| MemoryStore.WriteKeeps | src/fabrica/memory/store.py:53-66 | what was written is found under the returned id, the item's own unless missing or empty, with its content, metadata and time |
| MemoryStore.LookupAfterForget | src/fabrica/memory/store.py:94 | a forget removes its own scope and id and nothing else |
| MemoryStore.KeysAreWrittenOut | src/fabrica/memory/store.py:179-190 | the snapshot, which drops the keys, loses none of them |
| MemoryStore.RestartEquivalence | src/fabrica/memory/store.py:144-204 | a store rebuilt from the blob of any run answers every get and search as before, order and ties included |
| MemoryStore.ScopesAreIsolated | src/fabrica/memory/store.py:50-94 | an operation on one scope changes no other scope's get or search |
| MemoryStore.SearchRanks | src/fabrica/memory/store.py:68-88 | a search returns the first `limit` items of its scope's ranking, a negative limit counting from the end, best first, equal scores in stored order |
| Ranking.RankedIsStable | src/fabrica/memory/store.py:76 | the ranking is a descending permutation that keeps the order of equal scores |
| Ranking.RankedIsUnique | src/fabrica/memory/store.py:76 | no other list has these properties |
| PyDict.RebuildFlatten | src/fabrica/memory/store.py:179-204 | reinserting the entries of a nested dictionary in order rebuilds it without its empty inner ones |
| Retriever.KeywordBackend.Add | src/fabrica/retriever/keyword_backend.py:38-40 | the loop updates the index in place, the last item of an id winning |
| Retriever.KeywordBackend.Remove | src/fabrica/retriever/keyword_backend.py:42-44 | the loop removes every listed id |
| Retriever.RetrieverEngine.Register | src/fabrica/retriever/retriever.py:78-115 | a conflicting batch, or one both backends refuse, changes nothing; otherwise the bookkeeping and each backend that answered take the whole batch |
| Retriever.RetrieverEngine.Deregister | src/fabrica/retriever/retriever.py:129-144 | the bookkeeping drops the ids whatever the backends do |
| Retriever.RetrieverEngine.ListEager | src/fabrica/retriever/retriever.py:209-213 | returns exactly the registered items that are eager and of the kind, each once, in order of registration |
| Retriever.AddAllGets | src/fabrica/retriever/keyword_backend.py:38-40 | after a batch each id finds its last item of the batch, or what it found before |
| Retriever.RemoveAllGets | src/fabrica/retriever/keyword_backend.py:42-44 | after a removal exactly the listed ids find nothing |
| Retriever.RegisterFinds | src/fabrica/retriever/retriever.py:78-115 | when a batch is refused and why; a refused batch changes nothing, an accepted one is found, the last item of each id, in the bookkeeping and each backend that answered |
| Retriever.DeregisterRemoves | src/fabrica/retriever/retriever.py:129-144 | exactly the listed ids are gone from the bookkeeping and from each backend that answered |
| Retriever.SearchPrefersPrimary | src/fabrica/retriever/retriever.py:180-202 | the primary's answer whenever it has one, else the fallback's, and a failure exactly when neither answers |
| Retriever.NoRegistrationIsLost | src/fabrica/retriever/retriever.py:78-144 | over any run with arbitrary backend failures every registered id is held with its current content by a backend |
| Retriever.WithoutFailuresAllAgree | src/fabrica/retriever/retriever.py:93-202 | if no call fails both backends equal the bookkeeping, and a search that falls back answers as the primary would |
| Retriever.QueryRanks | src/fabrica/retriever/keyword_backend.py:46-66 | a query returns ranks 0..k-1 of the stable descending order of the items of the requested kind, k given by the limit, a negative one counting from the end |
| Compactor.RunLength | src/fabrica/memory/compactor.py:118-119 | the length of the maximal run at the start of a text |
| Compactor.RunsAcrossSeparator | src/fabrica/memory/compactor.py:122-127 | tokenizing across a separator is tokenizing both sides |
| CompactionScore.RunsAreMaximal | src/fabrica/memory/compactor.py:118-127 | the tokens are exactly the maximal runs of the text |
| CompactionScore.TokensOfText | src/fabrica/memory/compactor.py:118-127 | numbers are the maximal runs of digits; content words the maximal runs of letters and apostrophes, lower-cased, of three characters or more, that are no stopwords |
| CompactionScore.MessageTextJoins | src/fabrica/memory/compactor.py:130-131 | the scored text is one line per message, role and content, joined by newlines |
| CompactionScore.ScoreWeights | src/fabrica/memory/compactor.py:150-158 | keeping all words and no number scores 0.4, all numbers and no word 0.6, and 0 exactly what keeps nothing |
| CompactionScore.RetentionLoses | src/fabrica/memory/compactor.py:156-157 | every lost token of a kind costs the same |
| Compactor.ScoreRange | src/fabrica/memory/compactor.py:134-158 | the score is in [0, 1], and 1 exactly when every source number and content word is kept |
| Compactor.SourceScoresOne | src/fabrica/memory/compactor.py:134-158 | the source text is a perfect summary of itself |
| Compactor.AppendingNeverLowers | src/fabrica/memory/compactor.py:134-158 | appending a space and any further text never lowers the score |
| Compactor.SelectPreserved | src/fabrica/memory/compactor.py:269-293 | the longest suffix all of whose own suffixes are within both limits |
| Compactor.KeepsIsWithinBudget | src/fabrica/memory/compactor.py:269-293 | with non-negative tokens and budget that is the longest suffix within both limits |
| Compactor.RecencyCompactor.Best | src/fabrica/memory/compactor.py:234-257 | of the at most two summaries scored, the one returned scores highest |
| Compactor.RecencyCompactor.Compact | src/fabrica/memory/compactor.py:197-266 | older plus preserved is the input; fails exactly when the first summarizer does; the score is the maximum of those scored, and degraded holds exactly below the threshold |
| Compactor.CompactWithinBudget | src/fabrica/memory/compactor.py:216-222 | `tokens_after` is within the budget, and equals it when something is summarized, if and only if the budget is not negative or something is kept |

## Left out

- Process launching, curl calls to the Firecracker API, sockets, ZMQ and the file system are steps that may succeed or fail and a set of file names; the API calls never report failure in the source either.
- The jailer mode, whose clean-up is done by privileged scripts.
- Cancelling an `execute_in_sandbox` call from outside; the pool's own acquire timeout is modelled, with a cold boot it cancels counted as a lost instance, and the backend's side of a cancelled boot or terminate is `Abandon` and `AbandonReap`.
- An unlink that raises inside the backend's `close`, and the content of golden files that an abandoned snapshot goes on writing.
- Text with lone surrogates: `Text` is a sequence of Unicode scalar values. Code that prints one makes Tier 2 raise `UnicodeEncodeError` when it measures the output, and ends the guest of the other tiers before its trailer.
- What the text of an exception out of a malformed vsock message is.
- VsockExecution.GuestMain: ends where a receive finds the connection lost; the source raises into the code, which may go on, but nothing it sends from there reaches the host.
- Instance ids, handle ids and memory ids from `uuid4` are fresh by assumption.
- JSON, YAML and ISO dates are inverse pairs: a timestamp is stored as it is, the trailer codec is a parameter. Reading a PROMPT.md gives a name and a draft, or a parse error.
- BM25 is an uninterpreted score over the raw contents; tokenizing for search is part of it.
- The compactor's tokenizers are modelled on ASCII text, and its score over real numbers instead of floating point.
- The breaker's clock and cooldown are floats in the source and reals here.
- A trailer whose three fields have other types than the guest writes: code that prints such an object to stderr and ends the process at once gets it as its result.
- PromptStore.InMemoryPromptStore.RestoreSnapshot: keys are ASCII; `int` also reads other digits and white space, and refuses more than 4300 digits. A blob has the fields this store writes.
- The overall execution time limit, and the race between serving calls and reading the pipes when the process exits in the middle of a call; a `TimeoutError` out of the callback is modelled.
- Code that opens several callers on the namespace at once: the guest machine has one.
- Concurrent writers of one persisted store, and overlapping `register` and `deregister` calls. A blob store that raises from `set` is modelled where it matters, in the prompt cache.
- Spans, telemetry, latency and CPU measurement.
- Working-memory quotas, scope validation, dispatch order, network policy, the MCP client and server, tunnels, the Civitas bridge and the in-process Presidium client: wiring, or properties readable from one body.
- Fairness among callers: the condition's waiters are not ordered.
- A message too long to frame (2^32 bytes or more): `_send` raises, and the byte-level results assume that none occurs. That a message survives its JSON body is the codec parameter.
- ExecuteInSandbox.Execute: covers one caller; a caller at the limit is taken to time out, since nobody is there to release. Overlapping calls are in `PoolTheorems`.
- Formatting a rejected response into a denial's reason is taken not to raise.
- CircuitBreaker.Client.CheckGrant: one call without interleaving; interleaved calls are the logs of `BreakerIsItsLog`.
- PoolTheorems.LiveBound: needs the bound on refills in flight at each cold start; without it no bound exists, as `CountExceedsMaxConcurrent` shows.
