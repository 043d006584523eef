# Verified model of the code execution engine

A Dafny model of the engine's in-process core, with proofs of what it keeps over whole runs. Four
components are modelled: the submission queue and its worker pool, the API-key store and policy,
the rate limiter, and the path from a raw execution to a verdict, together with the extraction of
uploaded archives. `dafny verify dfyconfig.toml` checks everything.

## The submission queue and its workers

`Protocol` is a state machine. One action is one atomic operation of the program: a channel send
or receive, one map call, one atomic add, one section under a job's lock. Every call of `Enqueue`,
every worker and every call of `WaitForResult` or `GetSubmission` has a program counter, so every
interleaving is a run. The transitions are `Protocol.DoCall` (`pkg/queue/memory.go` lines 89-107),
`Protocol.DoWork` (`pkg/queue/memory.go` lines 109-123 and 162-183, `pkg/queue/worker.go` lines
64-178), `Protocol.DoRead` (`pkg/queue/memory.go` lines 125-132 and 185-211) and the remaining
cases of `Protocol.Do`: deletion, the sweeper's four operations per entry (`pkg/queue/memory.go`
lines 66-87), stopping and closing. What the executor returns is
arbitrary; `Verdict.WorkerFinishes` shows that every way in which a worker can end a job is one
that the machine allows.

The proof is an invariant in five parts, each in its own file: what each job's object holds and
where the job is (`ProtocolJobs`), what the token map and the snapshots hold (`ProtocolStore`), the
listener channels (`ProtocolBells`), the counters (`ProtocolCounters`) and the wakeup
(`ProtocolWakeup`). `ProtocolRuns`, `ProtocolLimits`, `ProtocolLaws`, `ProtocolReplies` and
`ProtocolClose` state the results over runs.

`MemoryQueue` has the same queue as mutable objects, one call at a time, with a history of what was
accepted, delivered and signalled. The store holds the objects that workers write into.
`GetSubmission` hands out copies, and so does `WaitForResult` but for what comes through its channel:
that is the very object that `SignalCompleted` stored.

Assumed: tokens are fresh; for the wakeup alone, that no other call that waits for the token overlaps
this one, and that the token was not removed; for the absence of a panic, that no sender is past
the closed check when the channel closes. Everything else holds for any number of waiting calls, deletions and sweeps.

## The API keys

`MemoryStore` has the two maps over shared mutable keys. Its methods are proved against the values
in `KeyStore`, and the handlers and Bootstrap (`KeyHandlers`) likewise. `KeySystem` runs these
transitions in any order; a request acts with the copy of the key that it was given when it
authenticated, stale or not. `KeyLockout` settles which configurations protect against lockout, and
`KeyLaws` what the tokens and secrets are good for.

Hashing is taken as injective. Identifiers and secrets are arbitrary: nothing is assumed about
their freshness, since a collision is refused by `CreateKey`.

## The rate limiter

`RateLimiter` has the limiter as objects and as a function of the trace of requests and cleanups;
`RateLimiter.Replay` proves that the objects make the decisions of the function on every trace. Times do not
decrease in the order in which the lock is taken.

## Verdicts and archives

`Compare`, `Capture` and `Verdict` go from bytes written by the program to the status of the job.
`Paths` has the lexical rules of Unix paths and what a path denotes; `Trees` has the directory tree, with
what `os.MkdirAll` really makes; `Zip` has the path checks and the extraction loop on that tree, with
the faults of the file system and of the decompressor as a parameter of each entry.

## What the proofs brought out

- The limiter is a fixed window; the comment at `pkg/api/middleware.go` line 290 calls it sliding.
  Any interval as long as the window admits at most `2 * limit - 1` requests, not `2 * limit`,
  and some run reaches that.
- The last-master guard counts keys by identifier, while authentication finds them by hash. A token
  configured twice, or as AUTH and METRICS token alike, leaves a master key that is counted and
  that no token reaches; everyone can then be locked out. Exactly the configurations without such
  duplicates, and with some token that is not blank, are safe.
- A job refused because the channel is full stays in the store as In Queue and is never run.
- There is one listener slot per token: once one of two calls that wait for a token can go on by its
  channel, the other never can while it stays blocked. Which one it is was decided when the worker
  looked for the listener.
- A close is safe exactly when no call of `Enqueue` is past its closed check.
- The second path check of the extraction never fires below a real destination; where the
  destination cleans to the root or to the working directory it refuses everything but that
  directory itself.
- The first path check refuses some names that do not climb, such as `..a` (`Zip.TwoDotsRefused`).
- Whatever the archive, an extraction into an existing destination makes and writes nothing outside
  it. Outside effects need a destination whose parent is missing too; then the first directory made
  is outside.
- A file whose name cleans to `.` passes both path checks; where the destination exists it is refused
  only because opening a directory for writing fails.

## Model

| member | source | states |
|---|---|---|
| ProtocolJobs.StepKeepsJobs | pkg/queue/worker.go:64-178 | every atomic operation keeps: the channel is what was sent and not received, without duplicates; a received job is held by exactly the worker that received it until signalled; each object holds what its worker's position says |
| ProtocolStore.StepGrows | pkg/queue/queue.go:48-107 | every atomic operation moves objects forward only: no status goes back, no verdict and no snapshot changes |
| ProtocolStore.StepKeepsShelf | pkg/queue/memory.go:125-137 | every atomic operation keeps: entries and loaded pointers are of their token, snapshots copy finished jobs, nothing is stored over a final snapshot, only deleters and the sweeper take entries away |
| ProtocolBells.StepKeepsInv | pkg/queue/memory.go:162-211 | every atomic operation keeps the above and the state of every listener channel, for any number of waiting calls |
| ProtocolCounters.StepKeepsCounts | pkg/queue/memory.go:97-119 | every atomic operation keeps each counter equal to the number of jobs at the places it counts, late adds included |
| ProtocolWakeup.StepKeepsWake | pkg/queue/memory.go:185-203 | every atomic operation keeps: a call that no other waiting call of its token overlaps is registered or taken, and cannot have missed a worker that is past its look |
| ProtocolWakeup.NoLostWakeup | pkg/queue/memory.go:172-203 | once `SignalCompleted` has returned, a blocked call of that token can receive at once, and what it receives is the worker's result |
| ProtocolRuns.RunKeepsAll | pkg/queue/worker.go:47-85 | all invariants hold in every state of every run |
| ProtocolRuns.WakeupOnEveryRun | pkg/queue/memory.go:185-211 | no lost wakeup in any interleaving |
| ProtocolRuns.CountersOnEveryRun | pkg/queue/memory.go:97-119 | in every state of every run: inQueue is the channel's length less sends not yet counted plus receives not yet subtracted; processing is between 0 and the number of workers; completed counts the accepted ones |
| ProtocolRuns.TotalWhenQuiescent | pkg/queue/memory.go:147-170 | with nothing in flight, the total is the number of successful `Enqueue` calls, and completed and failed are the signalled jobs by verdict |
| ProtocolRuns.FifoOnEveryRun | pkg/queue/memory.go:89-123 | jobs are received in the order they were sent, each by one worker, which holds it until it is signalled |
| ProtocolRuns.WrittenOnce | pkg/queue/worker.go:87-155 | a worker writes a result only into a job that has none |
| ProtocolRuns.SignalledOnce | pkg/queue/worker.go:157-178 | a worker is idle again only by signalling its job, result written, for the first time |
| ProtocolRuns.NothingLostAtStop | pkg/queue/worker.go:57-85 | after the pool has stopped, each accepted job is finalised or still in the channel, never both, never neither |
| ProtocolRuns.SnapshotsAgree | pkg/queue/queue.go:69-107 | of two snapshots of one token the later is not behind, and equals the earlier if that was finished |
| ProtocolRuns.SnapshotsAreWhole | pkg/queue/worker.go:128-151 | a snapshot shows the complete final result or no part of one |
| ProtocolRuns.StatusOnlyForward | pkg/queue/worker.go:92-151 | over any stretch of a run a status only moves from In Queue to Processing to final, and a final job never changes |
| ProtocolRuns.EntryOnlyRemoved | pkg/queue/memory.go:172-173 | after `SignalCompleted` the entry holds the final job; it can be removed, and then stays removed |
| ProtocolLimits.ListenerSafety | pkg/queue/memory.go:175-182 | a listener channel gets at most one value and one close, in that order; the send always finds room and the channel open |
| ProtocolLimits.NeverNil | pkg/queue/memory.go:185-211 | in every state of every run no call has returned nil from its channel, and what any call returns is a job of its own token |
| ProtocolLimits.WokenWithResult | pkg/queue/memory.go:201-203 | whenever a blocked call can go on by its channel, for any number of waiting calls, it returns a finished job of its own token |
| ProtocolLimits.UnfinishedMeansTimer | pkg/queue/memory.go:185-211 | a waiting call returns an unfinished job, or none, only after its timer has fired |
| ProtocolLimits.AtMostOneWoken | pkg/queue/memory.go:190-191 | once one of two calls that wait for a token can go on by its channel, the other cannot, in that state or any later one in which it is blocked |
| ProtocolLimits.WokenExactly | pkg/queue/memory.go:172-203 | once `SignalCompleted` has returned, a blocked call of the token can go on exactly if its channel was the registered listener when a worker looked |
| ProtocolLimits.SweeperSparesYoung | pkg/queue/memory.go:66-87 | whatever comes between the sweeper's load, its look, its reading of the time and its delete, the job of the token is finished at the delete, with a recorded time more than ttl before the sweep |
| ProtocolLimits.NothingStuckOnRuns | pkg/queue/memory.go:66-211 | in every state of every run each step that the program takes by itself is enabled: of calls, busy workers, reading calls not blocked, and the sweeper |
| ProtocolLimits.RefusedStaysQueued | pkg/queue/memory.go:94-106 | a refused job is never sent, and stays stored as In Queue unless removed |
| ProtocolLaws.ChannelBounded | pkg/queue/memory.go:40-42 | in every state of every run the channel holds at most its capacity, which never changes |
| ProtocolLaws.SendExactly | pkg/queue/memory.go:97-106 | in every state of every run: a job is sent exactly if the channel is open and has room and the context is not taken; otherwise it is refused, without the context only by an open channel that holds exactly its capacity |
| ProtocolLaws.CheckExactly | pkg/queue/memory.go:90-92 | a call is declined exactly if it finds the flag set, and the step changes nothing else |
| ProtocolLaws.DeclinedIsNowhere | pkg/queue/memory.go:90-92 | the job of a declined call is never sent and never stored |
| ProtocolLaws.StoreExactly | pkg/queue/memory.go:125-145 | the whole effect of every action on the store: deletions take away their token alone, and submission, start and publication store, undoing a deletion |
| ProtocolLaws.SweepAlone | pkg/queue/memory.go:66-87 | the sweeper left alone with an entry removes it exactly if it is finished and expired |
| ProtocolLaws.GateExactly | pkg/queue/memory.go:213-224 | closing and stopping set their flags, nothing clears them |
| ProtocolLaws.AlwaysOffered | pkg/queue/worker.go:64-85 | an idle worker can always receive what is there and leave once stopped; timers, deletions, calls and sweeps are always possible |
| ProtocolLaws.BeginningsExactly | pkg/queue/memory.go:185-191 | how submissions and reading calls begin; a waiting call counts as clear exactly if no other waits for the token |
| ProtocolReplies.ReadyIsReturned | pkg/queue/memory.go:185-196 | a call that finds a finished job in the store all the while it lasts never registers and never blocks, and returns a finished job |
| ProtocolReplies.MissingMeansAbsent | pkg/queue/memory.go:125-129 | a call returns that there is no job only after a last load that found none |
| ProtocolReplies.CancelledMeansContext | pkg/queue/memory.go:207-210 | a call returns the error of its context only after that ended while it was blocked |
| ProtocolReplies.RepliesAreSeen | pkg/queue/memory.go:125-132 | whatever job a call has returned is among the snapshots handed out |
| ProtocolReplies.RepliesAreWhole | pkg/queue/memory.go:185-211 | an answer is a finished job with its complete result, or an unfinished one without any |
| ProtocolReplies.NoListenerLeaks | pkg/queue/memory.go:190-210 | in every state of every run a registered listener belongs to a call that is still at it |
| ProtocolClose.NoPanicAfterCleanClose | pkg/queue/memory.go:89-98 | closed with no sender under way, no continuation panics |
| ProtocolClose.CloseIsSafeExactly | pkg/queue/memory.go:213-224 | some continuation panics exactly if a sender is past the closed check at the close |
| MemoryQueue.SubmissionJob.Snapshot | pkg/queue/queue.go:69-107 | a fresh object with the same value |
| MemoryQueue.MemoryQueue.constructor | pkg/queue/memory.go:32-59 | the defaults for size and ttl, and an empty queue |
| MemoryQueue.MemoryQueue.Enqueue | pkg/queue/memory.go:89-107 | the whole new state on each of the four outcomes, with the context ended or not; the store is written before the send is tried |
| MemoryQueue.MemoryQueue.Dequeue | pkg/queue/memory.go:109-123 | the oldest accepted job not yet delivered, the end of a closed channel, cancellation, or blocking; counters follow the history |
| MemoryQueue.MemoryQueue.GetSubmission | pkg/queue/memory.go:125-132 | a fresh copy of the stored job, or nothing |
| MemoryQueue.MemoryQueue.DeleteSubmission | pkg/queue/memory.go:139-145 | exactly that entry is gone; found tells whether it was there |
| MemoryQueue.MemoryQueue.GetStats | pkg/queue/memory.go:147-160 | each figure in terms of the history; the total is the number of accepted jobs |
| MemoryQueue.MemoryQueue.SignalCompleted | pkg/queue/memory.go:162-183 | a fresh copy is stored, counted by status, delivered on the channel of a listener, which is removed and closed |
| MemoryQueue.MemoryQueue.WaitForResult | pkg/queue/memory.go:185-211 | run alone it returns a copy of what the store holds, or nothing if cancelled before the job is finished, and leaves no listener of its own |
| MemoryQueue.MemoryQueue.CleanupExpired | pkg/queue/memory.go:66-87 | removes exactly the finished entries whose recorded age exceeds the ttl |
| MemoryQueue.RecordResult | pkg/queue/worker.go:128-151 | the section under the lock, field by field, with the second check |
| MemoryQueue.ProcessJob | pkg/queue/worker.go:87-178 | on every path the status and the output of the job, in the terms of the outcome; one signal; the store holds a fresh copy; the listener of the token is removed, told that copy and closed |
| MemoryQueue.EvictionExactly | pkg/queue/memory.go:73-81 | a job is evicted exactly when its age exceeds the ttl by more than the part of a second its recorded time has lost |
| MemoryQueue.EvictionBound | pkg/queue/memory.go:77-81 | whatever is evicted finished more than ttl minus one second ago; whatever is older than ttl is evicted |
| MemoryQueue.CountAcceptedExactly | pkg/queue/memory.go:162-169 | the counter of completed jobs counts the signals with status Accepted |
| Verdict.Parse | pkg/executor/parser.go:19-101 | Accepted exactly if in time, exit code 0 and as expected; what is shown, redirected or not; the signal from the exit code, and the status from the signal; a timeout; every measured field; always a final status |
| Verdict.SecondCheckIsRedundant | pkg/queue/worker.go:142-150 | the worker's second check never changes a parsed or compilation-error result |
| Verdict.AcceptedExactly | pkg/queue/worker.go:87-155 | a job ends Accepted exactly if it ran, in time, with exit code 0, and the redirected, truncated stdout is as expected or nothing is expected |
| Verdict.WorkerFinishes | pkg/queue/worker.go:95-151 | every outcome leaves a final status, a recorded time, and the request untouched |
| Verdict.BoundIsInvisible | pkg/executor/process.go:134-164 | with both buffers at twice the truncation length, every parsed result is that of the complete output |
| Capture.BoundedBuffer.Write | pkg/executor/process.go:272-282 | whatever is written, the buffer holds the first `limit` bytes of all of it, and the write is reported as complete |
| Capture.BoundedBuffer.String | pkg/executor/process.go:284-286 | the first `limit` bytes of all that was written |
| Capture.CaptureShowsExactly | pkg/executor/parser.go:103-108 | a buffer is invisible for every output exactly if its limit exceeds the truncation length |
| Capture.TruncateKeeps | pkg/executor/parser.go:103-108 | short outputs are kept whole; of long ones the first 64 KiB, and then the mark |
| Compare.NormalizeOutput | pkg/utils/compare.go:10-19 | the passes, the trim in place included, compute `Normalized` |
| Compare.CompareOutput | pkg/utils/compare.go:6-8 | equal exactly if the lines of both are |
| Compare.PassesFindLines | pkg/utils/compare.go:11-13 | two replacements and a split find the lines that end at CR LF, CR or LF |
| Compare.FinalTrimDropsEmptyLines | pkg/utils/compare.go:17-18 | the final trim of the joined text drops exactly the trailing empty lines |
| Compare.SameOutputMeansSameLines | pkg/utils/compare.go:6-19 | two outputs compare equal exactly if their right-trimmed lines without trailing empty ones are equal |
| Compare.NormalizingTwice | pkg/utils/compare.go:10-19 | normalisation is idempotent |
| Compare.TrailingIsIgnored | pkg/utils/compare.go:5-19 | appending any blanks and line ends changes nothing |
| Compare.TrailingExactly | pkg/utils/compare.go:5-19 | appending one byte changes nothing exactly if it is a blank, a tab or a line end |
| Zip.NameOkExactly | pkg/utils/zip.go:39-42 | the first check accepts exactly the relative names whose first cleaned component does not begin with two dots |
| Zip.TargetExactly | pkg/utils/zip.go:44 | the target's components are the destination's, then the name's |
| Zip.SecondCheckExactly | pkg/utils/zip.go:45-47 | exactly when the second check passes |
| Zip.Contained | pkg/utils/zip.go:38-47 | for every destination and accepted name, the target denotes the destination or something below it, in every working directory |
| Zip.PlacesExactly | pkg/utils/zip.go:44-58 | in every tree the directory made for an accepted entry is the destination, below it, or its parent, and a file goes right into it unless the file would replace a directory |
| Zip.FitsExactly | pkg/utils/zip.go:49-69 | an entry meets no file in the way of its directory and no directory in the way of its file exactly if what it would leave needs nothing as both |
| Trees.WithinExactly | pkg/utils/zip.go:49-65 | of directories made one in another on the way to a home and files written below it, all are inside the home exactly if its parent exists or nothing happens |
| Zip.DotFileClashes | pkg/utils/zip.go:38-69 | an archive with a file whose name cleans to `.` cannot be extracted in full where the destination exists |
| Zip.LastWriteWins | pkg/utils/zip.go:49-80 | after a complete extraction every directory is there, and of several entries for one file the last one is in it, whole |
| Zip.OthersStay | pkg/utils/zip.go:65 | no file is touched that no entry is for |
| Zip.TwoDotsRefused | pkg/utils/zip.go:39-42 | the name `..a` is refused although its one component does not climb |
| Zip.Extract | pkg/utils/zip.go:31-87 | in every tree and for every archive: the new tree is one; all that is made and written is inside the destination exactly if the destination is the root, its parent exists or nothing is made, and always if the destination exists; without a parent something is made exactly if the first entry gets as far as making a directory; success exactly if the count, the names, the faults, the sizes and the needs for files and directories allow it, and then everything is extracted; otherwise the first entry refused is named with its reason, all before it is extracted in full, and what was done for it is a beginning of its extraction; at most the limit plus one byte is written, and that much exactly when the archive is refused as too large |
| Paths.CleanKeepsMeaning | pkg/utils/zip.go:36-39 | a cleaned path denotes what the path denotes |
| Paths.CleanTwice | pkg/utils/zip.go:36-44 | cleaning is idempotent and keeps whether the path is absolute |
| RateLimiter.Limiter.Allow | pkg/api/middleware.go:314-347 | the new table, the decision, the remaining count and the end of the window, in terms of the old table |
| RateLimiter.Replay | pkg/api/middleware.go:298-351 | the limiter on a whole trace of requests and cleanups makes exactly the decisions of the trace function and is left with its table |
| RateLimiter.Limiter.RemoveExpired | pkg/api/middleware.go:302-309 | an address is left exactly if its window is not over, with the same entry |
| RateLimiter.CleanupTransparent | pkg/api/middleware.go:298-327 | cleanups inserted anywhere change no decision and no count |
| RateLimiter.CleanupCleans | pkg/api/middleware.go:302-309 | after a cleanup at the end of any trace exactly the entries are left whose window is not over, unchanged |
| RateLimiter.Independent | pkg/api/middleware.go:315-326 | requests of other addresses change no decision |
| RateLimiter.WindowsApart | pkg/api/middleware.go:318-326 | on every trace, windows of an address start more than the window length apart, and counts rise inside one |
| RateLimiter.WindowBound | pkg/api/middleware.go:324-347 | no window admits more than the limit |
| RateLimiter.RateBound | pkg/api/middleware.go:313-349 | no interval as long as the window admits more than twice the limit less one |
| RateLimiter.BurstAttained | pkg/api/middleware.go:313-349 | for every positive window and limit a run reaches that bound |
| RateLimiter.RemainingIsRoom | pkg/api/middleware.go:329-339 | of further requests at the same time exactly as many are admitted as the remaining count says |
| KeyPolicy.HasPermission | pkg/auth/key.go:140-148 | the scan finds exactly the listed permissions |
| KeyPolicy.ValidExactly | pkg/auth/key.go:95-106 | exactly three kinds of key are valid |
| KeyPolicy.PermissionsExactly | pkg/auth/key.go:109-137 | for each permission, exactly who has it |
| KeyPolicy.CanGenerateExactly | pkg/auth/key.go:95-171 | a caller can generate a kind exactly if the kind is valid and the caller lists the permission named after it |
| KeyPolicy.NoEscalation | pkg/auth/key.go:109-171 | no key can make a key that may do more than itself |
| MemoryStore.MemoryStore.Agreement | pkg/auth/store.go:32-36 | what every method keeps, that a hash entry is the very object stored under its identifier and carries that hash, makes the two maps agree in value |
| MemoryStore.MemoryStore.CreateKey | pkg/auth/store.go:45-60 | a fresh copy under both maps, or an error and no change |
| MemoryStore.MemoryStore.UpsertKey | pkg/auth/store.go:62-75 | the old hash of the identifier goes, then both maps are overwritten |
| MemoryStore.MemoryStore.GetKey | pkg/auth/store.go:77-87 | a fresh copy, so no caller can change the store |
| MemoryStore.MemoryStore.GetKeyByHash | pkg/auth/store.go:89-99 | a fresh copy of what the hash resolves to |
| MemoryStore.MemoryStore.ListKeys | pkg/auth/store.go:101-112 | every key once, as a fresh copy without its hash |
| MemoryStore.MemoryStore.CountActiveMasterAuthKeys | pkg/auth/store.go:114-125 | the loop counts the set of active master AUTH keys |
| MemoryStore.MemoryStore.RevokeKey | pkg/auth/store.go:127-154 | revokes through the identifier, seen through the hash, unless unknown or the last |
| MemoryStore.MemoryStore.TouchKey | pkg/auth/store.go:156-166 | only the time of last use changes |
| KeyHandlers.Bootstrap | pkg/auth/store.go:315-373 | the two ingestion passes compute `Bootstrapped` |
| KeyHandlers.Authenticate | pkg/api/middleware.go:135-166 | a copy of the active key that the token resolves to, or none |
| KeyHandlers.GenerateKey | pkg/api/auth.go:15-66 | when each status is answered; on success one key more, under a free identifier, active, of the kind asked for, made by the caller, found by the returned secret, which authenticates; otherwise no change |
| KeyHandlers.RevokeKey | pkg/api/auth.go:91-128 | when each status is answered; on success the status of that key and nothing else changes; a conflict exactly when the key is the only active master |
| KeyStore.OperationsKeepAgreement | pkg/auth/store.go:45-166 | create, upsert, revoke and touch keep the maps in agreement, whatever the hashes; all but upsert keep every key findable |
| KeyStore.UpsertIndexedExactly | pkg/auth/store.go:62-75 | an upsert keeps every key findable exactly if no other key holds the hash |
| KeyStore.BootstrapSettles | pkg/auth/store.go:315-373 | Bootstrap puts every configured token in place, and changes nothing in a store that has them in place |
| KeyStore.BootstrapTwice | pkg/auth/store.go:315-373 | a repeated Bootstrap leaves the store unchanged, duplicates or not |
| KeyStore.TrimSpaceExactly | pkg/auth/store.go:318 | trimming leaves the part between the white space at both ends |
| KeySystem.RunKeeps | pkg/api/auth.go:15-128 | over every run: agreement of the maps, fixed kinds, descent of every key, sessions of keys that exist |
| KeySystem.MasterSurvives | pkg/auth/store.go:127-154 | with one active master AUTH key there always is one, whatever is created, revoked, touched or bootstrapped |
| KeySystem.MapsAgree | pkg/auth/store.go:45-75 | in every reachable store the maps agree |
| KeySystem.LineageOf | pkg/auth/key.go:151-171 | the chain of creators of a key is finite, at most one longer than the number of generated keys, and ends at the configuration |
| KeySystem.Provenance | pkg/api/auth.go:15-66 | in every reachable store, following the creators of any key ends at the configuration, through AUTH keys only, and through master AUTH keys only if the key is privileged |
| KeySystem.RevokedForGood | pkg/auth/store.go:127-166 | a hash that resolves to a revoked key does so for ever, under creation, touch, revocation and repeated Bootstrap, and its token never authenticates |
| KeyLaws.KeyWorks | pkg/api/middleware.go:145-156 | over every run a key that its token finds stays found, authenticates exactly while active, and stays active unless it is revoked |
| KeyLaws.GeneratedKeyWorks | pkg/auth/generator.go:61-92 | the secret of a generated key authenticates as the kind asked for, after every run that does not revoke it |
| KeyLaws.ConfiguredTokensWork | pkg/auth/store.go:315-373 | whatever is configured, every token that is not blank authenticates at the start, the metrics token as METRICS master, the others as AUTH masters |
| KeyLockout.RevokedKeyIsOut | pkg/auth/store.go:127-154 | in every run of a configuration without duplicates, once a revocation has succeeded the token of the key never authenticates again |
| KeyLockout.RevokedOutExactly | pkg/auth/store.go:127-154 | in every reachable store of any configuration, a successful revocation puts the token out for good exactly if its hash resolves to the revoked key or to one revoked before |
| KeyLockout.WellConfiguredIsSafe | pkg/auth/store.go:315-370 | with distinct tokens, one of them not blank, some token authenticates as active master after every run |
| KeyLockout.LockoutFrom | pkg/auth/store.go:140-150 | from a store with a counted but unreachable master, a run that locks everyone out |
| KeyLockout.LockoutExactly | pkg/auth/store.go:315-370 | a configuration protects against lockout exactly if it has a token that is not blank and no such token twice, the metrics token included |

## Left out

- The Redis queue and the Redis key store: they rest on an external server; key hashes are not serialised (`pkg/auth/key.go` line 55), so no agreement with the memory store could be claimed.
- Docker, isolate, process launching, signals, temporary directories and language tables: an execution is an arbitrary raw result, compilation error or executor error.
- The code scanner, option checks and limit clamping: a rejection by the scanner is one of the arbitrary outcomes of a job.
- HTTP plumbing, JSON, header and client address extraction, the command line tool: only the key handlers and the limiter are state transitions here; the 503 answers for a missing store are not modelled.
- The pass-through of requests when no token is configured and none is sent, and the check against configured tokens when there is no store (`pkg/api/middleware.go` lines 130-133 and 168 on).
- SHA-256, random bytes, UUIDs and base64: hashing is an injective constructor, identifiers and secrets are parameters; random key identifiers are taken to differ from the configured ones, which they do by their alphabet.
- The archive decoder: the entries are a parameter, as are the faults of the file system. A failing `MkdirAll` has made some of the missing directories, from the top; the bytes already written by a failing copy are those before the fault, and a fault past the end of the data is one at its end.
- Symbolic links: what a path denotes is lexical.
- Metrics, logging and callbacks: they change none of the modelled state.
- Timers and clocks: the timer of a waiting call is an action that may always fire; times are integers.
- Bytes outside ASCII in trimming and lower-casing, and the time strings: recorded times are whole seconds, durations are real numbers instead of three decimals.
- Fields that no modelled code reads: resource limits, options and descriptions of a job; prefix, description, creation and expiry time of a key.
- MemoryQueue.MemoryQueue.WaitForResult: the object is used by one thread at a time, so what it states is a call that ends by its timer or its context; waiting against a worker is in `Protocol`.
- The reply to a waiting request whose job is gone or whose context ended (`pkg/api/submissions.go` lines 42-46): it is made from the submitted object without its lock, so the results on snapshots do not cover it.
- RateLimiter.Limiter.Allow: times are integers of one unit; the header with the limit itself, and cutting the end of the window to whole seconds, are not modelled.
- MemoryQueue.MemoryQueue.GetStats: reads the four counters at once, where the program loads them one after the other; with nothing in flight there is no difference.
- Receiving from a closed, empty jobs channel is an outcome of `MemoryQueue.Dequeue` and no step of `Protocol`: a worker that is told so sleeps and tries again; it does nothing else.
- The locks themselves: a section under a lock is one action.
