# Merlin, verified

Merlin is a push gate in front of a container registry. A client pushes an image to it; Merlin stages
the blobs, scans the assembled image, answers 201 only if every policy passed, and publishes to the
registry afterwards, through a durable queue drained by workers on several replicas that may crash
between any two commands. This project models that core in Dafny and proves what it is trusted for.
`dafny verify dfyconfig.toml` checks all of it.

## What is modelled

- **Promotion.** `Protocol.dfy` is one transition system: request handlers, any number of workers, one
  Valkey and one registry, every Valkey command one step, with steps for crashes, for time, and for
  commands that fail after or before the server applied them. Over all its runs: publication safety
  (`ProtocolPublication`), attempt bounds and provenance (`ProtocolSafety`), no loss (`ProtocolNoLoss`),
  recovery that spares live work and single ownership (`ProtocolOwnership`). `ProtocolTraces` builds the
  runs in which the unconditioned claims fail. `Valkey.dfy`, `MemoryQueue.dfy` and `PromoteWorker.dfy`
  are the code's own classes, tied to the transition system by `QueueRefinement` and `HandleRefinement`.
- **Gate.** `PolicyEngine`, `GateHandler` (Apply, recordDecision, publication, handleManifest) and
  `IndexForward` (the bounded wait for references). `GateSpec` shows that the handler's course is a course
  of the same transition system, so what the engine decides is what the safety theorem is about.
- **Staging.** `Staging.dfy` over its in-process backends, with each backend call free to fail, applied or
  not; `StagingRuns` has content addressing, uploads and reference counts over whole runs of operations,
  `StagingRaces` completions and cleanups interleaved call by call, and `ValkeySessions` the expiring keys
  of the shared session store.
- **Scan report cache.** `ScanPolicy` and, over runs of several replicas, `ScanSpec`.
- **Alerts.** The detectors with their loops and in-place sort (`AlertDetect`), what they mean
  (`AlertSpec`), and the cooldown over whole runs (`CooldownSpec`, `AlertRunner`).
- **Audit buffer.** The channel, worker, retries, flush and close as a transition system (`AuditBuffer`)
  and as the loops they are (`Auditor`).

What an operation computes is tied to a function of its inputs, and that function to the data itself: media
types and severities by name, digests by the hash they spell, references by the manifests an index lists,
results by the policies that were asked.

Calls into the world are parameters: the hash, JSON, layer unpacking, signatures, clocks, and what
each backend, registry, scanner, store or notifier answers. The registry is an append-only log of accepted
manifests. In `Protocol.dfy` some fields are history only: the ticket of the Claim that wrote each claim
entry and stamp, the pushes staged, issued, accepted and gated, and the cleanups.

## What turned out to be false, or other than documented

- Two workers can lose an accepted push. `fail` enqueues and then acks by push ID alone, so the ack can
  delete the claim of a worker that took the requeued copy in between (`TwoWorkersCanLose`). `LossExactly`
  gives the exact step; it is the only one.
- Ack's second delete can remove the stamp of a later claim, which no sweep then finds
  (`TwoWorkersCanStrand`). `StrandExactly` gives the exact step, and a run strands nothing exactly when it
  takes none (`ClaimsStayRecoverable`).
- A sweep can requeue a live claim, when the claim was written anew after the sweep read its stamp: by
  another sweep and a Claim (`TwoSweepsCanSteal`), or by an overdue worker that puts its job back and a Claim
  (`OneSweepCanSteal`). `StealsExactly` gives the exact step.
- A requeued job goes to the tail of the queue; the comment at internal/promote/worker.go:283-285 says head.
- A parked payload is said to be untracked (internal/promote/valkey.go:130-133). It is untracked exactly
  when the script could read no id from it (`WhatBecomesOfAPayload`). Any other one, with an empty push ID
  or not a job at all, is put back by the next sweep (`ParkedComesBackExactly`) and parked again, for ever
  (`KeyedParkedNeverDrains`); one that is not a job also ends the sweep that meets it early, which
  internal/promote/valkey.go:122-124 says parking prevents. A payload that is not JSON at all makes the
  script fail after its pop and is lost rather than parked.
- Retired jobs do not go to the dead list, as internal/promote/valkey.go:33-34 suggests: they are recorded
  in the audit store and dropped.
- A manifest that lists one layer twice releases it twice after one upload counted it once, and can delete
  another push's blob (`LayerListedTwice`).
- A cleanup can delete a blob that another push holds when it overlaps that push's completion: the delete
  comes after a new count (`DeletesTooLate`), or a whole release falls between the completion's store and its
  count (`CountsTooLate`), so making the release atomic would not help. `BreaksExactly` gives the exact
  steps; without such an overlap, and without a double listing, every held blob stays (`HeldBlobsStay`).
- A counter whose expiry could not be set outlives everything until an increment or its last release
  (`ImmortalExactly`, `NoImmortalKeys`).
- Two policies under one name can reject an image while the audit row names no policy
  (`SharedNameHidesARejection`).
- With a factor of one or less, which the configuration accepts, a steady error rate alerts as a step change
  (`SteadyRateIsQuiet`).
- A notification table that keeps milliseconds lets a finding come back up to one millisecond before its
  cooldown is over (`EarlyByWhatWasRoundedOff`).
- Advancing an unknown upload is an error in process and out of order on Valkey
  (internal/staging/memory.go:83-86, internal/staging/valkey.go:63-79).

## Model

| member | source | states |
|---|---|---|
| Valkey.ValkeyQueue.Enqueue | internal/promote/valkey.go:84-93 | a job goes to the tail of pending exactly when the server applied the push, whether or not the reply arrived |
| Valkey.ValkeyQueue.Claim | internal/promote/valkey.go:99-138 | pops, stamps and returns in one step, a lost reply and a failed park included; a payload without a usable push ID is parked on the dead list, one that is not JSON is lost |
| Valkey.WhatBecomesOfAPayload | internal/promote/valkey.go:99-138 | for every payload: handed out, parked or gone; parked, it leaves a claim entry that a sweep puts back iff the script could read an id from it |
| Valkey.KeyedAndParked | internal/promote/valkey.go:122-136 | the id a payload is keyed by, an empty push ID included, and that only a job with a push ID is not parked |
| Valkey.ValkeyQueue.Ack | internal/promote/valkey.go:143-151 | two deletes keyed by the push ID alone, the second not tried when the first fails; either may be applied although it failed |
| Valkey.ValkeyQueue.Depth | internal/promote/valkey.go:156-162 | counts pending only; no number when the command fails |
| Valkey.ValkeyQueue.RunRequeueScript | internal/promote/valkey.go:167-174 | one claim back to the head of pending, its stamp cleared even when there is no payload |
| Valkey.ValkeyQueue.Recover | internal/promote/valkey.go:176-205 | the sweep requeues exactly the ids whose stamps are at or before the cutoff or unreadable, each once, in hash order; it stops early only at a failed read, a failed script call or a payload that does not parse, with what was requeued by then |
| Valkey.RequeueAllMoves | internal/promote/valkey.go:167-205 | a whole sweep moves exactly those claims to the front of pending, last requeued first, and leaves every other claim, stamp and pending job as it was |
| Valkey.ExpiredMeans | internal/promote/valkey.go:176-191 | a sweep takes the stamps at or before the cutoff and the unreadable ones, and nothing inside the window |
| Valkey.FirstInFirstOut | internal/promote/valkey.go:84-138 | while no sweep puts anything back, jobs are handed out in the order they were enqueued |
| MemoryQueue.InProcessQueue.Claim | internal/promote/memory.go:37-49 | pops the oldest job and records it claimed at the present time |
| MemoryQueue.InProcessQueue.Enqueue | internal/promote/memory.go:30-35 | appends |
| MemoryQueue.InProcessQueue.Ack | internal/promote/memory.go:51-56 | drops the claim of that push ID |
| MemoryQueue.InProcessQueue.Recover | internal/promote/memory.go:64-80 | prepends exactly the claims at or before the cutoff and keeps the rest |
| QueueRefinement.CallsKeepWellFormed | internal/promote/valkey.go:99-205 | every command, an Ack cut off between its deletes included, keeps the claimed keys among the stamp keys |
| QueueRefinement.CallSimulates | internal/promote/valkey.go:84-205 | one command on the Valkey queue is the same call on the in-process queue, with the same answer |
| QueueRefinement.SweepSimulates | internal/promote/memory.go:64-80 | the two sweeps agree for every hash order, stamps without claims included |
| QueueRefinement.RunSimulates | internal/promote/memory.go:30-80 | every run of the Valkey queue on jobs with push IDs is answer for answer a run of the in-process queue |
| QueueRefinement.ParkedComesBackExactly | internal/promote/valkey.go:122-136 | a parked payload is back in pending after the next sweep that finds it iff the script could read an id from it |
| QueueRefinement.KeyedParkedNeverDrains | internal/promote/valkey.go:122-136 | every such payload goes round for ever: each Claim parks it, each sweep puts it back, the dead list grows by one |
| QueueRefinement.EmptyPushIdNeverDrains | internal/promote/valkey.go:130-136 | in particular a job with an empty push ID, which is said to be untracked |
| WorkerSettings.Settings.Budget | internal/promote/worker.go:85-90 | the configured budget, or three when it is zero; never zero, and it fits the counter |
| WorkerSettings.Settings.Window | internal/promote/worker.go:109-114 | whatever is configured the recovery window is positive, and a configured one is the one used |
| WorkerSettings.Settings.SweepEvery | internal/promote/worker.go:125-130 | the cadence is positive, never longer than the window, and the configured duration when there is one |
| WorkerSettings.Settings.Unset | internal/promote/worker.go:76-82 | zero and negative alike: a window of fifteen minutes, looked at every minute |
| Manifests.ClassifyManifest | internal/ingress/docker/classify.go:63-84 | the loop decides by media type, written out: index by its list or one of two types, attestation only if there are layers and every one is in-toto, else image; rejected only when the body does not parse |
| Manifests.KindsByMediaType | internal/ingress/docker/classify.go:41-62 | each kind exactly, by the media types themselves |
| ProtocolSafety.SoundStep | internal/promote/worker.go:200-327 | one step of any handler or worker keeps the provenance of every copy and its attempt bound |
| ProtocolSafety.AttemptBound | internal/promote/worker.go:85-90 | in every reachable state, any number of workers: queued and claimed jobs have attempts left and the counter never wraps |
| ProtocolSafety.QueuedIsGated | internal/ingress/docker/manifest.go:289-297 | whatever is pending is the job a handler issued, and its manifest passed the gate |
| ProtocolPublication.RegistryStep | internal/ingress/docker/manifest.go:31-87 | no step admits an ungated image or an index whose references are absent |
| ProtocolPublication.AdmittedIsSafe | internal/acr/push.go:99-103 | nothing ungated is reachable from an entry, by induction on the order of insertion |
| ProtocolPublication.PublicationSafety | internal/ingress/docker/manifest.go:216-297 | over every interleaving with retries, sweeps and crashes: any entry that is no index by its list or type and has a layer that is not in-toto, or none, passed the gate, and each manifest an entry lists is the digest of an older entry, all of which are safe in the same way |
| ProtocolPublication.OnlyPassingGates | internal/ingress/docker/manifest.go:265-275 | a manifest is marked as gated by a push of it that passes, and by nothing else |
| ProtocolPublication.GatedExactly | internal/ingress/docker/manifest.go:265-275 | over every run the marked manifests are exactly those of the pushes that passed in it |
| Protocol.ResolvesMeans | internal/acr/push.go:99-103 | the registry's check on the manifest itself: each listed manifest, first to last, is the digest of something there |
| ProtocolNoLoss.LossExactly | internal/promote/worker.go:307-315 | in every reachable state: a held push is lost by a step if and only if it is the ack of a requeued job whose claim another worker rewrote and whose copy is already taken |
| ProtocolNoLoss.NoLoss | internal/promote/worker.go:200-327 | any workers, crashes and failed commands: every push answered 201 is published, recorded abandoned, pending or claimed, in runs where no Ack removes another Claim's entry |
| ProtocolNoLoss.LossInAnyRun | internal/promote/worker.go:313-315 | and in every run whatsoever that foreign Ack is the only step that can lose one |
| ProtocolNoLoss.NoLossExactly | internal/promote/worker.go:200-327 | over every run: every push answered 201 is held at every moment iff no Ack of the run drops the last copy of one |
| ProtocolNoLoss.StrandExactly | internal/promote/valkey.go:143-151 | a stamped claim is left without its stamp by a step iff that step is Ack's second delete on its id, and that stamp is then another Claim's |
| ProtocolNoLoss.StrandInAnyRun | internal/promote/valkey.go:143-151 | after every run a step strands a claim iff it is that delete while the claim stands |
| ProtocolNoLoss.ClaimsStayRecoverable | internal/promote/valkey.go:140-151 | over every run, crashes between Ack's deletes included: every claim has a stamp a sweep can find at every moment iff the run takes no such step |
| ProtocolNoLoss.OneWorkerNeverLoses | internal/promote/worker.go:182-199 | with one worker, restarts included, neither condition is needed |
| ProtocolTraces.TwoWorkersCanLose | internal/promote/worker.go:307-315 | for every configuration with a retry: a run of two workers that loses an accepted push |
| ProtocolTraces.TwoWorkersCanStrand | internal/promote/valkey.go:147-149 | a run in which Ack's second delete removes a later claim's stamp and no sweep can find that claim |
| ProtocolTraces.TwoSweepsCanSteal | internal/promote/valkey.go:176-191 | a run in which a sweep holding an old reading requeues a claim that another sweep and a Claim made live |
| ProtocolTraces.OneSweepCanSteal | internal/promote/valkey.go:176-191 | the same with one sweep: an overdue worker puts its job back and acks, and a Claim takes it afresh |
| ProtocolOwnership.SweepsSpareLiveClaims | internal/promote/worker.go:99-114 | for any configured window, the claim a sweep is about to requeue is inside its window iff it was written since the sweep read the stamps, less than a window ago |
| ProtocolOwnership.StealsExactly | internal/promote/valkey.go:176-191 | after every run, a step takes a live claim back iff it is a sweep of an expired reading over a claim written since |
| ProtocolOwnership.SingleOwnership | internal/ingress/docker/manifest.go:256-275 | in calm runs each assembled push has exactly one of: its handler, one pending copy, one worker, one finished cleanup |
| ProtocolOwnership.ReleasedOnceByItsOwner | internal/ingress/docker/manifest.go:269-275 | Cleanup happens at most once, by the handler iff the push was not handed off, and only when no other copy is left |
| HandleSpec.HandleOrder | internal/promote/worker.go:182-247 | Ack before Cleanup, outcome or re-enqueue before Ack, a push that will be retried keeps its bytes, and exactly when it is given up |
| HandleSpec.FailOrder | internal/promote/worker.go:283-327 | terminal or spent: retired; otherwise put back before its claim is dropped |
| HandleSpec.HandleFollowsTheWorld | internal/promote/worker.go:200-270 | read off the world: what is pushed, from where, with one attempt more; what is recorded, put back and cleaned up is that same job, a rebuilt layout where Localize put it; and what decides the ending |
| HandleSpec.HandleCloses | internal/promote/worker.go:200-327 | a handle touches its own push alone and ends it exactly once: recorded or put back |
| PromoteWorker.Worker.Handle | internal/promote/worker.go:200-247 | the outside effects of one job, in order, and what they leave in the queue, commands applied although they failed included |
| PromoteWorker.Worker.MakeLocal | internal/promote/worker.go:256-270 | the layout is here, rebuilt here under new paths, or the job has been failed |
| PromoteWorker.Worker.Fail | internal/promote/worker.go:295-316 | retire on a terminal cause or a spent budget, else enqueue then ack, and no ack when the enqueue fails |
| PromoteWorker.Worker.Retire | internal/promote/worker.go:320-327 | records, acks and cleans up, in that order |
| PromoteWorker.Worker.Iterate | internal/promote/worker.go:138-167 | one turn of the loop: a sweep iff one is due, then at most one job claimed, and the claimed one handled |
| PromoteWorker.Worker.Run | internal/promote/worker.go:138-180 | every job a turn is handed is brought to its end in that turn, after its sweep and with nothing done for another push; sweeps at once, then never sooner than the cadence, always with the window; and without faults the turns are those of the drain, the first included |
| PromoteWorker.RunDrains | internal/promote/worker.go:138-167 | over n faultless turns: the log but for sweeps is that of the first n turns of the drain, and nothing is left once there are enough turns |
| PromoteWorker.Worker.Drain | internal/promote/worker.go:138-167 | without faults the loop empties the queue, turn by turn and effect by effect as specified |
| DrainSpec.VerdictOnLog | internal/promote/worker.go:200-327 | a turn's verdict is what its effects say: released iff settled, published iff a push worked, put back iff retried |
| DrainSpec.DrainCounts | internal/promote/worker.go:295-327 | each entry settles exactly once; an always-failing push is worked exactly budget minus attempts times and every entry of it ends abandoned, one that settles at once is worked exactly once |
| DrainSpec.DrainTotal | internal/promote/worker.go:295-327 | at most the sum of max(1, budget - attempts) handles in all |
| HandleRefinement.HandleIsARun | internal/promote/worker.go:200-327 | uninterrupted protocol steps of a worker leave queue, registry, records and cleanups exactly as one call of handle does |
| PolicyEngine.Engine.Run | internal/policy/engine.go:23-59 | every policy is evaluated, whatever the others answer: passed iff each ran and passed, no error iff each ran, and every finding of every one that ran, in order |
| PolicyEngine.EveryFindingIsKept | internal/policy/engine.go:45-46 | the findings of the result are those of all policies that ran, in the engine's order |
| PolicyEngine.LastDatabase | internal/policy/engine.go:47-49 | the scanner database of the result is the last one reported |
| PolicyEngine.LastAge | internal/policy/engine.go:50-52 | and so is the age |
| PolicyEngine.NothingIsDropped | internal/policy/engine.go:28-44 | unenforced reasons are exactly those of passing verdicts, errors exactly those of policies that could not run |
| PolicyEngine.WhatTheResultMeans | internal/policy/engine.go:19-59 | passed iff every policy ran and passed; each name keeps its last verdict; unenforced findings iff a passing policy reported some |
| PolicyEngine.ErrorsBlock | internal/policy/engine.go:28-33 | no error list iff all ran, and an error always blocks |
| PolicyEngine.RejectionsAreNamed | internal/policy/engine.go:35-37 | the verdict map names exactly the rejecting policies iff each name that rejected also rejected last; distinct names suffice |
| PolicyEngine.SharedNameHidesARejection | internal/policy/engine.go:35 | counterexample with one name used twice: rejected, and no rejection named |
| GateSpec.PublishedOnlyIfAllPassed | internal/ingress/docker/outcome.go:113-147 | publish is reached iff a slot was granted and every policy ran and passed; 201 iff publish also worked |
| GateSpec.HandlerIsACourse | internal/ingress/docker/manifest.go:265-297 | the handler's course is a course of the protocol: gated iff all passed, accepted iff handed off, released by the handler iff not |
| GateHandler.Outcome.Apply | internal/ingress/docker/outcome.go:95-148 | 503, 500, 400, 502 or 201 by what came first, at most one publish, exactly one row when recording, passed iff 201 and infra error iff 500, 502 or 503, one ID for row and report |
| GateHandler.Outcome.RecordDecision | internal/ingress/docker/outcome.go:186-234 | the row names each rejecting policy once, with its reasons and whatever went unenforced, the scanner database, the duration and the image's age; the findings are recorded beside it |
| GateHandler.RowNamesTheRejections | internal/ingress/docker/outcome.go:191-199 | with distinct policy names the failed policies of a row are exactly the policies that rejected |
| GateHandler.RowGivesTheReasons | internal/ingress/docker/outcome.go:191-205 | its reasons are exactly those of the rejecting verdicts and whatever went unenforced |
| GateHandler.ClampU16 | internal/ingress/docker/outcome.go:250-258 | the day counts of a row saturate |
| GateHandler.Publication.Run | internal/ingress/docker/manifest.go:587-600 | handed off exactly when the enqueue returned no error |
| GateHandler.AuditFinalizer.FinalizePromotion | internal/promote/promote.go:85-101 | an abandoned promotion, and only that, appends an infra-error row under the push's own ID |
| GateHandler.Handler.BacklogFull | internal/ingress/docker/handler.go:70-84 | sheds only with a bound, a promoter that tells its depth, and a depth read at or over the bound |
| GateHandler.Handler.HandleImage | internal/ingress/docker/manifest.go:241-297 | on every path: what is answered, read off the policies themselves, and what is queued, published, recorded and cleaned up |
| IndexForward.Registry.AwaitIndexReferences | internal/ingress/docker/manifest.go:136-162 | at most ceil(wait/poll) retries, only after a missing reference, nil iff some retry it reaches finds everything there |
| IndexForward.RetriesBounded | internal/ingress/docker/manifest.go:141-153 | the deadline allows no further attempt |
| IndexForward.PutExactly | internal/acr/push.go:99-103 | a registry that answers takes a manifest iff every manifest it lists is the digest of an entry, and otherwise reports a missing reference |
| IndexForward.RejectedImageIsNeverReferenced | internal/ingress/docker/manifest.go:132-135 | if any listed manifest is not there and never arrives, no retry is accepted however long the wait |
| IndexForward.ArrivesInTime | internal/ingress/docker/manifest.go:141-162 | and if all of them have arrived by a retry the wait leaves time for, the index is accepted by then |
| IndexForward.WaitOf | internal/ingress/docker/manifest.go:106-111 | the configured wait, or ninety seconds |
| IndexForward.PollOf | internal/ingress/docker/manifest.go:113-118 | the configured gap, or half a second |
| IndexForward.Forwarder.Forward | internal/ingress/docker/manifest.go:31-87 | answers 201 iff it published: an index only with every manifest it lists there, at once if they are and else iff they arrive in time; an attestation iff its config and layers verify and are taken; aliases only then |
| IndexForward.BlobsAre | internal/ingress/docker/manifest.go:183-202 | the blobs of an attestation are its config, if it names one, and every layer |
| IndexForward.AliasesAre | internal/ingress/docker/manifest.go:69-83 | an alias for every listed manifest with a digest, and none besides |
| IndexForward.Forwarder.SeedBlobs | internal/ingress/docker/manifest.go:183-202 | succeeds iff every blob is there, verifies and is taken; each is then in the registry under a digest that names its hash |
| Digests.KeysNeverCollide | internal/staging/staging.go:48-49 | no upload ID and digest are ever written as one key |
| Digests.VerifiedNamesDiffer | internal/staging/assemble.go:184-195 | digests that verify keep their own file names in a layout |
| Digests.MatchesMeans | internal/staging/digest.go:12-27 | bytes are accepted under exactly the digests "sha256:" and, in any letter case, their hash |
| Digests.LowerIs | internal/staging/digest.go:17-17 | lower case letter by letter, nothing else touched |
| Staging.MemorySessions.CompareAndSetOffset | internal/staging/memory.go:80-92 | error, refusal or advance by the stored offset alone |
| Staging.MemorySessions.DecBlobRef | internal/staging/memory.go:129-142 | a missing counter is unknown, not zero |
| Staging.MemorySessions.AllComplete | internal/staging/memory.go:101-110 | true iff every digest is flagged |
| Staging.Store.WriteChunk | internal/staging/staging.go:56-88 | compare-and-set, then append; each backend call free to fail, applied or not |
| Staging.Store.CompleteBlob | internal/staging/staging.go:90-131 | no error iff what is staged plus the last chunk hashes to the digest, written out, and the calls work; stored, flagged and counted then; verify, store, flag, count, retire, stopping where a call fails |
| Staging.Store.AbandonUpload | internal/staging/staging.go:138-144 | drops bytes and offset, tries both, and reports the failure of the second |
| Staging.Store.PutManifest | internal/staging/staging.go:157-170 | accepted iff the lookup works and the config, if there is one, and every layer are complete |
| Staging.Store.FetchVerified | internal/staging/assemble.go:104-118 | bytes that do not hash to the digest are never returned, a read cut short included |
| StagingSpec.FetchMeans | internal/staging/assemble.go:104-118 | the bytes under the digest iff they are there, were read to the end and hash to it, and which error otherwise |
| Staging.Store.Assemble | internal/staging/assemble.go:30-99 | succeeds iff directories, files and index could be written and config and layers are there, verify and unpack; writes exactly them and the manifest |
| Staging.Store.Cleanup | internal/staging/assemble.go:247-270 | releases each listed digest in order, leaking on an unknown count, and removes the scratch directory last, whose error it returns |
| StagingRuns.ContentAddressed | internal/staging/staging.go:90-131 | whatever fails, applied or not, in any order: every value ever put under a blob key passes the digest check of its key |
| StagingRuns.BlobsAreTheirDigests | internal/staging/staging.go:90-131 | that is, each blob key is "sha256:" and, in some letter case, the hash of its value |
| StagingRuns.LayoutVerified | internal/staging/assemble.go:58-94 | the assembled layout holds, under the hex of the config's and of every layer's digest, bytes with that hash, even if the backend was altered, and its index points at the manifest's own bytes |
| StagingRuns.AssemblesWhatIsThere | internal/staging/assemble.go:30-99 | conversely, with everything there under its own hash and nothing failing the image is assembled |
| StagingRuns.UploadStep | internal/staging/staging.go:56-144 | one operation is one operation on the client's view with the same answer; refusals change nothing |
| StagingRuns.CompleteStep | internal/staging/staging.go:104-130 | completes iff everything staged plus the last chunk hashes to the digest, stores that, and retires the upload |
| StagingRuns.CompleteOrder | internal/staging/staging.go:108-130 | whatever fails: flagged only once stored under its hash, counted only once flagged, and after an error the client still has its upload |
| StagingRuns.UploadsRefined | internal/staging/staging.go:51-144 | over whole runs offsets are lengths and all answers are those of the client's view |
| StagingRuns.UploadIsConcatenation | internal/staging/staging.go:69-78 | an open upload is the concatenation of its accepted chunks, whatever else happens |
| StagingRuns.FromEmpty | internal/staging/staging.go:37-144 | from an empty store: every blob is its digest after every run, and uploads are the client's view of them |
| StagingRuns.CleanupCounts | internal/staging/assemble.go:247-268 | for every list of digests a blob is left iff it is held more often than listed |
| StagingRuns.CleanupGivesBack | internal/staging/assemble.go:247-251 | a push gives back each layer as often as its manifest lists it and a config once; the blob goes iff nothing is left |
| StagingRuns.LeaksOnUnknownCount | internal/staging/assemble.go:257-266 | a blob is deleted only on a count that was read and has run out |
| StagingRuns.CleanupSparesOthers | internal/staging/assemble.go:252-260 | others' blobs survive iff none is listed as often as everyone together holds it |
| StagingRuns.LayerListedTwice | internal/staging/assemble.go:248-267 | counterexample: a layer listed twice after one upload deletes another push's blob |
| StagingRuns.HoldsKeepBlobs | internal/staging/staging.go:118-123 | over runs of fair cleanups a counter is the number of holds, and what a push holds is there |
| StagingRuns.DeleteAfterSomeoneCompletes | internal/staging/assemble.go:261-267 | one instance on whole operations: a completion between decrement and delete leaves a counted blob deleted; the exact condition is in StagingRaces |
| StagingRaces.BreaksExactly | internal/staging/assemble.go:247-268 | in every state of any interleaving of calls: a step leaves a digest counted and without its blob iff it deletes a blob counted again since the decrement, or counts a blob deleted since it was stored |
| StagingRaces.WholeExactly | internal/staging/staging.go:118-123 | over every run a digest is whole at every moment iff no such step is taken |
| StagingRaces.HeldBlobsStay | internal/staging/staging.go:118-123 | any number of completions and of cleanups that release only what is held, failing calls and crashes: what a push holds is there and counted, unless a release of that digest overlaps a completion of it |
| StagingRaces.CompletionIsARun | internal/staging/staging.go:109-129 | a completion whose calls are not interleaved is the operation |
| StagingRaces.ReleaseIsARun | internal/staging/assemble.go:252-268 | and so is the release of one digest |
| StagingRaces.CleanupIsARun | internal/staging/assemble.go:247-268 | and a whole cleanup |
| StagingRaces.DeletesTooLate | internal/staging/assemble.go:261-267 | a run: decrement to zero, another push's completion, delete; held, counted once and gone |
| StagingRaces.CountsTooLate | internal/staging/staging.go:109-123 | a second run: a whole release between the store and the count of a completion ends the same |
| ValkeySessions.ValkeySessionStore.CompareAndSetOffset | internal/staging/valkey.go:59-79 | advances iff the live offset is the expected one and the call was applied, keeping its expiry; an error iff the call failed |
| ValkeySessions.ValkeySessionStore.DecBlobRef | internal/staging/valkey.go:133-167 | an absent or expired counter is unknown; zero deletes it; a failed call is an error, applied or not |
| ValkeySessions.ValkeySessionStore.IncBlobRef | internal/staging/valkey.go:124-131 | increments, then, if that worked, sets the expiry if it can |
| ValkeySessions.KeyNamesDiffer | internal/staging/valkey.go:52-53 | offset, flag and counter keys never coincide |
| ValkeySessions.OpsAgree | internal/staging/valkey.go:55-167 | one operation on both stores keeps them mirrors and gives the same answer; an unknown upload is an error in process and a refusal on Valkey |
| ValkeySessions.StoresAgree | internal/staging/valkey.go:55-167 | over every run in which nothing fails or expires, the same answers but for that one |
| ValkeySessions.ImmortalExactly | internal/staging/valkey.go:117-131 | an operation leaves a key without an expiry where it had one or was absent iff it increments an absent counter and does not set the expiry, and ends that iff it sets one or drops the last reference |
| ValkeySessions.ImmortalAtTheEnd | internal/staging/valkey.go:117-131 | over every run, the keys without an expiry at the end are exactly those so made and not ended since |
| ValkeySessions.NoImmortalKeys | internal/staging/valkey.go:59-131 | every key expires within a lifetime of the last call iff the run leaves no such counter |
| ValkeySessions.CounterWithoutExpiryStays | internal/staging/valkey.go:117-131 | one such counter, whether the expiry or the reply to the increment was lost: live at every later time |
| ScanPolicy.Policy.LookupReport | internal/policies/grype/reportcache.go:135-174 | every reason not to reuse is a miss |
| ScanPolicy.Policy.StoreReport | internal/policies/grype/reportcache.go:178-218 | what is written, for how long, and when nothing is |
| ScanPolicy.Policy.ScanOrReuse | internal/policies/grype/reportcache.go:106-120 | a scan unless an entry may be reused; failures are not cached |
| ScanPolicy.Policy.Evaluate | internal/policies/grype/grype.go:107-156 | the present threshold and mode applied to the report, reused or not: enforcing, rejected iff some severity is none of the six names or stands at or after the threshold in their list; findings and database handed on; error iff there is no report |
| ScanSpec.BlocksByName | internal/policies/grype/grype.go:70-75 | UNKNOWN, NEGLIGIBLE, LOW, MEDIUM, HIGH, CRITICAL, in any letter case, and an unknown severity always blocks |
| ScanSpec.CriticalAlwaysStops | internal/policies/grype/grype.go:73-75 | a CRITICAL finding stops an image at every threshold |
| ScanSpec.UpperIs | internal/policies/grype/grype.go:121-124 | upper case letter by letter, nothing else touched |
| ScanSpec.OneReasonEach | internal/policies/grype/grype.go:122-135 | one reason for each blocking finding, in order |
| ScanSpec.ObservedReasons | internal/policies/grype/grype.go:136-147 | each marked as not enforced when observing |
| ScanSpec.WhatTheVerdictMeans | internal/policies/grype/grype.go:121-155 | passes iff nothing at or above the threshold and nothing unrecognized, or observing; reasons iff something would block |
| ScanSpec.EarlierThresholdRejectsMore | internal/policies/grype/grype.go:73-75 | a threshold earlier in the list rejects whatever a later one does |
| ScanSpec.StricterRejectsMore | internal/policies/grype/grype.go:73-75 | the same on ranks, for a threshold that names no severity too |
| ScanSpec.ExpiryIsFreshness | internal/policies/grype/reportcache.go:210-218 | with one clock and window an entry is in the store exactly while its report is fresh |
| ScanSpec.StoresExactly | internal/policies/grype/reportcache.go:178-218 | stored iff there is a store, a digest, a build time inside the window and at most a megabyte to write; under its digest, until its database leaves the window |
| ScanSpec.StoredIsReusedWhileFresh | internal/policies/grype/reportcache.go:106-174 | such a report is reused iff its database is younger than the window |
| ScanSpec.CacheSoundness | internal/policies/grype/reportcache.go:106-218 | over every run, any replicas, clocks, failures and garbled entries: a reused report is a real scan of that digest with a database inside the reader's window |
| AlertDetect.NovelErrors | internal/alert/detect.go:79-130 | grouping, in-place stable sort and cap compute the specified list |
| AlertDetect.Group | internal/alert/detect.go:86-117 | each new signature in order of appearance, its rows merged |
| AlertDetect.SortLoudest | internal/alert/detect.go:125 | the in-place sort is the stable sort |
| AlertDetect.KilledScans | internal/alert/detect.go:172-207 | one finding iff the killed rows reach the threshold, over exactly those rows |
| AlertDetect.KilledRowsAre | internal/alert/detect.go:176-179 | the rows counted are exactly those whose detail shows a kill |
| AlertSpec.NovelErrorsExact | internal/alert/detect.go:73-123 | one finding per non-empty signature recent and not in the baseline, with count, first and last seen over exactly its rows |
| AlertSpec.WhatIsNovel | internal/alert/detect.go:73-123 | row by row: new iff in a recent row and in no baseline row; the count is the sum of its rows in 64 bits, the evidence its first row, first and last seen the extremes |
| AlertSpec.RowsKept | internal/alert/detect.go:96-117 | every row of a signature counts, as often as it came |
| AlertSpec.TotalIsSum | internal/alert/detect.go:110 | the 64-bit total is the sum, modulo the width |
| AlertSpec.EarliestBounds | internal/alert/detect.go:111-113 | first seen is the least of the rows, and attained |
| AlertSpec.LatestBounds | internal/alert/detect.go:114-116 | last seen is the greatest of the rows, and attained |
| AlertSpec.SortKeeps | internal/alert/detect.go:124-125 | a permutation, loudest first, equal counts in order |
| AlertSpec.StableSortIsUnique | internal/alert/detect.go:125 | any sort that does that gives the same list |
| AlertSpec.CapDropsTheQuietest | internal/alert/detect.go:126-129 | exactly the cap is kept when there are more, kept plus dropped is all, and nothing dropped is louder than anything kept |
| AlertSpec.KilledScansExactly | internal/alert/detect.go:172-207 | every killed row counts as often as it came, and a finding iff their 64-bit sum is not zero and reaches the threshold |
| AlertSpec.StepChangeExactly | internal/alert/detect.go:134-156 | on the counts themselves: alerts iff enough pushes, enough of them failed, and the baseline is clean or the share grew by the factor |
| AlertSpec.CleanBaselineAlerts | internal/alert/detect.go:142-146 | a clean baseline never silences a rate over the floor |
| AlertSpec.MoreErrorsStillAlert | internal/alert/detect.go:134-156 | monotone in the errors |
| AlertSpec.SteadyRateIsQuiet | internal/alert/detect.go:139-146 | none in a clean window, and none without a rise if the factor is above one; a steady rate alerts iff it is over the floors and the factor is one or less |
| AlertSpec.CooldownKeysDiffer | internal/alert/runner.go:35 | findings share a key only if detector and signature agree, whatever the signature contains |
| CooldownSpec.OneFindingPerKey | internal/alert/runner.go:191-198 | one evaluation never finds two things under one key |
| CooldownSpec.DefaultsOnlyFillIn | internal/alert/runner.go:75-107 | the defaults make any configuration usable and change only what is not |
| CooldownSpec.EachFieldOnItsOwn | internal/alert/runner.go:75-107 | field by field, a usable value is kept whatever the others are |
| CooldownSpec.WhatIsFound | internal/alert/runner.go:165-198 | from the two windows named: novel iff recent and not in the baseline, up to the cap; the recent counts held against the baseline's; killed scans of the recent window |
| CooldownSpec.NothingWithoutAnswers | internal/alert/runner.go:171-186 | nothing is found unless all four queries were answered |
| CooldownSpec.TriedExactlyWhenDue | internal/alert/runner.go:208-229 | a finding is announced iff its cooldown is over; only a recorded delivery moves a timestamp |
| CooldownSpec.DeliveredIsSent | internal/alert/runner.go:208-229 | whatever is due and goes out is on record as sent, told apart by whether it was recorded |
| CooldownSpec.CooldownHolds | internal/alert/runner.go:41-46 | over whole runs two deliveries of one key are a cooldown apart after a recorded one, less exactly the remainder the table drops from the first time |
| CooldownSpec.EarlyByWhatWasRoundedOff | internal/alert/schema.sql:17 | a millisecond column does let a finding come that much early |
| AlertRunner.Runner.Evaluate | internal/alert/runner.go:165-198 | four queries over adjacent windows, any failure ends the evaluation |
| AlertRunner.Runner.RunOnce | internal/alert/runner.go:164-231 | table and deliveries after one run are those specified; nil iff every query worked, the load if there was anything, and the delivery and record of every finding out of its cooldown |
| AlertRunner.Cooldowns.RecordNotified | internal/alert/clickhouse.go:111-139 | a row is appended, never changed, and reads as the specified table |
| AlertRunner.Cooldowns.LastNotified | internal/alert/clickhouse.go:111-130 | the table read back from the rows |
| CooldownSpec.ReadsLatest | internal/alert/clickhouse.go:111-130 | a key reads as the greatest of its rows, and only keys with a row read at all |
| AuditBuffer.ConservedStep | internal/audit/buffer.go:50-119 | no step loses or duplicates a decision |
| AuditBuffer.AuditConservation | internal/audit/buffer.go:38-107 | at every moment recorded decisions are those written, reported lost, queued or in hand, each tried at most three times |
| AuditBuffer.FlushMeansProcessed | internal/audit/buffer.go:121-134 | a flush that returns by its marker waited for everything accepted before it |
| AuditBuffer.CloseMeansDrained | internal/audit/buffer.go:136-142 | after Close nothing is queued and every decision is accounted for |
| AuditBuffer.CloseReturns | internal/audit/buffer.go:50-81 | after Close the worker is never stuck and stops within a bound, however many writes fail |
| Auditor.Auditor.Record | internal/audit/buffer.go:101-107 | to a parked worker, into the buffer, or to onDrop; never waits |
| Auditor.Auditor.RecordTagAlias | internal/audit/buffer.go:111-119 | the same for aliases |
| Auditor.Auditor.WithRetry | internal/audit/buffer.go:84-98 | one of three attempts works or none does; stops at the first success or the third |
| Auditor.Auditor.Process | internal/audit/buffer.go:52-80 | what one job leaves with the store, onDrop and its marker |
| Auditor.Auditor.Drain | internal/audit/buffer.go:50-81 | settles what is left in the order it was accepted |
| Auditor.DrainAccounts | internal/audit/buffer.go:65-79 | every drained decision is acknowledged or reported, and once more if its findings alone are lost |
| Auditor.ProcessIsARun | internal/audit/buffer.go:52-98 | the loop body with its retry loops is a run of the transition system with exactly those results |

## Left out

- HTTP routing, headers, tokens, tenants, path parsing and credentials: library calls and one-branch facts.
- ClickHouse statements, dashboards, Slack, metrics and log text: recorders and notifiers are logs.
- SHA-256, JSON, gzip, tar, regular expressions and file paths: parameters, with the round trip of the cached envelope assumed.
- Which tag a registry reference points at: the log of accepted manifests does not say which entry a tag resolves to.
- The registry's check of blobs: an attestation whose blobs were not seeded is refused by the world's answer, not by the model of the registry.
- Time spent inside a handle is bounded only by the condition of calm runs; sleeps and backoffs are part of what the world answers.
- The order in which the handler's row and an abandonment row reach the audit store; nothing is claimed about the last row.
- The base image of an audit row: a copied field.
- Report text, push summaries and the annotations of scan errors.
- The read-only branches of the audit store and the tag alias lookups built on them.
- Interleaving inside a chunk write, an abandoned upload or an assembly: these are atomic in the run theorems, with one writer per upload as the source assumes. Completions and cleanups interleave call by call in `StagingRaces`.
- Digest completion flags are not part of the reference count theorem; they expire, which fails a push and never a count.
- QueueRefinement.RunSimulates: for jobs with push IDs, as Enqueue is given; payloads of other shapes are covered by the class `ValkeyQueue` only.
- ProtocolOwnership.SingleOwnership: for runs without crashes, lost replies or failed acks and with every handle inside the window; outside them a push can have two copies by design.
- ProtocolNoLoss.NoLoss: under a condition a run can be read for; `LossExactly` and `NoLossExactly` are the exact statements.
- StagingRaces.HeldBlobsStay: under a condition that is sufficient and easy to see; `BreaksExactly` and `WholeExactly` are the exact statements.
- ScanPolicy.Policy.Evaluate: severities and thresholds are upper-cased in ASCII only.
- AlertSpec.MoreErrorsStillAlert: rates are real numbers, not 64-bit floats.
- AlertSpec.SteadyRateIsQuiet: rates are real numbers, not 64-bit floats.
- AlertDetect.SortLoudest: an insertion sort in place of the library's stable sort; `StableSortIsUnique` shows that the algorithm does not matter.
- Auditor.Auditor.SendMarker: the send of a flush, once there is room; waiting for room and for the marker, and giving up on either, are the caller's.
- ScanSpec.ExpiryIsFreshness: with the store's clock and the policy's one and the same; otherwise the read-side test decides, as in `CacheSoundness`.
- ScanSpec.CacheSoundness: the store may fail, lose, expire and garble entries, but does not itself make up a readable report.
