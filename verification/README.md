# Polar Express in Dafny

A model of the backup pipeline of Polar Express, with proofs of what its protocols and data formats are
for. `dafny verify dfyconfig.toml` checks everything.

Snapshots of files flow through three pools of state machines (snapshot, bundle, upload). Bundle machines
drop, check, compress and pack chunks into TAR files, whose tree hash and server id go with them to the
server. Each component has a value-level model (functions from state to state, with lemmas over all runs)
and, where the program changes objects in place, classes whose methods do exactly the model's steps.

| component | files |
|---|---|
| shared vocabulary and sums | `Common.dfy` |
| pool chain with back-pressure | `PoolModel.dfy`, `PoolProofs.dfy`, `PoolTheorems.dfy`, `PoolTermination.dfy`, `PoolLoss.dfy`, `PoolMoves.dfy`, `Pools.dfy` |
| executor and scan buffer over the chain | `ScanModel.dfy`, `ScanBuffer.dfy` |
| the pools' strand, and runs in its order | `StrandOrder.dfy`, `StrandRuns.dfy`, `PoolRuns.dfy`, `LedgerCharges.dfy`, `ScanRuns.dfy` |
| event queue of the state machines | `EventLoop.dfy` |
| bundle state machine | `BundleModel.dfy`, `BundleProofs.dfy`, `BundleTheorems.dfy`, `BundleInStep.dfy`, `BundleRestore.dfy`, `BundleStateMachines.dfy` |
| pool chain together with bundle machines | `PoolWithMachines.dfy` |
| TAR writer and reader | `TarFormat.dfy`, `TarHeader.dfy`, `BundleWriter.dfy`, `Bundles.dfy` |
| tree hash | `TreeHash.dfy` |
| upload state machine | `UploadModel.dfy`, `UploadProofs.dfy`, `UploadFailures.dfy`, `UploadStateMachines.dfy` |
| HTTP client and stream buffer | `HttpModel.dfy`, `HttpProofs.dfy`, `TerminatorSearch.dfy`, `HttpClient.dfy` |
| file chunks, HKDF, metadata tables | `FileChunks.dfy`, `Hkdf.dfy`, `MetadataDb.dfy` |

How to read it:

- A run is a list of steps; a step is one callback on a strand, one client call, or one service delivering its
  result. The theorems hold for every run, in every interleaving.
- An `assert` of the program that would fail, and an event without a transition, set `violated` in the models;
  in the classes they are preconditions, met because of the invariant, or ghost flags. Asserts that can fail have
  flags of their own (`full`, `vaultFailed`, `retryFailed`) and theorems that say exactly when they do.
- Posted callbacks run in any order in the models, so that the theorems hold for more runs than the program has: its
  strand runs callbacks in the order in which they came to it. `StrandOrder` models that queue, and every run that is
  given as an example of the pools or the executor is a run in this order.
- SHA-1, SHA-256, HMAC, the compressor, protobuf serialization and the parsing of response heads are function
  parameters. Laws they need are named predicates: `CompressorLaw` (all output up to the end decompresses to the
  concatenated inputs) and `IsHmac` (32 bytes).
- User and group ids, clocks, file sizes and contents, network bytes and errors are parameters or part of a step.

## Findings

Where the code does not do what its documentation or the rest of the code expects, the model follows the code.

- `IsCompletelyIdleAndNotExpectingMoreInput` returns `IsExpectingMoreInput()` un-negated
  (src/state_machines/state-machine-pool.h:274-280): when the last machine is given back with nothing waiting, it is
  terminated if and only if input is still expected (`TerminationIsReversed`, for every event), never after
  `NotifyInputFinished` (`NoTerminationAfterInputFinished`), which nothing in the repository calls. `TerminatesEarly`
  gives a run of every started executor on which the first file's bundle machine is terminated before a second file is
  found.
- A bundle can be lost between the bundle pool and the upload pool: `HandleBundleReady` ignores the result of
  `AddNewInput`, and a machine is continued without asking whether the upload pool has room for its next bundle. The
  assert before the hand-off asks for room of one only, so that it does not prevent the loss, and fails itself when the
  pool is full to the last byte. `BundleGetsThrough` and `RoomAssertFails` give the exact conditions. `ABundleIsLost` is
  a run with the program's constants: while three large files keep all three bundle machines at work, the first machine
  is continued after each of seven bundles. Snapshots cannot be lost (`SnapshotsConserved`).
- The weight charged to a bundle machine is computed after its activation, with whatever machine is then first in
  the idle queue, and so differs from the weight that was compared with the next pool's room
  (src/state_machines/persistent-state-machine-pool.h:217-231 and :353-362). `ChargedAsCompared` and `ActiveAsCompared`
  say exactly when the weights agree, in terms of what the first two idle machines owe; `WeightsDiffer` is a run on which
  13 MiB are compared, 12 charged and 18 then active. The ledger stays exact (`LedgerIsExact`).
- The HKDF loop counter has 8 bits: 255 blocks, which the assert before the loop admits, make it wrap and the inner
  assert fail (`Expand`).
- A block that occurs twice in one snapshot and was not recorded before gets two rows (`RecordedBlocks`).
- `previous_snapshot_id > 0` compares a pointer (src/services/metadata-db-impl.cc:430); the query for id -1 finds no
  row, so this does no harm.
- If the connection goes down between a successful upload and its inspection, the retry finds a bundle that already
  has a server id and its assert fails (`UploadedAndCutFails` from the start, `IncoherentUploadFails` from every
  reachable state of this kind; without such an inspection it holds, `RetryAssertHolds`). The slots and the wake-ups are
  right on these runs too (`BundlesAreKept`, `HandedBackOnlyWhenDone`, `NoBundleIsForgotten`).
- If the creation of the vault fails, the assert in `GetVaultDescription` fails when the vault is described again,
  at once or over the next connection (src/state_machines/upload-state-machine.cc:93-94 has a TODO about it);
  if the vault is not found after it was created, the assert in `CreateVault` fails. Exactly these two deliveries lead
  there (`VaultAssertsHold`, `VaultAssertsFail`); `RefusedVaultFails` is a run. No bundle is lost by it
  (`BundlesAreKept` holds on all runs).
- After a pass over the scan buffer (src/backup-executor.cc:114-147) a refused path may fit: `AddNewInput` starts machines during the pass. For two
  paths `RefusedThoughItFitsLater` says exactly when, `RefusedStayRefused` that it takes a machine that can be started
  before the pass, and `AFittingPathStaysBuffered` is a run on which it happens. It is not forgotten: starting a machine
  then asks for more input (`ScanNeverStalls`).
- When its match condition finds no terminator it gives back the end of the data (src/network/stream-connection.cc:363-369),
  so that Boost.Asio's search resumes there: a read completes if and only if the terminator lies wholly in one searched
  part (`CompletesExactly`). One that arrives cut in two is missed, wherever it is cut (`SplitTerminatorIsMissed`), and the
  read waits for another one.
- A user or group id of 8^7 and more does not fit its header field, and the assert on the written length fails
  (`PaddedFits`; src/file/tar-header-block.cc:46). `BundleWriter` speaks about owners that fit.
- With a block size of zero the chunking loop asks for the same block for ever (`LoopEnds`); the default is 1 MiB.
- bundle.h speaks of files "manifest" and "manifest.sha1_digest" and of an implicit first payload; the code writes
  "manifest.pbuf", "manifest_digest.sha1" and "payload_<N>.dat", and its assert demands a started payload.
- A payload whose size is a multiple of 512 is padded with a whole zero block, so a reader has to skip a lone zero
  block; the one in `TarFormat` does.

## Model

| member | source | states |
|---|---|---|
| PoolTheorems.NoLostWakeUp | src/state_machines/state-machine-pool.h:217-266 | After any run (before a flush or termination), while any of the three pools has pending input, some machine is at work or a try-run callback is posted |
| PoolTheorems.StepKeeps | src/state_machines/persistent-state-machine-pool.h:247-308 | Every event that can happen keeps the invariant: exact ledgers, reservations covered by free weight, pending input means active machine, posted try-run or blocked on the next pool, and none of the asserts failed but the one about the upload pool's room, which RoomAssertFails settles |
| PoolTheorems.InitialInv | src/backup-executor.cc:40-55 | The chain as the executor wires it starts in the invariant, if the three limits are positive, the bundle pool holds at least 1, and the maximum bundle size is at least 1 and at most what the upload pool holds; the option max_bundle_size_bytes could be set outside that |
| PoolTheorems.RunKeeps | src/state_machines/state-machine-pool.h:217-266 | The invariant holds after every run, that one assert set aside |
| PoolTheorems.SnapshotIsAccepted | src/state_machines/snapshot-state-machine-pool.cc:81-100 | Reservation safety: the bundle pool has room for everything running snapshot machines may produce, so the ignored result of AddNewInput is true |
| PoolTheorems.SnapshotsConserved | src/state_machines/snapshot-state-machine-pool.cc:81-100 | No snapshot is dropped: the bundle pool has accepted exactly the reported snapshots, once each and in order; those not started are its pending inputs |
| PoolTheorems.LedgerIsExact | src/state_machines/persistent-state-machine-pool.h:163-231 | Active weight is the sum of outstanding weights over active machines, running weight the sum over running ones, each bundle machine owes at least min(max bundle size, pending bytes); no assert has failed but possibly the one before a bundle is handed over |
| PoolTheorems.MachinesInStep | src/state_machines/bundle-state-machine-pool.cc:91-157 | Continueable machines are exactly those holding a bundle, active ones exactly those that will call back, every other machine is idle exactly once |
| PoolTheorems.BundleProduced | src/state_machines/persistent-state-machine-pool.h:163-215 | Both unsigned-subtraction asserts hold when a bundle machine reports output |
| PoolTheorems.ReservationFits | src/state_machines/snapshot-state-machine-pool.cc:43-49 | The weight reserved for a path covers the snapshot it becomes |
| PoolTermination.TerminationIsReversed | src/state_machines/state-machine-pool.h:274-280 | For every event that can happen: it requests a termination if and only if it is the timeout flush, or it gives back the last machine at work with nothing waiting anywhere before it and input is NOT yet finished: the reverse of the documented rule |
| PoolTermination.NoTerminationAfterInputFinished | src/state_machines/state-machine-pool.h:274-280 | In any state, once NotifyInputFinished was called no event but the timeout flush requests termination |
| PoolRuns.TerminatesEarly | src/state_machines/persistent-state-machine-pool.h:310-351 | Of every executor that is started, on a run in posting order: when the first file is done before a second one is found, its bundle machine is told to terminate although input is expected |
| PoolLoss.BundleGetsThrough | src/state_machines/bundle-state-machine-pool.cc:127-157 | Three cases for a reported bundle: its capped size fits the upload pool and it gets through; there is room but too little and it is lost; there is no room at all and the assert before the hand-off fails |
| PoolLoss.RoomAssertFails | src/state_machines/bundle-state-machine-pool.cc:146-149 | The assert that the upload pool can accept input fails at exactly those bundle reports that find it without room, and at no other event |
| PoolLoss.BundlesAccountedFor | src/state_machines/bundle-state-machine-pool.cc:127-157 | Over any run every reported bundle was either accepted by the upload pool or lost, once |
| PoolRuns.ABundleIsLost | src/state_machines/bundle-state-machine-pool.cc:127-157 | With the program's capacities and limits and bundles of more than 20 up to 25 MiB: a run in posting order from the start, with three large files, on which the seventh bundle of the first is lost; the asserts hold on it, except that the one about the room fails if and only if the four waiting bundles fill the pool exactly |
| StrandOrder.CallbacksCanRun | src/base/asio-dispatcher.cc:169-176 | In whatever order callbacks come to the strand, whatever waits on it can run when its turn comes and at any time before: a report of a machine or the scanner stays right until it is heard, and the posted callbacks that wait are as many as were posted |
| StrandOrder.OrderedRunsExecute | src/base/asio-dispatcher.cc:169-176 | Every run in posting order is a run of the executor, so that what holds on all of those holds on these |
| PoolMoves.ReportsStay | src/state_machines/bundle-state-machine-pool.cc:83-157 | What a machine can report it can still report after any step of the others: no event moves a snapshot, bundle or upload machine that is at work but its own report |
| LedgerCharges.ChargedAsCompared | src/state_machines/persistent-state-machine-pool.h:217-231 | For any ledger: the weight charged after the activation is the weight compared before it if and only if the first two idle machines owe the same, or either makes up the cap |
| LedgerCharges.ActiveAsCompared | src/state_machines/persistent-state-machine-pool.h:353-362 | For any ledger: the active weight after an input was fed, and exactly when the comparison had foreseen it |
| LedgerCharges.WeightsDiffer | src/state_machines/persistent-state-machine-pool.h:353-362 | A run in posting order from the start with the program's limits: 13 MiB are compared for the third file, 12 are charged, and 18 are active then |
| PoolWithMachines.PoolAndMachinesAgree | src/state_machines/bundle-state-machine-pool.cc:83-157 | The pools run together with the bundle machines themselves: every such run is a run of the chain and of each machine; continueable machines hold a bundle and have as many bytes pending as the pool thinks, idle ones hold no snapshot |
| PoolWithMachines.ReportsAreAllowed | src/state_machines/bundle-state-machine-pool.cc:104-157 | What the chain assumes of machines' reports is what the machines do, and the calls the pool answers with are ones the machines allow |
| PoolMoves.EventMoves | src/state_machines/bundle-state-machine-pool.cc:91-157 | Each event leaves a bundle machine alone, continues it with its pending bytes, or feeds it the snapshot started last |
| Pools.StateMachinePool.Push | src/state_machines/state-machine-pool.h:218-229 | Queues input and weight, and remembers it as accepted |
| Pools.StateMachinePool.PopNextInput | src/state_machines/state-machine-pool.h:293-306 | Takes the oldest input and its weight off, or nothing |
| Pools.PersistentStateMachinePool.OutputWeightToBeAddedByInput | src/state_machines/persistent-state-machine-pool.h:217-231 | Own weight plus what the first idle machine still owes, capped |
| Pools.PersistentStateMachinePool.TryActivateStateMachine | src/state_machines/persistent-state-machine-pool.h:276-308 | First idle machine, else a new one below the limit; its outstanding weight becomes active |
| Pools.PersistentStateMachinePool.StateMachineProducedOutput | src/state_machines/persistent-state-machine-pool.h:163-215 | The outstanding weight drops to what remains; active weight drops by the difference |
| Pools.PersistentStateMachinePool.Deactivate | src/state_machines/persistent-state-machine-pool.h:310-336 | The machine leaves the active set and its weight the active weight |
| Pools.SnapshotStateMachinePool.TryRunNextStateMachine | src/state_machines/state-machine-pool.h:231-266 | Does exactly the model step TryRunS on the whole chain, kick included |
| Pools.SnapshotStateMachinePool.TryRunNextStateMachineInternal | src/state_machines/one-shot-state-machine-pool.h:118-143 | Starts a machine on the next path and charges its reservation, below the limit |
| Pools.SnapshotStateMachinePool.AddNewInput | src/state_machines/state-machine-pool.h:217-229 | Does exactly the model step for a new path and says whether it was accepted |
| Pools.SnapshotStateMachinePool.RunInputOnStateMachine | src/state_machines/snapshot-state-machine-pool.cc:67-79 | Posts the need-more-input callback exactly if more is expected and less than half of what the pool holds is waiting |
| Pools.SnapshotStateMachinePool.DeleteStateMachine | src/state_machines/one-shot-state-machine-pool.h:152-166 | Gives the reservation back, counts down and posts a try-run: the model step DeleteS, its assert included |
| Pools.SnapshotStateMachinePool.HandleStateMachineFinished | src/state_machines/one-shot-state-machine-pool.h:145-150 | Hands the snapshot on, then deletes the machine: the model step FinishS |
| Pools.BundleStateMachinePool.TryContinue | src/state_machines/bundle-state-machine-pool.cc:91-102 | Continues a machine that holds a bundle, and no other |
| Pools.BundleStateMachinePool.TryRunNextInput | src/state_machines/persistent-state-machine-pool.h:353-381 | Feeds the next input and charges its weight, or gives the machine back |
| Pools.BundleStateMachinePool.TryRunNextStateMachine | src/state_machines/state-machine-pool.h:231-266 | Does exactly the model step TryRunB on the whole chain |
| Pools.BundleStateMachinePool.AddNewInput | src/state_machines/state-machine-pool.h:217-229 | Does exactly the model step AddB and says whether the snapshot was accepted |
| Pools.BundleStateMachinePool.DeactivateStateMachine | src/state_machines/persistent-state-machine-pool.h:310-351 | Does exactly the model step DeactivateB, termination request included |
| Pools.BundleStateMachinePool.HandleSnapshotDone | src/state_machines/bundle-state-machine-pool.cc:104-125 | Does exactly the model step for a finished snapshot, timeout flush included |
| Pools.BundleStateMachinePool.HandOver | src/state_machines/bundle-state-machine-pool.cc:140-151 | Notes whether the assert about the upload pool's room fails, and adds the bundle there or loses it |
| Pools.BundleStateMachinePool.HandleBundleReady | src/state_machines/bundle-state-machine-pool.cc:127-157 | Does exactly the model step for a reported bundle: ledger, room assert, hand-over, continueable, deactivation, try-run |
| Pools.UploadStateMachinePool.TryRunNextStateMachine | src/state_machines/state-machine-pool.h:231-266 | Does exactly the model step TryRunU on the whole chain |
| Pools.UploadStateMachinePool.AddNewInput | src/state_machines/state-machine-pool.h:217-229 | Does exactly the model step AddU and says whether the bundle was accepted |
| Pools.UploadStateMachinePool.HandleBundleUploaded | src/state_machines/upload-state-machine-pool.cc:73-96 | Does exactly the model step for an uploaded bundle |
| Pools.CreatePools | src/backup-executor.cc:40-55 | The wired pools start in the initial state of the model |
| EventLoop.StepKeeps | src/state_machines/state-machine.h:258-317 | One posted task for each queued event, and the counter is the callbacks not yet invoked plus those whose task has not run |
| EventLoop.EventsRunOnceInOrder | src/state_machines/state-machine.h:277-317 | Over any run, the events posted are the events run followed by those queued: each runs once, in posting order |
| EventLoop.DoneMeansQuiet | src/state_machines/state-machine.h:293-300 | The done callback fires if and only if no task, event or callback is left and the machine is not idle |
| EventLoop.TaskFindsItsEvent | src/state_machines/state-machine.h:278-291 | A task always finds its event, and the counter is positive when an external one runs |
| EventLoop.EventQueue.PostEventCallback | src/state_machines/state-machine.h:310-317 | Queues the event and posts one task |
| EventLoop.EventQueue.CreateExternalEventCallback | src/state_machines/state-machine.h:257-265 | Counts the callback |
| EventLoop.EventQueue.BeginNextEvent | src/state_machines/state-machine.h:278-291 | Clears idle and counts down for an external task, and takes the front event |
| BundleTheorems.ChunksConserved | src/state_machines/bundle-state-machine.cc:327-359 | In every reachable state the chunks given are, in order, those resolved (once each), the one in hand and those queued; chunk_bytes_pending is the sum of queued lengths |
| BundleTheorems.KeptChunksAreInBundles | src/state_machines/bundle-state-machine.cc:135-216 | The kept chunks are exactly the blocks of all bundles, in order; every other chunk was dropped because it is recorded, is in a bundle of this machine, or its data no longer hash to its digest |
| BundleTheorems.NothingUnexpected | src/state_machines/bundle-state-machine.cc:64-81 | Under the call rules no assert fails, every event meets a state with a transition, and a client that may continue finds the last generated bundle |
| BundleTheorems.DoneOnlyAtTheEnd | src/state_machines/state-machine.h:293-300 | The done callback fires only in the final state, with every chunk resolved and every kept block in a generated bundle |
| BundleTheorems.BundlesAreRestorable | src/state_machines/bundle-state-machine.cc:193-249 | Every generated bundle: the payload decompresses to contents that hash to the digests of its blocks in manifest order, no block twice, below the maximum size before the last chunk |
| BundleTheorems.ActiveIdsAreTheManifests | src/state_machines/bundle-state-machine.cc:193-216 | block_ids_in_active_bundle is the set of ids in the active manifest, without duplicates |
| BundleProofs.InitialInv | src/state_machines/bundle-state-machine.cc:35-51 | A new machine is in the invariant |
| BundleProofs.StepKeeps | src/state_machines/bundle-state-machine.cc:101-359 | Every client call under the rules, delivery and event keeps the invariant: one event on its way at most, and what holds in each of the 16 states |
| BundleTheorems.RunKeeps | src/state_machines/bundle-state-machine.cc:101-359 | The invariant and the agreement of outcomes with bundles hold after every run |
| BundleProofs.AppendKeeps | src/state_machines/bundle-state-machine.cc:193-206 | Adding a chunk keeps ids, digests, compressor output and size bound of the active bundle |
| BundleProofs.SealKeeps | src/state_machines/bundle-state-machine.cc:218-249 | Finalizing makes the active bundle a complete generated one |
| BundleInStep.CallsInStep | src/state_machines/bundle-state-machine-pool.cc:83-102 | The pool feeds only a machine that rests and continues only one that awaits retrieval; both become busy with the right pending bytes |
| BundleInStep.RunInStep | src/state_machines/bundle-state-machine-pool.cc:104-157 | A busy machine adds no pending bytes; it reports "snapshot done" with none left, or "bundle ready" with chunk_bytes_pending |
| BundleInStep.DeliveryInStep | src/state_machines/state-machine.h:310-317 | A service that delivers changes nothing the pool can see |
| BundleRestore.BundleOpsGroup | src/state_machines/bundle-state-machine.cc:193-249 | The calls made on the Bundle object pack exactly the bundle of the machine |
| BundleRestore.SizeIsFileSize | src/state_machines/bundle-state-machine.cc:211-215 | The size compared with the maximum is the size of the TAR data so far |
| BundleRestore.GeneratedIsSealed | src/state_machines/bundle-state-machine.cc:218-249 | Every generated bundle holds the compressor's complete output |
| BundleRestore.GeneratedBundlesRestore | src/file/bundle.h:26-34 | End to end: a TAR reader finds in the file of a generated bundle one payload, the manifest and its digest; the payload decompresses to contents that hash, block by block, to the manifest's digests |
| BundleStateMachines.BundleStateMachine.BundleSnapshot | src/state_machines/bundle-state-machine.cc:64-69 | Takes the snapshot and posts its event |
| BundleStateMachines.BundleStateMachine.RetrieveGeneratedBundle | src/state_machines/bundle-state-machine.cc:71-75 | Whenever the client may call it the assert holds, and it gets the last bundle finished, complete and restorable |
| BundleStateMachines.BundleStateMachine.Continue | src/state_machines/bundle-state-machine.cc:77-81 | Drops the generated bundle and posts the event |
| BundleStateMachines.BundleStateMachine.FlushCurrentBundle | src/state_machines/bundle-state-machine.cc:83-88 | Requests a flush and posts its event |
| BundleStateMachines.BundleStateMachine.PushPendingChunksForSnapshot | src/state_machines/bundle-state-machine.cc:327-335 | Queues all chunks of the snapshot and adds up their lengths |
| BundleStateMachines.BundleStateMachine.PopPendingChunk | src/state_machines/bundle-state-machine.cc:337-345 | Takes the first chunk and its length off, or says there is none |
| BundleStateMachines.BundleStateMachine.HandleNextChunk | src/state_machines/bundle-state-machine.cc:347-359 | Next chunk, forced flush, or no chunks remaining and idle |
| BundleStateMachines.BundleStateMachine.HandleStartNewSnapshot | src/state_machines/bundle-state-machine.cc:101-109 | Exactly the handler of the model |
| BundleStateMachines.BundleStateMachine.HandleResetForNextSnapshot | src/state_machines/bundle-state-machine.cc:111-120 | Exactly the handler of the model, with a client that may answer inside the callback |
| BundleStateMachines.BundleStateMachine.HandleGetExistingBundleInfo | src/state_machines/bundle-state-machine.cc:122-133 | Exactly the handler of the model |
| BundleStateMachines.BundleStateMachine.HandleInspectExistingBundleInfo | src/state_machines/bundle-state-machine.cc:135-156 | Exactly the handler of the model: recorded, in the active bundle, or wanted |
| BundleStateMachines.BundleStateMachine.HandleInspectChunkContents | src/state_machines/bundle-state-machine.cc:177-185 | Exactly the handler of the model: match or mismatch |
| BundleStateMachines.BundleStateMachine.HandleFinishChunk | src/state_machines/bundle-state-machine.cc:193-216 | Exactly the handler of the model: block, contents, ids, size comparison |
| BundleStateMachines.BundleStateMachine.HandleFinalizeBundle | src/state_machines/bundle-state-machine.cc:218-249 | Exactly the handler of the model: empty bundle or generated bundle |
| BundleStateMachines.BundleStateMachine.HandleExecuteBundleReadyCallback | src/state_machines/bundle-state-machine.cc:292-300 | Exactly the handler of the model, with a client that may answer inside the callback |
| BundleStateMachines.BundleStateMachine.HandleResetForNextBundle | src/state_machines/bundle-state-machine.cc:302-310 | Exactly the handler of the model: a new bundle and compressor |
| BundleStateMachines.BundleStateMachine.RunNextEvent | src/state_machines/bundle-state-machine.h:192-307 | Runs the next event by the transition table, keeps the invariant, and reports whether the done callback fires |
| BundleStateMachines.BundleStateMachine.Complete | src/state_machines/bundle-state-machine.cc:187-191 | A service delivers its result and its event is posted |
| BundleStateMachines.NeedsAreMet | src/state_machines/bundle-state-machine.h:192-307 | The invariant gives every handler what its asserts demand, and every event a row of the table |
| TarFormat.OctalRoundTrip | src/file/tar-header-block.cc:38-60 | A number written as octal with leading zeros and a nul reads back |
| TarFormat.PaddedFits | src/file/tar-header-block.cc:38-50 | The assert on the length of a written number holds if and only if the value has at most that many octal digits, and then the text is the number with leading zeros |
| TarFormat.HeaderSum | src/file/tar-header-block.cc:135-146 | The sum of a header's bytes, checksum counted as spaces, fits six octal digits |
| TarFormat.ChecksumReads | src/file/tar-header-block.cc:135-146 | The stored checksum of a closed header is the one a reader computes |
| TarFormat.NameReads | src/file/tar-header-block.cc:81-84 | A closed header gives back the name |
| TarFormat.SizeReads | src/file/tar-header-block.cc:114-116 | A closed header gives back the size |
| TarFormat.RecordReads | src/file/bundle.cc:105-122 | What a reader makes of one record followed by anything: the file, and a lone zero block after exact multiples of 512 |
| TarFormat.ArchiveRoundTrip | src/file/bundle.cc:78-122 | Reading a finished archive gives back exactly the names and contents, in order |
| TarHeader.TarHeaderBlock.constructor | src/file/tar-header-block.cc:71-75 | A zeroed block with the link indicator, and nothing else in the buffer changed |
| TarHeader.TarHeaderBlock.SetFilename | src/file/tar-header-block.cc:81-84 | The name field: up to the first nul, cut off at 100 bytes, padded with nuls |
| TarHeader.TarHeaderBlock.WriteInteger | src/file/tar-header-block.cc:38-50 | The field holds the octal digits, a nul and the tail; the other fields and the rest of the buffer stay |
| TarHeader.TarHeaderBlock.SetNumber | src/file/tar-header-block.cc:90-125 | The field holds the number in octal with leading zeros and a nul |
| TarHeader.TarHeaderBlock.ComputeAndSetChecksum | src/file/tar-header-block.cc:135-146 | The checksum field holds the sum over the block with the field as spaces |
| BundleWriter.FinishedBundleReads | src/file/bundle.cc:54-159 | For any legal calls ended by Finalize, a TAR reader finds one file a payload with all that was appended, in order, then the serialized manifest and its digest |
| BundleWriter.ManifestPointsAtPayloads | src/file/bundle.cc:54-69 | The manifest lists each payload with its blocks, and its offset points at the header of the file with its contents |
| BundleWriter.ClosedBytesStay | src/file/bundle.cc:105-122 | Bytes of closed records never change: later calls only add behind them |
| BundleWriter.FinishingMakesABundle | src/file/bundle.cc:78-88 | Every legal series of calls whose sizes and times fit the headers makes such a bundle |
| BundleWriter.ClosedBytesSurviveFinish | src/file/bundle.cc:78-88 | They are still in front when the bundle is finished |
| BundleWriter.FinishedRecords | src/file/bundle.cc:132-159 | Finishing adds exactly the manifest's and the digest's records |
| BundleWriter.NamesFit | src/file/bundle.cc:17-20 | All file names fit the name field |
| Bundles.Bundle.constructor | src/file/bundle.cc:24-29 | An empty bundle |
| Bundles.Bundle.StartNewPayload | src/file/bundle.cc:54-63 | Closes the open payload and opens the next at the end of the buffer |
| Bundles.Bundle.AddBlockMetadata | src/file/bundle.cc:65-69 | Adds the block to the open payload in the manifest |
| Bundles.Bundle.AppendBlockContents | src/file/bundle.cc:71-76 | The bytes go behind the buffer, into the open file |
| Bundles.Bundle.Finalize | src/file/bundle.cc:78-88 | The buffer holds the finished archive |
| Bundles.Bundle.StartNewFile | src/file/bundle.cc:90-103 | A header for the file behind the buffer: name, mode, owner |
| Bundles.Bundle.EndCurrentFile | src/file/bundle.cc:105-122 | Size, time and checksum are patched into the header and padding is added; the buffer is the archive with one more closed record |
| Bundles.Bundle.EndCurrentPayload | src/file/bundle.cc:124-130 | Closes the open payload with its size |
| Bundles.Bundle.AppendSerializedManifest | src/file/bundle.cc:132-159 | Adds the manifest and its digest as two files |
| TreeHash.LevelsMeetTopDown | src/services/bundle-hasher-impl.cc:148-194 | Level-by-level pairing with the odd last digest promoted gives the root of the top-down split at the largest power of two below n (the shape of section 2.1 of RFC 6962) |
| TreeHash.NodeCount | src/services/bundle-hasher-impl.cc:166-188 | n leaves take exactly n - 1 node hashes |
| TreeHash.RootForcesLeaves | src/services/bundle-hasher-impl.cc:148-194 | Equal roots over equally many leaves force equal leaves, or two different hashed inputs collide |
| TreeHash.PiecesTile | src/services/bundle-hasher-impl.cc:54-127 | The pieces put together are the data; all but the last are 1 MiB and none is empty |
| TreeHash.CutOn | src/services/bundle-hasher-impl.cc:89-117 | Cutting a concatenation is cutting the first part and going on from its rest |
| TreeHash.HashBuffer | src/services/bundle-hasher-impl.cc:89-117 | One buffer: the digests of all complete pieces so far, and the engine holds exactly the rest |
| TreeHash.HashData | src/services/bundle-hasher-impl.cc:54-142 | Both digests depend on the concatenation of the buffers only: linear digest, and tree root over its 1 MiB pieces |
| TreeHash.NextLevel | src/services/bundle-hasher-impl.cc:166-188 | The loop fills the next level with one digest a pair and the odd last digest |
| TreeHash.ComputeFinalTreeHash | src/services/bundle-hasher-impl.cc:148-194 | The root of the digests; with none, the output stays as it was |
| UploadProofs.BundlesAreKept | src/state_machines/upload-state-machine.cc:52-84 | The accepted bundles are the recorded ones in order, then the unrecorded one in hand and the one waiting; an unrecorded bundle is in exactly one slot; on all runs, whatever becomes of connection, vault and uploads |
| UploadProofs.HandedBackOnlyWhenDone | src/state_machines/upload-state-machine.cc:66-71 | A bundle is handed back only after it was recorded and deleted, each once and in order |
| UploadProofs.NothingUnexpected | src/state_machines/upload-state-machine.h:103-193 | On all runs no assert fails but possibly the three with flags of their own (two about the vault, one about a retry), and no event but a superfluous NewBundlePending lacks a transition |
| UploadProofs.NoBundleIsForgotten | src/state_machines/upload-state-machine.cc:143-157 | Waiting for a bundle with one in the slot, or with an exit requested, the last queued event is the NewBundlePending that wakes the machine |
| UploadProofs.RestsOnlyWhenSettled | src/state_machines/state-machine.h:293-300 | With nothing left to run the machine waits for its client with all bundles recorded, deleted and handed back (or one to retrieve); not idle only when done |
| UploadFailures.VaultAssertsHold | src/state_machines/upload-state-machine.cc:86-135 | Sufficient: on every run on which no delivery says that the vault could not be created, or was not found after an attempt to create it, both asserts about the vault hold |
| UploadFailures.VaultAssertsFail | src/state_machines/upload-state-machine.cc:86-135 | Necessary: from every reachable state such a delivery can be followed by a run on which an assert about the vault fails |
| UploadFailures.RefusedVaultFails | src/state_machines/upload-state-machine.cc:86-101 | A run from the start: the vault is not there, its creation is refused, and the assert fails |
| UploadFailures.RetryAssertHolds | src/state_machines/upload-state-machine.cc:159-194 | Sufficient: on every run on which no successful upload is inspected over a closed connection, the assert that a bundle to upload has no server id holds |
| UploadFailures.IncoherentUploadFails | src/state_machines/upload-state-machine.cc:159-194 | Necessary: from every reachable state with a successful upload about to be inspected over a closed connection there is a run on which that assert fails |
| UploadFailures.UploadedAndCutFails | src/state_machines/upload-state-machine.cc:159-194 | A run from the start to such a state: the connection goes down between the success of an upload and its inspection |
| UploadFailures.GetsItsTurn | src/state_machines/state-machine.h:277-317 | An event in the queue is reached by running: the NewBundlePending events before it are dropped |
| UploadProofs.InitialInv | src/state_machines/upload-state-machine.cc:220-229 | A started machine is in the invariant |
| UploadProofs.StepKeeps | src/state_machines/upload-state-machine.h:103-193 | Every client call, completed operation with whatever result, dropped connection and event keeps the invariant |
| UploadStateMachines.UploadStateMachine.UploadBundle | src/state_machines/upload-state-machine.cc:52-57 | Takes the bundle into the free slot and posts NewBundlePending |
| UploadStateMachines.UploadStateMachine.FinishAndExit | src/state_machines/upload-state-machine.cc:59-64 | Requests the exit |
| UploadStateMachines.UploadStateMachine.RetrieveLastUploadedBundle | src/state_machines/upload-state-machine.cc:66-71 | Hands out the current bundle |
| UploadStateMachines.UploadStateMachine.HandleReopenConnection | src/state_machines/upload-state-machine.cc:73-84 | The failed bundle goes back to the other slot; the connection is reopened |
| UploadStateMachines.UploadStateMachine.HandleGetVaultDescription | src/state_machines/upload-state-machine.cc:86-101 | Exactly the handler of the model, the assert that can fail included |
| UploadStateMachines.UploadStateMachine.HandleInspectVaultDescription | src/state_machines/upload-state-machine.cc:103-118 | Exactly the handler of the model: closed, found or missing |
| UploadStateMachines.UploadStateMachine.HandleCreateVault | src/state_machines/upload-state-machine.cc:120-135 | Exactly the handler of the model, the assert that can fail included |
| UploadStateMachines.UploadStateMachine.HandleWaitForInput | src/state_machines/upload-state-machine.cc:137-141 | Idle unless an exit is requested |
| UploadStateMachines.UploadStateMachine.HandleInspectNextBundle | src/state_machines/upload-state-machine.cc:143-157 | The next bundle becomes the current one, or the exit, or nothing to do |
| UploadStateMachines.UploadStateMachine.HandleStartUpload | src/state_machines/upload-state-machine.cc:159-176 | Starts the upload of the current bundle; the assert that it has no server id is noted |
| UploadStateMachines.UploadStateMachine.HandleRecordUpload | src/state_machines/upload-state-machine.cc:178-194 | Records a successful upload, closes the connection after a failed one |
| UploadStateMachines.UploadStateMachine.HandleDeleteBundle | src/state_machines/upload-state-machine.cc:196-203 | Deletes the local file |
| UploadStateMachines.UploadStateMachine.HandleExecuteBundleUploadedCallback | src/state_machines/upload-state-machine.cc:205-211 | Calls the client back, who may answer inside; idle |
| UploadStateMachines.UploadStateMachine.HandleCleanUp | src/state_machines/upload-state-machine.cc:213-218 | Closes the connection; not idle |
| UploadStateMachines.UploadStateMachine.RunNextEvent | src/state_machines/upload-state-machine.h:103-193 | Runs the next event by the transition table, drops a superfluous NewBundlePending, keeps the invariant |
| HttpProofs.OneCallbackEach | src/network/http-client-connection.cc:270-463 | Whatever fails, a request is pending exactly until its callback, and every accepted request gets exactly one |
| HttpProofs.RunConserves | src/network/stream-connection.cc:144-195 | Over any run that leaves the connection open, bytes delivered, buffered and unread together are what they were |
| HttpProofs.CompleteConserves | src/network/stream-connection.cc:295-356 | A completed read delivers the next bytes and moves no others |
| HttpProofs.UntilDelivers | src/network/stream-connection.cc:319-356 | A read up to a terminator delivers exactly what comes before it, and it, however the bytes arrive |
| HttpProofs.ExactlyDelivers | src/network/stream-connection.cc:164-195 | A read of n bytes delivers the next n, from the buffer and past it |
| HttpProofs.HeaderReads | src/network/http-connection.cc:141-158 | A chunk header's hexadecimal size reads back, in either case, with leading zeros and with an extension |
| HttpProofs.ChunkedBodyDecodes | src/network/http-client-connection.cc:288-446 | Decoding inverts encoding (section 4.1 of RFC 7230) in any segmentation: the payload grows by the chunks' data, one callback, and the stream stands at the first byte after the message |
| HttpProofs.ChunkedResponseDecodes | src/network/http-client-connection.cc:270-446 | From a written request to its callback, in any segmentation: the head up to its empty line, then the chunked body; one callback, the chunks' data as payload, and the stream at the first byte after the message |
| HttpProofs.SizedResponseReads | src/network/http-client-connection.cc:270-321 | The same for a body of the size the head gives |
| HttpProofs.HeadEndsFirst | src/network/http-connection.cc:65-69 | A head of lines none of which is empty ends at the first empty line, which is what the read waits for |
| HttpProofs.ReadsCanComplete | src/network/stream-connection.cc:144-195 | Each of these reads can complete once the search looks at all the bytes that are there |
| TerminatorSearch.CompletesExactly | src/network/stream-connection.cc:144-162 | A read up to any terminator, searched for in the buffer and then in each arrival behind what was searched already, completes if and only if the terminator lies wholly in one searched part, and with the first such part |
| TerminatorSearch.SearchCompletesRead | src/network/stream-connection.cc:363-369 | When these searches complete a read, it can complete in the stream model with the bytes received so far |
| TerminatorSearch.SplitTerminatorIsMissed | src/network/stream-connection.cc:363-369 | For any terminator and any cut inside it: when it arrives in these two parts, all that the read needs is there, and the searches do not complete it |
| HttpProofs.AcceptedIsWritten | src/network/http-client-connection.cc:107-152 | A request is accepted exactly if the connection is open, none is pending, and it need not be secure over an insecure one; the write then starts |
| HttpClient.StreamConnection.FindTerminator | src/network/stream-connection.cc:363-369 | The first occurrence of the terminator in the buffer, or none |
| HttpClient.StreamConnection.WriteAll | src/network/stream-connection.cc:121-142 | Starts a write unless closed or writing |
| HttpClient.StreamConnection.HandleWrite | src/network/stream-connection.cc:283-293 | The write is over, with its result |
| HttpClient.StreamConnection.ReadUntil | src/network/stream-connection.cc:144-162 | Starts a read up to the given terminator unless closed or reading |
| HttpClient.StreamConnection.ReadSize | src/network/stream-connection.cc:164-195 | Takes as much as possible from the buffer at once |
| HttpClient.StreamConnection.HandleReadUntil | src/network/stream-connection.cc:319-356 | Delivers up to the first terminator and leaves the rest buffered |
| HttpClient.StreamConnection.HandleReadSize | src/network/stream-connection.cc:295-317 | Delivers what came from the buffer, then what came past it |
| HttpClient.HttpClientConnection.SendRequest | src/network/http-client-connection.cc:102-152 | Accepts a request exactly when open with none pending and secure enough, and starts writing it |
| HttpClient.HttpClientConnection.RequestSent | src/network/http-client-connection.cc:270-286 | Reads the response's head up to its empty line, or fails |
| HttpClient.HttpClientConnection.ResponseReceived | src/network/http-client-connection.cc:288-321 | Chunked or sized body, or failure |
| HttpClient.HttpClientConnection.ResponsePayloadChunkHeaderReceived | src/network/http-client-connection.cc:323-357 | The chunk, the trailer, or failure |
| HttpClient.HttpClientConnection.ResponsePayloadChunkReceived | src/network/http-client-connection.cc:380-408 | Appends the data even of a failed read |
| HttpClient.HttpClientConnection.ResponsePayloadPostChunkHeaderReceived | src/network/http-client-connection.cc:410-434 | Ends at the blank line |
| HttpClient.HttpClientConnection.ResponsePayloadReceived | src/network/http-client-connection.cc:436-446 | Ends the request |
| HttpClient.HttpClientConnection.HandleRequestError | src/network/http-client-connection.cc:448-455 | Ends the request as failed and closes |
| HttpClient.HttpClientConnection.WriteDone | src/network/stream-connection.cc:283-293 | The write completes and the head is read, or the request fails; the invariant is kept |
| HttpClient.HttpClientConnection.ReadDone | src/network/stream-connection.cc:295-356 | The read in progress completes and its handler runs; the invariant is kept |
| FileChunks.ChunksTile | src/services/chunk-hasher-impl.cc:59-106 | The chunks lie end to end from 0, none empty, all but the last full, each with the digest of its data, and their data put together are the file |
| FileChunks.TilingIsUnique | src/services/chunk-hasher-impl.cc:59-106 | These properties leave no choice: any tiling is this one |
| FileChunks.LoopEnds | src/services/chunk-hasher-impl.cc:59-106 | The callback loop ends if and only if the block size is positive |
| FileChunks.ChunkReader.ReadBlockDataForChunk | src/services/chunk-reader-impl.cc:21-39 | The slice of the file, cut off at its end, empty past it |
| FileChunks.ChunkHasher.GenerateAndHashChunks | src/services/chunk-hasher-impl.cc:38-47 | For a regular non-empty file the chunks tile the file and the digest is the whole file's; otherwise nothing |
| FileChunks.ChunkHasher.ContinueGeneratingAndHashingChunks | src/services/chunk-hasher-impl.cc:59-79 | The callback loop ends, with the chunks of the rest of the file |
| FileChunks.ChunkHasher.UpdateHashesFromBlockData | src/services/chunk-hasher-impl.cc:81-106 | An empty block is no chunk, a short one the last; exact multiples leave no empty chunk |
| Hkdf.Expand | src/services/cryptor.cc:249-279 | The key is the first L bytes of T(1), T(2), ... (section 2.3 of RFC 5869), without a failing assert, if and only if at most 254 blocks are needed |
| Hkdf.TsLength | src/services/cryptor.cc:253-255 | n blocks are 32 n bytes |
| MetadataDb.Database.RecordNewSnapshot | src/services/metadata-db-impl.cc:146-175 | Tables stay valid; every chunk's row has the right file, block and offset; the cache holds exactly the newest snapshot's chunks; rows are added exactly where the block changed; blocks stay unique if and only if equal blocks within the snapshot were recorded before |
| MetadataDb.RecordedValid | src/services/metadata-db-impl.cc:146-175 | Recording keeps the tables valid: references, newest snapshots only in the cache, distinct offsets |
| MetadataDb.RecordedBlocks | src/services/metadata-db-impl.cc:596-619 | Blocks stay unique by digest and length if and only if equal blocks within the snapshot were recorded before |
| MetadataDb.RecordedChanges | src/services/metadata-db-impl.cc:484-524 | With unique blocks a chunk keeps its old row if and only if the cache had its contents at its offset |
| MetadataDb.RecordedRows | src/services/metadata-db-impl.cc:621-648 | Every chunk's row is right, old rows stay, and each new row is a chunk's |
| MetadataDb.RecordedCache | src/services/metadata-db-impl.cc:650-673 | For the file, the cache holds exactly this snapshot's chunks, and it is the newest snapshot |
| MetadataDb.Database.FindExistingIds | src/services/metadata-db-impl.cc:413-433 | The file, its newest snapshot, the known blocks and the unchanged chunks |
| MetadataDb.Database.GetLatestSnapshotId | src/services/metadata-db-impl.cc:401-411 | The newest snapshot of the file, or none |
| MetadataDb.Database.FindExistingBlockIds | src/services/metadata-db-impl.cc:464-482 | Ids of the blocks that have a row, and only those |
| MetadataDb.Database.FindExistingChunkIds | src/services/metadata-db-impl.cc:484-524 | Row id and time of the chunks whose block did not change at its offset, and only those |
| MetadataDb.Database.WriteNewBlocks | src/services/metadata-db-impl.cc:596-619 | One new row for each block without an id |
| MetadataDb.Database.WriteNewChunks | src/services/metadata-db-impl.cc:621-648 | One new row for each chunk without an id, with its file, block, offset and time |
| MetadataDb.Database.UpdateLatestChunksCache | src/services/metadata-db-impl.cc:650-673 | The previous snapshot's pairs go, this one's come |
| ScanModel.PassSorts | src/backup-executor.cc:114-147 | One pass over the buffer, with the try-run inside AddNewInput: admitted and refused paths keep their order, the pool takes the admitted ones in this order, weights add up, and if no machine was started meanwhile none of the refused ones would fit now |
| ScanModel.RefusedStayRefused | src/backup-executor.cc:114-147 | If no machine can be started before the pass (the limit is reached, or the waiting head is blocked), none is during it, and none of the refused paths fits after it |
| ScanModel.RefusedThoughItFitsLater | src/backup-executor.cc:114-147 | Of two paths the first is refused and fits afterwards if and only if a machine can be started, a path waits, the second is taken and the first fits the room that the waiting path's start leaves |
| ScanRuns.AFittingPathStaysBuffered | src/backup-executor.cc:114-167 | A run in posting order from a started executor with three snapshot machines: asked for more input it offers its three buffered paths and leaves one buffered that the pool has room for |
| ScanModel.PassCounts | src/backup-executor.cc:114-122 | A pass loses and doubles no path |
| ScanModel.EntryFitsHalfFullPool | src/backup-executor.cc:169-178 | Any entry fits a pool that is at most half full, and weighs at least one |
| ScanModel.PassMakesProgress | src/backup-executor.cc:114-122 | Then a pass admits at least the first buffered path |
| ScanModel.ExecutorRunsTheChain | src/backup-executor.cc:99-167 | Every run of the executor with its pools is a run of the pool chain, so that its theorems hold there |
| ScanModel.ScannedPathsConserved | src/backup-executor.cc:99-167 | Over any run every scanned path was accepted once or is buffered once; when the scan is finished the pool has accepted exactly the scanned paths |
| ScanModel.ScanNeverStalls | src/state_machines/snapshot-state-machine-pool.cc:67-79 | The executor's own wake-up: unless the scanner is at work or all is finished, a machine is at work or a callback is posted; while paths are buffered, more input will be asked for or half of what the pool holds is waiting |
| ScanModel.ExecutorStepKeeps | src/backup-executor.cc:99-167 | Each delivery of the scanner, need-more-input callback and step of the pools keeps conservation and both wake-up conditions |
| ScanBuffer.BackupExecutor.constructor | src/backup-executor.cc:24-64 | The executor after Start: pools wired and empty, scan in progress |
| ScanBuffer.BackupExecutor.TryAddSnapshotPathWithWeight | src/backup-executor.cc:133-147 | The pool takes the path and may start a machine, or the path is buffered with its weight |
| ScanBuffer.BackupExecutor.TryAddSnapshotPathWithSize | src/backup-executor.cc:124-131 | The same with the weight of the file's size |
| ScanBuffer.BackupExecutor.AddBufferedSnapshotPaths | src/backup-executor.cc:114-122 | Exactly the model's pass: exactly the refused entries are buffered again, in order |
| ScanBuffer.BackupExecutor.AddNewPendingSnapshotPaths | src/backup-executor.cc:99-112 | Exactly the model step: new paths are offered in order; an empty scan finishes, with or without buffered paths |
| ScanBuffer.BackupExecutor.TryScanMorePaths | src/backup-executor.cc:149-167 | Exactly the model step; half the free weight is scanned for, if it is at least two and the scan waits |

## Left out

- Pool shutdown: machine termination, `FinishAndExit` on pools and the timeout flush end the part of a run that the pool theorems speak about, because the ledger is not meant to be exact there; the set of terminated machines is not modelled.
- Idle machines that hold leftover chunks while no input is pending: the wake-up theorem is about pending inputs.
- Wrap-around of `size_t` sums of weights and sizes, and of 64-bit ids other than the payload counter: sums are unbounded.
- The size of a file is read once for a path's reservation; the program reads it at each query.
- How much the scanner delivers at a time, and the executor's counters of files.
- `FinishAndExit` of the bundle machine and the rows of its table only that reaches; that of the upload machine is modelled.
- The active bundle in `BundleStateMachine` is a value (blocks, payload, plain contents); `BundleRestore` proves that the calls on a `Bundle` object give that payload and size.
- BundleWriter.FinishingMakesABundle: user and group ids of more than seven octal digits are excluded, because the header writer's assert fails for them (`PaddedFits`).
- Encryption, file writing and the recording of bundles are steps that finish; their contents are not modelled.
- Cryptography, zlib internals (that finalizing puts out everything buffered is part of `CompressorLaw`), protobuf encoding, SQL syntax and SQLite errors.
- Attributes rows and the snapshot columns that no modelled property speaks of; chunks come to `RecordNewSnapshot` without ids.
- Real threads: each strand callback and client call is one step.
- Malformed chunk headers beyond sizes that do not fit, request serialization, header parsing, TLS and TCP set-up, name resolution, and when data arrive: in the stream model a read may complete when its bytes are there, and need not; `TerminatorSearch` says when a read up to a terminator does.
- Glacier requests and signing; a network operation succeeds or fails with the stated results.
- Refusals of Glacier operations: `DescribeVault` and `CreateVault` are called with the connection just found open and no operation pending, so that their asserts hold; the result of `UploadArchive` is ignored (src/state_machines/upload-state-machine.cc:168-175), and if it is refused, for a description that cannot be sent or a bundle without contents or digests, no callback comes and the machine waits for ever. The model takes every upload to be accepted.
- Human-readable formatting, options, key loading, the filesystem scan and build scripts.
