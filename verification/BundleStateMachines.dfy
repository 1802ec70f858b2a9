// The bundle state machine as the program runs it: an object whose handlers update its fields. Every
// method does exactly the step of BundleModel that carries its name.

module BundleStateMachines {
  import opened Common
  import opened BundleWriter
  import EventLoop
  import opened BundleModel
  import BundleProofs

  class BundleStateMachine {
    const services: Services
    const events: EventLoop.EventQueue<Event>
    var state: State
    var flushRequested: bool
    var pendingSnapshot: Option<seq<Chunk>>
    var pendingChunks: seq<Chunk>
    var chunkBytesPending: int
    var activeChunk: Option<Chunk>
    var existingBundleAnnotations: Option<int>
    var blockData: seq<byte>
    var activeChunkHashIsValid: bool
    var compressedBlockData: seq<byte>
    var blockIdsInActiveBundle: set<int>
    var activeBundle: Option<Contents>
    var generatedBundle: Option<Contents>
    // What the compressor's stream was made from.
    var compressorInputs: seq<seq<byte>>
    // The client's next call, and the history.
    ghost var permission: Permission
    ghost var given: seq<Chunk>
    ghost var resolved: seq<Resolved>
    ghost var finished: seq<Contents>

    ghost function ChunksNow(): Chunks
      reads this
    {
      Chunks(pendingSnapshot, pendingChunks, chunkBytesPending, activeChunk, given, resolved)
    }

    ghost function PackingNow(): Packing
      reads this
    {
      Packing(existingBundleAnnotations, blockData, activeChunkHashIsValid, compressedBlockData, compressorInputs,
              activeBundle, blockIdsInActiveBundle, generatedBundle, finished)
    }

    ghost function Now(): Machine
      reads this, events
    {
      Machine(state, events.State(), permission, flushRequested, false, ChunksNow(), PackingNow())
    }

    constructor (services: Services)
      ensures Now() == NewMachine() && fresh(events) && this.services == services
    {
      this.services := services;
      var queue := new EventLoop.EventQueue<Event>();
      events := queue;
      state, flushRequested, pendingSnapshot, pendingChunks, chunkBytesPending := WaitForNewSnapshot, false, None, [], 0;
      activeChunk, existingBundleAnnotations, blockData, activeChunkHashIsValid := None, None, [], false;
      compressedBlockData, blockIdsInActiveBundle, activeBundle, generatedBundle := [], {}, Some(EMPTY), None;
      compressorInputs, permission, given, resolved, finished := [], FirstSnapshot, [], [], [];
    }

    // -------------------------------------------------------------------------------------------
    // Client calls

    method BundleSnapshot(snapshot: seq<Chunk>)
      requires pendingSnapshot.None?
      modifies this`permission, this`pendingSnapshot, events
      ensures Now() == Invoke(old(Now()), Call.BundleSnapshot(snapshot))
    {
      permission := Nothing;
      pendingSnapshot := Some(snapshot);
      events.PostEvent(NewSnapshotReady);
    }

    /** The assert holds whenever the client may call: after the bundle-ready callback there is a generated
        bundle, it is the last one finished, and it is complete, so that its blocks can be restored from it. */
    method RetrieveGeneratedBundle() returns (bundle: Contents)
      requires BundleProofs.Inv(Now(), services) && permission == AfterBundle
      ensures generatedBundle == Some(bundle) && finished != [] && bundle == finished[|finished| - 1]
      ensures BundleProofs.Sealed(bundle, services)
    {
      hide BundleProofs.Inv, BundleProofs.Sealed;
      HoldsLastBundle(Now(), services);
      bundle := generatedBundle.value;
    }

    method Continue()
      requires generatedBundle.Some?
      modifies this`permission, this`generatedBundle, events
      ensures Now() == Invoke(old(Now()), Call.Continue)
    {
      permission := Nothing;
      generatedBundle := None;
      events.PostEvent(ContinueAfterBundleRetrieved);
    }

    method FlushCurrentBundle()
      modifies this`permission, this`flushRequested, events
      ensures Now() == Invoke(old(Now()), Call.FlushCurrentBundle)
    {
      permission := Nothing;
      flushRequested := true;
      events.PostEvent(FlushForced);
    }

    /** The client, called back, may answer at once; an answer against the call rules is no answer. */
    method CallBackClient(allowed: Permission, reply: Option<Call>)
      requires allowed == AfterSnapshot ==> pendingSnapshot.None?
      requires allowed == AfterBundle ==> generatedBundle.Some?
      requires allowed == AfterSnapshot || allowed == AfterBundle
      modifies this`permission, this`pendingSnapshot, this`generatedBundle, this`flushRequested, events
      ensures Now() == CallBack(old(Now()), allowed, reply)
    {
      permission := allowed;
      if reply.Some? && Allowed(allowed, reply.value) {
        match reply.value
        case BundleSnapshot(cs) => BundleSnapshot(cs);
        case Continue => Continue();
        case FlushCurrentBundle => FlushCurrentBundle();
      }
    }

    // -------------------------------------------------------------------------------------------
    // Handlers

    method PushPendingChunksForSnapshot(snapshot: seq<Chunk>)
      modifies this`pendingChunks, this`chunkBytesPending, this`given
      ensures ChunksNow() == old(ChunksNow()).PushAll(snapshot)
    {
      for i := 0 to |snapshot|
        invariant pendingChunks == old(pendingChunks) + snapshot[..i] && given == old(given)
        invariant chunkBytesPending == old(chunkBytesPending) + Lengths(snapshot[..i])
      {
        assert snapshot[..i + 1] == snapshot[..i] + [snapshot[i]];
        BundleProofs.LengthsAppend(snapshot[..i], [snapshot[i]]);
        pendingChunks := pendingChunks + [snapshot[i]];
        chunkBytesPending := chunkBytesPending + snapshot[i].block.length;
      }
      assert snapshot[..|snapshot|] == snapshot;
      given := given + snapshot;
    }

    method PopPendingChunk() returns (popped: bool)
      modifies this`pendingChunks, this`chunkBytesPending, this`activeChunk
      ensures popped == (old(pendingChunks) != [])
      ensures ChunksNow() == if popped then old(ChunksNow()).Pop() else old(ChunksNow())
    {
      if |pendingChunks| == 0 {
        return false;
      }
      activeChunk := Some(pendingChunks[0]);
      pendingChunks := pendingChunks[1..];
      chunkBytesPending := chunkBytesPending - activeChunk.value.block.length;
      popped := true;
    }

    method HandleNextChunk()
      modifies this`pendingChunks, this`chunkBytesPending, this`activeChunk, this`flushRequested, events
      ensures Now() == NextChunk(old(Now()))
    {
      var popped := PopPendingChunk();
      if popped {
        events.PostEvent(NewChunkReady);
      } else if flushRequested {
        flushRequested := false;
        events.PostEvent(FlushForced);
      } else {
        events.PostEvent(NoChunksRemaining);
        events.SetIdle(true);
      }
    }

    method HandleStartNewSnapshot()
      modifies this`pendingChunks, this`chunkBytesPending, this`activeChunk, this`flushRequested, this`given, events
      ensures Now() == StartNewSnapshot(old(Now()))
    {
      if pendingSnapshot.Some? {
        PushPendingChunksForSnapshot(pendingSnapshot.value);
      }
      HandleNextChunk();
    }

    method HandleResetForNextSnapshot(reply: Option<Call>)
      requires pendingChunks == []
      modifies this`permission, this`pendingSnapshot, this`generatedBundle, this`flushRequested, events
      ensures Now() == ResetForNextSnapshot(old(Now()), reply)
    {
      pendingSnapshot := None;
      CallBackClient(AfterSnapshot, reply);
      if !flushRequested {
        events.SetIdle(true);
      }
    }

    method HandleGetExistingBundleInfo()
      requires activeChunk.Some?
      modifies this`existingBundleAnnotations, events
      ensures Now() == GetExistingBundleInfo(old(Now()))
    {
      existingBundleAnnotations := None;
      if activeChunk.value.block.id in blockIdsInActiveBundle {
        events.PostEvent(ExistingBundleInfoReady);
      } else {
        events.CreateExternalEventCallback(ExistingBundleInfoReady);
      }
    }

    /** History only: the active chunk's fate. */
    ghost method Resolve(outcome: Outcome)
      modifies this`resolved
      ensures ChunksNow() == old(ChunksNow()).Resolve(outcome)
    {
      if activeChunk.Some? {
        resolved := resolved + [Resolved(activeChunk.value, outcome)];
      }
    }

    method HandleInspectExistingBundleInfo()
      requires activeChunk.Some?
      modifies this`resolved, events
      ensures Now() == InspectExistingBundleInfo(old(Now()))
    {
      if existingBundleAnnotations.Some? && existingBundleAnnotations.value >= 0 {
        Resolve(AlreadyRecorded(existingBundleAnnotations.value));
        events.PostEvent(ChunkAlreadyInBundle);
      } else if activeChunk.value.block.id in blockIdsInActiveBundle {
        Resolve(AlreadyActive);
        events.PostEvent(ChunkAlreadyInBundle);
      } else {
        events.PostEvent(ChunkNotYetInBundle);
      }
    }

    method HandleReadChunkContents()
      modifies this`blockData, events
      ensures Now() == ReadChunkContents(old(Now()))
    {
      blockData := [];
      events.CreateExternalEventCallback(ChunkContentsReady);
    }

    method HandleHashChunkContents()
      modifies this`activeChunkHashIsValid, events
      ensures Now() == HashChunkContents(old(Now()))
    {
      activeChunkHashIsValid := false;
      events.CreateExternalEventCallback(ChunkContentsHashReady);
    }

    method HandleInspectChunkContents()
      modifies this`resolved, events
      ensures Now() == InspectChunkContents(old(Now()))
    {
      if activeChunkHashIsValid {
        events.PostEvent(ChunkContentsHashMatch);
      } else {
        Resolve(HashMismatch(blockData));
        events.PostEvent(ChunkContentsHashMismatch);
      }
    }

    method HandleCompressChunkContents()
      modifies events
      ensures Now() == CompressChunkContents(old(Now()))
    {
      events.CreateExternalEventCallback(CompressionDone);
    }

    method HandleFinishChunk()
      requires activeChunk.Some? && activeBundle.Some?
      modifies this`blockData, this`compressedBlockData, this`blockIdsInActiveBundle, this`activeBundle, this`resolved, events
      ensures Now() == FinishChunk(old(Now()), services)
    {
      hide Size, Pack;
      AppendActiveChunk(activeChunk.value.block);
      Resolve(Appended);
      if Size(activeBundle.value) >= services.maxBundle {
        events.PostEvent(MaxBundleSizeReached);
      } else {
        events.PostEvent(MaxBundleSizeNotReached);
      }
    }

    method AppendActiveChunk(block: Block)
      requires activeBundle.Some?
      modifies this`blockData, this`compressedBlockData, this`blockIdsInActiveBundle, this`activeBundle
      ensures PackingNow() == Pack(old(PackingNow()), block) && activeBundle.Some?
    {
      var bundle := activeBundle.value;
      activeBundle := Some(Contents(bundle.blocks + [block], bundle.content + compressedBlockData,
                                    bundle.plain + [blockData]));
      blockData := [];
      compressedBlockData := [];
      blockIdsInActiveBundle := blockIdsInActiveBundle + {block.id};
    }

    method HandleFinalizeBundle()
      requires activeBundle.Some? && generatedBundle.None?
      modifies this`compressedBlockData, this`blockIdsInActiveBundle, this`activeBundle, this`generatedBundle,
               this`finished, events
      ensures Now() == FinalizeBundle(old(Now()), services)
    {
      if activeBundle.value.blocks == [] {
        events.PostEvent(BundleEmpty);
        return;
      }
      compressedBlockData := compressedBlockData + services.finish(compressorInputs);
      var sealed := activeBundle.value.(content := activeBundle.value.content + compressedBlockData);
      compressedBlockData := [];
      generatedBundle := Some(sealed);
      finished := finished + [sealed];
      activeBundle := None;
      blockIdsInActiveBundle := {};
      events.PostEvent(BundleReady);
    }

    /** Hands the generated bundle to the cryptor, the hasher, the database or the file writer. */
    method HandleProcess(finished: Event)
      requires generatedBundle.Some?
      modifies events
      ensures Now() == Process(old(Now()), finished)
    {
      events.CreateExternalEventCallback(finished);
    }

    method HandleExecuteBundleReadyCallback(reply: Option<Call>)
      requires generatedBundle.Some?
      modifies this`permission, this`pendingSnapshot, this`generatedBundle, this`flushRequested, events
      ensures Now() == ExecuteBundleReadyCallback(old(Now()), reply)
    {
      CallBackClient(AfterBundle, reply);
      if !flushRequested {
        events.SetIdle(true);
      }
    }

    method HandleResetForNextBundle()
      requires activeBundle.None?
      modifies this`generatedBundle, this`activeBundle, this`blockIdsInActiveBundle, this`compressorInputs,
               this`pendingChunks, this`chunkBytesPending, this`activeChunk, this`flushRequested, events
      ensures Now() == ResetForNextBundle(old(Now()))
    {
      hide NextChunk;
      StartNewBundle();
      HandleNextChunk();
    }

    method StartNewBundle()
      modifies this`generatedBundle, this`activeBundle, this`blockIdsInActiveBundle, this`compressorInputs
      ensures PackingNow() == old(PackingNow()).(generated := None, bundle := Some(EMPTY), ids := {}, inputs := [])
    {
      generatedBundle := None;
      activeBundle := Some(EMPTY);
      blockIdsInActiveBundle := {};
      compressorInputs := [];
    }

    method HandleCleanUp()
      modifies events
      ensures Now() == CleanUp(old(Now()))
    {
      events.SetIdle(false);
    }

    // -------------------------------------------------------------------------------------------
    // Running

    method DeliverResult(event: Event, delivery: Delivery)
      modifies this`existingBundleAnnotations, this`blockData, this`activeChunkHashIsValid, this`compressorInputs,
               this`compressedBlockData
      ensures PackingNow() == Deliver(old(PackingNow()), activeChunk, event, delivery, services)
    {
      if event == ExistingBundleInfoReady {
        existingBundleAnnotations := delivery.annotation;
      } else if event == ChunkContentsReady {
        blockData := delivery.data;
      } else if event == ChunkContentsHashReady {
        activeChunkHashIsValid := activeChunk.Some? && services.sha1(blockData) == activeChunk.value.block.digest;
      } else if event == CompressionDone {
        compressorInputs := compressorInputs + [blockData];
        compressedBlockData := compressedBlockData + services.compress(compressorInputs);
      }
    }

    /** A service delivers its result and invokes its callback. */
    method Complete(callback: nat, delivery: Delivery)
      requires callback < |events.outstanding|
      modifies this, events
      ensures Now() == Next(old(Now()), services, BundleModel.Complete(callback, delivery))
    {
      hide Deliver;
      DeliverResult(events.outstanding[callback], delivery);
      events.InvokeCallback(callback);
    }

    /** The transition table's rows for snapshots and the bundles their chunks are in. */
    method DispatchSnapshots(event: Event, reply: Option<Call>)
      requires Needs(Now(), event) && PartOf(state, event) == Snapshots
      modifies this, events
      ensures Now() == Handle(old(Now()), event, services, reply)
    {
      SnapshotsRows(Now(), event, services, reply);
      hide NextChunk, StartNewSnapshot, ResetForNextSnapshot, GetExistingBundleInfo, InspectExistingBundleInfo,
        ReadChunkContents, HashChunkContents, InspectChunkContents, CompressChunkContents, FinishChunk, FinalizeBundle,
        Process, ExecuteBundleReadyCallback, ResetForNextBundle, CleanUp, Handle;
      if state == WaitForNewSnapshot {
        HandleStartNewSnapshot();
        state := HaveChunks;
      } else if state == HaveChunks && event == NoChunksRemaining {
        HandleResetForNextSnapshot(reply);
        state := WaitForNewSnapshot;
      } else if state == HaveChunks {
        HandleGetExistingBundleInfo();
        state := WaitForExistingBundleInfo;
      } else if state == WaitForExistingBundleInfo {
        HandleInspectExistingBundleInfo();
        state := HaveExistingBundleInfo;
      } else {
        HandleReadChunkContents();
        state := WaitForChunkContents;
      }
    }

    /** The transition table's rows for chunk contents. */
    method DispatchChunkwise(event: Event, reply: Option<Call>)
      requires Needs(Now(), event) && PartOf(state, event) == Chunkwise
      modifies this, events
      ensures Now() == Handle(old(Now()), event, services, reply)
    {
      ChunkwiseRows(Now(), event, services, reply);
      hide NextChunk, StartNewSnapshot, ResetForNextSnapshot, GetExistingBundleInfo, InspectExistingBundleInfo,
        ReadChunkContents, HashChunkContents, InspectChunkContents, CompressChunkContents, FinishChunk, FinalizeBundle,
        Process, ExecuteBundleReadyCallback, ResetForNextBundle, CleanUp, Handle;
      if state == WaitForChunkContents {
        HandleHashChunkContents();
        state := HaveChunkContents;
      } else if state == HaveChunkContents {
        HandleInspectChunkContents();
        state := HaveChunkContentsAndHashValidity;
      } else if event == ChunkContentsHashMatch {
        HandleCompressChunkContents();
        state := WaitForCompression;
      } else {
        HandleFinishChunk();
        state := ChunkFinished;
      }
    }

    /** The transition table's rows that go on to the next chunk. */
    method DispatchAdvancing(event: Event, reply: Option<Call>)
      requires Needs(Now(), event) && PartOf(state, event) == Advancing
      modifies this, events
      ensures Now() == Handle(old(Now()), event, services, reply)
    {
      hide NextChunk;
      HandleNextChunk();
      state := HaveChunks;
    }

    /** The transition table's rows for finishing a bundle. */
    method DispatchSealing(event: Event, reply: Option<Call>)
      requires Needs(Now(), event) && PartOf(state, event) == Sealing
      modifies this, events
      ensures Now() == Handle(old(Now()), event, services, reply)
    {
      SealingRows(Now(), event, services, reply);
      hide NextChunk, StartNewSnapshot, ResetForNextSnapshot, GetExistingBundleInfo, InspectExistingBundleInfo,
        ReadChunkContents, HashChunkContents, InspectChunkContents, CompressChunkContents, FinishChunk, FinalizeBundle,
        Process, ExecuteBundleReadyCallback, ResetForNextBundle, CleanUp, Handle;
      if state == HaveChunks || state == ChunkFinished {
        HandleFinalizeBundle();
        state := HaveBundle;
      } else if event == BundleEmpty {
        HandleCleanUp();
        state := Done;
      } else {
        HandleProcess(EncryptionDone);
        state := WaitForEncryption;
      }
    }

    /** The transition table's rows for handing a bundle over. */
    method DispatchHanding(event: Event, reply: Option<Call>)
      requires Needs(Now(), event) && PartOf(state, event) == Handing
      modifies this, events
      ensures Now() == Handle(old(Now()), event, services, reply)
    {
      HandingRows(Now(), event, services, reply);
      hide Process, Handle;
      if state == WaitForEncryption {
        HandleProcess(BundleHashed);
        state := WaitForBundleHash;
      } else if state == WaitForBundleHash {
        HandleProcess(BundleRecorded);
        state := WaitForBundleToRecord;
      } else {
        HandleProcess(BundleWritten);
        state := WaitForBundleToWrite;
      }
    }

    /** The transition table's rows for a bundle's retrieval. */
    method DispatchRetrieval(event: Event, reply: Option<Call>)
      requires Needs(Now(), event) && PartOf(state, event) == Retrieval
      modifies this, events
      ensures Now() == Handle(old(Now()), event, services, reply)
    {
      RetrievalRows(Now(), event, services, reply);
      hide ExecuteBundleReadyCallback, ResetForNextBundle, Handle;
      if state == WaitForBundleToWrite {
        HandleExecuteBundleReadyCallback(reply);
        state := WaitForBundleRetrieval;
      } else {
        HandleResetForNextBundle();
        state := HaveChunks;
      }
    }

    /** Runs the next event; `done` tells whether the done callback fires. The handler's asserts hold
        because of the invariant, which is kept. */
    method RunNextEvent(reply: Option<Call>) returns (done: bool)
      requires BundleProofs.Inv(Now(), services) && events.tasks != []
      modifies this, events
      ensures Now() == Next(old(Now()), services, BundleModel.RunNextEvent(reply))
      ensures BundleProofs.Inv(Now(), services)
      ensures done <==> Now().loop.IsDone()
    {
      hide BundleProofs.Inv, BundleProofs.At, Handle, Needs;
      BundleProofs.TakesItsEvent(Now(), services);
      BundleProofs.StepKeeps(Now(), services, BundleModel.RunNextEvent(reply));
      NeedsAreMet(Now().(loop := Now().loop.Begin()), events.queue[0], services);
      var next := events.BeginNextEvent();
      match PartOf(state, next[0]) {
        case Snapshots => DispatchSnapshots(next[0], reply);
        case Chunkwise => DispatchChunkwise(next[0], reply);
        case Sealing => DispatchSealing(next[0], reply);
        case Handing => DispatchHanding(next[0], reply);
        case Advancing => DispatchAdvancing(next[0], reply);
        case Retrieval => DispatchRetrieval(next[0], reply);
      }
      done := events.EndEvent();
    }
  }

  lemma HoldsLastBundle(m: Machine, s: Services)
    requires BundleProofs.Inv(m, s) && m.permission == AfterBundle
    ensures var p := m.packing;
            p.generated.Some? && p.finished != [] && p.generated.value == p.finished[|p.finished| - 1]
            && BundleProofs.Sealed(p.generated.value, s)
  {
    hide BundleProofs.Filling, BundleProofs.HasRoom, BundleProofs.Compressed, BundleProofs.ChunksValid,
      BundleProofs.Sealed, BundleProofs.Sources, BundleProofs.Matching;
  }

  /** The parts of the transition table. */
  datatype Part = Snapshots | Chunkwise | Advancing | Sealing | Handing | Retrieval

  function PartOf(state: State, event: Event): Part {
    match state
    case WaitForNewSnapshot => Snapshots
    case HaveChunks => if event == FlushForced then Sealing else Snapshots
    case WaitForExistingBundleInfo => Snapshots
    case HaveExistingBundleInfo => if event == ChunkAlreadyInBundle then Advancing else Snapshots
    case HaveChunkContentsAndHashValidity => if event == ChunkContentsHashMismatch then Advancing else Chunkwise
    case ChunkFinished => if event == MaxBundleSizeReached then Sealing else Advancing
    case HaveBundle => Sealing
    case WaitForEncryption => Handing
    case WaitForBundleHash => Handing
    case WaitForBundleToRecord => Handing
    case WaitForBundleToWrite => Retrieval
    case WaitForBundleRetrieval => Retrieval
    case _ => Chunkwise
  }

  /** What the asserts of an event's handler demand, and that it has a transition. */
  ghost predicate Needs(m: Machine, e: Event) {
    && !m.violated
    && match m.state
       case WaitForNewSnapshot => e == NewSnapshotReady || e == FlushForced
       case HaveChunks =>
         (match e
          case FlushForced => m.packing.bundle.Some? && m.packing.generated.None?
          case NoChunksRemaining => m.chunks.queue == []
          case NewChunkReady => m.chunks.active.Some?
          case _ => false)
       case WaitForExistingBundleInfo => e == ExistingBundleInfoReady && m.chunks.active.Some?
       case HaveExistingBundleInfo => e == ChunkAlreadyInBundle || e == ChunkNotYetInBundle
       case WaitForChunkContents => e == ChunkContentsReady
       case HaveChunkContents => e == ChunkContentsHashReady
       case HaveChunkContentsAndHashValidity => e == ChunkContentsHashMismatch || e == ChunkContentsHashMatch
       case WaitForCompression => e == CompressionDone && m.chunks.active.Some? && m.packing.bundle.Some?
       case ChunkFinished =>
         e == MaxBundleSizeNotReached
         || (e == MaxBundleSizeReached && m.packing.bundle.Some? && m.packing.generated.None?)
       case HaveBundle => e == BundleEmpty || (e == BundleReady && m.packing.generated.Some?)
       case WaitForEncryption => e == EncryptionDone && m.packing.generated.Some?
       case WaitForBundleHash => e == BundleHashed && m.packing.generated.Some?
       case WaitForBundleToRecord => e == BundleRecorded && m.packing.generated.Some?
       case WaitForBundleToWrite => e == BundleWritten && m.packing.generated.Some?
       case WaitForBundleRetrieval => e == ContinueAfterBundleRetrieved && m.packing.bundle.None?
       case Done => false
  }

  // The rows of each part

  lemma SnapshotsRows(m: Machine, e: Event, s: Services, reply: Option<Call>)
    requires Needs(m, e) && PartOf(m.state, e) == Snapshots
    ensures Handle(m, e, s, reply) ==
            if m.state == WaitForNewSnapshot then StartNewSnapshot(m).To(HaveChunks)
            else if m.state == HaveChunks && e == NoChunksRemaining then ResetForNextSnapshot(m, reply).To(WaitForNewSnapshot)
            else if m.state == HaveChunks then GetExistingBundleInfo(m).To(WaitForExistingBundleInfo)
            else if m.state == WaitForExistingBundleInfo then InspectExistingBundleInfo(m).To(HaveExistingBundleInfo)
            else ReadChunkContents(m).To(WaitForChunkContents)
  {
    hide NextChunk, StartNewSnapshot, ResetForNextSnapshot, GetExistingBundleInfo, InspectExistingBundleInfo,
      ReadChunkContents, HashChunkContents, InspectChunkContents, CompressChunkContents, FinishChunk, FinalizeBundle,
      Process, ExecuteBundleReadyCallback, ResetForNextBundle, CleanUp;
  }

  lemma ChunkwiseRows(m: Machine, e: Event, s: Services, reply: Option<Call>)
    requires Needs(m, e) && PartOf(m.state, e) == Chunkwise
    ensures Handle(m, e, s, reply) ==
            if m.state == WaitForChunkContents then HashChunkContents(m).To(HaveChunkContents)
            else if m.state == HaveChunkContents then InspectChunkContents(m).To(HaveChunkContentsAndHashValidity)
            else if e == ChunkContentsHashMatch then CompressChunkContents(m).To(WaitForCompression)
            else FinishChunk(m, s).To(ChunkFinished)
  {
    hide NextChunk, StartNewSnapshot, ResetForNextSnapshot, GetExistingBundleInfo, InspectExistingBundleInfo,
      ReadChunkContents, HashChunkContents, InspectChunkContents, CompressChunkContents, FinishChunk, FinalizeBundle,
      Process, ExecuteBundleReadyCallback, ResetForNextBundle, CleanUp;
  }

  lemma SealingRows(m: Machine, e: Event, s: Services, reply: Option<Call>)
    requires Needs(m, e) && PartOf(m.state, e) == Sealing
    ensures Handle(m, e, s, reply) ==
            if m.state == HaveChunks || m.state == ChunkFinished then FinalizeBundle(m, s).To(HaveBundle)
            else if e == BundleEmpty then CleanUp(m).To(Done)
            else Process(m, EncryptionDone).To(WaitForEncryption)
  {
    hide NextChunk, StartNewSnapshot, ResetForNextSnapshot, GetExistingBundleInfo, InspectExistingBundleInfo,
      ReadChunkContents, HashChunkContents, InspectChunkContents, CompressChunkContents, FinishChunk, FinalizeBundle,
      Process, ExecuteBundleReadyCallback, ResetForNextBundle, CleanUp;
  }

  lemma HandingRows(m: Machine, e: Event, s: Services, reply: Option<Call>)
    requires Needs(m, e) && PartOf(m.state, e) == Handing
    ensures Handle(m, e, s, reply) ==
            if m.state == WaitForEncryption then Process(m, BundleHashed).To(WaitForBundleHash)
            else if m.state == WaitForBundleHash then Process(m, BundleRecorded).To(WaitForBundleToRecord)
            else Process(m, BundleWritten).To(WaitForBundleToWrite)
  {
    hide NextChunk, StartNewSnapshot, ResetForNextSnapshot, GetExistingBundleInfo, InspectExistingBundleInfo,
      ReadChunkContents, HashChunkContents, InspectChunkContents, CompressChunkContents, FinishChunk, FinalizeBundle,
      Process, ExecuteBundleReadyCallback, ResetForNextBundle, CleanUp;
  }

  lemma RetrievalRows(m: Machine, e: Event, s: Services, reply: Option<Call>)
    requires Needs(m, e) && PartOf(m.state, e) == Retrieval
    ensures Handle(m, e, s, reply) ==
            if m.state == WaitForBundleToWrite then ExecuteBundleReadyCallback(m, reply).To(WaitForBundleRetrieval)
            else ResetForNextBundle(m).To(HaveChunks)
  {
    hide NextChunk, StartNewSnapshot, ResetForNextSnapshot, GetExistingBundleInfo, InspectExistingBundleInfo,
      ReadChunkContents, HashChunkContents, InspectChunkContents, CompressChunkContents, FinishChunk, FinalizeBundle,
      Process, ExecuteBundleReadyCallback, ResetForNextBundle, CleanUp;
  }

  /** The invariant gives every handler what its asserts demand. */
  lemma NeedsAreMet(m: Machine, e: Event, s: Services)
    requires BundleProofs.Running(m) && BundleProofs.At(m, s, Some(e), true)
    ensures Needs(m, e)
  {
    hide BundleProofs.FinishedValid, BundleProofs.BundleValid, BundleProofs.Outputs, BundleProofs.Ids,
      BundleProofs.Sources, Lengths;
  }
}
