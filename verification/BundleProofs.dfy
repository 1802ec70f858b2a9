// The bundle state machine's invariant, kept by every step.

module BundleProofs {
  import opened Common
  import opened BundleWriter
  import EventLoop
  import opened BundleModel

  // ---------------------------------------------------------------------------------------------
  // Chunks: every chunk given is resolved, active or still queued, in this order

  function Sources(rs: seq<Resolved>): (cs: seq<Chunk>)
    ensures |cs| == |rs| && forall i :: 0 <= i < |rs| ==> cs[i] == rs[i].chunk
  {
    seq(|rs|, i requires 0 <= i < |rs| => rs[i].chunk)
  }

  /** `inHand`: the active chunk's fate is still open. */
  ghost predicate ChunksValid(c: Chunks, inHand: bool) {
    && (inHand ==> c.active.Some?)
    && c.given == Sources(c.resolved) + (if inHand then [c.active.value] else []) + c.queue
    && c.bytes == Lengths(c.queue)
  }

  lemma {:induction false} LengthsAppend(a: seq<Chunk>, b: seq<Chunk>)
    ensures Lengths(a + b) == Lengths(a) + Lengths(b)
  {
    if a == [] {
      assert a + b == b;
    } else {
      assert (a + b)[1..] == a[1..] + b;
      LengthsAppend(a[1..], b);
    }
  }

  lemma PushKeeps(c: Chunks, cs: seq<Chunk>)
    requires ChunksValid(c, false)
    ensures ChunksValid(c.PushAll(cs), false)
  {
    LengthsAppend(c.queue, cs);
  }

  lemma PopKeeps(c: Chunks)
    requires ChunksValid(c, false) && c.queue != []
    ensures ChunksValid(c.Pop(), true)
  {
    assert c.queue == [c.queue[0]] + c.queue[1..];
  }

  lemma ResolveKeeps(c: Chunks, outcome: Outcome)
    requires ChunksValid(c, true)
    ensures ChunksValid(c.Resolve(outcome), false)
  {
    assert Sources(c.Resolve(outcome).resolved) == Sources(c.resolved) + [c.active.value];
  }

  // ---------------------------------------------------------------------------------------------
  // Packing

  function Ids(blocks: seq<Block>): set<int> {
    set i | 0 <= i < |blocks| :: blocks[i].id
  }

  /** What the compressor put out while it was given `inputs`. */
  function Outputs(inputs: seq<seq<byte>>, s: Services): seq<byte> {
    if inputs == [] then [] else Outputs(inputs[..|inputs| - 1], s) + s.compress(inputs)
  }

  predicate Distinct(blocks: seq<Block>) {
    forall i, j :: 0 <= i < j < |blocks| ==> blocks[i].id != blocks[j].id
  }

  /** Each block comes with contents that hash to its digest. */
  ghost predicate Matching(blocks: seq<Block>, plain: seq<seq<byte>>, s: Services) {
    |blocks| == |plain| && forall i :: 0 <= i < |blocks| ==> s.sha1(plain[i]) == blocks[i].digest
  }

  /** Before the last chunk was added, the bundle was below the maximum size. */
  predicate StoppedInTime(b: Contents, s: Services) {
    |b.plain| > 1 ==> 512 + |Outputs(b.plain[..|b.plain| - 1], s)| < s.maxBundle
  }

  ghost predicate BundleValid(b: Contents, s: Services) {
    && Distinct(b.blocks) && Matching(b.blocks, b.plain, s) && StoppedInTime(b, s)
  }

  /** A generated bundle's payload is the complete output of the compressor for its contents. */
  ghost predicate Sealed(b: Contents, s: Services) {
    b.blocks != [] && BundleValid(b, s) && b.content == Outputs(b.plain, s) + s.finish(b.plain)
  }

  ghost predicate FinishedValid(finished: seq<Contents>, s: Services) {
    forall i :: 0 <= i < |finished| ==> Sealed(finished[i], s)
  }

  /** A bundle is being filled; nothing of the active chunk has reached the compressor. */
  ghost predicate Filling(p: Packing, s: Services) {
    && p.bundle.Some? && p.generated.None?
    && BundleValid(p.bundle.value, s)
    && p.bundle.value.content == Outputs(p.bundle.value.plain, s)
    && p.inputs == p.bundle.value.plain && p.compressed == []
    && p.ids == Ids(p.bundle.value.blocks)
    && FinishedValid(p.finished, s)
  }

  /** The same, with room for one more chunk. */
  ghost predicate HasRoom(p: Packing, s: Services) {
    Filling(p, s) && (p.bundle.value.blocks != [] ==> Size(p.bundle.value) < s.maxBundle)
  }

  ghost predicate Fresh(p: Packing, block: Block) {
    block.id !in p.ids
  }

  /** The active chunk's data is with the compressor. */
  ghost predicate Compressed(p: Packing, block: Block, s: Services) {
    && p.bundle.Some? && p.generated.None?
    && BundleValid(p.bundle.value, s)
    && (p.bundle.value.blocks != [] ==> Size(p.bundle.value) < s.maxBundle)
    && p.bundle.value.content == Outputs(p.bundle.value.plain, s)
    && p.inputs == p.bundle.value.plain + [p.blockData] && p.compressed == s.compress(p.inputs)
    && p.ids == Ids(p.bundle.value.blocks) && block.id !in p.ids
    && s.sha1(p.blockData) == block.digest
    && FinishedValid(p.finished, s)
  }

  /** A generated bundle waits for the client; or it is gone and the next one not yet started. */
  ghost predicate Emptied(p: Packing, s: Services) {
    p.bundle.None? && p.ids == {} && p.compressed == [] && FinishedValid(p.finished, s)
  }

  ghost predicate Holding(p: Packing, s: Services) {
    Emptied(p, s) && p.generated.Some? && p.finished != [] && p.generated.value == p.finished[|p.finished| - 1]
  }

  lemma AppendKeeps(p: Packing, block: Block, s: Services)
    requires Compressed(p, block, s)
    ensures Filling(Pack(p, block), s)
  {
    var b := p.bundle.value;
    var b' := Pack(p, block).bundle.value;
    assert b'.plain[..|b'.plain| - 1] == b.plain;
    assert Outputs(b'.plain, s) == Outputs(b.plain, s) + s.compress(b'.plain);
    IdsSnoc(b.blocks, block);
    assert StoppedInTime(b', s) by {
      hide Outputs;
      if |b'.plain| > 1 {
        assert b.blocks != [];
      }
    }
  }

  lemma IdsSnoc(blocks: seq<Block>, block: Block)
    ensures Ids(blocks + [block]) == Ids(blocks) + {block.id}
    ensures Distinct(blocks) && block.id !in Ids(blocks) ==> Distinct(blocks + [block])
  {
    var all := blocks + [block];
    assert all[|blocks|] == block;
    assert forall i :: 0 <= i < |blocks| ==> all[i] == blocks[i];
  }

  lemma SealKeeps(p: Packing, s: Services)
    requires Filling(p, s) && p.bundle.value.blocks != []
    ensures Holding(Seal(p, s), s)
  {
    hide Outputs, Distinct, Matching;
    assert [] + s.finish(p.inputs) == s.finish(p.inputs);
  }

  // ---------------------------------------------------------------------------------------------
  // Where the machine can be, and what then holds

  /** The one event on its way: queued, or to be delivered by an outstanding callback. */
  function Token(l: EventLoop.Loop<Event>): Option<Event> {
    if l.queue != [] then Some(l.queue[0]) else if l.outstanding != [] then Some(l.outstanding[0]) else None
  }

  ghost predicate Unresolved(m: Machine, s: Services) {
    ChunksValid(m.chunks, true) && HasRoom(m.packing, s)
  }

  /** The active chunk's block is not yet in the bundle. */
  ghost predicate Wanted(m: Machine, s: Services) {
    Unresolved(m, s) && Fresh(m.packing, m.chunks.active.value.block)
  }

  ghost predicate Verified(m: Machine, s: Services) {
    Wanted(m, s) && s.sha1(m.packing.blockData) == m.chunks.active.value.block.digest
  }

  ghost predicate Settled(m: Machine, s: Services) {
    ChunksValid(m.chunks, false) && HasRoom(m.packing, s)
  }

  ghost predicate Waiting(m: Machine, s: Services) {
    ChunksValid(m.chunks, false) && Holding(m.packing, s)
  }

  /** What holds in each state with event `e` on its way; `delivered`: it is in the queue. */
  ghost predicate At(m: Machine, s: Services, e: Option<Event>, delivered: bool) {
    match m.state
    case WaitForNewSnapshot =>
      && Settled(m, s) && m.chunks.queue == []
      && (match e
          case None => m.chunks.snapshot.None? && (m.permission == FirstSnapshot || (m.permission == AfterSnapshot && m.loop.idle))
          case Some(NewSnapshotReady) => m.chunks.snapshot.Some?
          case Some(FlushForced) => m.chunks.snapshot.None?
          case _ => false)
    case HaveChunks =>
      (match e
       case Some(NewChunkReady) => Unresolved(m, s)
       case Some(NoChunksRemaining) => Settled(m, s) && m.chunks.queue == []
       case Some(FlushForced) => Settled(m, s) && m.chunks.queue == []
       case _ => false)
    case WaitForExistingBundleInfo => e == Some(ExistingBundleInfoReady) && Unresolved(m, s)
    case HaveExistingBundleInfo =>
      (match e
       case Some(ChunkAlreadyInBundle) => Settled(m, s)
       case Some(ChunkNotYetInBundle) => Wanted(m, s)
       case _ => false)
    case WaitForChunkContents => e == Some(ChunkContentsReady) && Wanted(m, s)
    case HaveChunkContents =>
      && e == Some(ChunkContentsHashReady) && Wanted(m, s)
      && (delivered ==>
            m.packing.hashValid == (s.sha1(m.packing.blockData) == m.chunks.active.value.block.digest))
    case HaveChunkContentsAndHashValidity =>
      (match e
       case Some(ChunkContentsHashMismatch) => Settled(m, s)
       case Some(ChunkContentsHashMatch) => Verified(m, s)
       case _ => false)
    case WaitForCompression =>
      && e == Some(CompressionDone) && ChunksValid(m.chunks, true)
      && if delivered then Compressed(m.packing, m.chunks.active.value.block, s) else Verified(m, s)
    case ChunkFinished =>
      (match e
       case Some(MaxBundleSizeNotReached) => Settled(m, s)
       case Some(MaxBundleSizeReached) =>
         ChunksValid(m.chunks, false) && Filling(m.packing, s) && m.packing.bundle.value.blocks != []
       case _ => false)
    case HaveBundle =>
      (match e
       case Some(BundleEmpty) => Settled(m, s) && m.chunks.queue == [] && m.packing.bundle.value.blocks == []
       case Some(BundleReady) => Waiting(m, s)
       case _ => false)
    case WaitForEncryption => e == Some(EncryptionDone) && Waiting(m, s)
    case WaitForBundleHash => e == Some(BundleHashed) && Waiting(m, s)
    case WaitForBundleToRecord => e == Some(BundleRecorded) && Waiting(m, s)
    case WaitForBundleToWrite => e == Some(BundleWritten) && Waiting(m, s)
    case WaitForBundleRetrieval =>
      (match e
       case None => Waiting(m, s) && m.permission == AfterBundle && m.loop.idle
       case Some(ContinueAfterBundleRetrieved) =>
         ChunksValid(m.chunks, false) && Emptied(m.packing, s) && m.packing.generated.None?
       case _ => false)
    case Done =>
      e == None && m.permission == Nothing && Settled(m, s) && m.chunks.queue == [] && m.packing.bundle.value.blocks == []
  }

  /** One event at most is on its way, the client may call only when none is, and a flush is pending
      only while its first event is. */
  ghost predicate Controlled(m: Machine) {
    && m.loop.Valid()
    && |m.loop.queue| + |m.loop.outstanding| <= 1
    && (Token(m.loop).Some? ==> m.permission == Nothing)
    && (m.flushRequested <==> m.state == WaitForNewSnapshot && Token(m.loop) == Some(FlushForced))
    && !m.violated
  }

  ghost predicate Inv(m: Machine, s: Services) {
    Controlled(m) && At(m, s, Token(m.loop), m.loop.queue != [])
  }

  lemma InitialInv(s: Services)
    ensures Inv(NewMachine(), s)
  {
  }

  // ---------------------------------------------------------------------------------------------
  // Handlers

  /** The machine as a handler finds it: its event taken off the queue. */
  ghost predicate Running(m: Machine) {
    m.loop.Quiet() && m.loop.Valid() && m.permission == Nothing && !m.violated
  }

  /** A handler posts one event or creates one callback. */
  lemma OneTokenMore(l: EventLoop.Loop<Event>)
    requires l.Quiet() && l.Valid()
    ensures forall e :: l.Post(e).Valid() && l.Post(e).queue == [e] && l.Post(e).outstanding == []
    ensures forall e :: l.CreateCallback(e).Valid() && l.CreateCallback(e).queue == []
                        && l.CreateCallback(e).outstanding == [e]
  {
    EventLoop.ExternalsSnoc(l.tasks, false);
  }

  lemma NextChunkKeeps(m: Machine, s: Services)
    requires Running(m) && Settled(m, s)
    requires m.flushRequested ==> m.chunks.queue == []
    ensures Inv(NextChunk(m).To(HaveChunks), s)
  {
    OneTokenMore(m.loop);
    hide HasRoom, ChunksValid;
    if m.chunks.queue != [] {
      PopKeeps(m.chunks);
    }
  }

  lemma StartNewSnapshotKeeps(m: Machine, s: Services)
    requires Running(m) && Settled(m, s) && m.chunks.queue == []
    requires m.flushRequested ==> m.chunks.snapshot.None?
    ensures Inv(StartNewSnapshot(m).To(HaveChunks), s)
  {
    hide HasRoom, ChunksValid, NextChunk;
    if m.chunks.snapshot.Some? {
      PushKeeps(m.chunks, m.chunks.snapshot.value);
      NextChunkKeeps(m.(chunks := m.chunks.PushAll(m.chunks.snapshot.value)), s);
    } else {
      NextChunkKeeps(m, s);
    }
  }

  lemma ResetForNextSnapshotKeeps(m: Machine, s: Services, reply: Option<Call>)
    requires Running(m) && Settled(m, s) && m.chunks.queue == [] && !m.flushRequested
    ensures Inv(ResetForNextSnapshot(m, reply).To(WaitForNewSnapshot), s)
  {
    OneTokenMore(m.loop);
    hide HasRoom;
  }

  lemma GetExistingBundleInfoKeeps(m: Machine, s: Services)
    requires Running(m) && Unresolved(m, s) && !m.flushRequested
    ensures Inv(GetExistingBundleInfo(m).To(WaitForExistingBundleInfo), s)
  {
    OneTokenMore(m.loop);
    hide BundleValid, Outputs, FinishedValid, Ids;
  }

  lemma InspectExistingBundleInfoKeeps(m: Machine, s: Services)
    requires Running(m) && Unresolved(m, s) && !m.flushRequested
    ensures Inv(InspectExistingBundleInfo(m).To(HaveExistingBundleInfo), s)
  {
    OneTokenMore(m.loop);
    assert m.chunks.active.Some?;
    hide HasRoom, ChunksValid;
    forall outcome ensures ChunksValid(m.chunks.Resolve(outcome), false) {
      ResolveKeeps(m.chunks, outcome);
    }
  }

  lemma ReadChunkContentsKeeps(m: Machine, s: Services)
    requires Running(m) && Wanted(m, s) && !m.flushRequested
    ensures Inv(ReadChunkContents(m).To(WaitForChunkContents), s)
  {
    OneTokenMore(m.loop);
    hide BundleValid, Outputs, FinishedValid, Ids, ChunksValid;
  }

  lemma HashChunkContentsKeeps(m: Machine, s: Services)
    requires Running(m) && Wanted(m, s) && !m.flushRequested
    ensures Inv(HashChunkContents(m).To(HaveChunkContents), s)
  {
    OneTokenMore(m.loop);
    hide BundleValid, Outputs, FinishedValid, Ids, ChunksValid;
  }

  lemma InspectChunkContentsKeeps(m: Machine, s: Services)
    requires Running(m) && Wanted(m, s) && !m.flushRequested
    requires m.packing.hashValid == (s.sha1(m.packing.blockData) == m.chunks.active.value.block.digest)
    ensures Inv(InspectChunkContents(m).To(HaveChunkContentsAndHashValidity), s)
  {
    OneTokenMore(m.loop);
    hide HasRoom, ChunksValid;
    ResolveKeeps(m.chunks, HashMismatch(m.packing.blockData));
  }

  lemma FinishedChunk(m: Machine, s: Services)
    requires !m.violated && ChunksValid(m.chunks, true) && Compressed(m.packing, m.chunks.active.value.block, s)
    ensures var packing := Pack(m.packing, m.chunks.active.value.block);
            var chunks := m.chunks.Resolve(Appended);
            && Filling(packing, s) && packing.bundle.value.blocks != [] && ChunksValid(chunks, false)
            && FinishChunk(m, s) == m.(packing := packing, chunks := chunks)
                                     .Post(if Size(packing.bundle.value) >= s.maxBundle then MaxBundleSizeReached
                                           else MaxBundleSizeNotReached)
  {
    ResolveKeeps(m.chunks, Appended);
    AppendKeeps(m.packing, m.chunks.active.value.block, s);
    hide Filling, BundleValid, Outputs, FinishedValid, Ids;
    assert !m.Assert(m.chunks.active.Some?).Assert(m.packing.bundle.Some?).violated;
  }

  lemma FinishChunkKeeps(m: Machine, s: Services)
    requires Running(m) && !m.flushRequested
    requires ChunksValid(m.chunks, true) && Compressed(m.packing, m.chunks.active.value.block, s)
    ensures Inv(FinishChunk(m, s).To(ChunkFinished), s)
  {
    hide Compressed, ChunksValid, Filling, Pack, Size, FinishChunk;
    OneTokenMore(m.loop);
    FinishedChunk(m, s);
  }

  lemma FinalizeBundleKeeps(m: Machine, s: Services)
    requires Running(m) && !m.flushRequested && ChunksValid(m.chunks, false) && Filling(m.packing, s)
    requires m.packing.bundle.value.blocks == [] ==> m.chunks.queue == []
    ensures Inv(FinalizeBundle(m, s).To(HaveBundle), s)
  {
    OneTokenMore(m.loop);
    hide ChunksValid, BundleValid, Outputs, FinishedValid, Ids, Seal, Holding;
    if m.packing.bundle.value.blocks != [] {
      SealKeeps(m.packing, s);
    }
  }

  lemma ProcessKeeps(m: Machine, s: Services, e: Event, next: State)
    requires Running(m) && !m.flushRequested && Waiting(m, s)
    requires (e, next) in {(EncryptionDone, WaitForEncryption), (BundleHashed, WaitForBundleHash),
                           (BundleRecorded, WaitForBundleToRecord), (BundleWritten, WaitForBundleToWrite)}
    ensures Inv(Process(m, e).To(next), s)
  {
    OneTokenMore(m.loop);
    hide ChunksValid, FinishedValid;
  }

  lemma ExecuteBundleReadyCallbackKeeps(m: Machine, s: Services, reply: Option<Call>)
    requires Running(m) && !m.flushRequested && Waiting(m, s)
    ensures Inv(ExecuteBundleReadyCallback(m, reply).To(WaitForBundleRetrieval), s)
  {
    OneTokenMore(m.loop);
    hide ChunksValid, FinishedValid;
  }

  lemma ResetForNextBundleKeeps(m: Machine, s: Services)
    requires Running(m) && !m.flushRequested && ChunksValid(m.chunks, false) && Emptied(m.packing, s)
    ensures Inv(ResetForNextBundle(m).To(HaveChunks), s)
  {
    var m' := m.Assert(m.packing.bundle.None?)
               .(packing := m.packing.(generated := None, bundle := Some(EMPTY), ids := {}, inputs := []));
    assert HasRoom(m'.packing, s);
    hide NextChunk, ChunksValid, HasRoom;
    NextChunkKeeps(m', s);
  }

  lemma CleanUpKeeps(m: Machine, s: Services)
    requires Running(m) && !m.flushRequested && Settled(m, s) && m.chunks.queue == []
    requires m.packing.bundle.value.blocks == []
    ensures Inv(CleanUp(m).To(Done), s)
  {
    hide ChunksValid;
  }

  /** Whatever event is next, its handler keeps the invariant. */
  lemma HandleKeeps(m: Machine, e: Event, s: Services, reply: Option<Call>)
    requires Running(m) && At(m, s, Some(e), true)
    requires m.flushRequested <==> m.state == WaitForNewSnapshot && e == FlushForced
    ensures Inv(Handle(m, e, s, reply), s)
  {
    hide Inv, NextChunk, StartNewSnapshot, ResetForNextSnapshot, GetExistingBundleInfo, InspectExistingBundleInfo,
      ReadChunkContents, HashChunkContents, InspectChunkContents, FinishChunk, FinalizeBundle, Process,
      ExecuteBundleReadyCallback, ResetForNextBundle, CleanUp, ChunksValid, BundleValid, FinishedValid;
    match m.state
    case WaitForNewSnapshot => StartNewSnapshotKeeps(m, s);
    case HaveChunks =>
      match e {
        case NewChunkReady => GetExistingBundleInfoKeeps(m, s);
        case NoChunksRemaining => ResetForNextSnapshotKeeps(m, s, reply);
        case _ => FinalizeBundleKeeps(m, s);
      }
    case WaitForExistingBundleInfo => InspectExistingBundleInfoKeeps(m, s);
    case HaveExistingBundleInfo =>
      if e == ChunkAlreadyInBundle { NextChunkKeeps(m, s); } else { ReadChunkContentsKeeps(m, s); }
    case WaitForChunkContents => HashChunkContentsKeeps(m, s);
    case HaveChunkContents => InspectChunkContentsKeeps(m, s);
    case HaveChunkContentsAndHashValidity =>
      if e == ChunkContentsHashMismatch { NextChunkKeeps(m, s); } else { CompressKeeps(m, s); }
    case WaitForCompression => FinishChunkKeeps(m, s);
    case ChunkFinished =>
      if e == MaxBundleSizeNotReached { NextChunkKeeps(m, s); } else { FinalizeBundleKeeps(m, s); }
    case HaveBundle =>
      if e == BundleEmpty { CleanUpKeeps(m, s); } else { ProcessKeeps(m, s, EncryptionDone, WaitForEncryption); }
    case WaitForEncryption => ProcessKeeps(m, s, BundleHashed, WaitForBundleHash);
    case WaitForBundleHash => ProcessKeeps(m, s, BundleRecorded, WaitForBundleToRecord);
    case WaitForBundleToRecord => ProcessKeeps(m, s, BundleWritten, WaitForBundleToWrite);
    case WaitForBundleToWrite => ExecuteBundleReadyCallbackKeeps(m, s, reply);
    case WaitForBundleRetrieval => ResetForNextBundleKeeps(m, s);
    case Done =>
  }

  lemma CompressKeeps(m: Machine, s: Services)
    requires Running(m) && Verified(m, s) && !m.flushRequested
    ensures Inv(CompressChunkContents(m).To(WaitForCompression), s)
  {
    OneTokenMore(m.loop);
    hide ChunksValid, HasRoom;
  }

  // ---------------------------------------------------------------------------------------------
  // Steps

  lemma RunNextEventKeeps(m: Machine, s: Services, reply: Option<Call>)
    requires Inv(m, s) && m.loop.tasks != []
    ensures Inv(Next(m, s, RunNextEvent(reply)), s)
  {
    hide At, Handle;
    TakesItsEvent(m, s);
    HandleKeeps(m.(loop := m.loop.Begin()), m.loop.queue[0], s, reply);
  }

  /** The task takes the only event there is, and its handler finds what it expects. */
  lemma TakesItsEvent(m: Machine, s: Services)
    requires Inv(m, s) && m.loop.tasks != []
    ensures m.loop.queue != [] && Token(m.loop) == Some(m.loop.queue[0])
    ensures Running(m.(loop := m.loop.Begin())) && At(m.(loop := m.loop.Begin()), s, Some(m.loop.queue[0]), true)
  {
    hide ChunksValid, HasRoom, Compressed, Filling, Emptied, FinishedValid, Fresh;
    EventLoop.TaskFindsItsEvent(m.loop);
    BeginQuiet(m.loop);
  }

  lemma BeginQuiet(l: EventLoop.Loop<Event>)
    requires l.Valid() && |l.queue| + |l.outstanding| <= 1 && l.tasks != []
    ensures l.queue != [] && l.Begin().Quiet() && l.Begin().Valid()
  {
    EventLoop.StepKeeps(l, EventLoop.BeginStep);
  }

  lemma CompleteKeeps(m: Machine, s: Services, i: nat, d: Delivery)
    requires Inv(m, s) && i < |m.loop.outstanding|
    ensures Inv(Next(m, s, Complete(i, d)), s)
  {
    EventLoop.StepKeeps(m.loop, EventLoop.InvokeStep(i));
    var e := m.loop.outstanding[i];
    var m' := Next(m, s, Complete(i, d));
    assert m'.loop.queue == [e] && m'.loop.outstanding == [];
    hide At;
    DeliverKeeps(m, s, e, d, m'.loop);
  }

  /** What a service delivers is what the handler of its event expects. */
  lemma DeliverKeeps(m: Machine, s: Services, e: Event, d: Delivery, l: EventLoop.Loop<Event>)
    requires At(m, s, Some(e), false) && m.permission == Nothing
    ensures At(m.(packing := Deliver(m.packing, m.chunks.active, e, d, s), loop := l), s, Some(e), true)
  {
    hide ChunksValid, FinishedValid, HasRoom, Filling, Compressed, Emptied;
    if e == CompressionDone {
      CompressedKeeps(m.packing, m.chunks, s);
    } else {
      OnlyTheBundleMatters(m.packing, Deliver(m.packing, m.chunks.active, e, d, s), s);
      if m.state == HaveChunkContents {
        InHandIsActive(m.chunks);
      }
    }
  }

  lemma InHandIsActive(c: Chunks)
    requires ChunksValid(c, true)
    ensures c.active.Some?
  {
    hide Sources, Lengths;
  }

  lemma OnlyTheBundleMatters(p: Packing, p': Packing, s: Services)
    requires p' == p.(annotation := p'.annotation, blockData := p'.blockData, hashValid := p'.hashValid)
    ensures HasRoom(p', s) == HasRoom(p, s) && Filling(p', s) == Filling(p, s)
    ensures Emptied(p', s) == Emptied(p, s) && Holding(p', s) == Holding(p, s)
  {
    hide FinishedValid, BundleValid, Outputs, Ids;
  }

  lemma CompressedKeeps(p: Packing, c: Chunks, s: Services)
    requires ChunksValid(c, true) && HasRoom(p, s) && Fresh(p, c.active.value.block)
    requires s.sha1(p.blockData) == c.active.value.block.digest
    ensures Compressed(p.(inputs := p.inputs + [p.blockData], compressed := p.compressed + s.compress(p.inputs + [p.blockData])),
                       c.active.value.block, s)
  {
    hide FinishedValid, BundleValid, Outputs, Ids, ChunksValid;
    assert [] + s.compress(p.inputs + [p.blockData]) == s.compress(p.inputs + [p.blockData]);
  }

  lemma ClientCallKeeps(m: Machine, s: Services, call: Call)
    requires Inv(m, s) && Allowed(m.permission, call)
    ensures Inv(Next(m, s, ClientCall(call)), s)
  {
    hide HasRoom, FinishedValid, Lengths, Sources;
    assert m.loop.Quiet();
    OneTokenMore(m.loop);
  }

  /** Main invariant: every step of the machine keeps it. */
  lemma StepKeeps(m: Machine, s: Services, step: BundleModel.Step)
    requires Inv(m, s) && Enabled(m, step)
    ensures Inv(Next(m, s, step), s)
  {
    hide Inv, Next;
    match step
    case ClientCall(call) => ClientCallKeeps(m, s, call);
    case Complete(i, d) => CompleteKeeps(m, s, i, d);
    case RunNextEvent(reply) => RunNextEventKeeps(m, s, reply);
  }
}
