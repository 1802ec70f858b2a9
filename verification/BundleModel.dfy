// The bundle state machine (bundle-state-machine.h, bundle-state-machine.cc): takes the chunks of
// snapshots, drops those it need not store, and packs the compressed rest into bundles. Handlers are
// functions from state to state; an assert that would fail, or an event with no transition, sets
// `violated`. `Chunks` and `Packing` also remember what happened, for the theorems to speak about.

module BundleModel {
  import opened Common
  import opened BundleWriter
  import opened EventLoop

  // ---------------------------------------------------------------------------------------------
  // Chunks and what becomes of them

  /** A chunk is a block at an offset of a file. */
  datatype Chunk = Chunk(offset: nat, block: Block)

  datatype Outcome = AlreadyRecorded(bundleId: int) | AlreadyActive | HashMismatch(data: seq<byte>) | Appended

  datatype Resolved = Resolved(chunk: Chunk, outcome: Outcome)

  function Lengths(cs: seq<Chunk>): nat {
    if cs == [] then 0 else cs[0].block.length + Lengths(cs[1..])
  }

  /** `given` are all chunks ever pushed, `resolved` those whose fate is decided. */
  datatype Chunks = Chunks(
    snapshot: Option<seq<Chunk>>, queue: seq<Chunk>, bytes: int, active: Option<Chunk>, given: seq<Chunk>,
    resolved: seq<Resolved>)
  {
    function PushAll(cs: seq<Chunk>): Chunks {
      this.(queue := queue + cs, bytes := bytes + Lengths(cs), given := given + cs)
    }

    function Pop(): Chunks
      requires queue != []
    {
      this.(active := Some(queue[0]), queue := queue[1..], bytes := bytes - queue[0].block.length)
    }

    function Resolve(outcome: Outcome): Chunks {
      if active.None? then this else this.(resolved := resolved + [Resolved(active.value, outcome)])
    }
  }

  // ---------------------------------------------------------------------------------------------
  // Bundles

  /** The payload of a bundle, and the plain contents that were compressed into it. */
  datatype Contents = Contents(blocks: seq<Block>, content: seq<byte>, plain: seq<seq<byte>>)

  /** Size of the bundle being written: nothing before the payload is started. */
  function Size(bundle: Contents): nat {
    if bundle.blocks == [] then 0 else 512 + |bundle.content|
  }

  /** `annotation` is the id of the existing bundle found for the active chunk; `inputs` is what the
      compressor was given since it was initialized; `finished` are all bundles ever generated. */
  datatype Packing = Packing(
    annotation: Option<int>, blockData: seq<byte>, hashValid: bool, compressed: seq<byte>, inputs: seq<seq<byte>>,
    bundle: Option<Contents>, ids: set<int>, generated: Option<Contents>, finished: seq<Contents>)

  const EMPTY: Contents := Contents([], [], [])

  /** The maximum bundle size, SHA-1, and the compressor: what it puts out for the last of its inputs
      so far, what it puts out at the end, and its inverse. */
  datatype Services = Services(
    maxBundle: nat, sha1: seq<byte> -> seq<byte>, compress: seq<seq<byte>> -> seq<byte>,
    finish: seq<seq<byte>> -> seq<byte>, decompress: seq<byte> -> Option<seq<byte>>)

  // ---------------------------------------------------------------------------------------------
  // The machine

  datatype State =
    | WaitForNewSnapshot | HaveChunks | WaitForExistingBundleInfo | HaveExistingBundleInfo | WaitForChunkContents
    | HaveChunkContents | HaveChunkContentsAndHashValidity | WaitForCompression | ChunkFinished | HaveBundle
    | WaitForEncryption | WaitForBundleHash | WaitForBundleToRecord | WaitForBundleToWrite | WaitForBundleRetrieval
    | Done

  datatype Event =
    | NewSnapshotReady | NoChunksRemaining | NewChunkReady | ExistingBundleInfoReady | ChunkAlreadyInBundle
    | ChunkNotYetInBundle | ChunkContentsReady | ChunkContentsHashReady | ChunkContentsHashMismatch
    | ChunkContentsHashMatch | CompressionDone | MaxBundleSizeNotReached | MaxBundleSizeReached | BundleEmpty
    | BundleReady | EncryptionDone | BundleHashed | BundleRecorded | BundleWritten | ContinueAfterBundleRetrieved
    | FlushForced

  /** Which call the client may make next: each callback allows one. */
  datatype Permission = Nothing | FirstSnapshot | AfterSnapshot | AfterBundle

  datatype Machine = Machine(
    state: State, loop: Loop<Event>, permission: Permission, flushRequested: bool, violated: bool, chunks: Chunks,
    packing: Packing)
  {
    function Post(e: Event): Machine {
      this.(loop := loop.Post(e))
    }

    function Await(e: Event): Machine {
      this.(loop := loop.CreateCallback(e))
    }

    function Assert(ok: bool): Machine {
      this.(violated := violated || !ok)
    }

    function To(next: State): Machine {
      this.(state := next)
    }
  }

  function NewMachine(): Machine {
    Machine(WaitForNewSnapshot, NewLoop(), FirstSnapshot, false, false,
            Chunks(None, [], 0, None, [], []), Packing(None, [], false, [], [], Some(EMPTY), {}, None, []))
  }

  // ---------------------------------------------------------------------------------------------
  // Client calls

  datatype Call = BundleSnapshot(chunks: seq<Chunk>) | Continue | FlushCurrentBundle

  /** The header's call rules. */
  predicate Allowed(permission: Permission, call: Call) {
    match call
    case BundleSnapshot(_) => permission == FirstSnapshot || permission == AfterSnapshot
    case Continue => permission == AfterBundle
    case FlushCurrentBundle => permission == AfterSnapshot
  }

  function Invoke(m: Machine, call: Call): Machine {
    var n := m.(permission := Nothing);
    match call
    case BundleSnapshot(cs) =>
      n.Assert(m.chunks.snapshot.None?).(chunks := m.chunks.(snapshot := Some(cs))).Post(NewSnapshotReady)
    case Continue =>
      n.Assert(m.packing.generated.Some?).(packing := m.packing.(generated := None)).Post(ContinueAfterBundleRetrieved)
    case FlushCurrentBundle => n.(flushRequested := true).Post(FlushForced)
  }

  /** A callback to the client, who may answer from inside it. */
  function CallBack(m: Machine, permission: Permission, reply: Option<Call>): Machine {
    var n := m.(permission := permission);
    if reply.Some? && Allowed(permission, reply.value) then Invoke(n, reply.value) else n
  }

  // ---------------------------------------------------------------------------------------------
  // Handlers

  function NextChunk(m: Machine): Machine {
    if m.chunks.queue != [] then m.(chunks := m.chunks.Pop()).Post(NewChunkReady)
    else if m.flushRequested then m.(flushRequested := false).Post(FlushForced)
    else
      var n := m.Post(NoChunksRemaining);
      n.(loop := n.loop.SetIdle(true))
  }

  function StartNewSnapshot(m: Machine): Machine {
    NextChunk(if m.chunks.snapshot.Some? then m.(chunks := m.chunks.PushAll(m.chunks.snapshot.value)) else m)
  }

  function ResetForNextSnapshot(m: Machine, reply: Option<Call>): Machine {
    var n := CallBack(m.Assert(m.chunks.queue == []).(chunks := m.chunks.(snapshot := None)), AfterSnapshot, reply);
    if n.flushRequested then n else n.(loop := n.loop.SetIdle(true))
  }

  function GetExistingBundleInfo(m: Machine): Machine {
    var n := m.Assert(m.chunks.active.Some?).(packing := m.packing.(annotation := None));
    if m.chunks.active.Some? && m.chunks.active.value.block.id in m.packing.ids then n.Post(ExistingBundleInfoReady)
    else n.Await(ExistingBundleInfoReady)
  }

  function InspectExistingBundleInfo(m: Machine): Machine {
    var n := m.Assert(m.chunks.active.Some?);
    if m.packing.annotation.Some? && m.packing.annotation.value >= 0 then
      n.(chunks := m.chunks.Resolve(AlreadyRecorded(m.packing.annotation.value))).Post(ChunkAlreadyInBundle)
    else if m.chunks.active.Some? && m.chunks.active.value.block.id in m.packing.ids then
      n.(chunks := m.chunks.Resolve(AlreadyActive)).Post(ChunkAlreadyInBundle)
    else n.Post(ChunkNotYetInBundle)
  }

  function ReadChunkContents(m: Machine): Machine {
    m.(packing := m.packing.(blockData := [])).Await(ChunkContentsReady)
  }

  function HashChunkContents(m: Machine): Machine {
    m.(packing := m.packing.(hashValid := false)).Await(ChunkContentsHashReady)
  }

  function InspectChunkContents(m: Machine): Machine {
    if m.packing.hashValid then m.Post(ChunkContentsHashMatch)
    else m.(chunks := m.chunks.Resolve(HashMismatch(m.packing.blockData))).Post(ChunkContentsHashMismatch)
  }

  function CompressChunkContents(m: Machine): Machine {
    m.Await(CompressionDone)
  }

  /** The active chunk's block goes into the bundle, with what the compressor put out for it. */
  function Pack(p: Packing, block: Block): Packing
    requires p.bundle.Some?
  {
    var b := p.bundle.value;
    p.(blockData := [], compressed := [], ids := p.ids + {block.id},
       bundle := Some(Contents(b.blocks + [block], b.content + p.compressed, b.plain + [p.blockData])))
  }

  function FinishChunk(m: Machine, s: Services): Machine {
    var n := m.Assert(m.chunks.active.Some?).Assert(m.packing.bundle.Some?);
    if n.violated || m.chunks.active.None? || m.packing.bundle.None? then n
    else
      var packing := Pack(m.packing, m.chunks.active.value.block);
      n.(packing := packing, chunks := m.chunks.Resolve(Appended))
       .Post(if Size(packing.bundle.value) >= s.maxBundle then MaxBundleSizeReached else MaxBundleSizeNotReached)
  }

  /** The bundle with the compressor's last output becomes the generated bundle. */
  function Seal(p: Packing, s: Services): Packing
    requires p.bundle.Some?
  {
    var sealed := p.bundle.value.(content := p.bundle.value.content + (p.compressed + s.finish(p.inputs)));
    p.(compressed := [], bundle := None, ids := {}, generated := Some(sealed), finished := p.finished + [sealed])
  }

  function FinalizeBundle(m: Machine, s: Services): Machine {
    var n := m.Assert(m.packing.bundle.Some?).Assert(m.packing.generated.None?);
    if m.packing.bundle.None? then n
    else if m.packing.bundle.value.blocks == [] then n.Post(BundleEmpty)
    else n.(packing := Seal(m.packing, s)).Post(BundleReady)
  }

  /** Encrypting, hashing, recording and writing the generated bundle. */
  function Process(m: Machine, finished: Event): Machine {
    m.Assert(m.packing.generated.Some?).Await(finished)
  }

  function ExecuteBundleReadyCallback(m: Machine, reply: Option<Call>): Machine {
    var n := CallBack(m, AfterBundle, reply);
    if n.flushRequested then n else n.(loop := n.loop.SetIdle(true))
  }

  function ResetForNextBundle(m: Machine): Machine {
    NextChunk(m.Assert(m.packing.bundle.None?)
               .(packing := m.packing.(generated := None, bundle := Some(EMPTY), ids := {}, inputs := [])))
  }

  function CleanUp(m: Machine): Machine {
    m.(loop := m.loop.SetIdle(false))
  }

  /** The transition table: the handler and the next state. */
  function Handle(m: Machine, e: Event, s: Services, reply: Option<Call>): Machine {
    match (m.state, e)
    case (WaitForNewSnapshot, NewSnapshotReady) => StartNewSnapshot(m).To(HaveChunks)
    case (WaitForNewSnapshot, FlushForced) => StartNewSnapshot(m).To(HaveChunks)
    case (HaveChunks, FlushForced) => FinalizeBundle(m, s).To(HaveBundle)
    case (HaveChunks, NoChunksRemaining) => ResetForNextSnapshot(m, reply).To(WaitForNewSnapshot)
    case (HaveChunks, NewChunkReady) => GetExistingBundleInfo(m).To(WaitForExistingBundleInfo)
    case (WaitForExistingBundleInfo, ExistingBundleInfoReady) => InspectExistingBundleInfo(m).To(HaveExistingBundleInfo)
    case (HaveExistingBundleInfo, ChunkAlreadyInBundle) => NextChunk(m).To(HaveChunks)
    case (HaveExistingBundleInfo, ChunkNotYetInBundle) => ReadChunkContents(m).To(WaitForChunkContents)
    case (WaitForChunkContents, ChunkContentsReady) => HashChunkContents(m).To(HaveChunkContents)
    case (HaveChunkContents, ChunkContentsHashReady) => InspectChunkContents(m).To(HaveChunkContentsAndHashValidity)
    case (HaveChunkContentsAndHashValidity, ChunkContentsHashMismatch) => NextChunk(m).To(HaveChunks)
    case (HaveChunkContentsAndHashValidity, ChunkContentsHashMatch) => CompressChunkContents(m).To(WaitForCompression)
    case (WaitForCompression, CompressionDone) => FinishChunk(m, s).To(ChunkFinished)
    case (ChunkFinished, MaxBundleSizeNotReached) => NextChunk(m).To(HaveChunks)
    case (ChunkFinished, MaxBundleSizeReached) => FinalizeBundle(m, s).To(HaveBundle)
    case (HaveBundle, BundleEmpty) => CleanUp(m).To(Done)
    case (HaveBundle, BundleReady) => Process(m, EncryptionDone).To(WaitForEncryption)
    case (WaitForEncryption, EncryptionDone) => Process(m, BundleHashed).To(WaitForBundleHash)
    case (WaitForBundleHash, BundleHashed) => Process(m, BundleRecorded).To(WaitForBundleToRecord)
    case (WaitForBundleToRecord, BundleRecorded) => Process(m, BundleWritten).To(WaitForBundleToWrite)
    case (WaitForBundleToWrite, BundleWritten) => ExecuteBundleReadyCallback(m, reply).To(WaitForBundleRetrieval)
    case (WaitForBundleRetrieval, ContinueAfterBundleRetrieved) => ResetForNextBundle(m).To(HaveChunks)
    case (WaitForBundleRetrieval, FlushForced) => ResetForNextBundle(m).To(HaveChunks)
    case _ => m.Assert(false)
  }

  // ---------------------------------------------------------------------------------------------
  // Steps

  /** What a service delivers with its callback: the bundle a block was found in, a chunk's data. */
  datatype Delivery = Delivery(annotation: Option<int>, data: seq<byte>)

  function Deliver(p: Packing, active: Option<Chunk>, e: Event, d: Delivery, s: Services): Packing {
    match e
    case ExistingBundleInfoReady => p.(annotation := d.annotation)
    case ChunkContentsReady => p.(blockData := d.data)
    case ChunkContentsHashReady =>
      p.(hashValid := active.Some? && s.sha1(p.blockData) == active.value.block.digest)
    case CompressionDone =>
      p.(inputs := p.inputs + [p.blockData], compressed := p.compressed + s.compress(p.inputs + [p.blockData]))
    case _ => p
  }

  datatype Step =
    | ClientCall(call: Call)
    | Complete(callback: nat, delivery: Delivery)
    | RunNextEvent(reply: Option<Call>)

  predicate Enabled(m: Machine, step: Step) {
    match step
    case ClientCall(call) => Allowed(m.permission, call)
    case Complete(i, _) => i < |m.loop.outstanding|
    case RunNextEvent(_) => m.loop.tasks != []
  }

  function Next(m: Machine, s: Services, step: Step): Machine
    requires Enabled(m, step)
  {
    match step
    case ClientCall(call) => Invoke(m, call)
    case Complete(i, d) =>
      m.(packing := Deliver(m.packing, m.chunks.active, m.loop.outstanding[i], d, s), loop := m.loop.Invoke(i))
    case RunNextEvent(reply) =>
      var begun := m.(loop := m.loop.Begin());
      if m.loop.queue == [] then begun else Handle(begun, m.loop.queue[0], s, reply)
  }

  ghost predicate Runs(m: Machine, s: Services, steps: seq<Step>, m': Machine)
    decreases |steps|
  {
    if steps == [] then m' == m
    else
      var last := |steps| - 1;
      exists mid :: Runs(m, s, steps[..last], mid) && Enabled(mid, steps[last]) && m' == Next(mid, s, steps[last])
  }
}
