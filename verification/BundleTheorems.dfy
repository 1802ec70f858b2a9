// What the bundle state machine guarantees over every run driven by the header's call rules.

module BundleTheorems {
  import opened Common
  import opened BundleWriter
  import EventLoop
  import opened BundleModel
  import opened BundleProofs

  /** Every state a machine can get into. */
  ghost predicate Reachable(m: Machine, s: Services) {
    exists steps :: Runs(NewMachine(), s, steps, m)
  }

  lemma {:induction false} RunKeeps(m: Machine, s: Services, steps: seq<Step>, m': Machine)
    requires Inv(m, s) && History(m, s) && Runs(m, s, steps, m')
    ensures Inv(m', s) && History(m', s)
    decreases |steps|
  {
    hide Inv, History, Next;
    if steps != [] {
      var last := |steps| - 1;
      var mid :| Runs(m, s, steps[..last], mid) && Enabled(mid, steps[last]) && m' == Next(mid, s, steps[last]);
      RunKeeps(m, s, steps[..last], mid);
      StepKeeps(mid, s, steps[last]);
      HistoryKept(mid, s, steps[last]);
    }
  }

  lemma ReachableInv(m: Machine, s: Services)
    requires Reachable(m, s)
    ensures Inv(m, s) && History(m, s)
  {
    hide Inv, History, NewMachine, Runs;
    var steps :| Runs(NewMachine(), s, steps, m);
    InitialInv(s);
    InitialHistory(s);
    RunKeeps(NewMachine(), s, steps, m);
  }

  // ---------------------------------------------------------------------------------------------
  // The record of what became of the chunks agrees with the bundles

  function Kept(rs: seq<Resolved>): seq<Block> {
    if rs == [] then []
    else Kept(rs[..|rs| - 1]) + if rs[|rs| - 1].outcome == Appended then [rs[|rs| - 1].chunk.block] else []
  }

  function Blocks(bs: seq<Contents>): seq<Block> {
    if bs == [] then [] else Blocks(bs[..|bs| - 1]) + bs[|bs| - 1].blocks
  }

  /** The blocks of all generated bundles, then those of the bundle being filled. */
  function Stored(p: Packing): seq<Block> {
    Blocks(p.finished) + if p.bundle.Some? then p.bundle.value.blocks else []
  }

  /** Why a chunk need not be, or cannot be, stored again. */
  ghost predicate Justified(r: Resolved, stored: seq<Block>, s: Services) {
    match r.outcome
    case AlreadyRecorded(bundleId) => bundleId >= 0
    case AlreadyActive => r.chunk.block.id in Ids(stored)
    case HashMismatch(data) => s.sha1(data) != r.chunk.block.digest
    case Appended => r.chunk.block in stored
  }

  ghost predicate AllJustified(rs: seq<Resolved>, stored: seq<Block>, s: Services) {
    forall i :: 0 <= i < |rs| ==> Justified(rs[i], stored, s)
  }

  ghost predicate History(m: Machine, s: Services) {
    && Kept(m.chunks.resolved) == Stored(m.packing)
    && AllJustified(m.chunks.resolved, Stored(m.packing), s)
  }

  lemma InitialHistory(s: Services)
    ensures History(NewMachine(), s)
  {
  }

  lemma ResolvedOne(rs: seq<Resolved>, r: Resolved, stored: seq<Block>, more: seq<Block>, s: Services)
    requires Kept(rs) == stored && AllJustified(rs, stored, s)
    requires Justified(r, stored + more, s) && more == if r.outcome == Appended then [r.chunk.block] else []
    ensures Kept(rs + [r]) == stored + more && AllJustified(rs + [r], stored + more, s)
  {
    assert (rs + [r])[..|rs|] == rs;
    assert forall id :: id in Ids(stored) ==> id in Ids(stored + more) by {
      forall i | 0 <= i < |stored| ensures stored[i].id in Ids(stored + more) {
        assert (stored + more)[i] == stored[i];
      }
    }
    hide Kept, Ids;
  }

  /** Steps that resolve no chunk and only move the bundle being filled among the generated ones. */
  lemma SealedStored(p: Packing, s: Services)
    requires p.bundle.Some?
    ensures Stored(Seal(p, s)) == Stored(p)
  {
    var sealed := Seal(p, s).finished[|p.finished|];
    assert (p.finished + [sealed])[..|p.finished|] == p.finished;
  }

  lemma PackedStored(p: Packing, block: Block)
    requires p.bundle.Some?
    ensures Stored(Pack(p, block)) == Stored(p) + [block]
  {
  }

  /** What a step may do to the record: nothing, or resolve one chunk for a good reason. */
  ghost predicate Effect(m: Machine, m': Machine, s: Services) {
    var rs, rs' := m.chunks.resolved, m'.chunks.resolved;
    || (rs' == rs && Stored(m'.packing) == Stored(m.packing))
    || (|rs'| == |rs| + 1 && rs' == rs + [rs'[|rs|]]
        && Stored(m'.packing)
        == Stored(m.packing) + (if rs'[|rs|].outcome == Appended then [rs'[|rs|].chunk.block] else [])
        && Justified(rs'[|rs|], Stored(m'.packing), s))
  }

  lemma EffectKeepsHistory(m: Machine, m': Machine, s: Services)
    requires History(m, s) && Effect(m, m', s)
    ensures History(m', s)
  {
    hide Kept, Stored, Justified, AllJustified;
    var rs := m.chunks.resolved;
    if m'.chunks.resolved != rs || Stored(m'.packing) != Stored(m.packing) {
      var r := m'.chunks.resolved[|rs|];
      ResolvedOne(rs, r, Stored(m.packing), if r.outcome == Appended then [r.chunk.block] else [], s);
    }
  }

  lemma InspectExistingEffect(m: Machine, s: Services)
    requires Unresolved(m, s)
    ensures Effect(m, InspectExistingBundleInfo(m), s)
  {
    hide Outputs, BundleValid, FinishedValid, Blocks;
    var block := m.chunks.active.value.block;
    var blocks := m.packing.bundle.value.blocks;
    var stored := Blocks(m.packing.finished) + blocks;
    if block.id in m.packing.ids {
      var i :| 0 <= i < |blocks| && blocks[i].id == block.id;
      assert stored[|Blocks(m.packing.finished)| + i] == blocks[i];
      assert block.id in Ids(stored);
    }
    assert stored + [] == stored;
  }

  lemma InspectContentsEffect(m: Machine, s: Services)
    requires m.chunks.active.Some?
    requires m.packing.hashValid == (s.sha1(m.packing.blockData) == m.chunks.active.value.block.digest)
    ensures Effect(m, InspectChunkContents(m), s)
  {
    hide Stored;
    assert Stored(m.packing) + [] == Stored(m.packing);
  }

  lemma FinishChunkEffect(m: Machine, s: Services)
    requires !m.violated && ChunksValid(m.chunks, true) && Compressed(m.packing, m.chunks.active.value.block, s)
    ensures Effect(m, FinishChunk(m, s), s)
  {
    hide Filling, Stored, FinishChunk, BundleValid, Outputs, FinishedValid, Ids;
    FinishedChunk(m, s);
    PackedStored(m.packing, m.chunks.active.value.block);
    hide Pack;
  }

  lemma FinalizeEffect(m: Machine, s: Services)
    ensures Effect(m, FinalizeBundle(m, s), s)
  {
    hide Stored, Seal;
    if m.packing.bundle.Some? {
      SealedStored(m.packing, s);
    }
  }

  lemma SameEffect(m: Machine, m': Machine, s: Services)
    requires m'.chunks.resolved == m.chunks.resolved
    requires m'.packing.finished == m.packing.finished
    requires Stored(m'.packing) == Stored(m.packing)
    ensures Effect(m, m', s)
  {
    hide Stored;
  }

  lemma EffectTo(m: Machine, n: Machine, s: Services, next: State)
    requires Effect(m, n, s)
    ensures Effect(m, n.To(next), s)
  {
    hide Stored, Justified;
  }

  lemma HandleEffect(m: Machine, e: Event, s: Services, reply: Option<Call>)
    requires Running(m) && At(m, s, Some(e), true)
    ensures Effect(m, Handle(m, e, s, reply), s)
  {
    hide Effect, InspectExistingBundleInfo, InspectChunkContents, FinishChunk, FinalizeBundle, HasRoom, Compressed;
    match (m.state, e)
    case (WaitForExistingBundleInfo, ExistingBundleInfoReady) =>
      InspectExistingEffect(m, s);
      EffectTo(m, InspectExistingBundleInfo(m), s, HaveExistingBundleInfo);
    case (HaveChunkContents, ChunkContentsHashReady) =>
      InspectContentsEffect(m, s);
      EffectTo(m, InspectChunkContents(m), s, HaveChunkContentsAndHashValidity);
    case (WaitForCompression, CompressionDone) =>
      FinishChunkEffect(m, s);
      EffectTo(m, FinishChunk(m, s), s, ChunkFinished);
    case (HaveChunks, FlushForced) =>
      FinalizeEffect(m, s);
      EffectTo(m, FinalizeBundle(m, s), s, HaveBundle);
    case (ChunkFinished, MaxBundleSizeReached) =>
      FinalizeEffect(m, s);
      EffectTo(m, FinalizeBundle(m, s), s, HaveBundle);
    case _ => QuietHandlers(m, e, s, reply);
  }

  /** Nothing is resolved, and nothing stored. */
  ghost predicate LeavesHistory(m: Machine, n: Machine) {
    && n.chunks.resolved == m.chunks.resolved
    && n.packing.finished == m.packing.finished && Stored(n.packing) == Stored(m.packing)
  }

  lemma NextChunkLeavesHistory(m: Machine)
    ensures LeavesHistory(m, StartNewSnapshot(m)) && LeavesHistory(m, NextChunk(m))
  {
    hide Blocks, Lengths;
  }

  lemma ContentsLeaveHistory(m: Machine)
    ensures LeavesHistory(m, GetExistingBundleInfo(m)) && LeavesHistory(m, ReadChunkContents(m))
    ensures LeavesHistory(m, HashChunkContents(m)) && LeavesHistory(m, CompressChunkContents(m))
  {
    hide Blocks;
  }

  lemma ProcessLeavesHistory(m: Machine, finished: Event)
    ensures LeavesHistory(m, Process(m, finished)) && LeavesHistory(m, CleanUp(m)) && LeavesHistory(m, m.Assert(false))
  {
    hide Blocks;
  }

  lemma CallbacksLeaveHistory(m: Machine, reply: Option<Call>)
    ensures LeavesHistory(m, ResetForNextSnapshot(m, reply)) && LeavesHistory(m, ExecuteBundleReadyCallback(m, reply))
  {
    hide Blocks, Lengths;
  }

  lemma ResetLeavesHistory(m: Machine)
    requires m.packing.bundle.None?
    ensures LeavesHistory(m, ResetForNextBundle(m))
  {
    hide Lengths;
    assert Blocks(m.packing.finished) + [] == Blocks(m.packing.finished);
  }

  /** The other handlers resolve nothing and store nothing. */
  lemma QuietHandlers(m: Machine, e: Event, s: Services, reply: Option<Call>)
    requires Running(m) && At(m, s, Some(e), true)
    requires (m.state, e) !in {(WaitForExistingBundleInfo, ExistingBundleInfoReady),
                               (HaveChunkContents, ChunkContentsHashReady), (WaitForCompression, CompressionDone),
                               (HaveChunks, FlushForced), (ChunkFinished, MaxBundleSizeReached)}
    ensures Effect(m, Handle(m, e, s, reply), s)
  {
    hide ChunksValid, HasRoom, Filling, FinishedValid, Compressed, Outputs, Ids, Fresh, Blocks, BundleValid, Stored, Effect;
    hide StartNewSnapshot, NextChunk, GetExistingBundleInfo, ReadChunkContents, HashChunkContents, CompressChunkContents,
      Process, CleanUp, ResetForNextSnapshot, ExecuteBundleReadyCallback, ResetForNextBundle;
    NextChunkLeavesHistory(m);
    ContentsLeaveHistory(m);
    ProcessLeavesHistory(m, EncryptionDone);
    ProcessLeavesHistory(m, BundleHashed);
    ProcessLeavesHistory(m, BundleRecorded);
    ProcessLeavesHistory(m, BundleWritten);
    CallbacksLeaveHistory(m, reply);
    if m.state == WaitForBundleRetrieval {
      ResetLeavesHistory(m);
    }
    SameEffect(m, Handle(m, e, s, reply), s);
  }

  lemma HistoryKept(m: Machine, s: Services, step: Step)
    requires Inv(m, s) && History(m, s) && Enabled(m, step)
    ensures History(Next(m, s, step), s)
  {
    match step
    case RunNextEvent(reply) =>
      hide At, Inv, Handle, History, Effect;
      TakesItsEvent(m, s);
      var begun := m.(loop := m.loop.Begin());
      HandleEffect(begun, m.loop.queue[0], s, reply);
      SameHistory(m, begun, s);
      EffectKeepsHistory(begun, Next(m, s, step), s);
    case _ =>
      hide At, Controlled;
      SameHistory(m, Next(m, s, step), s);
  }

  lemma SameHistory(m: Machine, m': Machine, s: Services)
    requires History(m, s) && m'.chunks.resolved == m.chunks.resolved
    requires m'.packing.finished == m.packing.finished && m'.packing.bundle == m.packing.bundle
    ensures History(m', s)
  {
    hide Kept, AllJustified;
  }

  // ---------------------------------------------------------------------------------------------
  // Main results

  /** The active chunk has been taken from the queue and its fate is open. */
  predicate InHand(m: Machine) {
    var e := Token(m.loop);
    match m.state
    case HaveChunks => e == Some(NewChunkReady)
    case WaitForExistingBundleInfo => true
    case HaveExistingBundleInfo => e == Some(ChunkNotYetInBundle)
    case WaitForChunkContents => true
    case HaveChunkContents => true
    case HaveChunkContentsAndHashValidity => e == Some(ChunkContentsHashMatch)
    case WaitForCompression => true
    case _ => false
  }

  /** Every chunk ever given is, in order, resolved exactly once, in hand, or still queued; and
      `chunk_bytes_pending` is the sum of the queued lengths. */
  lemma ChunksConserved(m: Machine, s: Services)
    requires Reachable(m, s)
    ensures InHand(m) ==> m.chunks.active.Some?
    ensures m.chunks.given
         == Sources(m.chunks.resolved) + (if InHand(m) then [m.chunks.active.value] else []) + m.chunks.queue
    ensures m.chunks.bytes == Lengths(m.chunks.queue)
  {
    hide Reachable, Controlled, Sources, Lengths, HasRoom, Filling, Holding, Emptied, Compressed, Fresh, History;
    ReachableInv(m, s);
  }

  /** The chunks that were kept are exactly the blocks of the bundles, in order, and every other
      chunk was dropped for a reason that holds. */
  lemma KeptChunksAreInBundles(m: Machine, s: Services)
    requires Reachable(m, s)
    ensures Kept(m.chunks.resolved) == Stored(m.packing)
    ensures AllJustified(m.chunks.resolved, Stored(m.packing), s)
  {
    hide Reachable, Inv, Kept, Stored, AllJustified;
    ReachableInv(m, s);
  }

  /** No assert fails, no event meets a state without a transition for it, and a client that follows
      the call rules finds what it needs. */
  lemma NothingUnexpected(m: Machine, s: Services)
    requires Reachable(m, s)
    ensures !m.violated
    ensures m.permission == FirstSnapshot || m.permission == AfterSnapshot ==>
              m.state == WaitForNewSnapshot && m.chunks.snapshot.None? && m.chunks.queue == []
    ensures m.permission == AfterBundle ==>
              && m.state == WaitForBundleRetrieval
              && m.packing.generated.Some? && m.packing.finished != []
              && m.packing.generated.value == m.packing.finished[|m.packing.finished| - 1]
  {
    hide Reachable, Sources, Lengths, HasRoom, Compressed, Fresh, History, FinishedValid;
    ReachableInv(m, s);
  }

  lemma NeverFirstAgain(m: Machine, e: Event, s: Services, reply: Option<Call>)
    requires m.permission == Nothing
    ensures Handle(m, e, s, reply).permission != FirstSnapshot
  {
    hide Pack, Seal, Size, Lengths;
    if m.state == HaveChunks || m.state == WaitForBundleToWrite {
    } else {
      hide ResetForNextSnapshot, ExecuteBundleReadyCallback;
    }
  }

  lemma AfterRun(m: Machine, s: Services, reply: Option<Call>)
    requires Enabled(m, RunNextEvent(reply)) && Inv(m, s) && History(m, s)
    ensures var m' := Next(m, s, RunNextEvent(reply));
            Inv(m', s) && History(m', s) && m'.permission != FirstSnapshot
  {
    hide *;
    BundleProofs.StepKeeps(m, s, RunNextEvent(reply));
    HistoryKept(m, s, RunNextEvent(reply));
    NotFirstAfterRun(m, s, reply);
  }

  lemma NotFirstAfterRun(m: Machine, s: Services, reply: Option<Call>)
    requires Enabled(m, RunNextEvent(reply)) && Inv(m, s)
    ensures Next(m, s, RunNextEvent(reply)).permission != FirstSnapshot
  {
    hide Handle, At;
    EventLoop.TaskFindsItsEvent(m.loop);
    NeverFirstAgain(m.(loop := m.loop.Begin()), m.loop.queue[0], s, reply);
  }

  /** The state after RunNextEvent has run an event. */
  ghost predicate JustRan(m: Machine, s: Services) {
    exists before, reply :: Reachable(before, s) && Enabled(before, RunNextEvent(reply))
                            && m == Next(before, s, RunNextEvent(reply))
  }

  /** The done callback fires only in the final state, with every chunk dealt with and everything kept
      in a generated bundle; a machine that waits for its client is not reported as done. */
  lemma DoneOnlyAtTheEnd(m: Machine, s: Services)
    requires JustRan(m, s) && m.loop.IsDone()
    ensures m.state == Done && m.chunks.given == Sources(m.chunks.resolved)
    ensures Kept(m.chunks.resolved) == Blocks(m.packing.finished)
  {
    hide Next, Reachable, History, At, Kept, Sources, Blocks;
    var before, reply :| Reachable(before, s) && Enabled(before, RunNextEvent(reply))
                         && m == Next(before, s, RunNextEvent(reply));
    ReachableInv(before, s);
    AfterRun(before, s, reply);
    EventLoop.DoneMeansQuiet(m.loop);
    AtTheEnd(m, s);
  }

  lemma AtTheEnd(m: Machine, s: Services)
    requires Inv(m, s) && History(m, s) && m.loop.Quiet() && !m.loop.idle && m.permission != FirstSnapshot
    ensures m.state == Done && m.chunks.given == Sources(m.chunks.resolved)
    ensures Kept(m.chunks.resolved) == Blocks(m.packing.finished)
  {
    hide Kept, AllJustified, Sources, Lengths, Blocks, FinishedValid, Fresh, Compressed;
    assert m.state == Done;
    assert Sources(m.chunks.resolved) + [] + [] == Sources(m.chunks.resolved);
    assert Blocks(m.packing.finished) + [] == Blocks(m.packing.finished);
  }

  /** What is put out for a series of inputs, up to the end, can be turned back into the inputs. */
  ghost predicate CompressorLaw(s: Services) {
    forall inputs: seq<seq<byte>> :: s.decompress(Outputs(inputs, s) + s.finish(inputs)) == Some(Concat(inputs))
  }

  /** Every generated bundle's payload decompresses to contents that hash to the digests of its blocks,
      in the order of the manifest; no block occurs twice in it; and it was below the maximum size
      before its last chunk was added. */
  lemma BundlesAreRestorable(m: Machine, s: Services, i: nat)
    requires Reachable(m, s) && CompressorLaw(s) && i < |m.packing.finished|
    ensures var b := m.packing.finished[i];
            && b.blocks != [] && Distinct(b.blocks)
            && Matching(b.blocks, b.plain, s)
            && s.decompress(b.content) == Some(Concat(b.plain))
            && (|b.blocks| > 1 ==> 512 + |Outputs(b.plain[..|b.plain| - 1], s)| < s.maxBundle)
  {
    hide Reachable, History, Outputs, Distinct, ChunksValid;
    ReachableInv(m, s);
    FinishedInAllStates(m, s);
    hide Inv;
    var b := m.packing.finished[i];
    assert Sealed(b, s);
    assert s.decompress(Outputs(b.plain, s) + s.finish(b.plain)) == Some(Concat(b.plain));
  }

  lemma FinishedInAllStates(m: Machine, s: Services)
    requires Inv(m, s)
    ensures FinishedValid(m.packing.finished, s)
  {
    hide FinishedValid, ChunksValid, BundleValid, Outputs, Ids, Controlled, Fresh;
  }

  /** The set of block ids kept for the bundle being filled is that of its manifest. */
  lemma ActiveIdsAreTheManifests(m: Machine, s: Services)
    requires Reachable(m, s)
    ensures m.packing.ids == (if m.packing.bundle.Some? then Ids(m.packing.bundle.value.blocks) else {})
    ensures m.packing.bundle.Some? ==> Distinct(m.packing.bundle.value.blocks)
  {
    hide Reachable, History, FinishedValid, Ids, Outputs, Distinct, ChunksValid, Controlled, Fresh, Matching;
    ReachableInv(m, s);
  }
}
