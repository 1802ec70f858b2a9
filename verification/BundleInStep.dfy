// How the bundle state machine meets its neighbours: the pool's picture of it, and the TAR file that
// its bundles become.

module BundleInStep {
  import opened Common
  import PoolModel
  import opened BundleModel
  import opened BundleProofs
  import opened BundleTheorems

  /** What the bundle pool thinks of the machine: it rests when it waits for a snapshot, awaits
      retrieval after reporting a bundle, and is busy otherwise. */
  function View(m: Machine): PoolModel.BundleMachine {
    if Token(m.loop).Some? || m.state == Done then PoolModel.Bundling(PendingBytes(m))
    else if m.state == WaitForNewSnapshot then PoolModel.Resting
    else PoolModel.AwaitingRetrieval(PendingBytes(m))
  }

  /** Lengths of the chunks not yet popped, those of a snapshot not yet pushed included. */
  function PendingBytes(m: Machine): nat {
    Lengths(m.chunks.queue)
    + if m.state == WaitForNewSnapshot && m.chunks.snapshot.Some? then Lengths(m.chunks.snapshot.value) else 0
  }

  /** The pool's calls: feeding a resting machine, continuing one that awaits retrieval. */
  lemma CallsInStep(m: Machine, s: Services, call: Call)
    requires Inv(m, s) && Enabled(m, ClientCall(call))
    ensures match call
            case BundleSnapshot(cs) =>
              View(m) == PoolModel.Resting && View(Next(m, s, ClientCall(call))) == PoolModel.Bundling(Lengths(cs))
            case Continue =>
              View(m).AwaitingRetrieval? && m.chunks.bytes == View(m).pendingBytes
              && View(Next(m, s, ClientCall(call))) == PoolModel.Bundling(View(m).pendingBytes)
            case FlushCurrentBundle => View(m) == PoolModel.Resting
  {
    hide HasRoom, Sources, Filling, FinishedValid;
  }

  /** Without an answer from the client, a handler adds no pending bytes. */
  lemma PendingGoesDown(m: Machine, e: Event, s: Services)
    requires Running(m) && At(m, s, Some(e), true)
    ensures PendingBytes(Handle(m, e, s, None)) <= PendingBytes(m)
  {
    hide HasRoom, Filling, FinishedValid, Sources, Compressed, Pack, Seal, Size, Holding, Emptied, Fresh;
    match (m.state, e)
    case (WaitForNewSnapshot, NewSnapshotReady) => LengthsAppend(m.chunks.queue, m.chunks.snapshot.value);
    case _ =>
  }

  /** While it is busy, the machine's pending bytes only go down; it then either reports "snapshot
      done" with none left, or "bundle ready" with `chunk_bytes_pending` left. */
  lemma RunInStep(m: Machine, s: Services)
    requires Inv(m, s) && History(m, s) && Enabled(m, RunNextEvent(None))
    ensures View(m).Bundling?
    ensures var m' := Next(m, s, RunNextEvent(None));
            match View(m')
            case Bundling(bytes) => m'.permission == Nothing && bytes <= View(m).pendingBytes
            case Resting => m'.permission == AfterSnapshot && m'.chunks.queue == []
            case AwaitingRetrieval(bytes) =>
              m'.permission == AfterBundle && m'.chunks.bytes == bytes <= View(m).pendingBytes
  {
    hide Handle, History, At;
    AfterRun(m, s, None);
    TakesItsEvent(m, s);
    PendingGoesDown(m.(loop := m.loop.Begin()), m.loop.queue[0], s);
    hide Next;
    ViewMatches(Next(m, s, RunNextEvent(None)), s);
  }

  /** The pool's picture fits the permission the client has. */
  lemma ViewMatches(m: Machine, s: Services)
    requires Inv(m, s) && m.permission != FirstSnapshot
    ensures match View(m)
            case Bundling(_) => m.permission == Nothing
            case Resting => m.permission == AfterSnapshot && m.chunks.queue == []
            case AwaitingRetrieval(bytes) => m.permission == AfterBundle && m.chunks.bytes == bytes
  {
    hide HasRoom, Sources, Filling, FinishedValid, Compressed, Fresh, Lengths;
  }

  /** A service that delivers its result changes nothing the pool can see. */
  lemma DeliveryInStep(m: Machine, s: Services, i: nat, d: Delivery)
    requires Inv(m, s) && Enabled(m, Complete(i, d))
    ensures View(Next(m, s, Complete(i, d))) == View(m) && View(m).Bundling?
  {
    hide At;
  }
}
