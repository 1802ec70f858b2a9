// How the events of the pool chain move the machines of the bundle pool and of the upload pool: a machine
// that is at work stays so until it reports.

module PoolMoves {
  import opened Common
  import opened PoolModel
  import opened PoolProofs
  import opened PoolTheorems
  import PoolLoss

  // ---------------------------------------------------------------------------------------------
  // How an event moves the machines

  /** The machines as the pool sees them when it has taken note of the report that the event is, if any. */
  function Acknowledged(c: Chain, e: Event): map<nat, BundleMachine> {
    match e
    case SnapshotDone(m, _) => c.b.machines[m := Resting]
    case BundleReady(m, pendingBytes, _) => c.b.machines[m := AwaitingRetrieval(pendingBytes)]
    case _ => c.b.machines
  }

  /** A machine that did not exist rests once it is started. */
  function Before(machines: map<nat, BundleMachine>, m: nat): BundleMachine {
    if m in machines then machines[m] else Resting
  }

  /** The machine is left alone, continued, or fed the snapshot that the pool started last. */
  ghost predicate MovedOne(before: BundleMachine, after: BundleMachine, q: InputQueue<Snapshot>) {
    || after == before
    || (before.AwaitingRetrieval? && after == Bundling(before.pendingBytes))
    || (before.Resting? && q.started != [] && after == Bundling(q.started[|q.started| - 1].chunkBytes))
  }

  ghost predicate Moved(machines: map<nat, BundleMachine>, b: BundlePool) {
    && machines.Keys <= b.machines.Keys
    && forall m :: m in b.machines ==> MovedOne(Before(machines, m), b.machines[m], b.queue)
  }

  lemma ContinuedMoves(b: BundlePool, m: nat)
    requires m in b.machines && b.machines[m].AwaitingRetrieval?
    ensures Moved(b.machines, b.Continued(m))
  {
  }

  lemma FedMoves(b: BundlePool, m: nat)
    requires m in b.machines && b.machines[m].Resting? && b.queue.pending != []
    ensures Moved(b.machines, b.Fed(m))
  {
    hide Ledger.Charge, BundlePool.WeightToAdd;
  }

  /** Starting a machine that rests is not a move. */
  lemma StartedMoves(b: BundlePool, b': BundlePool)
    requires Moved(b.Activated().machines, b')
    ensures Moved(b.machines, b')
  {
    hide Ledger.Activate, Ledger.Candidate;
  }

  lemma RunBMoves(c: Chain)
    requires c.b.Valid() && !RunB(c).shutdown
    ensures Moved(c.b.machines, RunB(c).b)
  {
    hide Moved, BundlePool.Sound, BundlePool.Fed, BundlePool.Continued;
    if c.b.ledger.CanActivate() {
      var m, b1 := c.b.ledger.Candidate(), c.b.Activated();
      BundleActivated(c.b);
      if m in b1.continueable {
        BundleContinued(b1, m);
        ContinuedMoves(b1, m);
      } else if c.b.queue.pending != [] {
        NotHolding(b1, m);
        FedMoves(b1, m);
      } else {
        NotMoved(b1.Idled(m));
        assert RunB(c).b == b1.Idled(m);
      }
      hide BundlePool.Valid, BundlePool.Activated;
      StartedMoves(c.b, RunB(c).b);
    } else {
      NotMoved(c.b);
    }
  }

  lemma TryRunBMoves(c: Chain)
    requires c.b.Valid() && !TryRunB(c).shutdown
    ensures Moved(c.b.machines, TryRunB(c).b)
  {
    hide RunB, BundlePool.Valid;
    if !BlockedB(c) {
      RunBMoves(c);
    }
  }

  lemma AddBMoves(c: Chain, snapshot: Snapshot, w: nat)
    requires c.b.Valid() && w >= 1 && c.b.queue.CanAccept(w) && snapshot.chunkBytes <= snapshot.length
    requires !AddB(c, snapshot, w).shutdown
    ensures Moved(c.b.machines, AddB(c, snapshot, w).b)
  {
    PushValid(c.b.queue, snapshot, w);
    var pushed := c.(b := c.b.(queue := c.b.queue.Push(snapshot, w)));
    hide TryRunB;
    TryRunBMoves(pushed);
  }

  lemma DoneIsTried(c: Chain, m: nat, timedOut: bool)
    requires !Next(c, SnapshotDone(m, timedOut)).shutdown
    ensures Next(c, SnapshotDone(m, timedOut)) == TryRunB(SetAside(c, m))
    ensures SetAside(c, m).b.machines == c.b.machines[m := Resting]
  {
    hide TryRunB, BundlesIdle;
  }

  lemma SetAsideMoves(c: Chain, m: nat, timedOut: bool)
    requires var e := SnapshotDone(m, timedOut); Inv(c) && Enabled(c, e) && !Next(c, e).shutdown
    ensures var e := SnapshotDone(m, timedOut); Moved(Acknowledged(c, e), Next(c, e).b)
  {
    hide Next, TryRunB, SetAside, Inv, BundlePool.Valid, Moved;
    DoneIsTried(c, m, timedOut);
    var c1 := SetAside(c, m);
    if c1.shutdown {
      StaysShut(c1);
    }
    SetAsideKeeps(c, m);
    TryRunBMoves(c1);
  }

  lemma HandedOverMoves(c: Chain, m: nat, pendingBytes: nat, bundle: Bundle)
    requires var e := BundleReady(m, pendingBytes, bundle); Inv(c) && Enabled(c, e) && !Next(c, e).shutdown
    ensures var e := BundleReady(m, pendingBytes, bundle); Moved(Acknowledged(c, e), Next(c, e).b)
  {
    var c1 := HandedOver(c, m, pendingBytes, bundle);
    assert Next(c, BundleReady(m, pendingBytes, bundle)) == TryRunB(c1);
    HandedOverMachines(c, m, pendingBytes, bundle);
    hide Next, HandleBundleReady, TryRunB, HandedOver;
    if c1.shutdown {
      StaysShut(c1);
    }
    HandedOverKeeps(c, m, pendingBytes, bundle);
    TryRunBMoves(c1);
  }

  lemma HandedOverMachines(c: Chain, m: nat, pendingBytes: nat, bundle: Bundle)
    ensures HandedOver(c, m, pendingBytes, bundle).b.machines
         == c.b.machines[m := AwaitingRetrieval(pendingBytes)]
  {
    var c1, w := Reported(c, m, pendingBytes), Min(c.b.nextMax, bundle.size);
    assert AddU(c1, bundle, w).b == c1.b by {
      hide UploadPool.Fed, UploadPool.Activated;
    }
    hide AddU;
  }

  lemma SnapshotFinishedMoves(c: Chain, m: nat, output: Option<Snapshot>)
    requires var e := SnapshotFinished(m, output); Inv(c) && Enabled(c, e) && !Next(c, e).shutdown
    ensures Moved(c.b.machines, Next(c, SnapshotFinished(m, output)).b)
  {
    if output.Some? {
      var w := Min(c.s.nextMax, output.value.length);
      ReservationFits(c, m, output.value);
      hide AddB, BundlePool.Valid, SnapshotPool.Valid;
      assert Next(c, SnapshotFinished(m, output)) == DeleteS(AddB(c, output.value, w), m);
      AddBMoves(c, output.value, w);
    }
  }

  /** Every event moves the machines in these ways only. */
  lemma EventMoves(c: Chain, e: Event)
    requires Inv(c) && Enabled(c, e) && !Next(c, e).shutdown
    ensures Moved(Acknowledged(c, e), Next(c, e).b)
  {
    hide Inv, Next, Moved;
    match e
    case SnapshotDone(m, timedOut) => SetAsideMoves(c, m, timedOut);
    case BundleReady(m, pendingBytes, bundle) => HandedOverMoves(c, m, pendingBytes, bundle);
    case SnapshotFinished(m, output) => SnapshotFinishedMoves(c, m, output);
    case PostedRunB => PostedRunBMoves(c);
    case PathAdded(path, weight) =>
      PathAddedKeeps(c, path, weight);
      NotMoved(c.b);
    case PostedRunS =>
      PostedRunSKeeps(c);
      NotMoved(c.b);
    case BundleUploaded(m) =>
      BundleUploadedKeeps(c, m);
      NotMoved(c.b);
    case _ =>
      NoticesKeep(c);
      NotMoved(c.b);
  }

  lemma NotMoved(b: BundlePool)
    ensures Moved(b.machines, b)
  {
  }

  lemma PostedRunBMoves(c: Chain)
    requires Inv(c) && Enabled(c, PostedRunB) && !Next(c, PostedRunB).shutdown
    ensures Moved(c.b.machines, Next(c, PostedRunB).b)
  {
    hide TryRunB, BundlePool.Valid;
    TryRunBMoves(c.(postedB := c.postedB - 1));
  }

  // ---------------------------------------------------------------------------------------------
  // Machines at work stay at work

  /** The upload machines that were at work still are, with the same bundle. */
  ghost predicate StillUploading(u: UploadPool, u': UploadPool) {
    forall m :: m in u.machines && u.machines[m].Uploading? ==> m in u'.machines && u'.machines[m] == u.machines[m]
  }

  lemma ActivatedUploads(u: UploadPool, n: UploadPool)
    requires StillUploading(u.Activated(), n)
    ensures StillUploading(u, n)
  {
    hide Ledger.Activate, Ledger.Candidate;
    assert forall m :: m in u.machines ==> m in u.Activated().machines && u.Activated().machines[m] == u.machines[m];
    hide UploadPool.Activated;
  }

  lemma FedUploads(u: UploadPool, m: nat)
    requires u.IsFree(m) && u.queue.pending != []
    ensures StillUploading(u, u.Fed(m))
  {
    hide Ledger.Charge, Ledger.WeightToAdd;
  }

  lemma RunULeavesUploading(c: Chain)
    requires c.u.Valid()
    ensures StillUploading(c.u, RunU(c).u)
  {
    hide UploadPool.Valid, UploadPool.Fed, UploadPool.Idled, UploadPool.Activated, UploadsIdle, StillUploading;
    if c.u.ledger.CanActivate() {
      var m, u1 := c.u.ledger.Candidate(), c.u.Activated();
      UploadActivated(c.u);
      if u1.queue.pending != [] {
        FreeMachine(u1, m);
        FedUploads(u1, m);
      } else {
        IdledUploads(u1, m);
      }
      ActivatedUploads(c.u, RunU(c).u);
    } else {
      SameUploads(c.u);
    }
  }

  lemma FreeMachine(u: UploadPool, m: nat)
    requires u.ValidBut(m)
    ensures u.IsFree(m)
  {
    hide UploadPool.Sound;
  }

  lemma IdledUploads(u: UploadPool, m: nat)
    ensures StillUploading(u, u.Idled(m))
  {
  }

  lemma SameUploads(u: UploadPool)
    ensures StillUploading(u, u)
  {
  }

  lemma TryRunULeavesUploading(c: Chain)
    requires c.u.Valid()
    ensures StillUploading(c.u, TryRunU(c).u)
  {
    hide RunU, UploadPool.Valid;
    RunULeavesUploading(c);
  }

  lemma AddULeavesUploading(c: Chain, bundle: Bundle, w: nat)
    requires c.u.Valid() && w >= 1
    ensures StillUploading(c.u, AddU(c, bundle, w).u)
  {
    if c.u.queue.CanAccept(w) {
      PushValid(c.u.queue, bundle, w);
      var pushed := c.(u := c.u.(queue := c.u.queue.Push(bundle, w)));
      assert pushed.u.Valid();
      hide TryRunU, UploadPool.Valid;
      TryRunULeavesUploading(pushed);
    }
  }

  lemma ReadyUploads(c: Chain, m: nat, pendingBytes: nat, bundle: Bundle)
    ensures Next(c, BundleReady(m, pendingBytes, bundle)).u
         == AddU(Reported(c, m, pendingBytes), bundle, Min(c.b.nextMax, bundle.size)).u
  {
    hide AddU, TryRunB, DeactivateB;
    var c1 := AddU(Reported(c, m, pendingBytes), bundle, Min(c.b.nextMax, bundle.size));
    PoolLoss.LeavesUploads(MarkContinueable(c1, m), m);
  }

  lemma ReadyLeavesUploading(c: Chain, m: nat, pendingBytes: nat, bundle: Bundle)
    requires c.u.Valid() && c.b.nextMax >= 1 && bundle.size >= 1
    ensures StillUploading(c.u, Next(c, BundleReady(m, pendingBytes, bundle)).u)
  {
    hide UploadPool.Valid, StillUploading, AddU, Next;
    ReadyUploads(c, m, pendingBytes, bundle);
    AddULeavesUploading(Reported(c, m, pendingBytes), bundle, Min(c.b.nextMax, bundle.size));
  }

  lemma UploadedIsTried(c: Chain, m: nat)
    ensures Next(c, BundleUploaded(m)) == TryRunU(PoolTheorems.Finished(c, m))
    ensures PoolTheorems.Finished(c, m).u.machines == c.u.machines[m := Free]
  {
    hide TryRunU, UploadsIdle;
  }

  lemma UploadedLeavesUploading(c: Chain, m: nat, k: nat)
    requires c.u.Valid() && Enabled(c, BundleUploaded(m)) && !Next(c, BundleUploaded(m)).shutdown
    requires k != m && k in c.u.machines && c.u.machines[k].Uploading?
    ensures var u' := Next(c, BundleUploaded(m)).u; k in u'.machines && u'.machines[k] == c.u.machines[k]
  {
    hide Next, PoolTheorems.Finished, TryRunU, UploadPool.Valid;
    UploadedIsTried(c, m);
    var c1 := PoolTheorems.Finished(c, m);
    if c1.shutdown {
      StaysShutU(c1);
    }
    FinishedKeeps(c, m);
    TryRunULeavesUploading(c1);
  }

  lemma ValidParts(c: Chain)
    requires Inv(c)
    ensures c.u.Valid() && c.b.nextMax >= 1
  {
    hide UploadPool.Valid, SnapshotPool.Valid, InputQueue.Valid, Ledger.Valid, BlockedS, BlockedB;
  }

  lemma UploadingStays(c: Chain, e: Event, k: nat)
    requires Inv(c) && Enabled(c, e) && !Next(c, e).shutdown
    requires e != BundleUploaded(k) && k in c.u.machines && c.u.machines[k].Uploading?
    ensures var u' := Next(c, e).u; k in u'.machines && u'.machines[k] == c.u.machines[k]
  {
    hide Inv, UploadPool.Valid, Next;
    ValidParts(c);
    match e
    case BundleReady(m, pendingBytes, bundle) =>
      ReadyLeavesUploading(c, m, pendingBytes, bundle);
    case BundleUploaded(m) =>
      UploadedLeavesUploading(c, m, k);
    case _ =>
      PoolLoss.OnlyUploads(c, e);
  }

  lemma BundlingStays(c: Chain, e: Event, k: nat)
    requires Inv(c) && Enabled(c, e) && !Next(c, e).shutdown
    requires !((e.SnapshotDone? || e.BundleReady?) && e.machine == k) && k in c.b.machines && c.b.machines[k].Bundling?
    ensures var b' := Next(c, e).b; k in b'.machines && b'.machines[k] == c.b.machines[k]
  {
    hide Inv, Next;
    EventMoves(c, e);
    assert MovedOne(Before(Acknowledged(c, e), k), Next(c, e).b.machines[k], Next(c, e).b.queue);
  }

  lemma RunSLeavesPaths(c: Chain, k: nat)
    requires c.s.Valid() && k in c.s.paths
    ensures var s' := TryRunS(c).s; k in s'.paths && s'.paths[k] == c.s.paths[k]
  {
    hide BlockedS, InputQueue.Valid;
    assert k < c.s.created;
  }

  lemma AddSLeavesPaths(c: Chain, path: Path, w: nat, k: nat)
    requires c.s.Valid() && w >= 1 && k in c.s.paths
    ensures var s' := AddS(c, path, w).s; k in s'.paths && s'.paths[k] == c.s.paths[k]
  {
    if c.s.queue.CanAccept(w) {
      PushValid(c.s.queue, path, w);
      var pushed := c.(s := c.s.(queue := c.s.queue.Push(path, w)));
      assert pushed.s.Valid();
      hide TryRunS, SnapshotPool.Valid;
      RunSLeavesPaths(pushed, k);
    }
  }

  lemma PathStays(c: Chain, e: Event, k: nat)
    requires Inv(c) && Enabled(c, e)
    requires !(e.SnapshotFinished? && e.machine == k) && k in c.s.paths
    ensures var s' := Next(c, e).s; k in s'.paths && s'.paths[k] == c.s.paths[k]
  {
    hide BundlePool.Valid, UploadPool.Valid, SnapshotPool.Valid, TryRunS, AddS, FinishS, HandleSnapshotDone,
      HandleBundleReady, HandleBundleUploaded, TryRunB;
    match e
    case PathAdded(path, w) => AddSLeavesPaths(c, path, w, k);
    case PostedRunS =>
      assert c.(postedS := c.postedS - 1).s == c.s;
      RunSLeavesPaths(c.(postedS := c.postedS - 1), k);
    case BundleReady(m, pendingBytes, bundle) => PoolLoss.ReadyFrame(c, m, pendingBytes, bundle);
    case _ => PoolLoss.OthersLeaveUploads(c, e);
  }

  /** What a machine or the scanner can report now it can still report after any step of the others. */
  lemma ReportsStay(c: Chain, e: Event, report: Event)
    requires Inv(c) && Enabled(c, e) && !Next(c, e).shutdown && Enabled(c, report)
    requires report.SnapshotFinished? || report.SnapshotDone? || report.BundleReady? || report.BundleUploaded?
    requires report.SnapshotFinished? && e.SnapshotFinished? ==> e.machine != report.machine
    requires (report.SnapshotDone? || report.BundleReady?) && (e.SnapshotDone? || e.BundleReady?) ==>
               e.machine != report.machine
    requires report.BundleUploaded? && e.BundleUploaded? ==> e.machine != report.machine
    ensures Enabled(Next(c, e), report)
  {
    hide Inv, Next;
    if report.SnapshotFinished? {
      PathStays(c, e, report.machine);
    } else if report.BundleUploaded? {
      UploadingStays(c, e, report.machine);
    } else {
      BundlingStays(c, e, report.machine);
    }
  }
}
