// The pool chain's main results, over every run before the first flush or termination request.

module PoolTheorems {
  import opened Common
  import opened Sums
  import opened PoolModel
  import opened PoolProofs

  // ---------------------------------------------------------------------------------------------
  // Every event keeps the invariant

  /** Raising the bundle pool's free weight leaves the snapshot pool awake: it runs, was kicked, or
      still does not fit. */
  lemma StaysAwakeS(c: Chain, c': Chain)
    requires c.s.Valid() && AwakeS(c) && c'.s == c.s && c'.postedS >= c.postedS
    requires c'.b.queue.Remaining() <= c.b.queue.Remaining() || (c.s.total == 0 ==> c'.postedS > 0)
    ensures AwakeS(c')
  {
    if c.s.numRunning == 0 {
      NothingRunning(c.s);
    }
  }

  lemma StaysAwakeB(c: Chain, c': Chain)
    requires c.b.Valid() && AwakeB(c) && c'.b == c.b && c'.postedB >= c.postedB
    requires c'.u.queue.Remaining() <= c.u.queue.Remaining() || (c.b.ledger.activeWeight == 0 ==> c'.postedB > 0)
    ensures AwakeB(c')
  {
    if c.b.ledger.active == {} {
      NoActiveWeight(c.b.ledger);
    }
  }

  lemma PathAddedKeeps(c: Chain, path: Path, w: nat)
    requires Inv(c) && w >= 1
    ensures Inv(Next(c, PathAdded(path, w))) && Next(c, PathAdded(path, w)).b == c.b
  {
    if c.s.queue.CanAccept(w) {
      PushValid(c.s.queue, path, w);
      TryRunSKeeps(c.(s := c.s.(queue := c.s.queue.Push(path, w))));
    }
  }

  lemma PostedRunSKeeps(c: Chain)
    requires Inv(c) && c.postedS > 0
    ensures Inv(Next(c, PostedRunS)) && Next(c, PostedRunS).b == c.b
  {
    TryRunSKeeps(c.(postedS := c.postedS - 1));
  }

  lemma PostedRunBKeeps(c: Chain)
    requires Inv(c) && c.postedB > 0 && !Next(c, PostedRunB).shutdown
    ensures Inv(Next(c, PostedRunB)) && Next(c, PostedRunB).b.queue.accepted == c.b.queue.accepted
  {
    var c1 := c.(postedB := c.postedB - 1);
    TryRunBKeeps(c1);
    StaysAwakeS(c1, TryRunB(c1));
  }

  /** The reservation made for a snapshot machine covers the snapshot it produces. */
  lemma ReservationFits(c: Chain, m: nat, snapshot: Snapshot)
    requires Inv(c) && Enabled(c, SnapshotFinished(m, Some(snapshot)))
    ensures var w := Min(c.s.nextMax, snapshot.length);
            && 1 <= w <= c.s.weights[m] <= c.s.total && c.b.queue.CanAccept(w) && c.b.queue.CanAccept(1)
  {
    SumAtLeast(c.s.weights, c.s.weights.Keys, m);
  }

  lemma SnapshotFinishedKeeps(c: Chain, m: nat, output: Option<Snapshot>)
    requires Inv(c) && Enabled(c, SnapshotFinished(m, output)) && !Next(c, SnapshotFinished(m, output)).shutdown
    ensures Inv(Next(c, SnapshotFinished(m, output)))
    ensures Next(c, SnapshotFinished(m, output)).b.queue.accepted
         == c.b.queue.accepted + if output.Some? then [output.value] else []
  {
    assert Next(c, SnapshotFinished(m, output)) == FinishS(c, m, output);
    SumAtLeast(c.s.weights, c.s.weights.Keys, m);
    match output
    case None =>
      DeleteSKeeps(c, m);
    case Some(snapshot) =>
      var w := Min(c.s.nextMax, snapshot.length);
      ReservationFits(c, m, snapshot);
      var c1 := AddB(c, snapshot, w);
      AddBKeeps(c, snapshot, w);
      DeleteSKeeps(c1, m);
  }

  /** Callbacks of bundle machines end in a try-run of their pool. */
  lemma TryRunBLast(c: Chain, c1: Chain)
    requires Inv(c) && c1.b.Valid() && c1.u.Valid() && AwakeU(c1) && !c1.violated
    requires c1.s == c.s && c1.postedS == c.postedS
    requires c1.b.queue == c.b.queue && c1.b.nextMax == c.b.nextMax && c1.u.queue.capacity == c.u.queue.capacity
    requires !TryRunB(c1).shutdown
    ensures Inv(TryRunB(c1)) && TryRunB(c1).b.queue.accepted == c.b.queue.accepted
  {
    TryRunBKeeps(c1);
    hide TryRunB;
    StaysAwakeS(c, TryRunB(c1));
  }

  lemma StaysShut(c: Chain)
    requires c.shutdown
    ensures TryRunB(c).shutdown
  {
  }

  /** HandleSnapshotDone up to the try-run, when there is no flush. */
  function SetAside(c: Chain, m: nat): Chain {
    DeactivateB(c.(b := c.b.(continueable := c.b.continueable - {m}, machines := c.b.machines[m := Resting])), m)
  }

  lemma SetAsideKeeps(c: Chain, m: nat)
    requires Inv(c) && m in c.b.machines && c.b.machines[m].Bundling? && !SetAside(c, m).shutdown
    ensures var c' := SetAside(c, m);
            c' == c.(b := c'.b) && c'.b.Valid() && c'.b.queue == c.b.queue && c'.b.nextMax == c.b.nextMax
  {
    var b1 := c.b.(continueable := c.b.continueable - {m}, machines := c.b.machines[m := Resting]);
    assert b1.Sound() by {
      assert b1.Covered();
    }
    BundleIdled(b1, m);
  }

  lemma SnapshotDoneKeeps(c: Chain, m: nat, timedOut: bool)
    requires Inv(c) && Enabled(c, SnapshotDone(m, timedOut)) && !Next(c, SnapshotDone(m, timedOut)).shutdown
    ensures Inv(Next(c, SnapshotDone(m, timedOut)))
    ensures Next(c, SnapshotDone(m, timedOut)).b.queue.accepted == c.b.queue.accepted
  {
    var c1 := SetAside(c, m);
    assert Next(c, SnapshotDone(m, timedOut)) == TryRunB(c1);
    hide Next, HandleSnapshotDone, TryRunB, DeactivateB, SetAside;
    if c1.shutdown {
      StaysShut(c1);
    }
    SetAsideKeeps(c, m);
    TryRunBLast(c, c1);
  }

  lemma ProducedSound(c: Chain, m: nat, pendingBytes: nat)
    requires c.b.Valid() && m in c.b.machines && c.b.machines[m].Bundling?
    requires pendingBytes <= c.b.machines[m].pendingBytes
    ensures c.b.ledger.CanProduce(m, Min(c.b.maxBundle, pendingBytes))
    ensures MarkContinueable(ProducedB(c, m, pendingBytes), m).b.Sound()
  {
    hide InputQueue.Valid, Ledger.Shape;
    ProduceValid(c.b.ledger, m, Min(c.b.maxBundle, pendingBytes));
    assert MarkContinueable(ProducedB(c, m, pendingBytes), m).b.Covered();
  }

  /** A machine that reports a bundle owes at least what it says remains, so both asserts hold. */
  lemma BundleProduced(c: Chain, m: nat, pendingBytes: nat)
    requires c.b.Valid() && m in c.b.machines && c.b.machines[m].Bundling?
    requires pendingBytes <= c.b.machines[m].pendingBytes
    ensures c.b.ledger.CanProduce(m, Min(c.b.maxBundle, pendingBytes))
    ensures MarkContinueable(ProducedB(c, m, pendingBytes), m).b.ValidBut(m)
  {
    hide BundlePool.Sound, Ledger.CanProduce;
    ProducedSound(c, m, pendingBytes);
  }

  /** HandleBundleReady up to the hand-off, and then up to giving the machine back. */
  function Reported(c: Chain, m: nat, pendingBytes: nat): Chain {
    ProducedB(c, m, pendingBytes).(full := c.full || !c.u.queue.CanAccept(1))
  }

  function HandedOver(c: Chain, m: nat, pendingBytes: nat, bundle: Bundle): Chain {
    var c2 := AddU(Reported(c, m, pendingBytes), bundle, Min(c.b.nextMax, bundle.size));
    DeactivateB(MarkContinueable(c2, m), m)
  }

  lemma HandedOverKeeps(c: Chain, m: nat, pendingBytes: nat, bundle: Bundle)
    requires Inv(c) && Enabled(c, BundleReady(m, pendingBytes, bundle))
    requires !HandedOver(c, m, pendingBytes, bundle).shutdown
    ensures var c' := HandedOver(c, m, pendingBytes, bundle);
            && c'.b.Valid() && c'.u.Valid() && AwakeU(c')
            && c' == c.(b := c'.b, u := c'.u, postedB := c'.postedB, lost := c'.lost, full := c'.full)
            && c'.b.queue == c.b.queue && c'.b.nextMax == c.b.nextMax
            && c'.u.queue.capacity == c.u.queue.capacity
  {
    hide AddU, SnapshotPool.Valid, UploadPool.Valid, InputQueue.Valid, Ledger.Valid, BundlePool.Covered, BlockedS, BlockedB;
    var c1, w := Reported(c, m, pendingBytes), Min(c.b.nextMax, bundle.size);
    BundleProduced(c, m, pendingBytes);
    AddUKeeps(c1, bundle, w);
    var c3 := MarkContinueable(AddU(c1, bundle, w), m);
    assert c3.b == MarkContinueable(c1, m).b;
    BundleIdled(c3.b, m);
  }

  lemma ReadyIsTried(c: Chain, m: nat, pendingBytes: nat, bundle: Bundle)
    ensures Next(c, BundleReady(m, pendingBytes, bundle)) == TryRunB(HandedOver(c, m, pendingBytes, bundle))
  {
    hide TryRunB, DeactivateB, AddU, ProducedB, MarkContinueable;
  }

  lemma BundleReadyKeeps(c: Chain, m: nat, pendingBytes: nat, bundle: Bundle)
    requires var e := BundleReady(m, pendingBytes, bundle); Inv(c) && Enabled(c, e) && !Next(c, e).shutdown
    ensures var c' := Next(c, BundleReady(m, pendingBytes, bundle));
            Inv(c') && c'.b.queue.accepted == c.b.queue.accepted
  {
    hide Next, TryRunB, HandedOver, SnapshotPool.Valid, BundlePool.Valid, UploadPool.Valid, BlockedS, BlockedB;
    ReadyIsTried(c, m, pendingBytes, bundle);
    var c1 := HandedOver(c, m, pendingBytes, bundle);
    if c1.shutdown {
      StaysShut(c1);
    }
    HandedOverKeeps(c, m, pendingBytes, bundle);
    TryRunBLast(c, c1);
  }

  /** HandleBundleUploaded up to the try-run. */
  function Finished(c: Chain, m: nat): Chain {
    DeactivateU(c.(u := c.u.(ledger := c.u.ledger.Produce(m, 0), machines := c.u.machines[m := Free]),
                   violated := c.violated || !c.u.ledger.CanProduce(m, 0)), m)
  }

  lemma UploadProduced(u: UploadPool, m: nat)
    requires u.Valid() && m in u.machines && u.machines[m].Uploading?
    ensures u.ledger.CanProduce(m, 0)
    ensures u.(ledger := u.ledger.Produce(m, 0), machines := u.machines[m := Free]).ValidBut(m)
  {
    hide InputQueue.Valid, Ledger.Shape;
    ProduceValid(u.ledger, m, 0);
  }

  lemma FinishedKeeps(c: Chain, m: nat)
    requires c.u.Valid() && m in c.u.machines && c.u.machines[m].Uploading? && !Finished(c, m).shutdown
    ensures var c' := Finished(c, m); c' == c.(u := c'.u) && c'.u.Valid() && c'.u.queue == c.u.queue
  {
    hide UploadPool.Valid, UploadPool.Sound;
    UploadProduced(c.u, m);
    UploadIdled(c.u.(ledger := c.u.ledger.Produce(m, 0), machines := c.u.machines[m := Free]), m);
    hide Ledger.CanProduce;
  }

  lemma StaysShutU(c: Chain)
    requires c.shutdown
    ensures TryRunU(c).shutdown
  {
  }

  lemma TryRunULast(c: Chain, c1: Chain)
    requires Inv(c) && c1 == c.(u := c1.u) && c1.u.Valid() && c1.u.queue == c.u.queue && !TryRunU(c1).shutdown
    ensures Inv(TryRunU(c1)) && TryRunU(c1).b == c.b
  {
    TryRunUKeeps(c1);
    hide TryRunU, SnapshotPool.Valid, BundlePool.Valid, UploadPool.Valid;
    StaysAwakeB(c, TryRunU(c1));
  }

  lemma BundleUploadedKeeps(c: Chain, m: nat)
    requires Inv(c) && Enabled(c, BundleUploaded(m)) && !Next(c, BundleUploaded(m)).shutdown
    ensures Inv(Next(c, BundleUploaded(m))) && Next(c, BundleUploaded(m)).b == c.b
  {
    var c1 := Finished(c, m);
    assert Next(c, BundleUploaded(m)) == TryRunU(c1);
    hide Next, HandleBundleUploaded, Finished, TryRunU, UploadPool.Valid, SnapshotPool.Valid, BundlePool.Valid;
    if c1.shutdown {
      StaysShutU(c1);
    }
    FinishedKeeps(c, m);
    TryRunULast(c, c1);
  }

  /** Every event that can happen keeps the invariant, and only a finished snapshot machine adds to
      what the bundle pool has accepted. */
  lemma StepKeeps(c: Chain, e: Event)
    requires Inv(c) && Enabled(c, e) && !Next(c, e).shutdown
    ensures Inv(Next(c, e))
    ensures Next(c, e).b.queue.accepted
         == c.b.queue.accepted + if e.SnapshotFinished? && e.output.Some? then [e.output.value] else []
  {
    hide Inv, Next;
    match e
    case PathAdded(path, weight) => PathAddedKeeps(c, path, weight);
    case PostedRunS => PostedRunSKeeps(c);
    case PostedRunB => PostedRunBKeeps(c);
    case SnapshotFinished(m, output) => SnapshotFinishedKeeps(c, m, output);
    case SnapshotDone(m, timedOut) => SnapshotDoneKeeps(c, m, timedOut);
    case BundleReady(m, pendingBytes, bundle) => BundleReadyKeeps(c, m, pendingBytes, bundle);
    case BundleUploaded(m) => BundleUploadedKeeps(c, m);
    case MoreInputAsked => NoticesKeep(c);
    case InputFinished => NoticesKeep(c);
  }

  lemma NoticesKeep(c: Chain)
    requires Inv(c)
    ensures Inv(Next(c, InputFinished)) && Next(c, InputFinished).b == c.b
    ensures Inv(Next(c, MoreInputAsked)) && Next(c, MoreInputAsked).b == c.b
  {
    hide BundlePool.Valid, UploadPool.Valid, InputQueue.Valid, SumOver;
  }

  lemma InitialInv(capacityS: nat, limitS: nat, capacityB: nat, limitB: nat, maxBundle: nat, capacityU: nat, limitU: nat)
    requires limitS >= 1 && capacityB >= 1 && limitB >= 1 && 1 <= maxBundle <= capacityU && limitU >= 1
    ensures Inv(Initial(capacityS, limitS, capacityB, limitB, maxBundle, capacityU, limitU))
  {
    var c := Initial(capacityS, limitS, capacityB, limitB, maxBundle, capacityU, limitU);
    assert SumOver(c.b.ledger.outstanding, {}) == 0;
    assert c.b.ledger.outstanding.Keys - {} == {};
  }

  lemma NoEvents(c: Chain)
    ensures Runs(c, [], c)
  {
  }

  lemma Extend(c: Chain, es: seq<Event>, mid: Chain, e: Event)
    requires Runs(c, es, mid) && Enabled(mid, e) && !Next(mid, e).shutdown
    ensures Runs(c, es + [e], Next(mid, e))
  {
    var all := es + [e];
    assert all[..|all| - 1] == es;
  }

  lemma BeforeLast(c: Chain, es: seq<Event>, c': Chain) returns (mid: Chain)
    requires Runs(c, es, c') && es != []
    ensures var last := |es| - 1;
            Runs(c, es[..last], mid) && Enabled(mid, es[last]) && c' == Next(mid, es[last]) && !c'.shutdown
  {
    hide Next, Enabled;
    var last := |es| - 1;
    mid :| Runs(c, es[..last], mid) && Enabled(mid, es[last]) && c' == Next(mid, es[last]) && !c'.shutdown;
  }

  lemma {:induction false} RunKeeps(c: Chain, es: seq<Event>, c': Chain)
    requires Inv(c) && Runs(c, es, c')
    ensures Inv(c')
    decreases |es|
  {
    if es != [] {
      var last := |es| - 1;
      var mid :| Runs(c, es[..last], mid) && Enabled(mid, es[last]) && c' == Next(mid, es[last]) && !c'.shutdown;
      RunKeeps(c, es[..last], mid);
      StepKeeps(mid, es[last]);
    }
  }

  // ---------------------------------------------------------------------------------------------
  // Main results

  /** A chain as the executor wires it, before the first path. */
  ghost predicate IsStart(c: Chain) {
    && c.s.limit >= 1 && c.b.queue.capacity >= 1 && c.b.ledger.limit >= 1 && c.u.ledger.limit >= 1
    && 1 <= c.b.maxBundle <= c.u.queue.capacity
    && c == Initial(c.s.queue.capacity, c.s.limit, c.b.queue.capacity, c.b.ledger.limit, c.b.maxBundle, c.u.queue.capacity,
                    c.u.ledger.limit)
  }

  /** Every state such a chain can get into before a flush or a request to terminate a machine. */
  ghost predicate Reachable(c: Chain) {
    exists start, es :: IsStart(start) && Runs(start, es, c)
  }

  lemma StartInv(c: Chain)
    requires IsStart(c)
    ensures Inv(c)
  {
    hide Inv, Initial;
    InitialInv(c.s.queue.capacity, c.s.limit, c.b.queue.capacity, c.b.ledger.limit, c.b.maxBundle, c.u.queue.capacity,
               c.u.ledger.limit);
  }

  lemma ReachableInv(c: Chain)
    requires Reachable(c)
    ensures Inv(c)
  {
    hide Inv, IsStart, Runs;
    var start, es :| IsStart(start) && Runs(start, es, c);
    StartInv(start);
    RunKeeps(start, es, c);
  }

  /** No lost wake-up: while any pool has pending input, some machine is at work or a try-run
      callback is posted. */
  lemma NoLostWakeUp(c: Chain)
    requires Reachable(c) && (c.s.queue.pending != [] || c.b.queue.pending != [] || c.u.queue.pending != [])
    ensures c.s.numRunning > 0 || c.b.ledger.active != {} || c.u.ledger.active != {} || c.postedS > 0 || c.postedB > 0
  {
    hide Reachable;
    ReachableInv(c);
    if c.s.numRunning == 0 && c.b.ledger.active == {} && c.u.ledger.active == {} {
      NothingRunning(c.s);
      NoActiveWeight(c.b.ledger);
    }
  }

  /** Reservation safety: whatever a running snapshot machine produces is accepted, although the
      program ignores the result of AddNewInput. */
  lemma SnapshotIsAccepted(c: Chain, m: nat, snapshot: Snapshot)
    requires Reachable(c) && Enabled(c, SnapshotFinished(m, Some(snapshot)))
    ensures c.s.total <= c.b.queue.Remaining()
    ensures c.b.queue.CanAccept(Min(c.s.nextMax, snapshot.length))
    ensures c.b.queue.weight == TotalWeight(c.b.queue.pending) <= c.b.queue.capacity
  {
    hide Reachable;
    ReachableInv(c);
    ReservationFits(c, m, snapshot);
  }

  /** The snapshots that the events of a run report, in order. */
  function SnapshotsReported(es: seq<Event>): seq<Snapshot> {
    if es == [] then []
    else
      var e := es[|es| - 1];
      SnapshotsReported(es[..|es| - 1])
      + if e.SnapshotFinished? && e.output.Some? then [e.output.value] else []
  }

  function BundlesReported(es: seq<Event>): seq<Bundle> {
    if es == [] then []
    else
      var e := es[|es| - 1];
      BundlesReported(es[..|es| - 1]) + if e.BundleReady? then [e.bundle] else []
  }

  lemma {:induction false} SnapshotsAdded(c: Chain, es: seq<Event>, c': Chain)
    requires Inv(c) && Runs(c, es, c')
    ensures c'.b.queue.accepted == c.b.queue.accepted + SnapshotsReported(es)
    decreases |es|
  {
    hide Next, Enabled, Inv;
    if es != [] {
      var last := |es| - 1;
      var mid :| Runs(c, es[..last], mid) && Enabled(mid, es[last]) && c' == Next(mid, es[last]) && !c'.shutdown;
      SnapshotsAdded(c, es[..last], mid);
      RunKeeps(c, es[..last], mid);
      StepKeeps(mid, es[last]);
    }
  }

  /** No snapshot is dropped: the bundle pool has accepted exactly the snapshots that were reported,
      once each and in order, and those not yet given to a machine are its pending inputs. */
  lemma SnapshotsConserved(start: Chain, es: seq<Event>, c: Chain)
    requires IsStart(start) && Runs(start, es, c)
    ensures c.b.queue.accepted == SnapshotsReported(es)
    ensures c.b.queue.accepted == c.b.queue.started + Inputs(c.b.queue.pending)
  {
    StartsEmpty(start);
    hide Runs, IsStart, SnapshotsReported;
    StartInv(start);
    RunKeeps(start, es, c);
    SnapshotsAdded(start, es, c);
  }

  lemma StartsEmpty(c: Chain)
    requires IsStart(c)
    ensures c.b.queue.accepted == []
  {
  }

  /** Active weight is the sum of outstanding weights over the active machines. */
  ghost predicate Exact(l: Ledger) {
    l.active <= l.outstanding.Keys && l.activeWeight == SumOver(l.outstanding, l.active)
  }

  /** The output-weight ledger is exact in every reachable state, and none of the program's asserts
      about it, about held snapshots or about generated bundles has failed. (The one about the upload
      pool's room is not among them; see RoomAssertFails.) */
  lemma LedgerIsExact(c: Chain)
    requires Reachable(c)
    ensures !c.violated
    ensures Exact(c.b.ledger) && Exact(c.u.ledger) && c.s.total == SumOver(c.s.weights, c.s.weights.Keys)
    ensures forall m :: m in c.b.machines ==>
              c.b.ledger.Outstanding(m) >= Min(c.b.maxBundle, c.b.machines[m].Pending())
  {
    hide Reachable, SumOver;
    ReachableInv(c);
  }

  /** Pool and machine stay in step: the continueable machines are exactly those holding a bundle,
      the active ones exactly those that will call back, and every other one waits idle, once. */
  lemma MachinesInStep(c: Chain, m: nat)
    requires Reachable(c) && m in c.b.machines
    ensures m in c.b.continueable <==> c.b.machines[m].AwaitingRetrieval?
    ensures m in c.b.ledger.active <==> c.b.machines[m].Bundling?
    ensures multiset(c.b.ledger.idle)[m] == if c.b.machines[m].Bundling? then 0 else 1
  {
    hide Reachable;
    ReachableInv(c);
  }
}
