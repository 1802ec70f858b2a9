// The hand-off from the bundle pool to the upload pool, where nothing is reserved for the bytes a
// bundle adds to its chunks: which bundles get through, and when the assert before it fails.

module PoolLoss {
  import opened Common
  import opened PoolModel
  import opened PoolTheorems

  /** A reported bundle gets through exactly if its capped size fits the upload pool at that moment. If it
      does not fit, it is lost; the assert before the hand-off fails exactly if there is no room at all. */
  lemma BundleGetsThrough(c: Chain, m: nat, pendingBytes: nat, bundle: Bundle)
    requires Inv(c) && Enabled(c, BundleReady(m, pendingBytes, bundle)) && !c.full
    ensures var c', size, room := Next(c, BundleReady(m, pendingBytes, bundle)), Min(c.b.nextMax, bundle.size),
                                  c.u.queue.Remaining();
            && size >= 1
            && (size <= room ==>
                  c'.u.queue.accepted == c.u.queue.accepted + [bundle] && c'.lost == c.lost && !c'.full)
            && (1 <= room < size ==>
                  c'.u.queue.accepted == c.u.queue.accepted && c'.lost == c.lost + [bundle] && !c'.full)
            && (room < 1 ==>
                  c'.u.queue.accepted == c.u.queue.accepted && c'.lost == c.lost + [bundle] && c'.full)
  {
    hide Next, SnapshotPool.Valid, InputQueue.Valid, Ledger.Valid, BundlePool.Covered;
    ReadyFrame(c, m, pendingBytes, bundle);
  }

  lemma ReadyFrame(c: Chain, m: nat, pendingBytes: nat, bundle: Bundle)
    ensures var c', fits := Next(c, BundleReady(m, pendingBytes, bundle)),
                            Min(c.b.nextMax, bundle.size) <= c.u.queue.Remaining();
            && c'.u.queue.accepted == c.u.queue.accepted + (if fits then [bundle] else [])
            && c'.lost == c.lost + (if fits then [] else [bundle])
            && c'.full == (c.full || c.u.queue.Remaining() < 1) && c'.s == c.s
  {
    hide TryRunB, DeactivateB;
    var c1, w := Reported(c, m, pendingBytes), Min(c.b.nextMax, bundle.size);
    if c1.u.queue.CanAccept(w) {
      TryRunUFrame(c1.(u := c1.u.(queue := c1.u.queue.Push(bundle, w))));
      hide TryRunU;
    }
    LeavesUploads(MarkContinueable(AddU(c1, bundle, w), m), m);
  }

  lemma TryRunBFrame(c: Chain)
    ensures TryRunB(c).u == c.u && TryRunB(c).lost == c.lost && TryRunB(c).full == c.full && TryRunB(c).s == c.s
  {
    hide BundlePool.Fed, BundlePool.Continued, BundlePool.Activated, BundlePool.Idled, BundlePool.WeightToAdd;
    hide Ledger.CanActivate, Ledger.Candidate, Ledger.Outstanding, SnapshotsIdle, BundlesIdle;
    assert RunB(c).u == c.u && RunB(c).lost == c.lost && RunB(c).full == c.full && RunB(c).s == c.s;
    hide RunB;
  }

  lemma LeavesUploads(c: Chain, m: nat)
    ensures var c' := TryRunB(DeactivateB(c, m));
            c'.u == c.u && c'.lost == c.lost && c'.full == c.full && c'.s == c.s
  {
    hide TryRunB;
    TryRunBFrame(DeactivateB(c, m));
  }

  /** No other event touches what the upload pool has accepted or lost; and what happens behind the
      snapshot pool leaves that alone, except for the machine that reports. */
  lemma OthersLeaveUploads(c: Chain, e: Event)
    requires !e.BundleReady?
    ensures Next(c, e).u.queue.accepted == c.u.queue.accepted && Next(c, e).lost == c.lost
    ensures Next(c, e).full == c.full
    ensures e.PostedRunB? || e.SnapshotDone? || e.BundleUploaded? ==> Next(c, e).s == c.s
    ensures e.SnapshotFinished? ==> Next(c, e).s == c.s.Deleted(e.machine)
  {
    hide TryRunB, TryRunU, DeactivateB, DeactivateU;
    match e
    case PathAdded(path, weight) =>
    case PostedRunS =>
    case PostedRunB =>
      if c.postedB > 0 {
        TryRunBFrame(c.(postedB := c.postedB - 1));
      }
    case SnapshotFinished(m, output) =>
      if output.Some? {
        var c0 := c.(violated := c.violated || !c.b.queue.CanAccept(1));
        var w := Min(c.s.nextMax, output.value.length);
        TryRunBFrame(c0.(b := c0.b.(queue := c0.b.queue.Push(output.value, w))));
      }
    case SnapshotDone(m, timedOut) =>
      LeavesUploads(c.(b := c.b.(continueable := c.b.continueable - {m}, machines := c.b.machines[m := Resting])), m);
    case BundleUploaded(m) => UploadedAccepts(c, m);
    case MoreInputAsked =>
    case InputFinished =>
  }

  /** The upload pool itself is only touched when a bundle comes in or was uploaded. */
  lemma OnlyUploads(c: Chain, e: Event)
    requires !e.BundleReady? && !e.BundleUploaded?
    ensures Next(c, e).u == c.u
  {
    hide TryRunB, DeactivateB;
    match e
    case PostedRunB =>
      if c.postedB > 0 {
        TryRunBFrame(c.(postedB := c.postedB - 1));
      }
    case SnapshotFinished(m, output) =>
      if output.Some? {
        var c0 := c.(violated := c.violated || !c.b.queue.CanAccept(1));
        var w := Min(c.s.nextMax, output.value.length);
        TryRunBFrame(c0.(b := c0.b.(queue := c0.b.queue.Push(output.value, w))));
      }
    case SnapshotDone(m, timedOut) =>
      LeavesUploads(c.(b := c.b.(continueable := c.b.continueable - {m}, machines := c.b.machines[m := Resting])), m);
    case _ =>
  }

  lemma TryRunUFrame(c: Chain)
    ensures TryRunU(c).u.queue.accepted == c.u.queue.accepted && TryRunU(c).lost == c.lost && TryRunU(c).full == c.full
    ensures TryRunU(c).s == c.s
  {
    hide Ledger.CanActivate, Ledger.Candidate, Ledger.Outstanding, Ledger.Activate, Ledger.Charge, Ledger.Release;
    hide UploadsIdle, UploadPool.IsFree;
    var c1 := RunU(c);
    assert c1.u.queue.accepted == c.u.queue.accepted && c1.lost == c.lost && c1.full == c.full && c1.s == c.s;
    hide RunU;
  }

  lemma UploadedAccepts(c: Chain, m: nat)
    ensures var c' := HandleBundleUploaded(c, m);
            c'.u.queue.accepted == c.u.queue.accepted && c'.lost == c.lost && c'.full == c.full && c'.s == c.s
  {
    var c1 := c.(u := c.u.(ledger := c.u.ledger.Produce(m, 0), machines := c.u.machines[m := Free]),
                 violated := c.violated || !c.u.ledger.CanProduce(m, 0));
    TryRunUFrame(DeactivateU(c1, m));
    hide TryRunU;
  }

  /** The assert that the upload pool can accept a bundle fails at exactly those reports that find it
      without room, and no other event contains it. */
  lemma RoomAssertFails(c: Chain, e: Event)
    ensures Next(c, e).full <==> c.full || (e.BundleReady? && c.u.queue.Remaining() < 1)
  {
    hide Next;
    if e.BundleReady? {
      ReadyFrame(c, e.machine, e.pendingBytes, e.bundle);
    } else {
      OthersLeaveUploads(c, e);
    }
  }

  lemma StepAccountsFor(c: Chain, e: Event)
    ensures var c' := Next(c, e);
            && multiset(c'.u.queue.accepted) + multiset(c'.lost)
               == multiset(c.u.queue.accepted) + multiset(c.lost)
                  + multiset(if e.BundleReady? then [e.bundle] else [])
  {
    hide Next;
    if e.BundleReady? {
      ReadyFrame(c, e.machine, e.pendingBytes, e.bundle);
    } else {
      OthersLeaveUploads(c, e);
    }
  }

  /** Over any run, every reported bundle was either accepted by the upload pool or lost, once. */
  lemma {:induction false} BundlesAccountedFor(c: Chain, es: seq<Event>, c': Chain)
    requires Runs(c, es, c')
    ensures multiset(c'.u.queue.accepted) + multiset(c'.lost)
         == multiset(c.u.queue.accepted) + multiset(c.lost) + multiset(BundlesReported(es))
    decreases |es|
  {
    hide Next, Enabled;
    if es != [] {
      var last := |es| - 1;
      var mid :| Runs(c, es[..last], mid) && Enabled(mid, es[last]) && c' == Next(mid, es[last]) && !c'.shutdown;
      hide Runs;
      BundlesAccountedFor(c, es[..last], mid);
      StepAccountsFor(mid, es[last]);
    }
  }
}
