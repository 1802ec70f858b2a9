// When the pools request a machine to terminate, which ends the runs the other theorems speak about.

module PoolTermination {
  import opened Common
  import opened PoolModel
  import opened PoolProofs
  import opened PoolTheorems

  // ---------------------------------------------------------------------------------------------
  // Every event, exactly

  /** Too long without an upload: the machine is told to flush its bundle instead. */
  predicate Flushes(c: Chain, e: Event) {
    e.SnapshotDone? && e.timedOut && c.b.bundleSeen && c.u.queue.pending == [] && c.u.ledger.active == {}
  }

  predicate SnapshotsQuiet(c: Chain) {
    c.s.queue.pending == [] && c.s.numRunning == 0
  }

  /** The event gives back the last machine at work in its pool and in those before it, and nothing waits. */
  predicate GivesBackLast(c: Chain, e: Event) {
    match e
    case PostedRunB =>
      && c.b.queue.pending == [] && c.b.ledger.active == {} && c.b.ledger.Candidate() !in c.b.continueable
      && SnapshotsQuiet(c)
    case SnapshotDone(m, _) => c.b.queue.pending == [] && c.b.ledger.active == {m} && SnapshotsQuiet(c)
    case BundleReady(m, _, _) => c.b.queue.pending == [] && c.b.ledger.active == {m} && SnapshotsQuiet(c)
    case BundleUploaded(m) =>
      && c.u.queue.pending == [] && c.u.ledger.active == {m}
      && c.b.queue.pending == [] && c.b.ledger.active == {} && SnapshotsQuiet(c)
    case _ => false
  }

  lemma DeactivateBEnds(c: Chain, m: nat)
    requires m in c.b.ledger.active && !c.shutdown
    ensures DeactivateB(c, m).shutdown <==> c.b.queue.pending == [] && c.b.ledger.active == {m} && SnapshotsIdle(c)
    ensures DeactivateB(c, m).s == c.s && DeactivateB(c, m).b == c.b.Idled(m)
  {
    assert c.b.ledger.active - {m} == {} <==> c.b.ledger.active == {m};
  }

  lemma RunBGoesOn(c: Chain)
    requires !c.shutdown
    requires !c.b.ledger.CanActivate() || c.b.queue.pending != [] || c.b.ledger.Candidate() in c.b.continueable
    ensures !TryRunB(c).shutdown
  {
    hide BundlePool.Fed, BundlePool.Continued, BundlePool.WeightToAdd, Ledger.CanActivate;
  }

  lemma RunBEnds(c: Chain)
    requires !c.shutdown && c.b.ledger.CanActivate() && c.b.ledger.Candidate() !in c.b.ledger.active
    requires c.b.queue.pending == [] && c.b.ledger.Candidate() !in c.b.continueable
    ensures TryRunB(c).shutdown <==> c.b.ledger.active == {} && SnapshotsIdle(c)
  {
    var m, b1 := c.b.ledger.Candidate(), c.b.Activated();
    assert b1.ledger.active == c.b.ledger.active + {m};
    assert b1.continueable == c.b.continueable && b1.queue == c.b.queue;
    var c1 := c.(b := b1);
    assert RunB(c) == DeactivateB(c1, m);
    assert TryRunB(c).shutdown == RunB(c).shutdown;
    hide RunB, TryRunB, BundlePool.Activated;
    DeactivateBEnds(c1, m);
    assert b1.ledger.active == {m} <==> c.b.ledger.active == {};
  }

  lemma TryRunBEnds(c: Chain)
    requires c.b.Valid() && !c.shutdown
    ensures TryRunB(c).shutdown <==>
              c.b.queue.pending == [] && c.b.ledger.active == {} && c.b.ledger.Candidate() !in c.b.continueable
              && SnapshotsIdle(c)
  {
    hide TryRunB, BundlePool.Covered, InputQueue.Valid;
    if !c.b.ledger.CanActivate() {
      AllBundling(c.b);
      RunBGoesOn(c);
    } else if c.b.queue.pending != [] || c.b.ledger.Candidate() in c.b.continueable {
      RunBGoesOn(c);
    } else {
      ActivateValid(c.b.ledger);
      RunBEnds(c);
    }
  }

  /** A try-run right after a machine was given back adds nothing. */
  lemma GivenBack(c: Chain, m: nat)
    requires m in c.b.ledger.active && !c.shutdown && c.b.Idled(m).Valid()
    ensures TryRunB(DeactivateB(c, m)).shutdown
       <==> c.b.queue.pending == [] && c.b.ledger.active == {m} && SnapshotsIdle(c)
  {
    DeactivateBEnds(c, m);
    var c1 := DeactivateB(c, m);
    hide DeactivateB, TryRunB, BundlePool.Valid;
    if c1.shutdown {
      StaysShut(c1);
    } else {
      TryRunBEnds(c1);
      assert c.b.ledger.active - {m} == {} <==> c.b.ledger.active == {m};
    }
  }

  lemma AddUNeverEnds(c: Chain, bundle: Bundle, w: nat)
    requires !c.shutdown
    ensures var c' := AddU(c, bundle, w); !c'.shutdown && c'.s == c.s && c'.b == c.b
  {
    hide UploadPool.Fed;
  }

  lemma AddBNeverEnds(c: Chain, snapshot: Snapshot, w: nat)
    requires !c.shutdown
    ensures !AddB(c, snapshot, w).shutdown
  {
    hide BundlePool.Fed, BundlePool.Continued;
  }

  lemma DoneEnds(c: Chain, m: nat, timedOut: bool)
    requires var e := SnapshotDone(m, timedOut); Inv(c) && Enabled(c, e) && !c.shutdown
    ensures var e := SnapshotDone(m, timedOut);
            Next(c, e).shutdown <==> Flushes(c, e) || (GivesBackLast(c, e) && !c.s.inputFinished)
  {
    var e := SnapshotDone(m, timedOut);
    var c1 := c.(b := c.b.(continueable := c.b.continueable - {m}, machines := c.b.machines[m := Resting]));
    assert Next(c, e) == if Flushes(c, e) then c1.(shutdown := true) else TryRunB(DeactivateB(c1, m));
    SetAsideSound(c, m);
    hide Next, DeactivateB, TryRunB, Inv, BundlePool.Valid;
    GivenBack(c1, m);
  }

  lemma SetAsideSound(c: Chain, m: nat)
    requires Inv(c) && m in c.b.machines && c.b.machines[m].Bundling?
    ensures var b1 := c.b.(continueable := c.b.continueable - {m}, machines := c.b.machines[m := Resting]);
            m in b1.ledger.active && b1.Idled(m).Valid()
  {
    var b1 := c.b.(continueable := c.b.continueable - {m}, machines := c.b.machines[m := Resting]);
    assert b1.Sound() by {
      assert b1.Covered();
    }
    BundleIdled(b1, m);
  }

  /** HandleBundleReady when the bundle machine is about to be given back. */
  lemma BeforeGivingBack(c: Chain, m: nat, pendingBytes: nat, bundle: Bundle)
    requires Inv(c) && Enabled(c, BundleReady(m, pendingBytes, bundle)) && !c.shutdown
    ensures var c3 := MarkContinueable(AddU(Reported(c, m, pendingBytes), bundle, Min(c.b.nextMax, bundle.size)), m);
            && Next(c, BundleReady(m, pendingBytes, bundle)) == TryRunB(DeactivateB(c3, m))
            && c3.s == c.s && c3.b.queue == c.b.queue && c3.b.ledger.active == c.b.ledger.active && !c3.shutdown
            && m in c3.b.ledger.active && c3.b.Idled(m).Valid()
  {
    hide TryRunB, DeactivateB, AddU, BundlePool.Valid, UploadPool.Valid, SnapshotPool.Valid;
    var c1, w := Reported(c, m, pendingBytes), Min(c.b.nextMax, bundle.size);
    AddUNeverEnds(c1, bundle, w);
    BundleProduced(c, m, pendingBytes);
    hide BundlePool.Sound;
    assert MarkContinueable(AddU(c1, bundle, w), m).b == MarkContinueable(c1, m).b;
    BundleIdled(MarkContinueable(c1, m).b, m);
  }

  lemma ReadyEnds(c: Chain, m: nat, pendingBytes: nat, bundle: Bundle)
    requires var e := BundleReady(m, pendingBytes, bundle); Inv(c) && Enabled(c, e) && !c.shutdown
    ensures var e := BundleReady(m, pendingBytes, bundle);
            Next(c, e).shutdown <==> GivesBackLast(c, e) && !c.s.inputFinished
  {
    hide Next, Inv, Enabled, Reported, MarkContinueable, DeactivateB, TryRunB, AddU, BundlePool.Valid;
    BeforeGivingBack(c, m, pendingBytes, bundle);
    GivenBack(MarkContinueable(AddU(Reported(c, m, pendingBytes), bundle, Min(c.b.nextMax, bundle.size)), m), m);
  }

  lemma DeactivateUEnds(c: Chain, m: nat)
    requires m in c.u.ledger.active && !c.shutdown
    ensures DeactivateU(c, m).shutdown <==> c.u.queue.pending == [] && c.u.ledger.active == {m} && BundlesIdle(c)
    ensures DeactivateU(c, m).s == c.s && DeactivateU(c, m).b == c.b && DeactivateU(c, m).u == c.u.Idled(m)
  {
    assert c.u.ledger.active - {m} == {} <==> c.u.ledger.active == {m};
  }

  lemma RunUGoesOn(c: Chain)
    requires !c.shutdown && (!c.u.ledger.CanActivate() || c.u.queue.pending != [])
    ensures !TryRunU(c).shutdown
  {
    hide UploadPool.Fed, Ledger.CanActivate;
  }

  lemma RunUEnds(c: Chain)
    requires !c.shutdown && c.u.ledger.CanActivate() && c.u.ledger.Candidate() !in c.u.ledger.active
    requires c.u.queue.pending == []
    ensures TryRunU(c).shutdown <==> c.u.ledger.active == {} && BundlesIdle(c)
  {
    var m, u1 := c.u.ledger.Candidate(), c.u.Activated();
    assert u1.ledger.active == c.u.ledger.active + {m} && u1.queue == c.u.queue;
    var c1 := c.(u := u1);
    assert RunU(c) == DeactivateU(c1, m);
    assert TryRunU(c).shutdown == RunU(c).shutdown;
    hide RunU, TryRunU, UploadPool.Activated;
    DeactivateUEnds(c1, m);
    assert u1.ledger.active == {m} <==> c.u.ledger.active == {};
  }

  lemma TryRunUEnds(c: Chain)
    requires c.u.Valid() && !c.shutdown
    ensures TryRunU(c).shutdown <==> c.u.queue.pending == [] && c.u.ledger.active == {} && BundlesIdle(c)
  {
    hide TryRunU, InputQueue.Valid;
    if !c.u.ledger.CanActivate() {
      AllUploading(c.u);
      RunUGoesOn(c);
    } else if c.u.queue.pending != [] {
      RunUGoesOn(c);
    } else {
      ActivateValid(c.u.ledger);
      RunUEnds(c);
    }
  }

  lemma GivenBackU(c: Chain, m: nat)
    requires m in c.u.ledger.active && !c.shutdown && c.u.Idled(m).Valid()
    ensures TryRunU(DeactivateU(c, m)).shutdown
       <==> c.u.queue.pending == [] && c.u.ledger.active == {m} && BundlesIdle(c)
  {
    DeactivateUEnds(c, m);
    var c1 := DeactivateU(c, m);
    hide DeactivateU, TryRunU, UploadPool.Valid;
    if c1.shutdown {
      StaysShutU(c1);
    } else {
      TryRunUEnds(c1);
      assert c.u.ledger.active - {m} == {} <==> c.u.ledger.active == {m};
    }
  }

  lemma UploadedEnds(c: Chain, m: nat)
    requires Inv(c) && Enabled(c, BundleUploaded(m)) && !c.shutdown
    ensures var e := BundleUploaded(m); Next(c, e).shutdown <==> GivesBackLast(c, e) && !c.s.inputFinished
  {
    var c1 := c.(u := c.u.(ledger := c.u.ledger.Produce(m, 0), machines := c.u.machines[m := Free]),
                 violated := c.violated || !c.u.ledger.CanProduce(m, 0));
    assert Next(c, BundleUploaded(m)) == TryRunU(DeactivateU(c1, m));
    hide Next, HandleBundleUploaded, TryRunU, DeactivateU, UploadPool.Valid, BundlePool.Valid, SnapshotPool.Valid;
    UploadProduced(c.u, m);
    UploadIdled(c1.u, m);
    hide UploadPool.Sound;
    GivenBackU(c1, m);
  }

  lemma PostedRunBEnds(c: Chain)
    requires Inv(c) && Enabled(c, PostedRunB) && !c.shutdown
    ensures Next(c, PostedRunB).shutdown <==> GivesBackLast(c, PostedRunB) && !c.s.inputFinished
  {
    hide BundlePool.Valid, TryRunB;
    TryRunBEnds(c.(postedB := c.postedB - 1));
  }

  /** The documented rule, that a machine which is given back is terminated once everything is idle and
      no more input is expected, holds for every event with its last part reversed. */
  lemma TerminationIsReversed(c: Chain, e: Event)
    requires Inv(c) && Enabled(c, e) && !c.shutdown
    ensures Next(c, e).shutdown <==> Flushes(c, e) || (GivesBackLast(c, e) && !c.s.inputFinished)
  {
    hide Inv, Next, GivesBackLast;
    match e
    case SnapshotDone(m, timedOut) => DoneEnds(c, m, timedOut);
    case BundleReady(m, pendingBytes, bundle) => ReadyEnds(c, m, pendingBytes, bundle);
    case BundleUploaded(m) => UploadedEnds(c, m);
    case PostedRunB => PostedRunBEnds(c);
    case _ => OthersNeverEnd(c, e);
  }

  lemma OthersNeverEnd(c: Chain, e: Event)
    requires !c.shutdown && !e.SnapshotDone? && !e.BundleReady? && !e.BundleUploaded? && !e.PostedRunB?
    ensures !Next(c, e).shutdown && !GivesBackLast(c, e)
  {
    if e.SnapshotFinished? && e.output.Some? {
      AddBNeverEnds(c.(violated := c.violated || !c.b.queue.CanAccept(1)), e.output.value,
                    Min(c.s.nextMax, e.output.value.length));
      hide AddB;
    }
  }

  // ---------------------------------------------------------------------------------------------
  // No termination after the notification, in any state

  lemma QuietB(c: Chain)
    requires c.s.inputFinished && !c.shutdown
    ensures !TryRunB(c).shutdown && TryRunB(c).s == c.s
    ensures forall m :: var c' := DeactivateB(c, m); !c'.shutdown && c'.s == c.s
  {
  }

  lemma QuietU(c: Chain)
    requires c.s.inputFinished && !c.shutdown
    ensures !TryRunU(c).shutdown && TryRunU(c).s == c.s
    ensures forall m :: var c' := DeactivateU(c, m); !c'.shutdown && c'.s == c.s
  {
  }

  lemma QuietAdds(c: Chain, snapshot: Snapshot, bundle: Bundle, w: nat)
    requires c.s.inputFinished && !c.shutdown
    ensures var c' := AddB(c, snapshot, w); !c'.shutdown && c'.s == c.s
    ensures var c' := AddU(c, bundle, w); !c'.shutdown && c'.s == c.s
  {
    QuietB(c.(b := c.b.(queue := c.b.queue.Push(snapshot, w))));
    QuietU(c.(u := c.u.(queue := c.u.queue.Push(bundle, w))));
    hide TryRunB, TryRunU;
  }

  lemma QuietReady(c: Chain, m: nat, pendingBytes: nat, bundle: Bundle)
    requires c.s.inputFinished && !c.shutdown
    ensures !HandleBundleReady(c, m, pendingBytes, bundle).shutdown
  {
    var c1, w := Reported(c, m, pendingBytes), Min(c.b.nextMax, bundle.size);
    QuietAdds(c1, Snapshot(0, 0, 0), bundle, w);
    var c3 := MarkContinueable(AddU(c1, bundle, w), m);
    QuietB(c3);
    QuietB(DeactivateB(c3, m));
    hide TryRunB, DeactivateB, AddU;
  }

  /** Termination is requested only while input is still expected: after NotifyInputFinished no
      event asks any machine to terminate, whatever the state. */
  lemma NoTerminationAfterInputFinished(c: Chain, e: Event)
    requires c.s.inputFinished && !c.shutdown && !(e.SnapshotDone? && e.timedOut)
    ensures !Next(c, e).shutdown
  {
    match e
    case PathAdded(path, weight) =>
    case PostedRunS =>
    case PostedRunB =>
      if c.postedB > 0 {
        QuietB(c.(postedB := c.postedB - 1));
      }
    case SnapshotFinished(m, output) =>
      if output.Some? {
        QuietAdds(c.(violated := c.violated || !c.b.queue.CanAccept(1)), output.value, Bundle(0, 0),
                  Min(c.s.nextMax, output.value.length));
      }
      hide AddB;
    case SnapshotDone(m, timedOut) =>
      var c1 := c.(b := c.b.(continueable := c.b.continueable - {m}, machines := c.b.machines[m := Resting]));
      QuietB(c1);
      QuietB(DeactivateB(c1, m));
      hide TryRunB, DeactivateB;
    case BundleReady(m, pendingBytes, bundle) => QuietReady(c, m, pendingBytes, bundle); hide HandleBundleReady;
    case BundleUploaded(m) =>
      var c1 := c.(u := c.u.(ledger := c.u.ledger.Produce(m, 0), machines := c.u.machines[m := Free]),
                   violated := c.violated || !c.u.ledger.CanProduce(m, 0));
      QuietU(c1);
      QuietU(DeactivateU(c1, m));
      hide TryRunU, DeactivateU;
    case MoreInputAsked =>
    case InputFinished =>
  }
}
