// What every run of the pool chain keeps.

module PoolProofs {
  import opened Common
  import opened Sums
  import opened PoolModel

  // ---------------------------------------------------------------------------------------------
  // Queues

  lemma {:induction false} TotalWeightSnoc<T>(es: seq<Entry<T>>, e: Entry<T>)
    ensures TotalWeight(es + [e]) == TotalWeight(es) + e.weight
  {
    if es == [] {
      assert TotalWeight([e]) == e.weight + TotalWeight<T>([]);
    } else {
      assert (es + [e])[0] == es[0] && (es + [e])[1..] == es[1..] + [e];
      TotalWeightSnoc(es[1..], e);
    }
  }

  lemma PushValid<T>(q: InputQueue<T>, input: T, w: nat)
    requires q.Valid() && q.CanAccept(w) && w >= 1
    ensures q.Push(input, w).Valid()
  {
    TotalWeightSnoc(q.pending, Entry(input, w));
    assert Inputs(q.pending + [Entry(input, w)]) == Inputs(q.pending) + [input];
  }

  lemma PopValid<T>(q: InputQueue<T>)
    requires q.Valid() && q.pending != []
    ensures q.Pop().Valid() && q.Pop().Remaining() > q.Remaining() && q.Pop().Remaining() >= 1
  {
    assert Inputs(q.pending) == [q.pending[0].input] + Inputs(q.pending[1..]);
  }

  /** What one run of a pool does to its queue: at most one input leaves it. */
  ghost predicate Advanced<T>(q: InputQueue<T>, q': InputQueue<T>) {
    && q'.capacity == q.capacity && q'.accepted == q.accepted
    && (q' == q || (q'.Remaining() >= 1 && q'.Remaining() > q.Remaining()))
  }

  // ---------------------------------------------------------------------------------------------
  // Ledgers

  /** Taking the head off a queue that lists each element of a set once. */
  lemma TakeHead(q: seq<nat>, s: set<nat>)
    requires q != [] && multiset(q) == multiset(s)
    ensures q[0] in s && multiset(q[1..]) == multiset(s - {q[0]})
  {
    assert q == [q[0]] + q[1..];
    assert q[0] in multiset(q);
    assert multiset(q[1..]) == multiset(q) - multiset{q[0]};
    assert multiset(s - {q[0]}) == multiset(s) - multiset{q[0]};
  }

  lemma ActivateIdle(l: Ledger)
    requires l.Valid() && l.idle != []
    ensures l.Activate().Valid() && l.Candidate() in l.outstanding && l.Candidate() !in l.active
  {
    var m, waiting := l.idle[0], l.outstanding.Keys - l.active;
    TakeHead(l.idle, waiting);
    assert waiting - {m} == l.outstanding.Keys - (l.active + {m});
    SumAdd(l.outstanding, l.active, m);
  }

  lemma ActivateNew(l: Ledger)
    requires l.Valid() && l.idle == []
    ensures l.Activate().(idle := []).Valid() && l.created !in l.outstanding
  {
    var l' := l.Activate();
    assert l'.outstanding.Keys - l'.active == l.outstanding.Keys - l.active;
    SumSame(l.outstanding, l'.outstanding, l.active);
    SumAdd(l'.outstanding, l.active, l.created);
  }

  lemma ActivateValid(l: Ledger)
    requires l.Valid() && l.CanActivate()
    ensures l.Activate().Valid() && l.Candidate() !in l.active
  {
    if l.idle != [] {
      ActivateIdle(l);
    } else {
      ActivateNew(l);
    }
  }

  lemma ChargeValid(l: Ledger, m: nat, w: nat)
    requires l.Valid() && m in l.active
    ensures l.Charge(m, w).Valid()
  {
    SumUpdate(l.outstanding, l.active, m, l.outstanding[m] + w);
  }

  /** Neither assert of StateMachineProducedOutput fails for an active machine that owes enough. */
  lemma ProduceValid(l: Ledger, m: nat, remaining: nat)
    requires l.Valid() && m in l.active && l.outstanding[m] >= remaining
    ensures l.CanProduce(m, remaining) && l.Produce(m, remaining).Valid()
  {
    SumAtLeast(l.outstanding, l.active, m);
    SumUpdate(l.outstanding, l.active, m, remaining);
  }

  /** Nor does the assert of DeactivateStateMachine. */
  lemma ReleaseValid(l: Ledger, m: nat)
    requires l.Valid() && m in l.active
    ensures l.activeWeight >= l.Outstanding(m)
    ensures l.Release(m).(idle := l.idle + [m]).Valid()
  {
    SumRemove(l.outstanding, l.active, m);
    assert l.outstanding.Keys - (l.active - {m}) == l.outstanding.Keys - l.active + {m};
  }

  /** With no active machine there is no active weight. */
  lemma NoActiveWeight(l: Ledger)
    requires l.Valid() && l.active == {}
    ensures l.activeWeight == 0
  {
  }

  // ---------------------------------------------------------------------------------------------
  // Upload pool

  lemma UploadActivated(u: UploadPool)
    requires u.Valid() && u.ledger.CanActivate()
    ensures u.Activated().ValidBut(u.ledger.Candidate())
  {
    ActivateValid(u.ledger);
  }

  lemma UploadFed(u: UploadPool, m: nat)
    requires u.ValidBut(m) && u.queue.pending != []
    ensures u.Fed(m).Valid()
  {
    hide InputQueue.Valid, Ledger.Shape;
    PopValid(u.queue);
    ChargeValid(u.ledger, m, u.ledger.WeightToAdd(1, SIZE_T_MAX));
    assert u.Fed(m).ledger.outstanding[m] >= 1;
  }

  lemma UploadIdled(u: UploadPool, m: nat)
    requires u.ValidBut(m)
    ensures u.Idled(m).Valid() && u.ledger.activeWeight >= u.ledger.Outstanding(m)
  {
    ReleaseValid(u.ledger, m);
  }

  ghost predicate RanU(u: UploadPool, u': UploadPool) {
    && u'.Valid() && Advanced(u.queue, u'.queue)
    && (u'.queue.pending != [] ==> u'.ledger.active != {})
  }

  lemma RanUByFeeding(u: UploadPool)
    requires u.Valid() && u.ledger.CanActivate() && u.queue.pending != []
    ensures var m := u.ledger.Candidate(); u.Activated().IsFree(m) && RanU(u, u.Activated().Fed(m))
  {
    var m := u.ledger.Candidate();
    UploadActivated(u);
    assert m in u.Activated().ledger.active;
    UploadFed(u.Activated(), m);
    PopValid(u.queue);
  }

  lemma RanUByIdling(u: UploadPool)
    requires u.Valid() && u.ledger.CanActivate() && u.queue.pending == []
    ensures var m := u.ledger.Candidate();
            && m in u.Activated().ledger.active && RanU(u, u.Activated().Idled(m))
            && u.Activated().ledger.activeWeight >= u.Activated().ledger.Outstanding(m)
  {
    UploadActivated(u);
    UploadIdled(u.Activated(), u.ledger.Candidate());
    hide UploadPool.Valid, UploadPool.Sound;
  }

  lemma AllUploading(u: UploadPool)
    requires u.Valid() && !u.ledger.CanActivate()
    ensures RanU(u, u)
  {
    hide InputQueue.Valid;
  }

  lemma RunUKeeps(c: Chain)
    requires c.u.Valid() && !RunU(c).shutdown
    ensures RunU(c) == c.(u := RunU(c).u) && RanU(c.u, RunU(c).u)
  {
    hide UploadPool.Sound, UploadPool.Fed, UploadPool.Idled;
    if c.u.ledger.CanActivate() {
      if c.u.queue.pending != [] {
        RanUByFeeding(c.u);
      } else {
        RanUByIdling(c.u);
      }
    } else {
      AllUploading(c.u);
    }
  }

  /** One try-run of the upload pool: it may only kick the bundle pool, and does if it took an input
      while no bundle machine held any weight. */
  lemma TryRunUKeeps(c: Chain)
    requires c.u.Valid() && !TryRunU(c).shutdown
    ensures var c' := TryRunU(c);
            && c'.u.Valid() && AwakeU(c')
            && c' == c.(u := c'.u, postedB := c'.postedB) && c'.postedB >= c.postedB
            && c'.u.queue.capacity == c.u.queue.capacity && c'.u.queue.accepted == c.u.queue.accepted
            && (c'.u.queue.Remaining() == c.u.queue.Remaining() || (c.b.ledger.activeWeight == 0 ==> c'.postedB > 0))
  {
    RunUKeeps(c);
  }

  lemma AddUKeeps(c: Chain, bundle: Bundle, w: nat)
    requires c.u.Valid() && AwakeU(c) && w >= 1 && !AddU(c, bundle, w).shutdown
    ensures var c' := AddU(c, bundle, w);
            && c'.u.Valid() && AwakeU(c')
            && c' == c.(u := c'.u, postedB := c'.postedB, lost := c'.lost) && c'.postedB >= c.postedB
            && c'.u.queue.capacity == c.u.queue.capacity
  {
    if c.u.queue.CanAccept(w) {
      PushValid(c.u.queue, bundle, w);
      TryRunUKeeps(c.(u := c.u.(queue := c.u.queue.Push(bundle, w))));
    }
  }

  // ---------------------------------------------------------------------------------------------
  // Bundle pool

  lemma BundleActivated(b: BundlePool)
    requires b.Valid() && b.ledger.CanActivate()
    ensures b.Activated().ValidBut(b.ledger.Candidate())
  {
    ActivateValid(b.ledger);
  }

  /** Continue finds the generated bundle its assert asks for. */
  lemma BundleContinued(b: BundlePool, m: nat)
    requires b.ValidBut(m) && m in b.continueable
    ensures b.machines[m].AwaitingRetrieval? && b.Continued(m).Valid()
  {
  }

  /** The weight charged for a snapshot covers its chunks. */
  lemma FedCovered(b: BundlePool, m: nat)
    requires b.ValidBut(m) && m !in b.continueable && b.queue.pending != []
    ensures b.Fed(m).Covered()
  {
    assert b.machines[m].Resting?;
  }

  lemma BundleFedSound(b: BundlePool, m: nat)
    requires b.ValidBut(m) && m !in b.continueable && b.queue.pending != []
    ensures b.Fed(m).Sound()
  {
    var b' := b.Fed(m);
    PopValid(b.queue);
    ChargeValid(b.ledger, m, b.WeightToAdd(b.queue.pending[0].input));
    FedCovered(b, m);
    assert forall i :: 0 <= i < |b'.queue.pending| ==> b'.queue.pending[i] == b.queue.pending[i + 1];
  }

  /** A machine that is active but not at work is back at work. */
  lemma BackAtWork(b: BundlePool, m: nat, b': BundlePool)
    requires b.ValidBut(m) && b'.Sound()
    requires b'.ledger.active == b.ledger.active
    requires m in b'.machines && b'.machines[m].Bundling? && b'.machines == b.machines[m := b'.machines[m]]
    ensures b'.Valid()
  {
    hide BundlePool.Sound;
  }

  lemma NotHolding(b: BundlePool, m: nat)
    requires b.ValidBut(m) && m !in b.continueable
    ensures b.machines[m].Resting?
  {
    hide InputQueue.Valid, Ledger.Valid, BundlePool.Covered;
  }

  /** BundleSnapshot finds no snapshot held, and the weight charged covers the new chunks. */
  lemma BundleFed(b: BundlePool, m: nat)
    requires b.ValidBut(m) && m !in b.continueable && b.queue.pending != []
    ensures b.machines[m].Resting? && b.Fed(m).Valid()
  {
    hide BundlePool.Sound;
    NotHolding(b, m);
    BundleFedSound(b, m);
    BackAtWork(b, m, b.Fed(m));
  }

  lemma BundleIdled(b: BundlePool, m: nat)
    requires b.ValidBut(m)
    ensures b.Idled(m).Valid() && b.ledger.activeWeight >= b.ledger.Outstanding(m)
  {
    ReleaseValid(b.ledger, m);
  }

  /** What one run of the pool establishes. */
  ghost predicate RanB(b: BundlePool, b': BundlePool) {
    && b'.Valid()
    && b'.nextMax == b.nextMax && Advanced(b.queue, b'.queue)
    && (b'.queue.pending != [] ==> b'.ledger.active != {})
  }

  lemma RanByContinuing(b: BundlePool)
    requires b.Valid() && b.ledger.CanActivate() && b.ledger.Candidate() in b.continueable
    ensures RanB(b, b.Activated().Continued(b.ledger.Candidate()))
  {
    var m := b.ledger.Candidate();
    BundleActivated(b);
    assert m in b.Activated().ledger.active;
    BundleContinued(b.Activated(), m);
  }

  lemma RanByFeeding(b: BundlePool)
    requires b.Valid() && b.ledger.CanActivate() && b.ledger.Candidate() !in b.continueable && b.queue.pending != []
    ensures RanB(b, b.Activated().Fed(b.ledger.Candidate()))
  {
    var m := b.ledger.Candidate();
    BundleActivated(b);
    assert m in b.Activated().ledger.active;
    BundleFed(b.Activated(), m);
    PopValid(b.queue);
  }

  lemma RanByIdling(b: BundlePool)
    requires b.Valid() && b.ledger.CanActivate() && b.queue.pending == []
    ensures var m := b.ledger.Candidate();
            && m in b.Activated().ledger.active && RanB(b, b.Activated().Idled(m))
            && b.Activated().ledger.activeWeight >= b.Activated().ledger.Outstanding(m)
  {
    BundleActivated(b);
    BundleIdled(b.Activated(), b.ledger.Candidate());
    hide BundlePool.Valid, BundlePool.Sound;
  }

  lemma AllBundling(b: BundlePool)
    requires b.Valid() && !b.ledger.CanActivate()
    ensures RanB(b, b)
  {
    hide InputQueue.Valid, BundlePool.Covered;
  }

  lemma RunBKeeps(c: Chain)
    requires c.b.Valid() && !RunB(c).shutdown
    ensures RunB(c) == c.(b := RunB(c).b) && RanB(c.b, RunB(c).b)
  {
    hide BundlePool.Sound, BundlePool.Fed, BundlePool.Continued, BundlePool.Idled;
    if c.b.ledger.CanActivate() {
      var m, b1 := c.b.ledger.Candidate(), c.b.Activated();
      BundleActivated(c.b);
      hide BundlePool.Valid;
      if m in b1.continueable {
        BundleContinued(b1, m);
        RanByContinuing(c.b);
      } else if c.b.queue.pending != [] {
        BundleFed(b1, m);
        RanByFeeding(c.b);
      } else {
        RanByIdling(c.b);
        assert RunB(c).b == b1.Idled(m);
      }
    } else {
      AllBundling(c.b);
    }
  }

  /** One try-run of the bundle pool: it may only kick the snapshot pool, and does if it took an
      input while no snapshot machine held any weight. */
  lemma TryRunBKeeps(c: Chain)
    requires c.b.Valid() && !TryRunB(c).shutdown
    ensures var c' := TryRunB(c);
            && c'.b.Valid() && AwakeB(c')
            && c' == c.(b := c'.b, postedS := c'.postedS) && c'.postedS >= c.postedS
            && c'.b.nextMax == c.b.nextMax
            && c'.b.queue.capacity == c.b.queue.capacity && c'.b.queue.accepted == c.b.queue.accepted
            && c'.b.queue.Remaining() >= c.b.queue.Remaining()
            && (c'.b.queue.Remaining() == c.b.queue.Remaining() || (c.s.total == 0 ==> c'.postedS > 0))
  {
    if !BlockedB(c) {
      RunBKeeps(c);
    }
  }

  lemma AddBKeeps(c: Chain, snapshot: Snapshot, w: nat)
    requires c.b.Valid() && w >= 1 && c.b.queue.CanAccept(w)
    requires snapshot.chunkBytes <= snapshot.length && !AddB(c, snapshot, w).shutdown
    ensures var c' := AddB(c, snapshot, w);
            && c'.b.Valid() && AwakeB(c')
            && c' == c.(b := c'.b, postedS := c'.postedS) && c'.postedS >= c.postedS
            && c'.b.nextMax == c.b.nextMax && c'.b.queue.capacity == c.b.queue.capacity
            && c'.b.queue.accepted == c.b.queue.accepted + [snapshot]
            && c'.b.queue.Remaining() >= c.b.queue.Remaining() - w
  {
    PushValid(c.b.queue, snapshot, w);
    TryRunBKeeps(c.(b := c.b.(queue := c.b.queue.Push(snapshot, w))));
  }

  // ---------------------------------------------------------------------------------------------
  // Snapshot pool

  lemma SnapshotStarted(s: SnapshotPool, m: nat, w: nat)
    requires s.Valid() && m !in s.weights
    ensures SumOver(s.weights[m := w], s.weights.Keys + {m}) == s.total + w
    ensures |s.weights[m := w]| == s.numRunning + 1
  {
    SumSame(s.weights, s.weights[m := w], s.weights.Keys);
    SumAdd(s.weights[m := w], s.weights.Keys, m);
    assert s.weights[m := w].Keys == s.weights.Keys + {m};
  }

  lemma SnapshotDeleted(s: SnapshotPool, m: nat)
    requires s.Valid() && m in s.weights
    ensures SumOver(s.weights - {m}, s.weights.Keys - {m}) == s.total - s.weights[m] >= 0
    ensures |s.weights - {m}| == s.numRunning - 1
  {
    SumRemove(s.weights, s.weights.Keys, m);
    SumSame(s.weights, s.weights - {m}, s.weights.Keys - {m});
    assert (s.weights - {m}).Keys == s.weights.Keys - {m};
  }

  lemma StartedValid(s: SnapshotPool)
    requires s.Valid() && s.queue.pending != []
    ensures s.Started().Valid()
  {
    hide InputQueue.Valid, SumOver;
    PopValid(s.queue);
    SnapshotStarted(s, s.created, s.WeightToAdd(s.queue.pending[0].input));
    assert s.Started().weights.Keys == s.weights.Keys + {s.created};
  }

  lemma NotifiedValid(s: SnapshotPool, more: nat)
    requires s.Valid()
    ensures s.(needMore := more).Valid() && s.Notified().Valid()
  {
    hide InputQueue.Valid, SumOver;
  }

  lemma RunSValid(s: SnapshotPool)
    requires s.Valid()
    ensures s.Run().Valid()
  {
    hide SnapshotPool.Valid, SnapshotPool.Started, SnapshotPool.Notified;
    if s.numRunning < s.limit && s.queue.pending != [] {
      StartedValid(s);
      NotifiedValid(s.Started(), 0);
    }
  }

  lemma RunSKeeps(c: Chain)
    requires c.s.Valid()
    ensures var s' := RunS(c).s;
            && RunS(c) == c.(s := s') && s'.Valid() && s'.nextMax == c.s.nextMax
            && (s'.queue.pending != [] ==> s'.numRunning > 0)
            && s'.total <= c.s.total + (if c.s.queue.pending == [] then 0 else c.s.WeightToAdd(c.s.queue.pending[0].input))
            && s'.queue.accepted == c.s.queue.accepted
  {
    RunSValid(c.s);
    hide SnapshotPool.Valid;
  }

  /** One try-run of the snapshot pool keeps the reservation: what it adds was checked to fit. */
  lemma TryRunSKeeps(c: Chain)
    requires c.s.Valid() && Reserved(c)
    ensures var c' := TryRunS(c);
            && c' == c.(s := c'.s) && c'.s.Valid() && c'.s.nextMax == c.s.nextMax
            && Reserved(c') && AwakeS(c')
            && c'.s.queue.accepted == c.s.queue.accepted
  {
    if !BlockedS(c) {
      RunSKeeps(c);
    }
  }

  lemma DeleteSKeeps(c: Chain, m: nat)
    requires c.s.Valid() && m in c.s.weights
    ensures var c' := DeleteS(c, m);
            && c' == c.(s := c'.s, postedS := c.postedS + 1) && c'.s.Valid() && c'.s.nextMax == c.s.nextMax
            && c'.s.total == c.s.total - c.s.weights[m]
            && c'.s.queue == c.s.queue
  {
    SnapshotDeleted(c.s, m);
    var s' := DeleteS(c, m).s;
    assert s'.weights.Keys == c.s.weights.Keys - {m};
  }

  /** No running machine means no reserved weight. */
  lemma NothingRunning(s: SnapshotPool)
    requires s.Valid() && s.numRunning == 0
    ensures s.total == 0
  {
    assert |s.weights.Keys| == |s.weights|;
  }
}
