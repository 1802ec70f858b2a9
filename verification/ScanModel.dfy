// The executor in front of the pool chain (backup-executor.cc): it scans for paths, offers them to the
// snapshot pool and buffers those the pool refuses.

module ScanModel {
  import opened Common
  import opened PoolModel
  import opened PoolProofs
  import opened PoolTheorems
  import opened PoolLoss

  // ---------------------------------------------------------------------------------------------
  // Offering paths to the pool

  /** What offering a list of paths comes to: the chain, the paths it took, and those it refused. */
  datatype Passed = Passed(chain: Chain, admitted: seq<Entry<Path>>, kept: seq<Entry<Path>>)

  /** The pool's AddNewInput tries to start a machine at once, so taking a path may free room. */
  function Offer(r: Passed, e: Entry<Path>): Passed {
    if r.chain.s.queue.CanAccept(e.weight) then
      r.(chain := AddS(r.chain, e.input, e.weight), admitted := r.admitted + [e])
    else r.(kept := r.kept + [e])
  }

  function Pass(c: Chain, es: seq<Entry<Path>>): Passed
    decreases |es|
  {
    if es == [] then Passed(c, [], []) else Offer(Pass(c, es[..|es| - 1]), es[|es| - 1])
  }

  /** The paths `a` and `b` together are the paths `es`, each in their order. */
  ghost predicate Interleaving<T>(es: seq<T>, a: seq<T>, b: seq<T>)
    decreases |es|
  {
    if es == [] then a == [] && b == []
    else
      var rest, last := es[..|es| - 1], es[|es| - 1];
      || (a != [] && a[|a| - 1] == last && Interleaving(rest, a[..|a| - 1], b))
      || (b != [] && b[|b| - 1] == last && Interleaving(rest, a, b[..|b| - 1]))
  }

  /** How a queue can differ after an input was taken: at its end or, if machines were started, its start. */
  ghost predicate Took(q: InputQueue<Path>, es: seq<Entry<Path>>, q': InputQueue<Path>) {
    && q'.capacity == q.capacity && q'.accepted == q.accepted + Inputs(es)
    && q.started <= q'.started
    && (q'.started == q.started ==> q'.weight == q.weight + TotalWeight(es))
  }

  lemma AddTakes(c: Chain, e: Entry<Path>)
    requires c.s.queue.CanAccept(e.weight)
    ensures var c' := AddS(c, e.input, e.weight);
            c' == c.(s := c'.s) && Took(c.s.queue, [e], c'.s.queue) && c'.s.inputFinished == c.s.inputFinished
  {
    assert Inputs([e]) == [e.input] && TotalWeight([e]) == e.weight + TotalWeight<Path>([]);
    var q := c.s.queue.Push(e.input, e.weight);
    var pushed := c.(s := c.s.(queue := q));
    assert TryRunS(pushed) == pushed || TryRunS(pushed) == pushed.(s := pushed.s.Started().Notified());
    hide BlockedS;
  }

  lemma TookMore(q: InputQueue<Path>, es: seq<Entry<Path>>, q1: InputQueue<Path>, e: Entry<Path>, q2: InputQueue<Path>)
    requires Took(q, es, q1) && Took(q1, [e], q2)
    ensures Took(q, es + [e], q2)
  {
    assert Inputs(es + [e]) == Inputs(es) + Inputs([e]);
    TotalWeightSnoc(es, e);
    assert TotalWeight([e]) == e.weight + TotalWeight<Path>([]);
    assert q2.started == q.started ==> q1.started == q.started;
  }

  /** What a pass over `es` comes to. */
  ghost predicate Sorted(c: Chain, es: seq<Entry<Path>>, r: Passed) {
    && Interleaving(es, r.admitted, r.kept)
    && TotalWeight(es) == TotalWeight(r.admitted) + TotalWeight(r.kept)
    && r.chain == c.(s := r.chain.s)
    && Took(c.s.queue, r.admitted, r.chain.s.queue)
    && (r.chain.s.queue.started == c.s.queue.started ==>
          forall e :: e in r.kept ==> !r.chain.s.queue.CanAccept(e.weight))
  }

  lemma InterleavingMore<T>(es: seq<T>, a: seq<T>, b: seq<T>, x: T)
    requires Interleaving(es, a, b)
    ensures Interleaving(es + [x], a + [x], b) && Interleaving(es + [x], a, b + [x])
  {
    var all, a', b' := es + [x], a + [x], b + [x];
    assert all[..|all| - 1] == es && a'[..|a'| - 1] == a && b'[..|b'| - 1] == b;
  }

  lemma AdmitOne(c: Chain, es: seq<Entry<Path>>, r: Passed, e: Entry<Path>)
    requires Sorted(c, es, r) && r.chain.s.queue.CanAccept(e.weight)
    ensures Sorted(c, es + [e], Offer(r, e))
  {
    hide AddS, Interleaving, TotalWeight, Inputs;
    InterleavingMore(es, r.admitted, r.kept, e);
    TotalWeightSnoc(es, e);
    TotalWeightSnoc(r.admitted, e);
    var c' := AddS(r.chain, e.input, e.weight);
    AddTakes(r.chain, e);
    TookMore(c.s.queue, r.admitted, r.chain.s.queue, e, c'.s.queue);
    if c'.s.queue.started == c.s.queue.started {
      assert r.chain.s.queue.started == c.s.queue.started;
    }
  }

  lemma KeepOne(c: Chain, es: seq<Entry<Path>>, r: Passed, e: Entry<Path>)
    requires Sorted(c, es, r) && !r.chain.s.queue.CanAccept(e.weight)
    ensures Sorted(c, es + [e], Offer(r, e))
  {
    hide Interleaving, TotalWeight, Inputs;
    InterleavingMore(es, r.admitted, r.kept, e);
    TotalWeightSnoc(es, e);
    TotalWeightSnoc(r.kept, e);
  }

  lemma NothingOffered(c: Chain)
    ensures Sorted(c, [], Pass(c, []))
  {
    assert Inputs<Path>([]) == [];
    assert c.s.queue.accepted + [] == c.s.queue.accepted;
  }

  /** One pass sorts the offered paths into admitted and refused ones without changing either's order; the
      pool gets the admitted ones, in this order, and loses nothing it had; and, if no machine was started
      meanwhile, none of the refused ones would fit now. */
  lemma {:induction false} PassSorts(c: Chain, es: seq<Entry<Path>>)
    ensures Sorted(c, es, Pass(c, es))
    decreases |es|
  {
    if es == [] {
      NothingOffered(c);
    } else {
      hide Sorted, Offer;
      var rest, e := es[..|es| - 1], es[|es| - 1];
      PassSorts(c, rest);
      assert es == rest + [e];
      if Pass(c, rest).chain.s.queue.CanAccept(e.weight) {
        AdmitOne(c, rest, Pass(c, rest), e);
      } else {
        KeepOne(c, rest, Pass(c, rest), e);
      }
    }
  }

  lemma PassSnoc(c: Chain, es: seq<Entry<Path>>, e: Entry<Path>)
    ensures Pass(c, es + [e]) == Offer(Pass(c, es), e)
  {
    hide Offer;
    assert (es + [e])[..|es + [e]| - 1] == es;
  }

  /** No machine can be started: all are at work, or the first waiting path has to go on waiting. */
  predicate CannotStart(c: Chain) {
    c.s.numRunning >= c.s.limit || (c.s.queue.pending != [] && BlockedS(c))
  }

  /** A path that is taken then only waits, and still none can be started. */
  lemma OnlyWaits(c: Chain, e: Entry<Path>)
    requires CannotStart(c) && c.s.queue.CanAccept(e.weight)
    ensures AddS(c, e.input, e.weight) == c.(s := c.s.(queue := c.s.queue.Push(e.input, e.weight)))
    ensures CannotStart(AddS(c, e.input, e.weight))
  {
  }

  lemma OfferCannotStart(r: Passed, e: Entry<Path>)
    requires CannotStart(r.chain)
    ensures CannotStart(Offer(r, e).chain) && Offer(r, e).chain.s.queue.started == r.chain.s.queue.started
  {
    if r.chain.s.queue.CanAccept(e.weight) {
      OnlyWaits(r.chain, e);
    }
  }

  /** When no machine can be started before the pass, none is during it, and no refused path fits after it. */
  lemma {:induction false} RefusedStayRefused(c: Chain, es: seq<Entry<Path>>)
    requires CannotStart(c)
    ensures var r := Pass(c, es);
            && CannotStart(r.chain) && r.chain.s.queue.started == c.s.queue.started
            && forall e :: e in r.kept ==> !r.chain.s.queue.CanAccept(e.weight)
    decreases |es|
  {
    hide CannotStart, Offer, Interleaving, TotalWeight;
    PassSorts(c, es);
    if es != [] {
      RefusedStayRefused(c, es[..|es| - 1]);
      OfferCannotStart(Pass(c, es[..|es| - 1]), es[|es| - 1]);
    }
  }

  lemma PassOfTwo(c: Chain, e: Entry<Path>, l: Entry<Path>)
    ensures Pass(c, [e, l]) == Offer(Offer(Passed(c, [], []), e), l)
  {
    hide Offer;
    PassSnoc(c, [], e);
    PassSnoc(c, [e], l);
    assert [] + [e] == [e] && [e] + [l] == [e, l];
  }

  /** Of two paths, the first is refused and fits after the pass exactly if the second is taken and starts a
      machine on a waiting input that is heavy enough. */
  lemma RefusedThoughItFitsLater(c: Chain, e: Entry<Path>, l: Entry<Path>)
    ensures var q, r := c.s.queue, Pass(c, [e, l]);
            (!q.CanAccept(e.weight) && r.kept != [] && r.kept[0] == e && r.chain.s.queue.CanAccept(e.weight))
            <==>
            (&& !CannotStart(c) && q.pending != [] && l.weight <= q.Remaining() < e.weight
             && e.weight + l.weight <= q.Remaining() + q.pending[0].weight)
  {
    PassOfTwo(c, e, l);
    if !c.s.queue.CanAccept(e.weight) && c.s.queue.CanAccept(l.weight) {
      SecondTaken(c, l);
      hide AddS;
    }
  }

  /** A path that is taken starts the first waiting one, if one waits and can be started. */
  lemma TakenStartsHead(c: Chain, l: Entry<Path>)
    requires c.s.queue.CanAccept(l.weight) && !CannotStart(c) && c.s.queue.pending != []
    ensures var q' := AddS(c, l.input, l.weight).s.queue;
            q'.capacity == c.s.queue.capacity && q'.weight == c.s.queue.weight + l.weight - c.s.queue.pending[0].weight
  {
    var pushed := c.(s := c.s.(queue := c.s.queue.Push(l.input, l.weight)));
    assert pushed.s.queue.pending[0] == c.s.queue.pending[0];
    assert BlockedS(pushed) == BlockedS(c);
    hide BlockedS;
  }

  /** Where none waits, it is started itself or waits. */
  lemma TakenAlone(c: Chain, l: Entry<Path>)
    requires c.s.queue.CanAccept(l.weight) && c.s.queue.pending == []
    ensures var q' := AddS(c, l.input, l.weight).s.queue;
            && q'.capacity == c.s.queue.capacity
            && (q'.weight == c.s.queue.weight + l.weight || q'.weight == c.s.queue.weight)
  {
    hide BlockedS;
    assert c.s.queue.Push(l.input, l.weight).pending == [l];
  }

  /** The weight that waits after a path was taken. */
  lemma SecondTaken(c: Chain, l: Entry<Path>)
    requires c.s.queue.CanAccept(l.weight)
    ensures var w, q' := c.s.queue.weight + l.weight, AddS(c, l.input, l.weight).s.queue;
            && q'.capacity == c.s.queue.capacity
            && (CannotStart(c) ==> q'.weight == w)
            && (c.s.queue.pending == [] ==> q'.weight == w || q'.weight == c.s.queue.weight)
            && (!CannotStart(c) && c.s.queue.pending != [] ==> q'.weight == w - c.s.queue.pending[0].weight)
  {
    hide AddS, CannotStart;
    if CannotStart(c) {
      OnlyWaits(c, l);
    } else if c.s.queue.pending != [] {
      TakenStartsHead(c, l);
    } else {
      TakenAlone(c, l);
    }
  }

  // ---------------------------------------------------------------------------------------------
  // Weights of paths

  /** The weight of a file of this size: between one and half of what the pool holds. */
  function WeightFromFilesize(maxWeight: nat, filesize: nat): nat {
    Min(maxWeight / 2, Max(1, filesize))
  }

  /** Any path fits when the pool is at most half full, so that no path waits for ever for a pool that
      empties; a path counts as at least one. */
  lemma EntryFitsHalfFullPool(pool: InputQueue<Path>, filesize: nat)
    requires pool.weight <= pool.capacity / 2
    ensures pool.CanAccept(WeightFromFilesize(pool.capacity, filesize))
    ensures pool.capacity >= 2 ==> WeightFromFilesize(pool.capacity, filesize) >= 1
  {
  }

  /** So a pass over a buffer that is not empty then admits at least the first path. */
  lemma {:induction false} PassMakesProgress(c: Chain, es: seq<Entry<Path>>, filesize: nat)
    requires es != [] && c.s.queue.weight <= c.s.queue.capacity / 2
    requires es[0].weight == WeightFromFilesize(c.s.queue.capacity, filesize)
    ensures Pass(c, es).admitted != [] && Pass(c, es).admitted[0] == es[0]
    decreases |es|
  {
    if |es| == 1 {
      assert es[..0] == [];
      EntryFitsHalfFullPool(c.s.queue, filesize);
      hide AddS;
    } else {
      PassMakesProgress(c, es[..|es| - 1], filesize);
      hide Pass, AddS;
      assert Pass(c, es) == Offer(Pass(c, es[..|es| - 1]), es[|es| - 1]);
    }
  }

  function Weighted(maxWeight: nat, paths: seq<(Path, nat)>): seq<Entry<Path>> {
    seq(|paths|, i requires 0 <= i < |paths| => Entry(paths[i].0, WeightFromFilesize(maxWeight, paths[i].1)))
  }

  function Firsts(paths: seq<(Path, nat)>): seq<Path> {
    seq(|paths|, i requires 0 <= i < |paths| => paths[i].0)
  }

  // ---------------------------------------------------------------------------------------------
  // The executor

  datatype ScanState = NotStarted | InProgress | WaitingToContinue | FinishedButPathsBuffered | Finished

  /** `scanned` remembers every path the scanner ever delivered. */
  datatype Executor = Executor(chain: Chain, scan: ScanState, buffered: seq<Entry<Path>>, scanned: seq<Path>)

  /** The scanner calls back; the strand runs a posted need-more-input callback; or the pools do a step. */
  datatype Step = ScanDelivered(paths: seq<(Path, nat)>) | MoreAsked | PoolStep(event: Event)

  predicate CanStep(x: Executor, step: Step) {
    match step
    case ScanDelivered(_) => x.scan == InProgress
    case MoreAsked => x.chain.s.needMore > 0
    case PoolStep(e) => !e.PathAdded? && !e.MoreInputAsked? && !e.InputFinished? && Enabled(x.chain, e)
  }

  /** AddNewPendingSnapshotPaths */
  function Delivered(x: Executor, paths: seq<(Path, nat)>): Executor {
    if paths == [] then x.(scan := if x.buffered == [] then Finished else FinishedButPathsBuffered)
    else
      var r := Pass(x.chain, Weighted(x.chain.s.queue.capacity, paths));
      Executor(r.chain, WaitingToContinue, x.buffered + r.kept, x.scanned + Firsts(paths))
  }

  /** TryScanMorePaths: first the buffered paths, and then, if half the room left will do, more of the scan. */
  function ScannedMore(x: Executor): Executor {
    var r := Pass(x.chain, x.buffered);
    var scan :=
      if x.scan == FinishedButPathsBuffered && r.kept == [] then Finished
      else if x.scan == WaitingToContinue && r.chain.s.queue.Remaining() >= 2 then InProgress
      else x.scan;
    x.(chain := r.chain, scan := scan, buffered := r.kept)
  }

  function After(x: Executor, step: Step): Executor {
    match step
    case ScanDelivered(paths) => Delivered(x, paths)
    case MoreAsked => ScannedMore(x.(chain := Next(x.chain, MoreInputAsked)))
    case PoolStep(e) => x.(chain := Next(x.chain, e))
  }

  /** The executor after Start, and every state it gets into before a flush or a request to terminate. */
  ghost predicate Started(x: Executor) {
    IsStart(x.chain) && x.chain.s.queue.capacity >= 2 && x.scan == InProgress && x.buffered == [] && x.scanned == []
  }

  ghost predicate Executes(x: Executor, steps: seq<Step>, x': Executor)
    decreases |steps|
  {
    if steps == [] then x' == x
    else
      var last := |steps| - 1;
      exists mid ::
        && Executes(x, steps[..last], mid) && CanStep(mid, steps[last])
        && x' == After(mid, steps[last]) && !x'.chain.shutdown
  }

  // ---------------------------------------------------------------------------------------------
  // Every run of the executor is a run of the pool chain

  ghost predicate HasFilesWeight(e: Entry<Path>, maxWeight: nat) {
    exists filesize: nat :: e.weight == WeightFromFilesize(maxWeight, filesize)
  }

  ghost predicate HaveFilesWeights(es: seq<Entry<Path>>, maxWeight: nat) {
    forall e :: e in es ==> HasFilesWeight(e, maxWeight)
  }

  lemma WeightedHave(paths: seq<(Path, nat)>, maxWeight: nat)
    ensures HaveFilesWeights(Weighted(maxWeight, paths), maxWeight)
    ensures Inputs(Weighted(maxWeight, paths)) == Firsts(paths)
  {
    var es := Weighted(maxWeight, paths);
    forall e | e in es ensures HasFilesWeight(e, maxWeight) {
      var i :| 0 <= i < |es| && es[i] == e;
      assert e.weight == WeightFromFilesize(maxWeight, paths[i].1);
    }
    assert Inputs(es) == Firsts(paths);
  }

  ghost predicate Reaches(c: Chain, c': Chain) {
    exists es :: Runs(c, es, c')
  }

  lemma {:induction false} RunsOn(c: Chain, es: seq<Event>, c1: Chain, more: seq<Event>, c2: Chain)
    requires Runs(c, es, c1) && Runs(c1, more, c2)
    ensures Runs(c, es + more, c2)
    decreases |more|
  {
    hide Next, Enabled;
    if more == [] {
      assert es + more == es;
    } else {
      hide *;
      var last := |more| - 1;
      var mid := BeforeLast(c1, more, c2);
      RunsOn(c, es, c1, more[..last], mid);
      Extend(c, es + more[..last], mid, more[last]);
      assert es + more[..last] + [more[last]] == es + more;
    }
  }

  lemma ReachesOn(c: Chain, c1: Chain, c2: Chain)
    requires Reaches(c, c1) && Reaches(c1, c2)
    ensures Reaches(c, c2)
  {
    hide Runs;
    var es :| Runs(c, es, c1);
    var more :| Runs(c1, more, c2);
    RunsOn(c, es, c1, more, c2);
  }

  lemma OneStep(c: Chain, e: Event)
    requires Enabled(c, e) && !Next(c, e).shutdown
    ensures Reaches(c, Next(c, e))
  {
    hide Next, Enabled;
    assert [e][..0] == [];
    assert Runs(c, [], c);
    assert Runs(c, [e], Next(c, e));
  }

  lemma NoSteps(c: Chain)
    ensures Reaches(c, c)
  {
    assert Runs(c, [], c);
  }

  lemma OfferReaches(r: Passed, e: Entry<Path>)
    requires !r.chain.shutdown && e.weight >= 1
    ensures Reaches(r.chain, Offer(r, e).chain) && !Offer(r, e).chain.shutdown
  {
    NoSteps(r.chain);
    hide Reaches;
    if r.chain.s.queue.CanAccept(e.weight) {
      AddTakes(r.chain, e);
      assert Next(r.chain, PathAdded(e.input, e.weight)) == AddS(r.chain, e.input, e.weight);
      OneStep(r.chain, PathAdded(e.input, e.weight));
    }
  }

  lemma {:induction false} PassReaches(c: Chain, es: seq<Entry<Path>>)
    requires !c.shutdown && c.s.queue.capacity >= 2 && HaveFilesWeights(es, c.s.queue.capacity)
    ensures Reaches(c, Pass(c, es).chain) && !Pass(c, es).chain.shutdown
    decreases |es|
  {
    if es == [] {
      NoSteps(c);
    } else {
      var rest := es[..|es| - 1];
      assert HasFilesWeight(es[|es| - 1], c.s.queue.capacity);
      hide Reaches, Offer;
      PassReaches(c, rest);
      OfferReaches(Pass(c, rest), es[|es| - 1]);
      ReachesOn(c, Pass(c, rest).chain, Pass(c, es).chain);
    }
  }

  // ---------------------------------------------------------------------------------------------
  // Nothing is lost

  /** Every scanned path was accepted by the pool once or is buffered once. */
  ghost predicate Conserved(x: Executor) {
    && multiset(x.scanned) == multiset(x.chain.s.queue.accepted) + multiset(Inputs(x.buffered))
    && HaveFilesWeights(x.buffered, x.chain.s.queue.capacity)
    && (x.scan == Finished ==> x.buffered == [])
    && (x.scan == FinishedButPathsBuffered ==> x.buffered != [])
  }

  lemma InputsLast<T>(es: seq<Entry<T>>)
    requires es != []
    ensures multiset(Inputs(es)) == multiset(Inputs(es[..|es| - 1])) + multiset{es[|es| - 1].input}
  {
    assert Inputs(es) == Inputs(es[..|es| - 1]) + [es[|es| - 1].input];
  }

  lemma {:induction false} InterleavingCounts<T>(es: seq<Entry<T>>, a: seq<Entry<T>>, b: seq<Entry<T>>)
    requires Interleaving(es, a, b)
    ensures multiset(Inputs(es)) == multiset(Inputs(a)) + multiset(Inputs(b))
    ensures forall e :: e in b ==> e in es
    decreases |es|
  {
    if es == [] {
      assert Inputs(es) == [] && Inputs(a) == [] && Inputs(b) == [];
    } else {
      var rest := es[..|es| - 1];
      InputsLast(es);
      assert es == rest + [es[|es| - 1]];
      if a != [] && a[|a| - 1] == es[|es| - 1] && Interleaving(rest, a[..|a| - 1], b) {
        InterleavingCounts(rest, a[..|a| - 1], b);
        InputsLast(a);
      } else {
        InterleavingCounts(rest, a, b[..|b| - 1]);
        InputsLast(b);
        assert b == b[..|b| - 1] + [b[|b| - 1]];
      }
    }
  }

  /** A pass loses no path. */
  lemma PassCounts(c: Chain, es: seq<Entry<Path>>)
    ensures var r := Pass(c, es);
            && multiset(c.s.queue.accepted) + multiset(Inputs(es))
               == multiset(r.chain.s.queue.accepted) + multiset(Inputs(r.kept))
            && r.chain.s.queue.capacity == c.s.queue.capacity
            && r.chain == c.(s := r.chain.s)
            && forall e :: e in r.kept ==> e in es
  {
    hide Pass, Inputs, TotalWeight, Interleaving;
    PassSorts(c, es);
    InterleavingCounts(es, Pass(c, es).admitted, Pass(c, es).kept);
  }

  // ---------------------------------------------------------------------------------------------
  // Wake-ups

  /** More input will be asked for, or half of what the pool holds is waiting there. */
  ghost predicate AskedOrHalf(s: SnapshotPool) {
    s.needMore > 0 || s.queue.weight >= s.queue.capacity / 2
  }

  ghost predicate AskedOrWaiting(s: SnapshotPool) {
    s.needMore > 0 || s.queue.pending != []
  }

  /** What the pool does by itself leaves its queue alone, or starts the next input and asks for more if
      less than half is left. */
  ghost predicate RanOne(s: SnapshotPool, s': SnapshotPool) {
    && s'.inputFinished == s.inputFinished && s'.queue.capacity == s.queue.capacity
    && s'.queue.accepted == s.queue.accepted && s'.needMore >= s.needMore
    && ((s'.queue.weight == s.queue.weight && s'.queue.pending == s.queue.pending) || s.inputFinished || AskedOrHalf(s'))
  }

  lemma TryRunRanOne(c: Chain)
    ensures RanOne(c.s, TryRunS(c).s)
  {
    hide BlockedS;
    assert TryRunS(c) == c || TryRunS(c) == c.(s := c.s.Run());
  }

  lemma PoolStepRanOne(c: Chain, e: Event)
    requires !e.PathAdded? && !e.MoreInputAsked? && !e.InputFinished?
    ensures RanOne(c.s, Next(c, e).s)
  {
    hide AskedOrHalf;
    match e
    case PostedRunS =>
      if c.postedS > 0 {
        TryRunRanOne(c.(postedS := c.postedS - 1));
      }
    case BundleReady(m, pendingBytes, bundle) =>
      ReadyFrame(c, m, pendingBytes, bundle);
      hide Next;
    case _ =>
      OthersLeaveUploads(c, e);
      hide Next;
  }

  /** Both of these follow from half being waiting. */
  lemma HalfIsWaiting(s: SnapshotPool)
    requires s.Valid() && s.queue.capacity >= 2 && AskedOrHalf(s)
    ensures AskedOrWaiting(s)
  {
    assert TotalWeight<Path>([]) == 0;
  }

  lemma RanOneKeeps(s: SnapshotPool, s': SnapshotPool)
    requires RanOne(s, s') && !s.inputFinished && s'.Valid() && s.queue.capacity >= 2
    ensures AskedOrHalf(s) ==> AskedOrHalf(s')
    ensures AskedOrWaiting(s) ==> AskedOrWaiting(s')
  {
    hide SnapshotPool.Valid;
    if AskedOrHalf(s') {
      HalfIsWaiting(s');
    }
  }

  /** A path that is refused finds more than half waiting; one that is taken waits, or its start asks. */
  lemma OfferKeeps(r: Passed, e: Entry<Path>)
    requires Inv(r.chain) && Inv(Offer(r, e).chain) && !r.chain.s.inputFinished && r.chain.s.queue.capacity >= 2
    requires HasFilesWeight(e, r.chain.s.queue.capacity)
    ensures var s, s' := r.chain.s, Offer(r, e).chain.s;
            && s'.inputFinished == s.inputFinished && s'.queue.capacity == s.queue.capacity
            && (AskedOrHalf(s) || Offer(r, e).kept != r.kept ==> AskedOrHalf(s'))
            && AskedOrWaiting(s')
  {
    hide Inv, SnapshotPool.Valid;
    var c := r.chain;
    if c.s.queue.CanAccept(e.weight) {
      var pushed := c.(s := c.s.(queue := c.s.queue.Push(e.input, e.weight)));
      assert AskedOrHalf(c.s) ==> AskedOrHalf(pushed.s);
      assert AskedOrWaiting(pushed.s);
      TryRunRanOne(pushed);
      assert Offer(r, e).chain == TryRunS(pushed);
      ValidS(TryRunS(pushed));
      hide TryRunS;
      RanOneKeeps(pushed.s, TryRunS(pushed).s);
      assert Offer(r, e).kept == r.kept;
    } else {
      ValidS(c);
      assert AskedOrHalf(c.s);
      HalfIsWaiting(c.s);
    }
  }

  lemma ValidS(c: Chain)
    requires Inv(c)
    ensures c.s.Valid()
  {
    hide SnapshotPool.Valid, BundlePool.Valid, UploadPool.Valid, BlockedS, BlockedB;
  }

  lemma {:induction false} PassKeeps(c: Chain, es: seq<Entry<Path>>)
    requires Inv(c) && !c.shutdown && !c.s.inputFinished && c.s.queue.capacity >= 2
    requires HaveFilesWeights(es, c.s.queue.capacity)
    ensures var r := Pass(c, es); var s' := r.chain.s;
            && Inv(r.chain) && s'.inputFinished == c.s.inputFinished && s'.queue.capacity == c.s.queue.capacity
            && (AskedOrHalf(c.s) || r.kept != [] ==> AskedOrHalf(s'))
            && (AskedOrWaiting(c.s) || es != [] ==> AskedOrWaiting(s'))
    decreases |es|
  {
    if es != [] {
      var rest, e := es[..|es| - 1], es[|es| - 1];
      hide Inv, AskedOrHalf, AskedOrWaiting, HasFilesWeight, Reaches;
      PassKeeps(c, rest);
      PassReaches(c, es);
      ReachesKeeps(c, Pass(c, es).chain);
      assert HasFilesWeight(e, c.s.queue.capacity);
      OfferKeeps(Pass(c, rest), e);
    }
  }

  lemma ReachesKeeps(c: Chain, c': Chain)
    requires Inv(c) && Reaches(c, c')
    ensures Inv(c')
  {
    hide Inv, Runs;
    var es :| Runs(c, es, c');
    RunKeeps(c, es, c');
  }

  // ---------------------------------------------------------------------------------------------
  // What every run of the executor keeps

  /** Unless the scanner is at work or all is finished, the pool asks for more, or has something waiting:
      half of what it holds, if paths are buffered. */
  ghost predicate WillContinue(x: Executor) {
    && (x.buffered != [] ==> AskedOrHalf(x.chain.s))
    && (x.scan != InProgress && x.scan != Finished ==> AskedOrWaiting(x.chain.s))
  }

  ghost predicate Good(x: Executor) {
    && Inv(x.chain) && !x.chain.shutdown && !x.chain.s.inputFinished && x.chain.s.queue.capacity >= 2
    && x.scan != NotStarted
    && Conserved(x) && WillContinue(x)
  }

  lemma DeliveredConserves(x: Executor, paths: seq<(Path, nat)>)
    requires Conserved(x) && x.scan == InProgress
    ensures Conserved(Delivered(x, paths))
  {
    hide Pass, Inputs, HasFilesWeight, HaveFilesWeights;
    if paths != [] {
      var es := Weighted(x.chain.s.queue.capacity, paths);
      WeightedHave(paths, x.chain.s.queue.capacity);
      var r := Pass(x.chain, es);
      PassCounts(x.chain, es);
      InputsOfBoth(x.buffered, r.kept);
      SomeHave(x.buffered, es, r.kept, x.chain.s.queue.capacity);
      var x' := Delivered(x, paths);
      assert x'.buffered == x.buffered + r.kept && x'.scanned == x.scanned + Firsts(paths) && x'.chain == r.chain;
      hide Weighted, Firsts;
      assert multiset(x'.scanned) == multiset(x.scanned) + multiset(Inputs(es));
      assert multiset(Inputs(x'.buffered)) == multiset(Inputs(x.buffered)) + multiset(Inputs(r.kept));
      Rearranged(multiset(x.scanned), multiset(x.chain.s.queue.accepted), multiset(Inputs(x.buffered)),
                 multiset(Inputs(es)), multiset(r.chain.s.queue.accepted), multiset(Inputs(r.kept)));
    }
  }

  lemma Rearranged(all: multiset<Path>, accepted: multiset<Path>, buffered: multiset<Path>, more: multiset<Path>,
                   accepted': multiset<Path>, kept: multiset<Path>)
    requires all == accepted + buffered && accepted + more == accepted' + kept
    ensures all + more == accepted' + (buffered + kept)
  {
    assert all + more == buffered + (accepted + more);
  }

  lemma SomeHave(buffered: seq<Entry<Path>>, es: seq<Entry<Path>>, kept: seq<Entry<Path>>, maxWeight: nat)
    requires HaveFilesWeights(buffered, maxWeight) && HaveFilesWeights(es, maxWeight)
    requires forall e :: e in kept ==> e in es
    ensures HaveFilesWeights(buffered + kept, maxWeight)
  {
  }

  lemma DeliveredKeeps(x: Executor, paths: seq<(Path, nat)>)
    requires Good(x) && x.scan == InProgress
    ensures Good(Delivered(x, paths)) && Reaches(x.chain, Delivered(x, paths).chain)
  {
    hide Pass, Inv, AskedOrHalf, AskedOrWaiting, HaveFilesWeights, Reaches, Conserved;
    var c, es := x.chain, Weighted(x.chain.s.queue.capacity, paths);
    DeliveredConserves(x, paths);
    if paths == [] {
      NoSteps(c);
      if x.buffered != [] {
        ValidS(c);
        HalfIsWaiting(c.s);
      }
    } else {
      WeightedHave(paths, x.chain.s.queue.capacity);
      PassKeeps(c, es);
      PassReaches(c, es);
    }
  }

  lemma InputsOfBoth<T>(a: seq<Entry<T>>, b: seq<Entry<T>>)
    ensures Inputs(a + b) == Inputs(a) + Inputs(b)
  {
  }

  lemma ScannedMoreConserves(x: Executor)
    requires Conserved(x)
    ensures Conserved(ScannedMore(x))
  {
    hide Pass, Inputs, HasFilesWeight;
    PassCounts(x.chain, x.buffered);
    var kept := Pass(x.chain, x.buffered).kept;
    assert kept != [] ==> kept[0] in x.buffered;
  }

  lemma TakenStillConserved(x: Executor)
    requires Conserved(x)
    ensures Conserved(x.(chain := Next(x.chain, MoreInputAsked)))
  {
    hide HaveFilesWeights, Inputs;
  }

  lemma ScannedMoreKeeps(x: Executor)
    requires Good(x) && x.chain.s.needMore > 0
    ensures var x' := After(x, MoreAsked); Good(x') && Reaches(x.chain, x'.chain)
  {
    hide Pass, Inv, Reaches, HaveFilesWeights, Inputs, AskedOrHalf;
    var c := Next(x.chain, MoreInputAsked);
    var x1, r := x.(chain := c), Pass(c, x.buffered);
    NoticesKeep(x.chain);
    OneStep(x.chain, MoreInputAsked);
    TakenStillConserved(x);
    PassKeeps(c, x.buffered);
    PassReaches(c, x.buffered);
    hide Next;
    ReachesOn(x.chain, c, r.chain);
    ScannedMoreConserves(x1);
    ValidS(r.chain);
    if r.kept != [] {
      HalfIsWaiting(r.chain.s);
    } else if ScannedMore(x1).scan == WaitingToContinue {
      FullIsWaiting(r.chain.s);
    }
  }

  lemma FullIsWaiting(s: SnapshotPool)
    requires s.Valid() && s.queue.capacity >= 2 && s.queue.Remaining() < 2
    ensures s.queue.pending != []
  {
    assert TotalWeight<Path>([]) == 0;
  }

  lemma PoolStepKeeps(x: Executor, e: Event)
    requires Good(x) && CanStep(x, PoolStep(e)) && !Next(x.chain, e).shutdown
    ensures Good(After(x, PoolStep(e))) && Reaches(x.chain, Next(x.chain, e))
  {
    StepKeeps(x.chain, e);
    OneStep(x.chain, e);
    PoolStepRanOne(x.chain, e);
    hide Inv, Reaches, Next, HaveFilesWeights, AskedOrHalf, AskedOrWaiting;
    ValidS(Next(x.chain, e));
    RanOneKeeps(x.chain.s, Next(x.chain, e).s);
  }

  lemma ExecutorStepKeeps(x: Executor, step: Step)
    requires Good(x) && CanStep(x, step) && !After(x, step).chain.shutdown
    ensures Good(After(x, step)) && Reaches(x.chain, After(x, step).chain)
  {
    hide Good, Reaches, Delivered, ScannedMore, Next;
    match step
    case ScanDelivered(paths) => DeliveredKeeps(x, paths);
    case MoreAsked =>
      NeedsNoMore(x);
      ScannedMoreKeeps(x);
    case PoolStep(e) => PoolStepKeeps(x, e);
  }

  lemma NeedsNoMore(x: Executor)
    requires CanStep(x, MoreAsked)
    ensures x.chain.s.needMore > 0
  {
  }

  lemma StartedGood(x: Executor)
    requires Started(x)
    ensures Good(x) && Reachable(x.chain)
  {
    StartInv(x.chain);
    assert Runs(x.chain, [], x.chain);
    assert Inputs<Path>([]) == [];
    hide Inv, Runs;
  }

  lemma {:induction false} ExecutesKeeps(x: Executor, steps: seq<Step>, x': Executor)
    requires Good(x) && Executes(x, steps, x')
    ensures Good(x') && Reaches(x.chain, x'.chain)
    decreases |steps|
  {
    if steps == [] {
      NoSteps(x.chain);
    } else {
      hide Good, Reaches, After, CanStep;
      var last := |steps| - 1;
      var mid :| Executes(x, steps[..last], mid) && CanStep(mid, steps[last]) && x' == After(mid, steps[last])
                 && !x'.chain.shutdown;
      ExecutesKeeps(x, steps[..last], mid);
      ExecutorStepKeeps(mid, steps[last]);
      ReachesOn(x.chain, mid.chain, x'.chain);
    }
  }

  // ---------------------------------------------------------------------------------------------
  // Main results

  /** Whatever the executor does, its pools are in a state of the pool chain's runs, so that what holds of
      those holds here. */
  lemma ExecutorRunsTheChain(x: Executor, steps: seq<Step>, x': Executor)
    requires Started(x) && Executes(x, steps, x')
    ensures Reachable(x'.chain)
  {
    hide Good, Executes;
    StartedGood(x);
    ExecutesKeeps(x, steps, x');
    hide Runs, IsStart;
    var es :| Runs(x.chain, es, x'.chain);
    assert IsStart(x.chain);
  }

  /** Over every run, each scanned path was accepted by the snapshot pool once or is buffered once; and once
      the scan is finished and the buffer is empty, the pool has accepted exactly the scanned paths. */
  lemma ScannedPathsConserved(x: Executor, steps: seq<Step>, x': Executor)
    requires Started(x) && Executes(x, steps, x')
    ensures multiset(x'.scanned) == multiset(x'.chain.s.queue.accepted) + multiset(Inputs(x'.buffered))
    ensures x'.scan == Finished ==> multiset(x'.scanned) == multiset(x'.chain.s.queue.accepted)
  {
    hide Executes, Started, Inv;
    StartedGood(x);
    ExecutesKeeps(x, steps, x');
    assert Inputs<Path>([]) == [];
  }

  /** The executor's own wake-up: unless the scanner is at work or the scan is finished with nothing buffered,
      a machine is at work or some callback is posted; and while paths are buffered, more input will be asked
      for or half of what the pool holds is waiting there. */
  lemma ScanNeverStalls(x: Executor, steps: seq<Step>, x': Executor)
    requires Started(x) && Executes(x, steps, x')
    ensures var c := x'.chain;
            x'.scan != InProgress && x'.scan != Finished ==>
              || c.s.numRunning > 0 || c.b.ledger.active != {} || c.u.ledger.active != {}
              || c.postedS > 0 || c.postedB > 0 || c.s.needMore > 0
    ensures x'.buffered != [] ==> x'.chain.s.needMore > 0 || x'.chain.s.queue.weight >= x'.chain.s.queue.capacity / 2
  {
    hide Executes, Started, Inv, Reachable, Conserved;
    StartedGood(x);
    ExecutesKeeps(x, steps, x');
    ExecutorRunsTheChain(x, steps, x');
    if x'.chain.s.queue.pending != [] {
      NoLostWakeUp(x'.chain);
    }
  }
}
