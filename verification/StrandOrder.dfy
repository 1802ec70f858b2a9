// The strand that the executor and its pools share: callbacks wait in one queue and run in the order in
// which they came to it. Reports of machines and of the scanner come at any time, each source's one at a
// time; what a callback posts goes to the end of the queue.

module StrandOrder {
  import opened Common
  import opened PoolModel
  import opened PoolTheorems
  import PoolMoves
  import opened ScanModel

  /** Who sends a callback to the strand. */
  datatype Source =
    | FromScanner | FromSnapshotMachine(m: nat) | FromBundleMachine(m: nat) | FromUploadMachine(m: nat) | FromPools

  function SourceOf(step: Step): Source {
    match step
    case ScanDelivered(_) => FromScanner
    case PoolStep(SnapshotFinished(m, _)) => FromSnapshotMachine(m)
    case PoolStep(SnapshotDone(m, _)) => FromBundleMachine(m)
    case PoolStep(BundleReady(m, _, _)) => FromBundleMachine(m)
    case PoolStep(BundleUploaded(m)) => FromUploadMachine(m)
    case _ => FromPools
  }

  datatype Strand = Strand(x: Executor, queue: seq<Step>)

  const RUN_S := PoolStep(PostedRunS)
  const RUN_B := PoolStep(PostedRunB)

  function Times(step: Step, n: int): seq<Step> {
    if n <= 0 then [] else seq(n, _ => step)
  }

  /** How often `k` was posted, going by the counters. */
  function Posts(c: Chain, step: Step, c': Chain, k: Step): int {
    (if k == RUN_B then c'.postedB - c.postedB
     else if k == RUN_S then c'.postedS - c.postedS
     else if k == MoreAsked then c'.s.needMore - c.s.needMore
     else 0) + if step == k then 1 else 0
  }

  /** What running `step` posted, in this order: within one callback the bundle pool is tried before the
      snapshot pool, and only a callback that posts neither asks for more input. */
  function Posted(c: Chain, step: Step, c': Chain): seq<Step> {
    Times(RUN_B, Posts(c, step, c', RUN_B)) + Times(RUN_S, Posts(c, step, c', RUN_S))
    + Times(MoreAsked, Posts(c, step, c', MoreAsked))
  }

  /** A source calls back when it has something to say, and once only until that was heard. */
  predicate CanArrive(st: Strand, step: Step) {
    && SourceOf(step) != FromPools && CanStep(st.x, step)
    && forall i :: 0 <= i < |st.queue| ==> SourceOf(st.queue[i]) != SourceOf(step)
  }

  function Arrived(st: Strand, step: Step): Strand {
    st.(queue := st.queue + [step])
  }

  predicate CanRun(st: Strand) {
    st.queue != [] && CanStep(st.x, st.queue[0]) && !After(st.x, st.queue[0]).chain.shutdown
  }

  function Ran(st: Strand): Strand
    requires st.queue != []
  {
    var x' := After(st.x, st.queue[0]);
    Strand(x', st.queue[1..] + Posted(st.x.chain, st.queue[0], x'.chain))
  }

  datatype Move = Arrive(step: Step) | RunFront

  predicate CanMove(st: Strand, move: Move) {
    match move
    case Arrive(step) => CanArrive(st, step)
    case RunFront => CanRun(st)
  }

  function Moved(st: Strand, move: Move): Strand
    requires CanMove(st, move)
  {
    match move
    case Arrive(step) => Arrived(st, step)
    case RunFront => Ran(st)
  }

  ghost predicate InOrder(st: Strand, moves: seq<Move>, st': Strand)
    decreases |moves|
  {
    if moves == [] then st' == st
    else
      var last := |moves| - 1;
      exists mid :: InOrder(st, moves[..last], mid) && CanMove(mid, moves[last]) && st' == Moved(mid, moves[last])
  }

  /** What came to the strand from outside, in order. */
  function Arrivals(moves: seq<Move>): seq<Step> {
    if moves == [] then []
    else
      var last := |moves| - 1;
      Arrivals(moves[..last]) + if moves[last].Arrive? then [moves[last].step] else []
  }

  /** Some run of the strand on which these callbacks come from outside, in this order, gets there. */
  ghost predicate Leads(st: Strand, arrivals: seq<Step>, st': Strand) {
    exists moves :: InOrder(st, moves, st') && Arrivals(moves) == arrivals
  }

  // ---------------------------------------------------------------------------------------------
  // Building runs

  lemma Stays(st: Strand)
    ensures Leads(st, [], st)
  {
    assert InOrder(st, [], st) && Arrivals([]) == [];
  }

  lemma OneMove(st: Strand, moves: seq<Move>, mid: Strand, move: Move)
    requires InOrder(st, moves, mid) && CanMove(mid, move)
    ensures InOrder(st, moves + [move], Moved(mid, move))
    ensures Arrivals(moves + [move]) == Arrivals(moves) + if move.Arrive? then [move.step] else []
  {
    hide CanMove, Moved;
    var all := moves + [move];
    assert all[..|all| - 1] == moves;
  }

  lemma ThenArrives(st: Strand, arrivals: seq<Step>, mid: Strand, step: Step)
    requires Leads(st, arrivals, mid) && CanArrive(mid, step)
    ensures Leads(st, arrivals + [step], Arrived(mid, step))
  {
    hide InOrder, Arrivals, CanArrive;
    var moves :| InOrder(st, moves, mid) && Arrivals(moves) == arrivals;
    OneMove(st, moves, mid, Arrive(step));
  }

  lemma ThenRuns(st: Strand, arrivals: seq<Step>, mid: Strand)
    requires Leads(st, arrivals, mid) && CanRun(mid)
    ensures Leads(st, arrivals, Ran(mid))
  {
    hide InOrder, Arrivals, CanRun, Ran;
    var moves :| InOrder(st, moves, mid) && Arrivals(moves) == arrivals;
    OneMove(st, moves, mid, RunFront);
    assert Arrivals(moves) + [] == Arrivals(moves);
  }

  // ---------------------------------------------------------------------------------------------
  // Ordered runs are runs

  /** Every run in posting order is a run of the executor, so that what holds on those holds on these. */
  lemma {:induction false} OrderedRunsExecute(st: Strand, moves: seq<Move>, st': Strand)
    requires InOrder(st, moves, st')
    ensures exists steps :: Executes(st.x, steps, st'.x)
    decreases |moves|
  {
    hide CanStep, After;
    if moves == [] {
      assert Executes(st.x, [], st.x);
    } else {
      var last := |moves| - 1;
      var mid :| InOrder(st, moves[..last], mid) && CanMove(mid, moves[last]) && st' == Moved(mid, moves[last]);
      OrderedRunsExecute(st, moves[..last], mid);
      var steps :| Executes(st.x, steps, mid.x);
      if moves[last] == RunFront {
        hide InOrder;
        var all := steps + [mid.queue[0]];
        assert all[..|all| - 1] == steps;
        assert Executes(st.x, all, st'.x);
      }
    }
  }

  // ---------------------------------------------------------------------------------------------
  // The queue holds what was posted

  /** No counter of posted callbacks goes down, except that of a callback that runs. */
  ghost predicate CountsUp(c: Chain, step: Step, c': Chain) {
    && c'.postedB >= c.postedB - (if step == RUN_B then 1 else 0)
    && c'.postedS >= c.postedS - (if step == RUN_S then 1 else 0)
    && c'.s.needMore >= c.s.needMore - (if step == MoreAsked then 1 else 0)
  }

  lemma TryRunBCounts(c: Chain)
    ensures TryRunB(c).postedB == c.postedB && TryRunB(c).postedS >= c.postedS
  {
    hide BundlePool.Fed, BundlePool.Continued, BundlePool.Activated, BundlePool.Idled, BundlePool.WeightToAdd;
    hide Ledger.CanActivate, Ledger.Candidate, Ledger.Outstanding, SnapshotsIdle, BundlesIdle;
    assert RunB(c).postedB == c.postedB && RunB(c).postedS == c.postedS;
    hide RunB;
  }

  lemma TryRunUCounts(c: Chain)
    ensures TryRunU(c).postedB >= c.postedB && TryRunU(c).postedS == c.postedS
  {
    hide UploadPool.Fed, UploadPool.Activated, UploadPool.Idled;
    hide Ledger.CanActivate, Ledger.Candidate, Ledger.Outstanding, UploadsIdle;
    assert RunU(c).postedB == c.postedB && RunU(c).postedS == c.postedS;
    hide RunU;
  }

  lemma ReadyCounts(c: Chain, m: nat, pendingBytes: nat, bundle: Bundle)
    ensures var c' := HandleBundleReady(c, m, pendingBytes, bundle); c'.postedB >= c.postedB && c'.postedS >= c.postedS
  {
    hide TryRunB, TryRunU, BundlesIdle;
    var c1, w := Reported(c, m, pendingBytes), Min(c.b.nextMax, bundle.size);
    if c1.u.queue.CanAccept(w) {
      TryRunUCounts(c1.(u := c1.u.(queue := c1.u.queue.Push(bundle, w))));
    }
    TryRunBCounts(DeactivateB(MarkContinueable(AddU(c1, bundle, w), m), m));
  }

  lemma UploadedCounts(c: Chain, m: nat)
    ensures var c' := HandleBundleUploaded(c, m); c'.postedB >= c.postedB && c'.postedS == c.postedS
  {
    hide TryRunU, UploadsIdle;
    TryRunUCounts(PoolTheorems.Finished(c, m));
  }

  lemma FinishCounts(c: Chain, m: nat, output: Option<Snapshot>)
    ensures var c' := FinishS(c, m, output); c'.postedB == c.postedB && c'.postedS >= c.postedS
  {
    hide TryRunB;
    if output.Some? {
      var c0 := c.(violated := c.violated || !c.b.queue.CanAccept(1));
      var w := Min(c.s.nextMax, output.value.length);
      TryRunBCounts(c0.(b := c0.b.(queue := c0.b.queue.Push(output.value, w))));
    }
  }

  lemma DeactivateBCounts(c: Chain, m: nat)
    ensures DeactivateB(c, m).postedB == c.postedB && DeactivateB(c, m).postedS == c.postedS
  {
    hide BundlesIdle;
  }

  lemma PoolStepCounts(x: Executor, e: Event)
    requires CanStep(x, PoolStep(e))
    ensures CountsUp(x.chain, PoolStep(e), Next(x.chain, e))
  {
    hide TryRunB, DeactivateB, HandleBundleReady, HandleBundleUploaded, FinishS, SnapshotPool.Started, BundlesIdle;
    var c := x.chain;
    PoolStepRanOne(c, e);
    match e
    case PostedRunB => TryRunBCounts(c.(postedB := c.postedB - 1));
    case SnapshotFinished(m, output) => FinishCounts(c, m, output);
    case SnapshotDone(m, timedOut) =>
      var c1 := c.(b := c.b.(continueable := c.b.continueable - {m}, machines := c.b.machines[m := Resting]));
      DeactivateBCounts(c1, m);
      TryRunBCounts(DeactivateB(c1, m));
    case BundleReady(m, pendingBytes, bundle) => ReadyCounts(c, m, pendingBytes, bundle);
    case BundleUploaded(m) => UploadedCounts(c, m);
    case _ =>
  }

  lemma {:induction false} PassCountsUp(c: Chain, es: seq<Entry<Path>>)
    ensures Pass(c, es).chain.s.needMore >= c.s.needMore
    decreases |es|
  {
    if es != [] {
      var r, e := Pass(c, es[..|es| - 1]), es[|es| - 1];
      PassCountsUp(c, es[..|es| - 1]);
      var pushed := r.chain.(s := r.chain.s.(queue := r.chain.s.queue.Push(e.input, e.weight)));
      TryRunRanOne(pushed);
      hide TryRunS;
    }
  }

  lemma StepCounts(x: Executor, step: Step)
    requires CanStep(x, step)
    ensures CountsUp(x.chain, step, After(x, step).chain)
  {
    hide Pass, Interleaving, Inputs;
    match step
    case ScanDelivered(paths) =>
      var es := Weighted(x.chain.s.queue.capacity, paths);
      PassCountsUp(x.chain, es);
      PassCounts(x.chain, es);
    case MoreAsked =>
      var c := Next(x.chain, MoreInputAsked);
      PassCountsUp(c, x.buffered);
      PassCounts(c, x.buffered);
    case PoolStep(e) => PoolStepCounts(x, e);
  }

  /** The queue holds each posted callback as often as the counters say. */
  ghost predicate Balanced(st: Strand) {
    var queued := multiset(st.queue);
    && queued[RUN_B] == st.x.chain.postedB && queued[RUN_S] == st.x.chain.postedS
    && queued[MoreAsked] == st.x.chain.s.needMore
  }

  lemma CountTimes(step: Step, n: int, k: Step)
    requires n >= 0
    ensures multiset(Times(step, n))[k] == if k == step then n else 0
    decreases n
  {
    if n > 0 {
      CountTimes(step, n - 1, k);
      assert Times(step, n) == Times(step, n - 1) + [step];
    }
  }

  lemma CountAll(b: int, s: int, m: int, k: Step)
    requires b >= 0 && s >= 0 && m >= 0
    ensures multiset(Times(RUN_B, b) + Times(RUN_S, s) + Times(MoreAsked, m))[k]
         == (if k == RUN_B then b else 0) + (if k == RUN_S then s else 0) + (if k == MoreAsked then m else 0)
  {
    hide Times;
    CountTimes(RUN_B, b, k);
    CountTimes(RUN_S, s, k);
    CountTimes(MoreAsked, m, k);
  }

  lemma PostedCounts(c: Chain, step: Step, c': Chain, k: Step)
    requires CountsUp(c, step, c') && (k == RUN_B || k == RUN_S || k == MoreAsked)
    ensures multiset(Posted(c, step, c'))[k] == Posts(c, step, c', k)
  {
    hide Times;
    CountAll(Posts(c, step, c', RUN_B), Posts(c, step, c', RUN_S), Posts(c, step, c', MoreAsked), k);
  }

  lemma FrontAndRest(queue: seq<Step>, more: seq<Step>, step: Step)
    requires queue != []
    ensures multiset(queue[1..] + more)[step]
         == multiset(queue)[step] - (if step == queue[0] then 1 else 0) + multiset(more)[step]
  {
    assert queue == [queue[0]] + queue[1..];
  }

  lemma RanBalanced(st: Strand)
    requires Balanced(st) && CanRun(st)
    ensures Balanced(Ran(st))
  {
    hide After, CanStep, Posted;
    var step, c, c' := st.queue[0], st.x.chain, After(st.x, st.queue[0]).chain;
    var posted := Posted(c, step, c');
    StepCounts(st.x, step);
    PostedCounts(c, step, c', RUN_B);
    PostedCounts(c, step, c', RUN_S);
    PostedCounts(c, step, c', MoreAsked);
    FrontAndRest(st.queue, posted, RUN_B);
    FrontAndRest(st.queue, posted, RUN_S);
    FrontAndRest(st.queue, posted, MoreAsked);
  }

  lemma ArrivedBalanced(st: Strand, step: Step)
    requires Balanced(st) && SourceOf(step) != FromPools
    ensures Balanced(Arrived(st, step))
  {
  }

  // ---------------------------------------------------------------------------------------------
  // A report is still right when it is heard

  lemma {:induction false} PassLeavesPaths(c: Chain, es: seq<Entry<Path>>, k: nat)
    requires Inv(c) && !c.shutdown && !c.s.inputFinished && c.s.queue.capacity >= 2
    requires HaveFilesWeights(es, c.s.queue.capacity) && k in c.s.paths
    ensures var s' := Pass(c, es).chain.s; k in s'.paths && s'.paths[k] == c.s.paths[k]
    decreases |es|
  {
    if es != [] {
      hide Inv, AddS, AskedOrHalf, AskedOrWaiting, HasFilesWeight;
      var r, e := Pass(c, es[..|es| - 1]), es[|es| - 1];
      PassLeavesPaths(c, es[..|es| - 1], k);
      PassKeeps(c, es[..|es| - 1]);
      ValidS(r.chain);
      assert HasFilesWeight(e, c.s.queue.capacity);
      WeighsOne(e, c.s.queue.capacity);
      PoolMoves.AddSLeavesPaths(r.chain, e.input, e.weight, k);
    }
  }

  lemma WeighsOne(e: Entry<Path>, maxWeight: nat)
    requires HasFilesWeight(e, maxWeight) && maxWeight >= 2
    ensures e.weight >= 1
  {
  }

  /** Only the snapshot pool is touched when paths are offered. */
  lemma OfferingLeavesReports(c: Chain, es: seq<Entry<Path>>, report: Event)
    requires Inv(c) && !c.shutdown && !c.s.inputFinished && c.s.queue.capacity >= 2
    requires HaveFilesWeights(es, c.s.queue.capacity) && Enabled(c, report)
    requires report.SnapshotFinished? || report.SnapshotDone? || report.BundleReady? || report.BundleUploaded?
    ensures Enabled(Pass(c, es).chain, report)
  {
    hide Inv, Pass, Inputs, HaveFilesWeights;
    PassCounts(c, es);
    if report.SnapshotFinished? {
      PassLeavesPaths(c, es, report.machine);
    }
  }

  lemma ReportStays(x: Executor, step: Step, report: Step)
    requires Good(x) && CanStep(x, step) && !After(x, step).chain.shutdown && CanStep(x, report)
    requires SourceOf(report) != FromPools && SourceOf(report) != SourceOf(step)
    ensures CanStep(After(x, step), report)
  {
    hide Inv, Pass, WillContinue, HaveFilesWeights, Inputs;
    match step
    case ScanDelivered(paths) =>
      if paths != [] {
        WeightedHave(paths, x.chain.s.queue.capacity);
        OfferingLeavesReports(x.chain, Weighted(x.chain.s.queue.capacity, paths), report.event);
      }
    case MoreAsked =>
      if report.PoolStep? {
        NoticesKeep(x.chain);
        OfferingLeavesReports(Next(x.chain, MoreInputAsked), x.buffered, report.event);
      }
    case PoolStep(e) =>
      hide Next;
      if report.PoolStep? {
        PoolMoves.ReportsStay(x.chain, e, report.event);
      }
  }

  ghost predicate Reports(st: Strand) {
    && (forall i :: 0 <= i < |st.queue| && SourceOf(st.queue[i]) != FromPools ==> CanStep(st.x, st.queue[i]))
    && (forall i, j :: 0 <= i < j < |st.queue| && SourceOf(st.queue[i]) != FromPools ==>
          SourceOf(st.queue[i]) != SourceOf(st.queue[j]))
    && (forall i :: 0 <= i < |st.queue| && SourceOf(st.queue[i]) == FromPools ==>
          st.queue[i] == RUN_B || st.queue[i] == RUN_S || st.queue[i] == MoreAsked)
  }

  ghost predicate Ordered(st: Strand) {
    Good(st.x) && Balanced(st) && Reports(st)
  }

  lemma AllTimes(step: Step, n: int)
    ensures forall i :: 0 <= i < |Times(step, n)| ==> Times(step, n)[i] == step
  {
  }

  lemma PostedAreThePools(c: Chain, step: Step, c': Chain)
    ensures forall i :: 0 <= i < |Posted(c, step, c')| ==>
              var p := Posted(c, step, c')[i]; p == RUN_B || p == RUN_S || p == MoreAsked
  {
    hide Times, Posts;
    AllTimes(RUN_B, Posts(c, step, c', RUN_B));
    AllTimes(RUN_S, Posts(c, step, c', RUN_S));
    AllTimes(MoreAsked, Posts(c, step, c', MoreAsked));
  }

  lemma RanReports(st: Strand)
    requires Good(st.x) && Reports(st) && CanRun(st)
    ensures Reports(Ran(st))
  {
    hide Good, CanStep, After, Posted;
    var front, rest := st.queue[0], st.queue[1..];
    PostedAreThePools(st.x.chain, front, After(st.x, front).chain);
    forall i | 0 <= i < |Ran(st).queue| && SourceOf(Ran(st).queue[i]) != FromPools
      ensures i < |rest| && Ran(st).queue[i] == st.queue[i + 1] && CanStep(Ran(st).x, Ran(st).queue[i])
    {
      ReportStays(st.x, front, st.queue[i + 1]);
    }
  }

  lemma ArrivingKeeps(st: Strand, step: Step)
    requires Ordered(st) && CanArrive(st, step)
    ensures Ordered(Arrived(st, step))
  {
    hide Good, CanStep, SourceOf;
    ArrivedBalanced(st, step);
    hide Balanced;
  }

  lemma RunningKeeps(st: Strand)
    requires Ordered(st) && CanRun(st)
    ensures Ordered(Ran(st))
  {
    RanReports(st);
    RanBalanced(st);
    ExecutorStepKeeps(st.x, st.queue[0]);
    hide Good, Balanced, Reports, Reaches;
  }

  lemma {:induction false} MovesKeep(st: Strand, moves: seq<Move>, st': Strand)
    requires Ordered(st) && InOrder(st, moves, st')
    ensures Ordered(st')
    decreases |moves|
  {
    hide Ordered, CanArrive, Arrived, CanRun, Ran;
    if moves != [] {
      var last := |moves| - 1;
      var mid :| InOrder(st, moves[..last], mid) && CanMove(mid, moves[last]) && st' == Moved(mid, moves[last]);
      MovesKeep(st, moves[..last], mid);
      match moves[last]
      case Arrive(step) => ArrivingKeeps(mid, step);
      case RunFront => RunningKeeps(mid);
    }
  }

  lemma StartsOrdered(x: Executor)
    requires Started(x)
    ensures Ordered(Strand(x, []))
  {
    StartedGood(x);
    assert x.chain.postedS == 0 && x.chain.postedB == 0 && x.chain.s.needMore == 0;
    hide Good;
  }

  lemma CountedCanRun(st: Strand, i: nat)
    requires Balanced(st) && i < |st.queue| && (st.queue[i] == RUN_B || st.queue[i] == RUN_S || st.queue[i] == MoreAsked)
    ensures CanStep(st.x, st.queue[i])
  {
    assert st.queue[i] in multiset(st.queue);
  }

  /** In whatever order callbacks come to the strand, each can run when its turn comes, and could at any time
      before: a report is as right as when it was made, and each posted callback was counted when it was. */
  lemma CallbacksCanRun(x: Executor, moves: seq<Move>, st: Strand)
    requires Started(x) && InOrder(Strand(x, []), moves, st)
    ensures forall i :: 0 <= i < |st.queue| ==> CanStep(st.x, st.queue[i])
    ensures var queued, c := multiset(st.queue), st.x.chain;
            queued[RUN_B] == c.postedB && queued[RUN_S] == c.postedS && queued[MoreAsked] == c.s.needMore
  {
    hide Started, InOrder, Good, CanStep;
    StartsOrdered(x);
    MovesKeep(Strand(x, []), moves, st);
    forall i | 0 <= i < |st.queue| ensures CanStep(st.x, st.queue[i]) {
      if SourceOf(st.queue[i]) == FromPools {
        CountedCanRun(st, i);
      }
    }
  }
}
