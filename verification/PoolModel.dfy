// The chain of state machine pools (snapshot -> bundle -> upload) as a state machine over the
// callbacks that run on the pools' common strand. Every function here is total: an `assert` of
// the program that fails sets `violated`, except that the one about the upload pool's room, which
// can fail, sets `full`. A flush or a request to terminate a machine sets `shutdown` (which ends the
// part of a run that the pool theorems speak about), and a bundle that the upload pool refuses is
// moved to `lost`.

module PoolModel {
  import opened Common
  import opened Sums

  // ---------------------------------------------------------------------------------------------
  // Inputs

  /** A path waiting to be snapshotted; `fileSize` is what the pool reads for it (0 if not regular). */
  datatype Path = Path(id: nat, fileSize: nat)

  /** A generated snapshot of a regular, non-empty file; `chunkBytes` adds up its chunks' lengths. */
  datatype Snapshot = Snapshot(id: nat, length: nat, chunkBytes: nat)

  /** A finished bundle; `size` counts encryption headers, data and authentication code. */
  datatype Bundle = Bundle(id: nat, size: nat)

  // ---------------------------------------------------------------------------------------------
  // StateMachinePool: the queue of weighted pending inputs

  datatype Entry<T> = Entry(input: T, weight: nat)

  function TotalWeight<T>(es: seq<Entry<T>>): nat {
    if es == [] then 0 else es[0].weight + TotalWeight(es[1..])
  }

  function Inputs<T>(es: seq<Entry<T>>): seq<T> {
    seq(|es|, i requires 0 <= i < |es| => es[i].input)
  }

  /** `accepted` and `started` remember every input ever pushed and ever popped. */
  datatype InputQueue<T(==)> = InputQueue(
    capacity: nat, pending: seq<Entry<T>>, weight: int, accepted: seq<T>, started: seq<T>)
  {
    function Remaining(): int {
      capacity - weight
    }

    predicate CanAccept(w: nat) {
      weight + w <= capacity
    }

    function Push(input: T, w: nat): InputQueue<T> {
      this.(weight := weight + w, pending := pending + [Entry(input, w)], accepted := accepted + [input])
    }

    function Pop(): InputQueue<T>
      requires pending != []
    {
      this.(pending := pending[1..], weight := weight - pending[0].weight, started := started + [pending[0].input])
    }

    predicate Valid() {
      && weight == TotalWeight(pending)
      && weight <= capacity
      && accepted == started + Inputs(pending)
      && forall i :: 0 <= i < |pending| ==> pending[i].weight >= 1
    }
  }

  // ---------------------------------------------------------------------------------------------
  // PersistentStateMachinePool: idle and active machines and their outstanding output weight

  datatype Ledger = Ledger(
    limit: nat, created: nat, idle: seq<nat>, active: set<nat>, outstanding: map<nat, nat>, activeWeight: int)
  {
    predicate CanActivate() {
      idle != [] || |active| < limit
    }

    /** The machine the next activation takes: the first idle one, or else a new one. */
    function Candidate(): nat {
      if idle != [] then idle[0] else created
    }

    function Outstanding(m: nat): nat {
      if m in outstanding then outstanding[m] else 0
    }

    function Activate(): Ledger {
      if idle != [] then
        this.(idle := idle[1..], active := active + {idle[0]}, activeWeight := activeWeight + Outstanding(idle[0]))
      else
        this.(created := created + 1, active := active + {created}, outstanding := outstanding[created := 0])
    }

    /** Weight of an input whose own output weight is `own`, as seen with the present idle queue. */
    function WeightToAdd(own: nat, most: nat): nat {
      Min(most, own + if idle != [] then Outstanding(idle[0]) else 0)
    }

    function Charge(m: nat, w: nat): Ledger {
      this.(outstanding := outstanding[m := Outstanding(m) + w], activeWeight := activeWeight + w)
    }

    /** The two asserts of StateMachineProducedOutput. */
    predicate CanProduce(m: nat, remaining: nat) {
      Outstanding(m) >= remaining && activeWeight >= Outstanding(m) - remaining
    }

    function Produce(m: nat, remaining: nat): Ledger {
      this.(outstanding := outstanding[m := remaining], activeWeight := activeWeight - (Outstanding(m) - remaining))
    }

    /** The part of DeactivateStateMachine before the machine is given back or terminated. */
    function Release(m: nat): Ledger {
      this.(active := active - {m}, activeWeight := activeWeight - Outstanding(m))
    }

    /** Every machine ever created is either active or waits exactly once in the idle queue. */
    ghost predicate Shape() {
      && limit >= 1
      && (forall m :: m in outstanding.Keys ==> m < created)
      && active <= outstanding.Keys
      && multiset(idle) == multiset(outstanding.Keys - active)
    }

    ghost predicate Valid() {
      && Shape()
      && activeWeight == SumOver(outstanding, active)
    }
  }

  // ---------------------------------------------------------------------------------------------
  // The machines, as their pools see them

  datatype BundleMachine =
    | Resting                                   // waits for a snapshot; all its chunks are popped
    | Bundling(pendingBytes: nat)               // will report "snapshot done" or "bundle ready"
    | AwaitingRetrieval(pendingBytes: nat)      // holds a generated bundle until it is continued
  {
    function Pending(): nat {
      if Resting? then 0 else pendingBytes
    }
  }

  datatype UploadMachine = Free | Uploading(bundle: Bundle)

  // ---------------------------------------------------------------------------------------------
  // The three pools

  datatype SnapshotPool = SnapshotPool(
    queue: InputQueue<Path>, limit: nat, created: nat, paths: map<nat, Path>, weights: map<nat, nat>,
    total: int, numRunning: int, nextMax: nat, inputFinished: bool, needMore: nat)
  {
    function WeightToAdd(p: Path): nat {
      Min(nextMax, Max(1, p.fileSize))
    }

    /** Starts a machine on the next pending path. */
    function Started(): SnapshotPool
      requires queue.pending != []
    {
      var input := queue.pending[0].input;
      var w := WeightToAdd(input);
      this.(queue := queue.Pop(), created := created + 1, paths := paths[created := input],
            weights := weights[created := w], total := total + w, numRunning := numRunning + 1)
    }

    /** Posts the need-more-input callback if more is expected and little is left waiting. */
    function Notified(): SnapshotPool {
      if !inputFinished && queue.weight < queue.capacity / 2 then this.(needMore := needMore + 1) else this
    }

    function Run(): SnapshotPool {
      if numRunning >= limit || queue.pending == [] then this else Started().Notified()
    }

    /** Removes machine `m` and its weight. */
    function Deleted(m: nat): SnapshotPool {
      this.(total := total - WeightOf(m), weights := weights - {m}, paths := paths - {m}, numRunning := numRunning - 1)
    }

    function WeightOf(m: nat): nat {
      if m in weights then weights[m] else 0
    }

    ghost predicate Valid() {
      && limit >= 1 && nextMax >= 1
      && queue.Valid()
      && weights.Keys == paths.Keys
      && (forall m :: m in weights ==> m < created && weights[m] == WeightToAdd(paths[m]))
      && numRunning == |weights|
      && total == SumOver(weights, weights.Keys)
    }
  }

  datatype BundlePool = BundlePool(
    queue: InputQueue<Snapshot>, ledger: Ledger, machines: map<nat, BundleMachine>, continueable: set<nat>,
    nextMax: nat, maxBundle: nat, bundleSeen: bool)
  {
    function WeightToAdd(s: Snapshot): nat {
      ledger.WeightToAdd(Min(nextMax, s.length), maxBundle)
    }

    /** Activates a machine, creating it first if none is idle. */
    function Activated(): BundlePool {
      var m := ledger.Candidate();
      this.(ledger := ledger.Activate(), machines := if m in machines then machines else machines[m := Resting])
    }

    /** Continues machine `m` after its bundle was retrieved. */
    function Continued(m: nat): BundlePool {
      this.(continueable := continueable - {m}, machines := machines[m := Bundling(PendingOf(m))])
    }

    /** Feeds the next pending input to machine `m`. */
    function Fed(m: nat): BundlePool
      requires queue.pending != []
    {
      var input := queue.pending[0].input;
      this.(queue := queue.Pop(),
            ledger := ledger.Charge(m, WeightToAdd(input)),
            machines := machines[m := Bundling(PendingOf(m) + input.chunkBytes)])
    }

    /** Gives machine `m` back to the idle queue. */
    function Idled(m: nat): BundlePool {
      this.(ledger := ledger.Release(m).(idle := ledger.idle + [m]))
    }

    function PendingOf(m: nat): nat {
      if m in machines then machines[m].Pending() else 0
    }

    /** What the pool keeps, whichever of its active machines are at work. */
    ghost predicate Sound() {
      && 1 <= maxBundle <= nextMax
      && queue.Valid()
      && (forall i :: 0 <= i < |queue.pending| ==> queue.pending[i].input.chunkBytes <= queue.pending[i].input.length)
      && ledger.Valid()
      && machines.Keys == ledger.outstanding.Keys
      && (forall m :: m in continueable <==> m in machines && machines[m].AwaitingRetrieval?)
      && Covered()
    }

    /** A machine owes at least what its pending chunks can still fill one bundle with. */
    ghost predicate Covered() {
      forall m :: m in machines ==> ledger.Outstanding(m) >= Min(maxBundle, machines[m].Pending())
    }

    /** Between callbacks exactly the active machines are at work. */
    ghost predicate Valid() {
      && Sound()
      && (forall m :: m in ledger.active <==> m in machines && machines[m].Bundling?)
    }

    /** Inside a callback machine `m` may be active without being at work. */
    ghost predicate ValidBut(m: nat) {
      && Sound()
      && m in ledger.active && m in machines && !machines[m].Bundling?
      && (forall k :: k in ledger.active - {m} <==> k in machines && machines[k].Bundling?)
    }
  }

  datatype UploadPool = UploadPool(queue: InputQueue<Bundle>, ledger: Ledger, machines: map<nat, UploadMachine>)
  {
    function Activated(): UploadPool {
      var m := ledger.Candidate();
      this.(ledger := ledger.Activate(), machines := if m in machines then machines else machines[m := Free])
    }

    function Fed(m: nat): UploadPool
      requires queue.pending != []
    {
      this.(queue := queue.Pop(),
            ledger := ledger.Charge(m, ledger.WeightToAdd(1, SIZE_T_MAX)),
            machines := machines[m := Uploading(queue.pending[0].input)])
    }

    function Idled(m: nat): UploadPool {
      this.(ledger := ledger.Release(m).(idle := ledger.idle + [m]))
    }

    predicate IsFree(m: nat) {
      m in machines && machines[m].Free?
    }

    ghost predicate Sound() {
      && queue.Valid() && ledger.Valid()
      && machines.Keys == ledger.outstanding.Keys
    }

    ghost predicate Valid() {
      && Sound()
      && (forall m :: m in ledger.active <==> m in machines && machines[m].Uploading?)
      && (forall m :: m in ledger.active ==> ledger.outstanding[m] >= 1)
    }

    ghost predicate ValidBut(m: nat) {
      && Sound()
      && m in ledger.active && IsFree(m)
      && (forall k :: k in ledger.active - {m} <==> k in machines && machines[k].Uploading?)
      && (forall k :: k in ledger.active - {m} ==> ledger.outstanding[k] >= 1)
    }
  }

  /** `postedS` and `postedB` count the TryRunNextStateMachine callbacks waiting on the strand, and
      `s.needMore` the need-more-input ones. */
  datatype Chain = Chain(
    s: SnapshotPool, b: BundlePool, u: UploadPool, postedS: nat, postedB: nat,
    lost: seq<Bundle>, shutdown: bool, violated: bool, full: bool)

  // ---------------------------------------------------------------------------------------------
  // IsCompletelyIdleAndNotExpectingMoreInput, which ends in an un-negated IsExpectingMoreInput

  predicate SnapshotsIdle(c: Chain) {
    c.s.queue.pending == [] && c.s.numRunning == 0 && !c.s.inputFinished
  }

  predicate BundlesIdle(c: Chain) {
    c.b.queue.pending == [] && c.b.ledger.active == {} && SnapshotsIdle(c)
  }

  predicate UploadsIdle(c: Chain) {
    c.u.queue.pending == [] && c.u.ledger.active == {} && BundlesIdle(c)
  }

  // ---------------------------------------------------------------------------------------------
  // Upload pool

  /** Termination is requested instead of giving the machine back when the whole chain is idle. */
  function DeactivateU(c: Chain, m: nat): Chain {
    if m !in c.u.ledger.active then c
    else
      var c1 := c.(u := c.u.Idled(m), violated := c.violated || c.u.ledger.activeWeight < c.u.ledger.Outstanding(m));
      if UploadsIdle(c1) then c1.(shutdown := true) else c1
  }

  function RunU(c: Chain): Chain {
    if !c.u.ledger.CanActivate() then c
    else
      var m := c.u.ledger.Candidate();
      var u1 := c.u.Activated();
      if u1.queue.pending != [] then
        c.(u := u1.Fed(m), violated := c.violated || !u1.IsFree(m))
      else
        DeactivateU(c.(u := u1), m)
  }

  /** The upload pool has no next pool, so nothing blocks it; it may kick the bundle pool. */
  function TryRunU(c: Chain): Chain {
    var c1 := RunU(c);
    if c1.b.ledger.activeWeight < c1.u.queue.Remaining() then c1.(postedB := c1.postedB + 1) else c1
  }

  function AddU(c: Chain, bundle: Bundle, w: nat): Chain {
    if !c.u.queue.CanAccept(w) then c.(lost := c.lost + [bundle])
    else TryRunU(c.(u := c.u.(queue := c.u.queue.Push(bundle, w))))
  }

  // ---------------------------------------------------------------------------------------------
  // Bundle pool

  predicate BlockedB(c: Chain) {
    && c.b.queue.pending != []
    && c.u.queue.Remaining() < c.b.ledger.activeWeight + c.b.WeightToAdd(c.b.queue.pending[0].input)
  }

  function DeactivateB(c: Chain, m: nat): Chain {
    if m !in c.b.ledger.active then c
    else
      var c1 := c.(b := c.b.Idled(m), violated := c.violated || c.b.ledger.activeWeight < c.b.ledger.Outstanding(m));
      if BundlesIdle(c1) then c1.(shutdown := true) else c1
  }

  function RunB(c: Chain): Chain {
    if !c.b.ledger.CanActivate() then c
    else
      var m := c.b.ledger.Candidate();
      var b1 := c.b.Activated();
      if m in b1.continueable then
        c.(b := b1.Continued(m), violated := c.violated || !(m in b1.machines && b1.machines[m].AwaitingRetrieval?))
      else if b1.queue.pending != [] then
        c.(b := b1.Fed(m), violated := c.violated || !(m in b1.machines && b1.machines[m].Resting?))
      else
        DeactivateB(c.(b := b1), m)
  }

  function TryRunB(c: Chain): Chain {
    if BlockedB(c) then c
    else
      var c1 := RunB(c);
      if c1.s.total < c1.b.queue.Remaining() then c1.(postedS := c1.postedS + 1) else c1
  }

  function AddB(c: Chain, snapshot: Snapshot, w: nat): Chain {
    if !c.b.queue.CanAccept(w) then c
    else TryRunB(c.(b := c.b.(queue := c.b.queue.Push(snapshot, w))))
  }

  // ---------------------------------------------------------------------------------------------
  // Snapshot pool

  predicate BlockedS(c: Chain) {
    && c.s.queue.pending != []
    && c.b.queue.Remaining() < c.s.total + c.s.WeightToAdd(c.s.queue.pending[0].input)
  }

  function RunS(c: Chain): Chain {
    c.(s := c.s.Run())
  }

  function TryRunS(c: Chain): Chain {
    if BlockedS(c) then c else RunS(c)
  }

  function AddS(c: Chain, path: Path, w: nat): Chain {
    if !c.s.queue.CanAccept(w) then c
    else TryRunS(c.(s := c.s.(queue := c.s.queue.Push(path, w))))
  }

  // ---------------------------------------------------------------------------------------------
  // Callbacks from machines

  function DeleteS(c: Chain, m: nat): Chain {
    c.(s := c.s.Deleted(m), postedS := c.postedS + 1, violated := c.violated || c.s.total < c.s.WeightOf(m))
  }

  /** HandleStateMachineFinished; the result of AddNewInput is ignored, as in the program. */
  function FinishS(c: Chain, m: nat, output: Option<Snapshot>): Chain {
    match output
    case None => DeleteS(c, m)
    case Some(snapshot) =>
      var c1 := AddB(c.(violated := c.violated || !c.b.queue.CanAccept(1)), snapshot,
                     Min(c.s.nextMax, snapshot.length));
      DeleteS(c1, m)
  }

  /** `timedOut`: too long since the last bundle was generated. */
  function HandleSnapshotDone(c: Chain, m: nat, timedOut: bool): Chain {
    var c1 := c.(b := c.b.(continueable := c.b.continueable - {m},
                           machines := c.b.machines[m := Resting]));
    if c.b.bundleSeen && timedOut && c.u.queue.pending == [] && c.u.ledger.active == {} then
      c1.(shutdown := true)
    else
      TryRunB(DeactivateB(c1, m))
  }

  /** The bookkeeping half of HandleBundleReady, up to handing the bundle over. */
  function ProducedB(c: Chain, m: nat, pendingBytes: nat): Chain {
    var remaining := Min(c.b.maxBundle, pendingBytes);
    c.(b := c.b.(ledger := c.b.ledger.Produce(m, remaining),
                 machines := c.b.machines[m := AwaitingRetrieval(pendingBytes)], bundleSeen := true),
       violated := c.violated || !c.b.ledger.CanProduce(m, remaining))
  }

  /** The machine may be continued from now on. */
  function MarkContinueable(c: Chain, m: nat): Chain {
    c.(b := c.b.(continueable := c.b.continueable + {m}))
  }

  /** The upload pool is asserted to have room for something, and the result of AddNewInput is ignored. */
  function HandleBundleReady(c: Chain, m: nat, pendingBytes: nat, bundle: Bundle): Chain {
    var c1 := ProducedB(c, m, pendingBytes).(full := c.full || !c.u.queue.CanAccept(1));
    var c2 := AddU(c1, bundle, Min(c.b.nextMax, bundle.size));
    TryRunB(DeactivateB(MarkContinueable(c2, m), m))
  }

  function HandleBundleUploaded(c: Chain, m: nat): Chain {
    var c1 := c.(u := c.u.(ledger := c.u.ledger.Produce(m, 0), machines := c.u.machines[m := Free]),
                 violated := c.violated || !c.u.ledger.CanProduce(m, 0));
    TryRunU(DeactivateU(c1, m))
  }

  // ---------------------------------------------------------------------------------------------
  // Runs

  datatype Event =
    | PathAdded(path: Path, weight: nat)
    | PostedRunS
    | PostedRunB
    | SnapshotFinished(machine: nat, output: Option<Snapshot>)
    | SnapshotDone(machine: nat, timedOut: bool)
    | BundleReady(machine: nat, pendingBytes: nat, bundle: Bundle)
    | BundleUploaded(machine: nat)
    | MoreInputAsked
    | InputFinished

  /** What may happen next. A snapshot is no longer than the file its weight was reserved for, its
      chunks add up to no more than its length, and a machine's pending bytes only go down. */
  predicate Enabled(c: Chain, e: Event) {
    match e
    case PathAdded(_, weight) => weight >= 1
    case PostedRunS => c.postedS > 0
    case PostedRunB => c.postedB > 0
    case SnapshotFinished(m, output) =>
      && m in c.s.paths
      && (output.Some? ==> && 1 <= output.value.length <= c.s.paths[m].fileSize
                           && output.value.chunkBytes <= output.value.length)
    case SnapshotDone(m, _) => m in c.b.machines && c.b.machines[m].Bundling?
    case BundleReady(m, pendingBytes, bundle) =>
      && m in c.b.machines && c.b.machines[m].Bundling?
      && pendingBytes <= c.b.machines[m].pendingBytes
      && bundle.size >= 1
    case BundleUploaded(m) => m in c.u.machines && c.u.machines[m].Uploading?
    case MoreInputAsked => c.s.needMore > 0
    case InputFinished => true
  }

  function Next(c: Chain, e: Event): Chain {
    match e
    case PathAdded(path, weight) => AddS(c, path, weight)
    case PostedRunS => if c.postedS == 0 then c else TryRunS(c.(postedS := c.postedS - 1))
    case PostedRunB => if c.postedB == 0 then c else TryRunB(c.(postedB := c.postedB - 1))
    case SnapshotFinished(m, output) => FinishS(c, m, output)
    case SnapshotDone(m, timedOut) => HandleSnapshotDone(c, m, timedOut)
    case BundleReady(m, pendingBytes, bundle) => HandleBundleReady(c, m, pendingBytes, bundle)
    case BundleUploaded(m) => HandleBundleUploaded(c, m)
    case MoreInputAsked => if c.s.needMore == 0 then c else c.(s := c.s.(needMore := c.s.needMore - 1))
    case InputFinished => c.(s := c.s.(inputFinished := true))
  }

  /** The state after the events `es`, each of which was possible when it happened, with no flush
      and no request to terminate a machine on the way. */
  ghost predicate Runs(c: Chain, es: seq<Event>, c': Chain)
    decreases |es|
  {
    if es == [] then c' == c
    else
      var last := |es| - 1;
      exists mid :: Runs(c, es[..last], mid) && Enabled(mid, es[last]) && c' == Next(mid, es[last]) && !c'.shutdown
  }

  /** The executor's chain before the first path is added. */
  function Initial(capacityS: nat, limitS: nat, capacityB: nat, limitB: nat, maxBundle: nat,
                   capacityU: nat, limitU: nat): Chain {
    Chain(SnapshotPool(EmptyQueue(capacityS), limitS, 0, map[], map[], 0, 0, capacityB, false, 0),
          BundlePool(EmptyQueue(capacityB), EmptyLedger(limitB), map[], {}, capacityU, maxBundle, false),
          UploadPool(EmptyQueue(capacityU), EmptyLedger(limitU), map[]),
          0, 0, [], false, false, false)
  }

  function EmptyQueue<T(==)>(capacity: nat): InputQueue<T> {
    InputQueue(capacity, [], 0, [], [])
  }

  function EmptyLedger(limit: nat): Ledger {
    Ledger(limit, 0, [], {}, map[], 0)
  }

  // ---------------------------------------------------------------------------------------------
  // The invariant

  ghost predicate Wired(c: Chain) {
    c.s.nextMax == c.b.queue.capacity && c.b.nextMax == c.u.queue.capacity
  }

  /** The bundle pool has room for everything the running snapshot machines may still produce. */
  ghost predicate Reserved(c: Chain) {
    c.s.total <= c.b.queue.Remaining()
  }

  ghost predicate AwakeS(c: Chain) {
    c.s.queue.pending != [] ==> c.s.numRunning > 0 || c.postedS > 0 || BlockedS(c)
  }

  ghost predicate AwakeB(c: Chain) {
    c.b.queue.pending != [] ==> c.b.ledger.active != {} || c.postedB > 0 || BlockedB(c)
  }

  ghost predicate AwakeU(c: Chain) {
    c.u.queue.pending != [] ==> c.u.ledger.active != {}
  }

  ghost predicate Inv(c: Chain) {
    && c.s.Valid() && c.b.Valid() && c.u.Valid()
    && Wired(c) && Reserved(c)
    && AwakeS(c) && AwakeB(c) && AwakeU(c)
    && !c.violated
  }
}
