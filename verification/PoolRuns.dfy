// Runs of the executor, in the order of the strand, that end badly: one that terminates a machine while input
// is still expected, and one that loses a bundle.

module PoolRuns {
  import opened Common
  import opened PoolModel
  import opened PoolTheorems
  import opened PoolTermination
  import opened PoolLoss
  import opened ScanModel
  import opened StrandOrder
  import opened StrandRuns

  // ---------------------------------------------------------------------------------------------
  // Paths that are started at once

  /** A path that arrives while nothing waits and a machine may be started is started at once. */
  lemma PathStarts(c: Chain, p: Path, w: nat)
    requires c.s.queue.pending == [] && c.s.queue.CanAccept(w)
    requires c.s.numRunning < c.s.limit && c.b.queue.Remaining() >= c.s.total + c.s.WeightToAdd(p)
    ensures var s := c.s.(queue := c.s.queue.Push(p, w));
            s.queue.pending != [] && AddS(c, p, w) == c.(s := s.Started().Notified())
  {
    hide SnapshotPool.Started, SnapshotPool.Notified;
  }

  /** The pool when path `p` was started and the pool has asked for more. */
  ghost predicate Starts(s: SnapshotPool, p: Path, s': SnapshotPool) {
    && s'.queue.pending == [] && s'.queue.weight == 0 && s'.queue.capacity == s.queue.capacity
    && s'.created == s.created + 1
    && s'.paths == s.paths[s.created := p] && s'.weights == s.weights[s.created := s.WeightToAdd(p)]
    && s'.total == s.total + s.WeightToAdd(p) && s'.numRunning == s.numRunning + 1
    && s'.limit == s.limit && s'.nextMax == s.nextMax && s'.inputFinished == s.inputFinished
  }

  lemma StartedPath(s: SnapshotPool, p: Path, w: nat)
    requires s.queue.pending == [] && s.queue.weight == 0 && !s.inputFinished && s.queue.capacity >= 2
    ensures var pushed := s.(queue := s.queue.Push(p, w));
            && pushed.queue.pending != []
            && Starts(s, p, pushed.Started().Notified()) && pushed.Started().Notified().needMore == s.needMore + 1
  {
    assert s.queue.Push(p, w).pending == [Entry(p, w)];
  }

  /** The executor between two callbacks from outside, scanning, with no path waiting. */
  ghost predicate Scanning(x: Executor) {
    && x.scan == InProgress && x.buffered == [] && !x.chain.shutdown
    && x.chain.postedB == 0 && x.chain.postedS == 0 && x.chain.s.needMore == 0
    && x.chain.s.queue.pending == [] && x.chain.s.queue.weight == 0 && x.chain.s.queue.capacity >= 2
    && !x.chain.s.inputFinished
  }

  function Found(p: Path): Step {
    ScanDelivered([(p, p.fileSize)])
  }

  lemma OnePath(c: Chain, p: Path, filesize: nat)
    ensures var w := WeightFromFilesize(c.s.queue.capacity, filesize);
            && Weighted(c.s.queue.capacity, [(p, filesize)]) == [Entry(p, w)]
            && Pass(c, [Entry(p, w)]) == Offer(Passed(c, [], []), Entry(p, w))
  {
    hide AddS;
    var w := WeightFromFilesize(c.s.queue.capacity, filesize);
    assert [Entry(p, w)][..0] == [];
  }

  /** One path is found, and started at once. */
  lemma FoundStarts(x: Executor, p: Path)
    requires Scanning(x) && x.chain.s.numRunning < x.chain.s.limit
    requires x.chain.b.queue.Remaining() >= x.chain.s.total + x.chain.s.WeightToAdd(p)
    ensures var x1 := After(x, Found(p)); var x' := Settled(x1);
            && CanStep(x, Found(p)) && WillSettle(x1) && Scanning(x')
            && x'.chain == x.chain.(s := x'.chain.s) && Starts(x.chain.s, p, x'.chain.s)
  {
    hide AddS, SnapshotPool.Started, SnapshotPool.Notified, Weighted, Pass;
    var c, w := x.chain, WeightFromFilesize(x.chain.s.queue.capacity, p.fileSize);
    OnePath(c, p, p.fileSize);
    PathStarts(c, p, w);
    StartedPath(c.s, p, w);
    assert After(x, Found(p)).chain == AddS(c, p, w);
  }

  // ---------------------------------------------------------------------------------------------
  // Snapshots that are fed at once

  /** A snapshot that arrives while nothing waits, and fits the upload pool, is fed at once. */
  lemma FedAtOnceB(c: Chain, snapshot: Snapshot, w: nat)
    requires c.b.queue.CanAccept(w) && c.b.queue.pending == [] && c.b.ledger.CanActivate()
    requires c.b.ledger.Candidate() !in c.b.continueable
    requires c.u.queue.Remaining() >= c.b.ledger.activeWeight + c.b.WeightToAdd(snapshot)
    ensures var c', m := AddB(c, snapshot, w), c.b.ledger.Candidate();
            var b1 := c.b.(queue := c.b.queue.Push(snapshot, w)).Activated();
            && b1.queue.pending != []
            && c' == c.(b := b1.Fed(m), postedS := c'.postedS, violated := c'.violated)
  {
    hide BundlePool.Fed;
  }

  /** A bundle pool in which nothing waits and no machine is idle. */
  ghost predicate AllAtWork(b: BundlePool) {
    && b.queue.pending == [] && b.queue.weight == 0 && b.ledger.idle == [] && |b.ledger.active| < b.ledger.limit
    && b.ledger.created !in b.machines && b.continueable == {}
  }

  /** What a new machine has to be charged. */
  function Charged(b: BundlePool, snapshot: Snapshot): nat {
    Min(b.maxBundle, Min(b.nextMax, snapshot.length))
  }

  /** A new machine is at work on one snapshot's chunks. */
  ghost predicate OneMore(b: BundlePool, snapshot: Snapshot, b': BundlePool) {
    var k, w := b.ledger.created, Charged(b, snapshot);
    && b'.queue.pending == [] && b'.queue.weight == 0 && b'.queue.capacity == b.queue.capacity
    && b'.ledger == Ledger(b.ledger.limit, k + 1, [], b.ledger.active + {k}, b.ledger.outstanding[k := w],
                           b.ledger.activeWeight + w)
    && b'.machines == b.machines[k := Bundling(snapshot.chunkBytes)] && b'.continueable == {}
    && b'.nextMax == b.nextMax && b'.maxBundle == b.maxBundle && b'.bundleSeen == b.bundleSeen
  }

  lemma FedToNew(b: BundlePool, snapshot: Snapshot, w: nat)
    requires AllAtWork(b)
    ensures var b1 := b.(queue := b.queue.Push(snapshot, w)).Activated();
            b1.queue.pending != [] && OneMore(b, snapshot, b1.Fed(b.ledger.created))
  {
    var k := b.ledger.created;
    assert b.queue.Push(snapshot, w).pending == [Entry(snapshot, w)];
    assert b.ledger.outstanding[k := 0][k := Charged(b, snapshot)] == b.ledger.outstanding[k := Charged(b, snapshot)];
  }

  /** A file's snapshot is finished and goes to a new bundle machine at once. */
  lemma SnapshotFed(x: Executor, m: nat, snapshot: Snapshot)
    requires Scanning(x) && AllAtWork(x.chain.b) && m in x.chain.s.paths
    requires 1 <= snapshot.length <= x.chain.s.paths[m].fileSize && snapshot.chunkBytes <= snapshot.length
    requires 1 <= x.chain.s.nextMax <= x.chain.b.queue.capacity
    requires x.chain.u.queue.Remaining() >= x.chain.b.ledger.activeWeight + Charged(x.chain.b, snapshot)
    ensures var e := SnapshotFinished(m, Some(snapshot)); var x1 := After(x, PoolStep(e)); var x' := Settled(x1);
            && CanStep(x, PoolStep(e)) && WillSettle(x1) && Scanning(x')
            && OneMore(x.chain.b, snapshot, x'.chain.b) && x'.chain.s == x.chain.s.Deleted(m) && x'.chain.u == x.chain.u
            && x'.chain.lost == x.chain.lost && x'.chain.full == x.chain.full
  {
    hide AddB, BundlePool.Fed, BundlePool.Activated, Ledger.CanActivate;
    var c := x.chain;
    var c0, w := c.(violated := c.violated || !c.b.queue.CanAccept(1)), Min(c.s.nextMax, snapshot.length);
    StillNew(c.b, snapshot);
    FedAtOnceB(c0, snapshot, w);
    FedToNew(c.b, snapshot, w);
    assert AddB(c0, snapshot, w).s == c.s && AddB(c0, snapshot, w).postedB == c.postedB;
  }

  lemma StillNew(b: BundlePool, snapshot: Snapshot)
    requires AllAtWork(b)
    ensures b.ledger.CanActivate() && b.ledger.Candidate() == b.ledger.created
            && b.WeightToAdd(snapshot) == Charged(b, snapshot)
  {
  }

  // ---------------------------------------------------------------------------------------------
  // Termination while input is expected

  lemma StartedScans(x: Executor)
    requires Started(x)
    ensures Scanning(x) && AllAtWork(x.chain.b) && Balanced(Strand(x, []))
    ensures x.chain.s.paths == map[] && x.chain.s.created == 0 && x.chain.s.numRunning == 0 < x.chain.s.limit
    ensures x.chain.s.total == 0 && x.chain.b.ledger.activeWeight == 0 && x.chain.s.nextMax == x.chain.b.queue.capacity
    ensures x.chain.u.queue.Remaining() == x.chain.u.queue.capacity == x.chain.b.nextMax >= x.chain.b.maxBundle
    ensures x.chain.b.queue.Remaining() == x.chain.b.queue.capacity >= 1 && x.chain.lost == []
  {
  }

  lemma FileFound(x: Executor, path: Path, snapshot: Snapshot)
    requires Started(x) && snapshot.length >= 1
    ensures CanStep(x, Found(path)) && WillSettle(After(x, Found(path)))
    ensures var x1 := Settled(After(x, Found(path)));
            && Scanning(x1) && AllAtWork(x1.chain.b) && x1.chain.s.paths == map[0 := path] && x1.chain.s.numRunning == 1
            && 1 <= x1.chain.s.nextMax <= x1.chain.b.queue.capacity
            && x1.chain.u.queue.Remaining() >= x1.chain.b.ledger.activeWeight + Charged(x1.chain.b, snapshot)
            && x1.chain.b.ledger.active == {} && x1.chain.b.ledger.created == 0
  {
    StartedScans(x);
    assert x.chain.b.ledger.active == {} && x.chain.b.ledger.created == 0;
    hide Started, After, Settled;
    FoundStarts(x, path);
  }

  lemma LastGivenBack(x: Executor, x': Executor, snapshot: Snapshot, timedOut: bool)
    requires Scanning(x) && x.chain.b.ledger.active == {} && x.chain.b.ledger.created == 0 && x.chain.s.numRunning == 1
    requires OneMore(x.chain.b, snapshot, x'.chain.b) && x'.chain.s == x.chain.s.Deleted(0) && Scanning(x')
             && Inv(x'.chain)
    ensures CanArrive(Strand(x', []), PoolStep(SnapshotDone(0, timedOut))) && !x'.chain.s.inputFinished
    ensures After(x', PoolStep(SnapshotDone(0, timedOut))).chain.shutdown
  {
    hide Inv, Next;
    assert {} + {0} == {0};
    TerminationIsReversed(x'.chain, SnapshotDone(0, timedOut));
  }

  /** Of every executor that is started: when the first file is done before a second one is found, its bundle
      machine is told to terminate, although more input is expected. */
  lemma TerminatesEarly(x: Executor, path: Path, snapshot: Snapshot, timedOut: bool)
    requires Started(x) && 1 <= snapshot.length <= path.fileSize && snapshot.chunkBytes <= snapshot.length
    ensures exists x' :: && Leads(Strand(x, []), [Found(path), PoolStep(SnapshotFinished(0, Some(snapshot)))],
                                  Strand(x', []))
                         && CanArrive(Strand(x', []), PoolStep(SnapshotDone(0, timedOut))) && !x'.chain.s.inputFinished
                         && After(x', PoolStep(SnapshotDone(0, timedOut))).chain.shutdown
  {
    hide Leads, After, Inv, CanStep, Settled, Started, OneMore, AllAtWork, Balanced, WillSettle, Scanning,
      CanArrive, Charged;
    var finished := PoolStep(SnapshotFinished(0, Some(snapshot)));
    StartedScans(x);
    FileFound(x, path, snapshot);
    Stays(Strand(x, []));
    Handled(Strand(x, []), [], x, Found(path));
    var x1 := Settled(After(x, Found(path)));
    SnapshotFed(x1, 0, snapshot);
    Handled(Strand(x, []), [] + [Found(path)], x1, finished);
    var x' := Settled(After(x1, finished));
    assert [] + [Found(path)] + [finished] == [Found(path), finished];
    LeadsGood(x, [Found(path), finished], Strand(x', []));
    LastGivenBack(x1, x', snapshot, timedOut);
  }

  // ---------------------------------------------------------------------------------------------
  // A run that loses a bundle, with the capacities and limits the program has by default

  const CAPACITY_S := 52428800     // 50 MiB
  const CAPACITY_B := 41943040     // 40 MiB
  const CAPACITY_U := 104857600    // 100 MiB
  const LIMIT_S := 20
  const LIMIT_B := 3
  const LIMIT_U := 2

  /** The program with its default capacities and limits, started. */
  function Start(maxBundle: nat): Executor {
    Executor(Initial(CAPACITY_S, LIMIT_S, CAPACITY_B, LIMIT_B, maxBundle, CAPACITY_U, LIMIT_U), InProgress, [], [])
  }

  /** A file of ten bundles' bytes, and its snapshot. */
  function File(maxBundle: nat, k: nat): Path {
    Path(k, 10 * maxBundle)
  }

  function FileFinished(maxBundle: nat, k: nat): Step {
    PoolStep(SnapshotFinished(k, Some(Snapshot(k, 10 * maxBundle, 10 * maxBundle))))
  }

  /** The bundle machines once `n` of them are at work: each owes a whole bundle. */
  function Bundlers(maxBundle: nat, n: nat): Ledger {
    if n == 0 then EmptyLedger(LIMIT_B)
    else if n == 1 then Ledger(LIMIT_B, 1, [], {0}, map[0 := maxBundle], maxBundle)
    else if n == 2 then Ledger(LIMIT_B, 2, [], {0, 1}, map[0 := maxBundle, 1 := maxBundle], 2 * maxBundle)
    else Ledger(LIMIT_B, 3, [], {0, 1, 2}, map[0 := maxBundle, 1 := maxBundle, 2 := maxBundle], 3 * maxBundle)
  }

  /** The upload machines once `n` of them are at work. */
  function Uploaders(n: nat): Ledger {
    if n == 0 then EmptyLedger(LIMIT_U)
    else if n == 1 then Ledger(LIMIT_U, 1, [], {0}, map[0 := 1], 1)
    else Ledger(LIMIT_U, 2, [], {0, 1}, map[0 := 1, 1 := 1], 2)
  }

  /** `n` bundles are being uploaded and `waiting` bytes of bundles wait. */
  ghost predicate Uploads(u: UploadPool, n: nat, waiting: nat) {
    && n <= 2 && u.ledger == Uploaders(n) && u.queue.capacity == CAPACITY_U && u.queue.weight == waiting
    && (n < 2 ==> u.queue.pending == [] && waiting == 0)
  }

  lemma UploaderStarts(l: Ledger, n: nat)
    requires n < 2 && l == Uploaders(n)
    ensures l.CanActivate() && l.Candidate() == n
    ensures l.Activate().Charge(n, l.Activate().WeightToAdd(1, SIZE_T_MAX)) == Uploaders(n + 1)
  {
    if n == 1 {
      assert {0} + {1} == {0, 1};
    }
  }

  /** A bundle that arrives while nothing waits and a machine can be activated is fed at once. */
  lemma FedAtOnceU(c: Chain, bundle: Bundle, w: nat)
    requires c.u.queue.CanAccept(w) && c.u.queue.pending == [] && c.u.ledger.CanActivate()
    ensures var c', u1 := AddU(c, bundle, w), c.u.(queue := c.u.queue.Push(bundle, w)).Activated();
            u1.queue.pending != [] && c'.u == u1.Fed(c.u.ledger.Candidate()) && c'.lost == c.lost
  {
    hide UploadPool.Fed, UploadPool.IsFree;
  }

  lemma FedUploads(u: UploadPool, n: nat, bundle: Bundle, w: nat)
    requires Uploads(u, n, 0) && n < 2
    ensures var u1 := u.(queue := u.queue.Push(bundle, w)).Activated();
            u1.queue.pending != [] && Uploads(u1.Fed(n), n + 1, 0)
  {
    hide Uploaders, Ledger.Activate, Ledger.Charge, Ledger.WeightToAdd, Ledger.Candidate, Ledger.CanActivate;
    UploaderStarts(u.ledger, n);
    var pushed := u.(queue := u.queue.Push(bundle, w));
    assert pushed.queue.pending == [Entry(bundle, w)] && pushed.queue.weight == w && pushed.queue.capacity == CAPACITY_U;
    assert pushed.Activated().queue == pushed.queue && pushed.Activated().ledger == u.ledger.Activate();
    hide UploadPool.Activated, InputQueue.Push;
  }

  lemma UploadStarts(c: Chain, n: nat, bundle: Bundle, w: nat)
    requires Uploads(c.u, n, 0) && n < 2 && w <= CAPACITY_U
    ensures Uploads(AddU(c, bundle, w).u, n + 1, 0) && AddU(c, bundle, w).lost == c.lost
  {
    hide AddU, UploadPool.Fed, UploadPool.Activated;
    UploaderStarts(c.u.ledger, n);
    FedAtOnceU(c, bundle, w);
    FedUploads(c.u, n, bundle, w);
  }

  lemma UploadWaits(c: Chain, waiting: nat, bundle: Bundle, w: nat)
    requires Uploads(c.u, 2, waiting)
    ensures var c' := AddU(c, bundle, w);
            && Uploads(c'.u, 2, if waiting + w <= CAPACITY_U then waiting + w else waiting)
            && c'.lost == if waiting + w <= CAPACITY_U then c.lost else c.lost + [bundle]
  {
    assert |{0, 1}| == 2;
    var pushed := c.(u := c.u.(queue := c.u.queue.Push(bundle, w)));
    assert RunU(pushed) == pushed;
    hide RunU;
  }

  /** `n` files have been read, and their snapshots are with a bundle machine each. */
  ghost predicate Read(x: Executor, maxBundle: nat, n: nat) {
    && Scanning(x) && x.chain.s.created == n && x.chain.s.paths == map[] && x.chain.s.weights == map[]
    && x.chain.s.total == 0 && x.chain.s.numRunning == 0 && x.chain.s.limit == LIMIT_S && x.chain.s.nextMax == CAPACITY_B
    && Owing(x.chain.b, maxBundle, n) && Uploads(x.chain.u, 0, 0) && x.chain.lost == [] && !x.chain.full
  }

  ghost predicate Owing(b: BundlePool, maxBundle: nat, n: nat) {
    && b.queue.pending == [] && b.queue.weight == 0 && b.queue.capacity == CAPACITY_B
    && b.ledger == Bundlers(maxBundle, n) && b.continueable == {} && b.nextMax == CAPACITY_U && b.maxBundle == maxBundle
    && b.machines.Keys == b.ledger.outstanding.Keys
    && (n > 0 ==> 0 in b.machines && b.machines[0] == Bundling(10 * maxBundle))
  }

  lemma IsAllAtWork(b: BundlePool, maxBundle: nat, n: nat)
    requires Owing(b, maxBundle, n) && n < 3
    ensures AllAtWork(b)
  {
    assert |{0, 1}| == 2 && |{0}| == 1;
  }

  lemma OneMoreBundler(b: BundlePool, maxBundle: nat, n: nat, b': BundlePool)
    requires Owing(b, maxBundle, n) && n < 3 && CAPACITY_B <= 10 * maxBundle && maxBundle <= CAPACITY_U
    requires OneMore(b, Snapshot(n, 10 * maxBundle, 10 * maxBundle), b')
    ensures Owing(b', maxBundle, n + 1)
  {
    assert {0} + {1} == {0, 1} && {0, 1} + {2} == {0, 1, 2} && {} + {0} == {0};
  }

  lemma ReadOne(s: SnapshotPool, p: Path, s1: SnapshotPool)
    requires Starts(s, p, s1) && s.paths == map[] && s.weights == map[] && s.total == 0
    ensures var s' := s1.Deleted(s.created);
            && s'.paths == map[] && s'.weights == map[] && s'.total == 0 && s'.numRunning == s.numRunning
            && s'.created == s.created + 1 && s'.limit == s.limit && s'.nextMax == s.nextMax
  {
  }

  /** A file is found and read. */
  lemma ReadsFile(x: Executor, maxBundle: nat, n: nat)
    requires Read(x, maxBundle, n) && n < 3 && CAPACITY_B <= 10 * maxBundle && 4 * maxBundle <= CAPACITY_U
    ensures var found, finished := Found(File(maxBundle, n)), FileFinished(maxBundle, n);
            && CanStep(x, found) && WillSettle(After(x, found))
            && var x1 := Settled(After(x, found));
               && CanStep(x1, finished) && WillSettle(After(x1, finished))
               && Read(Settled(After(x1, finished)), maxBundle, n + 1)
  {
    hide After, Settled, WillSettle, CanStep, Bundlers, Owing, Uploads, AllAtWork, OneMore, Starts;
    ReadGives(x, maxBundle, n);
    FoundStarts(x, File(maxBundle, n));
    var x1 := Settled(After(x, Found(File(maxBundle, n))));
    StartGives(x.chain.s, File(maxBundle, n), x1.chain.s);
    IsAllAtWork(x.chain.b, maxBundle, n);
    var snapshot := Snapshot(n, 10 * maxBundle, 10 * maxBundle);
    SnapshotFed(x1, n, snapshot);
    ReadOne(x.chain.s, File(maxBundle, n), x1.chain.s);
    OneMoreBundler(x.chain.b, maxBundle, n, Settled(After(x1, FileFinished(maxBundle, n))).chain.b);
  }

  lemma StartGives(s: SnapshotPool, p: Path, s': SnapshotPool)
    requires Starts(s, p, s')
    ensures s.created in s'.paths && s'.paths[s.created] == p && s'.nextMax == s.nextMax
  {
  }

  lemma ReadGives(x: Executor, maxBundle: nat, n: nat)
    requires Read(x, maxBundle, n) && n < 3 && 4 * maxBundle <= CAPACITY_U && CAPACITY_B <= 10 * maxBundle
    ensures x.chain.b.queue.Remaining() >= x.chain.s.total + x.chain.s.WeightToAdd(File(maxBundle, n))
    ensures x.chain.b.queue.capacity == CAPACITY_B
    ensures var snapshot := Snapshot(n, 10 * maxBundle, 10 * maxBundle);
            x.chain.u.queue.Remaining() >= x.chain.b.ledger.activeWeight + Charged(x.chain.b, snapshot)
  {
  }

  // ---------------------------------------------------------------------------------------------
  // The first machine reports one bundle after the other

  /** The first of the three bundle machines holds a bundle; it is still active, or was set aside. */
  ghost predicate Holding(b: BundlePool, maxBundle: nat, pendingBytes: nat, active: bool) {
    && b.queue.pending == [] && b.queue.weight == 0 && b.queue.capacity == CAPACITY_B
    && b.nextMax == CAPACITY_U && b.maxBundle == maxBundle && b.continueable == {0}
    && b.machines.Keys == {0, 1, 2} && b.machines[0] == AwaitingRetrieval(pendingBytes)
    && b.ledger == if active then Bundlers(maxBundle, 3)
                   else Bundlers(maxBundle, 3).(idle := [0], active := {1, 2}, activeWeight := 2 * maxBundle)
  }

  /** All three are at work, and the first has `pendingBytes` bytes left. */
  ghost predicate Working(b: BundlePool, maxBundle: nat, pendingBytes: nat) {
    && b.queue.pending == [] && b.queue.weight == 0 && b.queue.capacity == CAPACITY_B
    && b.nextMax == CAPACITY_U && b.maxBundle == maxBundle && b.continueable == {}
    && b.machines.Keys == {0, 1, 2} && b.machines[0] == Bundling(pendingBytes)
    && b.ledger == Bundlers(maxBundle, 3)
  }

  lemma Delivers(c: Chain, maxBundle: nat, before: nat, after: nat)
    requires Working(c.b, maxBundle, before) && maxBundle <= after
    ensures Holding(MarkContinueable(Reported(c, 0, after), 0).b, maxBundle, after, true)
  {
    assert c.b.ledger.outstanding[0 := maxBundle] == c.b.ledger.outstanding;
  }

  lemma IsSetAside(c: Chain, maxBundle: nat, pendingBytes: nat)
    requires Holding(c.b, maxBundle, pendingBytes, true)
    ensures var c' := DeactivateB(c, 0);
            Holding(c'.b, maxBundle, pendingBytes, false) && c' == c.(b := c'.b, violated := c'.violated)
  {
    assert {0, 1, 2} - {0} == {1, 2} && 1 in {1, 2};
  }

  /** With no snapshot waiting, a machine that delivered a bundle is continued at once, whatever
      room the upload pool has. */
  lemma IsContinued(c: Chain, maxBundle: nat, pendingBytes: nat)
    requires Holding(c.b, maxBundle, pendingBytes, false)
    ensures var c' := TryRunB(c);
            Working(c'.b, maxBundle, pendingBytes) && c'.shutdown == c.shutdown && c'.postedB == c.postedB
  {
    var b1 := c.b.Activated();
    assert {1, 2} + {0} == {0, 1, 2};
    assert Holding(b1, maxBundle, pendingBytes, true);
    assert {0} - {0} == {};
    assert Working(b1.Continued(0), maxBundle, pendingBytes);
    assert RunB(c).b == b1.Continued(0) && RunB(c).s == c.s && RunB(c).shutdown == c.shutdown
           && RunB(c).postedB == c.postedB;
    hide RunB, BundlePool.Activated, BundlePool.Continued;
  }

  /** The executor between two reports: `n` bundles are being uploaded and `waiting` bytes of bundles wait. */
  ghost predicate At(x: Executor, maxBundle: nat, pendingBytes: nat, n: nat, waiting: nat) {
    Scanning(x) && Working(x.chain.b, maxBundle, pendingBytes) && Uploads(x.chain.u, n, waiting)
  }

  lemma ReportGoesOn(c: Chain, maxBundle: nat, before: nat, after: nat, bundle: Bundle)
    requires Working(c.b, maxBundle, before) && !c.shutdown && maxBundle <= after && bundle.size <= CAPACITY_U
    ensures var c', c2 := Next(c, BundleReady(0, after, bundle)), AddU(Reported(c, 0, after), bundle, bundle.size);
            && Working(c'.b, maxBundle, after) && !c'.shutdown && c'.s == c.s
            && c'.u == c2.u && c'.lost == c2.lost && c'.full == c2.full
  {
    hide AddU, TryRunB, DeactivateB;
    var c1 := Reported(c, 0, after);
    AddUNeverEnds(c1, bundle, bundle.size);
    var c3 := MarkContinueable(AddU(c1, bundle, bundle.size), 0);
    assert Next(c, BundleReady(0, after, bundle)) == TryRunB(DeactivateB(c3, 0));
    Delivers(c, maxBundle, before, after);
    assert c3.b == MarkContinueable(c1, 0).b;
    ReadyFrame(c, 0, after, bundle);
    hide Next, Working, Holding;
    IsSetAside(c3, maxBundle, after);
    IsContinued(DeactivateB(c3, 0), maxBundle, after);
    LeavesUploads(c3, 0);
  }

  /** One report: two bundles are uploaded at once, later ones wait as long as they fit. */
  lemma Report(c: Chain, maxBundle: nat, before: nat, after: nat, n: nat, waiting: nat, bundle: Bundle)
    requires Working(c.b, maxBundle, before) && Uploads(c.u, n, waiting) && !c.shutdown
    requires maxBundle <= after <= before && 1 <= bundle.size <= CAPACITY_U
    ensures var c', fits := Next(c, BundleReady(0, after, bundle)), waiting + bundle.size <= CAPACITY_U;
            && Enabled(c, BundleReady(0, after, bundle))
            && Working(c'.b, maxBundle, after) && !c'.shutdown && c'.s == c.s
            && Uploads(c'.u, Min(2, n + 1), if n == 2 && fits then waiting + bundle.size else waiting)
            && c'.lost == (if fits then c.lost else c.lost + [bundle])
            && c'.full == (c.full || waiting >= CAPACITY_U)
  {
    hide Next, AddU, Uploaders, Bundlers;
    var c1 := Reported(c, 0, after);
    ReportGoesOn(c, maxBundle, before, after, bundle);
    RoomAssertFails(c, BundleReady(0, after, bundle));
    if n < 2 {
      UploadStarts(c1, n, bundle, bundle.size);
    } else {
      UploadWaits(c1, waiting, bundle, bundle.size);
    }
  }

  lemma NoneIdle(b: BundlePool, maxBundle: nat, pendingBytes: nat)
    requires Working(b, maxBundle, pendingBytes)
    ensures b.queue.pending == [] && !b.ledger.CanActivate()
  {
    assert |{0, 1, 2}| == 3;
  }

  function Ready(maxBundle: nat, size: nat, k: nat): Step
    requires k <= 10
  {
    PoolStep(BundleReady(0, 10 * maxBundle - k * maxBundle, Bundle(k, size)))
  }

  lemma ReadyHandled(x: Executor, maxBundle: nat, size: nat, k: nat, n: nat, waiting: nat)
    requires k <= 8 && 1 <= size <= CAPACITY_U && At(x, maxBundle, 10 * maxBundle - k * maxBundle, n, waiting)
    ensures var ready := Ready(maxBundle, size, k + 1);
            CanStep(x, ready) && WillSettle(After(x, ready))
    ensures var x' := Settled(After(x, Ready(maxBundle, size, k + 1)));
            && At(x', maxBundle, 10 * maxBundle - (k + 1) * maxBundle, Min(2, n + 1),
                  if n == 2 && waiting + size <= CAPACITY_U then waiting + size else waiting)
            && x'.chain.lost == (if waiting + size <= CAPACITY_U then x.chain.lost else x.chain.lost + [Bundle(k + 1, size)])
            && x'.chain.full == (x.chain.full || waiting >= CAPACITY_U)
  {
    hide Next, Working, Uploads, Ledger.CanActivate;
    var after := 10 * maxBundle - (k + 1) * maxBundle;
    assert maxBundle <= after <= 10 * maxBundle - k * maxBundle;
    Report(x.chain, maxBundle, 10 * maxBundle - k * maxBundle, after, n, waiting, Bundle(k + 1, size));
    NoneIdle(Next(x.chain, BundleReady(0, after, Bundle(k + 1, size))).b, maxBundle, after);
  }

  // ---------------------------------------------------------------------------------------------
  // The whole run

  function Files(maxBundle: nat, n: nat): seq<Step> {
    if n == 0 then [] else Files(maxBundle, n - 1) + [Found(File(maxBundle, n - 1)), FileFinished(maxBundle, n - 1)]
  }

  function Reports(maxBundle: nat, size: nat, k: nat): seq<Step>
    requires k <= 10
  {
    if k == 0 then [] else Reports(maxBundle, size, k - 1) + [Ready(maxBundle, size, k)]
  }

  lemma OneFile(maxBundle: nat, x: Executor, n: nat) returns (x': Executor)
    requires CAPACITY_B <= 10 * maxBundle && 4 * maxBundle <= CAPACITY_U && n < 3
    requires Leads(Strand(Start(maxBundle), []), Files(maxBundle, n), Strand(x, []))
    requires Read(x, maxBundle, n) && Balanced(Strand(x, []))
    ensures Leads(Strand(Start(maxBundle), []), Files(maxBundle, n + 1), Strand(x', []))
    ensures Read(x', maxBundle, n + 1) && Balanced(Strand(x', []))
  {
    hide Leads, After, Settled, WillSettle, CanStep, Read, Balanced, Start;
    var st0, found, finished := Strand(Start(maxBundle), []), Found(File(maxBundle, n)), FileFinished(maxBundle, n);
    ReadsFile(x, maxBundle, n);
    Handled(st0, Files(maxBundle, n), x, found);
    var x1 := Settled(After(x, found));
    Handled(st0, Files(maxBundle, n) + [found], x1, finished);
    x' := Settled(After(x1, finished));
    assert Files(maxBundle, n) + [found] + [finished] == Files(maxBundle, n + 1);
  }

  lemma OneReport(maxBundle: nat, size: nat, x: Executor, k: nat, n: nat, waiting: nat) returns (x': Executor)
    requires k <= 8 && 1 <= size <= CAPACITY_U && At(x, maxBundle, 10 * maxBundle - k * maxBundle, n, waiting)
    requires Leads(Strand(Start(maxBundle), []), Files(maxBundle, 3) + Reports(maxBundle, size, k), Strand(x, []))
    requires Balanced(Strand(x, []))
    ensures Leads(Strand(Start(maxBundle), []), Files(maxBundle, 3) + Reports(maxBundle, size, k + 1), Strand(x', []))
    ensures Balanced(Strand(x', []))
    ensures At(x', maxBundle, 10 * maxBundle - (k + 1) * maxBundle, Min(2, n + 1),
               if n == 2 && waiting + size <= CAPACITY_U then waiting + size else waiting)
    ensures x'.chain.lost == (if waiting + size <= CAPACITY_U then x.chain.lost else x.chain.lost + [Bundle(k + 1, size)])
    ensures x'.chain.full == (x.chain.full || waiting >= CAPACITY_U)
  {
    hide Leads, After, Settled, WillSettle, CanStep, At, Balanced, Start, Files;
    var st0, ready := Strand(Start(maxBundle), []), Ready(maxBundle, size, k + 1);
    ReadyHandled(x, maxBundle, size, k, n, waiting);
    Handled(st0, Files(maxBundle, 3) + Reports(maxBundle, size, k), x, ready);
    x' := Settled(After(x, ready));
    assert Files(maxBundle, 3) + Reports(maxBundle, size, k) + [ready]
           == Files(maxBundle, 3) + Reports(maxBundle, size, k + 1);
  }

  lemma StartsRead(maxBundle: nat)
    requires 1 <= maxBundle <= CAPACITY_U
    ensures Started(Start(maxBundle)) && Read(Start(maxBundle), maxBundle, 0)
    ensures Balanced(Strand(Start(maxBundle), [])) && Files(maxBundle, 0) == []
  {
  }

  lemma ThreeFiles(maxBundle: nat) returns (x: Executor)
    requires CAPACITY_B <= 10 * maxBundle && 4 * maxBundle <= CAPACITY_U
    ensures Leads(Strand(Start(maxBundle), []), Files(maxBundle, 3), Strand(x, [])) && Balanced(Strand(x, []))
    ensures At(x, maxBundle, 10 * maxBundle, 0, 0) && x.chain.lost == [] && !x.chain.full
  {
    hide Leads, Read, Start, Balanced, Files;
    StartsRead(maxBundle);
    Stays(Strand(Start(maxBundle), []));
    x := Start(maxBundle);
    x := OneFile(maxBundle, x, 0);
    x := OneFile(maxBundle, x, 1);
    x := OneFile(maxBundle, x, 2);
    AllRead(x, maxBundle);
  }

  lemma AllRead(x: Executor, maxBundle: nat)
    requires Read(x, maxBundle, 3)
    ensures At(x, maxBundle, 10 * maxBundle, 0, 0) && x.chain.lost == [] && !x.chain.full
  {
  }

  /** The program stands at its default limits and uploads nothing: it has read three large files, and of seven
      bundles that the first yields, two are being uploaded, four wait, and the seventh is lost. No assert of
      the program fails, except that, if the four that wait fill the upload pool to the last byte, the one
      about its room does. */
  lemma ABundleIsLost(maxBundle: nat, size: nat)
    requires CAPACITY_B <= 10 * maxBundle && maxBundle <= size
    requires 4 * size <= CAPACITY_U < 5 * size
    ensures Started(Start(maxBundle))
    ensures exists x :: && Leads(Strand(Start(maxBundle), []), Files(maxBundle, 3) + Reports(maxBundle, size, 7),
                                 Strand(x, []))
                        && x.chain.lost == [Bundle(7, size)] && !x.chain.violated
                        && (x.chain.full <==> 4 * size == CAPACITY_U)
  {
    hide Leads, At, Start, Files, Balanced, Good, Started;
    StartsRead(maxBundle);
    var x := ThreeFiles(maxBundle);
    assert Files(maxBundle, 3) + Reports(maxBundle, size, 0) == Files(maxBundle, 3);
    x := OneReport(maxBundle, size, x, 0, 0, 0);
    x := OneReport(maxBundle, size, x, 1, 1, 0);
    x := OneReport(maxBundle, size, x, 2, 2, 0);
    x := OneReport(maxBundle, size, x, 3, 2, size);
    x := OneReport(maxBundle, size, x, 4, 2, 2 * size);
    x := OneReport(maxBundle, size, x, 5, 2, 3 * size);
    x := OneReport(maxBundle, size, x, 6, 2, 4 * size);
    LeadsGood(Start(maxBundle), Files(maxBundle, 3) + Reports(maxBundle, size, 7), Strand(x, []));
    NeverViolated(x);
  }

  lemma NeverViolated(x: Executor)
    requires Good(x)
    ensures !x.chain.violated
  {
    hide SnapshotPool.Valid, BundlePool.Valid, UploadPool.Valid;
  }
}
