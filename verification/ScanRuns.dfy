// A run of the executor, in the order of the strand, on which a pass over the buffered paths leaves a path
// buffered that fits the pool.

module ScanRuns {
  import opened Common
  import opened PoolModel
  import opened ScanModel
  import opened StrandOrder
  import opened StrandRuns
  import opened PoolRuns

  // ---------------------------------------------------------------------------------------------
  // The snapshot pool with three machines

  const LIMIT := 3
  const UNIT := 5242880            // 5 MiB, a tenth of what the pool holds

  function PathOf(k: nat, units: nat): Path {
    Path(k, units * UNIT)
  }

  /** A path as the executor buffers it. */
  function EntryOf(k: nat, units: nat): Entry<Path> {
    Entry(PathOf(k, units), units * UNIT)
  }

  function Begin(maxBundle: nat): Executor {
    Executor(Initial(CAPACITY_S, LIMIT, CAPACITY_B, LIMIT_B, maxBundle, CAPACITY_U, LIMIT_U), InProgress, [], [])
  }

  /** What waits in the pool, and what its `n` machines may still produce. */
  ghost predicate Holds(c: Chain, pending: seq<Entry<Path>>, weight: nat, running: map<nat, nat>, n: nat, total: nat) {
    var s := c.s;
    && s.queue.pending == pending && s.queue.weight == weight && s.queue.capacity == CAPACITY_S
    && s.weights == running && s.paths.Keys == running.Keys && s.numRunning == n && s.total == total
    && s.limit == LIMIT && s.nextMax == CAPACITY_B && !s.inputFinished
    && c.b.queue.weight == 0 && c.b.queue.capacity == CAPACITY_B && !c.shutdown
  }

  /** A machine is free, and the first waiting path is started. */
  lemma HeadStarts(c: Chain, pending: seq<Entry<Path>>, weight: nat, running: map<nat, nat>, n: nat, total: nat)
    requires Holds(c, pending, weight, running, n, total) && pending != [] && n < LIMIT
    requires 1 <= pending[0].weight == pending[0].input.fileSize <= weight && total + pending[0].weight <= CAPACITY_B
    ensures var c', w := TryRunS(c), pending[0].weight;
            && Holds(c', pending[1..], weight - w, running[c.s.created := w], n + 1, total + w)
            && c' == c.(s := c'.s) && c'.s.created == c.s.created + 1
            && c'.s.needMore == c.s.needMore + if weight - w < CAPACITY_S / 2 then 1 else 0
  {
  }

  lemma FileDone(c: Chain, m: nat, pending: seq<Entry<Path>>, weight: nat, running: map<nat, nat>, n: nat, total: nat)
    requires Holds(c, pending, weight, running, n, total) && m in running && n > 0 && running[m] <= total
    ensures var c' := Next(c, SnapshotFinished(m, None));
            && Holds(c', pending, weight, running - {m}, n - 1, total - running[m])
            && c'.postedS == c.postedS + 1 && c'.postedB == c.postedB && c'.s.needMore == c.s.needMore
            && c'.s.created == c.s.created
  {
  }

  /** A path is offered while no machine is free. */
  lemma Waits(r: Passed, e: Entry<Path>, pending: seq<Entry<Path>>, weight: nat, running: map<nat, nat>, total: nat)
    requires Holds(r.chain, pending, weight, running, LIMIT, total)
    ensures var r' := Offer(r, e);
            && r'.chain == r.chain.(s := r'.chain.s) && r'.chain.s.needMore == r.chain.s.needMore
            && r'.chain.s.created == r.chain.s.created
            && if weight + e.weight <= CAPACITY_S then
                 r'.kept == r.kept && Holds(r'.chain, pending + [e], weight + e.weight, running, LIMIT, total)
               else
                 r'.kept == r.kept + [e] && Holds(r'.chain, pending, weight, running, LIMIT, total)
  {
  }

  /** A path is taken while a machine is free, which starts the first waiting one. */
  lemma TakenAndStarts(r: Passed, e: Entry<Path>, pending: seq<Entry<Path>>, weight: nat, running: map<nat, nat>,
                       n: nat, total: nat)
    requires Holds(r.chain, pending, weight, running, n, total) && pending != [] && n < LIMIT
             && weight + e.weight <= CAPACITY_S
    requires 1 <= pending[0].weight == pending[0].input.fileSize <= weight && total + pending[0].weight <= CAPACITY_B
    ensures var r', w := Offer(r, e), pending[0].weight;
            && r'.chain == r.chain.(s := r'.chain.s) && r'.kept == r.kept && r'.chain.s.created == r.chain.s.created + 1
            && Holds(r'.chain, pending[1..] + [e], weight + e.weight - w, running[r.chain.s.created := w], n + 1,
                     total + w)
  {
    var pushed := r.chain.(s := r.chain.s.(queue := r.chain.s.queue.Push(e.input, e.weight)));
    assert (pending + [e])[1..] == pending[1..] + [e];
    HeadStarts(pushed, pending + [e], weight + e.weight, running, n, total);
    hide TryRunS;
  }

  lemma Refused(r: Passed, e: Entry<Path>, pending: seq<Entry<Path>>, weight: nat, running: map<nat, nat>,
                n: nat, total: nat)
    requires Holds(r.chain, pending, weight, running, n, total) && weight + e.weight > CAPACITY_S
    ensures Offer(r, e) == r.(kept := r.kept + [e])
  {
  }

  // ---------------------------------------------------------------------------------------------
  // Callbacks one by one

  /** The executor waits to go on scanning, with these paths buffered. */
  ghost predicate At(x: Executor, buffered: seq<Entry<Path>>, pending: seq<Entry<Path>>, weight: nat,
                     running: map<nat, nat>, n: nat, total: nat) {
    && x.scan == WaitingToContinue && x.buffered == buffered && Holds(x.chain, pending, weight, running, n, total)
  }

  function Done(m: nat): Step {
    PoolStep(SnapshotFinished(m, None))
  }

  lemma DoneRuns(st0: Strand, arrivals: seq<Step>, x: Executor, m: nat, queue: seq<Step>, buffered: seq<Entry<Path>>,
                 pending: seq<Entry<Path>>, weight: nat, running: map<nat, nat>, n: nat, total: nat)
    returns (x': Executor)
    requires Leads(st0, arrivals, Strand(x, [Done(m)] + queue)) && At(x, buffered, pending, weight, running, n, total)
    requires m in running && n > 0 && running[m] <= total
    ensures Leads(st0, arrivals, Strand(x', queue + [RUN_S])) && x'.chain.postedS > 0
            && x'.chain.s.created == x.chain.s.created
    ensures At(x', buffered, pending, weight, running - {m}, n - 1, total - running[m])
    ensures x'.chain.s.needMore == x.chain.s.needMore
  {
    hide Leads, Posted, Next, Holds;
    FileDone(x.chain, m, pending, weight, running, n, total);
    HoldsGives(x.chain, pending, weight, running, n, total);
    x' := After(x, Done(m));
    PostedIs(x.chain, Done(m), x'.chain);
    HoldsGives(x'.chain, pending, weight, running - {m}, n - 1, total - running[m]);
    ThenRunsFront(st0, arrivals, x, Done(m), queue, [RUN_S]);
  }

  lemma HoldsGives(c: Chain, pending: seq<Entry<Path>>, weight: nat, running: map<nat, nat>, n: nat, total: nat)
    requires Holds(c, pending, weight, running, n, total)
    ensures c.s.paths.Keys == running.Keys && !c.shutdown
  {
  }

  lemma RunSRuns(st0: Strand, arrivals: seq<Step>, x: Executor, queue: seq<Step>, buffered: seq<Entry<Path>>,
                 pending: seq<Entry<Path>>, weight: nat, running: map<nat, nat>, n: nat, total: nat)
    returns (x': Executor)
    requires Leads(st0, arrivals, Strand(x, [RUN_S] + queue)) && At(x, buffered, pending, weight, running, n, total)
    requires x.chain.postedS > 0 && pending != [] && n < LIMIT
    requires 1 <= pending[0].weight == pending[0].input.fileSize <= weight && total + pending[0].weight <= CAPACITY_B
    ensures var w := pending[0].weight;
            && At(x', buffered, pending[1..], weight - w, running[x.chain.s.created := w], n + 1, total + w)
            && x'.chain.s.created == x.chain.s.created + 1
            && Leads(st0, arrivals, Strand(x', queue + if weight - w < CAPACITY_S / 2 then [MoreAsked] else []))
            && x'.chain.s.needMore == x.chain.s.needMore + if weight - w < CAPACITY_S / 2 then 1 else 0
  {
    hide Leads, Posted, TryRunS;
    var c := x.chain.(postedS := x.chain.postedS - 1);
    HeadStarts(c, pending, weight, running, n, total);
    x' := After(x, RUN_S);
    assert x'.chain == TryRunS(c);
    PostedIs(x.chain, RUN_S, x'.chain);
    if weight - pending[0].weight < CAPACITY_S / 2 {
      ThenRunsFront(st0, arrivals, x, RUN_S, queue, [MoreAsked]);
    } else {
      ThenRunsFront(st0, arrivals, x, RUN_S, queue, []);
    }
  }

  // ---------------------------------------------------------------------------------------------
  // The scan

  const A := EntryOf(0, 1)
  const B := EntryOf(1, 1)
  const C := EntryOf(2, 1)
  const HEAVY := EntryOf(3, 5)
  const LIGHT := EntryOf(4, 1)
  const FIRST := EntryOf(5, 1)
  const SECOND := EntryOf(6, 3)
  const BUFFERED_1 := EntryOf(7, 5)
  const BUFFERED_2 := EntryOf(8, 4)
  const BUFFERED_3 := EntryOf(9, 1)

  function Seven(): seq<(Path, nat)> {
    [(HEAVY.input, 5 * UNIT), (LIGHT.input, UNIT), (FIRST.input, UNIT), (SECOND.input, 3 * UNIT),
     (BUFFERED_1.input, 5 * UNIT), (BUFFERED_2.input, 4 * UNIT), (BUFFERED_3.input, UNIT)]
  }

  const TAKEN := [HEAVY, LIGHT, FIRST, SECOND]
  const KEPT := [BUFFERED_1, BUFFERED_2, BUFFERED_3]
  const THREE := map[0 := UNIT, 1 := UNIT, 2 := UNIT]

  lemma SevenWeighted()
    ensures Weighted(CAPACITY_S, Seven())
         == [] + [HEAVY] + [LIGHT] + [FIRST] + [SECOND] + [BUFFERED_1] + [BUFFERED_2] + [BUFFERED_3]
  {
  }

  /** While all three machines are at work, four of seven paths fill the pool, and three are buffered. */
  lemma FoursFill(c: Chain)
    requires Holds(c, [], 0, THREE, LIMIT, 3 * UNIT)
    ensures var r := Pass(c, Weighted(CAPACITY_S, Seven()));
            && Holds(r.chain, TAKEN, 10 * UNIT, THREE, LIMIT, 3 * UNIT) && r.kept == KEPT
            && r.chain == c.(s := r.chain.s) && r.chain.s.needMore == c.s.needMore && r.chain.s.created == c.s.created
  {
    hide Offer, Holds, Weighted, Pass, Seven;
    SevenWeighted();
    assert Pass(c, []) == Passed(c, [], []) by {
      NoPaths(c);
    }
    var r1 := More(c, [], Passed(c, [], []), HEAVY, [], 0);
    var r2 := More(c, [] + [HEAVY], r1, LIGHT, [] + [HEAVY], 5 * UNIT);
    var r3 := More(c, [] + [HEAVY] + [LIGHT], r2, FIRST, [] + [HEAVY] + [LIGHT], 6 * UNIT);
    var r4 := More(c, [] + [HEAVY] + [LIGHT] + [FIRST], r3, SECOND, [] + [HEAVY] + [LIGHT] + [FIRST], 7 * UNIT);
    assert [] + [HEAVY] + [LIGHT] + [FIRST] + [SECOND] == TAKEN;
    var r5 := More(c, [] + [HEAVY] + [LIGHT] + [FIRST] + [SECOND], r4, BUFFERED_1, TAKEN, 10 * UNIT);
    var r6 := More(c, [] + [HEAVY] + [LIGHT] + [FIRST] + [SECOND] + [BUFFERED_1], r5, BUFFERED_2, TAKEN, 10 * UNIT);
    var r7 := More(c, [] + [HEAVY] + [LIGHT] + [FIRST] + [SECOND] + [BUFFERED_1] + [BUFFERED_2], r6, BUFFERED_3,
                   TAKEN, 10 * UNIT);
  }

  lemma NoPaths(c: Chain)
    ensures Pass(c, []) == Passed(c, [], [])
  {
  }

  lemma More(c: Chain, es: seq<Entry<Path>>, r: Passed, e: Entry<Path>, pending: seq<Entry<Path>>, weight: nat)
    returns (r': Passed)
    requires r == Pass(c, es) && r.chain == c.(s := r.chain.s)
    requires Holds(r.chain, pending, weight, THREE, LIMIT, 3 * UNIT)
    ensures r' == Pass(c, es + [e]) && r'.chain == c.(s := r'.chain.s)
    ensures r'.chain.s.needMore == r.chain.s.needMore && r'.chain.s.created == r.chain.s.created
    ensures if weight + e.weight <= CAPACITY_S then
              r'.kept == r.kept && Holds(r'.chain, pending + [e], weight + e.weight, THREE, LIMIT, 3 * UNIT)
            else
              r'.kept == r.kept + [e] && Holds(r'.chain, pending, weight, THREE, LIMIT, 3 * UNIT)
  {
    hide Offer, Holds, Pass;
    PassSnoc(c, es, e);
    Waits(r, e, pending, weight, THREE, 3 * UNIT);
    r' := Offer(r, e);
  }

  /** The pass that takes a path while two machines are free, refuses the next, and takes the last. */
  lemma LeavesWhatFits(c: Chain, pending: seq<Entry<Path>>, running: map<nat, nat>)
    requires pending == [FIRST, SECOND] && Holds(c, pending, 4 * UNIT, running, 1, UNIT)
    ensures var r := Pass(c, KEPT); r.kept == [BUFFERED_2] && r.chain.s.queue.CanAccept(BUFFERED_2.weight)
    ensures !Pass(c, KEPT).chain.shutdown
  {
    hide Offer, Holds, Pass;
    NoPaths(c);
    PassSnoc(c, [], BUFFERED_1);
    PassSnoc(c, [] + [BUFFERED_1], BUFFERED_2);
    PassSnoc(c, [] + [BUFFERED_1] + [BUFFERED_2], BUFFERED_3);
    assert [] + [BUFFERED_1] + [BUFFERED_2] + [BUFFERED_3] == KEPT;
    var r0 := Passed(c, [], []);
    TakenAndStarts(r0, BUFFERED_1, pending, 4 * UNIT, running, 1, UNIT);
    var r1 := Offer(r0, BUFFERED_1);
    var running1 := running[c.s.created := UNIT];
    assert pending[1..] + [BUFFERED_1] == [SECOND, BUFFERED_1];
    Refused(r1, BUFFERED_2, [SECOND, BUFFERED_1], 8 * UNIT, running1, 2, 2 * UNIT);
    var r2 := Offer(r1, BUFFERED_2);
    TakenAndStarts(r2, BUFFERED_3, [SECOND, BUFFERED_1], 8 * UNIT, running1, 2, 2 * UNIT);
    var r3 := Offer(r2, BUFFERED_3);
    Six(r3.chain, [SECOND, BUFFERED_1][1..] + [BUFFERED_3], running1[c.s.created + 1 := 3 * UNIT]);
  }

  lemma Six(c: Chain, pending: seq<Entry<Path>>, running: map<nat, nat>)
    requires Holds(c, pending, 6 * UNIT, running, 3, 5 * UNIT)
    ensures c.s.queue.CanAccept(BUFFERED_2.weight) && !c.shutdown
  {
  }

  // ---------------------------------------------------------------------------------------------
  // The whole run

  /** `n` of the first three files have been found. */
  ghost predicate Begun(x: Executor, n: nat, running: map<nat, nat>) {
    && Scanning(x) && Holds(x.chain, [], 0, running, n, n * UNIT) && x.chain.s.created == n
  }

  lemma FindsNext(st0: Strand, arrivals: seq<Step>, x: Executor, n: nat, p: Path, running: map<nat, nat>)
    returns (x': Executor)
    requires Leads(st0, arrivals, Strand(x, [])) && Balanced(Strand(x, []))
    requires Begun(x, n, running) && n < 3 && p.fileSize == UNIT
    ensures Leads(st0, arrivals + [Found(p)], Strand(x', [])) && Balanced(Strand(x', []))
    ensures Begun(x', n + 1, running[n := UNIT])
  {
    hide Leads, Balanced, After, Settled, WillSettle, CanStep;
    FoundStarts(x, p);
    Handled(st0, arrivals, x, Found(p));
    x' := Settled(After(x, Found(p)));
  }

  lemma ThreeBegun(maxBundle: nat) returns (x: Executor)
    requires 1 <= maxBundle <= CAPACITY_U
    ensures Started(Begin(maxBundle)) && Begun(x, 3, THREE)
    ensures Leads(Strand(Begin(maxBundle), []), [Found(A.input), Found(B.input), Found(C.input)], Strand(x, []))
  {
    hide Leads, Found;
    var st0 := Strand(Begin(maxBundle), []);
    Stays(st0);
    assert Begun(Begin(maxBundle), 0, map[]) && Balanced(st0);
    hide Begun, Balanced, Begin;
    x := FindsNext(st0, [], Begin(maxBundle), 0, A.input, map[]);
    x := FindsNext(st0, [] + [Found(A.input)], x, 1, B.input, map[][0 := UNIT]);
    x := FindsNext(st0, [] + [Found(A.input)] + [Found(B.input)], x, 2, C.input, map[][0 := UNIT][1 := UNIT]);
    assert map[][0 := UNIT][1 := UNIT][2 := UNIT] == THREE;
    assert [] + [Found(A.input)] + [Found(B.input)] + [Found(C.input)]
           == [Found(A.input), Found(B.input), Found(C.input)];
  }

  /** Seven more paths come: four wait in the pool, and three are buffered. */
  lemma SevenFound(st0: Strand, arrivals: seq<Step>, x: Executor) returns (x': Executor)
    requires Leads(st0, arrivals, Strand(x, [])) && Begun(x, 3, THREE)
    ensures Leads(st0, arrivals + [ScanDelivered(Seven())], Strand(x', []))
    ensures At(x', KEPT, TAKEN, 10 * UNIT, THREE, 3, 3 * UNIT) && x'.chain.s.created == 3
    ensures x'.chain.s.needMore == 0
  {
    hide Leads, Posted, Pass, Weighted;
    var step := ScanDelivered(Seven());
    FoursFill(x.chain);
    assert [] + KEPT == KEPT;
    x' := After(x, step);
    assert Seven() != [];
    hide Seven;
    PostedIs(x.chain, step, x'.chain);
    assert Arrived(Strand(x, []), step) == Strand(x, [step] + []);
    ThenArrives(st0, arrivals, Strand(x, []), step);
    ThenRunsFront(st0, arrivals + [step], x, step, [], []);
    assert Strand(x', [] + []) == Strand(x', []);
  }

  /** A snapshot machine reports that it has no snapshot, before what waits on the strand has run. */
  lemma DoneArrives(st0: Strand, arrivals: seq<Step>, x: Executor, queue: seq<Step>, m: nat, buffered: seq<Entry<Path>>,
                    pending: seq<Entry<Path>>, weight: nat, running: map<nat, nat>, n: nat, total: nat)
    requires Leads(st0, arrivals, Strand(x, queue)) && At(x, buffered, pending, weight, running, n, total) && m in running
    requires forall i :: 0 <= i < |queue| ==> SourceOf(queue[i]) != FromSnapshotMachine(m)
    ensures Leads(st0, arrivals + [Done(m)], Strand(x, queue + [Done(m)]))
  {
    hide Leads;
    ThenArrives(st0, arrivals, Strand(x, queue), Done(m));
  }

  const ONE_DONE := map[1 := UNIT, 2 := UNIT, 3 := 5 * UNIT]
  const TWO_DONE := map[2 := UNIT, 3 := 5 * UNIT, 4 := UNIT]

  /** The first file is done, and the heavy one is started. */
  lemma HeavyStarts(st0: Strand, arrivals: seq<Step>, x: Executor) returns (x': Executor)
    requires Leads(st0, arrivals, Strand(x, [])) && x.chain.s.created == 3 && x.chain.s.needMore == 0
    requires At(x, KEPT, TAKEN, 10 * UNIT, THREE, 3, 3 * UNIT)
    ensures Leads(st0, arrivals + [Done(0)], Strand(x', [])) && x'.chain.s.created == 4 && x'.chain.s.needMore == 0
    ensures At(x', KEPT, [LIGHT, FIRST, SECOND], 5 * UNIT, ONE_DONE, 3, 7 * UNIT)
  {
    hide Leads, At;
    DoneArrives(st0, arrivals, x, [], 0, KEPT, TAKEN, 10 * UNIT, THREE, 3, 3 * UNIT);
    assert [] + [Done(0)] == [Done(0)] + [];
    x' := DoneRuns(st0, arrivals + [Done(0)], x, 0, [], KEPT, TAKEN, 10 * UNIT, THREE, 3, 3 * UNIT);
    assert [] + [RUN_S] == [RUN_S] + [];
    x' := RunSRuns(st0, arrivals + [Done(0)], x', [], KEPT, TAKEN, 10 * UNIT, THREE - {0}, 2, 2 * UNIT);
    assert Strand(x', [] + []) == Strand(x', []);
    assert (THREE - {0})[3 := 5 * UNIT] == ONE_DONE && TAKEN[1..] == [LIGHT, FIRST, SECOND];
  }

  /** The second is done; before the try-run that was posted then, two more files report. */
  lemma LightStarts(st0: Strand, arrivals: seq<Step>, x: Executor) returns (x': Executor)
    requires Leads(st0, arrivals, Strand(x, [])) && x.chain.s.created == 4 && x.chain.s.needMore == 0
    requires At(x, KEPT, [LIGHT, FIRST, SECOND], 5 * UNIT, ONE_DONE, 3, 7 * UNIT)
    ensures Leads(st0, arrivals + [Done(1)] + [Done(2)] + [Done(3)], Strand(x', [Done(2), Done(3), MoreAsked]))
    ensures At(x', KEPT, [FIRST, SECOND], 4 * UNIT, TWO_DONE, 3, 7 * UNIT) && x'.chain.s.needMore == 1
  {
    hide Leads, At;
    var pending := [LIGHT, FIRST, SECOND];
    DoneArrives(st0, arrivals, x, [], 1, KEPT, pending, 5 * UNIT, ONE_DONE, 3, 7 * UNIT);
    assert [] + [Done(1)] == [Done(1)] + [];
    x' := DoneRuns(st0, arrivals + [Done(1)], x, 1, [], KEPT, pending, 5 * UNIT, ONE_DONE, 3, 7 * UNIT);
    var running := ONE_DONE - {1};
    DoneArrives(st0, arrivals + [Done(1)], x', [] + [RUN_S], 2, KEPT, pending, 5 * UNIT, running, 2, 6 * UNIT);
    DoneArrives(st0, arrivals + [Done(1)] + [Done(2)], x', [] + [RUN_S] + [Done(2)], 3, KEPT, pending, 5 * UNIT,
                running, 2, 6 * UNIT);
    assert [] + [RUN_S] + [Done(2)] + [Done(3)] == [RUN_S] + [Done(2), Done(3)];
    x' := RunSRuns(st0, arrivals + [Done(1)] + [Done(2)] + [Done(3)], x', [Done(2), Done(3)], KEPT, pending,
                   5 * UNIT, running, 2, 6 * UNIT);
    assert running[4 := UNIT] == TWO_DONE && pending[1..] == [FIRST, SECOND];
    assert [Done(2), Done(3)] + [MoreAsked] == [Done(2), Done(3), MoreAsked];
  }

  /** Both reports run, and then two machines are free when the executor is asked for more. */
  lemma TwoFree(st0: Strand, arrivals: seq<Step>, x: Executor) returns (x': Executor)
    requires Leads(st0, arrivals, Strand(x, [Done(2), Done(3), MoreAsked])) && x.chain.s.needMore == 1
    requires At(x, KEPT, [FIRST, SECOND], 4 * UNIT, TWO_DONE, 3, 7 * UNIT)
    ensures Leads(st0, arrivals, Strand(x', [MoreAsked, RUN_S, RUN_S])) && x'.chain.s.needMore == 1
    ensures At(x', KEPT, [FIRST, SECOND], 4 * UNIT, map[4 := UNIT], 1, UNIT)
  {
    hide Leads, At;
    assert [Done(2), Done(3), MoreAsked] == [Done(2)] + [Done(3), MoreAsked];
    x' := DoneRuns(st0, arrivals, x, 2, [Done(3), MoreAsked], KEPT, [FIRST, SECOND], 4 * UNIT, TWO_DONE, 3, 7 * UNIT);
    assert [Done(3), MoreAsked] + [RUN_S] == [Done(3)] + [MoreAsked, RUN_S];
    x' := DoneRuns(st0, arrivals, x', 3, [MoreAsked, RUN_S], KEPT, [FIRST, SECOND], 4 * UNIT, TWO_DONE - {2}, 2,
                   6 * UNIT);
    assert [MoreAsked, RUN_S] + [RUN_S] == [MoreAsked, RUN_S, RUN_S];
    assert TWO_DONE - {2} - {3} == map[4 := UNIT];
  }

  lemma AskedLeavesWhatFits(x: Executor)
    requires At(x, KEPT, [FIRST, SECOND], 4 * UNIT, map[4 := UNIT], 1, UNIT) && x.chain.s.needMore == 1
    ensures CanRun(Strand(x, [MoreAsked, RUN_S, RUN_S]))
    ensures var x' := Ran(Strand(x, [MoreAsked, RUN_S, RUN_S])).x;
            x'.buffered == [BUFFERED_2] && x'.chain.s.queue.CanAccept(BUFFERED_2.weight)
  {
    hide Pass, Posted;
    LeavesWhatFits(Next(x.chain, MoreInputAsked), [FIRST, SECOND], map[4 := UNIT]);
  }

  /** What comes to the strand from outside. */
  function Arriving(): seq<Step> {
    [Found(A.input), Found(B.input), Found(C.input), ScanDelivered(Seven()), Done(0), Done(1), Done(2), Done(3)]
  }

  /** The executor with three snapshot machines and the program's other limits, on ten files of 5 to 25 MiB that
      turn out to yield no snapshot: it is asked for more input, offers its three buffered paths, and leaves one
      buffered that the pool has room for. */
  lemma AFittingPathStaysBuffered(maxBundle: nat)
    requires 1 <= maxBundle <= CAPACITY_U
    ensures Started(Begin(maxBundle))
    ensures exists st :: && Leads(Strand(Begin(maxBundle), []), Arriving(), st) && CanRun(st) && st.queue[0] == MoreAsked
                         && st.x.buffered == KEPT && Ran(st).x.buffered == [BUFFERED_2]
                         && Ran(st).x.chain.s.queue.CanAccept(BUFFERED_2.weight)
  {
    hide Leads, Begin, Begun, Started, Found, Seven, CanRun, Ran, InputQueue.CanAccept;
    var st0 := Strand(Begin(maxBundle), []);
    var found := [Found(A.input), Found(B.input), Found(C.input)];
    var x := ThreeBegun(maxBundle);
    x := SevenFound(st0, found, x);
    x := HeavyStarts(st0, found + [ScanDelivered(Seven())], x);
    x := LightStarts(st0, found + [ScanDelivered(Seven())] + [Done(0)], x);
    x := TwoFree(st0, found + [ScanDelivered(Seven())] + [Done(0)] + [Done(1)] + [Done(2)] + [Done(3)], x);
    assert found + [ScanDelivered(Seven())] + [Done(0)] + [Done(1)] + [Done(2)] + [Done(3)] == Arriving();
    AskedLeavesWhatFits(x);
    assert x.buffered == KEPT;
  }
}
