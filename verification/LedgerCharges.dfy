// The weight that a bundle pool compares with the upload pool's room before it feeds a machine, and the weight
// that it then charges the machine: the second is computed when the machine has left the idle queue, so that it
// looks at the outstanding weight of the next idle machine.

module LedgerCharges {
  import opened Common
  import opened PoolModel
  import opened ScanModel
  import opened StrandOrder
  import opened StrandRuns
  import opened PoolRuns

  // ---------------------------------------------------------------------------------------------
  // When the two weights agree

  /** What the `i`th idle machine still owes, or 0 if there is none. */
  function Owes(l: Ledger, i: nat): nat {
    if i < |l.idle| then l.Outstanding(l.idle[i]) else 0
  }

  /** An input is charged what was compared exactly if the first two idle machines owe the same, or either
      makes up the cap. */
  lemma ChargedAsCompared(l: Ledger, own: nat, most: nat)
    requires l.CanActivate()
    ensures l.Activate().WeightToAdd(own, most) == l.WeightToAdd(own, most)
       <==> Owes(l, 0) == Owes(l, 1) || (own + Owes(l, 0) >= most && own + Owes(l, 1) >= most)
  {
    if |l.idle| >= 2 {
      assert l.idle[1..][0] == l.idle[1];
    }
  }

  /** The weight at work afterwards, and when it is what the comparison had foreseen. */
  lemma ActiveAsCompared(l: Ledger, own: nat, most: nat)
    requires l.CanActivate()
    ensures var fed := l.Activate().Charge(l.Candidate(), l.Activate().WeightToAdd(own, most));
            && fed.activeWeight == l.activeWeight + Owes(l, 0) + Min(most, own + Owes(l, 1))
            && (fed.activeWeight == l.activeWeight + l.WeightToAdd(own, most)
                <==> Owes(l, 0) + Min(most, own + Owes(l, 1)) == Min(most, own + Owes(l, 0)))
  {
    if |l.idle| >= 2 {
      assert l.idle[1..][0] == l.idle[1];
    }
  }

  // ---------------------------------------------------------------------------------------------
  // A run on which they differ

  const MIB := 1048576

  function Input(k: nat): Path {
    Path(k, (5 + k) * MIB)
  }

  function Output(k: nat): Snapshot {
    Snapshot(k, (5 + k) * MIB, (5 + k) * MIB)
  }

  function Finishes(k: nat): Step {
    PoolStep(SnapshotFinished(k, Some(Output(k))))
  }

  function Rests(m: nat): Step {
    PoolStep(SnapshotDone(m, false))
  }

  /** A machine whose snapshot is done goes to the end of the idle queue; the try-run then finds nothing to do
      for the first idle machine, and puts it there too. */
  lemma GivesBack(c: Chain, m: nat)
    requires m in c.b.ledger.active && c.b.queue.pending == [] && c.s.numRunning > 0 && !c.shutdown
    requires c.b.continueable == {} && m !in c.b.ledger.idle
    requires forall i :: 0 <= i < |c.b.ledger.idle| ==>
               c.b.ledger.idle[i] in c.b.machines && c.b.ledger.idle[i] !in c.b.ledger.active
    ensures var c', l := Next(c, SnapshotDone(m, false)), c.b.ledger;
            var idle := l.idle + [m];
            && c'.s == c.s && c'.u == c.u && !c'.shutdown && c'.postedB == c.postedB
            && c'.b.queue == c.b.queue && c'.b.machines == c.b.machines[m := Resting] && c'.b.continueable == {}
            && c'.b.maxBundle == c.b.maxBundle && c'.b.nextMax == c.b.nextMax
            && c'.b.ledger == l.(active := l.active - {m}, activeWeight := l.activeWeight - l.Outstanding(m),
                                 idle := idle[1..] + [idle[0]])
  {
    var b1 := c.b.(continueable := c.b.continueable - {m}, machines := c.b.machines[m := Resting]);
    var c1 := DeactivateB(c.(b := b1), m);
    assert {} - {m} == {};
    assert Next(c, SnapshotDone(m, false)) == TryRunB(c1);
    assert c1.b.ledger.idle == c.b.ledger.idle + [m] && !c1.shutdown && c1.s == c.s && c1.u == c.u
           && c1.postedB == c.postedB;
    TurnsRound(c1);
  }

  lemma TurnsRound(c: Chain)
    requires c.b.queue.pending == [] && c.s.numRunning > 0 && !c.shutdown && c.b.continueable == {}
    requires c.b.ledger.idle != [] && c.b.ledger.idle[0] in c.b.machines && c.b.ledger.idle[0] !in c.b.ledger.active
    ensures var c', l := TryRunB(c), c.b.ledger;
            c' == c.(b := c.b.(ledger := l.(idle := l.idle[1..] + [l.idle[0]])), postedS := c'.postedS,
                    violated := c'.violated)
  {
    var h := c.b.ledger.idle[0];
    assert c.b.ledger.active + {h} - {h} == c.b.ledger.active;
  }

  /** `n` of the three files have been found, and their machines started. */
  ghost predicate Snapshotting(x: Executor, maxBundle: nat, n: nat) {
    && n <= 3 && Scanning(x) && x.chain.s.created == n && x.chain.s.numRunning == n && x.chain.s.limit == LIMIT_S
    && x.chain.s.nextMax == CAPACITY_B && x.chain.s.total == 5 * n * MIB + n * (n - 1) / 2 * MIB
    && (forall k :: 0 <= k < n ==> k in x.chain.s.paths && x.chain.s.paths[k] == Input(k))
    && Filled(x.chain, maxBundle, EmptyLedger(LIMIT_B))
  }

  /** The bundle pool has charged what `l` says and waits for input. */
  ghost predicate Filled(c: Chain, maxBundle: nat, l: Ledger) {
    && c.b.queue.pending == [] && c.b.queue.weight == 0 && c.b.queue.capacity == CAPACITY_B && c.b.ledger == l
    && c.b.machines.Keys == l.outstanding.Keys && c.b.continueable == {} && c.b.nextMax == CAPACITY_U
    && c.b.maxBundle == maxBundle && c.u.queue.capacity == CAPACITY_U && c.u.queue.weight == 0
    && forall m :: m in l.active && m in c.b.machines ==> c.b.machines[m].Bundling?
  }

  lemma FindsOne(x: Executor, maxBundle: nat, n: nat)
    requires Snapshotting(x, maxBundle, n) && n < 3
    ensures CanStep(x, Found(Input(n))) && WillSettle(After(x, Found(Input(n))))
    ensures Snapshotting(Settled(After(x, Found(Input(n)))), maxBundle, n + 1)
  {
    hide After, Settled, WillSettle, CanStep;
    FoundStarts(x, Input(n));
  }

  /** `n` snapshots are with their own machines; those files that are not done yet are still being read. */
  ghost predicate Fed(x: Executor, maxBundle: nat, n: nat, l: Ledger) {
    && Scanning(x) && x.chain.s.numRunning == 3 - n && x.chain.s.nextMax == CAPACITY_B
    && (forall k :: n <= k < 3 ==> k in x.chain.s.paths && x.chain.s.paths[k] == Input(k))
    && Filled(x.chain, maxBundle, l)
  }

  lemma FeedsOne(x: Executor, maxBundle: nat, n: nat, l: Ledger)
    requires Fed(x, maxBundle, n, l) && n < 3 && 13 * MIB <= maxBundle <= CAPACITY_U
    requires l == Ledger(LIMIT_B, n, [], l.active, l.outstanding, l.activeWeight) && |l.active| < LIMIT_B
    requires n !in l.outstanding && 0 <= l.activeWeight <= 20 * MIB
    ensures var w := (5 + n) * MIB;
            && CanStep(x, Finishes(n)) && WillSettle(After(x, Finishes(n)))
            && Fed(Settled(After(x, Finishes(n))), maxBundle, n + 1,
                   Ledger(LIMIT_B, n + 1, [], l.active + {n}, l.outstanding[n := w], l.activeWeight + w))
  {
    hide After, Settled, WillSettle, CanStep;
    SnapshotFed(x, n, Output(n));
  }

  lemma DoneOne(x: Executor, maxBundle: nat, l: Ledger, m: nat)
    requires Fed(x, maxBundle, 2, l) && m in l.active && m in l.outstanding && m !in l.idle
    requires forall i :: 0 <= i < |l.idle| ==> l.idle[i] in l.outstanding && l.idle[i] !in l.active
    ensures CanStep(x, Rests(m)) && WillSettle(After(x, Rests(m)))
    ensures Fed(Settled(After(x, Rests(m))), maxBundle, 2,
                l.(active := l.active - {m}, activeWeight := l.activeWeight - l.Outstanding(m),
                   idle := (l.idle + [m])[1..] + [(l.idle + [m])[0]]))
  {
    hide Next;
    GivesBack(x.chain, m);
  }

  /** A state in which nothing waits on the strand. */
  ghost predicate Reached(maxBundle: nat, arrivals: seq<Step>, x: Executor) {
    Leads(Strand(Start(maxBundle), []), arrivals, Strand(x, [])) && Balanced(Strand(x, []))
  }

  lemma ThenHandled(maxBundle: nat, arrivals: seq<Step>, x: Executor, step: Step) returns (x': Executor)
    requires Reached(maxBundle, arrivals, x) && SourceOf(step) != FromPools && CanStep(x, step)
             && WillSettle(After(x, step))
    ensures x' == Settled(After(x, step)) && Reached(maxBundle, arrivals + [step], x')
  {
    hide Leads, Balanced, After, Settled, CanStep, WillSettle, Start;
    Handled(Strand(Start(maxBundle), []), arrivals, x, step);
    x' := Settled(After(x, step));
  }

  lemma AllFound(maxBundle: nat) returns (x: Executor)
    requires 13 * MIB <= maxBundle <= CAPACITY_U
    ensures Reached(maxBundle, [Found(Input(0)), Found(Input(1)), Found(Input(2))], x)
    ensures Fed(x, maxBundle, 0, EmptyLedger(LIMIT_B))
  {
    hide Reached, Snapshotting, After, Settled, CanStep, WillSettle, Start, Input;
    Begins(maxBundle);
    x := Start(maxBundle);
    FindsOne(x, maxBundle, 0);
    x := ThenHandled(maxBundle, [], x, Found(Input(0)));
    FindsOne(x, maxBundle, 1);
    x := ThenHandled(maxBundle, [] + [Found(Input(0))], x, Found(Input(1)));
    FindsOne(x, maxBundle, 2);
    x := ThenHandled(maxBundle, [] + [Found(Input(0))] + [Found(Input(1))], x, Found(Input(2)));
    assert [] + [Found(Input(0))] + [Found(Input(1))] + [Found(Input(2))]
        == [Found(Input(0)), Found(Input(1)), Found(Input(2))];
    NoneFed(x, maxBundle);
  }

  lemma Begins(maxBundle: nat)
    requires 1 <= maxBundle <= CAPACITY_U
    ensures Reached(maxBundle, [], Start(maxBundle)) && Snapshotting(Start(maxBundle), maxBundle, 0)
  {
    StartsRead(maxBundle);
    Stays(Strand(Start(maxBundle), []));
    hide Leads;
  }

  lemma NoneFed(x: Executor, maxBundle: nat)
    requires Snapshotting(x, maxBundle, 3)
    ensures Fed(x, maxBundle, 0, EmptyLedger(LIMIT_B))
  {
  }

  /** The ledger once two machines were fed, and once they gave themselves back. */
  const BOTH_FED := Ledger(LIMIT_B, 2, [], {0, 1}, map[0 := 5 * MIB, 1 := 6 * MIB], 11 * MIB)
  const BOTH_IDLE := BOTH_FED.(idle := [1, 0], active := {}, activeWeight := 0)

  lemma TwoFed(maxBundle: nat, arrivals: seq<Step>, x: Executor) returns (x': Executor)
    requires 13 * MIB <= maxBundle <= CAPACITY_U && Reached(maxBundle, arrivals, x)
    requires Fed(x, maxBundle, 0, EmptyLedger(LIMIT_B))
    ensures Reached(maxBundle, arrivals + [Finishes(0)] + [Finishes(1)], x') && Fed(x', maxBundle, 2, BOTH_FED)
  {
    hide Reached, Fed, After, Settled, CanStep, WillSettle, Start;
    var l1 := Ledger(LIMIT_B, 1, [], {} + {0}, map[0 := 5 * MIB], 5 * MIB);
    FeedsOne(x, maxBundle, 0, EmptyLedger(LIMIT_B));
    x' := ThenHandled(maxBundle, arrivals, x, Finishes(0));
    assert l1.outstanding == map[][0 := 5 * MIB] && |l1.active| == 1;
    FeedsOne(x', maxBundle, 1, l1);
    x' := ThenHandled(maxBundle, arrivals + [Finishes(0)], x', Finishes(1));
    assert {} + {0} + {1} == {0, 1} && map[0 := 5 * MIB][1 := 6 * MIB] == BOTH_FED.outstanding;
  }

  lemma TwoIdle(maxBundle: nat, arrivals: seq<Step>, x: Executor) returns (x': Executor)
    requires Reached(maxBundle, arrivals, x) && Fed(x, maxBundle, 2, BOTH_FED)
    ensures Reached(maxBundle, arrivals + [Rests(0)] + [Rests(1)], x') && Fed(x', maxBundle, 2, BOTH_IDLE)
  {
    hide Reached, Fed, After, Settled, CanStep, WillSettle, Start;
    DoneOne(x, maxBundle, BOTH_FED, 0);
    x' := ThenHandled(maxBundle, arrivals, x, Rests(0));
    var l1 := BOTH_FED.(idle := [0], active := {1}, activeWeight := 6 * MIB);
    assert {0, 1} - {0} == {1} && ([] + [0])[1..] + [([] + [0])[0]] == [0];
    DoneOne(x', maxBundle, l1, 1);
    x' := ThenHandled(maxBundle, arrivals + [Rests(0)], x', Rests(1));
    assert {1} - {1} == {} && ([0] + [1])[1..] + [([0] + [1])[0]] == [1, 0];
  }

  /** The third snapshot is compared with the weight of machine 1, charged with that of machine 0, and adds
      more to the weight at work than either. */
  lemma FeedsFirstIdle(x: Executor, maxBundle: nat)
    requires Fed(x, maxBundle, 2, BOTH_IDLE) && 13 * MIB <= maxBundle <= CAPACITY_U
    ensures CanArrive(Strand(x, []), Finishes(2))
    ensures x.chain.b.ledger.activeWeight == 0 && x.chain.b.WeightToAdd(Output(2)) == 13 * MIB
    ensures x.chain.b.Activated().WeightToAdd(Output(2)) == 12 * MIB
    ensures After(x, Finishes(2)).chain.b.ledger.activeWeight == 18 * MIB
  {
    hide BundlePool.Fed, AddB;
    var c, w := x.chain.(violated := x.chain.violated || !x.chain.b.queue.CanAccept(1)), 7 * MIB;
    FedAtOnceB(c, Output(2), w);
    var pushed := c.b.(queue := c.b.queue.Push(Output(2), w));
    assert pushed.queue.pending == [Entry(Output(2), w)];
    ActiveAsCompared(BOTH_IDLE, w, maxBundle);
    assert After(x, Finishes(2)).chain.b == AddB(c, Output(2), w).b;
    FedCharges(pushed.Activated(), 1);
  }

  lemma FedCharges(b: BundlePool, m: nat)
    requires b.queue.pending != []
    ensures b.Fed(m).ledger == b.ledger.Charge(m, b.WeightToAdd(b.queue.pending[0].input))
  {
  }

  function TwoRest(): seq<Step> {
    [Found(Input(0)), Found(Input(1)), Found(Input(2)), Finishes(0), Finishes(1), Rests(0), Rests(1)]
  }

  /** In the program with its default limits, once files of 5, 6 and 7 MiB were found and the snapshots of the
      first two are done: 13 MiB are compared for the third one's, 12 are charged, and 18 are at work then. */
  lemma WeightsDiffer(maxBundle: nat)
    requires 13 * MIB <= maxBundle <= CAPACITY_U
    ensures Started(Start(maxBundle))
    ensures exists x :: && Leads(Strand(Start(maxBundle), []), TwoRest(), Strand(x, []))
                        && CanArrive(Strand(x, []), Finishes(2)) && x.chain.b.ledger.activeWeight == 0
                        && x.chain.b.WeightToAdd(Output(2)) == 13 * MIB
                        && x.chain.b.Activated().WeightToAdd(Output(2)) == 12 * MIB
                        && After(x, Finishes(2)).chain.b.ledger.activeWeight == 18 * MIB
  {
    hide Leads, Balanced, Fed, After, CanArrive, BundlePool.WeightToAdd, BundlePool.Activated;
    StartsRead(maxBundle);
    var found := [Found(Input(0)), Found(Input(1)), Found(Input(2))];
    var x := AllFound(maxBundle);
    x := TwoFed(maxBundle, found, x);
    x := TwoIdle(maxBundle, found + [Finishes(0)] + [Finishes(1)], x);
    assert found + [Finishes(0)] + [Finishes(1)] + [Rests(0)] + [Rests(1)] == TwoRest();
    FeedsFirstIdle(x, maxBundle);
  }
}
