// Building runs in posting order step by step: a callback arrives, runs, and what it posted runs before the
// next one arrives.

module StrandRuns {
  import opened PoolModel
  import opened ScanModel
  import opened StrandOrder

  /** What the callbacks that `x` has posted will find nothing to do for, except that the executor, asked for
      more input, goes on scanning. */
  ghost predicate WillSettle(x: Executor) {
    && x.chain.s.queue.pending == [] && !x.chain.shutdown && x.buffered == []
    && (x.chain.postedB > 0 ==> x.chain.b.queue.pending == [] && !x.chain.b.ledger.CanActivate())
    && (x.scan == InProgress
        || (x.scan == WaitingToContinue && x.chain.s.needMore > 0 && x.chain.s.queue.Remaining() >= 2))
  }

  function Settled(x: Executor): Executor {
    x.(chain := x.chain.(postedB := 0, postedS := 0, s := x.chain.s.(needMore := 0)), scan := InProgress)
  }

  /** Only what the pools post waits, and it is counted. */
  ghost predicate OnlyPosted(st: Strand) {
    && Balanced(st)
    && forall i :: 0 <= i < |st.queue| ==> st.queue[i] == RUN_B || st.queue[i] == RUN_S || st.queue[i] == MoreAsked
  }

  lemma FrontIsCounted(st: Strand)
    requires OnlyPosted(st) && st.queue != []
    ensures CanStep(st.x, st.queue[0])
  {
    assert st.queue[0] in multiset(st.queue);
  }

  lemma RunSDoesNothing(c: Chain)
    requires c.postedS > 0 && c.s.queue.pending == []
    ensures Next(c, PostedRunS) == c.(postedS := c.postedS - 1)
  {
  }

  lemma RunBDoesNothing(c: Chain)
    requires c.postedB > 0 && c.b.queue.pending == [] && !c.b.ledger.CanActivate()
    ensures var c' := Next(c, PostedRunB);
            c' == c.(postedB := c.postedB - 1, postedS := c'.postedS) && c'.postedS >= c.postedS
  {
    hide Ledger.CanActivate;
  }

  lemma AskedGoesOn(x: Executor)
    requires x.chain.s.needMore > 0 && WillSettle(x)
    ensures After(x, MoreAsked)
         == x.(chain := x.chain.(s := x.chain.s.(needMore := x.chain.s.needMore - 1)), scan := InProgress)
  {
  }

  lemma FrontSettles(st: Strand)
    requires OnlyPosted(st) && st.queue != [] && WillSettle(st.x)
    ensures CanRun(st) && WillSettle(Ran(st).x) && Settled(Ran(st).x) == Settled(st.x)
  {
    hide Ledger.CanActivate, Posted, Balanced, Next;
    FrontIsCounted(st);
    if st.queue[0] == RUN_B {
      RunBDoesNothing(st.x.chain);
    } else if st.queue[0] == RUN_S {
      RunSDoesNothing(st.x.chain);
    } else {
      AskedGoesOn(st.x);
      hide After;
    }
  }

  lemma RanOnlyPosted(st: Strand)
    requires OnlyPosted(st) && CanRun(st)
    ensures OnlyPosted(Ran(st))
  {
    RanBalanced(st);
    PostedAreThePools(st.x.chain, st.queue[0], After(st.x, st.queue[0]).chain);
    hide Posted, After, CanStep, Balanced;
  }

  /** Running RUN_B may post RUN_S; the others post nothing here. */
  lemma FewerWait(st: Strand)
    requires OnlyPosted(st) && st.queue != [] && WillSettle(st.x) && CanRun(st)
    ensures multiset(Ran(st).queue)[RUN_B] + (if st.queue[0] == RUN_B then 1 else 0) == multiset(st.queue)[RUN_B]
    ensures st.queue[0] != RUN_B ==> |Ran(st).queue| < |st.queue|
  {
    hide Ledger.CanActivate, Next;
    FrontIsCounted(st);
    RanBalanced(st);
    if st.queue[0] == RUN_B {
      RunBDoesNothing(st.x.chain);
    } else if st.queue[0] == RUN_S {
      RunSDoesNothing(st.x.chain);
    } else {
      AskedGoesOn(st.x);
    }
  }

  /** All of it runs, one after the other, and changes nothing else. */
  lemma {:induction false} Settles(st0: Strand, arrivals: seq<Step>, st: Strand)
    requires Leads(st0, arrivals, st) && OnlyPosted(st) && WillSettle(st.x)
    ensures Leads(st0, arrivals, Strand(Settled(st.x), []))
    decreases multiset(st.queue)[RUN_B], |st.queue|
  {
    hide Leads;
    if st.queue == [] {
      assert Settled(st.x) == st.x;
    } else {
      hide Settled, CanRun, Ran, OnlyPosted, WillSettle;
      FrontSettles(st);
      FewerWait(st);
      RanOnlyPosted(st);
      ThenRuns(st0, arrivals, st);
      Settles(st0, arrivals, Ran(st));
    }
  }

  lemma RanAlone(x: Executor, step: Step)
    requires CanRun(Strand(x, [step]))
    ensures Ran(Strand(x, [step])) == Strand(After(x, step), Posted(x.chain, step, After(x, step).chain))
  {
    hide After, Posted, CanRun;
  }

  lemma ArrivesAlone(x: Executor, step: Step)
    requires Balanced(Strand(x, [])) && SourceOf(step) != FromPools && CanStep(x, step) && WillSettle(After(x, step))
    ensures CanArrive(Strand(x, []), step) && Arrived(Strand(x, []), step) == Strand(x, [step])
    ensures CanRun(Strand(x, [step])) && Balanced(Strand(x, [step]))
  {
    hide After, CanStep;
    ArrivedBalanced(Strand(x, []), step);
    hide Balanced;
  }

  /** A callback arrives while none waits, and runs, and so does what it posted. */
  lemma Handled(st0: Strand, arrivals: seq<Step>, x: Executor, step: Step)
    requires Leads(st0, arrivals, Strand(x, [])) && Balanced(Strand(x, []))
    requires SourceOf(step) != FromPools && CanStep(x, step) && WillSettle(After(x, step))
    ensures Leads(st0, arrivals + [step], Strand(Settled(After(x, step)), []))
    ensures Balanced(Strand(Settled(After(x, step)), []))
  {
    hide Leads, CanStep, After, Posted, Balanced, WillSettle, CanRun, Ran, CanArrive, Arrived;
    ArrivesAlone(x, step);
    ThenArrives(st0, arrivals, Strand(x, []), step);
    ThenRuns(st0, arrivals + [step], Strand(x, [step]));
    RanBalanced(Strand(x, [step]));
    RanAlone(x, step);
    PostedAreThePools(x.chain, step, After(x, step).chain);
    Settles(st0, arrivals + [step], Ran(Strand(x, [step])));
    NothingWaits(Settled(After(x, step)));
  }

  lemma NothingWaits(x: Executor)
    requires x.chain.postedB == x.chain.postedS == x.chain.s.needMore == 0
    ensures Balanced(Strand(x, []))
  {
  }

  /** The first callback runs and posts `more`. */
  lemma ThenRunsFront(st0: Strand, arrivals: seq<Step>, x: Executor, step: Step, queue: seq<Step>, more: seq<Step>)
    requires Leads(st0, arrivals, Strand(x, [step] + queue)) && CanStep(x, step) && !After(x, step).chain.shutdown
    requires Posted(x.chain, step, After(x, step).chain) == more
    ensures Leads(st0, arrivals, Strand(After(x, step), queue + more))
  {
    hide Leads, CanStep, After, Posted;
    ThenRuns(st0, arrivals, Strand(x, [step] + queue));
    assert ([step] + queue)[1..] == queue;
  }

  /** What was posted, when that was little. */
  lemma PostedIs(c: Chain, step: Step, c': Chain)
    requires Posts(c, step, c', RUN_B) == 0
    ensures Posts(c, step, c', RUN_S) == 0 && Posts(c, step, c', MoreAsked) == 0 ==> Posted(c, step, c') == []
    ensures Posts(c, step, c', RUN_S) == 1 && Posts(c, step, c', MoreAsked) == 0 ==> Posted(c, step, c') == [RUN_S]
    ensures Posts(c, step, c', RUN_S) == 0 && Posts(c, step, c', MoreAsked) == 1 ==> Posted(c, step, c') == [MoreAsked]
  {
    hide Posts;
    assert Times(RUN_S, 1) == [RUN_S] && Times(MoreAsked, 1) == [MoreAsked] && Times(RUN_B, 0) == [];
    assert Times(RUN_S, 0) == [] && Times(MoreAsked, 0) == [];
    hide Times;
  }

  /** What the runs of a started executor keep. */
  lemma LeadsGood(x: Executor, arrivals: seq<Step>, st: Strand)
    requires Started(x) && Leads(Strand(x, []), arrivals, st)
    ensures Good(st.x)
  {
    hide Started, Good, InOrder, Arrivals;
    var moves :| InOrder(Strand(x, []), moves, st) && Arrivals(moves) == arrivals;
    StartsOrdered(x);
    MovesKeep(Strand(x, []), moves, st);
  }
}
