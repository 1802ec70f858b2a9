// The bundle pool together with the bundle machines it drives: what the pool chain assumes about a
// machine's reports is what the machines do, and the pool's calls meet the machines ready for them.

module PoolWithMachines {
  import opened Common
  import P = PoolModel
  import PoolTheorems
  import opened PoolMoves
  import M = BundleModel
  import MP = BundleProofs
  import MT = BundleTheorems
  import opened BundleInStep

  // ---------------------------------------------------------------------------------------------
  // Pools and machines

  datatype System = System(pools: P.Chain, machines: map<nat, M.Machine>)

  /** The services of the machines, and the chunks of each snapshot. */
  datatype Setting = Setting(services: M.Services, chunks: nat -> seq<M.Chunk>)

  /** A machine gets a result from a service; it runs its next event, and calls back if that is in it; the
      strand runs the callback of a machine; or the pools do another step. */
  datatype Step =
    | Delivers(machine: nat, callback: nat, delivery: M.Delivery)
    | Works(machine: nat)
    | ReportsDone(machine: nat, timedOut: bool)
    | ReportsBundle(machine: nat, bundle: P.Bundle)
    | Pools(event: P.Event)

  /** A machine has called back, and the pool has not yet taken note, when it waits and the pool thinks that it
      is at work. */
  predicate Owed(x: System, m: nat) {
    m in x.machines && m in x.pools.b.machines && x.pools.b.machines[m].Bundling?
  }

  predicate CanStep(x: System, step: Step, setting: Setting) {
    match step
    case Delivers(m, i, d) => m in x.machines && M.Enabled(x.machines[m], M.Complete(i, d))
    case Works(m) => m in x.machines && M.Enabled(x.machines[m], M.RunNextEvent(None))
    case ReportsDone(m, _) => Owed(x, m) && View(x.machines[m]).Resting?
    case ReportsBundle(m, bundle) => Owed(x, m) && View(x.machines[m]).AwaitingRetrieval? && bundle.size >= 1
    case Pools(e) =>
      && !e.SnapshotDone? && !e.BundleReady? && P.Enabled(x.pools, e)
      && (e.SnapshotFinished? && e.output.Some? ==>
            M.Lengths(setting.chunks(e.output.value.id)) == e.output.value.chunkBytes)
  }

  /** The pools' part of a step; `chunk_bytes_pending` is what the machine says. */
  function EventOf(x: System, step: Step): P.Event
    requires step.ReportsDone? || step.ReportsBundle? || step.Pools?
    requires step.ReportsBundle? ==> step.machine in x.machines
  {
    match step
    case ReportsDone(m, timedOut) => P.SnapshotDone(m, timedOut)
    case ReportsBundle(m, bundle) => P.BundleReady(m, Max(0, x.machines[m].chunks.bytes), bundle)
    case Pools(e) => e
  }

  /** The call that puts a machine to work. */
  function CallOf(before: P.BundleMachine, after: P.BundleMachine, b: P.BundlePool, setting: Setting): Option<M.Call> {
    if before.AwaitingRetrieval? && after.Bundling? then Some(M.Continue)
    else if before.Resting? && after.Bundling? && b.queue.started != [] then
      Some(M.BundleSnapshot(setting.chunks(b.queue.started[|b.queue.started| - 1].id)))
    else None
  }

  function Called(m: M.Machine, call: Option<M.Call>): M.Machine {
    if call.Some? then M.Invoke(m, call.value) else m
  }

  function Machine(x: System, m: nat): M.Machine {
    if m in x.machines then x.machines[m] else M.NewMachine()
  }

  function AfterEvent(x: System, e: P.Event, setting: Setting): System {
    var c := P.Next(x.pools, e);
    System(c, map m | m in c.b.machines ::
             Called(Machine(x, m), CallOf(Before(Acknowledged(x.pools, e), m), c.b.machines[m], c.b, setting)))
  }

  function After(x: System, step: Step, setting: Setting): System
    requires CanStep(x, step, setting)
  {
    match step
    case Delivers(m, i, d) =>
      x.(machines := x.machines[m := M.Next(x.machines[m], setting.services, M.Complete(i, d))])
    case Works(m) =>
      x.(machines := x.machines[m := M.Next(x.machines[m], setting.services, M.RunNextEvent(None))])
    case _ => AfterEvent(x, EventOf(x, step), setting)
  }

  ghost predicate Runs(x: System, setting: Setting, steps: seq<Step>, x': System)
    decreases |steps|
  {
    if steps == [] then x' == x
    else
      var last := |steps| - 1;
      exists mid :: Runs(x, setting, steps[..last], mid) && CanStep(mid, steps[last], setting)
                    && x' == After(mid, steps[last], setting) && !x'.pools.shutdown
  }

  // ---------------------------------------------------------------------------------------------
  // They stay in step

  /** What the pool thinks of a machine is right, except that a machine which the pool thinks is at work may
      have called back already; it then has no more bytes pending than the pool thinks. */
  ghost predicate Fits(view: P.BundleMachine, m: M.Machine) {
    match view
    case Resting => View(m) == P.Resting && M.Allowed(m.permission, M.BundleSnapshot([]))
    case AwaitingRetrieval(bytes) =>
      View(m) == P.AwaitingRetrieval(bytes) && m.chunks.bytes == bytes && M.Allowed(m.permission, M.Continue)
    case Bundling(bytes) => PendingBytes(m) <= bytes
  }

  ghost predicate Fitting(m: M.Machine, view: P.BundleMachine, setting: Setting) {
    MT.Reachable(m, setting.services) && Fits(view, m)
  }

  /** The snapshots the pool knows have the chunks they should. */
  ghost predicate Described(b: P.BundlePool, setting: Setting) {
    forall i :: 0 <= i < |b.queue.accepted| ==>
      M.Lengths(setting.chunks(b.queue.accepted[i].id)) == b.queue.accepted[i].chunkBytes
  }

  ghost predicate InStep(x: System, setting: Setting) {
    && PoolTheorems.Reachable(x.pools) && P.Inv(x.pools) && !x.pools.shutdown
    && x.machines.Keys == x.pools.b.machines.Keys
    && Described(x.pools.b, setting)
    && forall m :: m in x.machines ==> Fitting(x.machines[m], x.pools.b.machines[m], setting)
  }

  lemma ReachesOn(m: M.Machine, s: M.Services, step: M.Step)
    requires MT.Reachable(m, s) && M.Enabled(m, step)
    ensures MT.Reachable(M.Next(m, s, step), s)
  {
    hide M.Next, M.Enabled;
    var steps :| M.Runs(M.NewMachine(), s, steps, m);
    var all := steps + [step];
    assert all[..|all| - 1] == steps;
    assert M.Runs(M.NewMachine(), s, all, M.Next(m, s, step));
  }

  /** What a waiting machine allows, and that it says how many bytes are pending. */
  lemma WaitingAllows(m: M.Machine, s: M.Services)
    requires MT.Reachable(m, s)
    ensures View(m).Resting? ==> M.Allowed(m.permission, M.BundleSnapshot([]))
    ensures View(m).AwaitingRetrieval? ==>
              && M.Allowed(m.permission, M.Continue) && m.packing.generated.Some?
              && m.chunks.bytes == View(m).pendingBytes == PendingBytes(m)
    ensures m.chunks.bytes >= 0
  {
    hide MT.Reachable, MT.History, MP.HasRoom, MP.Sources, MP.Filling, MP.FinishedValid, MP.Compressed, MP.Fresh, M.Lengths;
    MT.ReachableInv(m, s);
    MT.ChunksConserved(m, s);
  }

  /** Work and deliveries leave a machine fitting. */
  lemma WorkFits(m: M.Machine, view: P.BundleMachine, setting: Setting)
    requires Fitting(m, view, setting) && M.Enabled(m, M.RunNextEvent(None))
    ensures Fitting(M.Next(m, setting.services, M.RunNextEvent(None)), view, setting)
  {
    hide MT.Reachable, M.Next, MP.Inv, MT.History;
    MT.ReachableInv(m, setting.services);
    ReachesOn(m, setting.services, M.RunNextEvent(None));
    RunInStep(m, setting.services);
    var n := M.Next(m, setting.services, M.RunNextEvent(None));
    MT.NothingUnexpected(n, setting.services);
    PendingIsViewed(n);
  }

  lemma PendingIsViewed(m: M.Machine)
    ensures !View(m).Resting? ==> PendingBytes(m) == View(m).pendingBytes
    ensures m.chunks.queue == [] && m.chunks.snapshot.None? ==> PendingBytes(m) == 0
  {
    assert M.Lengths([]) == 0;
  }

  lemma DeliveryFits(m: M.Machine, view: P.BundleMachine, setting: Setting, i: nat, d: M.Delivery)
    requires Fitting(m, view, setting) && M.Enabled(m, M.Complete(i, d))
    ensures Fitting(M.Next(m, setting.services, M.Complete(i, d)), view, setting)
  {
    hide MT.Reachable, M.Next, MP.Inv, MT.History;
    MT.ReachableInv(m, setting.services);
    ReachesOn(m, setting.services, M.Complete(i, d));
    DeliveryInStep(m, setting.services, i, d);
    PendingIsViewed(m);
    PendingIsViewed(M.Next(m, setting.services, M.Complete(i, d)));
  }

  /** The call that a move of the pool stands for is one the machine is ready for. */
  lemma CallFits(m: M.Machine, before: P.BundleMachine, after: P.BundleMachine, b: P.BundlePool, setting: Setting)
    requires Fitting(m, before, setting) && MovedOne(before, after, b.queue)
    requires b.queue.started != [] ==>
               var last := b.queue.started[|b.queue.started| - 1];
               M.Lengths(setting.chunks(last.id)) == last.chunkBytes
    ensures var call := CallOf(before, after, b, setting);
            && (call.Some? ==> M.Allowed(m.permission, call.value))
            && Fitting(Called(m, call), after, setting)
  {
    hide MT.Reachable, M.Invoke, MP.Inv, MT.History, View, PendingBytes;
    var call := CallOf(before, after, b, setting);
    if call.Some? {
      MT.ReachableInv(m, setting.services);
      ReachesOn(m, setting.services, M.ClientCall(call.value));
      CallsInStep(m, setting.services, call.value);
      PendingIsViewed(M.Invoke(m, call.value));
    }
  }

  lemma NewFits(setting: Setting)
    ensures Fitting(M.NewMachine(), P.Resting, setting)
  {
    assert M.Runs(M.NewMachine(), setting.services, [], M.NewMachine());
  }

  /** A report is one the pool chain allows, and what the pool makes of it is right. */
  lemma ReportFits(x: System, step: Step, setting: Setting)
    requires InStep(x, setting) && CanStep(x, step, setting) && !step.Delivers? && !step.Works?
    ensures var e := EventOf(x, step);
            && P.Enabled(x.pools, e)
            && forall m :: m in x.machines ==>
                 m in Acknowledged(x.pools, e) && Fitting(x.machines[m], Acknowledged(x.pools, e)[m], setting)
    ensures Acknowledged(x.pools, EventOf(x, step)).Keys == x.machines.Keys
  {
    hide P.Inv, MT.Reachable, View, PendingBytes;
    if step.ReportsDone? || step.ReportsBundle? {
      WaitingAllows(x.machines[step.machine], setting.services);
    }
  }

  /** What the bundle pool has accepted after the event has the chunks it should. */
  lemma StaysDescribed(x: System, e: P.Event, setting: Setting)
    requires P.Inv(x.pools) && P.Enabled(x.pools, e) && !P.Next(x.pools, e).shutdown && Described(x.pools.b, setting)
    requires e.SnapshotFinished? && e.output.Some? ==>
               M.Lengths(setting.chunks(e.output.value.id)) == e.output.value.chunkBytes
    ensures Described(P.Next(x.pools, e).b, setting) && P.Inv(P.Next(x.pools, e))
  {
    hide P.Inv, P.Next;
    PoolTheorems.StepKeeps(x.pools, e);
  }

  lemma StartedIsDescribed(c: P.Chain, setting: Setting)
    requires P.Inv(c) && Described(c.b, setting) && c.b.queue.started != []
    ensures var last := c.b.queue.started[|c.b.queue.started| - 1];
            M.Lengths(setting.chunks(last.id)) == last.chunkBytes
  {
    var n := |c.b.queue.started| - 1;
    assert c.b.queue.accepted[n] == c.b.queue.started[n] by {
      hide P.SnapshotPool.Valid, P.UploadPool.Valid, P.Ledger.Valid, P.BundlePool.Covered;
    }
    hide P.Inv;
  }

  lemma PoolReachesOn(c: P.Chain, e: P.Event)
    requires PoolTheorems.Reachable(c) && P.Enabled(c, e) && !P.Next(c, e).shutdown
    ensures PoolTheorems.Reachable(P.Next(c, e))
  {
    hide P.Runs, P.Next, P.Enabled, PoolTheorems.IsStart;
    var start, es :| PoolTheorems.IsStart(start) && P.Runs(start, es, c);
    PoolTheorems.Extend(start, es, c, e);
  }

  lemma EventKeepsStep(x: System, step: Step, setting: Setting)
    requires InStep(x, setting) && CanStep(x, step, setting) && !step.Delivers? && !step.Works?
    requires !After(x, step, setting).pools.shutdown
    ensures InStep(After(x, step, setting), setting)
  {
    hide P.Inv, P.Enabled, P.Next, Fitting, Acknowledged, Described, PoolTheorems.Reachable;
    var e := EventOf(x, step);
    var x' := After(x, step, setting);
    ReportFits(x, step, setting);
    PoolReachesOn(x.pools, e);
    EventMoves(x.pools, e);
    StaysDescribed(x, e, setting);
    if x'.pools.b.queue.started != [] {
      StartedIsDescribed(x'.pools, setting);
    }
    NewFits(setting);
    forall m | m in x'.machines ensures Fitting(x'.machines[m], x'.pools.b.machines[m], setting) {
      CallFits(Machine(x, m), Before(Acknowledged(x.pools, e), m), x'.pools.b.machines[m], x'.pools.b, setting);
    }
  }

  lemma OneMoves(x: System, m: nat, n: M.Machine, setting: Setting)
    requires InStep(x, setting) && m in x.machines && Fitting(n, x.pools.b.machines[m], setting)
    ensures InStep(x.(machines := x.machines[m := n]), setting)
  {
    hide P.Inv, Fitting, Described, PoolTheorems.Reachable;
  }

  lemma FittingIn(x: System, m: nat, setting: Setting)
    requires InStep(x, setting) && m in x.machines
    ensures m in x.pools.b.machines && Fitting(x.machines[m], x.pools.b.machines[m], setting)
  {
    hide P.Inv, Fitting, Described, PoolTheorems.Reachable;
  }

  lemma StepKeepsStep(x: System, step: Step, setting: Setting)
    requires InStep(x, setting) && CanStep(x, step, setting) && !After(x, step, setting).pools.shutdown
    ensures InStep(After(x, step, setting), setting)
  {
    hide InStep, Fitting, M.Next, M.Enabled, AfterEvent;
    if step.Delivers? {
      var m := step.machine;
      FittingIn(x, m, setting);
      DeliveryFits(x.machines[m], x.pools.b.machines[m], setting, step.callback, step.delivery);
      OneMoves(x, m, M.Next(x.machines[m], setting.services, M.Complete(step.callback, step.delivery)), setting);
    } else if step.Works? {
      var m := step.machine;
      FittingIn(x, m, setting);
      WorkFits(x.machines[m], x.pools.b.machines[m], setting);
      OneMoves(x, m, M.Next(x.machines[m], setting.services, M.RunNextEvent(None)), setting);
    } else {
      EventKeepsStep(x, step, setting);
    }
  }

  /** A chain as the executor wires it, with no machines yet. */
  ghost predicate Starts(x: System) {
    PoolTheorems.IsStart(x.pools) && x.machines == map[]
  }

  lemma StartsInStep(x: System, setting: Setting)
    requires Starts(x)
    ensures InStep(x, setting)
  {
    PoolTheorems.StartInv(x.pools);
    PoolTheorems.NoEvents(x.pools);
    hide P.Inv, P.Runs;
  }

  lemma {:induction false} RunKeepsStep(x: System, setting: Setting, steps: seq<Step>, x': System)
    requires InStep(x, setting) && Runs(x, setting, steps, x')
    ensures InStep(x', setting)
    decreases |steps|
  {
    hide InStep, After, CanStep;
    if steps != [] {
      var last := |steps| - 1;
      var mid :| Runs(x, setting, steps[..last], mid) && CanStep(mid, steps[last], setting)
                 && x' == After(mid, steps[last], setting) && !x'.pools.shutdown;
      RunKeepsStep(x, setting, steps[..last], mid);
      StepKeepsStep(mid, steps[last], setting);
    }
  }

  // ---------------------------------------------------------------------------------------------
  // Main results

  /** Every run of the pools with the machines is a run of the pool chain and, for each machine, one of the
      bundle machine, so that what was proved of either holds; and they agree: a continueable machine is one
      that holds a bundle and has as many bytes pending as the pool thinks, a machine that is neither
      continueable nor active holds no snapshot, and an active one has no more pending than the pool thinks. */
  lemma PoolAndMachinesAgree(x: System, setting: Setting, steps: seq<Step>, x': System)
    requires Starts(x) && Runs(x, setting, steps, x')
    ensures PoolTheorems.Reachable(x'.pools) && x'.machines.Keys == x'.pools.b.machines.Keys
    ensures forall m :: m in x'.machines ==> MT.Reachable(x'.machines[m], setting.services)
    ensures forall m :: m in x'.pools.b.continueable ==>
              && m in x'.machines && x'.machines[m].packing.generated.Some?
              && x'.pools.b.machines[m].AwaitingRetrieval?
              && x'.machines[m].chunks.bytes == x'.pools.b.machines[m].pendingBytes
    ensures forall m :: m in x'.machines && m !in x'.pools.b.continueable && m !in x'.pools.b.ledger.active ==>
              x'.machines[m].chunks.snapshot.None? && x'.machines[m].chunks.queue == []
    ensures forall m :: m in x'.pools.b.ledger.active ==>
              && m in x'.machines && x'.pools.b.machines[m].Bundling?
              && PendingBytes(x'.machines[m]) <= x'.pools.b.machines[m].pendingBytes
  {
    hide Runs, Starts, P.Inv, PoolTheorems.Reachable, MT.Reachable, P.Ledger.Valid;
    StartsInStep(x, setting);
    RunKeepsStep(x, setting, steps, x');
    forall m | m in x'.machines ensures Agrees(x', m) {
      MachineAgrees(x', m, setting);
    }
    ValidB(x'.pools);
    hide View, PendingBytes;
  }

  ghost predicate Agrees(x: System, m: nat) {
    m in x.machines && m in x.pools.b.machines &&
    match x.pools.b.machines[m]
    case Resting => x.machines[m].chunks.snapshot.None? && x.machines[m].chunks.queue == []
    case AwaitingRetrieval(bytes) => x.machines[m].packing.generated.Some? && x.machines[m].chunks.bytes == bytes
    case Bundling(bytes) => PendingBytes(x.machines[m]) <= bytes
  }

  lemma MachineAgrees(x: System, m: nat, setting: Setting)
    requires InStep(x, setting) && m in x.machines
    ensures Agrees(x, m)
  {
    hide P.Inv, PoolTheorems.Reachable, MT.Reachable, View, PendingBytes;
    assert Fitting(x.machines[m], x.pools.b.machines[m], setting);
    MT.NothingUnexpected(x.machines[m], setting.services);
  }

  lemma ValidB(c: P.Chain)
    requires P.Inv(c)
    ensures forall m :: m in c.b.continueable <==> m in c.b.machines && c.b.machines[m].AwaitingRetrieval?
    ensures forall m :: m in c.b.ledger.active <==> m in c.b.machines && c.b.machines[m].Bundling?
  {
    hide P.SnapshotPool.Valid, P.UploadPool.Valid, P.InputQueue.Valid, P.Ledger.Valid, P.BundlePool.Covered;
  }

  /** What the pool chain assumes of the reports of machines is so: whatever can happen next here is an event
      that can happen there; and the calls with which the pool answers it are ones the machines allow. */
  lemma ReportsAreAllowed(x: System, setting: Setting, steps: seq<Step>, x': System, step: Step)
    requires Starts(x) && Runs(x, setting, steps, x')
    requires CanStep(x', step, setting) && !step.Delivers? && !step.Works? && !After(x', step, setting).pools.shutdown
    ensures var e, y := EventOf(x', step), After(x', step, setting);
            && P.Enabled(x'.pools, e) && y.pools == P.Next(x'.pools, e)
            && forall m :: m in y.machines && m in y.pools.b.machines ==>
                 var call := CallOf(Before(Acknowledged(x'.pools, e), m), y.pools.b.machines[m], y.pools.b, setting);
                 && y.machines[m] == Called(Machine(x', m), call)
                 && (call.Some? ==> M.Allowed(Machine(x', m).permission, call.value))
  {
    hide Runs, Starts, P.Inv, P.Enabled, P.Next, Fitting, Acknowledged, Described, PoolTheorems.Reachable;
    StartsInStep(x, setting);
    RunKeepsStep(x, setting, steps, x');
    var e := EventOf(x', step);
    var y := After(x', step, setting);
    ReportFits(x', step, setting);
    EventMoves(x'.pools, e);
    StaysDescribed(x', e, setting);
    if y.pools.b.queue.started != [] {
      StartedIsDescribed(y.pools, setting);
    }
    NewFits(setting);
    forall m | m in y.machines && m in y.pools.b.machines
      ensures var call := CallOf(Before(Acknowledged(x'.pools, e), m), y.pools.b.machines[m], y.pools.b, setting);
              call.Some? ==> M.Allowed(Machine(x', m).permission, call.value)
    {
      CallFits(Machine(x', m), Before(Acknowledged(x'.pools, e), m), y.pools.b.machines[m], y.pools.b, setting);
    }
  }
}
