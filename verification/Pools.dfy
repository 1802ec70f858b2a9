// The pools as objects that update their fields in place. Each method is proved to take the chain
// from one state of PoolModel to the next. The base classes' parts are objects of their own, held
// in constant fields. A ghost flag `violated` is raised where an assert of the program would fail, and
// `full` where the one about the upload pool's room would.

module Pools {
  import opened Common
  import PoolModel

  type Entry<T> = PoolModel.Entry<T>

  /** The pending-input queue of StateMachinePool, and its posted TryRunNextStateMachine callbacks. */
  class StateMachinePool<T(==)> {
    const maxPendingInputsWeight: nat
    var pendingInputs: seq<Entry<T>>
    var pendingInputsWeight: int
    var postedTryRuns: nat
    ghost var accepted: seq<T>
    ghost var started: seq<T>

    ghost function Queue(): PoolModel.InputQueue<T>
      reads this
    {
      PoolModel.InputQueue(maxPendingInputsWeight, pendingInputs, pendingInputsWeight, accepted, started)
    }

    constructor (maxPendingInputsWeight: nat)
      ensures Queue() == PoolModel.EmptyQueue(maxPendingInputsWeight) && postedTryRuns == 0
    {
      this.maxPendingInputsWeight := maxPendingInputsWeight;
      pendingInputs, pendingInputsWeight, postedTryRuns := [], 0, 0;
      accepted, started := [], [];
    }

    method CanAcceptNewInput(weight: nat) returns (ok: bool)
      ensures ok <==> Queue().CanAccept(weight)
    {
      ok := pendingInputsWeight + weight <= maxPendingInputsWeight;
    }

    method InputWeightRemaining() returns (w: int)
      ensures w == Queue().Remaining()
    {
      w := maxPendingInputsWeight - pendingInputsWeight;
    }

    method Push(input: T, weight: nat)
      modifies this
      ensures Queue() == old(Queue()).Push(input, weight) && postedTryRuns == old(postedTryRuns)
    {
      pendingInputsWeight := pendingInputsWeight + weight;
      pendingInputs := pendingInputs + [PoolModel.Entry(input, weight)];
      accepted := accepted + [input];
    }

    method PopNextInput() returns (nextInput: Option<T>)
      modifies this
      ensures postedTryRuns == old(postedTryRuns)
      ensures old(pendingInputs) == [] ==> nextInput == None && Queue() == old(Queue())
      ensures old(pendingInputs) != [] ==> nextInput == Some(old(pendingInputs)[0].input) && Queue() == old(Queue()).Pop()
    {
      nextInput := None;
      if pendingInputs != [] {
        var next := pendingInputs[0];
        nextInput := Some(next.input);
        pendingInputs := pendingInputs[1..];
        pendingInputsWeight := pendingInputsWeight - next.weight;
        started := started + [next.input];
      }
    }

    method PostTryRun()
      modifies `postedTryRuns
      ensures postedTryRuns == old(postedTryRuns) + 1
    {
      postedTryRuns := postedTryRuns + 1;
    }
  }

  /** The machines of a PersistentStateMachinePool and the ledger of their output weight. */
  class PersistentStateMachinePool {
    const maxSimultaneousStateMachines: nat
    var created: nat
    var idleStateMachines: seq<nat>
    var activeStateMachines: set<nat>
    var outputWeightOutstanding: map<nat, nat>
    var activeOutputWeightOutstanding: int

    ghost function Ledger(): PoolModel.Ledger
      reads this
    {
      PoolModel.Ledger(maxSimultaneousStateMachines, created, idleStateMachines, activeStateMachines,
                       outputWeightOutstanding, activeOutputWeightOutstanding)
    }

    constructor (maxSimultaneousStateMachines: nat)
      ensures Ledger() == PoolModel.EmptyLedger(maxSimultaneousStateMachines)
    {
      this.maxSimultaneousStateMachines := maxSimultaneousStateMachines;
      created, idleStateMachines, activeStateMachines := 0, [], {};
      outputWeightOutstanding, activeOutputWeightOutstanding := map[], 0;
    }

    /** `output_weight_outstanding_[m]`: a missing entry reads as zero. */
    function Outstanding(m: nat): (w: nat)
      reads this
      ensures w == Ledger().Outstanding(m)
    {
      if m in outputWeightOutstanding then outputWeightOutstanding[m] else 0
    }

    method OutputWeightToBeAddedByInput(own: nat, most: nat) returns (w: nat)
      ensures w == Ledger().WeightToAdd(own, most)
    {
      var outputWeight := own;
      if idleStateMachines != [] {
        outputWeight := outputWeight + Outstanding(idleStateMachines[0]);
      }
      w := Min(most, outputWeight);
    }

    /** `isNew` tells the caller to start the machine. */
    method TryActivateStateMachine() returns (machine: Option<nat>)
      modifies this
      ensures machine.Some? <==> old(Ledger()).CanActivate()
      ensures machine.Some? ==> machine.value == old(Ledger()).Candidate() && Ledger() == old(Ledger()).Activate()
      ensures machine.None? ==> Ledger() == old(Ledger())
    {
      machine := None;
      if idleStateMachines != [] {
        machine := Some(idleStateMachines[0]);
        idleStateMachines := idleStateMachines[1..];
      } else if |activeStateMachines| < maxSimultaneousStateMachines {
        machine := Some(created);
        outputWeightOutstanding := outputWeightOutstanding[created := 0];
        created := created + 1;
      }
      if machine.Some? {
        activeStateMachines := activeStateMachines + {machine.value};
        activeOutputWeightOutstanding := activeOutputWeightOutstanding + Outstanding(machine.value);
      }
    }

    method AddOutputWeight(m: nat, w: nat)
      modifies this
      ensures Ledger() == old(Ledger()).Charge(m, w)
    {
      outputWeightOutstanding := outputWeightOutstanding[m := Outstanding(m) + w];
      activeOutputWeightOutstanding := activeOutputWeightOutstanding + w;
    }

    method StateMachineProducedOutput(m: nat, outputWeightRemaining: nat) returns (ghost asserted: bool)
      modifies this
      ensures Ledger() == old(Ledger()).Produce(m, outputWeightRemaining)
      ensures asserted == old(Ledger()).CanProduce(m, outputWeightRemaining)
    {
      asserted := Outstanding(m) >= outputWeightRemaining;
      var produced := Outstanding(m) - outputWeightRemaining;
      outputWeightOutstanding := outputWeightOutstanding[m := outputWeightRemaining];
      asserted := asserted && activeOutputWeightOutstanding >= produced;
      activeOutputWeightOutstanding := activeOutputWeightOutstanding - produced;
    }

    /** Takes machine `m` out of the active ones and puts it at the end of the idle queue. */
    method Deactivate(m: nat) returns (ghost asserted: bool)
      modifies this
      ensures Ledger() == (var r := old(Ledger()).Release(m); r.(idle := r.idle + [m]))
      ensures asserted == (old(Ledger()).activeWeight >= old(Ledger()).Outstanding(m))
    {
      activeStateMachines := activeStateMachines - {m};
      asserted := activeOutputWeightOutstanding >= Outstanding(m);
      activeOutputWeightOutstanding := activeOutputWeightOutstanding - Outstanding(m);
      idleStateMachines := idleStateMachines + [m];
    }
  }

  class SnapshotStateMachinePool {
    const base: StateMachinePool<PoolModel.Path>
    const maxSimultaneousStateMachines: nat
    var nextPool: BundleStateMachinePool?
    var nextPoolMaxInputWeight: nat
    var inputFinished: bool
    var created: nat
    var filePaths: map<nat, PoolModel.Path>       // the paths the running machines were started on
    var runningMachineOutputWeight: map<nat, nat>
    var totalRunningOutputWeight: int
    var numRunningStateMachines: int
    var postedNeedMoreInput: nat                  // need-more-input callbacks on the strand

    ghost function Pool(): PoolModel.SnapshotPool
      reads this, base
    {
      PoolModel.SnapshotPool(base.Queue(), maxSimultaneousStateMachines, created, filePaths, runningMachineOutputWeight,
                             totalRunningOutputWeight, numRunningStateMachines, nextPoolMaxInputWeight, inputFinished,
                             postedNeedMoreInput)
    }

    constructor (maxPendingInputsWeight: nat, maxSimultaneousStateMachines: nat)
      ensures fresh(base) && nextPool == null && base.postedTryRuns == 0
      ensures Pool() == PoolModel.SnapshotPool(PoolModel.EmptyQueue(maxPendingInputsWeight), maxSimultaneousStateMachines,
                                               0, map[], map[], 0, 0, 0, false, 0)
    {
      base := new StateMachinePool(maxPendingInputsWeight);
      this.maxSimultaneousStateMachines := maxSimultaneousStateMachines;
      nextPool, nextPoolMaxInputWeight, inputFinished := null, 0, false;
      created, filePaths, runningMachineOutputWeight := 0, map[], map[];
      totalRunningOutputWeight, numRunningStateMachines, postedNeedMoreInput := 0, 0, 0;
    }

    ghost predicate Linked()
      reads this, nextPool
    {
      nextPool != null && nextPool.precedingPool == this && nextPool.Linked()
    }

    function OutputWeightToBeAddedByInput(input: PoolModel.Path): (w: nat)
      reads this, base
      ensures w == Pool().WeightToAdd(input)
    {
      Min(nextPoolMaxInputWeight, Max(1, input.fileSize))
    }

    method NotifyInputFinished()
      requires Linked()
      modifies `inputFinished
      ensures Linked() && nextPool == old(nextPool)
      ensures var c := old(nextPool.Chain()); nextPool.Chain() == c.(s := c.s.(inputFinished := true))
    {
      inputFinished := true;
    }

    /** The machine itself is not part of the pool; the pool asks for more input if little is left. */
    method RunInputOnStateMachine()
      modifies `postedNeedMoreInput
      ensures Pool() == old(Pool()).Notified()
    {
      if !inputFinished && base.pendingInputsWeight < base.maxPendingInputsWeight / 2 {
        postedNeedMoreInput := postedNeedMoreInput + 1;
      }
    }

    method TryRunNextStateMachineInternal()
      modifies this, base
      ensures Pool() == old(Pool()).Run() && nextPool == old(nextPool) && base.postedTryRuns == old(base.postedTryRuns)
    {
      if numRunningStateMachines >= maxSimultaneousStateMachines {
        return;
      }
      var input := base.PopNextInput();
      if input.Some? {
        var outputWeight := OutputWeightToBeAddedByInput(input.value);
        filePaths := filePaths[created := input.value];
        runningMachineOutputWeight := runningMachineOutputWeight[created := outputWeight];
        totalRunningOutputWeight := totalRunningOutputWeight + outputWeight;
        created := created + 1;
        RunInputOnStateMachine();
        numRunningStateMachines := numRunningStateMachines + 1;
      }
    }

    method TryRunNextStateMachine()
      requires Linked()
      modifies this, base
      ensures Linked() && nextPool == old(nextPool)
      ensures nextPool.Chain() == PoolModel.TryRunS(old(nextPool.Chain()))
    {
      if base.pendingInputs != [] {
        var remaining := nextPool.base.InputWeightRemaining();
        if remaining < totalRunningOutputWeight + OutputWeightToBeAddedByInput(base.pendingInputs[0].input) {
          return;
        }
      }
      TryRunNextStateMachineInternal();
    }

    method AddNewInput(input: PoolModel.Path, weight: nat) returns (added: bool)
      requires Linked()
      modifies this, base
      ensures Linked() && nextPool == old(nextPool)
      ensures nextPool.Chain() == PoolModel.AddS(old(nextPool.Chain()), input, weight)
      ensures added <==> old(base.Queue()).CanAccept(weight)
    {
      added := base.CanAcceptNewInput(weight);
      if added {
        base.Push(input, weight);
        TryRunNextStateMachine();
      }
    }

    predicate IsCompletelyIdleAndNotExpectingMoreInput()
      requires Linked()
      reads this, base, nextPool
    {
      base.pendingInputs == [] && numRunningStateMachines == 0 && !inputFinished
    }

    /** Takes machine `m` and its weight out; `asserted` says that the total covered the weight. */
    method RemoveRunning(m: nat) returns (ghost asserted: bool)
      modifies this
      ensures Pool() == old(Pool()).Deleted(m) && nextPool == old(nextPool)
      ensures asserted == (old(Pool()).total >= old(Pool()).WeightOf(m))
    {
      var weight := if m in runningMachineOutputWeight then runningMachineOutputWeight[m] else 0;
      asserted := totalRunningOutputWeight >= weight;
      totalRunningOutputWeight := totalRunningOutputWeight - weight;
      runningMachineOutputWeight := runningMachineOutputWeight - {m};
      filePaths := filePaths - {m};
      numRunningStateMachines := numRunningStateMachines - 1;
    }

    method DeleteStateMachine(m: nat)
      requires Linked()
      modifies this, base`postedTryRuns, nextPool`violated
      ensures Linked() && nextPool == old(nextPool)
      ensures nextPool.Chain() == PoolModel.DeleteS(old(nextPool.Chain()), m)
    {
      hide PoolModel.SnapshotPool.Deleted, PoolModel.SnapshotPool.WeightOf;
      ghost var asserted := RemoveRunning(m);
      nextPool.violated := nextPool.violated || !asserted;
      base.PostTryRun();
    }

    method HandleStateMachineFinishedInternal(snapshot: PoolModel.Snapshot)
      requires Linked()
      modifies base`postedTryRuns, nextPool, nextPool.base, nextPool.machines
      ensures Linked() && nextPool == old(nextPool)
      ensures var c := old(nextPool.Chain());
              nextPool.Chain() == PoolModel.AddB(c.(violated := c.violated || !c.b.queue.CanAccept(1)), snapshot,
                                                 Min(c.s.nextMax, snapshot.length))
    {
      var ok := nextPool.base.CanAcceptNewInput(1);
      nextPool.violated := nextPool.violated || !ok;
      var added := nextPool.AddNewInput(snapshot, Min(nextPoolMaxInputWeight, snapshot.length));
    }

    /** The result of handing the snapshot on is ignored. */
    method HandleStateMachineFinished(m: nat, generatedSnapshot: Option<PoolModel.Snapshot>)
      requires Linked()
      modifies this, base, nextPool, nextPool.base, nextPool.machines
      ensures Linked() && nextPool == old(nextPool)
      ensures nextPool.Chain() == PoolModel.FinishS(old(nextPool.Chain()), m, generatedSnapshot)
    {
      hide PoolModel.AddB, PoolModel.DeleteS;
      if generatedSnapshot.Some? {
        HandleStateMachineFinishedInternal(generatedSnapshot.value);
      }
      DeleteStateMachine(m);
    }

    /** The strand runs one posted TryRunNextStateMachine. */
    method RunPostedTryRun()
      requires Linked() && base.postedTryRuns > 0
      modifies this, base
      ensures Linked() && nextPool == old(nextPool)
      ensures var c := old(nextPool.Chain()); nextPool.Chain() == PoolModel.TryRunS(c.(postedS := c.postedS - 1))
    {
      hide PoolModel.TryRunS, PoolModel.TryRunB;
      base.postedTryRuns := base.postedTryRuns - 1;
      TryRunNextStateMachine();
    }

    /** The strand runs one posted need-more-input callback. */
    method TakeNeedMoreInput()
      requires Linked() && postedNeedMoreInput > 0
      modifies `postedNeedMoreInput
      ensures Linked() && nextPool == old(nextPool)
      ensures nextPool.Chain() == PoolModel.Next(old(nextPool.Chain()), PoolModel.MoreInputAsked)
    {
      postedNeedMoreInput := postedNeedMoreInput - 1;
    }

    method SetNextPool(nextPool: BundleStateMachinePool)
      modifies this
      ensures this.nextPool == nextPool
      ensures Pool() == old(Pool()).(nextMax := Max(0, nextPool.base.Queue().Remaining()))
    {
      this.nextPool := nextPool;
      var remaining := nextPool.base.InputWeightRemaining();
      nextPoolMaxInputWeight := Max(0, remaining);
    }
  }

  class BundleStateMachinePool {
    const base: StateMachinePool<PoolModel.Snapshot>
    const machines: PersistentStateMachinePool
    const precedingPool: SnapshotStateMachinePool
    var nextPool: UploadStateMachinePool?
    var nextPoolMaxInputWeight: nat
    const maxBundleSizeBytes: nat
    var bundleMachines: map<nat, PoolModel.BundleMachine>   // the machines themselves, as seen from the pool
    var continueableStateMachines: set<nat>
    var bundleGenerated: bool                               // last_bundle_generated_time_ > 0
    ghost var lost: seq<PoolModel.Bundle>
    ghost var shutdown: bool
    ghost var violated: bool
    ghost var full: bool

    ghost function Pool(): PoolModel.BundlePool
      reads this, base, machines
    {
      PoolModel.BundlePool(base.Queue(), machines.Ledger(), bundleMachines, continueableStateMachines,
                           nextPoolMaxInputWeight, maxBundleSizeBytes, bundleGenerated)
    }

    ghost predicate Linked()
      reads this
    {
      && nextPool != null && nextPool.precedingPool == this
      && machines != nextPool.machines
      && (base as object) != (nextPool.base as object)
      && (base as object) != (precedingPool.base as object)
      && (nextPool.base as object) != (precedingPool.base as object)
    }

    ghost predicate InChain()
      reads this, precedingPool
    {
      Linked() && precedingPool.nextPool == this
    }

    constructor (maxPendingInputsWeight: nat, maxSimultaneousStateMachines: nat, maxBundleSizeBytes: nat,
                 precedingPool: SnapshotStateMachinePool)
      ensures fresh(base) && fresh(machines) && nextPool == null && this.precedingPool == precedingPool
      ensures !shutdown && !violated && !full && lost == [] && base.postedTryRuns == 0
      ensures Pool() == PoolModel.BundlePool(PoolModel.EmptyQueue(maxPendingInputsWeight),
                                             PoolModel.EmptyLedger(maxSimultaneousStateMachines), map[], {}, 0,
                                             maxBundleSizeBytes, false)
    {
      base := new StateMachinePool(maxPendingInputsWeight);
      machines := new PersistentStateMachinePool(maxSimultaneousStateMachines);
      this.precedingPool, nextPool, nextPoolMaxInputWeight := precedingPool, null, 0;
      this.maxBundleSizeBytes := maxBundleSizeBytes;
      bundleMachines, continueableStateMachines, bundleGenerated := map[], {}, false;
      lost, shutdown, violated, full := [], false, false, false;
    }

    ghost function Chain(): PoolModel.Chain
      requires Linked()
      reads this, base, machines, precedingPool, precedingPool.base, nextPool
      reads if nextPool == null then {} else {nextPool.base as object, nextPool.machines as object}
    {
      PoolModel.Chain(precedingPool.Pool(), Pool(), nextPool.Pool(), precedingPool.base.postedTryRuns, base.postedTryRuns,
                      lost, shutdown, violated, full)
    }

    predicate IsCompletelyIdleAndNotExpectingMoreInput()
      requires precedingPool.Linked()
      reads this, base, machines, precedingPool, precedingPool.base, precedingPool.nextPool
    {
      base.pendingInputs == [] && machines.activeStateMachines == {} && precedingPool.IsCompletelyIdleAndNotExpectingMoreInput()
    }

    method OutputWeightToBeAddedByInput(input: PoolModel.Snapshot) returns (w: nat)
      ensures w == Pool().WeightToAdd(input)
    {
      w := machines.OutputWeightToBeAddedByInput(Min(nextPoolMaxInputWeight, input.length), maxBundleSizeBytes);
    }

    /** Ends in a request to terminate the machine when everything is idle; see `shutdown`. */
    method DeactivateStateMachine(m: nat)
      requires InChain()
      modifies this, machines
      ensures InChain() && nextPool == old(nextPool)
      ensures Chain() == PoolModel.DeactivateB(old(Chain()), m)
    {
      if m in machines.activeStateMachines {
        ghost var asserted := machines.Deactivate(m);
        violated := violated || !asserted;
        if IsCompletelyIdleAndNotExpectingMoreInput() {
          shutdown := true;
        }
      }
    }

    method TryContinue(m: nat) returns (continued: bool)
      modifies this
      ensures nextPool == old(nextPool) && lost == old(lost) && shutdown == old(shutdown) && full == old(full)
      ensures continued <==> m in old(continueableStateMachines)
      ensures !continued ==> Pool() == old(Pool()) && violated == old(violated)
      ensures continued ==>
                && Pool() == old(Pool()).Continued(m)
                && violated == (old(violated) || !(m in old(bundleMachines) && old(bundleMachines)[m].AwaitingRetrieval?))
    {
      continued := m in continueableStateMachines;
      if continued {
        continueableStateMachines := continueableStateMachines - {m};
        violated := violated || !(m in bundleMachines && bundleMachines[m].AwaitingRetrieval?);
        var pending := if m in bundleMachines then bundleMachines[m].Pending() else 0;
        bundleMachines := bundleMachines[m := PoolModel.Bundling(pending)];
      }
    }

    method RunInput(m: nat, input: PoolModel.Snapshot)
      modifies this, machines
      ensures nextPool == old(nextPool) && lost == old(lost) && shutdown == old(shutdown) && full == old(full)
      ensures var b := old(Pool());
              Pool() == b.(ledger := b.ledger.Charge(m, b.WeightToAdd(input)),
                           machines := b.machines[m := PoolModel.Bundling(b.PendingOf(m) + input.chunkBytes)])
      ensures violated == (old(violated) || !(m in old(bundleMachines) && old(bundleMachines)[m].Resting?))
    {
      var outputWeight := OutputWeightToBeAddedByInput(input);
      machines.AddOutputWeight(m, outputWeight);
      violated := violated || !(m in bundleMachines && bundleMachines[m].Resting?);
      var pending := if m in bundleMachines then bundleMachines[m].Pending() else 0;
      bundleMachines := bundleMachines[m := PoolModel.Bundling(pending + input.chunkBytes)];
    }

    method TryRunNextInput(m: nat)
      requires InChain()
      modifies this, base, machines
      ensures InChain() && nextPool == old(nextPool)
      ensures var c := old(Chain());
              Chain() == if c.b.queue.pending != [] then
                           c.(b := c.b.Fed(m),
                              violated := c.violated || !(m in c.b.machines && c.b.machines[m].Resting?))
                         else PoolModel.DeactivateB(c, m)
    {
      var input := base.PopNextInput();
      if input.Some? {
        RunInput(m, input.value);
      } else {
        DeactivateStateMachine(m);
      }
    }

    method TryRunNextStateMachineInternal()
      requires InChain()
      modifies this, base, machines
      ensures InChain() && nextPool == old(nextPool)
      ensures Chain() == PoolModel.RunB(old(Chain()))
    {
      var activated := machines.TryActivateStateMachine();
      if activated.Some? {
        var m := activated.value;
        if m !in bundleMachines {
          bundleMachines := bundleMachines[m := PoolModel.Resting];
        }
        var continued := TryContinue(m);
        if !continued {
          TryRunNextInput(m);
        }
      }
    }

    method TryRunNextStateMachine()
      requires InChain()
      modifies this, base, machines, precedingPool.base`postedTryRuns
      ensures InChain() && nextPool == old(nextPool)
      ensures Chain() == PoolModel.TryRunB(old(Chain()))
    {
      if base.pendingInputs != [] {
        var remaining := nextPool.base.InputWeightRemaining();
        var toAdd := OutputWeightToBeAddedByInput(base.pendingInputs[0].input);
        if remaining < machines.activeOutputWeightOutstanding + toAdd {
          return;
        }
      }
      TryRunNextStateMachineInternal();
      var free := base.InputWeightRemaining();
      if precedingPool.totalRunningOutputWeight < free {
        precedingPool.base.PostTryRun();
      }
    }

    method AddNewInput(input: PoolModel.Snapshot, weight: nat) returns (added: bool)
      requires InChain()
      modifies this, base, machines, precedingPool.base`postedTryRuns
      ensures InChain() && nextPool == old(nextPool)
      ensures Chain() == PoolModel.AddB(old(Chain()), input, weight)
      ensures added <==> old(base.Queue()).CanAccept(weight)
    {
      added := base.CanAcceptNewInput(weight);
      if added {
        base.Push(input, weight);
        TryRunNextStateMachine();
      }
    }

    /** `timedOut`: more than the allowed time has passed since the last bundle was generated. */
    method HandleSnapshotDone(m: nat, timedOut: bool)
      requires InChain()
      modifies this, base, machines, precedingPool.base`postedTryRuns
      ensures InChain() && nextPool == old(nextPool)
      ensures Chain() == PoolModel.HandleSnapshotDone(old(Chain()), m, timedOut)
    {
      continueableStateMachines := continueableStateMachines - {m};
      bundleMachines := bundleMachines[m := PoolModel.Resting];
      if bundleGenerated && timedOut && nextPool.base.pendingInputs == [] && nextPool.machines.activeStateMachines == {} {
        shutdown := true;
      } else {
        DeactivateStateMachine(m);
        TryRunNextStateMachine();
      }
    }

    method StateMachineProducedBundle(m: nat, chunkBytesPending: nat)
      requires InChain()
      modifies this, machines
      ensures InChain() && nextPool == old(nextPool)
      ensures Chain() == PoolModel.ProducedB(old(Chain()), m, chunkBytesPending)
    {
      ghost var asserted := machines.StateMachineProducedOutput(m, Min(maxBundleSizeBytes, chunkBytesPending));
      violated := violated || !asserted;
      bundleMachines := bundleMachines[m := PoolModel.AwaitingRetrieval(chunkBytesPending)];
      bundleGenerated := true;
    }

    /** The result of handing the bundle on is ignored. */
    method HandOver(bundle: PoolModel.Bundle)
      requires InChain()
      modifies this`full, this`lost, this`shutdown, this`violated, base`postedTryRuns
      modifies nextPool, nextPool.base, nextPool.machines
      ensures InChain() && nextPool == old(nextPool)
      ensures var c := old(Chain());
              Chain() == PoolModel.AddU(c.(full := c.full || !c.u.queue.CanAccept(1)), bundle,
                                        Min(c.b.nextMax, bundle.size))
    {
      hide PoolModel.AddU;
      var ok := nextPool.base.CanAcceptNewInput(1);
      full := full || !ok;
      var added := nextPool.AddNewInput(bundle, Min(nextPoolMaxInputWeight, bundle.size));
    }

    method HandleBundleReady(m: nat, chunkBytesPending: nat, bundle: PoolModel.Bundle)
      requires InChain()
      modifies this, base, machines, precedingPool.base`postedTryRuns, nextPool, nextPool.base, nextPool.machines
      ensures InChain() && nextPool == old(nextPool)
      ensures Chain() == PoolModel.HandleBundleReady(old(Chain()), m, chunkBytesPending, bundle)
    {
      ghost var start := Chain();
      StateMachineProducedBundle(m, chunkBytesPending);
      assert Chain().b.nextMax == start.b.nextMax && Chain().u == start.u && Chain().full == start.full;
      hide PoolModel.TryRunB, PoolModel.DeactivateB, PoolModel.AddU, PoolModel.ProducedB;
      HandOver(bundle);
      ghost var c := Chain();
      continueableStateMachines := continueableStateMachines + {m};
      assert Chain() == PoolModel.MarkContinueable(c, m);
      DeactivateStateMachine(m);
      TryRunNextStateMachine();
    }

    method RunPostedTryRun()
      requires InChain() && base.postedTryRuns > 0
      modifies this, base, machines, precedingPool.base`postedTryRuns
      ensures InChain() && nextPool == old(nextPool)
      ensures var c := old(Chain()); Chain() == PoolModel.TryRunB(c.(postedB := c.postedB - 1))
    {
      hide PoolModel.TryRunS, PoolModel.TryRunB;
      base.postedTryRuns := base.postedTryRuns - 1;
      TryRunNextStateMachine();
    }

    method SetNextPool(nextPool: UploadStateMachinePool)
      modifies this
      ensures this.nextPool == nextPool && lost == old(lost) && shutdown == old(shutdown) && violated == old(violated)
      ensures full == old(full)
      ensures Pool() == old(Pool()).(nextMax := Max(0, nextPool.base.Queue().Remaining()))
    {
      this.nextPool := nextPool;
      var remaining := nextPool.base.InputWeightRemaining();
      nextPoolMaxInputWeight := Max(0, remaining);
    }
  }

  class UploadStateMachinePool {
    const base: StateMachinePool<PoolModel.Bundle>
    const machines: PersistentStateMachinePool
    const precedingPool: BundleStateMachinePool
    var uploadMachines: map<nat, PoolModel.UploadMachine>

    ghost function Pool(): PoolModel.UploadPool
      reads this, base, machines
    {
      PoolModel.UploadPool(base.Queue(), machines.Ledger(), uploadMachines)
    }

    ghost predicate InChain()
      reads precedingPool, precedingPool.precedingPool
    {
      precedingPool.InChain() && precedingPool.nextPool == this
    }

    constructor (maxPendingInputsWeight: nat, maxSimultaneousStateMachines: nat, precedingPool: BundleStateMachinePool)
      ensures fresh(base) && fresh(machines) && this.precedingPool == precedingPool
      ensures Pool() == PoolModel.UploadPool(PoolModel.EmptyQueue(maxPendingInputsWeight),
                                             PoolModel.EmptyLedger(maxSimultaneousStateMachines), map[])
    {
      base := new StateMachinePool(maxPendingInputsWeight);
      machines := new PersistentStateMachinePool(maxSimultaneousStateMachines);
      this.precedingPool := precedingPool;
      uploadMachines := map[];
    }

    predicate IsCompletelyIdleAndNotExpectingMoreInput()
      requires InChain()
      reads this, base, machines, precedingPool, precedingPool.base, precedingPool.machines
      reads precedingPool.precedingPool, precedingPool.precedingPool.base
    {
      base.pendingInputs == [] && machines.activeStateMachines == {} && precedingPool.IsCompletelyIdleAndNotExpectingMoreInput()
    }

    method DeactivateStateMachine(m: nat)
      requires InChain()
      modifies this, machines, precedingPool`shutdown, precedingPool`violated
      ensures InChain()
      ensures precedingPool.Chain() == PoolModel.DeactivateU(old(precedingPool.Chain()), m)
    {
      if m in machines.activeStateMachines {
        ghost var asserted := machines.Deactivate(m);
        precedingPool.violated := precedingPool.violated || !asserted;
        if IsCompletelyIdleAndNotExpectingMoreInput() {
          precedingPool.shutdown := true;
        }
      }
    }

    method RunInput(m: nat, input: PoolModel.Bundle)
      requires InChain()
      modifies this, machines, precedingPool`violated
      ensures InChain()
      ensures var u := old(Pool());
              Pool() == u.(ledger := u.ledger.Charge(m, u.ledger.WeightToAdd(1, SIZE_T_MAX)),
                           machines := u.machines[m := PoolModel.Uploading(input)])
      ensures precedingPool.violated == (old(precedingPool.violated) || !old(Pool()).IsFree(m))
    {
      var outputWeight := machines.OutputWeightToBeAddedByInput(1, SIZE_T_MAX);
      machines.AddOutputWeight(m, outputWeight);
      precedingPool.violated := precedingPool.violated || !(m in uploadMachines && uploadMachines[m].Free?);
      uploadMachines := uploadMachines[m := PoolModel.Uploading(input)];
    }

    method TryRunNextInput(m: nat)
      requires InChain()
      modifies this, base, machines, precedingPool`shutdown, precedingPool`violated
      ensures InChain()
      ensures var c := old(precedingPool.Chain());
              precedingPool.Chain() == if c.u.queue.pending != [] then
                                         c.(u := c.u.Fed(m), violated := c.violated || !c.u.IsFree(m))
                                       else PoolModel.DeactivateU(c, m)
    {
      var input := base.PopNextInput();
      if input.Some? {
        RunInput(m, input.value);
      } else {
        DeactivateStateMachine(m);
      }
    }

    method TryRunNextStateMachineInternal()
      requires InChain()
      modifies this, base, machines, precedingPool`shutdown, precedingPool`violated
      ensures InChain()
      ensures precedingPool.Chain() == PoolModel.RunU(old(precedingPool.Chain()))
    {
      var activated := machines.TryActivateStateMachine();
      if activated.Some? {
        var m := activated.value;
        if m !in uploadMachines {
          uploadMachines := uploadMachines[m := PoolModel.Free];
        }
        TryRunNextInput(m);
      }
    }

    method TryRunNextStateMachine()
      requires InChain()
      modifies this, base, machines, precedingPool`shutdown, precedingPool`violated, precedingPool.base`postedTryRuns
      ensures InChain()
      ensures precedingPool.Chain() == PoolModel.TryRunU(old(precedingPool.Chain()))
    {
      TryRunNextStateMachineInternal();
      var free := base.InputWeightRemaining();
      if precedingPool.machines.activeOutputWeightOutstanding < free {
        precedingPool.base.PostTryRun();
      }
    }

    /** The bundle pool ignores `added`; a refused bundle is remembered as lost. */
    method AddNewInput(input: PoolModel.Bundle, weight: nat) returns (added: bool)
      requires InChain()
      modifies this, base, machines, precedingPool`shutdown, precedingPool`violated, precedingPool`lost
      modifies precedingPool.base`postedTryRuns
      ensures InChain()
      ensures precedingPool.Chain() == PoolModel.AddU(old(precedingPool.Chain()), input, weight)
      ensures added <==> old(base.Queue()).CanAccept(weight)
    {
      added := base.CanAcceptNewInput(weight);
      if added {
        base.Push(input, weight);
        TryRunNextStateMachine();
      } else {
        precedingPool.lost := precedingPool.lost + [input];
      }
    }

    method HandleBundleUploaded(m: nat)
      requires InChain()
      modifies this, base, machines, precedingPool`shutdown, precedingPool`violated, precedingPool.base`postedTryRuns
      ensures InChain()
      ensures precedingPool.Chain() == PoolModel.HandleBundleUploaded(old(precedingPool.Chain()), m)
    {
      ghost var asserted := machines.StateMachineProducedOutput(m, 0);
      precedingPool.violated := precedingPool.violated || !asserted;
      uploadMachines := uploadMachines[m := PoolModel.Free];
      DeactivateStateMachine(m);
      TryRunNextStateMachine();
    }
  }

  /** The snapshot pool and the bundle pool behind it, wired. */
  method CreateFirstPools(capacityS: nat, limitS: nat, capacityB: nat, limitB: nat, maxBundle: nat)
    returns (s: SnapshotStateMachinePool, b: BundleStateMachinePool)
    ensures fresh(s) && fresh(b) && fresh(s.base) && fresh(b.base) && fresh(b.machines)
    ensures s.nextPool == b && b.precedingPool == s && b.nextPool == null && (b.base as object) != (s.base as object)
    ensures !b.shutdown && !b.violated && !b.full && b.lost == [] && b.base.postedTryRuns == 0 && s.base.postedTryRuns == 0
    ensures s.Pool() == PoolModel.SnapshotPool(PoolModel.EmptyQueue(capacityS), limitS, 0, map[], map[], 0, 0, capacityB, false, 0)
    ensures b.Pool() == PoolModel.BundlePool(PoolModel.EmptyQueue(capacityB), PoolModel.EmptyLedger(limitB), map[], {}, 0,
                                             maxBundle, false)
  {
    hide PoolModel.EmptyLedger;
    s := new SnapshotStateMachinePool(capacityS, limitS);
    b := new BundleStateMachinePool(capacityB, limitB, maxBundle, s);
    s.SetNextPool(b);
  }

  /** How the executor wires the pools; the chain starts in the initial state of the model. */
  method CreatePools(capacityS: nat, limitS: nat, capacityB: nat, limitB: nat, maxBundle: nat, capacityU: nat, limitU: nat)
    returns (s: SnapshotStateMachinePool, b: BundleStateMachinePool, u: UploadStateMachinePool)
    ensures s.nextPool == b && b.nextPool == u && s.Linked() && b.InChain() && u.InChain()
    ensures b.Chain() == PoolModel.Initial(capacityS, limitS, capacityB, limitB, maxBundle, capacityU, limitU)
  {
    hide PoolModel.EmptyLedger;
    s, b := CreateFirstPools(capacityS, limitS, capacityB, limitB, maxBundle);
    u := new UploadStateMachinePool(capacityU, limitU, b);
    b.SetNextPool(u);
  }
}
