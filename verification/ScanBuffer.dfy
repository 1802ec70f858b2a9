// The executor as an object that updates its fields in place (backup-executor.cc). Each method is proved
// to take it from one state of ScanModel to the next; its pools are the ones of Pools.

module ScanBuffer {
  import PoolModel
  import PoolProofs
  import Pools
  import opened ScanModel

  type Entry<T> = PoolModel.Entry<T>

  class BackupExecutor {
    const snapshotPool: Pools.SnapshotStateMachinePool
    const bundlePool: Pools.BundleStateMachinePool
    const uploadPool: Pools.UploadStateMachinePool
    const maxWeight: nat
    var scanState: ScanState
    var buffered: seq<Entry<PoolModel.Path>>
    var bufferedTotalWeight: int
    ghost var scanned: seq<PoolModel.Path>

    ghost predicate Valid()
      reads this, snapshotPool, bundlePool
    {
      && snapshotPool.nextPool == bundlePool && bundlePool.nextPool == uploadPool
      && snapshotPool.Linked()
      && maxWeight == snapshotPool.base.maxPendingInputsWeight
      && bufferedTotalWeight == PoolModel.TotalWeight(buffered)
    }

    ghost function State(): Executor
      requires Valid()
      reads this, snapshotPool, snapshotPool.base, bundlePool, bundlePool.base, bundlePool.machines
      reads uploadPool, uploadPool.base, uploadPool.machines
    {
      Executor(bundlePool.Chain(), scanState, buffered, scanned)
    }

    /** Start: the pools are wired and empty, and the scanner has begun. */
    constructor (capacityS: nat, limitS: nat, capacityB: nat, limitB: nat, maxBundle: nat, capacityU: nat, limitU: nat)
      ensures Valid()
      ensures State() == Executor(PoolModel.Initial(capacityS, limitS, capacityB, limitB, maxBundle, capacityU, limitU),
                                  InProgress, [], [])
    {
      var s, b, u := Pools.CreatePools(capacityS, limitS, capacityB, limitB, maxBundle, capacityU, limitU);
      snapshotPool, bundlePool, uploadPool := s, b, u;
      maxWeight := s.base.maxPendingInputsWeight;
      scanState, buffered, bufferedTotalWeight, scanned := InProgress, [], 0, [];
    }

    /** The entry is offered to the pool; if it is refused, it goes to the end of the buffer. */
    method TryAddSnapshotPathWithWeight(path: PoolModel.Path, weight: nat)
      requires Valid()
      modifies this`buffered, this`bufferedTotalWeight, snapshotPool, snapshotPool.base
      ensures Valid()
      ensures var r := Offer(Passed(old(State()).chain, [], old(buffered)), PoolModel.Entry(path, weight));
              State() == old(State()).(chain := r.chain, buffered := r.kept)
    {
      hide PoolModel.AddS, PoolModel.TotalWeight;
      var ok := snapshotPool.base.CanAcceptNewInput(weight);
      if ok {
        var added := snapshotPool.AddNewInput(path, weight);
      } else {
        PoolProofs.TotalWeightSnoc(buffered, PoolModel.Entry(path, weight));
        bufferedTotalWeight := bufferedTotalWeight + weight;
        buffered := buffered + [PoolModel.Entry(path, weight)];
      }
    }

    method TryAddSnapshotPathWithSize(path: PoolModel.Path, filesize: nat)
      requires Valid()
      modifies this`buffered, this`bufferedTotalWeight, this`scanned, snapshotPool, snapshotPool.base
      ensures Valid()
      ensures var e := PoolModel.Entry(path, WeightFromFilesize(maxWeight, filesize));
              var r := Offer(Passed(old(State()).chain, [], old(buffered)), e);
              State() == Executor(r.chain, old(scanState), r.kept, old(scanned) + [path])
    {
      hide PoolModel.TotalWeight, Offer;
      scanned := scanned + [path];
      TryAddSnapshotPathWithWeight(path, WeightFromFilesize(maxWeight, filesize));
    }

    /** One pass over the buffer: exactly the refused entries are buffered again, in their order. */
    method AddBufferedSnapshotPaths()
      requires Valid()
      modifies this`buffered, this`bufferedTotalWeight, snapshotPool, snapshotPool.base
      ensures Valid()
      ensures var r := Pass(old(State()).chain, old(buffered));
              State() == old(State()).(chain := r.chain, buffered := r.kept)
    {
      hide PoolModel.TotalWeight, Pass, Offer, Valid;
      ghost var all, c := buffered, State().chain;
      NothingYet(c, all);
      var initialBufferSize := |buffered|;
      for i := 0 to initialBufferSize
        invariant Valid() && i <= |all| == initialBufferSize
        invariant var r := Pass(c, all[..i]);
                  && buffered == all[i..] + r.kept
                  && State() == old(State()).(chain := r.chain, buffered := buffered)
      {
        ghost var r := Pass(c, all[..i]);
        NextOffered(c, all, i);
        var next := PopBuffered();
        TryAddSnapshotPathWithWeight(next.input, next.weight);
        OfferKeepsOrder(r, next, all[i + 1..]);
      }
      assert all[..|all|] == all && all[|all|..] == [];
    }

    method PopBuffered() returns (e: Entry<PoolModel.Path>)
      requires Valid() && buffered != []
      modifies this`buffered, this`bufferedTotalWeight
      ensures Valid() && e == old(buffered)[0]
      ensures State() == old(State()).(buffered := old(buffered)[1..])
    {
      e := buffered[0];
      buffered := buffered[1..];
      bufferedTotalWeight := bufferedTotalWeight - e.weight;
    }

    /** The scanner delivered another part of the scan, or nothing more. */
    method AddNewPendingSnapshotPaths(paths: seq<(PoolModel.Path, nat)>)
      requires Valid()
      modifies this, snapshotPool, snapshotPool.base
      ensures Valid() && State() == Delivered(old(State()), paths)
    {
      hide PoolModel.TotalWeight, Pass, Offer;
      if |paths| > 0 {
        scanState := WaitingToContinue;
        assert Valid();
        hide Valid;
        ghost var es, c, before := Weighted(maxWeight, paths), State().chain, buffered;
        NothingYet(c, es);
        for i := 0 to |paths|
          invariant Valid()
          invariant var r := Pass(c, es[..i]);
                    State() == Executor(r.chain, WaitingToContinue, before + r.kept, old(scanned) + Firsts(paths[..i]))
        {
          NextOffered(c, es, i);
          OfferOn(Pass(c, es[..i]), before, es[i]);
          assert Firsts(paths[..i + 1]) == Firsts(paths[..i]) + [paths[i].0];
          TryAddSnapshotPathWithSize(paths[i].0, paths[i].1);
        }
        assert es[..|paths|] == es && paths[..|paths|] == paths;
      } else if |buffered| == 0 {
        scanState := Finished;
      } else {
        scanState := FinishedButPathsBuffered;
      }
    }

    /** The pool asked for more. `scanFor` is what the scanner is told to continue with, zero if it is not. */
    method TryScanMorePaths() returns (scanFor: nat)
      requires Valid()
      modifies this, snapshotPool, snapshotPool.base
      ensures Valid() && State() == ScannedMore(old(State()))
      ensures scanFor > 0 <==> old(scanState) == WaitingToContinue && scanState == InProgress
      ensures scanFor > 0 ==> scanFor == State().chain.s.queue.Remaining() / 2
    {
      hide PoolModel.TotalWeight, Pass;
      AddBufferedSnapshotPaths();
      if scanState == FinishedButPathsBuffered && |buffered| == 0 {
        scanState := Finished;
        return 0;
      }
      scanFor := 0;
      var inputWeightRemaining := snapshotPool.base.InputWeightRemaining();
      if scanState == WaitingToContinue && inputWeightRemaining >= 2 {
        scanFor := inputWeightRemaining / 2;
        scanState := InProgress;
      }
    }

    /** The strand runs a posted need-more-input callback. */
    method RunNeedMoreInput() returns (scanFor: nat)
      requires Valid() && snapshotPool.postedNeedMoreInput > 0
      modifies this, snapshotPool, snapshotPool.base
      ensures Valid() && State() == After(old(State()), MoreAsked)
    {
      hide ScannedMore, PoolModel.TotalWeight;
      snapshotPool.TakeNeedMoreInput();
      scanFor := TryScanMorePaths();
    }
  }

  // ---------------------------------------------------------------------------------------------
  // Steps of the loops

  lemma NothingYet(c: PoolModel.Chain, es: seq<Entry<PoolModel.Path>>)
    ensures Pass(c, es[..0]) == Passed(c, [], []) && es[0..] == es
  {
  }

  lemma NextOffered(c: PoolModel.Chain, es: seq<Entry<PoolModel.Path>>, i: nat)
    requires i < |es|
    ensures Pass(c, es[..i + 1]) == Offer(Pass(c, es[..i]), es[i]) && es[i..] == [es[i]] + es[i + 1..]
  {
    hide Offer;
    var more := es[..i + 1];
    assert more[..|more| - 1] == es[..i];
  }

  /** Offering does not look at what was refused before. */
  lemma OfferOn(r: Passed, before: seq<Entry<PoolModel.Path>>, e: Entry<PoolModel.Path>)
    ensures var r1, r2 := Offer(r, e), Offer(Passed(r.chain, [], before + r.kept), e);
            r2.chain == r1.chain && r2.kept == before + r1.kept
  {
    hide PoolModel.AddS;
  }

  lemma OfferKeepsOrder(r: Passed, e: Entry<PoolModel.Path>, rest: seq<Entry<PoolModel.Path>>)
    ensures var r1, r2 := Offer(r, e), Offer(Passed(r.chain, [], ([e] + rest + r.kept)[1..]), e);
            r2.chain == r1.chain && r2.kept == rest + r1.kept
  {
    assert ([e] + rest + r.kept)[1..] == rest + r.kept;
    OfferOn(r, rest, e);
  }
}
