// From the bundle state machine to the file and back: the calls it makes on its Bundle, what a TAR
// reader finds in the finished file, and what the payload decompresses to.

module BundleRestore {
  import opened Common
  import TarFormat
  import opened BundleWriter
  import opened BundleModel
  import opened BundleProofs
  import opened BundleTheorems

  /** The calls that pack the first `n` chunks of a bundle. */
  function PackOps(b: Contents, s: Services, now: nat, n: nat): seq<Op>
    requires n <= |b.blocks| && n <= |b.plain|
  {
    if n == 0 then [StartOp(COMPRESSION_TYPE_ZLIB, now)]
    else PackOps(b, s, now, n - 1) + [AddBlockOp(b.blocks[n - 1]), AppendOp(s.compress(b.plain[..n]))]
  }

  /** The calls on a bundle from its first chunk to just before Finalize. */
  function BundleOps(b: Contents, s: Services, now: nat): seq<Op>
    requires |b.blocks| == |b.plain|
  {
    PackOps(b, s, now, |b.blocks|) + [AppendOp(s.finish(b.plain))]
  }

  lemma OneOpMore(ops: seq<Op>, op: Op)
    requires Legal(ops) && Groups(ops) != [] && !op.StartOp?
    ensures Legal(ops + [op])
    ensures var gs := Groups(ops);
            var last := gs[|gs| - 1];
            Groups(ops + [op]) == gs[..|gs| - 1] + [match op
                                                    case AddBlockOp(block) => last.(blocks := last.blocks + [block])
                                                    case AppendOp(data) => last.(content := last.content + data)
                                                    case StartOp(_, _) => last]
  {
    assert (ops + [op])[..|ops|] == ops;
  }

  lemma {:induction false} PackOpsGroup(b: Contents, s: Services, now: nat, n: nat)
    requires n <= |b.blocks| && n <= |b.plain| && now < TarFormat.Pow8(11)
    ensures Legal(PackOps(b, s, now, n))
    ensures Groups(PackOps(b, s, now, n)) == [Group(COMPRESSION_TYPE_ZLIB, b.blocks[..n], Outputs(b.plain[..n], s))]
  {
    hide TarFormat.Pow8, Legal, Groups;
    if n == 0 {
      StartGroup(now);
    } else {
      PackOpsGroup(b, s, now, n - 1);
      PackOneMore(b, s, now, n);
    }
  }

  lemma PackOneMore(b: Contents, s: Services, now: nat, n: nat)
    requires 0 < n <= |b.blocks| && n <= |b.plain| && Legal(PackOps(b, s, now, n - 1))
    requires Groups(PackOps(b, s, now, n - 1))
          == [Group(COMPRESSION_TYPE_ZLIB, b.blocks[..n - 1], Outputs(b.plain[..n - 1], s))]
    ensures Legal(PackOps(b, s, now, n))
    ensures Groups(PackOps(b, s, now, n)) == [Group(COMPRESSION_TYPE_ZLIB, b.blocks[..n], Outputs(b.plain[..n], s))]
  {
    hide Legal, Groups;
    assert b.plain[..n][..n - 1] == b.plain[..n - 1] && b.blocks[..n] == b.blocks[..n - 1] + [b.blocks[n - 1]];
    var content, data := Outputs(b.plain[..n - 1], s), s.compress(b.plain[..n]);
    assert Outputs(b.plain[..n], s) == content + data;
    assert PackOps(b, s, now, n) == PackOps(b, s, now, n - 1) + [AddBlockOp(b.blocks[n - 1]), AppendOp(data)];
    hide PackOps, Outputs;
    OneChunkMore(PackOps(b, s, now, n - 1), b.blocks[..n - 1], content, b.blocks[n - 1], data);
  }

  lemma OneChunkMore(ops: seq<Op>, blocks: seq<Block>, content: seq<byte>, block: Block, data: seq<byte>)
    requires Legal(ops) && Groups(ops) == [Group(COMPRESSION_TYPE_ZLIB, blocks, content)]
    ensures Legal(ops + [AddBlockOp(block), AppendOp(data)])
    ensures Groups(ops + [AddBlockOp(block), AppendOp(data)])
         == [Group(COMPRESSION_TYPE_ZLIB, blocks + [block], content + data)]
  {
    hide Legal, Groups;
    OneOpMore(ops, AddBlockOp(block));
    OneOpMore(ops + [AddBlockOp(block)], AppendOp(data));
    assert ops + [AddBlockOp(block)] + [AppendOp(data)] == ops + [AddBlockOp(block), AppendOp(data)];
  }

  lemma StartGroup(now: nat)
    requires now < TarFormat.Pow8(11)
    ensures Legal([StartOp(COMPRESSION_TYPE_ZLIB, now)])
    ensures Groups([StartOp(COMPRESSION_TYPE_ZLIB, now)]) == [Group(COMPRESSION_TYPE_ZLIB, [], [])]
  {
    hide TarFormat.Pow8;
    assert [StartOp(COMPRESSION_TYPE_ZLIB, now)][..0] == [];
    assert Groups([]) == [] && Legal([]);
  }

  /** A generated bundle is the one payload those calls make. */
  lemma BundleOpsGroup(b: Contents, s: Services, now: nat)
    requires Sealed(b, s) && now < TarFormat.Pow8(11)
    ensures Legal(BundleOps(b, s, now))
    ensures Groups(BundleOps(b, s, now)) == [Group(COMPRESSION_TYPE_ZLIB, b.blocks, b.content)]
  {
    hide TarFormat.Pow8, Legal, Groups, Outputs;
    PackOpsGroup(b, s, now, |b.blocks|);
    assert b.plain[..|b.blocks|] == b.plain && b.blocks[..|b.blocks|] == b.blocks;
    OneOpMore(PackOps(b, s, now, |b.blocks|), AppendOp(s.finish(b.plain)));
  }

  /** The size the machine compares with the maximum is the size of the file so far. */
  lemma SizeIsFileSize(b: Contents, s: Services, now: nat, env: Env)
    requires b.blocks != [] && |b.blocks| == |b.plain| && b.content == Outputs(b.plain, s)
    requires now < TarFormat.Pow8(11) && OwnerFits(env)
    ensures Legal(PackOps(b, s, now, |b.blocks|))
    ensures |Bytes(Run(PackOps(b, s, now, |b.blocks|), env), env)| == Size(b)
  {
    hide TarFormat.Pow8, Legal, Groups, Outputs, Run;
    PackOpsGroup(b, s, now, |b.blocks|);
    assert b.plain[..|b.blocks|] == b.plain;
    var w := Run(PackOps(b, s, now, |b.blocks|), env);
    hide PackOps;
    TarFormat.HeaderLength(TarFormat.OpenFields(w.open.value.name, env.uid, env.gid));
    assert TarFormat.Archive([]) == [];
  }

  /** Restoring: a TAR reader finds in the file of a generated bundle one payload, the manifest and
      its digest; the payload decompresses to contents that hash, block by block and in order, to the
      digests the manifest lists. */
  lemma GeneratedBundlesRestore(b: Contents, s: Services, data: seq<byte>, manifest: Manifest, env: Env, now: nat)
    requires Sealed(b, s) && CompressorLaw(s) && now < TarFormat.Pow8(11)
    requires IsBundleOf(data, manifest, BundleOps(b, s, now), env)
    ensures |manifest| == 1 && manifest[0].blocks == b.blocks && Distinct(b.blocks)
    ensures TarFormat.Read(data) == Some([TarFormat.File(PayloadName(0), b.content),
                                          TarFormat.File(ManifestName(), env.serialize(manifest)),
                                          TarFormat.File(ManifestDigestName(), env.digest(env.serialize(manifest)) + [10])])
    ensures s.decompress(b.content) == Some(Concat(b.plain))
    ensures |b.plain| == |b.blocks| && forall k :: 0 <= k < |b.blocks| ==> s.sha1(b.plain[k]) == b.blocks[k].digest
  {
    hide Groups, Outputs, TarFormat.Pow8, TarFormat.Read, Distinct, BundleOps, PayloadName, ManifestName, ManifestDigestName,
      FileAt, IsBundleOf;
    var ops := BundleOps(b, s, now);
    BundleOpsGroup(b, s, now);
    FinishedBundleReads(data, manifest, ops, env);
    ManifestPointsAtPayloads(data, manifest, ops, env, 0);
    OneFile(b.blocks, b.content, [TarFormat.File(ManifestName(), env.serialize(manifest)),
                                  TarFormat.File(ManifestDigestName(), env.digest(env.serialize(manifest)) + [10])]);
    assert s.decompress(Outputs(b.plain, s) + s.finish(b.plain)) == Some(Concat(b.plain));
  }

  lemma OneFile(blocks: seq<Block>, content: seq<byte>, more: seq<TarFormat.File>)
    requires |more| == 2
    ensures PayloadFiles([Group(COMPRESSION_TYPE_ZLIB, blocks, content)]) + more
         == [TarFormat.File(PayloadName(0), content), more[0], more[1]]
  {
  }

  lemma GeneratedIsSealed(m: Machine, s: Services, i: nat)
    requires Reachable(m, s) && i < |m.packing.finished|
    ensures Sealed(m.packing.finished[i], s)
  {
    hide Reachable, Inv, Sealed, History;
    ReachableInv(m, s);
    FinishedInAllStates(m, s);
  }
}
