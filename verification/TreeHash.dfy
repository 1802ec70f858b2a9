// The bundle hasher: cutting a list of buffers into fixed-size pieces while streaming them through
// one engine, and reducing the piece digests level by level to the root of a hash tree.

module TreeHash {
  import opened Common

  /** SHA-256 is left abstract. */
  type Hash = seq<byte> -> seq<byte>

  // ---------------------------------------------------------------------------------------------
  // The tree over a list of digests

  /** One level of the reduction: neighbours are hashed together, an odd last digest is promoted. */
  function PairLevel(h: Hash, level: seq<seq<byte>>): (next: seq<seq<byte>>)
    ensures |next| == (|level| + 1) / 2
  {
    if |level| <= 1 then level else [h(level[0] + level[1])] + PairLevel(h, level[2..])
  }

  /** The root that repeated pairing leaves. */
  function TreeRoot(h: Hash, leaves: seq<seq<byte>>): seq<byte>
    requires leaves != []
    decreases |leaves|
  {
    if |leaves| == 1 then leaves[0] else TreeRoot(h, PairLevel(h, leaves))
  }

  predicate IsPowerOfTwo(k: nat) {
    k == 1 || (k > 1 && k % 2 == 0 && IsPowerOfTwo(k / 2))
  }

  /** The largest power of two below `n`. */
  function SplitPoint(n: nat): (k: nat)
    requires n >= 2
    ensures IsPowerOfTwo(k) && k < n <= 2 * k
  {
    Double(1, n)
  }

  function Double(k: nat, n: nat): (r: nat)
    requires IsPowerOfTwo(k) && k < n
    ensures IsPowerOfTwo(r) && r < n <= 2 * r
    decreases n - k
  {
    if n <= 2 * k then k else Double(2 * k, n)
  }

  /** The reference tree, split top down at the largest power of two (section 2.1 of RFC 6962,
      without its prefix bytes). */
  function TopDownRoot(h: Hash, leaves: seq<seq<byte>>): seq<byte>
    requires leaves != []
    decreases |leaves|
  {
    if |leaves| == 1 then leaves[0]
    else
      var k := SplitPoint(|leaves|);
      h(TopDownRoot(h, leaves[..k]) + TopDownRoot(h, leaves[k..]))
  }

  lemma {:induction false} PowersApart(a: nat, b: nat)
    requires IsPowerOfTwo(a) && IsPowerOfTwo(b) && a < b
    ensures 2 * a <= b
    decreases a
  {
    if a != 1 {
      PowersApart(a / 2, b / 2);
    }
  }

  /** Halving a number of leaves halves the split point. */
  lemma SplitHalf(n: nat)
    requires n > 2
    ensures SplitPoint(n) == 2 * SplitPoint((n + 1) / 2)
  {
    var k, k' := SplitPoint(n), 2 * SplitPoint((n + 1) / 2);
    if k < k' {
      PowersApart(k, k');
    } else if k' < k {
      PowersApart(k', k);
    }
  }

  /** Pairing a list piecewise, cut at an even position. */
  lemma {:induction false} PairSplit(h: Hash, a: seq<seq<byte>>, b: seq<seq<byte>>)
    requires |a| % 2 == 0
    ensures PairLevel(h, a + b) == PairLevel(h, a) + PairLevel(h, b)
    decreases |a|
  {
    if a == [] {
      assert a + b == b;
    } else {
      assert (a + b)[2..] == a[2..] + b;
      PairSplit(h, a[2..], b);
    }
  }

  /** Above two leaves, the halves of the paired list are the paired halves. */
  lemma PairedHalves(h: Hash, leaves: seq<seq<byte>>)
    requires |leaves| > 2
    ensures var k, paired := SplitPoint(|leaves|), PairLevel(h, leaves);
            && k >= 2 && k / 2 == SplitPoint(|paired|)
            && paired[..k / 2] == PairLevel(h, leaves[..k]) && paired[k / 2..] == PairLevel(h, leaves[k..])
  {
    var k := SplitPoint(|leaves|);
    SplitHalf(|leaves|);
    hide PairLevel, SplitPoint, Double, IsPowerOfTwo;
    CutAt(leaves, k);
    PairSplit(h, leaves[..k], leaves[k..]);
    CutBack(PairLevel(h, leaves[..k]), PairLevel(h, leaves[k..]));
  }

  lemma CutAt<T>(s: seq<T>, k: nat)
    requires k <= |s|
    ensures s == s[..k] + s[k..]
  {
  }

  lemma CutBack<T>(a: seq<T>, b: seq<T>)
    ensures (a + b)[..|a|] == a && (a + b)[|a|..] == b
  {
  }

  /** One level of pairing does not change the top-down root. */
  lemma {:induction false} PairingKeepsRoot(h: Hash, leaves: seq<seq<byte>>)
    requires leaves != []
    ensures TopDownRoot(h, PairLevel(h, leaves)) == TopDownRoot(h, leaves)
    decreases |leaves|
  {
    var n, paired := |leaves|, PairLevel(h, leaves);
    if n == 2 {
      assert SplitPoint(2) == 1;
      assert paired == [h(leaves[0] + leaves[1])];
    } else if n > 2 {
      var k := SplitPoint(n);
      PairedHalves(h, leaves);
      hide PairLevel;
      PairingKeepsRoot(h, leaves[..k]);
      PairingKeepsRoot(h, leaves[k..]);
    }
  }

  /** Level-by-level pairing with the odd digest promoted computes the top-down tree. */
  lemma {:induction false} LevelsMeetTopDown(h: Hash, leaves: seq<seq<byte>>)
    requires leaves != []
    ensures TreeRoot(h, leaves) == TopDownRoot(h, leaves)
    decreases |leaves|
  {
    if |leaves| > 1 {
      PairingKeepsRoot(h, leaves);
      LevelsMeetTopDown(h, PairLevel(h, leaves));
    }
  }

  // ---------------------------------------------------------------------------------------------
  // What is hashed on the way

  function LevelInputs(level: seq<seq<byte>>): (inputs: seq<seq<byte>>)
    ensures |inputs| == |level| / 2
  {
    if |level| <= 1 then [] else [level[0] + level[1]] + LevelInputs(level[2..])
  }

  /** Every input given to the node hash, in the order of the reduction. */
  function NodeInputs(h: Hash, leaves: seq<seq<byte>>): seq<seq<byte>>
    decreases |leaves|
  {
    if |leaves| <= 1 then [] else LevelInputs(leaves) + NodeInputs(h, PairLevel(h, leaves))
  }

  lemma {:induction false} NodeCount(h: Hash, leaves: seq<seq<byte>>)
    requires leaves != []
    ensures |NodeInputs(h, leaves)| == |leaves| - 1
    decreases |leaves|
  {
    if |leaves| > 1 {
      NodeCount(h, PairLevel(h, leaves));
    }
  }

  /** Every digest in the list has the hash's output length. */
  ghost predicate Uniform(h: Hash, size: nat, leaves: seq<seq<byte>>) {
    && (forall x :: |h(x)| == size)
    && (forall i :: 0 <= i < |leaves| ==> |leaves[i]| == size)
  }

  /** Equal levels come from equal lists, or two different inputs of the node hash collide. */
  lemma {:induction false} EqualLevels(h: Hash, size: nat, a: seq<seq<byte>>, b: seq<seq<byte>>)
    returns (x: seq<byte>, y: seq<byte>)
    requires |a| == |b| && Uniform(h, size, a) && Uniform(h, size, b) && PairLevel(h, a) == PairLevel(h, b)
    ensures a == b || (x != y && h(x) == h(y) && x in LevelInputs(a) && y in LevelInputs(b))
    decreases |a|
  {
    x, y := [], [];
    if |a| >= 2 {
      var x0, y0 := a[0] + a[1], b[0] + b[1];
      assert PairLevel(h, a)[0] == h(x0) && PairLevel(h, b)[0] == h(y0);
      assert PairLevel(h, a)[1..] == PairLevel(h, a[2..]) && PairLevel(h, b)[1..] == PairLevel(h, b[2..]);
      if x0 != y0 {
        x, y := x0, y0;
      } else {
        assert a[0] == x0[..size] && b[0] == y0[..size] && a[1] == x0[size..] && b[1] == y0[size..];
        x, y := EqualLevels(h, size, a[2..], b[2..]);
        if a[2..] == b[2..] {
          assert a == [a[0], a[1]] + a[2..] && b == [b[0], b[1]] + b[2..];
        }
      }
    }
  }

  lemma {:induction false} PairedUniform(h: Hash, size: nat, leaves: seq<seq<byte>>)
    requires Uniform(h, size, leaves)
    ensures Uniform(h, size, PairLevel(h, leaves))
    decreases |leaves|
  {
    if |leaves| >= 2 {
      PairedUniform(h, size, leaves[2..]);
    }
  }

  /** Equal roots over equally many leaves force equal leaves, unless two different inputs that the
      two reductions hashed have the same digest; those inputs are returned. */
  lemma {:induction false} RootForcesLeaves(h: Hash, size: nat, a: seq<seq<byte>>, b: seq<seq<byte>>)
    returns (x: seq<byte>, y: seq<byte>)
    requires a != [] && |a| == |b| && Uniform(h, size, a) && Uniform(h, size, b)
    requires TreeRoot(h, a) == TreeRoot(h, b)
    ensures a == b || (x != y && h(x) == h(y) && x in NodeInputs(h, a) && y in NodeInputs(h, b))
    decreases |a|
  {
    x, y := [], [];
    if |a| > 1 {
      var a', b' := PairLevel(h, a), PairLevel(h, b);
      PairedUniform(h, size, a);
      PairedUniform(h, size, b);
      x, y := RootForcesLeaves(h, size, a', b');
      if a' == b' {
        x, y := EqualLevels(h, size, a, b);
      }
    }
  }

  // ---------------------------------------------------------------------------------------------
  // Pieces of a byte stream

  /** The complete pieces of `size` bytes at the front of the data. */
  function Complete(size: nat, data: seq<byte>): seq<seq<byte>>
    requires size > 0
  {
    if |data| < size then [] else [data[..size]] + Complete(size, data[size..])
  }

  /** What the complete pieces leave over. */
  function Rest(size: nat, data: seq<byte>): (r: seq<byte>)
    requires size > 0
    ensures |r| < size
  {
    if |data| < size then data else Rest(size, data[size..])
  }

  /** The data cut into pieces; only the last one may be short, and none is empty. */
  function Pieces(size: nat, data: seq<byte>): seq<seq<byte>>
    requires size > 0
  {
    Complete(size, data) + if Rest(size, data) == [] then [] else [Rest(size, data)]
  }

  /** The pieces tile the data: end to end they are the data, each full except perhaps the last. */
  lemma {:induction false} PiecesTile(size: nat, data: seq<byte>)
    requires size > 0
    ensures Concat(Pieces(size, data)) == data
    ensures forall i :: 0 <= i < |Pieces(size, data)| ==>
              0 < |Pieces(size, data)[i]| <= size && (i < |Pieces(size, data)| - 1 ==> |Pieces(size, data)[i]| == size)
  {
    var pieces := Pieces(size, data);
    if |data| < size {
      if data != [] {
        assert pieces == [data];
        assert Concat([data]) == data + Concat<byte>([]);
      }
    } else {
      var rest := Pieces(size, data[size..]);
      PiecesTile(size, data[size..]);
      assert pieces == [data[..size]] + rest;
      assert Concat(pieces) == data[..size] + Concat(rest);
      forall i | 0 <= i < |pieces|
        ensures 0 < |pieces[i]| <= size && (i < |pieces| - 1 ==> |pieces[i]| == size)
      {
        if i > 0 {
          assert pieces[i] == rest[i - 1];
        }
      }
    }
  }

  /** Cutting a longer stream goes on from what was left over. */
  lemma {:induction false} CutOn(size: nat, a: seq<byte>, b: seq<byte>)
    requires size > 0
    ensures Complete(size, a + b) == Complete(size, a) + Complete(size, Rest(size, a) + b)
    ensures Rest(size, a + b) == Rest(size, Rest(size, a) + b)
    decreases |a|
  {
    if |a| >= size {
      assert (a + b)[..size] == a[..size] && (a + b)[size..] == a[size..] + b;
      CutOn(size, a[size..], b);
    }
  }

  function Digests(h: Hash, pieces: seq<seq<byte>>): seq<seq<byte>> {
    seq(|pieces|, i requires 0 <= i < |pieces| => h(pieces[i]))
  }

  /** A full piece appended to nothing left over. */
  lemma OnePiece(size: nat, before: seq<byte>, piece: seq<byte>)
    requires size > 0 && |Rest(size, before)| + |piece| == size
    ensures Complete(size, before + piece) == Complete(size, before) + [Rest(size, before) + piece]
    ensures Rest(size, before + piece) == []
  {
    CutOn(size, before, piece);
    var p := Rest(size, before) + piece;
    assert p[..size] == p && p[size..] == [];
    assert Complete(size, p) == [p] + Complete(size, p[size..]);
  }

  /** A short tail appended to nothing left over stays left over. */
  lemma ShortTail(size: nat, before: seq<byte>, tail: seq<byte>)
    requires size > 0 && |Rest(size, before)| + |tail| < size
    ensures Complete(size, before + tail) == Complete(size, before)
    ensures Rest(size, before + tail) == Rest(size, before) + tail
  {
    CutOn(size, before, tail);
  }

  // ---------------------------------------------------------------------------------------------
  // The hasher

  /** A hash engine: Update adds bytes, Final gives their digest and starts over. */
  class Sha256 {
    const hash: Hash
    var buffered: seq<byte>

    constructor (hash: Hash)
      ensures this.hash == hash && buffered == []
    {
      this.hash := hash;
      buffered := [];
    }

    method Update(input: seq<byte>)
      modifies this
      ensures buffered == old(buffered) + input
    {
      buffered := buffered + input;
    }

    method Final() returns (digest: seq<byte>)
      modifies this
      ensures digest == hash(old(buffered)) && buffered == []
    {
      digest := hash(buffered);
      buffered := [];
    }

    method CalculateDigest(input: seq<byte>) returns (digest: seq<byte>)
      modifies this
      ensures digest == hash(old(buffered) + input) && buffered == []
    {
      Update(input);
      digest := Final();
    }
  }

  const DIGEST_SIZE: nat := 32
  const TREE_HASH_INTERMEDIATE_DIGEST_DATA_SIZE: nat := 1024 * 1024

  /** Tops up a piece begun in earlier buffers, as far as the new data reaches. */
  method FillPiece(engine: Sha256, data: seq<byte>, size: nat, digestsIn: seq<seq<byte>>, bytesIn: nat,
                   ghost before: seq<byte>)
    returns (digests: seq<seq<byte>>, bytesInCurrent: nat, offset: nat)
    requires size > 0
    requires engine.buffered == Rest(size, before) && bytesIn == |engine.buffered|
    requires digestsIn == Digests(engine.hash, Complete(size, before))
    modifies engine
    ensures offset <= |data| && engine.buffered == Rest(size, before + data[..offset])
    ensures bytesInCurrent == |engine.buffered| && (bytesInCurrent > 0 ==> offset == |data|)
    ensures digests == Digests(engine.hash, Complete(size, before + data[..offset]))
  {
    digests, bytesInCurrent, offset := digestsIn, bytesIn, 0;
    if bytesInCurrent > 0 {
      offset := Min(|data|, size - bytesInCurrent);
      engine.Update(data[..offset]);
      bytesInCurrent := bytesInCurrent + offset;
    }
    if bytesInCurrent == size {
      OnePiece(size, before, data[..offset]);
      var digest := engine.Final();
      digests := digests + [digest];
      bytesInCurrent := 0;
    } else {
      ShortTail(size, before, data[..offset]);
    }
  }

  /** One buffer goes through the tree engine. `before` is everything hashed so far; between buffers
      the engine holds exactly the bytes counted as belonging to the current piece. */
  method HashBuffer(engine: Sha256, data: seq<byte>, size: nat, digestsIn: seq<seq<byte>>, bytesIn: nat,
                    ghost before: seq<byte>)
    returns (digests: seq<seq<byte>>, bytesInCurrent: nat)
    requires size > 0
    requires engine.buffered == Rest(size, before) && bytesIn == |engine.buffered|
    requires digestsIn == Digests(engine.hash, Complete(size, before))
    modifies engine
    ensures engine.buffered == Rest(size, before + data) && bytesInCurrent == |engine.buffered|
    ensures digests == Digests(engine.hash, Complete(size, before + data))
  {
    var offset;
    digests, bytesInCurrent, offset := FillPiece(engine, data, size, digestsIn, bytesIn, before);
    hide Rest, Complete;
    if |data| >= size {
      while offset <= |data| - size
        invariant offset <= |data|
        invariant bytesInCurrent == |engine.buffered| && (bytesInCurrent > 0 ==> offset == |data|)
        invariant engine.buffered == Rest(size, before + data[..offset])
        invariant digests == Digests(engine.hash, Complete(size, before + data[..offset]))
      {
        assert before + data[..offset + size] == (before + data[..offset]) + data[offset..offset + size];
        OnePiece(size, before + data[..offset], data[offset..offset + size]);
        var digest := engine.CalculateDigest(data[offset..offset + size]);
        digests := digests + [digest];
        offset := offset + size;
      }
    }
    assert before + data == (before + data[..offset]) + data[offset..];
    if offset != |data| {
      ShortTail(size, before + data[..offset], data[offset..]);
      engine.Update(data[offset..]);
      bytesInCurrent := |data| - offset;
    } else {
      assert data[..offset] == data;
    }
  }

  /** Both digests of a list of buffers depend on their concatenation only. With no byte at all the
      tree digest stays as it was allocated. */
  method HashData(hash: Hash, sequentialData: seq<seq<byte>>)
    returns (linearDigest: seq<byte>, treeDigest: seq<byte>)
    ensures linearDigest == hash(Concat(sequentialData))
    ensures treeDigest == if Concat(sequentialData) == [] then Repeat(0, DIGEST_SIZE)
                          else TreeRoot(hash, Digests(hash, Pieces(TREE_HASH_INTERMEDIATE_DIGEST_DATA_SIZE,
                                                                   Concat(sequentialData))))
  {
    var size := TREE_HASH_INTERMEDIATE_DIGEST_DATA_SIZE;
    var linearEngine := new Sha256(hash);
    var treeEngine := new Sha256(hash);
    var digests, bytesInCurrent := [], 0;
    ghost var all := [];
    for i := 0 to |sequentialData|
      invariant linearEngine != treeEngine
      invariant all == Concat(sequentialData[..i])
      invariant linearEngine.buffered == all
      invariant treeEngine.buffered == Rest(size, all) && bytesInCurrent == |treeEngine.buffered|
      invariant digests == Digests(hash, Complete(size, all))
    {
      var data := sequentialData[i];
      assert sequentialData[..i + 1] == sequentialData[..i] + [data];
      ConcatSnoc(sequentialData[..i], data);
      if data != [] {
        linearEngine.Update(data);
        digests, bytesInCurrent := HashBuffer(treeEngine, data, size, digests, bytesInCurrent, all);
      }
      all := all + data;
    }
    assert sequentialData[..|sequentialData|] == sequentialData;
    if bytesInCurrent != 0 {
      var digest := treeEngine.Final();
      digests := digests + [digest];
    }
    assert digests == Digests(hash, Pieces(size, all));
    linearDigest := linearEngine.Final();
    PiecesTile(size, all);
    treeDigest := ComputeFinalTreeHash(hash, digests, Repeat(0, DIGEST_SIZE));
  }

  /** A loop fills the next level with one digest for each pair. */
  method NextLevel(hash: Hash, digests: seq<seq<byte>>) returns (nextLevel: seq<seq<byte>>)
    requires |digests| >= 2
    ensures nextLevel == PairLevel(hash, digests)
  {
    nextLevel := [];
    var left := 0;
    assert PairLevel(hash, digests[..0]) == [];
    hide PairLevel;
    while left < |digests| - 1
      invariant 0 <= left <= |digests| && left % 2 == 0
      invariant nextLevel == PairLevel(hash, digests[..left])
    {
      var digest := HashPair(hash, digests[left], digests[left + 1]);
      PairOnce(hash, digests, left);
      nextLevel := nextLevel + [digest];
      left := left + 2;
    }
    OddLast(hash, digests, left);
    if |digests| % 2 != 0 {
      nextLevel := nextLevel + [digests[|digests| - 1]];
    }
  }

  method HashPair(hash: Hash, a: seq<byte>, b: seq<byte>) returns (digest: seq<byte>)
    ensures digest == hash(a + b)
  {
    var engine := new Sha256(hash);
    engine.Update(a);
    engine.Update(b);
    digest := engine.Final();
    assert [] + a + b == a + b;
  }

  /** The last digest of an odd number is promoted. */
  lemma OddLast(h: Hash, digests: seq<seq<byte>>, left: nat)
    requires left % 2 == 0 && |digests| - 1 <= left <= |digests|
    ensures PairLevel(h, digests)
         == PairLevel(h, digests[..left]) + if |digests| % 2 != 0 then [digests[|digests| - 1]] else []
  {
    hide PairLevel;
    if left == |digests| {
      assert digests[..left] == digests;
    } else {
      CutAt(digests, left);
      OneLeft(digests, left);
      PairSplit(h, digests[..left], digests[left..]);
      PairNone(h, digests[left]);
    }
  }

  lemma OneLeft<T>(s: seq<T>, left: nat)
    requires left + 1 == |s|
    ensures s[left..] == [s[left]]
  {
  }

  lemma PairNone(h: Hash, x: seq<byte>)
    ensures PairLevel(h, [x]) == [x]
  {
  }

  lemma PairOnce(h: Hash, digests: seq<seq<byte>>, left: nat)
    requires left % 2 == 0 && left + 2 <= |digests|
    ensures PairLevel(h, digests[..left + 2]) == PairLevel(h, digests[..left]) + [h(digests[left] + digests[left + 1])]
  {
    var pair := digests[left..left + 2];
    assert digests[..left + 2] == digests[..left] + pair;
    PairSplit(h, digests[..left], pair);
    assert PairLevel(h, pair) == [h(pair[0] + pair[1])] + PairLevel(h, pair[2..]);
  }

  method ComputeFinalTreeHash(hash: Hash, digests: seq<seq<byte>>, unset: seq<byte>) returns (treeDigest: seq<byte>)
    ensures treeDigest == if digests == [] then unset else TreeRoot(hash, digests)
    decreases |digests|
  {
    if |digests| == 0 {
      treeDigest := unset;
    } else if |digests| == 1 {
      treeDigest := digests[0];
    } else {
      var nextLevel := NextLevel(hash, digests);
      treeDigest := ComputeFinalTreeHash(hash, nextLevel, unset);
    }
  }
}
