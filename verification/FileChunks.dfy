// Cutting a file into chunks (chunk-hasher-impl.cc, chunk-reader-impl.cc).

module FileChunks {
  import opened Common

  datatype Chunk = Chunk(offset: nat, length: nat, digest: seq<byte>)

  /** What the reader returns for a chunk of a mapped file. */
  function Slice(file: seq<byte>, offset: nat, length: nat): seq<byte> {
    if offset < |file| && length > 0 then file[offset..Min(offset + length, |file|)] else []
  }

  /** The chunks of a file, cut every `max` bytes. */
  function Chunks(file: seq<byte>, max: nat, sha1: seq<byte> -> seq<byte>, from: nat): seq<Chunk>
    requires max > 0
    decreases |file| - from
  {
    if from >= |file| then []
    else
      var data := Slice(file, from, max);
      [Chunk(from, |data|, sha1(data))] + Chunks(file, max, sha1, from + max)
  }

  /** Chunk `i` of `n` is in its place: not empty, full unless it is the last, with its data's digest. */
  ghost predicate Placed(c: Chunk, i: nat, n: nat, file: seq<byte>, max: nat, sha1: seq<byte> -> seq<byte>, from: nat) {
    && c.offset == from + i * max
    && 0 < c.length <= max && (i < n - 1 ==> c.length == max)
    && c.offset + c.length <= |file|
    && c.digest == sha1(file[c.offset..c.offset + c.length])
  }

  /** The chunks lie end to end from `from`, each in its place, and their data put together are the rest of
      the file. */
  ghost predicate Tile(cs: seq<Chunk>, file: seq<byte>, max: nat, sha1: seq<byte> -> seq<byte>, from: nat) {
    && (forall i :: 0 <= i < |cs| ==> Placed(cs[i], i, |cs|, file, max, sha1, from))
    && Concat(Data(cs, file)) == if from < |file| then file[from..] else []
  }

  /** The bytes of each chunk. */
  function Data(cs: seq<Chunk>, file: seq<byte>): (data: seq<seq<byte>>)
    ensures |data| == |cs| && forall i :: 0 <= i < |cs| ==> data[i] == Slice(file, cs[i].offset, cs[i].length)
  {
    seq(|cs|, i requires 0 <= i < |cs| => Slice(file, cs[i].offset, cs[i].length))
  }

  /** The chunks tile the file. */
  lemma {:induction false} ChunksTile(file: seq<byte>, max: nat, sha1: seq<byte> -> seq<byte>, from: nat)
    requires max > 0
    ensures Tile(Chunks(file, max, sha1, from), file, max, sha1, from)
    decreases |file| - from
  {
    var cs := Chunks(file, max, sha1, from);
    if from < |file| {
      ChunksTile(file, max, sha1, from + max);
      OneTileMore(file, max, sha1, from, Chunks(file, max, sha1, from + max));
    } else {
      assert Data(cs, file) == [];
    }
  }

  lemma OneTileMore(file: seq<byte>, max: nat, sha1: seq<byte> -> seq<byte>, from: nat, rest: seq<Chunk>)
    requires max > 0 && from < |file| && Tile(rest, file, max, sha1, from + max)
    requires rest == [] <==> from + max >= |file|
    ensures Tile([Chunk(from, |Slice(file, from, max)|, sha1(Slice(file, from, max)))] + rest, file, max, sha1, from)
  {
    hide Placed, Concat, Data, Slice;
    var data := Slice(file, from, max);
    var first := Chunk(from, |data|, sha1(data));
    var cs := [first] + rest;
    FirstPlaced(file, max, sha1, from, |cs|);
    forall i | 0 <= i < |cs| ensures Placed(cs[i], i, |cs|, file, max, sha1, from) {
      if i > 0 {
        assert cs[i] == rest[i - 1];
        PlacedShift(rest[i - 1], i - 1, |rest|, file, max, sha1, from);
      }
    }
    FirstData(file, max, sha1, from, rest);
  }

  lemma FirstPlaced(file: seq<byte>, max: nat, sha1: seq<byte> -> seq<byte>, from: nat, n: nat)
    requires max > 0 && from < |file| && n > 0 && (n == 1 <==> from + max >= |file|)
    ensures Placed(Chunk(from, |Slice(file, from, max)|, sha1(Slice(file, from, max))), 0, n, file, max, sha1, from)
  {
    assert file[from..from + |Slice(file, from, max)|] == Slice(file, from, max);
  }

  lemma PlacedShift(c: Chunk, i: nat, n: nat, file: seq<byte>, max: nat, sha1: seq<byte> -> seq<byte>, from: nat)
    requires Placed(c, i, n, file, max, sha1, from + max)
    ensures Placed(c, i + 1, n + 1, file, max, sha1, from)
  {
    assert from + max + i * max == from + (i + 1) * max;
  }

  lemma FirstData(file: seq<byte>, max: nat, sha1: seq<byte> -> seq<byte>, from: nat, rest: seq<Chunk>)
    requires max > 0 && from < |file|
    requires Concat(Data(rest, file)) == if from + max < |file| then file[from + max..] else []
    ensures Concat(Data([Chunk(from, |Slice(file, from, max)|, sha1(Slice(file, from, max)))] + rest, file)) == file[from..]
  {
    hide Slice, Data, Concat;
    var first := Chunk(from, |Slice(file, from, max)|, sha1(Slice(file, from, max)));
    SliceAgain(file, from, max);
    DataCons(first, rest, file);
    ConcatAppend([Slice(file, from, max)], Data(rest, file));
    ConcatOne(Slice(file, from, max));
  }

  lemma SliceAgain(file: seq<byte>, from: nat, max: nat)
    requires max > 0 && from < |file|
    ensures Slice(file, from, |Slice(file, from, max)|) == Slice(file, from, max)
    ensures file[from..] == Slice(file, from, max) + if from + max < |file| then file[from + max..] else []
  {
  }

  lemma DataCons(c: Chunk, rest: seq<Chunk>, file: seq<byte>)
    ensures Data([c] + rest, file) == [Slice(file, c.offset, c.length)] + Data(rest, file)
  {
    hide Slice;
  }

  lemma ConcatOne(x: seq<byte>)
    ensures Concat([x]) == x
  {
    assert Concat([x]) == x + Concat<byte>([]);
  }

  lemma SamePlace(c: Chunk, d: Chunk, i: nat, n: nat, file: seq<byte>, max: nat, sha1: seq<byte> -> seq<byte>)
    requires Placed(c, i, n, file, max, sha1, 0) && Placed(d, i, n, file, max, sha1, 0)
    requires i < n && (i == n - 1 ==> c.offset + c.length == d.offset + d.length)
    ensures c == d
  {
  }

  /** The properties leave no choice: any tiling of the file is this one. */
  lemma TilingIsUnique(cs: seq<Chunk>, ds: seq<Chunk>, file: seq<byte>, max: nat, sha1: seq<byte> -> seq<byte>)
    requires max > 0 && Tile(cs, file, max, sha1, 0) && Tile(ds, file, max, sha1, 0)
    ensures cs == ds
  {
    hide Concat, Data, Placed;
    TileCount(cs, file, max, sha1);
    TileCount(ds, file, max, sha1);
    NotMore(|cs|, |ds|, max, |file|);
    NotMore(|ds|, |cs|, max, |file|);
    forall i | 0 <= i < |cs| ensures cs[i] == ds[i] {
      SamePlace(cs[i], ds[i], i, |cs|, file, max, sha1);
    }
  }

  lemma LastPlace(c: Chunk, n: nat, file: seq<byte>, max: nat, sha1: seq<byte> -> seq<byte>)
    requires n > 0 && Placed(c, n - 1, n, file, max, sha1, 0) && c.offset + c.length == |file|
    ensures |file| <= n * max && (n - 1) * max < |file|
  {
    assert (n - 1) * max + max == n * max;
  }

  /** A tiling ends where the file ends, and has as many chunks as that takes. */
  lemma TileCount(cs: seq<Chunk>, file: seq<byte>, max: nat, sha1: seq<byte> -> seq<byte>)
    requires max > 0 && Tile(cs, file, max, sha1, 0)
    ensures cs == [] ==> file == []
    ensures cs != [] ==> cs[|cs| - 1].offset + cs[|cs| - 1].length == |file|
    ensures |file| <= |cs| * max && (cs != [] ==> (|cs| - 1) * max < |file|)
  {
    hide Concat, Placed, Data;
    var n := |cs|;
    if n == 0 {
      assert Data(cs, file) == [];
      NothingToConcat<byte>();
    } else {
      DataLength(cs, n, file, max, sha1);
      assert Data(cs, file)[..n] == Data(cs, file);
      LastPlace(cs[n - 1], n, file, max, sha1);
    }
  }

  lemma NotMore(a: nat, b: nat, max: nat, size: nat)
    requires max > 0 && size <= b * max && (a > 0 ==> (a - 1) * max < size)
    ensures a <= b
  {
    if b <= a - 1 {
      TimesMonotone(b, a - 1, max);
    }
  }

  lemma TimesMonotone(a: nat, b: nat, m: nat)
    requires a <= b
    ensures a * m <= b * m
  {
    assert b * m == a * m + (b - a) * m;
  }

  lemma {:induction false} DataLength(cs: seq<Chunk>, k: nat, file: seq<byte>, max: nat, sha1: seq<byte> -> seq<byte>)
    requires max > 0 && Tile(cs, file, max, sha1, 0) && 0 < k <= |cs|
    ensures |Concat(Data(cs, file)[..k])| == cs[k - 1].offset + cs[k - 1].length
    decreases k
  {
    hide Concat, Data, Placed;
    var data := Data(cs, file);
    assert data[..k] == data[..k - 1] + [data[k - 1]];
    ConcatSnoc(data[..k - 1], data[k - 1]);
    assert Placed(cs[k - 1], k - 1, |cs|, file, max, sha1, 0);
    PlacedLength(cs[k - 1], k - 1, |cs|, file, max, sha1);
    if k > 1 {
      DataLength(cs, k - 1, file, max, sha1);
      assert Placed(cs[k - 2], k - 2, |cs|, file, max, sha1, 0);
      Adjoin(cs[k - 2], cs[k - 1], k - 2, |cs|, file, max, sha1);
    } else {
      assert data[..0] == [];
      NothingToConcat<byte>();
    }
  }

  lemma PlacedLength(c: Chunk, i: nat, n: nat, file: seq<byte>, max: nat, sha1: seq<byte> -> seq<byte>)
    requires Placed(c, i, n, file, max, sha1, 0)
    ensures |Slice(file, c.offset, c.length)| == c.length && (i == 0 ==> c.offset == 0)
  {
  }

  lemma Adjoin(c: Chunk, d: Chunk, i: nat, n: nat, file: seq<byte>, max: nat, sha1: seq<byte> -> seq<byte>)
    requires Placed(c, i, n, file, max, sha1, 0) && Placed(d, i + 1, n, file, max, sha1, 0) && i + 1 < n
    ensures c.offset + c.length == d.offset
  {
    assert i * max + max == (i + 1) * max;
  }

  lemma NothingToConcat<A>()
    ensures Concat<A>([]) == []
  {
  }

  /** A short block is the last one. */
  lemma LastBlock(file: seq<byte>, from: nat, max: nat, sha1: seq<byte> -> seq<byte>)
    requires max > 0 && |Slice(file, from, max)| < max
    ensures var data := Slice(file, from, max);
            && Chunks(file, max, sha1, from) == (if data == [] then [] else [Chunk(from, |data|, sha1(data))])
            && file[..Min(from, |file|)] + data == file
  {
    assert Chunks(file, max, sha1, from + max) == [];
  }

  /** After a full block the rest of the file follows. */
  lemma FullBlock(file: seq<byte>, from: nat, max: nat, sha1: seq<byte> -> seq<byte>)
    requires max > 0 && |Slice(file, from, max)| == max
    ensures var data := Slice(file, from, max);
            && Chunks(file, max, sha1, from) == [Chunk(from, max, sha1(data))] + Chunks(file, max, sha1, from + max)
            && from + max <= |file| && file[..Min(from, |file|)] + data == file[..from + max]
  {
  }

  /** Where the loop asks for a block after the one at `offset`, if that was not short. */
  function NextRequest(file: seq<byte>, max: nat, offset: nat): Option<nat> {
    var data := Slice(file, offset, max);
    if |data| < max then None else Some(offset + |data|)
  }

  /** Where it asks after `n` blocks. */
  function RequestAfter(file: seq<byte>, max: nat, n: nat): Option<nat> {
    if n == 0 then Some(0)
    else
      match RequestAfter(file, max, n - 1)
      case None => None
      case Some(offset) => NextRequest(file, max, offset)
  }

  lemma {:induction false} RequestsAdvance(file: seq<byte>, max: nat, n: nat)
    ensures max == 0 ==> RequestAfter(file, max, n) == Some(0)
    ensures RequestAfter(file, max, n).Some? ==> RequestAfter(file, max, n).value == n * max <= |file|
  {
    if n > 0 {
      RequestsAdvance(file, max, n - 1);
      assert n * max == (n - 1) * max + max;
    }
  }

  lemma AtLeast(n: nat, max: nat)
    requires max > 0
    ensures n * max >= n
  {
  }

  /** The loop ends exactly for positive block sizes; with size zero it asks for the same block for ever. */
  lemma LoopEnds(file: seq<byte>, max: nat)
    ensures (exists n :: RequestAfter(file, max, n).None?) <==> max > 0
  {
    if max > 0 {
      var n := |file| + 1;
      RequestsAdvance(file, max, n);
      AtLeast(n, max);
      assert RequestAfter(file, max, n).None?;
    } else {
      forall n: nat ensures RequestAfter(file, max, n).Some? {
        RequestsAdvance(file, max, n);
      }
    }
  }

  class ChunkReader {
    const file: seq<byte>

    constructor (file: seq<byte>)
      ensures this.file == file
    {
      this.file := file;
    }

    method ReadBlockDataForChunk(offset: nat, length: nat) returns (data: seq<byte>)
      ensures data == Slice(file, offset, length)
    {
      data := [];
      if offset < |file| && length > 0 {
        data := file[offset..Min(offset + length, |file|)];
      }
    }
  }

  /** One run over a file: the snapshot's chunks so far and the running hash of the whole file. */
  class ChunkHasher {
    const reader: ChunkReader
    const maxBlockSize: nat
    const sha1: seq<byte> -> seq<byte>
    var chunks: seq<Chunk>
    var wholeFile: seq<byte>
    var digest: Option<seq<byte>>

    constructor (reader: ChunkReader, maxBlockSize: nat, sha1: seq<byte> -> seq<byte>)
      ensures this.reader == reader && this.maxBlockSize == maxBlockSize && this.sha1 == sha1
      ensures chunks == [] && wholeFile == [] && digest.None?
    {
      this.reader, this.maxBlockSize, this.sha1 := reader, maxBlockSize, sha1;
      chunks, wholeFile, digest := [], [], None;
    }

    /** Nothing is done unless the file is regular and not empty. */
    method GenerateAndHashChunks(isRegular: bool, length: int)
      requires maxBlockSize > 0 && chunks == [] && wholeFile == [] && digest.None?
      modifies this
      ensures !isRegular || length <= 0 ==> chunks == [] && digest.None?
      ensures isRegular && length > 0 ==>
                Tile(chunks, reader.file, maxBlockSize, sha1, 0) && digest == Some(sha1(reader.file))
    {
      if isRegular && length > 0 {
        assert reader.file[..0] == [];
        ContinueGeneratingAndHashingChunks(0);
        ChunksTile(reader.file, maxBlockSize, sha1, 0);
        assert [] + Chunks(reader.file, maxBlockSize, sha1, 0) == Chunks(reader.file, maxBlockSize, sha1, 0);
      }
    }

    /** Asks for the block after the last chunk, which ends at `offset`. */
    method ContinueGeneratingAndHashingChunks(offset: nat)
      requires maxBlockSize > 0
      requires offset == if chunks == [] then 0 else chunks[|chunks| - 1].offset + chunks[|chunks| - 1].length
      requires wholeFile == reader.file[..Min(offset, |reader.file|)]
      modifies this
      ensures chunks == old(chunks) + Chunks(reader.file, maxBlockSize, sha1, offset)
      ensures digest == Some(sha1(reader.file))
      decreases Max(0, |reader.file| - offset), 1
    {
      chunks := chunks + [Chunk(offset, maxBlockSize, [])];
      var data := reader.ReadBlockDataForChunk(offset, maxBlockSize);
      UpdateHashesFromBlockData(data);
    }

    /** The block arrived: an empty one is no chunk, and a short one is the last. */
    method UpdateHashesFromBlockData(data: seq<byte>)
      requires maxBlockSize > 0 && chunks != []
      requires chunks[|chunks| - 1].length == maxBlockSize
      requires data == Slice(reader.file, chunks[|chunks| - 1].offset, maxBlockSize) && |data| <= maxBlockSize
      requires wholeFile == reader.file[..Min(chunks[|chunks| - 1].offset, |reader.file|)]
      modifies this
      ensures chunks == old(chunks)[..|old(chunks)| - 1]
                        + Chunks(reader.file, maxBlockSize, sha1, old(chunks)[|old(chunks)| - 1].offset)
      ensures digest == Some(sha1(reader.file))
      decreases Max(0, |reader.file| - chunks[|chunks| - 1].offset), 0
    {
      hide Chunks, Slice;
      var current := chunks[|chunks| - 1];
      var expectedDataLength := current.length;
      chunks := chunks[..|chunks| - 1];
      ghost var before := chunks;
      if |data| > 0 {
        chunks := chunks + [Chunk(current.offset, |data|, sha1(data))];
        wholeFile := wholeFile + data;
      }
      if |data| < expectedDataLength {
        LastBlock(reader.file, current.offset, maxBlockSize, sha1);
        assert before + [] == before && wholeFile == reader.file;
        digest := Some(sha1(wholeFile));
      } else {
        FullBlock(reader.file, current.offset, maxBlockSize, sha1);
        ContinueGeneratingAndHashingChunks(current.offset + |data|);
        Associate(before, Chunk(current.offset, |data|, sha1(data)),
                  Chunks(reader.file, maxBlockSize, sha1, current.offset + maxBlockSize));
      }
    }
  }

  lemma Associate(a: seq<Chunk>, c: Chunk, b: seq<Chunk>)
    ensures a + [c] + b == a + ([c] + b)
  {
  }
}
