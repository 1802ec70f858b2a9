// Recording snapshots in the metadata database (metadata-db-impl.cc, metadata-schema.sql). Tables are
// finite maps from row ids; statements succeed.

module MetadataDb {
  import opened Common

  // ---------------------------------------------------------------------------------------------
  // Tables

  datatype BlockRow = BlockRow(digest: seq<byte>, length: int)

  /** A row of files_to_blocks. */
  datatype MappingRow = MappingRow(file: nat, block: nat, offset: int, time: int)

  datatype SnapshotRow = SnapshotRow(file: nat, time: int)

  /** `cache` is local_snapshots_to_files_to_blocks: pairs of a snapshot id and a files_to_blocks id. */
  datatype Tables = Tables(
    files: map<string, nat>, blocks: map<nat, BlockRow>, mappings: map<nat, MappingRow>,
    snapshots: map<nat, SnapshotRow>, cache: set<(nat, nat)>,
    nextFile: nat, nextBlock: nat, nextMapping: nat, nextSnapshot: nat)

  // ---------------------------------------------------------------------------------------------
  // Snapshots being recorded; an id is set once it is known

  datatype Block = Block(id: Option<nat>, digest: seq<byte>, length: int)

  datatype Chunk = Chunk(id: Option<nat>, offset: int, block: Block, time: int)

  predicate IsRowOf(row: BlockRow, b: Block) {
    row.digest == b.digest && row.length == b.length
  }

  ghost predicate Known(blocks: map<nat, BlockRow>, b: Block) {
    exists id :: id in blocks && IsRowOf(blocks[id], b)
  }

  /** Block ids that are set are those of the blocks' rows. */
  ghost predicate BlockIdsRight(blocks: map<nat, BlockRow>, cs: seq<Chunk>) {
    forall i :: 0 <= i < |cs| && cs[i].block.id.Some? ==>
      cs[i].block.id.value in blocks && IsRowOf(blocks[cs[i].block.id.value], cs[i].block)
  }

  /** Only ids (and observation times) may have been filled in. */
  predicate SameChunk(c: Chunk, c': Chunk) {
    && c'.offset == c.offset && c'.block.digest == c.block.digest && c'.block.length == c.block.length
    && (c.block.id.Some? ==> c'.block.id == c.block.id) && (c.id.Some? ==> c'.id == c.id)
  }

  ghost predicate SameChunks(cs: seq<Chunk>, cs': seq<Chunk>) {
    |cs'| == |cs| && forall i :: 0 <= i < |cs| ==> SameChunk(cs[i], cs'[i])
  }

  // ---------------------------------------------------------------------------------------------
  // What the tables promise

  ghost predicate IdsBelow(t: Tables) {
    && (forall path :: path in t.files ==> t.files[path] < t.nextFile)
    && (forall id :: id in t.blocks ==> id < t.nextBlock)
    && (forall id :: id in t.mappings ==> id < t.nextMapping)
    && (forall id :: id in t.snapshots ==> 0 < id < t.nextSnapshot)
    && t.nextSnapshot > 0
  }

  ghost predicate FilesDistinct(t: Tables) {
    forall p, q :: p in t.files && q in t.files && t.files[p] == t.files[q] ==> p == q
  }

  ghost predicate MappingsResolve(t: Tables) {
    && (forall id :: id in t.mappings ==> t.mappings[id].block in t.blocks && t.mappings[id].file < t.nextFile)
    && (forall id :: id in t.snapshots ==> t.snapshots[id].file < t.nextFile)
  }

  ghost predicate TimesDistinct(t: Tables) {
    forall r, s :: r in t.snapshots && s in t.snapshots && t.snapshots[r] == t.snapshots[s] ==> r == s
  }

  ghost predicate Newest(t: Tables, s: nat)
    requires s in t.snapshots
  {
    forall r :: r in t.snapshots && t.snapshots[r].file == t.snapshots[s].file ==>
      t.snapshots[r].time <= t.snapshots[s].time
  }

  /** The cache holds rows of the newest snapshots only, of the right file and with distinct offsets. */
  ghost predicate CacheRight(t: Tables) {
    && (forall s, r :: (s, r) in t.cache ==>
          s in t.snapshots && r in t.mappings && t.mappings[r].file == t.snapshots[s].file && Newest(t, s))
    && (forall s, q, r :: (s, q) in t.cache && (s, r) in t.cache ==>
          q in t.mappings && r in t.mappings && (t.mappings[q].offset == t.mappings[r].offset ==> q == r))
  }

  ghost predicate Valid(t: Tables) {
    IdsBelow(t) && FilesDistinct(t) && MappingsResolve(t) && TimesDistinct(t) && CacheRight(t)
  }

  /** No two rows for the same contents. */
  ghost predicate BlocksUnique(blocks: map<nat, BlockRow>) {
    forall a, b :: a in blocks && b in blocks && blocks[a] == blocks[b] ==> a == b
  }

  /** Equal blocks within the snapshot are in the tables already. */
  ghost predicate NewBlocksDiffer(blocks: map<nat, BlockRow>, cs: seq<Chunk>) {
    forall i, j :: 0 <= i < j < |cs| && cs[i].block.digest == cs[j].block.digest && cs[i].block.length == cs[j].block.length ==>
      Known(blocks, cs[i].block)
  }

  /** Row `r` of the previous snapshot has this chunk's block at this chunk's offset. */
  predicate Unchanged(t: Tables, previous: Option<nat>, c: Chunk, r: nat) {
    && previous.Some? && (previous.value, r) in t.cache && r in t.mappings
    && t.mappings[r].offset == c.offset && Some(t.mappings[r].block) == c.block.id
  }

  // ---------------------------------------------------------------------------------------------

  class Snapshot {
    const path: string
    const time: int
    var fileId: Option<nat>
    var id: Option<nat>
    var chunks: seq<Chunk>

    constructor (path: string, time: int, chunks: seq<Chunk>)
      ensures this.path == path && this.time == time && this.chunks == chunks && fileId.None? && id.None?
    {
      this.path, this.time, this.chunks, fileId, id := path, time, chunks, None, None;
    }
  }

  class Database {
    var t: Tables

    method SelectBlockId(b: Block) returns (id: Option<nat>)
      ensures id.Some? ==> id.value in t.blocks && IsRowOf(t.blocks[id.value], b)
      ensures id.None? ==> !Known(t.blocks, b)
    {
      id := None;
      if i :| i in t.blocks && IsRowOf(t.blocks[i], b) {
        id := Some(i);
      }
    }

    method FindExistingBlockIds(snapshot: Snapshot)
      requires BlockIdsRight(t.blocks, snapshot.chunks)
      modifies snapshot`chunks
      ensures SameChunks(old(snapshot.chunks), snapshot.chunks) && BlockIdsRight(t.blocks, snapshot.chunks)
      ensures forall i :: 0 <= i < |snapshot.chunks| ==>
                snapshot.chunks[i].id == old(snapshot.chunks)[i].id && snapshot.chunks[i].time == old(snapshot.chunks)[i].time
      ensures forall i :: 0 <= i < |snapshot.chunks| && snapshot.chunks[i].block.id.None? ==>
                !Known(t.blocks, snapshot.chunks[i].block)
    {
      ghost var before := snapshot.chunks;
      for i := 0 to |snapshot.chunks|
        invariant |snapshot.chunks| == |before| && snapshot.chunks[i..] == before[i..]
        invariant SameChunks(before, snapshot.chunks) && BlockIdsRight(t.blocks, snapshot.chunks)
        invariant forall k :: 0 <= k < |before| ==>
                    snapshot.chunks[k].id == before[k].id && snapshot.chunks[k].time == before[k].time
        invariant forall k :: 0 <= k < i && snapshot.chunks[k].block.id.None? ==> !Known(t.blocks, snapshot.chunks[k].block)
      {
        var chunk := snapshot.chunks[i];
        assert chunk == snapshot.chunks[i..][0] == before[i];
        if chunk.block.id.None? {
          var found := SelectBlockId(chunk.block);
          snapshot.chunks := snapshot.chunks[i := chunk.(block := chunk.block.(id := found))];
        }
      }
    }

    /** The offsets of a snapshot's cached rows. */
    method LatestChunks(snapshotId: nat) returns (latest: map<int, nat>)
      requires CacheRight(t)
      ensures forall offset :: offset in latest ==>
                (snapshotId, latest[offset]) in t.cache && t.mappings[latest[offset]].offset == offset
      ensures forall r :: (snapshotId, r) in t.cache ==>
                t.mappings[r].offset in latest && latest[t.mappings[r].offset] == r
    {
      latest := map[];
      var rows := set p | p in t.cache && p.0 == snapshotId :: p.1;
      ghost var all := rows;
      while rows != {}
        invariant rows <= all && forall r :: r in all <==> (snapshotId, r) in t.cache
        invariant forall offset :: offset in latest ==>
                    latest[offset] in all - rows && t.mappings[latest[offset]].offset == offset
        invariant forall r :: r in all - rows ==> t.mappings[r].offset in latest && latest[t.mappings[r].offset] == r
        decreases |rows|
      {
        var r :| r in rows;
        assert (snapshotId, r) in t.cache;
        latest := latest[t.mappings[r].offset := r];
        rows := rows - {r};
      }
    }

    /** Chunks whose block did not change since the previous snapshot get that row's id and time. */
    method FindExistingChunkIds(previous: Option<nat>, snapshot: Snapshot)
      requires CacheRight(t)
      modifies snapshot`chunks
      ensures SameChunks(old(snapshot.chunks), snapshot.chunks)
      ensures forall i :: 0 <= i < |snapshot.chunks| ==> snapshot.chunks[i].block == old(snapshot.chunks)[i].block
      ensures forall i :: 0 <= i < |snapshot.chunks| ==> ChunkFound(t, previous, old(snapshot.chunks)[i], snapshot.chunks[i])
    {
      ghost var before := snapshot.chunks;
      var latest := map[];
      if previous.Some? {
        latest := LatestChunks(previous.value);
      }
      for i := 0 to |snapshot.chunks|
        invariant |snapshot.chunks| == |before| && snapshot.chunks[i..] == before[i..]
        invariant SameChunks(before, snapshot.chunks)
        invariant forall k :: 0 <= k < |before| ==> snapshot.chunks[k].block == before[k].block
        invariant forall k :: 0 <= k < i ==> ChunkFound(t, previous, before[k], snapshot.chunks[k])
      {
        var chunk := snapshot.chunks[i];
        assert chunk == snapshot.chunks[i..][0] == before[i];
        if chunk.id.None? && chunk.offset in latest {
          var row := latest[chunk.offset];
          if Some(t.mappings[row].block) == chunk.block.id {
            snapshot.chunks := snapshot.chunks[i := chunk.(id := Some(row), time := t.mappings[row].time)];
            assert Unchanged(t, previous, before[i], row);
          }
        }
      }
    }

    /** Inserts a row for every block without an id; a block that comes twice is inserted twice. */
    method WriteNewBlocks(snapshot: Snapshot)
      requires BlockIdsRight(t.blocks, snapshot.chunks) && forall id :: id in t.blocks ==> id < t.nextBlock
      modifies this`t, snapshot`chunks
      ensures SameChunks(old(snapshot.chunks), snapshot.chunks)
      ensures t == old(t).(blocks := t.blocks, nextBlock := t.nextBlock)
      ensures BlockIdsRight(t.blocks, snapshot.chunks) && forall id :: id in t.blocks ==> id < t.nextBlock
      ensures BlocksWritten(old(t).blocks, old(snapshot.chunks), t.blocks, snapshot.chunks)
      ensures forall i :: 0 <= i < |snapshot.chunks| ==>
                snapshot.chunks[i].id == old(snapshot.chunks)[i].id && snapshot.chunks[i].time == old(snapshot.chunks)[i].time
    {
      hide BlocksWritten;
      ghost var before, blocks := snapshot.chunks, t.blocks;
      NothingWritten(blocks);
      for i := 0 to |snapshot.chunks|
        invariant |snapshot.chunks| == |before| && snapshot.chunks[i..] == before[i..]
        invariant SameChunks(before, snapshot.chunks) && t == old(t).(blocks := t.blocks, nextBlock := t.nextBlock)
        invariant BlockIdsRight(t.blocks, snapshot.chunks) && forall id :: id in t.blocks ==> id < t.nextBlock
        invariant BlocksWritten(blocks, before[..i], t.blocks, snapshot.chunks[..i])
        invariant forall k :: 0 <= k < |before| ==>
                    snapshot.chunks[k].id == before[k].id && snapshot.chunks[k].time == before[k].time
      {
        var chunk := snapshot.chunks[i];
        SameRest(snapshot.chunks, before, i);
        ghost var done, chunks := snapshot.chunks[..i], snapshot.chunks;
        ghost var soFar := t.blocks;
        if chunk.block.id.None? {
          var id := t.nextBlock;
          t := t.(blocks := t.blocks[id := BlockRow(chunk.block.digest, chunk.block.length)], nextBlock := id + 1);
          snapshot.chunks := snapshot.chunks[i := chunk.(block := chunk.block.(id := Some(id)))];
        }
        OneMoreDone(chunks, i, snapshot.chunks[i]);
        OneMoreDone(before, i, before[i]);
        OneBlockMore(blocks, before[..i], soFar, done, before[i], t.blocks, snapshot.chunks[i]);
      }
      assert before[..|before|] == before && snapshot.chunks[..|before|] == snapshot.chunks;
    }

    /** Inserts a row for every chunk without an id. */
    method WriteNewChunks(snapshot: Snapshot)
      requires snapshot.fileId.Some? && forall i :: 0 <= i < |snapshot.chunks| ==> snapshot.chunks[i].block.id.Some?
      requires forall id :: id in t.mappings ==> id < t.nextMapping
      modifies this`t, snapshot`chunks
      ensures SameChunks(old(snapshot.chunks), snapshot.chunks)
      ensures t == old(t).(mappings := t.mappings, nextMapping := t.nextMapping)
      ensures forall id :: id in t.mappings ==> id < t.nextMapping
      ensures ChunksWritten(old(t).mappings, snapshot.fileId.value, old(snapshot.chunks), t.mappings, snapshot.chunks)
    {
      ghost var before, mappings := snapshot.chunks, t.mappings;
      for i := 0 to |snapshot.chunks|
        invariant |snapshot.chunks| == |before| && snapshot.chunks[i..] == before[i..]
        invariant t == old(t).(mappings := t.mappings, nextMapping := t.nextMapping)
        invariant forall id :: id in t.mappings ==> id < t.nextMapping
        invariant ChunksWritten(mappings, snapshot.fileId.value, before[..i], t.mappings, snapshot.chunks[..i])
      {
        var chunk := snapshot.chunks[i];
        SameRest(snapshot.chunks, before, i);
        ghost var done, chunks := snapshot.chunks[..i], snapshot.chunks;
        ghost var soFar := t.mappings;
        if chunk.id.None? {
          var id := t.nextMapping;
          t := t.(mappings := t.mappings[id := MappingRow(snapshot.fileId.value, chunk.block.id.value, chunk.offset, chunk.time)],
                  nextMapping := id + 1);
          snapshot.chunks := snapshot.chunks[i := chunk.(id := Some(id))];
        }
        OneMoreDone(chunks, i, snapshot.chunks[i]);
        OneMoreDone(before, i, before[i]);
        OneChunkMore(mappings, snapshot.fileId.value, before[..i], soFar, done, before[i], t.mappings, snapshot.chunks[i]);
      }
      assert before[..|before|] == before && snapshot.chunks[..|before|] == snapshot.chunks;
    }

    method FindExistingFileId(snapshot: Snapshot)
      modifies snapshot`fileId
      ensures snapshot.fileId == if old(snapshot.fileId).Some? then old(snapshot.fileId)
                                 else if snapshot.path in t.files then Some(t.files[snapshot.path]) else None
    {
      if snapshot.fileId.None? && snapshot.path in t.files {
        snapshot.fileId := Some(t.files[snapshot.path]);
      }
    }

    /** The newest snapshot of a file. */
    method GetLatestSnapshotId(file: nat) returns (latest: Option<nat>)
      ensures latest.Some? ==> latest.value in t.snapshots && t.snapshots[latest.value].file == file && Newest(t, latest.value)
      ensures latest.None? ==> forall s :: s in t.snapshots ==> t.snapshots[s].file != file
    {
      latest := None;
      var rest := t.snapshots.Keys;
      while rest != {}
        invariant rest <= t.snapshots.Keys
        invariant latest.Some? ==> latest.value in t.snapshots && t.snapshots[latest.value].file == file
        invariant latest.Some? ==> forall s :: s in t.snapshots && s !in rest && t.snapshots[s].file == file ==>
                                     t.snapshots[s].time <= t.snapshots[latest.value].time
        invariant latest.None? ==> forall s :: s in t.snapshots && s !in rest ==> t.snapshots[s].file != file
        decreases |rest|
      {
        var s :| s in rest;
        if t.snapshots[s].file == file && (latest.None? || t.snapshots[s].time > t.snapshots[latest.value].time) {
          latest := Some(s);
        }
        rest := rest - {s};
      }
    }

    method WriteNewFile(snapshot: Snapshot)
      requires snapshot.fileId.None?
      modifies this`t, snapshot`fileId
      ensures snapshot.fileId == Some(old(t).nextFile)
      ensures t == old(t).(files := old(t).files[snapshot.path := old(t).nextFile], nextFile := old(t).nextFile + 1)
    {
      var id := t.nextFile;
      t := t.(files := t.files[snapshot.path := id], nextFile := id + 1);
      snapshot.fileId := Some(id);
    }

    method WriteNewSnapshot(snapshot: Snapshot)
      requires snapshot.fileId.Some? && snapshot.id.None?
      modifies this`t, snapshot`id
      ensures snapshot.id == Some(old(t).nextSnapshot)
      ensures t == old(t).(snapshots := old(t).snapshots[old(t).nextSnapshot := SnapshotRow(snapshot.fileId.value, snapshot.time)],
                           nextSnapshot := old(t).nextSnapshot + 1)
    {
      var id := t.nextSnapshot;
      t := t.(snapshots := t.snapshots[id := SnapshotRow(snapshot.fileId.value, snapshot.time)], nextSnapshot := id + 1);
      snapshot.id := Some(id);
    }

    /** Forgets the previous snapshot's rows and remembers this one's. */
    method UpdateLatestChunksCache(previous: Option<nat>, snapshot: Snapshot)
      requires snapshot.id.Some? && forall i :: 0 <= i < |snapshot.chunks| ==> snapshot.chunks[i].id.Some?
      modifies this`t
      ensures t == old(t).(cache := t.cache)
      ensures forall p :: p in t.cache <==>
                || (p in old(t).cache && Some(p.0) != previous)
                || (p.0 == snapshot.id.value && exists i :: 0 <= i < |snapshot.chunks| && snapshot.chunks[i].id == Some(p.1))
    {
      if previous.Some? {
        t := t.(cache := set p | p in t.cache && p.0 != previous.value);
      }
      ghost var kept := t.cache;
      for i := 0 to |snapshot.chunks|
        invariant t == old(t).(cache := t.cache)
        invariant forall p :: p in t.cache <==>
                    p in kept
                    || (p.0 == snapshot.id.value && exists k :: 0 <= k < i && snapshot.chunks[k].id == Some(p.1))
      {
        t := t.(cache := t.cache + {(snapshot.id.value, snapshot.chunks[i].id.value)});
      }
    }

    /** Looks up the ids of the file, its newest snapshot, the blocks and the unchanged chunks. */
    method FindExistingIds(snapshot: Snapshot) returns (previous: Option<nat>, ghost known: seq<Chunk>)
      requires Valid(t) && BlockIdsRight(t.blocks, snapshot.chunks) && Unrecorded(snapshot.chunks)
      requires snapshot.fileId.Some? ==> snapshot.path in t.files && t.files[snapshot.path] == snapshot.fileId.value
      modifies snapshot`fileId, snapshot`chunks
      ensures snapshot.fileId == if snapshot.path in t.files then Some(t.files[snapshot.path]) else None
      ensures previous.Some? ==> snapshot.fileId.Some? && previous.value in t.snapshots && Newest(t, previous.value)
                                 && t.snapshots[previous.value].file == snapshot.fileId.value
      ensures previous.None? ==>
                forall s :: s in t.snapshots ==>
                  t.snapshots[s].file != if snapshot.fileId.Some? then snapshot.fileId.value else t.nextFile
      ensures Found(t, previous, old(snapshot.chunks), known, snapshot.chunks)
    {
      hide Newest, Known, ChunkFound, IsRowOf, FilesDistinct, TimesDistinct, SameChunk, CacheRight;
      ghost var given := snapshot.chunks;
      FindExistingFileId(snapshot);
      previous := None;
      if snapshot.fileId.Some? {
        previous := GetLatestSnapshotId(snapshot.fileId.value);
      }
      FindExistingBlockIds(snapshot);
      known := snapshot.chunks;
      StillUnrecorded(given, known);
      FindExistingChunkIds(previous, snapshot);
      OffsetsKept(known, snapshot.chunks);
    }

    /** Records a snapshot: looks up what is known, inserts the rest, and remembers the snapshot's rows. */
    method RecordNewSnapshot(snapshot: Snapshot)
      requires Valid(t) && snapshot.id.None?
      requires snapshot.fileId.Some? ==> snapshot.path in t.files && t.files[snapshot.path] == snapshot.fileId.value
      requires BlockIdsRight(t.blocks, snapshot.chunks) && Unrecorded(snapshot.chunks)
      requires NewestYet(t, snapshot.path, snapshot.time)
      modifies this`t, snapshot
      ensures Valid(t) && snapshot.id.Some? && snapshot.fileId.Some?
      ensures snapshot.path in t.files && t.files[snapshot.path] == snapshot.fileId.value
      ensures SameChunks(old(snapshot.chunks), snapshot.chunks)
      ensures forall i :: 0 <= i < |snapshot.chunks| ==> RowRight(t, snapshot.fileId.value, snapshot.chunks[i])
      ensures CacheIsOf(t, snapshot.fileId.value, snapshot.id.value, snapshot.chunks)
      ensures RowsAdded(old(t), t, snapshot.chunks)
      ensures BlocksUnique(old(t).blocks) ==>
                (BlocksUnique(t.blocks) <==> NewBlocksDiffer(old(t).blocks, old(snapshot.chunks)))
      ensures BlocksUnique(old(t).blocks) ==>
                forall i :: 0 <= i < |snapshot.chunks| ==>
                  snapshot.chunks[i].id.Some?
                  && (snapshot.chunks[i].id.value in old(t).mappings
                      <==> CachedBefore(old(t), snapshot.path, snapshot.chunks[i]))
    {
      hide BlocksWritten, ChunksWritten, CacheRight, BlocksUnique, NewBlocksDiffer, CachedBefore, RowRight, CacheIsOf, RowsAdded,
        Found, SameChunk, FilesDistinct, TimesDistinct, NewestYet, IsRowOf, Newest;
      ghost var t0, given := t, snapshot.chunks;
      var previous: Option<nat>;
      ghost var known;
      previous, known := FindExistingIds(snapshot);
      ghost var found := snapshot.chunks;
      FoundRight(t, previous, given, known, found);
      if snapshot.fileId.None? {
        WriteNewFile(snapshot);
      }
      WriteNewBlocks(snapshot);
      ghost var written := snapshot.chunks;
      BlocksHaveIds(t0.blocks, found, t.blocks, written);
      WriteNewChunks(snapshot);
      WriteNewSnapshot(snapshot);
      ChunksHaveIds(t0.mappings, snapshot.fileId.value, written, t.mappings, snapshot.chunks);
      UpdateLatestChunksCache(previous, snapshot);
      ghost var r := Recording(t0, t, snapshot.path, snapshot.time, snapshot.fileId.value, snapshot.id.value, previous, given,
                               known, found, written, snapshot.chunks);
      assert PreviousIs(r);
      assert TablesGrow(r);
      assert CacheUpdated(r);
      assert ChunksStaged(r);
      assert Recorded(r);
      hide Recorded;
      RecordedRows(r);
      RecordedValid(r);
      RecordedCache(r);
      RecordedBlocks(r);
      RecordedChanges(r);
      RecordedSame(r);
    }
  }

  /** The chunks as given, with the known block ids, and with the unchanged rows' ids. */
  ghost predicate Found(t: Tables, previous: Option<nat>, given: seq<Chunk>, known: seq<Chunk>, found: seq<Chunk>) {
    && SameChunks(given, known) && BlockIdsRight(t.blocks, known) && Unrecorded(known)
    && (forall i :: 0 <= i < |known| && known[i].block.id.None? ==> !Known(t.blocks, known[i].block))
    && |found| == |known|
    && (forall i :: 0 <= i < |known| ==> found[i].block == known[i].block && found[i].offset == known[i].offset
                                         && ChunkFound(t, previous, known[i], found[i]))
  }

  lemma FoundRight(t: Tables, previous: Option<nat>, given: seq<Chunk>, known: seq<Chunk>, found: seq<Chunk>)
    requires Found(t, previous, given, known, found)
    ensures BlockIdsRight(t.blocks, found) && |found| == |given|
  {
    hide Known, ChunkFound, IsRowOf, SameChunk, Unrecorded;
    SameBlocks(t.blocks, known, found);
  }

  /** What FindExistingChunkIds does to a chunk. */
  ghost predicate ChunkFound(t: Tables, previous: Option<nat>, c: Chunk, c': Chunk) {
    && (c.id.Some? ==> c' == c)
    && (c.id.None? && c'.id.Some? ==>
          Unchanged(t, previous, c, c'.id.value) && c'.time == t.mappings[c'.id.value].time)
    && (c.id.None? && c'.id.None? ==> c' == c && forall r :: !Unchanged(t, previous, c, r))
  }

  /** Every chunk has its block's id; rows were added, one for each block that had none. */
  ghost predicate BlocksWritten(blocks: map<nat, BlockRow>, cs: seq<Chunk>, blocks': map<nat, BlockRow>, cs': seq<Chunk>) {
    && |cs'| == |cs|
    && (forall id :: id in blocks ==> id in blocks' && blocks'[id] == blocks[id])
    && (forall i :: 0 <= i < |cs'| ==>
          cs'[i].block.id.Some? && cs'[i].block.id.value in blocks' && IsRowOf(blocks'[cs'[i].block.id.value], cs'[i].block))
    && (forall i :: 0 <= i < |cs| && cs[i].block.id.None? ==> cs'[i].block.id.value !in blocks)
    && (forall i, j :: 0 <= i < j < |cs| && cs[i].block.id.None? && cs[j].block.id.None? ==>
          cs'[i].block.id != cs'[j].block.id)
    && (forall id :: id in blocks' && id !in blocks ==>
          exists i :: 0 <= i < |cs| && cs[i].block.id.None? && cs'[i].block.id == Some(id))
  }

  lemma SameRest<T>(a: seq<T>, b: seq<T>, i: nat)
    requires i < |a| == |b| && a[i..] == b[i..]
    ensures a[i] == b[i] && a[i + 1..] == b[i + 1..]
  {
    assert a[i] == a[i..][0] && a[i + 1..] == a[i..][1..] && b[i + 1..] == b[i..][1..];
  }

  lemma OneMoreDone<T>(s: seq<T>, i: nat, x: T)
    requires i < |s|
    ensures s[i := x][..i + 1] == s[..i] + [x] && s[i := x][i + 1..] == s[i + 1..]
    ensures s[i] == x ==> s[..i + 1] == s[..i] + [x]
  {
  }

  lemma NothingWritten(blocks: map<nat, BlockRow>)
    ensures BlocksWritten(blocks, [], blocks, [])
  {
  }

  lemma OneBlockMore(blocks: map<nat, BlockRow>, cs: seq<Chunk>, soFar: map<nat, BlockRow>, done: seq<Chunk>, c: Chunk,
                     blocks': map<nat, BlockRow>, c': Chunk)
    requires BlocksWritten(blocks, cs, soFar, done)
    requires if c.block.id.Some? then c' == c && blocks' == soFar && c.block.id.value in soFar
                                      && IsRowOf(soFar[c.block.id.value], c.block)
             else c'.block.id.Some? && c'.block.id.value !in soFar
                  && IsRowOf(BlockRow(c.block.digest, c.block.length), c'.block)
                  && blocks' == soFar[c'.block.id.value := BlockRow(c.block.digest, c.block.length)]
    ensures BlocksWritten(blocks, cs + [c], blocks', done + [c'])
  {
    hide IsRowOf;
    var all, all' := cs + [c], done + [c'];
    forall id | id in blocks' && id !in blocks
      ensures exists i :: 0 <= i < |all| && all[i].block.id.None? && all'[i].block.id == Some(id)
    {
      if id in soFar {
        var i :| 0 <= i < |cs| && cs[i].block.id.None? && done[i].block.id == Some(id);
        assert all[i] == cs[i] && all'[i] == done[i];
      } else {
        assert all[|cs|] == c && all'[|cs|] == c';
      }
    }
  }

  /** Every chunk has an id; rows were added, one for each chunk that had none, with its file, block,
      offset and time. */
  ghost predicate ChunksWritten(mappings: map<nat, MappingRow>, file: nat, cs: seq<Chunk>, mappings': map<nat, MappingRow>,
                                cs': seq<Chunk>) {
    && |cs'| == |cs|
    && (forall id :: id in mappings ==> id in mappings' && mappings'[id] == mappings[id])
    && (forall i :: 0 <= i < |cs| ==> cs'[i].id.Some? && cs'[i] == cs[i].(id := cs'[i].id))
    && (forall i :: 0 <= i < |cs| && cs[i].id.Some? ==> cs'[i] == cs[i])
    && (forall i :: 0 <= i < |cs| && cs[i].id.None? ==> NewRow(mappings, file, mappings', cs'[i]))
    && (forall id :: id in mappings' && id !in mappings ==>
          exists i :: 0 <= i < |cs| && cs[i].id.None? && cs'[i].id == Some(id))
  }

  ghost predicate NewRow(mappings: map<nat, MappingRow>, file: nat, mappings': map<nat, MappingRow>, c: Chunk) {
    && c.id.Some? && c.block.id.Some? && c.id.value !in mappings && c.id.value in mappings'
    && mappings'[c.id.value] == MappingRow(file, c.block.id.value, c.offset, c.time)
  }

  lemma OneChunkMore(mappings: map<nat, MappingRow>, file: nat, cs: seq<Chunk>, soFar: map<nat, MappingRow>, done: seq<Chunk>,
                     c: Chunk, mappings': map<nat, MappingRow>, c': Chunk)
    requires ChunksWritten(mappings, file, cs, soFar, done) && c.block.id.Some?
    requires if c.id.Some? then c' == c && mappings' == soFar
             else c'.id.Some? && c' == c.(id := c'.id) && c'.id.value !in soFar
                  && mappings' == soFar[c'.id.value := MappingRow(file, c.block.id.value, c.offset, c.time)]
    ensures ChunksWritten(mappings, file, cs + [c], mappings', done + [c'])
  {
    var all, all' := cs + [c], done + [c'];
    forall id | id in mappings' && id !in mappings
      ensures exists i :: 0 <= i < |all| && all[i].id.None? && all'[i].id == Some(id)
    {
      if id in soFar {
        var i :| 0 <= i < |cs| && cs[i].id.None? && done[i].id == Some(id);
        assert all[i] == cs[i] && all'[i] == done[i];
      } else {
        assert all[|cs|] == c && all'[|cs|] == c';
      }
    }
  }

  // ---------------------------------------------------------------------------------------------
  // What a recording does to the tables

  /** Not recorded before, with one chunk an offset. */
  ghost predicate Unrecorded(cs: seq<Chunk>) {
    && (forall i :: 0 <= i < |cs| ==> cs[i].id.None?)
    && (forall i, j :: 0 <= i < j < |cs| ==> cs[i].offset != cs[j].offset)
  }

  /** The snapshot was taken after all recorded ones of its file. */
  ghost predicate NewestYet(t: Tables, path: string, time: int) {
    forall s :: s in t.snapshots && path in t.files && t.snapshots[s].file == t.files[path] ==> t.snapshots[s].time < time
  }

  /** The chunk's row says the right file, block and offset, and the block's row the right contents. */
  ghost predicate RowRight(t: Tables, file: nat, c: Chunk) {
    && c.id.Some? && c.block.id.Some? && c.id.value in t.mappings
    && t.mappings[c.id.value].file == file && t.mappings[c.id.value].offset == c.offset
    && t.mappings[c.id.value].block == c.block.id.value
    && c.block.id.value in t.blocks && IsRowOf(t.blocks[c.block.id.value], c.block)
  }

  /** For this file, the cache holds exactly this snapshot's chunks, and it is the newest one. */
  ghost predicate CacheIsOf(t: Tables, file: nat, id: nat, cs: seq<Chunk>) {
    && id in t.snapshots && t.snapshots[id].file == file && Newest(t, id)
    && (forall s, r :: (s, r) in t.cache && s in t.snapshots && t.snapshots[s].file == file ==> s == id)
    && (forall r: nat :: (id, r) in t.cache <==> HasId(cs, r))
  }

  ghost predicate HasId(cs: seq<Chunk>, r: nat) {
    exists i :: 0 <= i < |cs| && cs[i].id == Some(r)
  }

  /** Old rows stay as they are, and each new row is a chunk's. */
  ghost predicate RowsAdded(t0: Tables, t: Tables, cs: seq<Chunk>) {
    && (forall r :: r in t0.mappings ==> r in t.mappings && t.mappings[r] == t0.mappings[r])
    && (forall r :: r in t.mappings && r !in t0.mappings ==> HasId(cs, r))
  }

  /** The cache has a row for these contents at this offset of the file. */
  ghost predicate CachedBefore(t: Tables, path: string, c: Chunk) {
    exists s, r :: (s, r) in t.cache && CachedAs(t, path, c, s, r)
  }

  ghost predicate CachedAs(t: Tables, path: string, c: Chunk, s: nat, r: nat) {
    && path in t.files && s in t.snapshots && t.snapshots[s].file == t.files[path]
    && r in t.mappings && t.mappings[r].offset == c.offset
    && t.mappings[r].block in t.blocks && IsRowOf(t.blocks[t.mappings[r].block], c.block)
  }

  /** One recording: the tables before and after, and the chunks at each stage. */
  datatype Recording = Recording(
    t0: Tables, t: Tables, path: string, time: int, file: nat, id: nat, previous: Option<nat>, given: seq<Chunk>,
    known: seq<Chunk>, found: seq<Chunk>, written: seq<Chunk>, recorded: seq<Chunk>)

  ghost predicate TablesGrow(r: Recording) {
    && r.file == (if r.path in r.t0.files then r.t0.files[r.path] else r.t0.nextFile)
    && r.t.files == r.t0.files[r.path := r.file]
    && r.t.nextFile == (if r.path in r.t0.files then r.t0.nextFile else r.t0.nextFile + 1)
    && r.id == r.t0.nextSnapshot && r.t.nextSnapshot == r.id + 1
    && r.t.snapshots == r.t0.snapshots[r.id := SnapshotRow(r.file, r.time)]
    && (forall id :: id in r.t.blocks ==> id < r.t.nextBlock) && (forall id :: id in r.t.mappings ==> id < r.t.nextMapping)
  }

  ghost predicate PreviousIs(r: Recording) {
    && (r.previous.Some? ==> r.previous.value in r.t0.snapshots && r.t0.snapshots[r.previous.value].file == r.file
                             && Newest(r.t0, r.previous.value))
    && (r.previous.None? ==> forall s :: s in r.t0.snapshots ==> r.t0.snapshots[s].file != r.file)
  }

  ghost predicate CacheUpdated(r: Recording) {
    forall s: nat, q: nat ::
      (s, q) in r.t.cache <==> ((s, q) in r.t0.cache && Some(s) != r.previous) || (s == r.id && HasId(r.recorded, q))
  }

  ghost predicate ChunksStaged(r: Recording) {
    && Found(r.t0, r.previous, r.given, r.known, r.found)
    && |r.written| == |r.found|
    && (forall i :: 0 <= i < |r.found| ==> SameChunk(r.found[i], r.written[i]) && r.written[i].id == r.found[i].id)
    && BlocksWritten(r.t0.blocks, r.found, r.t.blocks, r.written)
    && ChunksWritten(r.t0.mappings, r.file, r.written, r.t.mappings, r.recorded)
  }

  ghost predicate Recorded(r: Recording) {
    Valid(r.t0) && NewestYet(r.t0, r.path, r.time) && TablesGrow(r) && PreviousIs(r) && CacheUpdated(r) && ChunksStaged(r)
  }

  lemma StillUnrecorded(cs: seq<Chunk>, cs': seq<Chunk>)
    requires Unrecorded(cs) && SameChunks(cs, cs') && forall i :: 0 <= i < |cs| ==> cs'[i].id == cs[i].id
    ensures Unrecorded(cs')
  {
  }

  lemma SameBlocks(blocks: map<nat, BlockRow>, cs: seq<Chunk>, cs': seq<Chunk>)
    requires BlockIdsRight(blocks, cs) && |cs'| == |cs| && forall i :: 0 <= i < |cs| ==> cs'[i].block == cs[i].block
    ensures BlockIdsRight(blocks, cs')
  {
  }

  lemma OffsetsKept(cs: seq<Chunk>, cs': seq<Chunk>)
    requires SameChunks(cs, cs')
    ensures forall i :: 0 <= i < |cs| ==> cs'[i].offset == cs[i].offset
  {
  }

  lemma BlocksHaveIds(blocks: map<nat, BlockRow>, cs: seq<Chunk>, blocks': map<nat, BlockRow>, cs': seq<Chunk>)
    requires BlocksWritten(blocks, cs, blocks', cs')
    ensures |cs'| == |cs| && forall i :: 0 <= i < |cs'| ==> cs'[i].block.id.Some?
  {
  }

  lemma ChunksHaveIds(mappings: map<nat, MappingRow>, file: nat, cs: seq<Chunk>, mappings': map<nat, MappingRow>, cs': seq<Chunk>)
    requires ChunksWritten(mappings, file, cs, mappings', cs')
    ensures |cs'| == |cs| && forall i :: 0 <= i < |cs'| ==> cs'[i].id.Some?
  {
  }

  /** Where chunk `i` stands after each stage. */
  lemma ChunkStages(r: Recording, i: nat)
    requires Recorded(r) && i < |r.given|
    ensures |r.known| == |r.found| == |r.written| == |r.recorded| == |r.given|
    ensures SameChunk(r.given[i], r.known[i]) && r.known[i].id.None?
    ensures ChunkFound(r.t0, r.previous, r.known[i], r.found[i])
    ensures r.found[i].block == r.known[i].block && r.found[i].offset == r.known[i].offset == r.given[i].offset
    ensures SameChunk(r.found[i], r.written[i]) && r.written[i].id == r.found[i].id
    ensures r.recorded[i].offset == r.written[i].offset && r.recorded[i].block == r.written[i].block
    ensures r.found[i].id.Some? ==> r.recorded[i].id == r.found[i].id
    ensures r.found[i].id.None? ==> NewRow(r.t0.mappings, r.file, r.t.mappings, r.recorded[i])
    ensures r.recorded[i].id.Some? && r.recorded[i].block.id.Some?
    ensures r.recorded[i].block.id.value in r.t.blocks && IsRowOf(r.t.blocks[r.recorded[i].block.id.value], r.recorded[i].block)
  {
    hide Valid, NewestYet, TablesGrow, PreviousIs, CacheUpdated, Known;
  }

  lemma ValidCache(t: Tables, s: nat, q: nat)
    requires Valid(t) && (s, q) in t.cache
    ensures s in t.snapshots && q in t.mappings && t.mappings[q].file == t.snapshots[s].file && Newest(t, s)
    ensures t.mappings[q].block in t.blocks
  {
  }

  /** Every chunk's row is right. */
  lemma RecordedRow(r: Recording, i: nat)
    requires Recorded(r) && i < |r.recorded|
    ensures RowRight(r.t, r.file, r.recorded[i])
  {
    ChunkStages(r, i);
    var c := r.recorded[i];
    if r.found[i].id.Some? {
      OldRowFound(r, i);
    }
  }

  lemma OldRowFound(r: Recording, i: nat)
    requires Recorded(r) && i < |r.recorded| && |r.found| == |r.recorded| && r.found[i].id.Some?
    ensures r.previous.Some? && r.recorded[i].id.Some? && (r.previous.value, r.recorded[i].id.value) in r.t0.cache
    ensures var id := r.recorded[i].id.value;
            && id in r.t0.mappings && id in r.t.mappings && r.t.mappings[id] == r.t0.mappings[id]
            && r.t0.mappings[id].file == r.file && r.t0.mappings[id].offset == r.recorded[i].offset
            && Some(r.t0.mappings[id].block) == r.recorded[i].block.id
  {
    ChunkStages(r, i);
    var id := r.recorded[i].id.value;
    assert Unchanged(r.t0, r.previous, r.known[i], id);
    ValidCache(r.t0, r.previous.value, id);
    hide Valid, NewestYet, TablesGrow, CacheUpdated, Known, BlocksWritten;
  }

  lemma RecordedRows(r: Recording)
    requires Recorded(r)
    ensures forall i :: 0 <= i < |r.recorded| ==> RowRight(r.t, r.file, r.recorded[i])
    ensures RowsAdded(r.t0, r.t, r.recorded)
  {
    forall i | 0 <= i < |r.recorded| ensures RowRight(r.t, r.file, r.recorded[i]) {
      RecordedRow(r, i);
    }
    hide Valid, NewestYet, TablesGrow, CacheUpdated, Known, BlocksWritten, PreviousIs, RowRight;
    forall id | id in r.t.mappings && id !in r.t0.mappings ensures HasId(r.recorded, id) {
      var i :| 0 <= i < |r.written| && r.written[i].id.None? && r.recorded[i].id == Some(id);
    }
  }

  lemma RecordedSame(r: Recording)
    requires Recorded(r)
    ensures SameChunks(r.given, r.recorded)
  {
    if r.given == [] {
      hide Valid, NewestYet, TablesGrow, CacheUpdated, Known, PreviousIs;
      assert |r.recorded| == 0;
    } else {
      ChunkStages(r, 0);
    }
    hide Recorded;
    forall i | 0 <= i < |r.given| ensures SameChunk(r.given[i], r.recorded[i]) {
      ChunkStages(r, i);
    }
  }

  // The cache

  lemma OnlyOneNewest(t: Tables, a: nat, b: nat)
    requires TimesDistinct(t) && a in t.snapshots && b in t.snapshots && Newest(t, a) && Newest(t, b)
    requires t.snapshots[a].file == t.snapshots[b].file
    ensures a == b
  {
    assert t.snapshots[a] == t.snapshots[b];
  }

  lemma NewestIsPrevious(r: Recording, s: nat)
    requires Recorded(r) && s in r.t0.snapshots && Newest(r.t0, s) && r.t0.snapshots[s].file == r.file
    ensures r.previous == Some(s)
  {
    hide ChunksStaged, CacheUpdated, CacheRight, FilesDistinct, MappingsResolve, TimesDistinct, Newest;
    OnlyOneNewest(r.t0, s, r.previous.value);
  }

  /** Another file's newest snapshot stays its newest. */
  lemma OthersStayNewest(r: Recording, s: nat)
    requires Recorded(r) && s in r.t0.snapshots && Newest(r.t0, s) && r.t0.snapshots[s].file != r.file
    ensures s in r.t.snapshots && Newest(r.t, s)
  {
    hide ChunksStaged, CacheUpdated, CacheRight, FilesDistinct, MappingsResolve;
  }

  lemma NewOneIsNewest(r: Recording)
    requires Recorded(r)
    ensures r.id in r.t.snapshots && Newest(r.t, r.id) && r.id !in r.t0.snapshots
  {
    hide ChunksStaged, CacheUpdated, CacheRight, FilesDistinct;
    if r.path !in r.t0.files {
      assert r.previous.None? ==> forall s :: s in r.t0.snapshots ==> r.t0.snapshots[s].file != r.file;
    }
  }

  lemma CachedPair(r: Recording, s: nat, q: nat)
    requires Recorded(r) && (s, q) in r.t.cache
    ensures s in r.t.snapshots && q in r.t.mappings && r.t.mappings[q].file == r.t.snapshots[s].file && Newest(r.t, s)
    ensures s == r.id <==> r.t.snapshots[s].file == r.file
    ensures s == r.id ==> HasId(r.recorded, q)
    ensures s != r.id ==> (s, q) in r.t0.cache && q in r.t0.mappings && r.t.mappings[q] == r.t0.mappings[q]
  {
    NewOneIsNewest(r);
    if (s, q) in r.t0.cache {
      ValidCache(r.t0, s, q);
      if r.t0.snapshots[s].file == r.file {
        NewestIsPrevious(r, s);
      } else {
        OthersStayNewest(r, s);
      }
    }
    if s == r.id {
      assert HasId(r.recorded, q);
      var i :| 0 <= i < |r.recorded| && r.recorded[i].id == Some(q);
      RecordedRow(r, i);
    }
    RecordedRows(r);
  }

  lemma SameOffset(r: Recording, s: nat, p: nat, q: nat)
    requires Recorded(r) && (s, p) in r.t.cache && (s, q) in r.t.cache
    ensures p in r.t.mappings && q in r.t.mappings
    ensures r.t.mappings[p].offset == r.t.mappings[q].offset ==> p == q
  {
    CachedPair(r, s, p);
    CachedPair(r, s, q);
    if s == r.id {
      var i :| 0 <= i < |r.recorded| && r.recorded[i].id == Some(p);
      var j :| 0 <= j < |r.recorded| && r.recorded[j].id == Some(q);
      RecordedRow(r, i);
      RecordedRow(r, j);
      ChunkStages(r, i);
      ChunkStages(r, j);
      assert i != j ==> r.known[i].offset != r.known[j].offset;
    }
  }

  lemma RecordedCache(r: Recording)
    requires Recorded(r)
    ensures CacheIsOf(r.t, r.file, r.id, r.recorded)
  {
    NewOneIsNewest(r);
    assert CacheUpdated(r) && r.t.snapshots[r.id].file == r.file;
    forall s, q | (s, q) in r.t.cache && s in r.t.snapshots && r.t.snapshots[s].file == r.file ensures s == r.id {
      CachedPair(r, s, q);
    }
    forall q | (r.id, q) in r.t.cache ensures HasId(r.recorded, q) {
      CachedPair(r, r.id, q);
    }
  }

  /** The tables stay valid. */
  lemma RecordedValid(r: Recording)
    requires Recorded(r)
    ensures Valid(r.t)
  {
    hide Recorded, CacheRight, TimesDistinct, MappingsResolve;
    IdsStayBelow(r);
    CacheStaysRight(r);
    RowsResolve(r);
    TimesStayDistinct(r);
  }

  lemma IdsStayBelow(r: Recording)
    requires Recorded(r)
    ensures IdsBelow(r.t) && FilesDistinct(r.t)
  {
  }

  lemma CacheStaysRight(r: Recording)
    requires Recorded(r)
    ensures CacheRight(r.t)
  {
    hide Recorded, Newest;
    forall s, q | (s, q) in r.t.cache
      ensures s in r.t.snapshots && q in r.t.mappings && r.t.mappings[q].file == r.t.snapshots[s].file && Newest(r.t, s)
    {
      CachedPair(r, s, q);
    }
    forall s, p, q | (s, p) in r.t.cache && (s, q) in r.t.cache
      ensures p in r.t.mappings && q in r.t.mappings && (r.t.mappings[p].offset == r.t.mappings[q].offset ==> p == q)
    {
      SameOffset(r, s, p, q);
    }
  }

  lemma RowsResolve(r: Recording)
    requires Recorded(r)
    ensures MappingsResolve(r.t)
  {
    RecordedRows(r);
    forall id | id in r.t.mappings ensures r.t.mappings[id].block in r.t.blocks && r.t.mappings[id].file < r.t.nextFile {
      if id !in r.t0.mappings {
        var i :| 0 <= i < |r.recorded| && r.recorded[i].id == Some(id);
        assert RowRight(r.t, r.file, r.recorded[i]);
      }
    }
  }

  lemma TimesStayDistinct(r: Recording)
    requires Recorded(r)
    ensures TimesDistinct(r.t)
  {
    NewOneIsNewest(r);
    hide ChunksStaged, CacheUpdated, CacheRight;
  }

  // Blocks

  /** A chunk's block gets a new row exactly if it has none yet. */
  lemma NewBlockIffUnknown(r: Recording, i: nat)
    requires Recorded(r) && i < |r.given|
    ensures |r.found| == |r.recorded| == |r.given|
    ensures r.found[i].block.id.None? <==> !Known(r.t0.blocks, r.given[i].block)
  {
    ChunkStages(r, i);
    hide Valid, NewestYet, TablesGrow, CacheUpdated, PreviousIs, BlocksWritten, ChunksWritten;
    if Known(r.t0.blocks, r.given[i].block) {
      var id :| id in r.t0.blocks && IsRowOf(r.t0.blocks[id], r.given[i].block);
      assert IsRowOf(r.t0.blocks[id], r.known[i].block);
    }
    if r.known[i].block.id.Some? {
      assert IsRowOf(r.t0.blocks[r.known[i].block.id.value], r.given[i].block);
    }
  }

  /** Blocks stay unique by digest and length exactly when equal blocks within the snapshot were recorded before. */
  lemma RecordedBlocks(r: Recording)
    requires Recorded(r)
    ensures BlocksUnique(r.t0.blocks) ==> (BlocksUnique(r.t.blocks) <==> NewBlocksDiffer(r.t0.blocks, r.given))
  {
    if BlocksUnique(r.t0.blocks) {
      if BlocksUnique(r.t.blocks) {
        forall i, j | 0 <= i < j < |r.given| && r.given[i].block.digest == r.given[j].block.digest
                      && r.given[i].block.length == r.given[j].block.length
          ensures Known(r.t0.blocks, r.given[i].block)
        {
          TwoRowsForOneBlock(r, i, j);
        }
      }
      if NewBlocksDiffer(r.t0.blocks, r.given) {
        forall a, b | a in r.t.blocks && b in r.t.blocks && r.t.blocks[a] == r.t.blocks[b] ensures a == b {
          OneRowForABlock(r, a, b);
        }
      }
    }
  }

  lemma TwoRowsForOneBlock(r: Recording, i: nat, j: nat)
    requires Recorded(r) && BlocksUnique(r.t.blocks) && i < j < |r.given|
    requires r.given[i].block.digest == r.given[j].block.digest && r.given[i].block.length == r.given[j].block.length
    ensures Known(r.t0.blocks, r.given[i].block)
  {
    NewBlockIffUnknown(r, i);
    NewBlockIffUnknown(r, j);
    ChunkStages(r, i);
    ChunkStages(r, j);
    var a, b := r.recorded[i].block.id.value, r.recorded[j].block.id.value;
    assert r.t.blocks[a] == r.t.blocks[b] && a == b;
    hide Valid, NewestYet, TablesGrow, CacheUpdated, PreviousIs, ChunksWritten;
  }

  /** A new block row belongs to a chunk whose block was unknown. */
  lemma NewRowsChunk(r: Recording, a: nat) returns (i: nat)
    requires Recorded(r) && a in r.t.blocks && a !in r.t0.blocks
    ensures i < |r.given| && |r.found| == |r.recorded| == |r.given|
    ensures !Known(r.t0.blocks, r.given[i].block) && r.recorded[i].block.id == Some(a)
    ensures forall id :: id in r.t0.blocks ==> !IsRowOf(r.t0.blocks[id], r.given[i].block)
    ensures IsRowOf(r.t.blocks[a], r.given[i].block)
  {
    assert BlocksWritten(r.t0.blocks, r.found, r.t.blocks, r.written) && |r.found| == |r.given|;
    i :| 0 <= i < |r.found| && r.found[i].block.id.None? && r.written[i].block.id == Some(a);
    NewBlockIffUnknown(r, i);
    ChunkStages(r, i);
  }

  lemma OneRowForABlock(r: Recording, a: nat, b: nat)
    requires Recorded(r) && BlocksUnique(r.t0.blocks) && NewBlocksDiffer(r.t0.blocks, r.given)
    requires a in r.t.blocks && b in r.t.blocks && r.t.blocks[a] == r.t.blocks[b]
    ensures a == b
  {
    OldBlocksStay(r);
    if a !in r.t0.blocks {
      var i := NewRowsChunk(r, a);
      if b !in r.t0.blocks {
        var j := NewRowsChunk(r, b);
        hide Recorded;
        SameBlockSameChunk(r.t0.blocks, r.given, i, j);
      }
    } else if b !in r.t0.blocks {
      var j := NewRowsChunk(r, b);
    }
  }

  lemma SameBlockSameChunk(blocks: map<nat, BlockRow>, cs: seq<Chunk>, i: nat, j: nat)
    requires NewBlocksDiffer(blocks, cs) && i < |cs| && j < |cs|
    requires cs[i].block.digest == cs[j].block.digest && cs[i].block.length == cs[j].block.length
    requires !Known(blocks, cs[i].block) && !Known(blocks, cs[j].block)
    ensures i == j
  {
    hide Known;
  }

  lemma OldBlocksStay(r: Recording)
    requires Recorded(r)
    ensures forall id :: id in r.t0.blocks ==> id in r.t.blocks && r.t.blocks[id] == r.t0.blocks[id]
  {
    hide Valid, NewestYet, TablesGrow, CacheUpdated, PreviousIs, ChunksWritten;
  }

  // Changes

  /** With unique blocks, a chunk keeps its old row exactly when the cache had its contents at its offset:
      rows are added only where the block changed. */
  lemma RecordedChanges(r: Recording)
    requires Recorded(r)
    ensures BlocksUnique(r.t0.blocks) ==>
              forall i :: 0 <= i < |r.recorded| ==>
                r.recorded[i].id.Some?
                && (r.recorded[i].id.value in r.t0.mappings <==> CachedBefore(r.t0, r.path, r.recorded[i]))
  {
    if BlocksUnique(r.t0.blocks) {
      forall i | 0 <= i < |r.recorded|
        ensures r.recorded[i].id.Some?
                && (r.recorded[i].id.value in r.t0.mappings <==> CachedBefore(r.t0, r.path, r.recorded[i]))
      {
        RecordedSame(r);
        ChunkStages(r, i);
        if r.found[i].id.Some? {
          KeptRowWasCached(r, i);
        } else if CachedBefore(r.t0, r.path, r.recorded[i]) {
          CachedRowIsKept(r, i);
        }
      }
    }
  }

  lemma KeptRowWasCached(r: Recording, i: nat)
    requires Recorded(r) && i < |r.recorded| && |r.found| == |r.recorded| && r.found[i].id.Some?
    ensures r.recorded[i].id.Some? && r.recorded[i].id.value in r.t0.mappings
    ensures CachedBefore(r.t0, r.path, r.recorded[i])
  {
    OldRowFound(r, i);
    RecordedRow(r, i);
    OldBlocksStay(r);
    var id := r.recorded[i].id.value;
    ValidCache(r.t0, r.previous.value, id);
    assert r.path in r.t0.files by {
      hide ChunksStaged, CacheUpdated, NewestYet;
    }
    assert CachedAs(r.t0, r.path, r.recorded[i], r.previous.value, id);
  }

  lemma CachedRowIsKept(r: Recording, i: nat)
    requires Recorded(r) && BlocksUnique(r.t0.blocks) && i < |r.given|
    requires |r.found| == |r.recorded| == |r.given| && CachedBefore(r.t0, r.path, r.recorded[i])
    ensures r.found[i].id.Some?
  {
    ChunkStages(r, i);
    var s, q :| (s, q) in r.t0.cache && CachedAs(r.t0, r.path, r.recorded[i], s, q);
    ValidCache(r.t0, s, q);
    NewestIsPrevious(r, s);
    NewBlockIffUnknown(r, i);
    var row := r.t0.mappings[q].block;
    assert IsRowOf(r.t0.blocks[row], r.given[i].block);
    assert r.known[i].block.id.Some?;
    var known := r.known[i].block.id.value;
    assert known in r.t0.blocks && IsRowOf(r.t0.blocks[known], r.known[i].block) by {
      hide Valid, NewestYet, TablesGrow, CacheUpdated, PreviousIs, BlocksWritten, ChunksWritten, Known;
    }
    assert r.t0.blocks[known] == r.t0.blocks[row] && known == row;
    assert Unchanged(r.t0, r.previous, r.known[i], q);
  }
}
