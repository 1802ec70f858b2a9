// The class that writes a bundle into one growing buffer, patching the open file's header in place
// (bundle.cc). Each method's result is the step of BundleWriter with the same purpose.

module Bundles {
  import opened Common
  import opened TarFormat
  import opened TarHeader
  import opened BundleWriter

  /** Overwriting the middle of three parts. */
  lemma SpliceMiddle(a: seq<byte>, header: seq<byte>, c: seq<byte>, header': seq<byte>)
    requires |header| == |header'|
    ensures Splice(a + (header + c), |a|, header') == a + (header' + c)
    ensures (a + (header' + c))[|a|..|a| + |header'|] == header'
  {
  }

  /** Setting size, time and then the checksum over the zero checksum field gives the closed header. */
  lemma ClosedHeader(r: Record)
    requires RecordFits(r)
    ensures var sized := OpenFields(r.name, r.stamp.uid, r.stamp.gid)[SIZE := NumberField(|r.content|, 11)]
                                   [TIME := NumberField(r.stamp.time, 11)];
            && |Concat(sized)| == BLOCK
            && Concat(sized[CHECKSUM := ChecksumField(HeaderSum(Concat(sized)))]) == HeaderBlock(r)
  {
    hide Concat, Pow8, NumberField, Octal, Splice, ByteSum;
    var sized := OpenFields(r.name, r.stamp.uid, r.stamp.gid)[SIZE := NumberField(|r.content|, 11)]
                           [TIME := NumberField(r.stamp.time, 11)];
    assert sized == SizedFields(r, Repeat(0, 8));
    SameButChecksum(r, Repeat(0, 8));
    SameButChecksum(r, SPACES);
    var fields, sum := HeaderFields(r);
    assert sized[CHECKSUM := ChecksumField(sum)] == fields;
  }

  /** The parts of the buffer while a file is open, and once its padding is written. */
  lemma BytesOpen(w: Writer, env: Env)
    requires BundleWriter.Valid(w, env) && w.open.Some?
    ensures Bytes(w, env)
         == Archive(w.closed) + (Concat(OpenFields(w.open.value.name, env.uid, env.gid)) + w.open.value.content)
  {
    hide Archive, Concat, RecordFits, Pow8, OpenFields;
  }

  /** The bytes depend on the files and the end mark only. */
  lemma OnlyFilesMatter(w: Writer, w': Writer, env: Env)
    requires BundleWriter.Valid(w, env) && !w'.inPayload
    requires w.closed == w'.closed && w.open == w'.open && w.finalized == w'.finalized
    ensures BundleWriter.Valid(w', env) && Bytes(w', env) == Bytes(w, env)
  {
    hide Archive, Concat, RecordFits, Pow8, OpenFields;
  }

  lemma BytesClosed(w: Writer, env: Env, now: nat)
    requires BundleWriter.Valid(w, env) && w.open.Some? && Closable(w, now)
    ensures var r := Record(w.open.value.name, w.open.value.content, Stamp(env.uid, env.gid, now));
            && RecordFits(r) && BundleWriter.Valid(Close(w, env, now), env)
            && Bytes(Close(w, env, now), env)
            == Archive(w.closed) + (HeaderBlock(r) + r.content) + Repeat(0, PaddingSize(|r.content|))
  {
    var r := Record(w.open.value.name, w.open.value.content, Stamp(env.uid, env.gid, now));
    ArchiveSnoc(w.closed, r);
    hide Archive, HeaderBlock, Pow8, PaddingSize;
  }

  lemma SpliceOver(s: seq<byte>, at: nat, p: seq<byte>, q: seq<byte>)
    requires |p| == |q| && at + |p| <= |s|
    ensures |Splice(s, at, p)| == |s| && Splice(Splice(s, at, p), at, q) == Splice(s, at, q)
  {
  }

  lemma SpliceEnd(s: seq<byte>, end: seq<byte>, p: seq<byte>)
    requires |p| == |end|
    ensures Splice(s + end, |s|, p) == s + p
  {
  }

  /** A header block for a new file at the end of the buffer. */
  method OpenHeader(data: ByteVector, filename: seq<byte>, uid: nat, gid: nat) returns (header: TarHeaderBlock)
    requires NameFits(filename) && uid < Pow8(7) && gid < Pow8(7)
    modifies data
    ensures fresh(header) && header.data == data && header.offset == |old(data.bytes)|
    ensures header.Valid() && header.fields == OpenFields(filename, uid, gid)
    ensures data.bytes == old(data.bytes) + Concat(header.fields)
  {
    hide Concat, NumberField, Octal, Pow8, NameField, Splice, NameFits;
    var offset := |data.bytes|;
    FittingNameIsStored(filename);
    ModeFits();
    ghost var before := data.bytes + Repeat(0, BLOCK);
    data.bytes := data.bytes + Repeat(0, BLOCK);
    header := new TarHeaderBlock(data, offset);
    ghost var f0 := header.fields;
    HeaderLength(f0);
    header.SetFilename(filename);
    HeaderLength(header.fields);
    SpliceOver(before, offset, Concat(f0), Concat(header.fields));
    ghost var f1 := header.fields;
    header.SetNumber(MODE, MODE_READ_ONLY);
    HeaderLength(header.fields);
    SpliceOver(before, offset, Concat(f1), Concat(header.fields));
    ghost var f2 := header.fields;
    header.SetNumber(UID, uid);
    HeaderLength(header.fields);
    SpliceOver(before, offset, Concat(f2), Concat(header.fields));
    ghost var f3 := header.fields;
    header.SetNumber(GID, gid);
    HeaderLength(header.fields);
    SpliceOver(before, offset, Concat(f3), Concat(header.fields));
    SpliceEnd(old(data.bytes), Repeat(0, BLOCK), Concat(header.fields));
  }

  /** Sets size and time, then the checksum. */
  method CloseHeader(header: TarHeaderBlock, size: nat, now: nat)
    requires header.Valid() && size < Pow8(11) && now < Pow8(11)
    modifies header, header.data
    ensures header.Valid() && |Concat(old(header.fields)[SIZE := NumberField(size, 11)][TIME := NumberField(now, 11)])| == BLOCK
    ensures var sized := old(header.fields)[SIZE := NumberField(size, 11)][TIME := NumberField(now, 11)];
            && header.fields == sized[CHECKSUM := ChecksumField(HeaderSum(Concat(sized)))]
            && |Concat(header.fields)| == BLOCK
    ensures header.data.bytes == Splice(old(header.data.bytes), header.offset, Concat(header.fields))
  {
    hide Concat, NumberField, Octal, Pow8, Splice, HeaderSum;
    ghost var before := header.data.bytes;
    header.SetNumber(SIZE, size);
    ghost var f1 := header.fields;
    HeaderLength(f1);
    header.SetNumber(TIME, now);
    ghost var f2 := header.fields;
    HeaderLength(f2);
    SpliceOver(before, header.offset, Concat(f1), Concat(f2));
    header.ComputeAndSetChecksum();
    HeaderLength(header.fields);
    SpliceOver(before, header.offset, Concat(f2), Concat(header.fields));
  }

  lemma StartInSteps(w: Writer, env: Env, compressionType: CompressionType, now: nat)
    requires BundleWriter.Valid(w, env) && !w.finalized && Closable(w, now) && w.nextId < ID_LIMIT
    ensures var c := Close(w, env, now);
            && BundleWriter.Valid(c, env) && c.nextId == w.nextId && NameFits(PayloadName(w.nextId))
            && StartPayload(w, env, compressionType, now)
            == c.(manifest := c.manifest + [Payload(w.nextId, |Bytes(c, env)|, compressionType, [])], nextId := w.nextId + 1,
                  inPayload := true, open := Some(File(PayloadName(w.nextId), [])))
            && BundleWriter.Valid(StartPayload(w, env, compressionType, now), env)
  {
    NamesFit(w.nextId);
    StartingFits(w, env, compressionType, now);
    hide BundleWriter.Valid, Bytes, PayloadName, NameFits;
  }

  class Bundle {
    const env: Env
    const data: ByteVector
    var manifest: Manifest
    var isFinalized: bool
    var currentTarHeaderBlock: TarHeaderBlock?
    var currentPayload: Option<nat>
    var nextPayloadId: nat
    ghost var closed: seq<Record>
    ghost var open: Option<File>

    ghost function Footprint(): set<object>
      reads this
    {
      {this, data} + (if currentTarHeaderBlock == null then {} else {currentTarHeaderBlock})
    }

    ghost function State(): Writer
      reads this
    {
      Writer(manifest, closed, open, currentPayload.Some?, nextPayloadId, isFinalized)
    }

    /** The same, whether or not the open file is a payload. */
    ghost function FileState(): Writer
      reads this
    {
      State().(inPayload := false)
    }

    /** The buffer holds the archive of the state, and the header block is the open file's. */
    ghost predicate Holds()
      reads Footprint()
    {
      && BundleWriter.Valid(FileState(), env)
      && data.bytes == Bytes(FileState(), env)
      && (currentTarHeaderBlock == null <==> open.None?)
      && (currentTarHeaderBlock != null ==>
            && currentTarHeaderBlock.data == data
            && currentTarHeaderBlock.offset == |Archive(closed)|
            && currentTarHeaderBlock.fields == OpenFields(open.value.name, env.uid, env.gid)
            && currentTarHeaderBlock.Valid())
    }

    ghost predicate Valid()
      reads Footprint()
    {
      && Holds()
      && BundleWriter.Valid(State(), env)
      && (currentPayload.Some? <==> open.Some?)
      && (currentPayload.Some? ==> currentPayload.value + 1 == |manifest|)
    }

    constructor (env: Env)
      requires OwnerFits(env)
      ensures Valid() && fresh(Footprint()) && this.env == env
      ensures State() == NewWriter() && data.bytes == []
    {
      this.env := env;
      var vector := new ByteVector();
      data := vector;
      manifest, isFinalized, currentTarHeaderBlock, currentPayload, nextPayloadId := [], false, null, None, 0;
      closed, open := [], None;
    }

    method StartNewPayload(compressionType: CompressionType, now: nat)
      requires Valid() && !isFinalized && Closable(State(), now) && nextPayloadId < ID_LIMIT
      modifies Footprint()
      ensures Valid() && fresh(Footprint() - old(Footprint()))
      ensures BundleWriter.Valid(Close(old(State()), env, now), env)
      ensures State() == StartPayload(old(State()), env, compressionType, now)
    {
      hide Archive, OpenFields, PayloadName, Pow8, Concat, BundleWriter.Valid, NameFits, Bytes, Closable, StartPayload;
      ClosingFits(State(), env, now);
      StartInSteps(State(), env, compressionType, now);
      EndCurrentPayload(now);
      hide Close;
      AddPayload(compressionType);
      StartNewFile(PayloadName(manifest[currentPayload.value].id));
    }

    method AddBlockMetadata(block: Block)
      requires Valid() && !isFinalized && currentPayload.Some?
      modifies this
      ensures Valid() && Footprint() == old(Footprint()) && State() == AddBlock(old(State()), block)
    {
      var payload := manifest[currentPayload.value];
      manifest := manifest[currentPayload.value := payload.(blocks := payload.blocks + [block])];
    }

    method AppendBlockContents(compressedContents: seq<byte>)
      requires Valid() && !isFinalized && currentPayload.Some?
      modifies this`open, data
      ensures Valid() && Footprint() == old(Footprint()) && State() == Append(old(State()), compressedContents)
    {
      AppendData(compressedContents);
    }

    method Finalize(now: nat, now': nat, now'': nat)
      requires Valid() && !isFinalized && Finishable(State(), env, now, now', now'')
      modifies Footprint()
      ensures Valid() && State() == Finish(old(State()), env, now, now', now'')
      ensures fresh(Footprint() - old(Footprint()))
    {
      hide ManifestName, ManifestDigestName, NameFits, RecordFits, OpenFields, Concat, Pow8;
      EndCurrentPayload(now);
      AppendSerializedManifest(now', now'');
      data.bytes := data.bytes + Repeat(0, BLOCK * 2);
      isFinalized := true;
    }

    // -------------------------------------------------------------------------------------------
    // Private

    /** A new payload in the manifest, which starts where the buffer ends. */
    method AddPayload(compressionType: CompressionType)
      requires Holds() && currentTarHeaderBlock == null
      modifies this`manifest, this`currentPayload, this`nextPayloadId
      ensures Holds() && currentPayload == Some(|manifest| - 1)
      ensures State() == old(State()).(manifest := old(manifest) + [Payload(old(nextPayloadId), |Bytes(old(FileState()), env)|,
                                                                            compressionType, [])],
                                       nextId := old(nextPayloadId) + 1, inPayload := true)
    {
      hide Archive, OpenFields, PayloadName, Pow8, Concat, BundleWriter.Valid, Bytes, NameFits;
      OnlyFilesMatter(FileState(), FileState().(manifest := manifest + [Payload(nextPayloadId, |data.bytes|, compressionType, [])],
                                                nextId := nextPayloadId + 1), env);
      manifest := manifest + [Payload(nextPayloadId, |data.bytes|, compressionType, [])];
      currentPayload := Some(|manifest| - 1);
      nextPayloadId := nextPayloadId + 1;
    }

    /** Adds bytes to the end of the buffer, as part of the open file. */
    method AppendData(bytes: seq<byte>)
      requires Holds() && open.Some?
      modifies this`open, data
      ensures Holds() && FileState() == Append(old(FileState()), bytes)
      ensures Footprint() == old(Footprint())
    {
      AppendingFits(FileState(), env, bytes);
      data.bytes := data.bytes + bytes;
      open := Some(open.value.(content := open.value.content + bytes));
    }

    method StartNewFile(filename: seq<byte>)
      requires Holds() && currentTarHeaderBlock == null && !isFinalized && NameFits(filename)
      modifies this`currentTarHeaderBlock, this`open, data
      ensures Holds() && FileState() == Open(old(FileState()), filename)
      ensures fresh(Footprint() - old(Footprint()))
    {
      hide Archive, Concat, RecordFits, Pow8, OpenFields;
      currentTarHeaderBlock := OpenHeader(data, filename, env.uid, env.gid);
      open := Some(File(filename, []));
      OpeningFits(old(FileState()), env, filename);
      BytesOpen(FileState(), env);
    }

    method EndCurrentFile(finalSize: nat, now: nat)
      requires Holds() && Closable(FileState(), now)
      requires open.Some? ==> finalSize == |open.value.content|
      modifies this`currentTarHeaderBlock, this`open, this`closed, data, currentTarHeaderBlock
      ensures Holds() && FileState() == Close(old(FileState()), env, now)
      ensures currentTarHeaderBlock == null
    {
      if currentTarHeaderBlock == null {
        return;
      }
      ghost var r := Record(open.value.name, open.value.content, Stamp(env.uid, env.gid, now));
      BytesOpen(FileState(), env);
      BytesClosed(FileState(), env, now);
      ClosedHeader(r);
      hide Archive, Concat, RecordFits, Pow8, OpenFields, NumberField, HeaderBlock, HeaderSum, ChecksumField, Bytes;
      SpliceMiddle(Archive(closed), Concat(currentTarHeaderBlock.fields), open.value.content, HeaderBlock(r));
      CloseHeader(currentTarHeaderBlock, finalSize, now);
      var recordPaddingSize := BLOCK - finalSize % BLOCK;
      data.bytes := data.bytes + Repeat(0, recordPaddingSize);
      currentTarHeaderBlock := null;
      closed, open := closed + [r], None;
    }

    method EndCurrentPayload(now: nat)
      requires Valid() && Closable(State(), now)
      modifies Footprint()
      ensures Valid() && State() == Close(old(State()), env, now)
      ensures currentPayload.None? && currentTarHeaderBlock == null
    {
      if currentPayload.Some? {
        EndCurrentFile(|data.bytes| - manifest[currentPayload.value].offset - BLOCK, now);
      }
      currentPayload := None;
    }

    method AppendSerializedManifest(now': nat, now'': nat)
      requires Valid() && currentTarHeaderBlock == null && !isFinalized && Finishable(State(), env, 0, now', now'')
      modifies Footprint()
      ensures Valid() && State().(finalized := true) == Finish(old(State()), env, 0, now', now'') && !isFinalized
      ensures currentTarHeaderBlock == null && Footprint() == old(Footprint())
    {
      hide Archive, ManifestName, ManifestDigestName, NameFits, RecordFits, OpenFields, Concat, Bytes, Pow8;
      var serializedManifest := env.serialize(manifest);
      NamesFit(0);
      StartNewFile(ManifestName());
      AppendData(serializedManifest);
      EndCurrentFile(|serializedManifest|, now');
      var digest := env.digest(serializedManifest) + [10];
      StartNewFile(ManifestDigestName());
      AppendData(digest);
      EndCurrentFile(|digest|, now'');
    }
  }
}
