// Writing a bundle: a TAR archive of payloads followed by the manifest and its digest (bundle.cc).
// The first half says what a bundle is; the class `Bundle` grows the bytes in place.

module BundleWriter {
  import opened Common
  import opened TarFormat

  datatype Block = Block(id: int, digest: seq<byte>, length: nat)

  datatype CompressionType = COMPRESSION_TYPE_NONE | COMPRESSION_TYPE_ZLIB

  datatype Payload = Payload(id: nat, offset: nat, compressionType: CompressionType, blocks: seq<Block>)

  type Manifest = seq<Payload>

  // ---------------------------------------------------------------------------------------------
  // File names

  function Ascii(s: string): (b: seq<byte>)
    ensures |b| == |s|
    ensures forall i :: 0 <= i < |s| ==> b[i] == s[i] as int % 256
  {
    seq(|s|, i requires 0 <= i < |s| => s[i] as int % 256)
  }

  function Decimal(n: nat): (s: seq<byte>)
    ensures 0 !in s && |s| > 0
  {
    if n < 10 then [48 + n] else Decimal(n / 10) + [48 + n % 10]
  }

  function Pow10(n: nat): (p: nat)
    ensures p > 0
  {
    if n == 0 then 1 else 10 * Pow10(n - 1)
  }

  lemma {:induction false} DecimalLength(n: nat, width: nat)
    requires n < Pow10(width) && width > 0
    ensures |Decimal(n)| <= width
    decreases width
  {
    if n >= 10 {
      assert width > 1 by {
        assert Pow10(1) == 10;
      }
      DecimalLength(n / 10, width - 1);
    }
  }

  function PayloadName(id: nat): seq<byte> {
    Ascii("payload_") + Decimal(id) + Ascii(".dat")
  }

  function ManifestName(): seq<byte> {
    Ascii("manifest.pbuf")
  }

  function ManifestDigestName(): seq<byte> {
    Ascii("manifest_digest.sha1")
  }

  /** The payload counter is a 64-bit signed integer. */
  const ID_LIMIT: nat := 0x8000_0000_0000_0000

  lemma IdHasAtMost19Digits(id: nat)
    requires id < ID_LIMIT
    ensures |Decimal(id)| <= 19
  {
    assert Pow10(5) == 100000;
    assert Pow10(10) == 10000000000;
    assert Pow10(15) == 1000000000000000;
    assert Pow10(19) == 10000 * Pow10(15);
    DecimalLength(id, 19);
  }

  lemma NamesFit(id: nat)
    requires id < ID_LIMIT
    ensures NameFits(PayloadName(id)) && NameFits(ManifestName()) && NameFits(ManifestDigestName())
  {
    IdHasAtMost19Digits(id);
    hide Decimal, Pow10;
  }

  // ---------------------------------------------------------------------------------------------
  // The writer's state, its bytes and its steps

  /** Who runs the program, protobuf serialization and the hexadecimal SHA-1 digest. */
  datatype Env = Env(uid: nat, gid: nat, serialize: Manifest -> seq<byte>, digest: seq<byte> -> seq<byte>)

  ghost predicate OwnerFits(env: Env) {
    env.uid < Pow8(7) && env.gid < Pow8(7)
  }

  /** The closed records, the file being written if any, and whether that file is a payload. */
  datatype Writer = Writer(manifest: Manifest, closed: seq<Record>, open: Option<File>, inPayload: bool, nextId: nat,
                           finalized: bool)

  function NewWriter(): Writer {
    Writer([], [], None, false, 0, false)
  }

  ghost predicate Valid(w: Writer, env: Env) {
    && OwnerFits(env)
    && (forall i :: 0 <= i < |w.closed| ==> RecordFits(w.closed[i]))
    && (w.open.Some? ==> NameFits(w.open.value.name))
    && (w.inPayload ==> w.open.Some? && w.manifest != [] && w.manifest[|w.manifest| - 1].offset == |Archive(w.closed)|)
    && (w.finalized ==> w.open.None?)
  }

  /** The archive so far: closed records, then the open file behind its unfinished header. */
  ghost function Bytes(w: Writer, env: Env): seq<byte>
    requires Valid(w, env)
  {
    Archive(w.closed)
    + (if w.open.Some? then Concat(OpenFields(w.open.value.name, env.uid, env.gid)) + w.open.value.content else [])
    + (if w.finalized then EndMark() else [])
  }

  /** The open file can be closed: its size and the time fit the header's octal fields. */
  predicate Closable(w: Writer, now: nat) {
    w.open.Some? ==> |w.open.value.content| < Pow8(11) && now < Pow8(11)
  }

  function Open(w: Writer, name: seq<byte>): Writer {
    w.(open := Some(File(name, [])))
  }

  function Append(w: Writer, data: seq<byte>): Writer {
    if w.open.None? then w else w.(open := Some(w.open.value.(content := w.open.value.content + data)))
  }

  function Close(w: Writer, env: Env, now: nat): Writer {
    if w.open.None? then w
    else w.(closed := w.closed + [Record(w.open.value.name, w.open.value.content, Stamp(env.uid, env.gid, now))],
            open := None, inPayload := false)
  }

  /** Closes the open payload, then opens the next one at the end of the archive. */
  ghost function StartPayload(w: Writer, env: Env, compressionType: CompressionType, now: nat): Writer
    requires Valid(Close(w, env, now), env)
  {
    var c := Close(w, env, now);
    Open(c.(manifest := c.manifest + [Payload(c.nextId, |Bytes(c, env)|, compressionType, [])], nextId := c.nextId + 1,
            inPayload := true),
         PayloadName(c.nextId))
  }

  function AddBlock(w: Writer, block: Block): Writer {
    if w.manifest == [] then w
    else
      var last := |w.manifest| - 1;
      w.(manifest := w.manifest[last := w.manifest[last].(blocks := w.manifest[last].blocks + [block])])
  }

  /** Closes the open payload and adds the manifest, its digest and the end mark. */
  function Finish(w: Writer, env: Env, now: nat, now': nat, now'': nat): Writer {
    var c := Close(w, env, now);
    var text := env.serialize(c.manifest);
    var m := Close(Append(Open(c, ManifestName()), text), env, now');
    var d := Close(Append(Open(m, ManifestDigestName()), env.digest(text) + [10]), env, now'');
    d.(finalized := true)
  }

  // ---------------------------------------------------------------------------------------------
  // Each step on the bytes

  lemma ClosingFits(w: Writer, env: Env, now: nat)
    requires Valid(w, env) && Closable(w, now)
    ensures Valid(Close(w, env, now), env)
  {
    hide Archive, Pow8;
  }

  lemma OpeningFits(w: Writer, env: Env, name: seq<byte>)
    requires Valid(w, env) && w.open.None? && !w.finalized && NameFits(name)
    ensures Valid(Open(w, name), env)
  {
    hide Archive, Pow8;
  }

  lemma AppendingFits(w: Writer, env: Env, data: seq<byte>)
    requires Valid(w, env) && w.open.Some?
    ensures Valid(Append(w, data), env)
    ensures Bytes(Append(w, data), env) == Bytes(w, env) + data
  {
    hide Archive, Pow8, OpenFields, Concat;
  }

  lemma StartingFits(w: Writer, env: Env, compressionType: CompressionType, now: nat)
    requires Valid(w, env) && !w.finalized && Closable(w, now) && w.nextId < ID_LIMIT
    ensures Valid(Close(w, env, now), env) && Valid(StartPayload(w, env, compressionType, now), env)
  {
    ClosingFits(w, env, now);
    NamesFit(w.nextId);
    hide Archive, Pow8, OpenFields, Concat, PayloadName, NameFits;
    assert Bytes(Close(w, env, now), env) == Archive(Close(w, env, now).closed);
  }

  /** The manifest and its digest can be closed too. */
  ghost predicate Finishable(w: Writer, env: Env, now: nat, now': nat, now'': nat) {
    && Closable(w, now)
    && now' < Pow8(11) && now'' < Pow8(11)
    && |env.serialize(w.manifest)| < Pow8(11)
    && |env.digest(env.serialize(w.manifest))| + 1 < Pow8(11)
  }

  /** Finishing appends two records to the closed ones, and nothing stays open. */
  lemma FinishedRecords(w: Writer, env: Env, now: nat, now': nat, now'': nat)
    requires Valid(w, env) && !w.finalized && Finishable(w, env, now, now', now'')
    ensures var f := Finish(w, env, now, now', now'');
            var text := env.serialize(w.manifest);
            && Valid(f, env) && f.open.None? && f.finalized && f.manifest == w.manifest
            && f.closed == Close(w, env, now).closed + [Record(ManifestName(), text, Stamp(env.uid, env.gid, now')),
                                                        Record(ManifestDigestName(), env.digest(text) + [10],
                                                               Stamp(env.uid, env.gid, now''))]
  {
    ClosingFits(w, env, now);
    NamesFit(0);
    hide Archive, Pow8, ManifestName, ManifestDigestName, PayloadName, NameFits;
    assert forall s: seq<byte> :: [] + s == s;
    var c := Close(w, env, now);
    var text := env.serialize(w.manifest);
    var m := Record(ManifestName(), text, Stamp(env.uid, env.gid, now'));
    var d := Record(ManifestDigestName(), env.digest(text) + [10], Stamp(env.uid, env.gid, now''));
    assert c.closed + [m] + [d] == c.closed + [m, d];
    assert RecordFits(m) && RecordFits(d);
    assert Finish(w, env, now, now', now'').closed == c.closed + [m, d];
  }

  // ---------------------------------------------------------------------------------------------
  // Whole runs

  datatype Op =
    | StartOp(compressionType: CompressionType, now: nat)
    | AddBlockOp(block: Block)
    | AppendOp(data: seq<byte>)

  /** What a payload is made of: the blocks and the contents given since it was started. */
  datatype Group = Group(compressionType: CompressionType, blocks: seq<Block>, content: seq<byte>)

  function Groups(ops: seq<Op>): (gs: seq<Group>) {
    if ops == [] then []
    else
      var gs := Groups(ops[..|ops| - 1]);
      match ops[|ops| - 1]
      case StartOp(compressionType, _) => gs + [Group(compressionType, [], [])]
      case AddBlockOp(block) =>
        if gs == [] then [] else gs[..|gs| - 1] + [gs[|gs| - 1].(blocks := gs[|gs| - 1].blocks + [block])]
      case AppendOp(data) =>
        if gs == [] then [] else gs[..|gs| - 1] + [gs[|gs| - 1].(content := gs[|gs| - 1].content + data)]
  }

  /** The call rules: a payload first, and no payload or time too large for a header. */
  ghost predicate Legal(ops: seq<Op>) {
    ops == [] ||
    (var before := ops[..|ops| - 1];
     && Legal(before)
     && match ops[|ops| - 1]
        case StartOp(_, now) => now < Pow8(11) && |Groups(before)| < ID_LIMIT && LastFits(Groups(before))
        case _ => Groups(before) != [])
  }

  ghost predicate LastFits(gs: seq<Group>) {
    gs != [] ==> |gs[|gs| - 1].content| < Pow8(11)
  }

  /** The state a sequence of calls leads to; the state does not matter outside the call rules. */
  ghost function Run(ops: seq<Op>, env: Env): (w: Writer)
    requires OwnerFits(env) && Legal(ops)
    ensures Agrees(w, Groups(ops), env)
  {
    hide Archive, Pow8;
    if ops == [] then NewWriter()
    else
      var before := ops[..|ops| - 1];
      var w := Run(before, env);
      match ops[|ops| - 1]
      case StartOp(compressionType, now) =>
        StartAgrees(w, Groups(before), env, compressionType, now); StartPayload(w, env, compressionType, now)
      case AddBlockOp(block) => AddBlockAgrees(w, Groups(before), env, block); AddBlock(w, block)
      case AppendOp(data) => AppendAgrees(w, Groups(before), env, data); Append(w, data)
  }

  /** State and groups say the same: one payload a group, all but the last closed, and each payload's
      offset is where its record starts. */
  ghost predicate Agrees(w: Writer, gs: seq<Group>, env: Env) {
    && Valid(w, env) && !w.finalized
    && |w.manifest| == |gs| == w.nextId
    && (gs == [] ==> w.closed == [] && w.open.None?)
    && (gs != [] ==> w.inPayload && |w.closed| == |gs| - 1
                     && w.open == Some(File(PayloadName(|gs| - 1), gs[|gs| - 1].content)))
    && ClosedAgree(w.closed, gs)
    && PayloadsAgree(w.manifest, w.closed, gs)
  }

  ghost predicate ClosedAgree(closed: seq<Record>, gs: seq<Group>) {
    && |closed| <= |gs|
    && forall i :: 0 <= i < |closed| ==> closed[i].name == PayloadName(i) && closed[i].content == gs[i].content
  }

  ghost predicate PayloadsAgree(manifest: Manifest, closed: seq<Record>, gs: seq<Group>)
    requires forall i :: 0 <= i < |closed| ==> RecordFits(closed[i])
  {
    && |manifest| == |gs| && |closed| + 1 >= |gs|
    && forall i :: 0 <= i < |gs| ==>
         manifest[i] == Payload(i, |Archive(closed[..i])|, gs[i].compressionType, gs[i].blocks)
  }

  lemma StartAgrees(w: Writer, gs: seq<Group>, env: Env, compressionType: CompressionType, now: nat)
    requires Agrees(w, gs, env) && now < Pow8(11) && |gs| < ID_LIMIT && LastFits(gs)
    ensures Valid(Close(w, env, now), env)
    ensures Agrees(StartPayload(w, env, compressionType, now), gs + [Group(compressionType, [], [])], env)
  {
    hide Archive, Pow8, PayloadName, NameFits, OpenFields, Concat, RecordFits, PayloadsAgree;
    StartingFits(w, env, compressionType, now);
    var c := Close(w, env, now);
    assert Bytes(c, env) == Archive(c.closed);
    OnePayloadMore(w.manifest, w.closed, c.closed, gs, compressionType);
  }

  lemma OnePayloadMore(manifest: Manifest, closed: seq<Record>, closed': seq<Record>, gs: seq<Group>,
                       compressionType: CompressionType)
    requires forall i :: 0 <= i < |closed'| ==> RecordFits(closed'[i])
    requires closed <= closed' && |closed'| == |gs|
    requires (forall i :: 0 <= i < |closed| ==> RecordFits(closed[i])) && PayloadsAgree(manifest, closed, gs)
    ensures PayloadsAgree(manifest + [Payload(|gs|, |Archive(closed')|, compressionType, [])], closed',
                          gs + [Group(compressionType, [], [])])
  {
    hide Archive, RecordFits;
    assert closed'[..|gs|] == closed';
    assert forall i :: 0 <= i < |gs| ==> closed'[..i] == closed[..i];
  }

  lemma AddBlockAgrees(w: Writer, gs: seq<Group>, env: Env, block: Block)
    requires Agrees(w, gs, env) && gs != []
    ensures var last := gs[|gs| - 1];
            Agrees(AddBlock(w, block), gs[..|gs| - 1] + [last.(blocks := last.blocks + [block])], env)
  {
    hide Archive, Pow8, PayloadName, NameFits, RecordFits;
  }

  lemma AppendAgrees(w: Writer, gs: seq<Group>, env: Env, data: seq<byte>)
    requires Agrees(w, gs, env) && gs != []
    ensures var last := gs[|gs| - 1];
            Agrees(Append(w, data), gs[..|gs| - 1] + [last.(content := last.content + data)], env)
  {
    hide Archive, Pow8, PayloadName, NameFits, RecordFits;
  }

  // ---------------------------------------------------------------------------------------------
  // Main results

  function PayloadFiles(gs: seq<Group>): seq<File> {
    seq(|gs|, i requires 0 <= i < |gs| => File(PayloadName(i), gs[i].content))
  }

  lemma ClosedFiles(w: Writer, gs: seq<Group>, env: Env, now: nat)
    requires Agrees(w, gs, env) && Closable(w, now)
    ensures var closed := Close(w, env, now).closed;
            && ClosedAgree(closed, gs) && |closed| == |gs|
            && Files(closed) == PayloadFiles(gs)
  {
    hide Archive, Pow8, PayloadName, NameFits, RecordFits, PayloadsAgree;
  }

  lemma FinishedReads(w: Writer, gs: seq<Group>, env: Env, now: nat, now': nat, now'': nat)
    requires Agrees(w, gs, env) && Finishable(w, env, now, now', now'')
    ensures var f := Finish(w, env, now, now', now'');
            && Valid(f, env)
            && Read(Bytes(f, env)) == Some(PayloadFiles(gs)
                                           + [File(ManifestName(), env.serialize(w.manifest)),
                                              File(ManifestDigestName(), env.digest(env.serialize(w.manifest)) + [10])])
  {
    var f := Finish(w, env, now, now', now'');
    FinishedRecords(w, env, now, now', now'');
    ClosedFiles(w, gs, env, now);
    var closed := Close(w, env, now).closed;
    var text := env.serialize(w.manifest);
    var m := Record(ManifestName(), text, Stamp(env.uid, env.gid, now'));
    var d := Record(ManifestDigestName(), env.digest(text) + [10], Stamp(env.uid, env.gid, now''));
    FinishedBytes(f, env);
    hide Archive, ManifestName, ManifestDigestName, RecordFits, Read, Finish, Agrees, PayloadFiles, Bytes, Valid, Close,
      Finishable, EndMark;
    assert f.closed == closed + [m, d];
    assert Files(f.closed) == Files(closed) + [File(m.name, m.content), File(d.name, d.content)];
    ArchiveRoundTrip(f.closed);
  }

  lemma FinishedBytes(w: Writer, env: Env)
    requires Valid(w, env) && w.finalized
    ensures Bytes(w, env) == Archive(w.closed) + EndMark()
  {
    hide Archive, RecordFits, EndMark;
    assert Archive(w.closed) + [] == Archive(w.closed);
  }

  /** `data` and `manifest` are what a bundle holds after these calls and Finalize. */
  ghost predicate IsBundleOf(data: seq<byte>, manifest: Manifest, ops: seq<Op>, env: Env) {
    && OwnerFits(env) && Legal(ops)
    && exists now, now', now'' :: FinishedAt(data, manifest, Run(ops, env), env, now, now', now'')
  }

  ghost predicate FinishedAt(data: seq<byte>, manifest: Manifest, w: Writer, env: Env, now: nat, now': nat, now'': nat) {
    && Finishable(w, env, now, now', now'')
    && var f := Finish(w, env, now, now', now'');
    && Valid(f, env) && data == Bytes(f, env) && manifest == f.manifest
  }

  /** Whatever is written under the call rules, a TAR reader finds in the finished bundle exactly one
      file a payload, in order, with all that was appended to it, then the serialized manifest and
      its digest. */
  lemma FinishedBundleReads(data: seq<byte>, manifest: Manifest, ops: seq<Op>, env: Env)
    requires IsBundleOf(data, manifest, ops, env)
    ensures Read(data) == Some(PayloadFiles(Groups(ops))
                               + [File(ManifestName(), env.serialize(manifest)),
                                  File(ManifestDigestName(), env.digest(env.serialize(manifest)) + [10])])
  {
    hide Read, PayloadFiles, Groups, ManifestName, ManifestDigestName, Run, Legal, Agrees, Finish, Finishable, Valid, Bytes;
    var now, now', now'' :| FinishedAt(data, manifest, Run(ops, env), env, now, now', now'');
    FinishedReads(Run(ops, env), Groups(ops), env, now, now', now'');
    ManifestIsKept(Run(ops, env), env, now, now', now'');
  }

  lemma ManifestIsKept(w: Writer, env: Env, now: nat, now': nat, now'': nat)
    ensures Finish(w, env, now, now', now'').manifest == w.manifest
  {
  }

  /** Every such series of calls, finished with sizes and times that fit the headers, makes a bundle. */
  lemma FinishingMakesABundle(ops: seq<Op>, env: Env, now: nat, now': nat, now'': nat)
    requires OwnerFits(env) && Legal(ops) && Finishable(Run(ops, env), env, now, now', now'')
    ensures var f := Finish(Run(ops, env), env, now, now', now'');
            Valid(f, env) && IsBundleOf(Bytes(f, env), f.manifest, ops, env)
  {
    hide Run, Legal, Finishable, Valid, Bytes, Finish, Groups;
    var w := Run(ops, env);
    FinishedIsValid(w, Groups(ops), env, now, now', now'');
    var f := Finish(w, env, now, now', now'');
    assert FinishedAt(Bytes(f, env), f.manifest, w, env, now, now', now'');
  }

  lemma FinishedIsValid(w: Writer, gs: seq<Group>, env: Env, now: nat, now': nat, now'': nat)
    requires Agrees(w, gs, env) && Finishable(w, env, now, now', now'')
    ensures Valid(Finish(w, env, now, now', now''), env)
  {
    hide Archive, RecordFits, Finish, ManifestName, ManifestDigestName, PayloadsAgree, ClosedAgree, Finishable;
    FinishedRecords(w, env, now, now', now'');
  }

  lemma {:induction false} ArchiveAppend(rs: seq<Record>, more: seq<Record>)
    requires forall i :: 0 <= i < |rs| ==> RecordFits(rs[i])
    requires forall i :: 0 <= i < |more| ==> RecordFits(more[i])
    ensures Archive(rs + more) == Archive(rs) + Archive(more)
  {
    hide RecordFits, Encode;
    if rs == [] {
      assert rs + more == more;
    } else {
      assert (rs + more)[1..] == rs[1..] + more;
      ArchiveAppend(rs[1..], more);
    }
  }

  lemma ArchiveSplit(rs: seq<Record>, i: nat)
    requires (forall k :: 0 <= k < |rs| ==> RecordFits(rs[k])) && i < |rs|
    ensures Archive(rs) == Archive(rs[..i]) + (Encode(rs[i]) + Archive(rs[i + 1..]))
  {
    hide RecordFits, Encode;
    assert rs[i..][1..] == rs[i + 1..];
    assert Archive(rs[i..]) == Encode(rs[i]) + Archive(rs[i + 1..]);
    hide Archive;
    ArchiveAppend(rs[..i], rs[i..]);
    assert rs == rs[..i] + rs[i..];
  }

  /** Where record `i` starts, there is its header, and its contents follow. */
  lemma RecordAt(rs: seq<Record>, i: nat, tail: seq<byte>)
    requires (forall k :: 0 <= k < |rs| ==> RecordFits(rs[k])) && i < |rs|
    ensures var data := Archive(rs) + tail;
            var at := |Archive(rs[..i])|;
            && at + BLOCK + |rs[i].content| <= |data|
            && data[at..at + BLOCK] == HeaderBlock(rs[i])
            && data[at + BLOCK..at + BLOCK + |rs[i].content|] == rs[i].content
  {
    hide Archive, RecordFits, HeaderBlock, PaddingSize;
    ArchiveSplit(rs, i);
    var padding := Repeat(0, PaddingSize(|rs[i].content|));
    assert Encode(rs[i]) == HeaderBlock(rs[i]) + rs[i].content + padding;
    hide Encode;
    PartsAt(Archive(rs[..i]), HeaderBlock(rs[i]), rs[i].content, padding, Archive(rs[i + 1..]), tail);
  }

  lemma PartsAt(a: seq<byte>, header: seq<byte>, content: seq<byte>, padding: seq<byte>, b: seq<byte>, tail: seq<byte>)
    ensures var data := a + (header + content + padding + b) + tail;
            && |a| + |header| + |content| <= |data|
            && data[|a|..|a| + |header|] == header
            && data[|a| + |header|..|a| + |header| + |content|] == content
  {
    var data := a + (header + content + padding + b) + tail;
    assert data[|a|..] == header + content + padding + b + tail;
  }

  lemma FinishedManifest(w: Writer, gs: seq<Group>, env: Env, now: nat, now': nat, now'': nat, i: nat)
    requires Agrees(w, gs, env) && Finishable(w, env, now, now', now'') && i < |gs|
    ensures var f := Finish(w, env, now, now', now'');
            && Valid(f, env) && f.finalized && |f.manifest| == |gs| && i < |f.closed|
            && f.closed[i].name == PayloadName(i) && f.closed[i].content == gs[i].content
            && f.manifest[i] == Payload(i, |Archive(f.closed[..i])|, gs[i].compressionType, gs[i].blocks)
  {
    FinishedRecords(w, env, now, now', now'');
    ClosedFiles(w, gs, env, now);
    hide Archive, RecordFits, Finish, PayloadName, ManifestName, ManifestDigestName, Valid, OpenFields, NameFits,
      Finishable;
    assert Finish(w, env, now, now', now'').closed[..i] == w.closed[..i];
  }

  /** At `at` there is the header of the file `name`, and the contents follow. */
  ghost predicate FileAt(data: seq<byte>, at: nat, name: seq<byte>, content: seq<byte>) {
    && at + BLOCK + |content| <= |data|
    && UpToNul(Field(data[at..at + BLOCK], NAME)) == name
    && data[at + BLOCK..at + BLOCK + |content|] == content
  }

  lemma FinishedFileAt(f: Writer, env: Env, i: nat)
    requires Valid(f, env) && f.finalized && i < |f.closed|
    ensures FileAt(Bytes(f, env), |Archive(f.closed[..i])|, f.closed[i].name, f.closed[i].content)
  {
    FinishedBytes(f, env);
    RecordIsFile(f.closed, i, EndMark());
    hide *;
  }

  lemma RecordIsFile(rs: seq<Record>, i: nat, tail: seq<byte>)
    requires (forall k :: 0 <= k < |rs| ==> RecordFits(rs[k])) && i < |rs|
    ensures FileAt(Archive(rs) + tail, |Archive(rs[..i])|, rs[i].name, rs[i].content)
  {
    hide Archive, RecordFits, Field, UpToNul, HeaderBlock;
    RecordAt(rs, i, tail);
    NameReads(rs[i]);
  }

  /** The manifest of a finished bundle lists the payloads with the blocks added to each, and each
      payload's offset points at the header of the file that holds its contents. */
  lemma ManifestPointsAtPayloads(data: seq<byte>, manifest: Manifest, ops: seq<Op>, env: Env, i: nat)
    requires IsBundleOf(data, manifest, ops, env) && i < |Groups(ops)|
    ensures |manifest| == |Groups(ops)|
    ensures manifest[i].id == i && manifest[i].compressionType == Groups(ops)[i].compressionType
    ensures manifest[i].blocks == Groups(ops)[i].blocks
    ensures FileAt(data, manifest[i].offset, PayloadName(i), Groups(ops)[i].content)
  {
    hide PayloadName, Groups, Run, Legal, Agrees, Finish, Finishable, Valid, Bytes, FileAt, Archive;
    var now, now', now'' :| FinishedAt(data, manifest, Run(ops, env), env, now, now', now'');
    FinishedManifest(Run(ops, env), Groups(ops), env, now, now', now'', i);
    FinishedFileAt(Finish(Run(ops, env), env, now, now', now''), env, i);
  }

  lemma ArchivePrefix(rs: seq<Record>, all: seq<Record>)
    requires (forall k :: 0 <= k < |all| ==> RecordFits(all[k])) && rs <= all
    ensures (forall k :: 0 <= k < |rs| ==> RecordFits(rs[k])) && Archive(rs) <= Archive(all)
  {
    hide RecordFits, Archive;
    assert forall k :: 0 <= k < |rs| ==> rs[k] == all[k];
    assert all == rs + all[|rs|..];
    ArchiveAppend(rs, all[|rs|..]);
  }

  lemma {:induction false} ClosedRecordsStay(ops: seq<Op>, more: seq<Op>, env: Env)
    requires OwnerFits(env) && Legal(ops + more)
    ensures Legal(ops) && Run(ops, env).closed <= Run(ops + more, env).closed
    decreases |more|
  {
    hide Archive, Pow8, PayloadName, NameFits, RecordFits, Agrees, Groups, Bytes, LastFits;
    var all := ops + more;
    if more == [] {
      assert all == ops;
    } else {
      assert all[..|all| - 1] == ops + more[..|more| - 1];
      ClosedRecordsStay(ops, more[..|more| - 1], env);
    }
  }

  /** Bytes of closed records never change: whatever is called later only adds behind them. */
  lemma ClosedBytesStay(ops: seq<Op>, more: seq<Op>, env: Env)
    requires OwnerFits(env) && Legal(ops + more)
    ensures Legal(ops) && Archive(Run(ops, env).closed) <= Bytes(Run(ops + more, env), env)
  {
    ClosedRecordsStay(ops, more, env);
    var w := Run(ops + more, env);
    hide Archive, Run, Legal, Groups, RecordFits;
    ArchivePrefix(Run(ops, env).closed, w.closed);
    hide Agrees, Valid;
    assert Archive(w.closed) <= Bytes(w, env);
  }

  /** They are still there, in front, when the bundle is finished. */
  lemma ClosedBytesSurviveFinish(data: seq<byte>, manifest: Manifest, ops: seq<Op>, more: seq<Op>, env: Env)
    requires IsBundleOf(data, manifest, ops + more, env)
    ensures OwnerFits(env) && Legal(ops) && Archive(Run(ops, env).closed) <= data
  {
    hide Groups, Run, Legal, Agrees, Finish, Finishable, Bytes, Archive, OwnerFits;
    ClosedRecordsStay(ops, more, env);
    var w := Run(ops + more, env);
    var now, now', now'' :| FinishedAt(data, manifest, w, env, now, now', now'');
    var f := Finish(w, env, now, now', now'');
    FinishKeepsClosed(w, Groups(ops + more), env, now, now', now'');
    ArchivePrefix(Run(ops, env).closed, f.closed);
    FinishedBytes(f, env);
  }

  lemma FinishKeepsClosed(w: Writer, gs: seq<Group>, env: Env, now: nat, now': nat, now'': nat)
    requires Agrees(w, gs, env) && Finishable(w, env, now, now', now'')
    ensures Finish(w, env, now, now', now'').finalized && w.closed <= Finish(w, env, now, now', now'').closed
  {
    hide Archive, RecordFits, Finish, ManifestName, ManifestDigestName, PayloadsAgree, ClosedAgree, Finishable;
    FinishedRecords(w, env, now, now', now'');
  }
}
