// The TAR records of a bundle: the fields of a header block, octal numbers, the checksum, whole
// archives, and a reader that inverts the writer.

module TarFormat {
  import opened Common

  const BLOCK: nat := 512

  // ---------------------------------------------------------------------------------------------
  // Octal numbers

  function Pow8(n: nat): (p: nat)
    ensures p > 0
  {
    if n == 0 then 1 else 8 * Pow8(n - 1)
  }

  /** `width` octal digits of `value`, with leading zeros. */
  function Octal(value: nat, width: nat): (s: seq<byte>)
    requires value < Pow8(width)
    ensures |s| == width
  {
    if width == 0 then [] else Octal(value / 8, width - 1) + [48 + value % 8]
  }

  /** The octal digits of `value`, without leading zeros, as an output stream writes them. */
  function Digits(value: nat): (s: seq<byte>)
    ensures s != []
  {
    if value < 8 then [48 + value] else Digits(value / 8) + [48 + value % 8]
  }

  /** The same with zeros in front up to the stream's width; a longer number is not cut. */
  function Padded(value: nat, width: nat): seq<byte> {
    Repeat(48, Max(0, width - |Digits(value)|)) + Digits(value)
  }

  /** The writer's assert on the length of what it wrote holds exactly for the values of at most that many
      octal digits, and what it wrote then is the number with leading zeros. */
  lemma {:induction false} PaddedFits(value: nat, width: nat)
    requires width >= 1
    ensures |Padded(value, width)| == width <==> value < Pow8(width)
    ensures value < Pow8(width) ==> Padded(value, width) == Octal(value, width)
    decreases width
  {
    if value < 8 {
      SmallOctal(value, width);
    } else if width == 1 {
      assert Pow8(1) == 8 * Pow8(0);
    } else {
      PaddedFits(value / 8, width - 1);
      assert value < Pow8(width) <==> value / 8 < Pow8(width - 1);
      assert |Digits(value)| == |Digits(value / 8)| + 1;
      assert Padded(value, width) == Padded(value / 8, width - 1) + [48 + value % 8];
    }
  }

  lemma {:induction false} SmallOctal(value: nat, width: nat)
    requires value < 8 && width >= 1
    ensures value < Pow8(width) && Octal(value, width) == Repeat(48, width - 1) + [48 + value]
    decreases width
  {
    if width == 1 {
      assert Pow8(1) == 8 * Pow8(0);
      assert Octal(value / 8, 0) == [];
    } else {
      SmallOctal(0, width - 1);
      assert Pow8(width) == 8 * Pow8(width - 1);
      assert Repeat(48, width - 2) + [48] == Repeat(48, width - 1);
    }
  }

  predicate IsOctalDigit(b: byte) {
    48 <= b < 56
  }

  /** Reads digits up to the first byte that is none, as an input stream in octal mode does. */
  function ReadOctal(s: seq<byte>, sofar: nat): nat {
    if s == [] || !IsOctalDigit(s[0]) then sofar else ReadOctal(s[1..], 8 * sofar + (s[0] - 48))
  }

  lemma ShiftDigit(sofar: nat, p: nat, value: nat)
    ensures 8 * (sofar * p + value / 8) + value % 8 == sofar * (8 * p) + value
  {
    assert sofar * (8 * p) == 8 * (sofar * p);
  }

  lemma {:induction false} ReadOctalDigits(value: nat, width: nat, sofar: nat, rest: seq<byte>)
    requires value < Pow8(width)
    ensures ReadOctal(Octal(value, width) + rest, sofar) == ReadOctal(rest, sofar * Pow8(width) + value)
    decreases width
  {
    if width == 0 {
      assert Octal(value, 0) + rest == rest;
    } else {
      var digit: byte := 48 + value % 8;
      var next := sofar * Pow8(width - 1) + value / 8;
      assert Octal(value, width) + rest == Octal(value / 8, width - 1) + ([digit] + rest);
      ReadOctalDigits(value / 8, width - 1, sofar, [digit] + rest);
      assert ([digit] + rest)[1..] == rest;
      ShiftDigit(sofar, Pow8(width - 1), value);
    }
  }

  /** A number written with leading zeros and followed by a nul reads back as itself. */
  lemma OctalRoundTrip(value: nat, width: nat, rest: seq<byte>)
    requires value < Pow8(width)
    ensures ReadOctal(Octal(value, width) + ([0] + rest), 0) == value
  {
    ReadOctalDigits(value, width, 0, [0] + rest);
  }

  // ---------------------------------------------------------------------------------------------
  // Header blocks as a list of fields

  /** filename, mode, owner_uid, owner_gid, size, modification_time, checksum, link_indicator, and
      the unused linked filename with the padding. */
  const WIDTHS: seq<nat> := [100, 8, 8, 8, 12, 12, 8, 1, 355]

  const NAME: nat := 0
  const MODE: nat := 1
  const UID: nat := 2
  const GID: nat := 3
  const SIZE: nat := 4
  const TIME: nat := 5
  const CHECKSUM: nat := 6
  const LINK: nat := 7
  const UNUSED: nat := 8

  /** Where field `k` starts within the block. */
  function FieldOffset(k: nat): nat
    requires k < 9
  {
    [0, 100, 108, 116, 124, 136, 148, 156, 157][k]
  }

  ghost predicate IsHeader(fields: seq<seq<byte>>) {
    |fields| == 9 && forall k :: 0 <= k < 9 ==> |fields[k]| == WIDTHS[k]
  }

  /** Replaces the bytes of `s` from `at` on by `patch`. */
  function Splice(s: seq<byte>, at: nat, patch: seq<byte>): seq<byte>
    requires at + |patch| <= |s|
  {
    s[..at] + patch + s[at + |patch|..]
  }

  lemma {:induction false} ConcatSplit(fs: seq<seq<byte>>, k: nat)
    requires k < |fs|
    ensures Concat(fs) == Concat(fs[..k]) + fs[k] + Concat(fs[k + 1..])
  {
    assert fs == fs[..k] + fs[k..] && fs[k..] == [fs[k]] + fs[k + 1..];
    ConcatAppend(fs[..k], fs[k..]);
    assert Concat(fs[k..]) == fs[k] + Concat(fs[k + 1..]);
  }

  lemma TakeOneMore<T>(s: seq<T>, k: nat)
    requires 0 < k <= |s|
    ensures s[..k] == s[..k - 1] + [s[k - 1]]
  {
  }

  /** The fields before field `k` fill exactly the bytes up to its offset. */
  lemma {:induction false} FieldsBefore(fields: seq<seq<byte>>, k: nat)
    requires IsHeader(fields) && k <= 9
    ensures |Concat(fields[..k])| == if k < 9 then FieldOffset(k) else BLOCK
    decreases k
  {
    if k > 0 {
      FieldsBefore(fields, k - 1);
      TakeOneMore(fields, k);
      ConcatSnoc(fields[..k - 1], fields[k - 1]);
    }
  }

  lemma HeaderLength(fields: seq<seq<byte>>)
    requires IsHeader(fields)
    ensures |Concat(fields)| == BLOCK
  {
    FieldsBefore(fields, 9);
    assert fields[..9] == fields;
  }

  /** Field `k` is found at its offset, and overwriting it there replaces just that field. */
  lemma FieldInBlock(fields: seq<seq<byte>>, k: nat, patch: seq<byte>)
    requires IsHeader(fields) && k < 9 && |patch| == WIDTHS[k]
    ensures FieldOffset(k) + WIDTHS[k] <= |Concat(fields)| == BLOCK
    ensures Concat(fields)[FieldOffset(k)..FieldOffset(k) + WIDTHS[k]] == fields[k]
    ensures IsHeader(fields[k := patch])
    ensures Splice(Concat(fields), FieldOffset(k), patch) == Concat(fields[k := patch])
  {
    FieldsBefore(fields, k);
    HeaderLength(fields);
    ConcatSplit(fields, k);
    ConcatSplit(fields[k := patch], k);
    assert fields[k := patch][..k] == fields[..k] && fields[k := patch][k + 1..] == fields[k + 1..];
  }

  // ---------------------------------------------------------------------------------------------
  // Checksums

  function ByteSum(s: seq<byte>): (sum: nat)
    ensures sum <= 255 * |s|
  {
    if s == [] then 0 else s[0] + ByteSum(s[1..])
  }

  const SPACES: seq<byte> := [32, 32, 32, 32, 32, 32, 32, 32]

  /** The sum of a header's bytes with the checksum field taken as eight spaces. */
  function HeaderSum(block: seq<byte>): (sum: nat)
    requires |block| == BLOCK
    ensures sum < Pow8(6)
  {
    assert Pow8(6) == 262144 by {
      assert Pow8(3) == 512;
    }
    ByteSum(Splice(block, FieldOffset(CHECKSUM), SPACES))
  }

  /** Six digits, a nul and a space. */
  function ChecksumField(sum: nat): (s: seq<byte>)
    requires sum < Pow8(6)
    ensures |s| == 8
  {
    Octal(sum, 6) + [0, 32]
  }

  // ---------------------------------------------------------------------------------------------
  // Records and archives

  /** The environment's part of a header: who runs the program and when the file was closed. */
  datatype Stamp = Stamp(uid: nat, gid: nat, time: nat)

  ghost predicate StampFits(stamp: Stamp) {
    stamp.uid < Pow8(7) && stamp.gid < Pow8(7) && stamp.time < Pow8(11)
  }

  datatype Record = Record(name: seq<byte>, content: seq<byte>, stamp: Stamp)

  /** A name that fits its field and can be told apart from the nuls behind it. */
  predicate NameFits(name: seq<byte>) {
    |name| <= 100 && 0 !in name
  }

  ghost predicate RecordFits(r: Record) {
    NameFits(r.name) && |r.content| < Pow8(11) && StampFits(r.stamp)
  }

  const MODE_READ_ONLY: nat := 256   // 0400

  function NumberField(value: nat, width: nat): (s: seq<byte>)
    requires value < Pow8(width)
    ensures |s| == width + 1
  {
    Octal(value, width) + [0]
  }

  lemma ModeFits()
    ensures MODE_READ_ONLY < Pow8(7)
  {
    assert Pow8(3) == 512;
  }

  /** The fields of a new header: everything zero but the link indicator '0'. */
  function BlankFields(): (fields: seq<seq<byte>>)
    ensures IsHeader(fields)
  {
    [Repeat(0, 100), Repeat(0, 8), Repeat(0, 8), Repeat(0, 8), Repeat(0, 12), Repeat(0, 12), Repeat(0, 8), [48],
     Repeat(0, 355)]
  }

  /** The fields while the file is open: name, mode and owner are set. */
  function OpenFields(name: seq<byte>, uid: nat, gid: nat): (fields: seq<seq<byte>>)
    requires NameFits(name) && uid < Pow8(7) && gid < Pow8(7)
    ensures IsHeader(fields)
  {
    ModeFits();
    BlankFields()[NAME := name + Repeat(0, 100 - |name|)][MODE := NumberField(MODE_READ_ONLY, 7)]
                 [UID := NumberField(uid, 7)][GID := NumberField(gid, 7)]
  }

  /** The fields once size and time are set, with the checksum field `checksum`. */
  function SizedFields(r: Record, checksum: seq<byte>): (fields: seq<seq<byte>>)
    requires RecordFits(r) && |checksum| == 8
    ensures IsHeader(fields)
  {
    OpenFields(r.name, r.stamp.uid, r.stamp.gid)[SIZE := NumberField(|r.content|, 11)]
              [TIME := NumberField(r.stamp.time, 11)][CHECKSUM := checksum]
  }

  function HeaderBlock(r: Record): (block: seq<byte>)
    requires RecordFits(r)
    ensures |block| == BLOCK
  {
    HeaderLength(SizedFields(r, SPACES));
    var sum := HeaderSum(Concat(SizedFields(r, SPACES)));
    HeaderLength(SizedFields(r, ChecksumField(sum)));
    Concat(SizedFields(r, ChecksumField(sum)))
  }

  /** A full block of padding after contents that fill whole blocks. */
  function PaddingSize(size: nat): (p: nat)
    ensures 0 < p <= BLOCK && (size + p) % BLOCK == 0
  {
    BLOCK - size % BLOCK
  }

  function Encode(r: Record): seq<byte>
    requires RecordFits(r)
  {
    HeaderBlock(r) + r.content + Repeat(0, PaddingSize(|r.content|))
  }

  function Archive(rs: seq<Record>): seq<byte>
    requires forall i :: 0 <= i < |rs| ==> RecordFits(rs[i])
  {
    if rs == [] then [] else Encode(rs[0]) + Archive(rs[1..])
  }

  lemma {:induction false} ArchiveSnoc(rs: seq<Record>, r: Record)
    requires RecordFits(r) && forall i :: 0 <= i < |rs| ==> RecordFits(rs[i])
    ensures Archive(rs + [r]) == Archive(rs) + Encode(r)
  {
    if rs == [] {
      assert rs + [r] == [r];
      assert Archive([r]) == Encode(r) + Archive([]);
    } else {
      assert (rs + [r])[1..] == rs[1..] + [r];
      ArchiveSnoc(rs[1..], r);
    }
  }

  // ---------------------------------------------------------------------------------------------
  // The reader

  datatype File = File(name: seq<byte>, content: seq<byte>)

  predicate IsZero(block: seq<byte>) {
    forall i :: 0 <= i < |block| ==> block[i] == 0
  }

  /** Up to the first nul, or the whole field. */
  function UpToNul(field: seq<byte>): seq<byte> {
    if field == [] || field[0] == 0 then [] else [field[0]] + UpToNul(field[1..])
  }

  function Field(block: seq<byte>, k: nat): seq<byte>
    requires |block| == BLOCK && k < 9
  {
    block[FieldOffset(k)..FieldOffset(k) + WIDTHS[k]]
  }

  /** Whole blocks that hold `size` bytes. */
  function Blocks(size: nat): (n: nat)
    ensures n % BLOCK == 0 && size <= n < size + BLOCK
  {
    size + (BLOCK - size % BLOCK) % BLOCK
  }

  /** Reads files until two consecutive zero blocks; a lone zero block is skipped. Fails on a
      checksum that does not match and on a truncated archive. */
  function Read(data: seq<byte>): Option<seq<File>>
    decreases |data|
  {
    if |data| < BLOCK then None
    else
      var block := data[..BLOCK];
      if IsZero(block) then
        if |data| >= 2 * BLOCK && IsZero(data[BLOCK..2 * BLOCK]) then Some([]) else Read(data[BLOCK..])
      else
        var size := ReadOctal(Field(block, SIZE), 0);
        if ReadOctal(Field(block, CHECKSUM), 0) != HeaderSum(block) || |data| < BLOCK + Blocks(size) then None
        else
          match Read(data[BLOCK + Blocks(size)..])
          case None => None
          case Some(files) => Some([File(UpToNul(Field(block, NAME)), data[BLOCK..BLOCK + size])] + files)
  }

  function Files(rs: seq<Record>): seq<File> {
    seq(|rs|, i requires 0 <= i < |rs| => File(rs[i].name, rs[i].content))
  }

  lemma {:induction false} UpToNulStops(name: seq<byte>, n: nat)
    requires 0 !in name
    ensures UpToNul(name + Repeat(0, n)) == name
  {
    if name == [] {
      assert name + Repeat(0, n) == Repeat(0, n);
    } else {
      assert name[0] in name;
      assert (name + Repeat(0, n))[1..] == name[1..] + Repeat(0, n);
      UpToNulStops(name[1..], n);
    }
  }

  lemma NumberFieldReads(value: nat, width: nat)
    requires value < Pow8(width)
    ensures ReadOctal(NumberField(value, width), 0) == value
  {
    OctalRoundTrip(value, width, []);
    assert [0] + [] == [0];
  }

  /** The finished header block as its fields, and the sum its checksum field was made from. */
  lemma HeaderFields(r: Record) returns (fields: seq<seq<byte>>, sum: nat)
    requires RecordFits(r)
    ensures |SizedFields(r, SPACES)| == 9 && |Concat(SizedFields(r, SPACES))| == BLOCK
    ensures sum == HeaderSum(Concat(SizedFields(r, SPACES))) < Pow8(6)
    ensures fields == SizedFields(r, ChecksumField(sum)) && IsHeader(fields)
    ensures HeaderBlock(r) == Concat(fields)
  {
    hide Concat, HeaderSum, SizedFields, ChecksumField, Pow8;
    HeaderLength(SizedFields(r, SPACES));
    sum := HeaderSum(Concat(SizedFields(r, SPACES)));
    fields := SizedFields(r, ChecksumField(sum));
  }

  lemma NameReads(r: Record)
    requires RecordFits(r)
    ensures UpToNul(Field(HeaderBlock(r), NAME)) == r.name
  {
    var fields, sum := HeaderFields(r);
    hide HeaderBlock, Concat, Pow8, NumberField, ChecksumField;
    FieldInBlock(fields, NAME, fields[NAME]);
    UpToNulStops(r.name, 100 - |r.name|);
  }

  lemma SizeReads(r: Record)
    requires RecordFits(r)
    ensures ReadOctal(Field(HeaderBlock(r), SIZE), 0) == |r.content|
  {
    var fields, sum := HeaderFields(r);
    hide HeaderBlock, Concat, Pow8, NumberField, ChecksumField, ReadOctal, Octal;
    FieldInBlock(fields, SIZE, fields[SIZE]);
    NumberFieldReads(|r.content|, 11);
  }

  lemma HeaderIsNotZero(r: Record)
    requires RecordFits(r)
    ensures !IsZero(HeaderBlock(r))
  {
    var fields, sum := HeaderFields(r);
    hide HeaderBlock, Concat, Pow8, NumberField, ChecksumField;
    FieldInBlock(fields, LINK, fields[LINK]);
    assert HeaderBlock(r)[156] == Field(HeaderBlock(r), LINK)[0] == 48;
  }

  lemma {:induction false} SameButChecksum(r: Record, checksum: seq<byte>)
    requires RecordFits(r) && |checksum| == 8
    ensures |Concat(SizedFields(r, checksum))| == BLOCK
    ensures Splice(Concat(SizedFields(r, checksum)), FieldOffset(CHECKSUM), SPACES) == Concat(SizedFields(r, SPACES))
  {
    hide Concat, Pow8, NumberField, OpenFields;
    FieldInBlock(SizedFields(r, checksum), CHECKSUM, SPACES);
    assert SizedFields(r, checksum)[CHECKSUM := SPACES] == SizedFields(r, SPACES);
  }

  lemma ChecksumReads(r: Record)
    requires RecordFits(r)
    ensures ReadOctal(Field(HeaderBlock(r), CHECKSUM), 0) == HeaderSum(HeaderBlock(r))
  {
    var fields, sum := HeaderFields(r);
    SameButChecksum(r, SPACES);
    SameButChecksum(r, ChecksumField(sum));
    hide HeaderBlock, Concat, Pow8, NumberField, ReadOctal, Octal, OpenFields, ByteSum, Splice;
    assert HeaderSum(HeaderBlock(r)) == sum;
    FieldInBlock(fields, CHECKSUM, fields[CHECKSUM]);
    OctalRoundTrip(sum, 6, [32]);
    assert [0] + [32] == [0, 32];
  }

  /** One file of the archive, given what its header says. */
  lemma ReadFile(data: seq<byte>, size: nat)
    requires |data| >= BLOCK + Blocks(size) && !IsZero(data[..BLOCK])
    requires ReadOctal(Field(data[..BLOCK], SIZE), 0) == size
    requires ReadOctal(Field(data[..BLOCK], CHECKSUM), 0) == HeaderSum(data[..BLOCK])
    ensures Read(data) == match Read(data[BLOCK + Blocks(size)..])
                          case None => None
                          case Some(files) =>
                            Some([File(UpToNul(Field(data[..BLOCK], NAME)), data[BLOCK..BLOCK + size])] + files)
  {
    hide Field, HeaderSum, IsZero, ReadOctal, UpToNul, Blocks;
  }

  /** The reader's view of a record: header, contents, and at most one whole block of padding left over. */
  lemma Slices(header: seq<byte>, content: seq<byte>, rest: seq<byte>)
    requires |header| == BLOCK
    ensures var data := header + content + Repeat(0, PaddingSize(|content|)) + rest;
            && BLOCK + Blocks(|content|) <= |data|
            && data[..BLOCK] == header
            && data[BLOCK..BLOCK + |content|] == content
            && data[BLOCK + Blocks(|content|)..] == (if |content| % BLOCK == 0 then Repeat(0, BLOCK) else []) + rest
  {
    var padding := Repeat(0, PaddingSize(|content|));
    var data := header + content + padding + rest;
    assert data[BLOCK + |content|..] == padding + rest;
    if |content| % BLOCK == 0 {
      assert padding == Repeat(0, BLOCK);
    } else {
      assert Blocks(|content|) == |content| + |padding|;
    }
  }

  /** What the reader makes of one record followed by anything. */
  lemma RecordReads(r: Record, rest: seq<byte>)
    requires RecordFits(r)
    ensures var after := (if |r.content| % BLOCK == 0 then Repeat(0, BLOCK) else []) + rest;
            Read(Encode(r) + rest) == match Read(after)
                                      case None => None
                                      case Some(files) => Some([File(r.name, r.content)] + files)
  {
    Slices(HeaderBlock(r), r.content, rest);
    NameReads(r);
    SizeReads(r);
    HeaderIsNotZero(r);
    ChecksumReads(r);
    assert Encode(r) == HeaderBlock(r) + r.content + Repeat(0, PaddingSize(|r.content|));
    hide Read, HeaderBlock, Encode, Field, HeaderSum, IsZero, ReadOctal, UpToNul, Blocks, PaddingSize;
    ReadFile(Encode(r) + rest, |r.content|);
  }

  /** The end of an archive: two zero blocks. */
  function EndMark(): seq<byte> {
    Repeat(0, 2 * BLOCK)
  }

  lemma ReadZero(data: seq<byte>)
    requires |data| >= BLOCK && IsZero(data[..BLOCK])
    ensures Read(data) == if |data| >= 2 * BLOCK && IsZero(data[BLOCK..2 * BLOCK]) then Some([]) else Read(data[BLOCK..])
  {
    hide IsZero, Field, HeaderSum, ReadOctal, UpToNul, Blocks;
  }

  lemma FirstBlocks(first: seq<byte>, rest: seq<byte>)
    requires |first| == BLOCK
    ensures (first + rest)[..BLOCK] == first && (first + rest)[BLOCK..] == rest
    ensures |rest| >= BLOCK ==> (first + rest)[BLOCK..2 * BLOCK] == rest[..BLOCK]
  {
    if |rest| >= BLOCK {
      assert (first + rest)[BLOCK..2 * BLOCK] == rest[..BLOCK];
    }
  }

  /** A zero block ends the archive if another follows, and is skipped otherwise. */
  lemma ZeroBlock(rest: seq<byte>)
    ensures Read(Repeat(0, BLOCK) + rest)
         == if |rest| >= BLOCK && IsZero(rest[..BLOCK]) then Some([]) else Read(rest)
  {
    var zeros := Repeat(0, BLOCK);
    assert IsZero(zeros);
    hide Read, IsZero, Repeat;
    FirstBlocks(zeros, rest);
    ReadZero(zeros + rest);
  }

  lemma EndMarkReads()
    ensures Read(EndMark()) == Some([])
  {
    assert EndMark() == Repeat(0, BLOCK) + Repeat(0, BLOCK);
    assert Repeat(0, BLOCK)[..BLOCK] == Repeat(0, BLOCK);
    hide Read;
    ZeroBlock(Repeat(0, BLOCK));
  }

  /** A lone zero block before a record, or before the end mark, does not matter. */
  lemma ZeroBlockSkipped(rs: seq<Record>)
    requires forall i :: 0 <= i < |rs| ==> RecordFits(rs[i])
    ensures Read(Repeat(0, BLOCK) + (Archive(rs) + EndMark())) == Read(Archive(rs) + EndMark())
  {
    hide Read, HeaderBlock, HeaderSum;
    var rest := Archive(rs) + EndMark();
    ZeroBlock(rest);
    if rs == [] {
      assert rest == EndMark();
      EndMarkReads();
    } else {
      HeaderIsNotZero(rs[0]);
      assert rest[..BLOCK] == HeaderBlock(rs[0]);
    }
  }

  /** Reading a finished archive gives back exactly the names and contents that were written. */
  lemma {:induction false} ArchiveRoundTrip(rs: seq<Record>)
    requires forall i :: 0 <= i < |rs| ==> RecordFits(rs[i])
    ensures Read(Archive(rs) + EndMark()) == Some(Files(rs))
  {
    hide Read, Encode, RecordFits;
    if rs == [] {
      assert Archive(rs) + EndMark() == EndMark();
      EndMarkReads();
      assert Files(rs) == [];
    } else {
      var rest := Archive(rs[1..]) + EndMark();
      assert Archive(rs) + EndMark() == Encode(rs[0]) + rest;
      RecordReads(rs[0], rest);
      ArchiveRoundTrip(rs[1..]);
      ZeroBlockSkipped(rs[1..]);
      assert [] + rest == rest;
      assert Files(rs) == [File(rs[0].name, rs[0].content)] + Files(rs[1..]);
    }
  }
}
