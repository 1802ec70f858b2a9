// A header block written in place inside a growing byte vector (tar-header-block.cc).

module TarHeader {
  import opened Common
  import opened TarFormat

  /** The bundle's buffer: shared by the bundle and by the header block of the file it is writing. */
  class ByteVector {
    var bytes: seq<byte>

    constructor ()
      ensures bytes == []
    {
      bytes := [];
    }
  }

  /** `strncpy` into the 100-byte field: up to the first nul, cut off at 100 bytes, padded with nuls. */
  function NameField(name: seq<byte>): (field: seq<byte>)
    ensures |field| == 100
  {
    var text := UpToNul(name);
    if |text| >= 100 then text[..100] else text + Repeat(0, 100 - |text|)
  }

  /** A name that fits is stored whole, so the reader gets it back. */
  lemma FittingNameIsStored(name: seq<byte>)
    requires NameFits(name)
    ensures NameField(name) == name + Repeat(0, 100 - |name|)
    ensures UpToNul(NameField(name)) == name
  {
    UpToNulStops(name, 0);
    assert name + Repeat(0, 0) == name;
    UpToNulStops(name, 100 - |name|);
  }

  lemma {:induction false} ByteSumSnoc(s: seq<byte>, b: byte)
    ensures ByteSum(s + [b]) == ByteSum(s) + b
  {
    if s == [] {
      assert s + [b] == [b];
    } else {
      assert (s + [b])[1..] == s[1..] + [b];
      ByteSumSnoc(s[1..], b);
    }
  }

  lemma {:induction false} UpToNulAt(name: seq<byte>, i: nat)
    requires i < |name| && 0 !in name[..i]
    ensures if name[i] == 0 then UpToNul(name) == name[..i]
            else |UpToNul(name)| > i && UpToNul(name)[..i + 1] == name[..i + 1]
  {
    if i > 0 {
      assert name[..i][0] == name[0];
      assert name[1..][..i - 1] == name[..i][1..];
      UpToNulAt(name[1..], i - 1);
      if name[i] == 0 {
        assert name[..i] == [name[0]] + name[1..][..i - 1];
      } else {
        assert name[..i + 1] == [name[0]] + name[1..][..i];
      }
    }
  }

  /** What the copying loop has when it stops. */
  lemma Copied(name: seq<byte>, copied: seq<byte>)
    requires |copied| <= 100 && copied <= name && 0 !in copied
    requires |copied| == 100 || |copied| == |name| || name[|copied|] == 0
    ensures NameField(name) == copied + Repeat(0, 100 - |copied|)
  {
    if |copied| < |name| {
      UpToNulAt(name, |copied|);
      assert |copied| == 100 && name[100] != 0 ==> UpToNul(name)[..100] == UpToNul(name)[..101][..100];
      assert Repeat(0, 0) == [];
    } else {
      UpToNulStops(name, 0);
      assert name + Repeat(0, 0) == name;
    }
  }

  /** Two adjoining patches are one patch. */
  lemma SpliceTwice(s: seq<byte>, at: nat, p: seq<byte>, q: seq<byte>)
    requires at + |p| + |q| <= |s|
    ensures Splice(Splice(s, at, p), at + |p|, q) == Splice(s, at, p + q)
  {
  }

  lemma Patched(s: seq<byte>, at: nat, p: seq<byte>)
    requires at + |p| <= |s|
    ensures |Splice(s, at, p)| == |s| && Splice(s, at, p)[at..at + |p|] == p
  {
  }

  /** Patching inside a stretch of the buffer patches that stretch. */
  lemma SpliceInside(s: seq<byte>, from: nat, block: seq<byte>, at: nat, p: seq<byte>)
    requires from + |block| <= |s| && s[from..from + |block|] == block && at + |p| <= |block|
    ensures Splice(s, from + at, p) == Splice(s, from, Splice(block, at, p))
  {
    var patched := Splice(block, at, p);
    assert |patched| == |block|;
    var left := Splice(s, from + at, p);
    var right := Splice(s, from, patched);
    assert |left| == |right| == |s|;
    forall i | 0 <= i < |s| ensures left[i] == right[i] {
      if from <= i < from + |block| {
        assert block[i - from] == s[i];
        assert right[i] == patched[i - from];
      }
    }
  }

  /** Writing a field's bytes in two parts at its offset, within a buffer that holds the block. */
  lemma FieldPatched(s: seq<byte>, offset: nat, fields: seq<seq<byte>>, k: nat, p: seq<byte>, q: seq<byte>)
    requires IsHeader(fields) && k < 9 && |p| + |q| == WIDTHS[k]
    requires offset + BLOCK <= |s| && s[offset..offset + BLOCK] == Concat(fields)
    ensures var patched := fields[k := p + q];
            && IsHeader(patched) && |Concat(patched)| == BLOCK && FieldOffset(k) + WIDTHS[k] <= BLOCK
            && Splice(s, offset, Concat(patched))[offset..offset + BLOCK] == Concat(patched)
            && (|q| == 0 ==> Splice(s, offset + FieldOffset(k), p) == Splice(s, offset, Concat(patched)))
            && |Splice(s, offset + FieldOffset(k), p)| == |s|
            && Splice(Splice(s, offset + FieldOffset(k), p), offset + FieldOffset(k) + |p|, q)
            == Splice(s, offset, Concat(patched))
  {
    FieldInBlock(fields, k, p + q);
    HeaderLength(fields[k := p + q]);
    hide Concat, FieldOffset, Splice;
    SpliceInside(s, offset, Concat(fields), FieldOffset(k), p + q);
    SpliceTwice(s, offset + FieldOffset(k), p, q);
    Patched(s, offset, Concat(fields[k := p + q]));
    Patched(s, offset + FieldOffset(k), p);
    assert |q| == 0 ==> p + q == p;
  }

  lemma SpliceStep(s: seq<byte>, at: nat, p: seq<byte>, b: byte)
    requires at + |p| < |s|
    ensures |Splice(s, at, p)| == |s| && Splice(s, at, p)[at + |p| := b] == Splice(s, at, p + [b])
  {
  }

  class TarHeaderBlock {
    const data: ByteVector
    const offset: nat
    ghost var fields: seq<seq<byte>>

    /** The block is the concatenation of its fields. */
    ghost predicate Valid()
      reads this, data
    {
      && IsHeader(fields)
      && offset + BLOCK <= |data.bytes|
      && data.bytes[offset..offset + BLOCK] == Concat(fields)
    }

    constructor (data: ByteVector, offset: nat)
      requires offset + BLOCK <= |data.bytes|
      modifies data
      ensures this.data == data && this.offset == offset && Valid()
      ensures fields == BlankFields()
      ensures data.bytes == Splice(old(data.bytes), offset, Concat(fields))
    {
      this.data := data;
      this.offset := offset;
      fields := BlankFields();
      new;
      HeaderLength(fields);
      ghost var before := data.bytes;
      Copy(0, Repeat(0, BLOCK));
      Copy(FieldOffset(LINK), [48]);
      BlankBlock();
      SpliceInside(Splice(before, offset, Repeat(0, BLOCK)), offset, Repeat(0, BLOCK), FieldOffset(LINK), [48]);
    }

    /** Copies bytes into the block from `at` on, one by one. */
    method Copy(at: nat, s: seq<byte>)
      requires offset + at + |s| <= |data.bytes|
      modifies data
      ensures data.bytes == Splice(old(data.bytes), offset + at, s)
    {
      assert Splice(data.bytes, offset + at, []) == data.bytes;
      hide Splice;
      for i := 0 to |s|
        invariant data.bytes == Splice(old(data.bytes), offset + at, s[..i])
      {
        SpliceStep(old(data.bytes), offset + at, s[..i], s[i]);
        assert s[..i + 1] == s[..i] + [s[i]];
        data.bytes := data.bytes[offset + at + i := s[i]];
      }
      assert s[..|s|] == s;
    }

    /** Replaces one whole field. */
    method SetField(k: nat, patch: seq<byte>)
      requires Valid() && k < 9 && |patch| == WIDTHS[k]
      modifies this`fields, data
      ensures Valid() && fields == old(fields)[k := patch]
      ensures data.bytes == Splice(old(data.bytes), offset, Concat(fields))
    {
      hide Concat, Splice;
      FieldPatched(data.bytes, offset, fields, k, patch, []);
      assert patch + [] == patch;
      fields := fields[k := patch];
      Copy(FieldOffset(k), patch);
    }

    method SetFilename(filename: seq<byte>)
      requires Valid()
      modifies this`fields, data
      ensures Valid() && fields == old(fields)[NAME := NameField(filename)]
      ensures data.bytes == Splice(old(data.bytes), offset, Concat(fields))
    {
      var copied: seq<byte> := [];
      while |copied| < 100 && |copied| < |filename| && filename[|copied|] != 0
        invariant |copied| <= |filename| && |copied| <= 100
        invariant copied == filename[..|copied|] && 0 !in copied
        decreases 100 - |copied|
      {
        copied := copied + [filename[|copied|]];
      }
      Copied(filename, copied);
      SetField(NAME, copied + Repeat(0, 100 - |copied|));
    }

    /** Octal digits with leading zeros, a nul, and `tail` behind it; the width must be exact. */
    method WriteInteger(k: nat, value: nat, tail: seq<byte>)
      requires Valid() && k < 9 && |tail| < WIDTHS[k] && value < Pow8(WIDTHS[k] - 1 - |tail|)
      modifies this`fields, data
      ensures Valid() && fields == old(fields)[k := Octal(value, WIDTHS[k] - 1 - |tail|) + [0] + tail]
      ensures data.bytes == Splice(old(data.bytes), offset, Concat(fields))
    {
      var digits := Octal(value, WIDTHS[k] - 1 - |tail|);
      hide Concat, Splice, Octal, Pow8;
      FieldPatched(data.bytes, offset, fields, k, digits + [0], tail);
      Copy(FieldOffset(k), digits + [0]);
      Copy(FieldOffset(k) + |digits| + 1, tail);
      fields := fields[k := digits + [0] + tail];
    }

    method SetNumber(k: nat, value: nat)
      requires Valid() && MODE <= k <= TIME && value < Pow8(WIDTHS[k] - 1)
      modifies this`fields, data
      ensures Valid() && fields == old(fields)[k := NumberField(value, WIDTHS[k] - 1)]
      ensures data.bytes == Splice(old(data.bytes), offset, Concat(fields))
    {
      WriteInteger(k, value, []);
      assert Octal(value, WIDTHS[k] - 1) + [0] + [] == NumberField(value, WIDTHS[k] - 1);
    }

    /** Fills the checksum field with spaces, sums all bytes of the block and stores the sum. */
    method ComputeAndSetChecksum()
      requires Valid()
      modifies this`fields, data
      ensures Valid() && |Concat(old(fields))| == BLOCK
      ensures fields == old(fields)[CHECKSUM := ChecksumField(HeaderSum(Concat(old(fields))))]
      ensures data.bytes == Splice(old(data.bytes), offset, Concat(fields))
    {
      HeaderLength(fields);
      FieldInBlock(fields, CHECKSUM, SPACES);
      SetField(CHECKSUM, SPACES);
      var checksum := SumOfBytes();
      assert checksum == HeaderSum(Concat(old(fields)));
      hide Concat, Splice, Octal, Pow8, HeaderSum;
      WriteInteger(CHECKSUM, checksum, [32]);
      assert Octal(checksum, 6) + [0] + [32] == ChecksumField(checksum);
    }

    method SumOfBytes() returns (checksum: nat)
      requires offset + BLOCK <= |data.bytes|
      ensures checksum == ByteSum(data.bytes[offset..offset + BLOCK])
    {
      checksum := 0;
      ghost var block := data.bytes[offset..offset + BLOCK];
      for i := 0 to BLOCK
        invariant checksum == ByteSum(block[..i])
      {
        assert data.bytes[offset + i] == block[i];
        ByteSumSnoc(block[..i], block[i]);
        assert block[..i + 1] == block[..i] + [block[i]];
        checksum := checksum + data.bytes[offset + i];
      }
      assert block[..BLOCK] == block;
    }
  }

  /** The constructor's two writes produce the blank fields. */
  lemma BlankBlock()
    ensures Splice(Repeat(0, BLOCK), FieldOffset(LINK), [48]) == Concat(BlankFields())
  {
  }
}
