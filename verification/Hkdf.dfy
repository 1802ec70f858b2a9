// Deriving a key with HKDF (cryptor.cc, section 2.3 of RFC 5869): the expand loop with its 8-bit counter.

module Hkdf {
  import opened Common

  const DIGEST_SIZE: nat := 32

  /** HMAC-SHA256, as far as its output's size goes. */
  ghost predicate IsHmac(hmac: (seq<byte>, seq<byte>) -> seq<byte>) {
    forall key, message :: |hmac(key, message)| == DIGEST_SIZE
  }

  /** T(i) of the standard: T(0) is empty, and each block is made from the one before. */
  function T(hmac: (seq<byte>, seq<byte>) -> seq<byte>, prk: seq<byte>, info: seq<byte>, i: nat): seq<byte>
    requires i <= 255
  {
    if i == 0 then [] else hmac(prk, T(hmac, prk, info, i - 1) + info + [i])
  }

  /** T(1), ..., T(n) end to end. */
  function Ts(hmac: (seq<byte>, seq<byte>) -> seq<byte>, prk: seq<byte>, info: seq<byte>, n: nat): seq<byte>
    requires n <= 255
  {
    if n == 0 then [] else Ts(hmac, prk, info, n - 1) + T(hmac, prk, info, n)
  }

  lemma {:induction false} TsLength(hmac: (seq<byte>, seq<byte>) -> seq<byte>, prk: seq<byte>, info: seq<byte>, n: nat)
    requires IsHmac(hmac) && n <= 255
    ensures |Ts(hmac, prk, info, n)| == DIGEST_SIZE * n
  {
    if n > 0 {
      TsLength(hmac, prk, info, n - 1);
    }
  }

  /** How many blocks a key of `l` bytes needs. */
  function BlocksFor(l: nat): (n: nat)
    ensures DIGEST_SIZE * n >= l && (l > 0 ==> n > 0 && DIGEST_SIZE * (n - 1) < l)
    ensures l == 0 ==> n == 0
  {
    (l + DIGEST_SIZE - 1) / DIGEST_SIZE
  }

  /** The expand loop over the key buffer `key`. `ok` is false when an assert of the loop fails. The
      loop's counter has 8 bits: for 255 blocks it never exceeds `n`, so the loop goes round once more
      and finds the output position at the end. */
  method Expand(hmac: (seq<byte>, seq<byte>) -> seq<byte>, prk: seq<byte>, info: seq<byte>, key: array<byte>)
    returns (ok: bool)
    requires IsHmac(hmac)
    modifies key
    ensures ok <==> BlocksFor(key.Length) <= 254
    ensures ok ==> key.Length <= |Ts(hmac, prk, info, BlocksFor(key.Length))|
                   && key[..] == Ts(hmac, prk, info, BlocksFor(key.Length))[..key.Length]
  {
    var l := key.Length;
    var n := BlocksFor(l);
    if n > 255 {
      return false;
    }
    var i: byte := 1;
    var out := 0;
    var prev: seq<byte> := [];
    ghost var done := 0;
    while i <= n
      invariant done <= n && i == (done + 1) % 256 && out == Min(l, DIGEST_SIZE * done)
      invariant prev == T(hmac, prk, info, done)
      invariant |Ts(hmac, prk, info, done)| == DIGEST_SIZE * done
      invariant key[..out] == Ts(hmac, prk, info, done)[..out]
      decreases 256 - done
    {
      hide BlocksFor;
      if out == l {
        // The assert that the output position is not at the end: only a wrapped counter gets here.
        return false;
      }
      var t := hmac(prk, prev + info + [i]);
      TsLength(hmac, prk, info, done + 1);
      var count := Min(|t|, l - out);
      CopyBlock(key, out, t, count);
      Prefixes(Ts(hmac, prk, info, done), t, out, count);
      out := out + count;
      prev := t;
      done := done + 1;
      i := (i + 1) % 256;
    }
    assert key[..] == key[..l];
    ok := true;
  }

  /** `copy_n`: the first `count` bytes of `t` go to the buffer from `at` on. */
  method CopyBlock(key: array<byte>, at: nat, t: seq<byte>, count: nat)
    requires count <= |t| && at + count <= key.Length
    modifies key
    ensures key[..at + count] == old(key[..at]) + t[..count]
  {
    for j := 0 to count
      invariant key[..at + j] == old(key[..at]) + t[..j]
    {
      key[at + j] := t[j];
      assert key[..at + j + 1] == key[..at + j] + [t[j]];
    }
  }

  lemma Prefixes(all: seq<byte>, t: seq<byte>, out: nat, count: nat)
    requires out <= |all| && count <= |t| && (out == |all| || count == 0)
    ensures all[..out] + t[..count] == (all + t)[..out + count]
  {
  }
}
