// Small vocabulary shared by every component of the model.

module Common {
  datatype Option<+T> = None | Some(value: T)

  /** A byte of the program's `vector<byte>` buffers. */
  type byte = x: int | 0 <= x < 256

  /** The number of values of the program's 64-bit `size_t`. */
  const SIZE_T_LIMIT := 0x1_0000_0000_0000_0000

  const SIZE_T_MAX := SIZE_T_LIMIT - 1

  function Min(a: int, b: int): int {
    if a <= b then a else b
  }

  function Max(a: int, b: int): int {
    if a >= b then a else b
  }

  /** `n` copies of `b`. */
  function Repeat(b: byte, n: nat): (s: seq<byte>)
    ensures |s| == n
    ensures forall i :: 0 <= i < n ==> s[i] == b
  {
    seq(n, i => b)
  }

  /** All the buffers of a list, end to end. */
  function Concat<T>(ss: seq<seq<T>>): seq<T> {
    if ss == [] then [] else ss[0] + Concat(ss[1..])
  }

  lemma {:induction false} ConcatAppend<T>(a: seq<seq<T>>, b: seq<seq<T>>)
    ensures Concat(a + b) == Concat(a) + Concat(b)
  {
    if a == [] {
      assert a + b == b;
    } else {
      assert (a + b)[0] == a[0] && (a + b)[1..] == a[1..] + b;
      ConcatAppend(a[1..], b);
    }
  }

  /** Adding one buffer at the end of a list adds its contents at the end. */
  lemma ConcatSnoc<T>(a: seq<seq<T>>, x: seq<T>)
    ensures Concat(a + [x]) == Concat(a) + x
  {
    ConcatAppend(a, [x]);
    assert Concat([x]) == x + Concat<T>([]);
  }
}

/** Sums of natural weights over finite sets of keys and over sequences. */
module Sums {
  ghost function SumOver(m: map<nat, nat>, s: set<nat>): nat
    requires s <= m.Keys
    decreases s
  {
    if s == {} then 0 else var x :| x in s; m[x] + SumOver(m, s - {x})
  }

  /** Any element of the set may be split off first. */
  lemma {:induction false} SumRemove(m: map<nat, nat>, s: set<nat>, x: nat)
    requires s <= m.Keys && x in s
    ensures SumOver(m, s) == m[x] + SumOver(m, s - {x})
    decreases s
  {
    var y :| y in s && SumOver(m, s) == m[y] + SumOver(m, s - {y});
    if y != x {
      SumRemove(m, s - {y}, x);
      SumRemove(m, s - {x}, y);
      assert s - {y} - {x} == s - {x} - {y};
    }
  }

  lemma SumAdd(m: map<nat, nat>, s: set<nat>, x: nat)
    requires s <= m.Keys && x in m && x !in s
    ensures SumOver(m, s + {x}) == SumOver(m, s) + m[x]
  {
    SumRemove(m, s + {x}, x);
    assert s + {x} - {x} == s;
  }

  /** Only the weights of the set's own elements matter. */
  lemma {:induction false} SumSame(m: map<nat, nat>, m': map<nat, nat>, s: set<nat>)
    requires s <= m.Keys && s <= m'.Keys
    requires forall x :: x in s ==> m[x] == m'[x]
    ensures SumOver(m, s) == SumOver(m', s)
    decreases s
  {
    if s != {} {
      var x :| x in s;
      SumRemove(m, s, x);
      SumRemove(m', s, x);
      SumSame(m, m', s - {x});
    }
  }

  /** Changing one element's weight changes the sum by the same amount. */
  lemma SumUpdate(m: map<nat, nat>, s: set<nat>, x: nat, w: nat)
    requires s <= m.Keys && x in s
    ensures SumOver(m[x := w], s) == SumOver(m, s) - m[x] + w
  {
    SumRemove(m, s, x);
    SumRemove(m[x := w], s, x);
    SumSame(m, m[x := w], s - {x});
  }

  /** Each element's weight is at most the sum. */
  lemma SumAtLeast(m: map<nat, nat>, s: set<nat>, x: nat)
    requires s <= m.Keys && x in s
    ensures m[x] <= SumOver(m, s)
  {
    SumRemove(m, s, x);
  }
}
