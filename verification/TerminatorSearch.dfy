// How a read up to a terminator looks for it (stream-connection.cc with Boost's read_until): after each arrival
// the match condition searches the buffer from a position on, and when it finds nothing it gives back the end of
// what it searched, which is where the next search begins.

module TerminatorSearch {
  import opened Common
  import opened HttpModel
  import opened HttpProofs

  /** The number of arrivals after which the read completes, if one of these searches finds the terminator. */
  function SearchOn(data: seq<byte>, position: nat, arrivals: seq<seq<byte>>, t: seq<byte>): (r: Option<nat>)
    requires position <= |data|
    ensures r.Some? ==> r.value <= |arrivals|
    decreases |arrivals|
  {
    if Find(data[position..], t).Some? then Some(0)
    else if arrivals == [] then None
    else
      match SearchOn(data + arrivals[0], |data|, arrivals[1..], t)
      case None => None
      case Some(n) => Some(n + 1)
  }

  ghost predicate OccursIn(s: seq<byte>, t: seq<byte>) {
    exists i: nat :: Occurs(s, t, i)
  }

  lemma {:induction false} FoundOccurs(s: seq<byte>, t: seq<byte>)
    requires Find(s, t).Some?
    ensures Occurs(s, t, Find(s, t).value)
  {
    if s[..|t|] == t {
      assert s[0..|t|] == s[..|t|];
    } else {
      var i := Find(s[1..], t).value;
      FoundOccurs(s[1..], t);
      assert s[1..][i..i + |t|] == s[i + 1..i + 1 + |t|];
    }
  }

  lemma FindsIfOccurs(s: seq<byte>, t: seq<byte>)
    requires t != []
    ensures Find(s, t).Some? <==> OccursIn(s, t)
  {
    if Find(s, t).Some? {
      FoundOccurs(s, t);
    } else if OccursIn(s, t) {
      var i: nat :| Occurs(s, t, i);
      NoneOccurs(s, t, i);
    }
  }

  /** The searches complete the read with the first arrival in which the terminator lies as a whole, and not
      before one does; what is searched first counts as arrival 0. */
  lemma {:induction false} CompletesExactly(data: seq<byte>, position: nat, arrivals: seq<seq<byte>>, t: seq<byte>)
    requires position <= |data| && t != []
    ensures var parts := [data[position..]] + arrivals;
            && (SearchOn(data, position, arrivals, t).Some? <==> exists n :: 0 <= n < |parts| && OccursIn(parts[n], t))
            && (SearchOn(data, position, arrivals, t).Some? ==>
                  var n := SearchOn(data, position, arrivals, t).value;
                  OccursIn(parts[n], t) && forall m :: 0 <= m < n ==> !OccursIn(parts[m], t))
    decreases |arrivals|
  {
    hide OccursIn;
    var parts := [data[position..]] + arrivals;
    FindsIfOccurs(data[position..], t);
    if OccursIn(data[position..], t) {
      assert OccursIn(parts[0], t);
    } else if arrivals != [] {
      var more := data + arrivals[0];
      assert more[|data|..] == arrivals[0] && [arrivals[0]] + arrivals[1..] == arrivals;
      CompletesExactly(more, |data|, arrivals[1..], t);
      Shifted(parts, arrivals, t);
    }
  }

  lemma Shifted(parts: seq<seq<byte>>, arrivals: seq<seq<byte>>, t: seq<byte>)
    requires |parts| == |arrivals| + 1 && parts[1..] == arrivals && !OccursIn(parts[0], t)
    ensures (exists n :: 0 <= n < |parts| && OccursIn(parts[n], t))
            <==>
            (exists n :: 0 <= n < |arrivals| && OccursIn(arrivals[n], t))
    ensures forall n :: 0 <= n < |arrivals| ==> parts[n + 1] == arrivals[n]
  {
    hide OccursIn;
    assert forall n :: 0 <= n < |arrivals| ==> parts[n + 1] == parts[1..][n];
    if n :| 0 <= n < |parts| && OccursIn(parts[n], t) {
      assert arrivals[n - 1] == parts[n];
    }
  }

  lemma OccursLater(a: seq<byte>, s: seq<byte>, b: seq<byte>, t: seq<byte>)
    requires OccursIn(s, t)
    ensures OccursIn(a + s + b, t)
  {
    var i: nat :| Occurs(s, t, i);
    assert (a + s + b)[|a| + i..|a| + i + |t|] == s[i..i + |t|];
    assert Occurs(a + s + b, t, |a| + i);
  }

  lemma {:induction false} SearchedIsThere(data: seq<byte>, position: nat, arrivals: seq<seq<byte>>, t: seq<byte>)
    requires position <= |data| && t != [] && SearchOn(data, position, arrivals, t).Some?
    ensures OccursIn(data + Concat(arrivals[..SearchOn(data, position, arrivals, t).value]), t)
    decreases |arrivals|
  {
    hide OccursIn, Find;
    var n := SearchOn(data, position, arrivals, t).value;
    if n == 0 {
      FindsIfOccurs(data[position..], t);
      OccursLater(data[..position], data[position..], [], t);
      assert data[..position] + data[position..] + [] == data + Concat(arrivals[..0]);
    } else {
      SearchedIsThere(data + arrivals[0], |data|, arrivals[1..], t);
      assert arrivals[..n][0] == arrivals[0] && arrivals[..n][1..] == arrivals[1..][..n - 1];
      assert data + arrivals[0] + Concat(arrivals[1..][..n - 1]) == data + Concat(arrivals[..n]);
    }
  }

  lemma {:induction false} ConcatPrefix(ss: seq<seq<byte>>, n: nat)
    requires n <= |ss|
    ensures Concat(ss[..n]) <= Concat(ss)
  {
    assert ss == ss[..n] + ss[n..];
    ConcatAppend(ss[..n], ss[n..]);
  }

  /** When these searches complete a read, all that the read needs is there. */
  lemma SearchCompletesRead(s: Stream, arrivals: seq<seq<byte>>)
    requires s.reading.Until? && s.reading.terminator != [] && Concat(arrivals) <= s.network
    requires SearchOn(s.buffer, 0, arrivals, s.reading.terminator).Some?
    ensures var n := SearchOn(s.buffer, 0, arrivals, s.reading.terminator).value;
            s.Completes(|Concat(arrivals[..n])|, false)
  {
    hide SearchOn, OccursIn;
    var t := s.reading.terminator;
    var n := SearchOn(s.buffer, 0, arrivals, t).value;
    SearchedIsThere(s.buffer, 0, arrivals, t);
    ConcatPrefix(arrivals, n);
    var some := Concat(arrivals[..n]);
    assert s.network[..|some|] == some;
    FindsIfOccurs(s.buffer + some, t);
  }

  /** A terminator that comes in two parts, wherever it is cut, is there, and is not found: the read goes on
      until another one comes whole. */
  lemma SplitTerminatorIsMissed(s: Stream, k: nat)
    requires s.reading.Until? && 0 < k < |s.reading.terminator|
    requires s.buffer == s.reading.terminator[..k] && s.network == s.reading.terminator[k..]
    ensures s.Completes(|s.network|, false) && s.Data(|s.network|) == s.reading.terminator
    ensures SearchOn(s.buffer, 0, [s.network], s.reading.terminator) == None
  {
    hide SearchOn;
    var t := s.reading.terminator;
    assert s.buffer + s.network[..|s.network|] == t;
    assert t[..|t|] == t && t[0..|t|] == t;
    CompletesExactly(s.buffer, 0, [s.network], t);
    var parts := [s.buffer[0..]] + [s.network];
    forall n | 0 <= n < |parts| ensures !OccursIn(parts[n], t) {
      assert |parts[n]| < |t|;
    }
  }
}
