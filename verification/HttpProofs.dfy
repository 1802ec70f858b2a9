// What the HTTP client guarantees: one callback a request, no byte lost in the stream buffer, and
// chunked bodies (section 4.1 of RFC 7230) decoded however they arrive.

module HttpProofs {
  import opened Common
  import opened HttpModel

  // ---------------------------------------------------------------------------------------------
  // One callback for each accepted request

  ghost predicate Inv(c: Client) {
    && (c.requestPending <==> c.phase != Idle)
    && c.accepted == c.callbacks + (if c.requestPending then 1 else 0)
    && (c.stream.writing <==> c.phase == SendingRequest)
    && (c.stream.reading.Until? ==> c.stream.reading.terminator == if c.phase == ReadingHead then CRLFCRLF else CRLF)
    && (c.stream.reading.Until? <==> c.phase in {ReadingHead, ReadingChunkHeader, ReadingSeparator, ReadingTrailer})
    && (c.stream.reading.Exactly? <==> c.phase in {ReadingChunk, ReadingPayload})
    && (c.stream.reading.Exactly? ==>
          |c.stream.reading.have| <= c.stream.reading.want
          && (|c.stream.reading.have| < c.stream.reading.want ==> c.stream.buffer == []))
  }

  lemma StepKeeps(c: Client, p: HeadParser, step: Step)
    requires Inv(c) && Enabled(c, step)
    ensures Inv(Next(c, p, step))
  {
    hide ReadDone, Stream.Completes;
    match step
    case Send(_, _) =>
    case WriteDone(_) =>
    case ReadCompletes(k, err) => ReadStepKeeps(c, p, k, err);
  }

  /** A request is in the middle of its response, between two reads. */
  ghost predicate Between(c: Client) {
    && c.requestPending && c.accepted == c.callbacks + 1
    && c.stream.reading.NotReading? && !c.stream.writing
  }

  lemma ThenKeeps(c: Client)
    requires Between(c)
    ensures Inv(HandleRequestError(c)) && Inv(ResponsePayloadReceived(c))
    ensures Inv(ThenReadUntil(c, CRLFCRLF, ReadingHead)) && Inv(ThenReadUntil(c, CRLF, ReadingChunkHeader))
    ensures Inv(ThenReadUntil(c, CRLF, ReadingSeparator)) && Inv(ThenReadUntil(c, CRLF, ReadingTrailer))
  {
    hide Stream.ReadSize;
  }

  lemma ThenSizeKeeps(c: Client, n: nat)
    requires Between(c)
    ensures Inv(ThenReadSize(c, n, ReadingChunk)) && Inv(ThenReadSize(c, n, ReadingPayload))
  {
    hide Stream.ReadSize;
    TakesFromTheBuffer(c.stream, n);
  }

  /** The client once a completed read is taken out of its stream, before the phase's handler runs. */
  function AfterRead(c: Client, k: nat, err: bool): Client
    requires c.stream.Completes(k, err)
  {
    c.(stream := c.stream.Complete(k, err))
  }

  lemma AfterReadBetween(c: Client, k: nat, err: bool, data: seq<byte>)
    requires Inv(c) && c.stream.Completes(k, err)
    ensures var n := AfterRead(c, k, err);
            && Between(n) && Between(n.(transportOk := true))
            && Between(n.(payload := n.payload + data)) && Between(n.(payload := data))
    ensures c.phase in {ReadingHead, ReadingChunkHeader, ReadingChunk, ReadingSeparator, ReadingTrailer, ReadingPayload}
  {
    CompletesMeans(c.stream, k, err);
    CompleteKeepsOpen(c.stream, k, err);
    hide Stream.Completes, Stream.Complete;
  }

  lemma ReadStepKeeps(c: Client, p: HeadParser, k: nat, err: bool)
    requires Inv(c) && c.stream.Completes(k, err)
    ensures Inv(ReadDone(c, p, k, err))
  {
    hide Inv, Between, Stream.Data, Stream.Completes, Stream.Complete, ThenReadUntil, ThenReadSize, HandleRequestError,
      ResponsePayloadReceived, GetPayloadChunkSize;
    CompletesMeans(c.stream, k, err);
    var n, data := AfterRead(c, k, err), c.stream.Data(k);
    AfterReadBetween(c, k, err, data);
    ThenKeeps(n);
    ThenKeeps(n.(transportOk := true));
    ThenKeeps(n.(payload := n.payload + data));
    ThenKeeps(n.(payload := data));
    ThenSizeKeeps(n.(transportOk := true), p.size(data));
    ThenSizeKeeps(n, GetPayloadChunkSize(data));
  }

  /** An accepted request is written: the write can always be started. */
  lemma AcceptedIsWritten(c: Client, p: HeadParser, payload: seq<byte>, secure: bool)
    requires Inv(c)
    ensures var c' := Next(c, p, Send(payload, secure));
            && (Accepts(c, secure) <==> c'.accepted == c.accepted + 1)
            && (Accepts(c, secure) ==> c'.phase == SendingRequest && c'.stream.writing && c'.payload == payload)
            && (!Accepts(c, secure) ==> c' == c)
  {
  }

  lemma TakesFromTheBuffer(s: Stream, n: nat)
    ensures var r := s.ReadSize(n);
            && r.writing == s.writing && r.reading.Exactly? && r.reading.want == n && |r.reading.have| <= n
            && (|r.reading.have| < n ==> r.buffer == [])
  {
  }

  /** Over any run, whatever fails: a request is pending exactly while its callback has not been invoked,
      and every accepted request gets exactly one callback. */
  lemma {:induction false} OneCallbackEach(c: Client, p: HeadParser, steps: seq<Step>, c': Client)
    requires Inv(c) && Runs(c, p, steps, c')
    ensures Inv(c')
    ensures c'.requestPending <==> c'.accepted == c'.callbacks + 1
    ensures !c'.requestPending <==> c'.accepted == c'.callbacks
    decreases |steps|
  {
    hide Next, Enabled;
    if steps != [] {
      StepKeeps(c, p, steps[0]);
      OneCallbackEach(Next(c, p, steps[0]), p, steps[1..], c');
    }
  }

  // ---------------------------------------------------------------------------------------------
  // No byte lost

  /** Everything that was or will be received: delivered, taken by the read in progress, buffered, and
      still in the network. */
  function Total(s: Stream): seq<byte> {
    s.delivered + s.Remaining()
  }

  /** A completed read delivers the next bytes, and they are the only ones that move. */
  lemma CompleteConserves(s: Stream, k: nat, err: bool)
    requires s.Completes(k, err)
    requires s.reading.Exactly? && k > 0 ==> s.buffer == []
    ensures s.Complete(k, err).delivered == s.delivered + s.Data(k)
    ensures s.Remaining() == s.Data(k) + s.Complete(k, err).Remaining()
  {
    hide Find;
    if s.reading.Until? {
      var all := s.buffer + s.network[..k];
      SplitAt(s.buffer, s.network, k, |s.Data(k)|);
      assert s.Data(k) == all[..|s.Data(k)|];
    } else {
      SplitExactly(s.reading.have, s.buffer, s.network, k);
    }
  }

  /** The first `n` bytes of what has arrived, and the rest. */
  lemma SplitAt(buffer: seq<byte>, network: seq<byte>, k: nat, n: nat)
    requires k <= |network| && n <= |buffer| + k
    ensures var all := buffer + network[..k];
            [] + buffer + network == all[..n] + ([] + all[n..] + network[k..])
  {
    var all := buffer + network[..k];
    assert buffer + network == all + network[k..];
    assert all == all[..n] + all[n..];
  }

  lemma SplitExactly(have: seq<byte>, buffer: seq<byte>, network: seq<byte>, k: nat)
    requires k <= |network| && (k > 0 ==> buffer == [])
    ensures have + buffer + network == (have + network[..k]) + ([] + buffer + network[k..])
  {
    if k == 0 {
      assert network[..0] == [] && network[0..] == network;
      assert have + [] == have;
    } else {
      assert network == network[..k] + network[k..];
    }
  }

  lemma StartConserves(s: Stream, n: nat)
    requires s.reading.NotReading?
    ensures s.ReadSize(n).Remaining() == s.Remaining()
    ensures forall t :: s.ReadUntil(t).Remaining() == s.Remaining()
  {
    assert s.buffer == s.buffer[..Min(n, |s.buffer|)] + s.buffer[Min(n, |s.buffer|)..];
  }

  lemma ReadConserves(s: Stream, k: nat, err: bool)
    requires s.Completes(k, err) && (s.reading.Exactly? && k > 0 ==> s.buffer == [])
    ensures Total(s.Complete(k, err)) == Total(s)
  {
    hide Stream.Data, Stream.Complete, Stream.Remaining;
    CompleteConserves(s, k, err);
  }

  /** While the connection is open, delivered, buffered and unread bytes are together what they were. */
  lemma StepConserves(c: Client, p: HeadParser, step: Step)
    requires Inv(c) && Enabled(c, step) && Next(c, p, step).stream.open
    ensures c.stream.open && Total(Next(c, p, step).stream) == Total(c.stream)
  {
    match step
    case Send(_, _) =>
    case WriteDone(ok) => StartTotal(c.stream.Written(ok), 0, CRLFCRLF);
    case ReadCompletes(k, err) =>
      ReadStepConserves(c, p, k, err);
      hide ReadDone;
  }

  /** If the connection is still open, it was before, and holds the same bytes. */
  ghost predicate Conserves(c: Client, n: Client) {
    n.stream.open ==> c.stream.open && Total(n.stream) == Total(c.stream)
  }

  lemma ThenConserves(c: Client, t: seq<byte>, size: nat, phase: Phase)
    requires c.stream.reading.NotReading?
    ensures Conserves(c, ThenReadUntil(c, t, phase)) && Conserves(c, ThenReadSize(c, size, phase))
    ensures Conserves(c, HandleRequestError(c)) && Conserves(c, ResponsePayloadReceived(c))
  {
    hide Total, Stream.ReadSize, Stream.ReadUntil;
    StartTotal(c.stream, size, t);
    assert c.stream.ReadUntil(t).open == c.stream.open && c.stream.ReadSize(size).open == c.stream.open by {
      OpenStays(c.stream, size, t);
    }
  }

  lemma OpenStays(s: Stream, n: nat, t: seq<byte>)
    ensures s.ReadUntil(t).open == s.open && s.ReadSize(n).open == s.open
  {
  }

  lemma AfterReadConserves(c: Client, k: nat, err: bool, m: Client)
    requires Inv(c) && c.stream.Completes(k, err) && m.stream == AfterRead(c, k, err).stream
    ensures m.stream.reading.NotReading?
    ensures forall n :: Conserves(m, n) ==> Conserves(c, n)
  {
    CompletesMeans(c.stream, k, err);
    CompleteKeepsOpen(c.stream, k, err);
    ReadConserves(c.stream, k, err);
    hide Total, Stream.Complete, Stream.Completes;
  }

  lemma ReadStepConserves(c: Client, p: HeadParser, k: nat, err: bool)
    requires Inv(c) && c.stream.Completes(k, err)
    ensures Conserves(c, ReadDone(c, p, k, err))
  {
    hide GetPayloadChunkSize, Conserves, Between, Stream.Data, Stream.Complete, Stream.Completes, ThenReadUntil,
      ThenReadSize, HandleRequestError, ResponsePayloadReceived, Inv;
    CompletesMeans(c.stream, k, err);
    var n, data := AfterRead(c, k, err), c.stream.Data(k);
    AfterReadBetween(c, k, err, data);
    AfterReadConserves(c, k, err, n);
    if c.phase == ReadingHead {
      var m := n.(transportOk := true);
      AfterReadConserves(c, k, err, m);
      ThenConserves(m, CRLF, p.size(data), ReadingPayload);
      ThenConserves(m, CRLF, 0, ReadingChunkHeader);
      ThenConserves(n, CRLF, 0, ReadingChunkHeader);
    } else if c.phase == ReadingChunkHeader {
      ThenConserves(n, CRLF, GetPayloadChunkSize(data), ReadingChunk);
      ThenConserves(n, CRLF, 0, ReadingTrailer);
    } else if c.phase == ReadingChunk {
      var m := n.(payload := n.payload + data);
      AfterReadConserves(c, k, err, m);
      ThenConserves(m, CRLF, 0, ReadingSeparator);
    } else if c.phase == ReadingSeparator {
      ThenConserves(n, CRLF, 0, ReadingChunkHeader);
    } else if c.phase == ReadingTrailer {
      ThenConserves(n, CRLF, 0, ReadingTrailer);
    } else {
      var m := n.(payload := data);
      AfterReadConserves(c, k, err, m);
      ThenConserves(m, CRLF, 0, ReadingPayload);
    }
  }

  lemma CompletesMeans(s: Stream, k: nat, err: bool)
    requires s.Completes(k, err)
    ensures k <= |s.network| && !s.reading.NotReading?
    ensures s.reading.Exactly? ==> |s.reading.have| + k <= s.reading.want
  {
  }

  lemma CompleteKeepsOpen(s: Stream, k: nat, err: bool)
    requires k <= |s.network|
    ensures s.Complete(k, err).open == s.open && s.Complete(k, err).reading.NotReading?
    ensures s.Complete(k, err).writing == s.writing
  {
  }

  lemma StartTotal(s: Stream, n: nat, t: seq<byte>)
    ensures s.reading.NotReading? ==> Total(s.ReadSize(n)) == Total(s) == Total(s.ReadUntil(t))
  {
    if s.reading.NotReading? {
      StartConserves(s, n);
    }
  }

  /** Over any run that leaves the connection open, whatever is read: no byte is lost or delivered twice. */
  lemma {:induction false} RunConserves(c: Client, p: HeadParser, steps: seq<Step>, c': Client)
    requires Inv(c) && Runs(c, p, steps, c') && c'.stream.open
    ensures c.stream.open && Total(c'.stream) == Total(c.stream)
    decreases |steps|
  {
    hide Next, Enabled, Total, Inv;
    if steps != [] {
      StepKeeps(c, p, steps[0]);
      RunConserves(Next(c, p, steps[0]), p, steps[1..], c');
      StepConserves(c, p, steps[0]);
    }
  }

  // ---------------------------------------------------------------------------------------------
  // Chunked bodies

  /** A chunk: its size in hexadecimal, an optional extension, and its data. */
  datatype Chunk = Chunk(size: seq<byte>, ext: seq<byte>, data: seq<byte>)

  /** A chunked body: chunks, the closing header with size zero, and trailer lines. */
  datatype Body = Body(chunks: seq<Chunk>, last: Chunk, trailers: seq<seq<byte>>)

  /** No line break inside. */
  predicate IsLine(s: seq<byte>) {
    Find(s, CRLF).None?
  }

  predicate AllHex(s: seq<byte>) {
    forall i :: 0 <= i < |s| ==> HexDigit(s[i]).Some?
  }

  ghost predicate ChunkFits(ch: Chunk) {
    && ch.size != [] && AllHex(ch.size) && ReadHex(ch.size, 0) == |ch.data| < SIZE_T_MAX
    && (ch.ext == [] || ch.ext[0] == SEMICOLON)
    && IsLine(ch.size + ch.ext)
  }

  ghost predicate BodyFits(b: Body) {
    && (forall i :: 0 <= i < |b.chunks| ==> ChunkFits(b.chunks[i]) && b.chunks[i].data != [])
    && ChunkFits(b.last) && b.last.data == []
    && (forall i :: 0 <= i < |b.trailers| ==> b.trailers[i] != [] && IsLine(b.trailers[i]))
  }

  function Header(ch: Chunk): seq<byte> {
    ch.size + ch.ext + CRLF
  }

  function EncodeChunks(cs: seq<Chunk>): seq<byte> {
    if cs == [] then [] else Header(cs[0]) + cs[0].data + CRLF + EncodeChunks(cs[1..])
  }

  function EncodeTrailers(ts: seq<seq<byte>>): seq<byte> {
    if ts == [] then CRLF else ts[0] + CRLF + EncodeTrailers(ts[1..])
  }

  function Encode(b: Body): seq<byte> {
    EncodeChunks(b.chunks) + Header(b.last) + EncodeTrailers(b.trailers)
  }

  function Contents(cs: seq<Chunk>): seq<byte> {
    if cs == [] then [] else cs[0].data + Contents(cs[1..])
  }

  /** The number of reads it takes. */
  function ReadsFor(b: Body): nat {
    3 * |b.chunks| + 1 + |b.trailers| + 1
  }

  // Finding terminators

  /** The terminator `t` that follows `s` is the first one. */
  predicate EndsFirst(s: seq<byte>, t: seq<byte>) {
    Find(s + t, t) == Some(|s|)
  }

  predicate Occurs(s: seq<byte>, t: seq<byte>, i: nat) {
    i + |t| <= |s| && s[i..i + |t|] == t
  }

  /** What is found is the first occurrence. */
  lemma {:induction false} FindsFirst(s: seq<byte>, t: seq<byte>, i: nat)
    requires t != [] && Occurs(s, t, i) && forall j: nat :: j < i ==> !Occurs(s, t, j)
    ensures Find(s, t) == Some(i)
  {
    assert s[..|t|] == s[0..|t|];
    if i > 0 {
      assert !Occurs(s, t, 0);
      forall j: nat ensures Occurs(s[1..], t, j) <==> Occurs(s, t, j + 1) {
        if j + 1 + |t| <= |s| {
          assert s[1..][j..j + |t|] == s[j + 1..j + 1 + |t|];
        }
      }
      FindsFirst(s[1..], t, i - 1);
    }
  }

  lemma {:induction false} NoneOccurs(s: seq<byte>, t: seq<byte>, i: nat)
    requires t != [] && (Find(s, t).Some? ==> i < Find(s, t).value)
    ensures !Occurs(s, t, i)
  {
    if i + |t| <= |s| {
      if i == 0 {
        assert s[0..|t|] == s[..|t|];
      } else {
        NoneOccurs(s[1..], t, i - 1);
        assert s[1..][i - 1..i - 1 + |t|] == s[i..i + |t|];
      }
    }
  }

  /** After a line the line break is the first one. */
  lemma LineEndsFirst(line: seq<byte>)
    requires IsLine(line)
    ensures EndsFirst(line, CRLF)
  {
    var s := line + CRLF;
    forall j: nat | j < |line| ensures !Occurs(s, CRLF, j) {
      NoneOccurs(line, CRLF, j);
      if j + 2 <= |line| {
        assert s[j..j + 2] == line[j..j + 2];
      } else {
        assert s[j + 1] == CR;
      }
    }
    FindsFirst(s, CRLF, |line|);
  }

  /** What is found in a part is what is found in the whole. */
  lemma {:induction false} FindInPart(s: seq<byte>, more: seq<byte>, t: seq<byte>)
    requires Find(s, t).Some?
    ensures Find(s + more, t) == Find(s, t)
  {
    assert (s + more)[..|t|] == s[..|t|];
    if s[..|t|] != t {
      assert (s + more)[1..] == s[1..] + more;
      FindInPart(s[1..], more, t);
    }
  }

  /** A read up to a terminator delivers just what comes before it, and it, in whatever pieces it came. */
  lemma UntilDelivers(s: Stream, k: nat, line: seq<byte>, more: seq<byte>)
    requires s.reading.Until? && s.Completes(k, false) && EndsFirst(line, s.reading.terminator)
    requires s.Remaining() == line + s.reading.terminator + more
    ensures s.Data(k) == line + s.reading.terminator && s.Complete(k, false).Remaining() == more
  {
    var all, t := s.buffer + s.network[..k], s.reading.terminator;
    assert [] + s.buffer + s.network == s.buffer + s.network;
    assert s.buffer + s.network == all + s.network[k..];
    FindInPart(all, s.network[k..], t);
    FindInPart(line + t, more, t);
    assert (line + t + more)[..|line| + |t|] == line + t;
    CompleteConserves(s, k, false);
    assert s.Data(k) == (all + s.network[k..])[..|line| + |t|];
    CancelPrefix(line + t, s.Complete(k, false).Remaining(), more);
  }

  lemma CancelPrefix(a: seq<byte>, b: seq<byte>, c: seq<byte>)
    requires a + b == a + c
    ensures b == c
  {
    assert b == (a + b)[|a|..] && c == (a + c)[|a|..];
  }

  /** A read of `n` bytes delivers the next `n` bytes. */
  lemma ExactlyDelivers(s: Stream, k: nat, data: seq<byte>, more: seq<byte>)
    requires s.reading.Exactly? && s.reading.want == |data| && s.Completes(k, false)
    requires k > 0 ==> s.buffer == []
    requires s.Remaining() == data + more
    ensures s.Data(k) == data && s.Complete(k, false).Remaining() == more
  {
    CompleteConserves(s, k, false);
    assert |s.Data(k)| == |data|;
    assert s.Data(k) == (s.Data(k) + s.Complete(k, false).Remaining())[..|data|] == (data + more)[..|data|] == data;
    CancelPrefix(data, s.Complete(k, false).Remaining(), more);
  }

  // Chunk sizes

  lemma {:induction false} SizeBeforeExtension(size: seq<byte>, rest: seq<byte>)
    requires AllHex(size)
    ensures UpToSemicolon(size + rest) == size + UpToSemicolon(rest)
  {
    if size == [] {
      assert size + rest == rest;
    } else {
      assert (size + rest)[1..] == size[1..] + rest;
      assert HexDigit(size[0]).Some?;
      SizeBeforeExtension(size[1..], rest);
    }
  }

  lemma {:induction false} HexStops(size: seq<byte>, rest: seq<byte>, sofar: nat)
    requires AllHex(size) && (rest == [] || HexDigit(rest[0]).None?)
    ensures ReadHex(size + rest, sofar) == ReadHex(size, sofar)
  {
    if size == [] {
      assert size + rest == rest;
    } else {
      assert (size + rest)[1..] == size[1..] + rest;
      HexStops(size[1..], rest, 16 * sofar + HexDigit(size[0]).value);
    }
  }

  /** A chunk header's size is read back, with or without an extension. */
  lemma HeaderReads(ch: Chunk)
    requires ChunkFits(ch)
    ensures GetPayloadChunkSize(Header(ch)) == |ch.data|
  {
    var rest := ch.ext + CRLF;
    assert Header(ch) == ch.size + rest;
    SizeBeforeExtension(ch.size, rest);
    if ch.ext == [] {
      assert rest == CRLF;
      assert UpToSemicolon(CRLF) == CRLF by {
        assert CRLF[1..] == [LF] && [LF][1..] == [];
        assert UpToSemicolon([LF]) == [LF];
      }
      HexStops(ch.size, CRLF, 0);
    } else {
      assert rest[0] == SEMICOLON;
      HexStops(ch.size, [], 0);
      assert ch.size + [] == ch.size;
    }
  }

  // Reading a body

  /** The client is in this phase, with these bytes still to come. */
  ghost predicate Expects(c: Client, phase: Phase, remaining: seq<byte>) {
    Inv(c) && c.phase == phase && c.stream.open && c.stream.Remaining() == remaining
  }

  /** The client after another successful read. */
  function Read(c: Client, p: HeadParser, k: nat): Client
    requires c.stream.Completes(k, false)
  {
    ReadDone(c, p, k, false)
  }

  /** A line is read: the handler of the phase gets it, and the rest is still to come. */
  lemma LineRead(c: Client, phase: Phase, k: nat, line: seq<byte>, more: seq<byte>)
    requires Expects(c, phase, line + CRLF + more) && IsLine(line) && c.stream.Completes(k, false)
    requires phase in {ReadingChunkHeader, ReadingSeparator, ReadingTrailer}
    ensures c.stream.Data(k) == line + CRLF
    ensures var s := c.stream.Complete(k, false);
            && s.open && s.lastReadOk && s.reading.NotReading? && s.Remaining() == more
            && (forall t :: s.ReadUntil(t).Remaining() == more)
            && forall n: nat :: s.ReadSize(n).Remaining() == more
  {
    hide Find, Stream.Data, Stream.Completes, Stream.Remaining;
    CompletesMeans(c.stream, k, false);
    LineEndsFirst(line);
    UntilDelivers(c.stream, k, line, more);
    var s := c.stream.Complete(k, false);
    StartConserves(s, 0);
    forall n: nat ensures s.ReadSize(n).Remaining() == more {
      StartConserves(s, n);
    }
  }

  lemma HeaderRead(c: Client, p: HeadParser, k: nat, ch: Chunk, more: seq<byte>)
    requires ChunkFits(ch) && Expects(c, ReadingChunkHeader, Header(ch) + more) && c.stream.Completes(k, false)
    ensures ch.data == [] ==> Expects(Read(c, p, k), ReadingTrailer, more)
    ensures ch.data != [] ==>
              Expects(Read(c, p, k), ReadingChunk, more) && Read(c, p, k).stream.reading.want == |ch.data|
    ensures Read(c, p, k).payload == c.payload && Read(c, p, k).callbacks == c.callbacks
  {
    ReadStepKeeps(c, p, k, false);
    LineRead(c, ReadingChunkHeader, k, ch.size + ch.ext, more);
    HeaderReads(ch);
    hide Find, Stream.Data, Stream.Completes, Stream.Complete, Stream.Remaining, GetPayloadChunkSize, Inv, ChunkFits, Header;
  }

  lemma ChunkRead(c: Client, p: HeadParser, k: nat, data: seq<byte>, more: seq<byte>)
    requires Expects(c, ReadingChunk, data + more) && c.stream.Completes(k, false)
    requires c.stream.reading.want == |data|
    ensures Expects(Read(c, p, k), ReadingSeparator, more)
    ensures Read(c, p, k).payload == c.payload + data && Read(c, p, k).callbacks == c.callbacks
  {
    ReadStepKeeps(c, p, k, false);
    ExactlyDelivers(c.stream, k, data, more);
    StartConserves(c.stream.Complete(k, false), 0);
    hide Find, Stream.Data, Stream.Completes, Stream.Remaining, Inv;
  }

  lemma SeparatorRead(c: Client, p: HeadParser, k: nat, more: seq<byte>)
    requires Expects(c, ReadingSeparator, CRLF + more) && c.stream.Completes(k, false)
    ensures Expects(Read(c, p, k), ReadingChunkHeader, more)
    ensures Read(c, p, k).payload == c.payload && Read(c, p, k).callbacks == c.callbacks
  {
    ReadStepKeeps(c, p, k, false);
    assert [] + CRLF + more == CRLF + more;
    LineRead(c, ReadingSeparator, k, [], more);
    hide Find, Stream.Data, Stream.Completes, Stream.Complete, Stream.Remaining, Inv;
  }

  lemma TrailerRead(c: Client, p: HeadParser, k: nat, line: seq<byte>, more: seq<byte>)
    requires Expects(c, ReadingTrailer, line + CRLF + more) && IsLine(line) && c.stream.Completes(k, false)
    ensures line != [] ==> Expects(Read(c, p, k), ReadingTrailer, more) && Read(c, p, k).callbacks == c.callbacks
    ensures line == [] ==>
              && Read(c, p, k).phase == Idle && Read(c, p, k).lastRequestOk
              && Read(c, p, k).callbacks == c.callbacks + 1
              && Read(c, p, k).stream.open && Read(c, p, k).stream.Remaining() == more
    ensures Read(c, p, k).payload == c.payload
  {
    ReadStepKeeps(c, p, k, false);
    LineRead(c, ReadingTrailer, k, line, more);
    hide Find, Stream.Data, Stream.Completes, Stream.Complete, Stream.Remaining, Inv;
  }

  /** A series of reads, each completed without an error by some number of new bytes. */
  ghost predicate Reads(c: Client, p: HeadParser, ks: seq<nat>, c': Client)
    decreases |ks|
  {
    if ks == [] then c' == c
    else c.stream.Completes(ks[0], false) && Reads(Read(c, p, ks[0]), p, ks[1..], c')
  }

  /** The body is decoded: the request is over, its callback invoked, and the stream stands behind it. */
  ghost predicate Decoded(c: Client, c': Client, data: seq<byte>, rest: seq<byte>) {
    && c'.phase == Idle && c'.lastRequestOk && c'.callbacks == c.callbacks + 1
    && c'.payload == c.payload + data
    && c'.stream.open && c'.stream.Remaining() == rest
  }

  lemma {:induction false} TrailersDecode(c: Client, p: HeadParser, ts: seq<seq<byte>>, rest: seq<byte>, ks: seq<nat>,
                                          c': Client)
    requires Expects(c, ReadingTrailer, EncodeTrailers(ts) + rest)
    requires forall i :: 0 <= i < |ts| ==> ts[i] != [] && IsLine(ts[i])
    requires |ks| == |ts| + 1 && Reads(c, p, ks, c')
    ensures Decoded(c, c', [], rest)
    decreases |ts|
  {
    hide Expects, Find, Stream.Completes, Stream.Remaining, Read;
    var n := Read(c, p, ks[0]);
    if ts == [] {
      assert EncodeTrailers(ts) + rest == [] + CRLF + rest;
      assert IsLine([]) by { NoBreakInNothing(); }
      TrailerRead(c, p, ks[0], [], rest);
      assert ks[1..] == [] && c' == n;
      assert c.payload + [] == c.payload;
    } else {
      assert EncodeTrailers(ts) + rest == ts[0] + CRLF + (EncodeTrailers(ts[1..]) + rest);
      TrailerRead(c, p, ks[0], ts[0], EncodeTrailers(ts[1..]) + rest);
      TrailersDecode(n, p, ts[1..], rest, ks[1..], c');
    }
  }

  lemma NoBreakInNothing()
    ensures IsLine([])
  {
  }

  lemma {:induction false} ChunksDecode(c: Client, p: HeadParser, b: Body, rest: seq<byte>, ks: seq<nat>, c': Client)
    requires Expects(c, ReadingChunkHeader, Encode(b) + rest) && BodyFits(b)
    requires |ks| == ReadsFor(b) && Reads(c, p, ks, c')
    ensures Decoded(c, c', Contents(b.chunks), rest)
    decreases |b.chunks|
  {
    hide Expects, Find, Stream.Completes, Stream.Remaining, Read, ChunkFits, Header;
    var n := Read(c, p, ks[0]);
    if b.chunks == [] {
      var more := EncodeTrailers(b.trailers) + rest;
      assert Encode(b) + rest == Header(b.last) + more by {
        assert [] + Header(b.last) == Header(b.last);
      }
      HeaderRead(c, p, ks[0], b.last, more);
      TrailersDecode(n, p, b.trailers, rest, ks[1..], c');
    } else {
      var ch, b' := b.chunks[0], b.(chunks := b.chunks[1..]);
      var more := Encode(b') + rest;
      FirstChunk(b, rest);
      assert BodyFits(b');
      HeaderRead(c, p, ks[0], ch, ch.data + (CRLF + more));
      ChunkAndSeparator(n, p, ch.data, more, ks[1..], c');
      var o := Read(Read(n, p, ks[1]), p, ks[2]);
      assert ks[1..][1..] == ks[2..] && ks[2..][1..] == ks[3..];
      ChunksDecode(o, p, b', rest, ks[3..], c');
      assert c.payload + ch.data + Contents(b'.chunks) == c.payload + Contents(b.chunks);
    }
  }

  lemma FirstChunk(b: Body, rest: seq<byte>)
    requires b.chunks != []
    ensures Encode(b) + rest
         == Header(b.chunks[0]) + (b.chunks[0].data + (CRLF + (Encode(b.(chunks := b.chunks[1..])) + rest)))
  {
    hide Header, EncodeTrailers;
    assert EncodeChunks(b.chunks) == Header(b.chunks[0]) + b.chunks[0].data + CRLF + EncodeChunks(b.chunks[1..]);
  }

  lemma ChunkAndSeparator(c: Client, p: HeadParser, data: seq<byte>, more: seq<byte>, ks: seq<nat>, c': Client)
    requires Expects(c, ReadingChunk, data + (CRLF + more)) && c.stream.reading.want == |data|
    requires |ks| >= 2 && Reads(c, p, ks, c')
    ensures c.stream.Completes(ks[0], false) && Read(c, p, ks[0]).stream.Completes(ks[1], false)
    ensures var o := Read(Read(c, p, ks[0]), p, ks[1]);
            && Expects(o, ReadingChunkHeader, more) && o.payload == c.payload + data && o.callbacks == c.callbacks
            && Reads(o, p, ks[1..][1..], c')
  {
    hide Expects, Stream.Completes, Stream.Remaining, Read;
    ChunkRead(c, p, ks[0], data, CRLF + more);
    var n := Read(c, p, ks[0]);
    assert ks[1..][0] == ks[1];
    assert Reads(n, p, ks[1..], c');
    SeparatorRead(n, p, ks[1], more);
  }

  /** Decoding inverts encoding, in any segmentation: when the response's head is done and an encoded
      body is to come, then after exactly as many completed reads as the body has parts the payload has
      grown by the chunks' data, the callback was invoked, and the stream stands at the first byte
      after the message. */
  lemma ChunkedBodyDecodes(c: Client, p: HeadParser, b: Body, rest: seq<byte>, ks: seq<nat>, c': Client)
    requires Inv(c) && c.phase == ReadingChunkHeader && c.stream.open
    requires c.stream.buffer + c.stream.network == Encode(b) + rest && BodyFits(b)
    requires |ks| == ReadsFor(b) && Reads(c, p, ks, c')
    ensures c'.phase == Idle && !c'.requestPending && c'.lastRequestOk && c'.callbacks == c.callbacks + 1
    ensures c'.payload == c.payload + Contents(b.chunks)
    ensures c'.stream.open && c'.stream.buffer + c'.stream.network == rest
  {
    hide Find, Reads, BodyFits;
    assert c.stream.Remaining() == c.stream.buffer + c.stream.network by {
      assert [] + c.stream.buffer == c.stream.buffer;
    }
    ChunksDecode(c, p, b, rest, ks, c');
    ReadsKeep(c, p, ks, c');
    assert [] + c'.stream.buffer == c'.stream.buffer;
  }

  // From the request to its callback

  /** The request was written, and the response is to come. */
  lemma ThenHead(c: Client, p: HeadParser, remaining: seq<byte>)
    requires Inv(c) && c.phase == SendingRequest && c.stream.open && c.stream.buffer + c.stream.network == remaining
    ensures Enabled(c, WriteDone(true)) && Expects(Next(c, p, WriteDone(true)), ReadingHead, remaining)
    ensures Next(c, p, WriteDone(true)).payload == c.payload && Next(c, p, WriteDone(true)).callbacks == c.callbacks
  {
    StepKeeps(c, p, WriteDone(true));
    assert [] + c.stream.buffer == c.stream.buffer;
  }

  /** The head is read up to and with its empty line, which also ends what its parser gets. */
  lemma HeadRead(c: Client, p: HeadParser, k: nat, head: seq<byte>, more: seq<byte>)
    requires Expects(c, ReadingHead, head + CRLFCRLF + more) && EndsFirst(head, CRLFCRLF)
    requires c.stream.Completes(k, false)
    ensures var c', all := Read(c, p, k), head + CRLFCRLF;
            && c'.payload == c.payload && c'.callbacks == c.callbacks && c'.transportOk
            && (p.isChunked(all) ==> Expects(c', ReadingChunkHeader, more))
            && (!p.isChunked(all) ==> Expects(c', ReadingPayload, more) && c'.stream.reading.want == p.size(all))
  {
    ReadStepKeeps(c, p, k, false);
    CompletesMeans(c.stream, k, false);
    UntilDelivers(c.stream, k, head, more);
    var s := c.stream.Complete(k, false);
    StartConserves(s, p.size(head + CRLFCRLF));
    hide Find, Stream.Data, Stream.Completes, Stream.Remaining, Inv;
  }

  lemma PayloadRead(c: Client, p: HeadParser, k: nat, data: seq<byte>, more: seq<byte>)
    requires Expects(c, ReadingPayload, data + more) && c.stream.Completes(k, false)
    requires c.stream.reading.want == |data|
    ensures var c' := Read(c, p, k);
            && c'.phase == Idle && c'.lastRequestOk && c'.callbacks == c.callbacks + 1 && c'.payload == data
            && c'.stream.open && c'.stream.Remaining() == more
  {
    ExactlyDelivers(c.stream, k, data, more);
    CompleteKeepsOpen(c.stream, k, false);
    hide Find, Stream.Data, Stream.Completes, Stream.Remaining, Inv;
  }

  /** From a written request to its callback, with a chunked body: whatever the segmentation, after one read for
      the head and as many as the body has parts, the callback was invoked once, the payload is the chunks' data
      behind what the client's buffer held, and the stream stands at the first byte after the message. */
  lemma ChunkedResponseDecodes(c: Client, p: HeadParser, head: seq<byte>, b: Body, rest: seq<byte>, ks: seq<nat>,
                               c': Client)
    requires Inv(c) && c.phase == SendingRequest && c.stream.open
    requires c.stream.buffer + c.stream.network == head + CRLFCRLF + (Encode(b) + rest)
    requires EndsFirst(head, CRLFCRLF) && p.isChunked(head + CRLFCRLF) && BodyFits(b)
    requires |ks| == 1 + ReadsFor(b) && Reads(Next(c, p, WriteDone(true)), p, ks, c')
    ensures c'.phase == Idle && !c'.requestPending && c'.lastRequestOk && c'.callbacks == c.callbacks + 1
    ensures c'.payload == c.payload + Contents(b.chunks)
    ensures c'.stream.open && c'.stream.buffer + c'.stream.network == rest
  {
    hide Find, BodyFits, Encode, ReadsFor, ReadDone, Stream.Completes, Next;
    ThenHead(c, p, head + CRLFCRLF + (Encode(b) + rest));
    var n := Next(c, p, WriteDone(true));
    HeadRead(n, p, ks[0], head, Encode(b) + rest);
    var o := Read(n, p, ks[0]);
    assert [] + o.stream.buffer == o.stream.buffer;
    ChunkedBodyDecodes(o, p, b, rest, ks[1..], c');
  }

  /** The same with a body of the size that the head gives. */
  lemma SizedResponseReads(c: Client, p: HeadParser, head: seq<byte>, data: seq<byte>, rest: seq<byte>, ks: seq<nat>,
                           c': Client)
    requires Inv(c) && c.phase == SendingRequest && c.stream.open
    requires c.stream.buffer + c.stream.network == head + CRLFCRLF + (data + rest)
    requires EndsFirst(head, CRLFCRLF) && !p.isChunked(head + CRLFCRLF) && p.size(head + CRLFCRLF) == |data|
    requires |ks| == 2 && Reads(Next(c, p, WriteDone(true)), p, ks, c')
    ensures c'.phase == Idle && !c'.requestPending && c'.lastRequestOk && c'.callbacks == c.callbacks + 1
    ensures c'.payload == data
    ensures c'.stream.open && c'.stream.buffer + c'.stream.network == rest
  {
    hide Find, ReadDone, Stream.Completes, Next;
    ThenHead(c, p, head + CRLFCRLF + (data + rest));
    var n := Next(c, p, WriteDone(true));
    HeadRead(n, p, ks[0], head, data + rest);
    var o := Read(n, p, ks[0]);
    assert Reads(o, p, ks[1..], c') && ks[1..][0] == ks[1] && ks[1..][1..] == [];
    PayloadRead(o, p, ks[1], data, rest);
    ReadsKeep(n, p, ks, c');
    assert [] + c'.stream.buffer == c'.stream.buffer;
  }

  lemma {:induction false} ReadsKeep(c: Client, p: HeadParser, ks: seq<nat>, c': Client)
    requires Inv(c) && Reads(c, p, ks, c')
    ensures Inv(c')
    decreases |ks|
  {
    hide Inv, Stream.Completes, ReadDone;
    if ks != [] {
      ReadStepKeeps(c, p, ks[0], false);
      ReadsKeep(Read(c, p, ks[0]), p, ks[1..], c');
    }
  }

  // Heads

  /** The lines of a head, each with its line break, and the empty line at the end. */
  function EncodeHead(lines: seq<seq<byte>>): seq<byte> {
    if lines == [] then CRLF else lines[0] + CRLF + EncodeHead(lines[1..])
  }

  lemma BreakInLine(line: seq<byte>, rest: seq<byte>, j: nat)
    requires IsLine(line) && rest != [] && rest[0] == CR && j < |line|
    ensures !Occurs(line + rest, CRLF, j)
  {
    NoneOccurs(line, CRLF, j);
    if j + 2 <= |line| {
      assert (line + rest)[j..j + 2] == line[j..j + 2];
    } else {
      assert (line + rest)[j + 1] == CR;
    }
  }

  lemma OccursBehind(a: seq<byte>, b: seq<byte>, t: seq<byte>, j: nat)
    ensures Occurs(a + b, t, |a| + j) <==> Occurs(b, t, j)
  {
    if j + |t| <= |b| {
      assert (a + b)[|a| + j..|a| + j + |t|] == b[j..j + |t|];
    }
  }

  /** No empty line begins in a line or at its break, if the next line is not empty. */
  lemma NotAtFirstLine(line: seq<byte>, rest: seq<byte>, j: nat)
    requires IsLine(line) && j < |line| + 2 && (j >= |line| ==> |rest| >= 2 && rest[..2] != CRLF)
    ensures !Occurs(line + (CRLF + rest), CRLFCRLF, j)
  {
    var s := line + (CRLF + rest);
    TwoBreaks(s, j);
    if j < |line| {
      BreakInLine(line, CRLF + rest, j);
    } else if j == |line| {
      assert s == line + CRLF + rest;
      OccursBehind(line + CRLF, rest, CRLF, 0);
      assert rest[0..0 + 2] == rest[..2];
    } else {
      assert s[j] == LF;
    }
  }

  /** An empty line comes only at the end. */
  lemma {:induction false} NoEmptyLineInside(lines: seq<seq<byte>>, j: nat)
    requires forall i :: 0 <= i < |lines| ==> lines[i] != [] && IsLine(lines[i])
    requires j + 4 < |EncodeHead(lines)|
    ensures !Occurs(EncodeHead(lines), CRLFCRLF, j)
  {
    hide Occurs, IsLine;
    var line, rest := lines[0], EncodeHead(lines[1..]);
    assert line + (CRLF + rest) == line + CRLF + rest == EncodeHead(lines);
    if j < |line| + 2 {
      if j >= |line| {
        assert lines[1..] == [] ==> rest == CRLF;
        FirstLineNotEmpty(lines[1..]);
      }
      NotAtFirstLine(line, rest, j);
    } else {
      NoEmptyLineInside(lines[1..], j - |line| - 2);
      OccursBehind(line + CRLF, rest, CRLFCRLF, j - |line| - 2);
    }
  }

  lemma TwoBreaks(s: seq<byte>, j: nat)
    ensures Occurs(s, CRLFCRLF, j) ==> Occurs(s, CRLF, j) && Occurs(s, CRLF, j + 2) && s[j] == CR
  {
    if j + 4 <= |s| {
      assert s[j..j + 2] == s[j..j + 4][..2] && s[j + 2..j + 4] == s[j..j + 4][2..];
      assert CRLFCRLF[..2] == CRLF && CRLFCRLF[2..] == CRLF;
      assert s[j] == s[j..j + 4][0];
    }
  }

  lemma FirstLineNotEmpty(lines: seq<seq<byte>>)
    requires lines != [] && lines[0] != [] && IsLine(lines[0])
    ensures EncodeHead(lines)[..2] != CRLF
  {
    var s := lines[0] + (CRLF + EncodeHead(lines[1..]));
    assert s == EncodeHead(lines);
    BreakInLine(lines[0], CRLF + EncodeHead(lines[1..]), 0);
    assert s[0..2] == s[..2];
  }

  /** A head of a status line and header lines, none of them empty, ends at its first empty line. */
  lemma HeadEndsFirst(lines: seq<seq<byte>>, head: seq<byte>)
    requires lines != [] && forall i :: 0 <= i < |lines| ==> lines[i] != [] && IsLine(lines[i])
    requires head + CRLFCRLF == EncodeHead(lines)
    ensures EndsFirst(head, CRLFCRLF)
  {
    var s := head + CRLFCRLF;
    assert s[|head|..|head| + 4] == CRLFCRLF;
    forall j: nat | j < |head| ensures !Occurs(s, CRLFCRLF, j) {
      NoEmptyLineInside(lines, j);
    }
    FindsFirst(s, CRLFCRLF, |head|);
  }

  /** Each of these reads can complete, as soon as the search for the terminator looks at all that is there. */
  lemma ReadsCanComplete(c: Client, line: seq<byte>, data: seq<byte>, more: seq<byte>)
    requires Inv(c)
    ensures c.stream.reading.Until? && EndsFirst(line, c.stream.reading.terminator)
            && c.stream.Remaining() == line + c.stream.reading.terminator + more ==>
              c.stream.Completes(|c.stream.network|, false)
    ensures c.stream.reading.Exactly? && c.stream.reading.want == |data| && c.stream.Remaining() == data + more ==>
              c.stream.Completes(|data| - |c.stream.reading.have|, false)
  {
    var s := c.stream;
    assert s.network[..|s.network|] == s.network;
    if s.reading.Until? && EndsFirst(line, s.reading.terminator) && s.Remaining() == line + s.reading.terminator + more {
      assert s.Remaining() == s.buffer + s.network;
      FindInPart(line + s.reading.terminator, more, s.reading.terminator);
    }
  }
}
