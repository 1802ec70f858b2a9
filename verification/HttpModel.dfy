// Reading HTTP responses (stream-connection.cc, http-connection.cc, http-client-connection.cc): the
// stream buffer in front of the network, the client's chain of read handlers, and the encoding of
// chunked bodies that they undo.

module HttpModel {
  import opened Common

  const CR: byte := 13
  const LF: byte := 10
  const CRLF: seq<byte> := [13, 10]
  const CRLFCRLF: seq<byte> := [13, 10, 13, 10]

  // ---------------------------------------------------------------------------------------------
  // The stream connection

  /** Where the bytes `t` occur first. */
  function Find(s: seq<byte>, t: seq<byte>): (r: Option<nat>)
    ensures r.Some? ==> r.value + |t| <= |s|
  {
    if s == [] || |s| < |t| then None
    else if s[..|t|] == t then Some(0)
    else
      match Find(s[1..], t)
      case None => None
      case Some(i) => Some(i + 1)
  }

  /** The read in progress: up to a terminator, or `want` bytes of which `have` came from the buffer. */
  datatype Reading = NotReading | Until(terminator: seq<byte>) | Exactly(have: seq<byte>, want: nat)

  /** `buffer` holds what was received and not delivered, `network` what is still to come, `delivered`
      everything handed to the reader so far. */
  datatype Stream = Stream(
    open: bool, buffer: seq<byte>, network: seq<byte>, delivered: seq<byte>, reading: Reading, lastReadOk: bool,
    writing: bool, lastWriteOk: bool)
  {
    predicate CanRead() {
      open && reading.NotReading?
    }

    predicate CanWrite() {
      open && !writing
    }

    function WriteAll(): Stream {
      this.(writing := true)
    }

    function Written(ok: bool): Stream {
      this.(writing := false, lastWriteOk := ok)
    }

    function ReadUntil(terminator: seq<byte>): Stream {
      this.(reading := Until(terminator))
    }

    /** Takes as much as possible from the buffer at once. */
    function ReadSize(n: nat): Stream {
      var taken := Min(n, |buffer|);
      this.(reading := Exactly(buffer[..taken], n), buffer := buffer[taken..])
    }

    /** What is still to come to the reader, in order. */
    function Remaining(): seq<byte> {
      (if reading.Exactly? then reading.have else []) + buffer + network
    }

    /** A read may complete with `k` more bytes: with an error at any time, without one when it has a
        terminator or all it wants. */
    predicate Completes(k: nat, err: bool) {
      && k <= |network|
      && match reading
         case NotReading => false
         case Until(terminator) => err || Find(buffer + network[..k], terminator).Some?
         case Exactly(have, want) => |have| + k <= want && (err || |have| + k == want)
    }

    /** What the reader is handed, and the stream after that. */
    function Data(k: nat): seq<byte>
      requires k <= |network|
    {
      match reading
      case NotReading => []
      case Until(terminator) =>
        var all := buffer + network[..k];
        var found := Find(all, terminator);
        if found.Some? then all[..found.value + |terminator|] else []
      case Exactly(have, _) => have + network[..k]
    }

    function Complete(k: nat, err: bool): Stream
      requires k <= |network|
    {
      var data := Data(k);
      var all := buffer + network[..k];
      this.(network := network[k..], reading := NotReading, lastReadOk := !err, delivered := delivered + data,
            buffer := if reading.Until? && |data| <= |all| then all[|data|..] else buffer)
    }

    /** Closing drops the buffer; nothing more is delivered. */
    function Close(): Stream {
      this.(open := false, buffer := [], reading := NotReading)
    }
  }

  // ---------------------------------------------------------------------------------------------
  // Chunk headers

  function HexDigit(b: byte): Option<nat> {
    if 48 <= b < 58 then Some(b - 48)
    else if 65 <= b < 71 then Some(b - 55)
    else if 97 <= b < 103 then Some(b - 87)
    else None
  }

  /** Reads hexadecimal digits up to the first other byte. */
  function ReadHex(s: seq<byte>, sofar: nat): nat {
    if s == [] || HexDigit(s[0]).None? then sofar else ReadHex(s[1..], 16 * sofar + HexDigit(s[0]).value)
  }

  const SEMICOLON: byte := 59

  function UpToSemicolon(s: seq<byte>): seq<byte> {
    if s == [] || s[0] == SEMICOLON then [] else [s[0]] + UpToSemicolon(s[1..])
  }

  /** The size in a chunk header; `size_t` max stands for one that cannot be represented. */
  function GetPayloadChunkSize(header: seq<byte>): nat {
    Min(ReadHex(UpToSemicolon(header), 0), SIZE_T_MAX)
  }

  // ---------------------------------------------------------------------------------------------
  // The client

  datatype Phase =
    | Idle | SendingRequest | ReadingHead | ReadingChunkHeader | ReadingChunk | ReadingSeparator | ReadingTrailer
    | ReadingPayload

  /** `secure`: the connection is a secure one. `accepted` and `callbacks` count the requests accepted and the
      request callbacks invoked. */
  datatype Client = Client(
    stream: Stream, secure: bool, phase: Phase, requestPending: bool, lastRequestOk: bool, transportOk: bool, payload: seq<byte>,
    accepted: nat, callbacks: nat)

  /** What a response's head says about its body. */
  datatype HeadParser = HeadParser(isChunked: seq<byte> -> bool, size: seq<byte> -> nat)

  function NewClient(network: seq<byte>, secure: bool): Client {
    Client(Stream(true, [], network, [], NotReading, false, false, false), secure, Idle, false, false, false, [], 0, 0)
  }

  /** Whether SendRequest accepts a request: a request that is to be secure only over a secure connection. */
  predicate Accepts(c: Client, secure: bool) {
    c.stream.open && !c.requestPending && (secure ==> c.secure)
  }

  /** If the write cannot be started after all, the request is refused, too. */
  function SendRequest(c: Client, payload: seq<byte>, secure: bool): Client {
    if !Accepts(c, secure) then c
    else if c.stream.CanWrite() then
      c.(stream := c.stream.WriteAll(), requestPending := true, phase := SendingRequest, payload := payload,
         accepted := c.accepted + 1)
    else c.(payload := payload)
  }

  /** The request is over: its callback is invoked. */
  function CleanUpAndCallBack(c: Client): Client {
    c.(requestPending := false, phase := Idle, callbacks := c.callbacks + 1)
  }

  function HandleRequestError(c: Client): Client {
    CleanUpAndCallBack(c.(lastRequestOk := false, transportOk := false, stream := c.stream.Close()))
  }

  function ResponsePayloadReceived(c: Client): Client {
    var ok := c.stream.lastReadOk;
    CleanUpAndCallBack(if ok then c.(lastRequestOk := true)
                       else c.(lastRequestOk := false, transportOk := false, stream := c.stream.Close()))
  }

  /** Starts a read and goes to the phase that handles its data, or fails. */
  function ThenReadUntil(c: Client, terminator: seq<byte>, next: Phase): Client {
    if c.stream.CanRead() then c.(stream := c.stream.ReadUntil(terminator), phase := next) else HandleRequestError(c)
  }

  function ThenReadSize(c: Client, n: nat, next: Phase): Client {
    if c.stream.CanRead() then c.(stream := c.stream.ReadSize(n), phase := next) else HandleRequestError(c)
  }

  /** The head of a response ends at the first empty line. */
  function RequestSent(c: Client): Client {
    if c.stream.lastWriteOk then ThenReadUntil(c, CRLFCRLF, ReadingHead) else HandleRequestError(c)
  }

  function ResponseReceived(c: Client, data: seq<byte>, p: HeadParser): Client {
    if !c.stream.lastReadOk then HandleRequestError(c)
    else
      var n := c.(transportOk := true);
      if p.isChunked(data) then ThenReadUntil(n, CRLF, ReadingChunkHeader) else ThenReadSize(n, p.size(data), ReadingPayload)
  }

  function ChunkHeaderReceived(c: Client, data: seq<byte>): Client {
    var size := GetPayloadChunkSize(data);
    if !c.stream.lastReadOk || size == SIZE_T_MAX then HandleRequestError(c)
    else if size > 0 then ThenReadSize(c, size, ReadingChunk)
    else ThenReadUntil(c, CRLF, ReadingTrailer)
  }

  /** The data are appended even if the read failed. */
  function ChunkReceived(c: Client, data: seq<byte>): Client {
    var n := c.(payload := c.payload + data);
    if c.stream.lastReadOk then ThenReadUntil(n, CRLF, ReadingSeparator) else HandleRequestError(n)
  }

  function SeparatorReceived(c: Client): Client {
    if c.stream.lastReadOk then ThenReadUntil(c, CRLF, ReadingChunkHeader) else HandleRequestError(c)
  }

  function TrailerReceived(c: Client, data: seq<byte>): Client {
    if |data| <= 2 then ResponsePayloadReceived(c) else ThenReadUntil(c, CRLF, ReadingTrailer)
  }

  /** A read completes, and the handler of the phase gets its data. */
  function ReadDone(c: Client, p: HeadParser, k: nat, err: bool): Client
    requires c.stream.Completes(k, err)
  {
    var data := c.stream.Data(k);
    var n := c.(stream := c.stream.Complete(k, err));
    match c.phase
    case ReadingHead => ResponseReceived(n, data, p)
    case ReadingChunkHeader => ChunkHeaderReceived(n, data)
    case ReadingChunk => ChunkReceived(n, data)
    case ReadingSeparator => SeparatorReceived(n)
    case ReadingTrailer => TrailerReceived(n, data)
    case ReadingPayload => ResponsePayloadReceived(n.(payload := data))
    case _ => n
  }

  datatype Step =
    | Send(payload: seq<byte>, secure: bool)
    | WriteDone(ok: bool)
    | ReadCompletes(k: nat, err: bool)

  predicate Enabled(c: Client, step: Step) {
    match step
    case Send(_, _) => true
    case WriteDone(_) => c.stream.writing
    case ReadCompletes(k, err) => c.stream.Completes(k, err)
  }

  function Next(c: Client, p: HeadParser, step: Step): Client
    requires Enabled(c, step)
  {
    match step
    case Send(payload, secure) => SendRequest(c, payload, secure)
    case WriteDone(ok) => RequestSent(c.(stream := c.stream.Written(ok)))
    case ReadCompletes(k, err) => ReadDone(c, p, k, err)
  }

  ghost predicate Runs(c: Client, p: HeadParser, steps: seq<Step>, c': Client)
    decreases |steps|
  {
    if steps == [] then c' == c
    else Enabled(c, steps[0]) && Runs(Next(c, p, steps[0]), p, steps[1..], c')
  }
}
