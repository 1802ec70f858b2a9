// The HTTP client over its stream connection, as objects whose handlers update their fields. Every
// method does exactly the step of HttpModel that it is specified by.

module HttpClient {
  import opened Common
  import opened HttpModel
  import HttpProofs

  class StreamConnection {
    var isOpen: bool
    var readStreambuf: seq<byte>
    var reading: Reading
    var lastReadSucceeded: bool
    var isWriting: bool
    var lastWriteSucceeded: bool
    // What is still to come from the network, and what was handed out.
    ghost var network: seq<byte>
    ghost var delivered: seq<byte>

    ghost function Now(): Stream
      reads this
    {
      Stream(isOpen, readStreambuf, network, delivered, reading, lastReadSucceeded, isWriting, lastWriteSucceeded)
    }

    constructor (ghost network: seq<byte>)
      ensures Now() == Stream(true, [], network, [], NotReading, false, false, false)
    {
      isOpen, readStreambuf, reading, lastReadSucceeded := true, [], NotReading, false;
      isWriting, lastWriteSucceeded := false, false;
      this.network, delivered := network, [];
    }

    method WriteAll() returns (ok: bool)
      modifies this`isWriting
      ensures ok <==> old(Now()).CanWrite()
      ensures Now() == if ok then old(Now()).WriteAll() else old(Now())
    {
      if !isOpen || isWriting {
        return false;
      }
      isWriting := true;
      ok := true;
    }

    method HandleWrite(ok: bool)
      modifies this`isWriting, this`lastWriteSucceeded
      ensures Now() == old(Now()).Written(ok)
    {
      isWriting := false;
      lastWriteSucceeded := ok;
    }

    method ReadUntil(terminator: seq<byte>) returns (ok: bool)
      modifies this`reading
      ensures ok <==> old(Now()).CanRead()
      ensures Now() == if ok then old(Now()).ReadUntil(terminator) else old(Now())
    {
      if !isOpen || !reading.NotReading? {
        return false;
      }
      reading := Until(terminator);
      ok := true;
    }

    /** Consumes what the buffer has of the wanted bytes; the rest is read past the buffer. */
    method ReadSize(maxDataSize: nat) returns (ok: bool)
      modifies this`reading, this`readStreambuf
      ensures ok <==> old(Now()).CanRead()
      ensures Now() == if ok then old(Now()).ReadSize(maxDataSize) else old(Now())
    {
      if !isOpen || !reading.NotReading? {
        return false;
      }
      var existingOutputSize := Min(maxDataSize, |readStreambuf|);
      reading := Exactly(readStreambuf[..existingOutputSize], maxDataSize);
      readStreambuf := readStreambuf[existingOutputSize..];
      ok := true;
    }

    /** Searches the buffer for the first occurrence of the terminator. */
    method FindTerminator(terminator: seq<byte>) returns (found: bool, pos: nat)
      requires terminator != []
      ensures Find(readStreambuf, terminator) == if found then Some(pos) else None
      ensures found ==> pos + |terminator| <= |readStreambuf|
    {
      pos := 0;
      while pos + |terminator| <= |readStreambuf|
        invariant pos <= |readStreambuf|
        invariant Find(readStreambuf, terminator)
               == match Find(readStreambuf[pos..], terminator) case None => None case Some(i) => Some(pos + i)
      {
        assert readStreambuf[pos..][..|terminator|] == readStreambuf[pos..pos + |terminator|];
        if readStreambuf[pos..pos + |terminator|] == terminator {
          return true, pos;
        }
        assert readStreambuf[pos..][1..] == readStreambuf[pos + 1..];
        pos := pos + 1;
      }
      found := false;
    }

    /** The bytes `arrived` were added to the buffer; everything up to the first terminator is handed out. */
    method HandleReadUntil(arrived: seq<byte>, err: bool) returns (data: seq<byte>)
      requires reading.Until? && reading.terminator != [] && arrived <= network && Now().Completes(|arrived|, err)
      modifies this
      ensures data == old(Now()).Data(|arrived|) && Now() == old(Now()).Complete(|arrived|, err)
    {
      assert arrived == network[..|arrived|];
      hide Find;
      readStreambuf := readStreambuf + arrived;
      network := network[|arrived|..];
      var found, pos := FindTerminator(reading.terminator);
      if found {
        data := readStreambuf[..pos + |reading.terminator|];
        readStreambuf := readStreambuf[pos + |reading.terminator|..];
      } else {
        data := [];
        assert readStreambuf[0..] == readStreambuf;
      }
      delivered := delivered + data;
      reading := NotReading;
      lastReadSucceeded := !err;
    }

    /** The bytes `arrived` came past the buffer. */
    method HandleReadSize(arrived: seq<byte>, err: bool) returns (data: seq<byte>)
      requires reading.Exactly? && arrived <= network && Now().Completes(|arrived|, err)
      modifies this
      ensures data == old(Now()).Data(|arrived|) && Now() == old(Now()).Complete(|arrived|, err)
    {
      assert arrived == network[..|arrived|] && [] + arrived == arrived;
      data := if reading.have == [] then arrived else reading.have + arrived;
      network := network[|arrived|..];
      delivered := delivered + data;
      reading := NotReading;
      lastReadSucceeded := !err;
    }

    method Close()
      modifies this`isOpen, this`readStreambuf, this`reading
      ensures Now() == old(Now()).Close()
    {
      isOpen, readStreambuf, reading := false, [], NotReading;
    }
  }

  class HttpClientConnection {
    const stream: StreamConnection
    const parser: HeadParser
    const isSecure: bool
    var phase: Phase
    var requestPending: bool
    var lastRequestSucceeded: bool
    var transportSucceeded: bool
    var responsePayload: seq<byte>
    ghost var accepted: nat
    ghost var callbacks: nat

    ghost function Now(): Client
      reads this, stream
    {
      Client(stream.Now(), isSecure, phase, requestPending, lastRequestSucceeded, transportSucceeded, responsePayload, accepted,
             callbacks)
    }

    constructor (parser: HeadParser, isSecure: bool, ghost network: seq<byte>)
      ensures Now() == NewClient(network, isSecure) && fresh(stream) && this.parser == parser
    {
      var connection := new StreamConnection(network);
      stream := connection;
      this.parser, this.isSecure := parser, isSecure;
      phase, requestPending, lastRequestSucceeded, transportSucceeded := Idle, false, false, false;
      responsePayload, accepted, callbacks := [], 0, 0;
    }

    /** A secure request is refused over an insecure connection. Once the other tests are passed, the write can
        be started. */
    method SendRequest(payload: seq<byte>, secure: bool) returns (ok: bool)
      modifies this, stream
      ensures ok <==> Accepts(old(Now()), secure) && old(Now()).stream.CanWrite()
      ensures Now() == HttpModel.SendRequest(old(Now()), payload, secure)
      ensures HttpProofs.Inv(old(Now())) ==> HttpProofs.Inv(Now()) && (ok <==> Accepts(old(Now()), secure))
    {
      if !stream.isOpen || requestPending {
        return false;
      }
      if secure && !isSecure {
        return false;
      }
      requestPending := true;
      responsePayload := payload;
      ok := stream.WriteAll();
      if ok {
        phase := SendingRequest;
        accepted := accepted + 1;
      } else {
        requestPending := false;
      }
    }

    method CleanUpAndCallBack()
      modifies this`requestPending, this`phase, this`callbacks
      ensures Now() == HttpModel.CleanUpAndCallBack(old(Now()))
    {
      requestPending := false;
      phase := Idle;
      callbacks := callbacks + 1;
    }

    method HandleRequestError()
      modifies this, stream
      ensures Now() == HttpModel.HandleRequestError(old(Now()))
    {
      lastRequestSucceeded := false;
      transportSucceeded := false;
      stream.Close();
      CleanUpAndCallBack();
    }

    method ResponsePayloadReceived()
      modifies this, stream
      ensures Now() == HttpModel.ResponsePayloadReceived(old(Now()))
    {
      lastRequestSucceeded := stream.lastReadSucceeded;
      if !lastRequestSucceeded {
        transportSucceeded := false;
        stream.Close();
      }
      CleanUpAndCallBack();
    }

    method ThenReadUntil(terminator: seq<byte>, next: Phase)
      modifies this, stream
      ensures Now() == HttpModel.ThenReadUntil(old(Now()), terminator, next)
    {
      var stillOk := stream.ReadUntil(terminator);
      if stillOk {
        phase := next;
      } else {
        HandleRequestError();
      }
    }

    method ThenReadSize(n: nat, next: Phase)
      modifies this, stream
      ensures Now() == HttpModel.ThenReadSize(old(Now()), n, next)
    {
      var stillOk := stream.ReadSize(n);
      if stillOk {
        phase := next;
      } else {
        HandleRequestError();
      }
    }

    method RequestSent()
      modifies this, stream
      ensures Now() == HttpModel.RequestSent(old(Now()))
    {
      if stream.lastWriteSucceeded {
        ThenReadUntil(CRLFCRLF, ReadingHead);
      } else {
        HandleRequestError();
      }
    }

    method ResponseReceived(data: seq<byte>)
      modifies this, stream
      ensures Now() == HttpModel.ResponseReceived(old(Now()), data, parser)
    {
      if !stream.lastReadSucceeded {
        HandleRequestError();
        return;
      }
      transportSucceeded := true;
      if parser.isChunked(data) {
        ThenReadUntil(CRLF, ReadingChunkHeader);
      } else {
        ThenReadSize(parser.size(data), ReadingPayload);
      }
    }

    method ResponsePayloadChunkHeaderReceived(data: seq<byte>)
      modifies this, stream
      ensures Now() == ChunkHeaderReceived(old(Now()), data)
    {
      var chunkSize := GetPayloadChunkSize(data);
      if !stream.lastReadSucceeded || chunkSize == SIZE_T_MAX {
        HandleRequestError();
      } else if chunkSize > 0 {
        ThenReadSize(chunkSize, ReadingChunk);
      } else {
        ThenReadUntil(CRLF, ReadingTrailer);
      }
    }

    method ResponsePayloadChunkReceived(data: seq<byte>)
      modifies this, stream
      ensures Now() == ChunkReceived(old(Now()), data)
    {
      responsePayload := responsePayload + data;
      if stream.lastReadSucceeded {
        ThenReadUntil(CRLF, ReadingSeparator);
      } else {
        HandleRequestError();
      }
    }

    method ResponsePayloadChunkSeparatorReceived()
      modifies this, stream
      ensures Now() == SeparatorReceived(old(Now()))
    {
      if stream.lastReadSucceeded {
        ThenReadUntil(CRLF, ReadingChunkHeader);
      } else {
        HandleRequestError();
      }
    }

    method ResponsePayloadPostChunkHeaderReceived(data: seq<byte>)
      modifies this, stream
      ensures Now() == TrailerReceived(old(Now()), data)
    {
      if |data| <= 2 {
        ResponsePayloadReceived();
      } else {
        ThenReadUntil(CRLF, ReadingTrailer);
      }
    }

    /** The write in progress completes. */
    method WriteDone(ok: bool)
      requires HttpProofs.Inv(Now()) && stream.isWriting
      modifies this, stream
      ensures Now() == Next(old(Now()), parser, Step.WriteDone(ok)) && HttpProofs.Inv(Now())
    {
      HttpProofs.StepKeeps(Now(), parser, Step.WriteDone(ok));
      stream.HandleWrite(ok);
      hide HttpModel.RequestSent;
      RequestSent();
    }

    /** The read in progress completes, and the handler it was started with runs. */
    method ReadDone(arrived: seq<byte>, err: bool)
      requires HttpProofs.Inv(Now()) && stream.Now().Completes(|arrived|, err) && arrived <= stream.network
      modifies this, stream
      ensures Now() == HttpModel.ReadDone(old(Now()), parser, |arrived|, err) && HttpProofs.Inv(Now())
    {
      hide HttpModel.ResponseReceived, ChunkHeaderReceived, ChunkReceived, SeparatorReceived, TrailerReceived,
        HttpModel.ResponsePayloadReceived, Stream.Data, Stream.Complete, Stream.Completes;
      HttpProofs.ReadStepKeeps(Now(), parser, |arrived|, err);
      HttpProofs.CompletesMeans(stream.Now(), |arrived|, err);
      var data;
      if stream.reading.Until? {
        data := stream.HandleReadUntil(arrived, err);
      } else {
        data := stream.HandleReadSize(arrived, err);
      }
      if phase == ReadingHead {
        ResponseReceived(data);
      } else if phase == ReadingChunkHeader {
        ResponsePayloadChunkHeaderReceived(data);
      } else if phase == ReadingChunk {
        ResponsePayloadChunkReceived(data);
      } else if phase == ReadingSeparator {
        ResponsePayloadChunkSeparatorReceived();
      } else if phase == ReadingTrailer {
        ResponsePayloadPostChunkHeaderReceived(data);
      } else {
        responsePayload := data;
        ResponsePayloadReceived();
      }
    }
  }
}
