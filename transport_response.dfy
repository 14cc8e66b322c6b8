/**
 * `Read` and `read` of transport/response.go: collecting a reply in 1024-byte reads,
 * then checking the decoded length and classifying the header and body.
 */
module TransportResponse {
  import opened Bytes
  import opened TransportTypes

  const BufferSize := 1024

  /** The `Response` struct. */
  datatype Response = Response(
    isError: bool,
    errorCode: uint16,
    error: seq<uint8>,
    schemaId: uint32,
    header: Header,
    body: Body)

  datatype ReadFailure = Canceled | ReaderFailed | UnexpectedEof

  /** What `read` gives back: the collected bytes, an error, or nothing yet because the
      reader has not finished within the answers given (Go keeps waiting). */
  datatype Collected = Data(data: seq<uint8>) | Failed(failure: ReadFailure) | Waiting

  datatype ReadError =
    | CouldNotRead(cause: ReadFailure)             // "couldn't read"
    | DecodeFailed                                // "couldn't decode response"
    | WrongLength(actual: int, declared: uint32)  // "wrong response length"
    | NoCode                                      // "couldn't get response code"
    | ErrorNotStrings                             // "couldn't cast type of error"
    | NoReply                                     // the reader never finished

  datatype ReadResult = Received(response: Response) | NotReceived(error: ReadError)

  // ---------------------------------------------------------------------
  // read: the chunked accumulation loop
  // ---------------------------------------------------------------------

  /** A read that fills the buffer without EOF: the loop goes on. */
  predicate Continues(e: ReadEvent)
  {
    e.Chunk? && |e.data| >= BufferSize && !e.eof
  }

  /** read (transport/response.go:65-88) after `acc` has been collected. */
  function ReadSpec(events: seq<ReadEvent>, acc: seq<uint8>): (c: Collected)
    decreases |events|
  {
    if events == [] then Waiting
    else match events[0]
      case Cancelled => Failed(Canceled)
      case ReadFailed => Failed(ReaderFailed)
      case Chunk(data, eof) =>
        if |data| == 0 && !eof then Failed(UnexpectedEof)
        else if |data| < BufferSize || eof then Data(acc + data)
        else ReadSpec(events[1..], acc + data)
  }

  /** The bytes of a run of reads, in order. */
  function Concat(events: seq<ReadEvent>): seq<uint8>
  {
    if events == [] then [] else (if events[0].Chunk? then events[0].data else []) + Concat(events[1..])
  }

  /** read as written: a `for !done` loop that checks for cancellation, reads, and
      appends what it read. The reader's answers are consumed in order. */
  method ReadChunks(events: seq<ReadEvent>) returns (c: Collected)
    ensures c == ReadSpec(events, [])
  {
    var bb: seq<uint8> := [];
    var next := 0;
    var done := false;
    while !done
      invariant 0 <= next <= |events|
      invariant !done ==> ReadSpec(events[next..], bb) == ReadSpec(events, [])
      invariant done ==> ReadSpec(events, []) == Data(bb)
      decreases |events| - next, !done
    {
      if next == |events| {
        return Waiting;
      }
      var e := events[next];
      assert events[next..][1..] == events[next + 1..];
      if e.Cancelled? {
        return Failed(Canceled);
      }
      if e.ReadFailed? {
        return Failed(ReaderFailed);
      }
      if |e.data| == 0 && !e.eof {
        return Failed(UnexpectedEof);
      }
      bb := bb + e.data;
      next := next + 1;
      if |e.data| < BufferSize || e.eof {
        done := true;
      }
    }
    return Data(bb);
  }

  /** The position of the first read that does not fill the buffer without EOF. */
  function FirstStop(events: seq<ReadEvent>): (k: nat)
    ensures k <= |events|
    ensures forall i :: 0 <= i < k ==> Continues(events[i])
    ensures k < |events| ==> !Continues(events[k])
  {
    if events == [] || !Continues(events[0]) then 0 else 1 + FirstStop(events[1..])
  }

  /** How read ends at a read that does not continue, after collecting acc. */
  function Stop(e: ReadEvent, acc: seq<uint8>): (c: Collected)
  {
    match e
    case Cancelled => Failed(Canceled)
    case ReadFailed => Failed(ReaderFailed)
    case Chunk(data, eof) => if |data| == 0 && !eof then Failed(UnexpectedEof) else Data(acc + data)
  }

  /** read collects the full reads in order up to the first one that is not full
      (or is at EOF) and ends there: with that read's bytes appended when it has data
      or EOF, with an unexpected EOF when it is empty, and with the cancellation or
      reader error otherwise. Without such a read the loop is still waiting. */
  lemma {:induction false} ReadSpecStopsAtFirstShortRead(events: seq<ReadEvent>, acc: seq<uint8>)
    ensures var k := FirstStop(events);
      ReadSpec(events, acc) == if k == |events| then Waiting else Stop(events[k], acc + Concat(events[..k]))
    decreases |events|
  {
    if events != [] && Continues(events[0]) {
      var e, k := events[0], FirstStop(events);
      ReadSpecStopsAtFirstShortRead(events[1..], acc + e.data);
      assert events[1..][..k - 1] == events[..k][1..];
      assert Concat(events[..k]) == e.data + Concat(events[1..][..k - 1]);
      assert k < |events| ==> events[1..][k - 1] == events[k];
    } else if events != [] {
      assert events[..0] == [];
    }
  }

  // ---------------------------------------------------------------------
  // Read: length check and classification
  // ---------------------------------------------------------------------

  /** `code & CodeErrorMask != 0`: bit 15 of the code. */
  predicate ErrorBit(code: uint32)
  {
    (code / 0x8000) % 2 == 1
  }

  /** `uint16(code & ErrorCodeMask)`: the low twelve bits of the code. */
  function ErrorNumber(code: uint32): (n: uint16)
    ensures n < 0x1000
  {
    code % 0x1000
  }

  /** The checks and assignments of Read after the bytes are in (transport/response.go:28-62),
      given the decoder's result and the number of bytes read. */
  function Classify(d: Decoded, received: nat): (r: ReadResult)
  {
    match d
    case Undecodable => NotReceived(DecodeFailed)
    case Decoded(l, header, body) =>
      if l != received - 5 then NotReceived(WrongLength(received - 5, l))
      else if KeyCode !in header then NotReceived(NoCode)
      else
        var code := header[KeyCode];
        var schema := if KeySchema in header then header[KeySchema] else 0;
        if !ErrorBit(code) then Received(Response(false, 0, [], schema, header, body))
        else if !body.ErrorMessages? then NotReceived(ErrorNotStrings)
        else
          var message := if KeyError as int in body.messages then body.messages[KeyError as int] else [];
          Received(Response(true, ErrorNumber(code), message, schema, header, KeyedBody(map[])))
  }

  /** The classification as Read writes it: fields of a local response set one
      condition at a time. */
  method Interpret(d: Decoded, received: nat) returns (res: ReadResult)
    ensures res == Classify(d, received)
  {
    if d.Undecodable? {
      return NotReceived(DecodeFailed);
    }
    var r := Response(false, 0, [], 0, d.header, d.body);
    if d.length != received - 5 {
      return NotReceived(WrongLength(received - 5, d.length));
    }
    if KeyCode !in r.header {
      return NotReceived(NoCode);
    }
    if ErrorBit(r.header[KeyCode]) {
      r := r.(isError := true);
      r := r.(errorCode := ErrorNumber(r.header[KeyCode]));
    }
    if KeySchema in r.header {
      r := r.(schemaId := r.header[KeySchema]);
    }
    if r.isError {
      if !r.body.ErrorMessages? {
        return NotReceived(ErrorNotStrings);
      }
      var messages := r.body.messages;
      r := r.(error := if KeyError as int in messages then messages[KeyError as int] else []);
      r := r.(body := KeyedBody(map[]));
      return Received(r);
    }
    return Received(r);
  }

  /** Read (transport/response.go:20-63): read the reply, then interpret the decoding of it. */
  method Read(events: seq<ReadEvent>, d: Decoded) returns (res: ReadResult)
    ensures res == ReadReply(events, d)
  {
    var c := ReadChunks(events);
    match c
    case Waiting =>
      return NotReceived(NoReply);
    case Failed(f) =>
      return NotReceived(CouldNotRead(f));
    case Data(p) =>
      res := Interpret(d, |p|);
  }

  /** What Read returns for the reader's answers and the decoding of the reply. */
  function ReadReply(events: seq<ReadEvent>, d: Decoded): (r: ReadResult)
  {
    match ReadSpec(events, [])
    case Waiting => NotReceived(NoReply)
    case Failed(f) => NotReceived(CouldNotRead(f))
    case Data(p) => Classify(d, |p|)
  }

  // ---------------------------------------------------------------------
  // What Read promises
  // ---------------------------------------------------------------------

  /** The arithmetic ErrorBit agrees with Go's `code & 0x8000 != 0`. */
  lemma ErrorBitIsMask(code: uint32)
    ensures ErrorBit(code) <==> (code as bv32) & 0x8000 != 0
  {
  }

  /** A received response is an error exactly when bit 15 of the code is set; its error
      number is then the low twelve bits of the code and 0 otherwise; the schema id is
      header key 0x05 or 0; the length check passed. */
  lemma ClassifyFields(d: Decoded, received: nat)
    requires Classify(d, received).Received?
    ensures var r := Classify(d, received).response;
      && d.Decoded? && d.length == received - 5 && KeyCode in d.header
      && r.header == d.header
      && (r.isError <==> ErrorBit(d.header[KeyCode]))
      && r.errorCode == (if r.isError then d.header[KeyCode] % 0x1000 else 0)
      && r.schemaId == (if KeySchema in d.header then d.header[KeySchema] else 0)
  {
  }

  /** An error response needs a map[int8]string body; the message is its key 0x31 (or
      empty) and the body becomes an empty map. A non-error response keeps its body. */
  lemma ClassifyBody(d: Decoded, received: nat)
    requires d.Decoded? && d.length == received - 5 && KeyCode in d.header
    ensures var r := Classify(d, received);
      && (!ErrorBit(d.header[KeyCode]) ==> r.Received? && r.response.body == d.body)
      && (ErrorBit(d.header[KeyCode]) && !d.body.ErrorMessages? ==> r == NotReceived(ErrorNotStrings))
      && (ErrorBit(d.header[KeyCode]) && d.body.ErrorMessages? ==>
            r.Received? && r.response.body == KeyedBody(map[])
            && r.response.error == (if 0x31 in d.body.messages then d.body.messages[0x31] else []))
  {
  }

  /** A declared length other than the number of bytes after the prefix, or a header
      without the code key, is refused. */
  lemma ClassifyRefuses(d: Decoded, received: nat)
    requires d.Decoded?
    ensures d.length != received - 5 ==> Classify(d, received) == NotReceived(WrongLength(received - 5, d.length))
    ensures d.length == received - 5 && KeyCode !in d.header ==> Classify(d, received) == NotReceived(NoCode)
  {
  }

  /** Code 0x8002 is error number 2. */
  lemma ErrorCodeExample(body: map<int, seq<uint8>>)
    ensures var r := Classify(Decoded(0, map[KeyCode := 0x8002], ErrorMessages(body)), 5);
      r.Received? && r.response.isError && r.response.errorCode == 2
  {
  }
}
