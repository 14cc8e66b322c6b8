/**
 * The constants and types of transport/consts.go and transport/types.go, and the
 * outside world a request/response round trip depends on: the msgpack library's
 * encoder and decoder, the writer and the reader, given as values.
 */
module TransportTypes {
  import opened Bytes
  import opened Wrappers

  // Header keys.
  const KeyCode: uint8 := 0x00
  const KeySync: uint8 := 0x01
  const KeySchema: uint8 := 0x05
  const KeyTuple: uint8 := 0x21
  const KeyUserName: uint8 := 0x23
  const KeyData: uint8 := 0x30
  const KeyError: uint8 := 0x31

  // Request codes.
  const RequestAuth: uint32 := 0x07

  // Response codes: bit 15 marks an error, whose number is in the low twelve bits.
  const CodeOK: uint32 := 0x0000
  const CodeErrorMask: uint32 := 0x8000
  const ErrorCodeMask: uint32 := 0x0fff

  /** `type Header map[uint8]uint32`. */
  type Header = map<uint8, uint32>

  /** The Go values that travel as request and response bodies. */
  datatype Body =
    | Str(text: seq<uint8>)                     // a string
    | BinList(items: seq<seq<uint8>>)           // a [][]byte
    | KeyedBody(entries: map<uint8, Body>)      // a map[uint8]interface{}
    | ErrorMessages(messages: map<int, seq<uint8>>) // a map[int8]string
    | OtherBody(id: nat)                        // any other decoded value, kept opaque

  /** `Requester`: a request is its header and its body. */
  datatype Request = Request(header: Header, body: Body)

  /** What `wr.Write(p)` answers. */
  datatype WriteReply = Wrote(n: nat) | WriteFailed

  /** What one `r.Read(p)` into the 1024-byte buffer does, or a cancelled context
      seen just before it. The length of `data` is not bounded here: an io.Reader returns
      at most 1024 bytes, and the model reads a longer chunk like a full one. */
  datatype ReadEvent =
    | Cancelled
    | Chunk(data: seq<uint8>, eof: bool)
    | ReadFailed

  /** What `d.DecodeMulti(&l, &r.Header, &r.Body)` produces from the bytes read. */
  datatype Decoded = Decoded(length: uint32, header: Header, body: Body) | Undecodable

  /** The outside world of one request/response round trip: the library's encoding of
      the request (None when it fails), the writer's answer, the reader's answers in
      order, and the library's decoding of the reply. */
  datatype Exchange = Exchange(
    encode: Request -> Option<seq<uint8>>,
    reply: WriteReply,
    events: seq<ReadEvent>,
    decoded: Decoded)
}
