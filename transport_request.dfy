/**
 * `Write` of transport/request.go: frames an encoded request as the uint32 tag 0xce,
 * the big-endian payload length and the payload, and hands the frame to the writer once.
 */
module TransportRequest {
  import opened Bytes
  import opened Wrappers
  import opened TransportTypes
  import ResponseDraft
  import Msgpack

  datatype WriteError =
    | EncodeFailed                        // "couldn't encode header and body"
    | WriterFailed                        // "couldn't do request"
    | ShortWrite(written: nat, expected: nat) // "wrong length of written bytes"

  /** `e.EncodeUint32(uint32(l))`: the tag 0xce and four big-endian bytes. */
  function LengthPrefix(l: nat): (p: seq<uint8>)
    ensures |p| == 5
  {
    [Msgpack.TagUint32] + ToBigEndian(TruncUint32(l), 4)
  }

  /** The frame Write sends: the length prefix and then the payload. */
  function Frame(payload: seq<uint8>): (f: seq<uint8>)
  {
    LengthPrefix(|payload|) + payload
  }

  /** The error Write reports for the writer's answer to a frame of `total` bytes. */
  function WriteOutcome(total: nat, reply: WriteReply): (err: Option<WriteError>)
  {
    match reply
    case WriteFailed => Some(WriterFailed)
    case Wrote(n) => if n != total then Some(ShortWrite(n, total)) else None
  }

  /** Write (transport/request.go:11-39). `sent` is the one buffer given to the writer,
      None when the encoding fails and the writer is never called. */
  method Write(r: Request, encode: Request -> Option<seq<uint8>>, reply: WriteReply)
    returns (err: Option<WriteError>, sent: Option<seq<uint8>>)
    ensures encode(r).None? ==> err == Some(EncodeFailed) && sent == None
    ensures encode(r).Some? ==>
      && sent == Some(Frame(encode(r).value))
      && err == WriteOutcome(|encode(r).value| + 5, reply)
  {
    var encoded := encode(r);
    if encoded.None? {
      return Some(EncodeFailed), None;
    }
    var buf := encoded.value;
    var l := |buf|;
    var p := new uint8[l + 5];
    Copy(p, 5, buf);
    ghost var framed := p[..];
    buf := LengthPrefix(l);
    Copy(p, 0, buf);
    assert p[5..] == framed[5..] == encoded.value;
    assert p[..] == p[..5] + p[5..];
    sent := Some(p[..]);
    match reply
    case WriteFailed =>
      err := Some(WriterFailed);
    case Wrote(n) =>
      if n != l + 5 {
        err := Some(ShortWrite(n, l + 5));
      } else {
        err := None;
      }
  }

  /** Go's `copy(p[at:at+len(src)], src)`: `src` lands at `at`, the rest of `p` stays. */
  method Copy(p: array<uint8>, at: nat, src: seq<uint8>)
    requires at + |src| <= p.Length
    modifies p
    ensures p[..at] == old(p[..at]) && p[at..at + |src|] == src
    ensures p[at + |src|..] == old(p[at + |src|..])
  {
    forall i | 0 <= i < |src| {
      p[at + i] := src[i];
    }
  }

  // ---------------------------------------------------------------------
  // What the frame promises
  // ---------------------------------------------------------------------

  /** The frame is `l + 5` bytes: 0xce, the length in big-endian order, then the payload. */
  lemma FrameLayout(payload: seq<uint8>)
    requires |payload| < 0x1_0000_0000
    ensures var f := Frame(payload);
      && |f| == |payload| + 5
      && f[0] == 0xce && BigEndian(f[1..5]) == |payload|
      && f[5..] == payload
  {
    var f := Frame(payload);
    assert f[1..5] == ToBigEndian(|payload|, 4);
  }

  /** Taking a frame apart: the payload of a well-formed frame. */
  function Unframe(f: seq<uint8>): (p: Option<seq<uint8>>)
  {
    if |f| >= 5 && f[0] == Msgpack.TagUint32 && BigEndian(f[1..5]) == |f| - 5 then Some(f[5..]) else None
  }

  /** Every payload that fits a uint32 length comes back out of its frame. */
  lemma UnframeFrame(payload: seq<uint8>)
    requires |payload| < 0x1_0000_0000
    ensures Unframe(Frame(payload)) == Some(payload)
  {
    FrameLayout(payload);
  }

  /** Unframe only accepts frames: what it accepts is the frame of what it returns. */
  lemma FrameUnframe(f: seq<uint8>)
    requires Unframe(f).Some?
    ensures Frame(Unframe(f).value) == f
  {
    var p := f[5..];
    BigEndianInjective(f[1..5]);
    assert f == [f[0]] + f[1..5] + p;
  }

  /** The prefix Write puts in front of any payload passes parseResponse's tag and
      length checks: what parseResponse decides is decided by the payload alone. */
  lemma FramePassesPrefixChecks(payload: seq<uint8>, spare: nat)
    ensures ResponseDraft.ParseSpec(Frame(payload), spare)
         == ResponseDraft.ParseAfterPrefix(TruncUint32(|payload|), payload, spare)
  {
    var f := Frame(payload);
    assert f[1..5] == ToBigEndian(TruncUint32(|payload|), 4);
    assert f[5..] == payload;
  }
}
