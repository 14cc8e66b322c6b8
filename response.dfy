/**
 * parseResponse of response.go: the hand-rolled response frame parser.
 *
 * A frame is the uint32 tag 0xce, a big-endian four-byte length that must equal
 * the number of bytes after it, and a header map decoded by the Msgpack token
 * decoder whose keys must all be uint8 values and which must use up the frame.
 */
module ResponseDraft {
  import opened Bytes
  import opened Msgpack

  /** The `response` struct: the error flag (never set by parseResponse) and the header. */
  datatype Response = Response(isError: bool, header: map<uint8, Value>)

  datatype ParseError =
    | EmptyResponse                             // "empty response"
    | WrongLengthType(tag: uint8)               // first byte is not 0xce
    | WrongLength(actual: uint32, declared: nat) // "wrong response length"
    | HeaderUndecodable(cause: Failure)         // "couldn't unmarshal header"
    | WrongHeaderType                           // the header is not a map
    | WrongHeaderKeyType                        // a header key is not a uint8
    | TrailingBytes(header: map<uint8, Value>)  // bytes left after the header

  datatype Parse =
    | Parsed(response: Response)
    | Rejected(error: ParseError)
    | Panicked(reason: PanicReason)

  /** `k.(byte)`: the key is a Go uint8, which only tag 0xcc yields. */
  predicate IsByte(k: Num)
  {
    k.kind == U8 && 0 <= k.n < 0x100
  }

  /** The header keys Go accepts. */
  predicate ByteKeys(m: map<Num, Value>)
  {
    forall k :: k in m ==> IsByte(k)
  }

  /** `r.Header`: the decoded entries re-keyed by their byte. */
  function ByteKeyed(m: map<Num, Value>): (h: map<uint8, Value>)
    ensures forall b: uint8 :: b in h <==> Num(U8, b) in m
    ensures forall b: uint8 :: b in h ==> h[b] == m[Num(U8, b)]
  {
    map b: uint8 | 0 <= b < 0x100 && Num(U8, b) in m :: m[Num(U8, b)]
  }

  /** parseResponse (response.go:14-53). `spare` is the capacity of bb beyond its length. */
  function ParseSpec(bb: seq<uint8>, spare: nat): (p: Parse)
  {
    if |bb| == 0 then Rejected(EmptyResponse)
    else if bb[0] != TagUint32 then Rejected(WrongLengthType(bb[0]))
    else if |bb| < 5 then Panicked(SliceOutOfRange) // bb[:4] on bb[1:] needs capacity, bb[4:] needs length
    else ParseAfterPrefix(BigEndian(bb[1..5]), bb[5..], spare)
  }

  /** The checks of parseResponse after the five-byte prefix (response.go:28-52). */
  function ParseAfterPrefix(declared: nat, body: seq<uint8>, spare: nat): (p: Parse)
  {
    if declared != TruncUint32(|body|) then Rejected(WrongLength(TruncUint32(|body|), declared))
    else match Token(body, spare)
      case Panic(reason) => Panicked(reason)
      case Err(f, _) => Rejected(HeaderUndecodable(f))
      case Ok(v, rest) =>
        if !v.Map? then Rejected(WrongHeaderType)
        else if !ByteKeys(v.entries) then Rejected(WrongHeaderKeyType)
        else if rest != [] then Rejected(TrailingBytes(ByteKeyed(v.entries)))
        else Parsed(Response(false, ByteKeyed(v.entries)))
  }

  /** parseResponse as written: early returns, then the `for k, v := range` loop that
      copies the header, checking each key. Go visits the keys in no fixed order; the
      loop picks any remaining key. */
  method ParseResponse(bb: seq<uint8>, spare: nat) returns (p: Parse)
    ensures p == ParseSpec(bb, spare)
  {
    if |bb| == 0 {
      return Rejected(EmptyResponse);
    }
    var t, rest := bb[0], bb[1..];
    if t != TagUint32 {
      return Rejected(WrongLengthType(t));
    }
    if |rest| < 4 {
      return Panicked(SliceOutOfRange);
    }
    assert rest[..4] == bb[1..5] && rest[4..] == bb[5..];
    var l := BigEndian(rest[..4]);
    rest := rest[4..];
    if l != TruncUint32(|rest|) {
      return Rejected(WrongLength(TruncUint32(|rest|), l));
    }
    var res := Token(rest, spare);
    if res.Panic? {
      return Panicked(res.reason);
    }
    if res.Err? {
      return Rejected(HeaderUndecodable(res.failure));
    }
    if !res.value.Map? {
      return Rejected(WrongHeaderType);
    }
    var m := res.value.entries;
    var header: map<uint8, Value> := map[];
    var todo := m.Keys;
    while todo != {}
      invariant todo <= m.Keys
      invariant forall k :: k in m && k !in todo ==> IsByte(k)
      invariant forall b: uint8 :: b in header <==> Num(U8, b) in m && Num(U8, b) !in todo
      invariant forall b: uint8 :: b in header ==> header[b] == m[Num(U8, b)]
      decreases |todo|
    {
      var k :| k in todo;
      if !IsByte(k) {
        return Rejected(WrongHeaderKeyType);
      }
      header := header[k.n := m[k]];
      todo := todo - {k};
    }
    assert header == ByteKeyed(m);
    if res.rest == [] {
      return Parsed(Response(false, header));
    }
    return Rejected(TrailingBytes(header));
  }

  // ---------------------------------------------------------------------
  // What parseResponse promises
  // ---------------------------------------------------------------------

  /** An empty buffer is refused before anything is read. */
  lemma EmptyIsRejected(spare: nat)
    ensures ParseSpec([], spare) == Rejected(EmptyResponse)
  {
  }

  /** The first byte must be the uint32 tag 0xce. */
  lemma WrongTagIsRejected(bb: seq<uint8>, spare: nat)
    requires |bb| > 0 && bb[0] != 0xce
    ensures ParseSpec(bb, spare) == Rejected(WrongLengthType(bb[0]))
  {
  }

  /** With the tag right, fewer than five bytes make Go's slicing panic. */
  lemma ShortFramePanics(bb: seq<uint8>, spare: nat)
    requires 0 < |bb| < 5 && bb[0] == 0xce
    ensures ParseSpec(bb, spare) == Panicked(SliceOutOfRange)
  {
  }

  /** A declared length that differs from the number of bytes after the prefix is refused. */
  lemma LengthMismatchIsRejected(bb: seq<uint8>, spare: nat)
    requires |bb| >= 5 && bb[0] == 0xce && BigEndian(bb[1..5]) != |bb| - 5
    requires |bb| - 5 < 0x1_0000_0000
    ensures ParseSpec(bb, spare) == Rejected(WrongLength(|bb| - 5, BigEndian(bb[1..5])))
  {
  }

  /** A header that does not decode, or decodes to something other than a map, is refused. */
  lemma BadHeaderIsRejected(declared: nat, body: seq<uint8>, spare: nat)
    requires declared == TruncUint32(|body|)
    ensures Token(body, spare).Err? ==>
      ParseAfterPrefix(declared, body, spare) == Rejected(HeaderUndecodable(Token(body, spare).failure))
    ensures Token(body, spare).Ok? && Token(body, spare).value.Scalar? ==>
      ParseAfterPrefix(declared, body, spare) == Rejected(WrongHeaderType)
  {
  }

  /** A header map with a key that is not a uint8 is refused. */
  lemma NonByteKeyIsRejected(declared: nat, body: seq<uint8>, spare: nat, m: map<Num, Value>, rest: seq<uint8>, k: Num)
    requires declared == TruncUint32(|body|)
    requires Token(body, spare) == Ok(Map(m), rest)
    requires k in m && !IsByte(k)
    ensures ParseAfterPrefix(declared, body, spare) == Rejected(WrongHeaderKeyType)
  {
  }

  /** A successful parse used up the whole frame: the tag, the length equal to the
      number of bytes after it, and a byte-keyed header map with nothing after it,
      whose entries are exactly those of the response; the error flag stays false. */
  lemma ParsedFrame(bb: seq<uint8>, spare: nat)
    requires ParseSpec(bb, spare).Parsed?
    ensures |bb| >= 5 && bb[0] == 0xce && BigEndian(bb[1..5]) == TruncUint32(|bb| - 5)
    ensures exists m :: ByteKeys(m) && Token(bb[5..], spare) == Ok(Map(m), [])
                        && ParseSpec(bb, spare).response == Response(false, ByteKeyed(m))
  {
    match Token(bb[5..], spare)
    case Ok(v, rest) =>
      assert ByteKeys(v.entries) && Token(bb[5..], spare) == Ok(Map(v.entries), []);
  }

  /** Bytes left after the header map make the parse fail. */
  lemma TrailingBytesAreRejected(declared: nat, body: seq<uint8>, spare: nat, m: map<Num, Value>, rest: seq<uint8>)
    requires declared == TruncUint32(|body|)
    requires Token(body, spare) == Ok(Map(m), rest) && ByteKeys(m) && rest != []
    ensures ParseAfterPrefix(declared, body, spare) == Rejected(TrailingBytes(ByteKeyed(m)))
  {
  }

  /** The keys of folded uint8 pairs are uint8 values. */
  lemma {:induction false} FoldPairsByteKeys(acc: map<Num, Value>, ps: seq<(uint8, uint8)>)
    requires ByteKeys(acc)
    ensures ByteKeys(FoldPairs(acc, ps))
    decreases |ps|
  {
    if ps != [] {
      FoldPairsByteKeys(acc[Byte(ps[0].0) := Scalar(Byte(ps[0].1))], ps[1..]);
    }
  }

  /** A frame carrying a fixmap of uint8 pairs parses into the map those pairs
      fold into, keyed by byte. */
  lemma ParseByteFixmap(ps: seq<(uint8, uint8)>, spare: nat)
    requires |ps| < 16 && spare >= (if ps == [] then 3 else 2)
    ensures ParseAfterPrefix(1 + 4 * |ps|, EncodeByteFixmap(ps, []), spare)
         == Parsed(Response(false, ByteKeyed(FoldPairs(map[], ps))))
  {
    TokenEncodeFixmap(ps, [], spare);
    FoldPairsByteKeys(map[], ps);
  }
}
