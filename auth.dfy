/**
 * auth.go: the AUTH request of the transport draft and the CHAP-SHA1 scramble
 *   scramble = SHA1(pass) XOR SHA1(salt[0:20] ++ SHA1(SHA1(pass)))
 * SHA-1 and base64 are not modelled: they are functions passed in.
 */
module Auth {
  import opened Bytes
  import opened Wrappers
  import opened TransportTypes
  import AuthMessage

  /** SHA-1 (FIPS 180-4), always 20 bytes, and the standard padded base64 decoder
      (section 4 of RFC 4648), None when the text is not valid base64. */
  datatype Crypto = Crypto(sha1: seq<uint8> -> Bytes20, base64: seq<uint8> -> Option<seq<uint8>>)

  /** The `auth` struct of auth.go. */
  datatype AuthRequest = AuthRequest(username: seq<uint8>, scramble: seq<uint8>)

  /** auth.Header (auth.go:15-20): the AUTH request code under key 0x00 and sync 1 under key 0x01. */
  function Header(): (h: TransportTypes.Header)
    ensures h.Keys == {KeyCode, KeySync} && h[KeyCode] == RequestAuth && h[KeySync] == 1
  {
    map[KeyCode := RequestAuth, KeySync := 1]
  }

  /** auth.Body (auth.go:22-27): the user name under 0x23 and ["chap-sha1", scramble] under 0x21. */
  function Body(a: AuthRequest): (b: Body)
    ensures b.KeyedBody? && b.entries.Keys == {KeyUserName, KeyTuple}
    ensures b.entries[KeyUserName] == Str(a.username)
    ensures b.entries[KeyTuple] == BinList([AuthMessage.ChapSha1, a.scramble])
  {
    KeyedBody(map[KeyUserName := Str(a.username), KeyTuple := BinList([AuthMessage.ChapSha1, a.scramble])])
  }

  /** The request auth.go's `auth` is as a Requester. */
  function AsRequest(a: AuthRequest): Request
  {
    Request(Header(), Body(a))
  }

  datatype Scrambled =
    | Scramble(bytes: Bytes20)
    | SaltUndecodable   // "couldn't decode hash"
    | SaltTooShort      // salt[0:sha1.Size] beyond the capacity of the decoded salt: a Go panic

  /** The capacity of the slice base64.StdEncoding.DecodeString returns for an input of
      n bytes (`DecodedLen`), at least its length. */
  function DecodedCapacity(hash: seq<uint8>, salt: seq<uint8>): (cap: nat)
    ensures cap >= |salt|
  {
    var declared := |hash| / 4 * 3;
    if declared < |salt| then |salt| else declared
  }

  /** `salt[0:sha1.Size]`: the first twenty bytes when the salt is that long; a shorter
      salt is read into its zero-filled spare capacity, and panics without it. */
  function SaltPrefix(salt: seq<uint8>, cap: nat): (p: Option<Bytes20>)
    requires cap >= |salt|
    ensures p.Some? <==> cap >= 20
    ensures p.Some? && |salt| >= 20 ==> p.value == salt[..20]
  {
    if |salt| >= 20 then Some(salt[..20])
    else if cap >= 20 then Some(salt + seq(20 - |salt|, _ => 0))
    else None
  }

  /** The second SHA-1 input and result: `h.Write(salt[0:20]); h.Write(step2[0:]); h.Sum(nil)`. */
  function Step3(c: Crypto, salt20: Bytes20, pass: seq<uint8>): Bytes20
  {
    c.sha1(salt20 + c.sha1(c.sha1(pass)))
  }

  /** scramble (auth.go:29-52) as a function of its inputs. */
  function ScrambleSpec(c: Crypto, hash: seq<uint8>, pass: seq<uint8>): (s: Scrambled)
  {
    match c.base64(hash)
    case None => SaltUndecodable
    case Some(salt) =>
      match SaltPrefix(salt, DecodedCapacity(hash, salt))
      case None => SaltTooShort
      case Some(salt20) => Scramble(XorBytes(c.sha1(pass), Step3(c, salt20, pass)))
  }

  /** scramble as written: the hashes, then the loop XOR-ing step1 and step3 into a
      fresh 20-byte slice. The hash.Hash writes of Go's SHA-1 never fail, so the two
      write checks always pass. */
  method ScrambleHash(c: Crypto, hash: seq<uint8>, pass: seq<uint8>) returns (s: Scrambled)
    ensures s == ScrambleSpec(c, hash, pass)
  {
    var decoded := c.base64(hash);
    if decoded.None? {
      return SaltUndecodable;
    }
    var salt := decoded.value;
    var step1 := c.sha1(pass);
    var step2 := c.sha1(step1);
    var salt20 := SaltPrefix(salt, DecodedCapacity(hash, salt));
    if salt20.None? {
      return SaltTooShort;
    }
    var prefix: seq<uint8> := salt20.value;
    var step3 := c.sha1(prefix + step2);
    var scramble := new uint8[20];
    for i := 0 to 20
      invariant forall k :: 0 <= k < i ==> scramble[k] == Xor(step1[k], step3[k])
    {
      scramble[i] := Xor(step1[i], step3[i]);
    }
    assert scramble[..] == XorBytes(step1, step3);
    return Scramble(scramble[..]);
  }

  // ---------------------------------------------------------------------
  // What the scramble promises
  // ---------------------------------------------------------------------

  /** The server can undo the scramble: XOR-ing it with step3 gives SHA1(pass) back. */
  lemma ScrambleUnmasks(c: Crypto, hash: seq<uint8>, pass: seq<uint8>)
    requires ScrambleSpec(c, hash, pass).Scramble?
    ensures var salt := c.base64(hash).value;
      var salt20 := SaltPrefix(salt, DecodedCapacity(hash, salt)).value;
      XorBytes(ScrambleSpec(c, hash, pass).bytes, Step3(c, salt20, pass)) == c.sha1(pass)
  {
    var salt := c.base64(hash).value;
    var salt20 := SaltPrefix(salt, DecodedCapacity(hash, salt)).value;
    XorBytesCancels(c.sha1(pass), Step3(c, salt20, pass));
  }

  /** Only the first twenty bytes of the salt matter. */
  lemma OnlySaltPrefixMatters(c: Crypto, hash1: seq<uint8>, hash2: seq<uint8>, pass: seq<uint8>)
    requires c.base64(hash1).Some? && c.base64(hash2).Some?
    requires |c.base64(hash1).value| >= 20 && |c.base64(hash2).value| >= 20
    requires c.base64(hash1).value[..20] == c.base64(hash2).value[..20]
    ensures ScrambleSpec(c, hash1, pass) == ScrambleSpec(c, hash2, pass)
  {
  }

  /** The scramble fails only on a salt that is not base64, or whose decoding has fewer
      than twenty bytes of capacity; a decoded salt of twenty bytes or more always works. */
  lemma ScrambleFailures(c: Crypto, hash: seq<uint8>, pass: seq<uint8>)
    ensures c.base64(hash).None? <==> ScrambleSpec(c, hash, pass) == SaltUndecodable
    ensures c.base64(hash).Some? && |c.base64(hash).value| >= 20 ==> ScrambleSpec(c, hash, pass).Scramble?
    ensures ScrambleSpec(c, hash, pass) == SaltTooShort <==>
      c.base64(hash).Some? && DecodedCapacity(hash, c.base64(hash).value) < 20
  {
  }
}
