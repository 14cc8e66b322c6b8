/**
 * The steps tarantool.go and connection.go share when they open a connection: the
 * two greeting lines read with `bufio.Reader.ReadString('\n')`, the salt taken from
 * the second one, and the AUTH round trip (scramble, transport.Write, transport.Read).
 * The socket, the dialer and the reader are not modelled: their answers are values.
 */
module Handshake {
  import opened Bytes
  import opened Wrappers
  import opened TransportTypes
  import Auth
  import AuthMessage
  import TransportRequest
  import TransportResponse

  /** An open `net.Conn`, known only by identity. */
  datatype Conn = Conn(id: nat)

  /** What `net.Dialer.DialContext` answers: a connection, or an error and a nil one. */
  datatype DialResult = Dialled(conn: Conn) | DialFailed

  /** The connection a dial leaves in the `conn` field: nil when the dial failed. */
  function ConnOf(d: DialResult): (c: Option<Conn>)
    ensures c.Some? <==> d.Dialled?
  {
    match d
    case Dialled(k) => Some(k)
    case DialFailed => None
  }

  /** The error `ReadString` returns with its line: nil, io.EOF or another error. */
  datatype LineError = NoError | AtEof | LineFailed

  datatype LineRead = LineRead(text: seq<uint8>, err: LineError)

  /** The server's greeting: a hello line and the base64 salt line. */
  datatype Greeting = Greeting(hello: LineRead, salt: LineRead)

  /** Everything outside the client that opening a connection depends on: the dialer
      (by address), the greeting, SHA-1 and base64, and the AUTH request/response. */
  datatype Env = Env(
    dial: seq<uint8> -> DialResult,
    greeting: Greeting,
    crypto: Auth.Crypto,
    exchange: Exchange)

  datatype GreetingError =
    | CouldNotReadHello   // "couldn't read hello"
    | CouldNotReadHash    // "couldn't read hash"

  /** The bytes of `" \n"`, the cutset of strings.TrimRight. */
  const SaltCutset: set<uint8> := {0x20, 0x0a}

  /** Reading the greeting: any error on the first line fails, an error other than EOF
      on the second fails, and otherwise the salt is the second line with trailing
      spaces and newlines trimmed. */
  function ReadGreeting(g: Greeting): (r: Result<seq<uint8>, GreetingError>)
  {
    if g.hello.err != NoError then Failure(CouldNotReadHello)
    else if g.salt.err == LineFailed then Failure(CouldNotReadHash)
    else Success(TrimRight(g.salt.text, SaltCutset))
  }

  /** The greeting is accepted exactly when the hello line was read without error and
      the salt line without an error other than EOF; the salt then is the salt line less
      a maximal run of trailing spaces and newlines, and never ends in one. */
  lemma ReadGreetingOutcomes(g: Greeting)
    ensures ReadGreeting(g).Success? <==> g.hello.err == NoError && g.salt.err != LineFailed
    ensures ReadGreeting(g) == Failure(CouldNotReadHello) <==> g.hello.err != NoError
    ensures ReadGreeting(g).Success? ==>
      var s, line := ReadGreeting(g).value, g.salt.text;
      && |s| <= |line| && s == line[..|s|]
      && (forall i :: |s| <= i < |line| ==> line[i] == 0x20 || line[i] == 0x0a)
      && (s == [] || (s[|s| - 1] != 0x20 && s[|s| - 1] != 0x0a))
  {
    TrimRightSplits(g.salt.text, SaltCutset);
  }

  // ---------------------------------------------------------------------
  // The AUTH round trip
  // ---------------------------------------------------------------------

  datatype AuthError =
    | ScrambleFailed(reason: Auth.Scrambled)             // the salt is not base64 (or too short: a Go panic)
    | RequestFailed(write: TransportRequest.WriteError)   // "couldn't make auth request"
    | ResponseFailed(read: TransportResponse.ReadError)   // "couldn't read auth response"

  datatype RoundTrip = Answered(response: TransportResponse.Response) | NotAnswered(error: AuthError)

  /** The AUTH request for a user and a scramble. */
  function AuthRequestFor(user: seq<uint8>, scramble: Bytes20): (r: Request)
    ensures r.header == map[KeyCode := RequestAuth, KeySync := 1]
    ensures r.body == KeyedBody(map[KeyUserName := Str(user), KeyTuple := BinList([AuthMessage.ChapSha1, scramble])])
  {
    Auth.AsRequest(Auth.AuthRequest(user, scramble))
  }

  /** The round trip as a function of its inputs: scramble the password with the salt,
      write the AUTH request, read the answer. */
  function RoundTripSpec(c: Auth.Crypto, user: seq<uint8>, pass: seq<uint8>, salt: seq<uint8>, x: Exchange)
    : (r: RoundTrip)
  {
    var s := Auth.ScrambleSpec(c, salt, pass);
    if !s.Scramble? then NotAnswered(ScrambleFailed(s))
    else
      var request := AuthRequestFor(user, s.bytes);
      match x.encode(request)
      case None => NotAnswered(RequestFailed(TransportRequest.EncodeFailed))
      case Some(payload) =>
        match TransportRequest.WriteOutcome(|payload| + 5, x.reply)
        case Some(e) => NotAnswered(RequestFailed(e))
        case None =>
          match TransportResponse.ReadReply(x.events, x.decoded)
          case NotReceived(e) => NotAnswered(ResponseFailed(e))
          case Received(response) => Answered(response)
  }

  /** The round trip as both files write it, one call after another. `sent` is the
      frame handed to the writer, None when nothing was written. */
  method AuthRoundTrip(c: Auth.Crypto, user: seq<uint8>, pass: seq<uint8>, salt: seq<uint8>, x: Exchange)
    returns (r: RoundTrip, sent: Option<seq<uint8>>)
    ensures r == RoundTripSpec(c, user, pass, salt, x)
    ensures var s := Auth.ScrambleSpec(c, salt, pass);
      sent == if s.Scramble? && x.encode(AuthRequestFor(user, s.bytes)).Some?
              then Some(TransportRequest.Frame(x.encode(AuthRequestFor(user, s.bytes)).value))
              else None
  {
    var s := Auth.ScrambleHash(c, salt, pass);
    if !s.Scramble? {
      return NotAnswered(ScrambleFailed(s)), None;
    }
    var err;
    err, sent := TransportRequest.Write(AuthRequestFor(user, s.bytes), x.encode, x.reply);
    if err.Some? {
      return NotAnswered(RequestFailed(err.value)), sent;
    }
    var res := TransportResponse.Read(x.events, x.decoded);
    if res.NotReceived? {
      return NotAnswered(ResponseFailed(res.error)), sent;
    }
    return Answered(res.response), sent;
  }

  /** The server answers only when the salt scrambles, the request is encoded and written
      in full, and the reply is read and classified; the answer is then Read's response. */
  lemma RoundTripAnswers(c: Auth.Crypto, user: seq<uint8>, pass: seq<uint8>, salt: seq<uint8>, x: Exchange)
    ensures var s := Auth.ScrambleSpec(c, salt, pass);
      RoundTripSpec(c, user, pass, salt, x).Answered? <==>
        && s.Scramble?
        && x.encode(AuthRequestFor(user, s.bytes)).Some?
        && x.reply == Wrote(|x.encode(AuthRequestFor(user, s.bytes)).value| + 5)
        && TransportResponse.ReadReply(x.events, x.decoded).Received?
    ensures RoundTripSpec(c, user, pass, salt, x).Answered? ==>
      TransportResponse.ReadReply(x.events, x.decoded) == TransportResponse.Received(RoundTripSpec(c, user, pass, salt, x).response)
  {
  }

  /** A salt that is not base64 stops the round trip before the request is encoded. */
  lemma UndecodableSaltFails(c: Auth.Crypto, user: seq<uint8>, pass: seq<uint8>, salt: seq<uint8>, x: Exchange)
    requires c.base64(salt).None?
    ensures RoundTripSpec(c, user, pass, salt, x) == NotAnswered(ScrambleFailed(Auth.SaltUndecodable))
  {
  }
}
