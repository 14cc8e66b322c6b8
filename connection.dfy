/**
 * connection.go: the `Session` lifecycle. A session is not connected until its dial
 * (and, with a user, its AUTH round trip) succeeds; Close drops the connection and
 * closes the `done` channel. The mutex and the atomics are read as plain sequential
 * updates; waiting for the connection (`waitConnected`) is an answer passed in.
 *
 * connect never makes a new `done` channel, so Close, connect and Close again closes
 * the same channel twice, which panics in Go. Connect models that as written;
 * ConnectRenewingDone makes a fresh channel on each new connection and keeps the
 * invariant under which Close never panics.
 */
module Connection {
  import opened Bytes
  import opened Wrappers
  import opened TransportTypes
  import opened Handshake
  import TransportRequest
  import TransportResponse

  /** `time.Second * 30` as a time.Duration, in nanoseconds. */
  const DefaultTimeout: int := 30_000_000_000

  /** The `sessionConfig` struct; the timeout is a time.Duration in nanoseconds. */
  datatype Config = Config(addr: seq<uint8>, user: seq<uint8>, pass: seq<uint8>, timeout: int)

  /** The `done` channel: open, or closed (which signals every receiver). */
  datatype Signal = Open | Closed

  /** The fields of a Session that its methods change. */
  datatype Fields = Fields(connected: bool, conn: Option<Conn>, done: Signal)

  /** The fields after an operation and what it returns. */
  datatype Step<R> = Step(after: Fields, result: R)

  /** What Close does: returns nil, returns "couldn't close connection", or panics
      with "close of closed channel". */
  datatype CloseOutcome = CloseOk | CloseFailed | DoubleClose

  /** Why auth fails. */
  datatype AuthFailure =
    | CouldNotGreet(greeting: GreetingError)   // "couldn't read hello" / "couldn't read hash"
    | RoundTripFailed(error: AuthError)        // the scramble, the write or the read failed
    | Refused(code: uint16, message: seq<uint8>) // "auth error #%d: %s"

  datatype ConnectError =
    | CouldNotConnect                        // "couldn't connect"
    | CouldNotAuthorize(auth: AuthFailure)   // "couldn't authorize"

  datatype RequestError =
    | NotConnected                                       // "couldn't wait connection"
    | CouldNotRequest(write: TransportRequest.WriteError) // "couldn't make request"
    | CouldNotRead(read: TransportResponse.ReadError)     // "couldn't read response"

  datatype RequestResult = Responded(response: TransportResponse.Response) | NotResponded(error: RequestError)

  // ---------------------------------------------------------------------
  // The operations on the fields
  // ---------------------------------------------------------------------

  /** session (connection.go:31-42): a timeout that is not positive becomes 30 seconds. */
  function WithDefaults(cfg: Config): (c: Config)
    ensures c.addr == cfg.addr && c.user == cfg.user && c.pass == cfg.pass
    ensures c.timeout > 0
    ensures cfg.timeout > 0 ==> c.timeout == cfg.timeout
    ensures cfg.timeout <= 0 ==> c.timeout == DefaultTimeout
  {
    if cfg.timeout <= 0 then cfg.(timeout := DefaultTimeout) else cfg
  }

  /** A new session: not connected, no connection, an open done channel. */
  const Initial := Fields(false, None, Open)

  /** Close (connection.go:44-63) as a function of the fields and of whether
      `conn.Close()` succeeds. */
  function CloseStep(s: Fields, closeOk: bool): (st: Step<CloseOutcome>)
  {
    if !s.connected then Step(s, CloseOk)
    else if s.conn.None? then Step(s.(connected := false), CloseOk)
    else if !closeOk then Step(s.(connected := false), CloseFailed)
    else if s.done == Closed then Step(s.(connected := false, conn := None), DoubleClose)
    else Step(s.(connected := false, conn := None, done := Closed), CloseOk)
  }

  /** auth (connection.go:96-131) as a function of the configuration and the answers of
      the outside world: None when the server accepts the user. */
  function AuthSpec(cfg: Config, env: Env): (err: Option<AuthFailure>)
  {
    match ReadGreeting(env.greeting)
    case Failure(e) => Some(CouldNotGreet(e))
    case Success(salt) =>
      match RoundTripSpec(env.crypto, cfg.user, cfg.pass, salt, env.exchange)
      case NotAnswered(e) => Some(RoundTripFailed(e))
      case Answered(r) => if r.isError then Some(Refused(r.errorCode, r.error)) else None
  }

  /** connect (connection.go:65-94) as written: the done channel is left as it is. */
  function ConnectStep(s: Fields, cfg: Config, env: Env): (st: Step<Option<ConnectError>>)
  {
    if s.connected then Step(s, None)
    else
      var dialled := env.dial(cfg.addr);
      var s' := s.(conn := ConnOf(dialled));
      if dialled.DialFailed? then Step(s', Some(CouldNotConnect))
      else if cfg.user != [] && AuthSpec(cfg, env).Some? then
        Step(s', Some(CouldNotAuthorize(AuthSpec(cfg, env).value)))
      else Step(s'.(connected := true), None)
  }

  /** connect as evidently intended: a new connection gets a new, open done channel. */
  function ConnectRenewingStep(s: Fields, cfg: Config, env: Env): (st: Step<Option<ConnectError>>)
  {
    var st := ConnectStep(s, cfg, env);
    if !s.connected && st.result.None? then Step(st.after.(done := Open), None) else st
  }

  /** The invariant under which Close cannot panic: a connected session's done channel
      is open. */
  predicate DoneOpenWhileConnected(s: Fields)
  {
    s.connected ==> s.done == Open
  }

  /** waitConnected (connection.go:155-171) in a sequential run. Nothing else changes
      `connected` while it polls, so it returns nil exactly when the session is connected
      and the context was not already done. A done context wins over the `default` branch
      of the select. Otherwise the context or the timer ends the wait with an error. */
  predicate WaitConnected(connected: bool, cancelled: bool)
  {
    connected && !cancelled
  }

  /** request (connection.go:133-153) on a session in state s, `cancelled` saying whether
      the caller's context was already done. */
  function RequestSpec(s: Fields, cancelled: bool, req: Request, x: Exchange): (r: RequestResult)
  {
    if !WaitConnected(s.connected, cancelled) then NotResponded(NotConnected)
    else match x.encode(req)
      case None => NotResponded(CouldNotRequest(TransportRequest.EncodeFailed))
      case Some(payload) =>
        match TransportRequest.WriteOutcome(|payload| + 5, x.reply)
        case Some(e) => NotResponded(CouldNotRequest(e))
        case None =>
          match TransportResponse.ReadReply(x.events, x.decoded)
          case NotReceived(e) => NotResponded(CouldNotRead(e))
          case Received(response) => Responded(response)
  }

  // ---------------------------------------------------------------------
  // The session
  // ---------------------------------------------------------------------

  /** The `Session` struct. */
  class Session {
    const cfg: Config
    var connected: bool
    var conn: Option<Conn>
    var done: Signal

    function Snapshot(): Fields
      reads this
    {
      Fields(connected, conn, done)
    }

    predicate Valid()
      reads this
    {
      DoneOpenWhileConnected(Snapshot())
    }

    /** session (connection.go:31-42). */
    constructor (cfg: Config)
      ensures this.cfg == WithDefaults(cfg)
      ensures Snapshot() == Initial && Valid()
    {
      this.cfg := WithDefaults(cfg);
      connected := false;
      conn := None;
      done := Open;
    }

    /** Close (connection.go:44-63). */
    method Close(closeOk: bool) returns (r: CloseOutcome)
      modifies this
      ensures Step(Snapshot(), r) == CloseStep(old(Snapshot()), closeOk)
      ensures old(Valid()) ==> Valid() && r != DoubleClose
    {
      if !connected {
        return CloseOk;
      }
      connected := false;
      if conn.None? {
        return CloseOk;
      }
      if !closeOk {
        return CloseFailed;
      }
      conn := None;
      if done == Closed {
        return DoubleClose;
      }
      done := Closed;
      return CloseOk;
    }

    /** connect (connection.go:65-94) as written. */
    method Connect(env: Env) returns (err: Option<ConnectError>)
      modifies this
      ensures Step(Snapshot(), err) == ConnectStep(old(Snapshot()), cfg, env)
    {
      if connected {
        return None;
      }
      var dialled := env.dial(cfg.addr);
      conn := ConnOf(dialled);
      if dialled.DialFailed? {
        return Some(CouldNotConnect);
      }
      if cfg.user != [] {
        var failure := Auth(env);
        if failure.Some? {
          return Some(CouldNotAuthorize(failure.value));
        }
      }
      connected := true;
      return None;
    }

    /** connect with a fresh done channel for each new connection: keeps Valid. */
    method ConnectRenewingDone(env: Env) returns (err: Option<ConnectError>)
      modifies this
      ensures Step(Snapshot(), err) == ConnectRenewingStep(old(Snapshot()), cfg, env)
      ensures old(Valid()) ==> Valid()
    {
      var wasConnected := connected;
      err := Connect(env);
      if !wasConnected && err.None? {
        done := Open;
      }
    }

    /** auth (connection.go:96-131): changes nothing. */
    method Auth(env: Env) returns (err: Option<AuthFailure>)
      ensures err == AuthSpec(cfg, env)
    {
      var salt := ReadGreeting(env.greeting);
      if salt.Failure? {
        return Some(CouldNotGreet(salt.error));
      }
      var r, _ := AuthRoundTrip(env.crypto, cfg.user, cfg.pass, salt.value, env.exchange);
      if r.NotAnswered? {
        return Some(RoundTripFailed(r.error));
      }
      if r.response.isError {
        return Some(Refused(r.response.errorCode, r.response.error));
      }
      return None;
    }

    /** request (connection.go:133-153): waits for the session to be connected, then
        writes and reads. Changes nothing; `sent` is the frame handed to the writer. */
    method Request(cancelled: bool, req: Request, x: Exchange) returns (r: RequestResult, sent: Option<seq<uint8>>)
      ensures r == RequestSpec(Snapshot(), cancelled, req, x)
      ensures sent == if WaitConnected(connected, cancelled) && x.encode(req).Some?
                      then Some(TransportRequest.Frame(x.encode(req).value)) else None
    {
      if !WaitConnected(connected, cancelled) {
        return NotResponded(NotConnected), None;
      }
      var err;
      err, sent := TransportRequest.Write(req, x.encode, x.reply);
      if err.Some? {
        return NotResponded(CouldNotRequest(err.value)), sent;
      }
      var res := TransportResponse.Read(x.events, x.decoded);
      if res.NotReceived? {
        return NotResponded(CouldNotRead(res.error)), sent;
      }
      return Responded(res.response), sent;
    }
  }

  // ---------------------------------------------------------------------
  // What the operations promise
  // ---------------------------------------------------------------------

  /** Close always leaves the session not connected. A session that is not connected is
      left as it is. A connection that will not close is kept, with done untouched, and
      reported; a connection that closes is dropped and done is closed, which panics
      exactly when done was closed already. */
  lemma CloseOutcomes(s: Fields, closeOk: bool)
    ensures var st := CloseStep(s, closeOk);
      && !st.after.connected
      && (!s.connected ==> st == Step(s, CloseOk))
      && (st.result == CloseFailed <==> s.connected && s.conn.Some? && !closeOk)
      && (st.result == CloseFailed ==> st.after.conn == s.conn && st.after.done == s.done)
      && (st.result == DoubleClose <==> s.connected && s.conn.Some? && closeOk && s.done == Closed)
      && (s.connected && s.conn.Some? && closeOk ==> st.after.conn == None && st.after.done == Closed)
  {
  }

  /** connect on a connected session returns nil without dialling; otherwise it connects
      exactly when the dial succeeds and, with a user, auth succeeds; without a user auth
      is skipped. The connection the dial returned is kept whatever follows. */
  lemma ConnectOutcomes(s: Fields, cfg: Config, env: Env)
    ensures var st := ConnectStep(s, cfg, env);
      && (s.connected ==> st == Step(s, None))
      && (!s.connected ==>
            && (st.result.None? <==>
                  env.dial(cfg.addr).Dialled? && (cfg.user == [] || AuthSpec(cfg, env).None?))
            && (st.after.connected <==> st.result.None?)
            && st.after.conn == ConnOf(env.dial(cfg.addr))
            && st.after.done == s.done)
  {
  }

  /** auth succeeds exactly when the greeting is read, the round trip is answered and the
      answer is not an error; an error answer is reported with its code and message. */
  lemma AuthOutcomes(cfg: Config, env: Env)
    ensures AuthSpec(cfg, env).None? <==>
      && ReadGreeting(env.greeting).Success?
      && RoundTripSpec(env.crypto, cfg.user, cfg.pass, ReadGreeting(env.greeting).value, env.exchange).Answered?
      && !RoundTripSpec(env.crypto, cfg.user, cfg.pass, ReadGreeting(env.greeting).value, env.exchange).response.isError
    ensures ReadGreeting(env.greeting).Success? ==>
      var rt := RoundTripSpec(env.crypto, cfg.user, cfg.pass, ReadGreeting(env.greeting).value, env.exchange);
      rt.Answered? && rt.response.isError ==> AuthSpec(cfg, env) == Some(Refused(rt.response.errorCode, rt.response.error))
  {
  }

  /** request answers only a connected session, under a context not yet done, whose
      request is encoded, written in full and answered; the answer is Read's
      classification of the reply. */
  lemma RequestOutcomes(s: Fields, cancelled: bool, req: Request, x: Exchange)
    ensures RequestSpec(s, cancelled, req, x).Responded? <==>
      && s.connected && !cancelled && x.encode(req).Some?
      && x.reply == Wrote(|x.encode(req).value| + 5)
      && TransportResponse.ReadReply(x.events, x.decoded).Received?
    ensures RequestSpec(s, cancelled, req, x).Responded? ==>
      TransportResponse.ReadReply(x.events, x.decoded) == TransportResponse.Received(RequestSpec(s, cancelled, req, x).response)
    ensures !s.connected ==> RequestSpec(s, cancelled, req, x) == NotResponded(NotConnected)
  {
  }

  /** The lifecycle governs request: a new session, a closed one and one whose connect
      failed are never answered; they fail with "couldn't wait connection". */
  lemma RequestNeedsConnect(s: Fields, closeOk: bool, cfg: Config, env: Env, cancelled: bool, req: Request, x: Exchange)
    ensures RequestSpec(Initial, cancelled, req, x) == NotResponded(NotConnected)
    ensures RequestSpec(CloseStep(s, closeOk).after, cancelled, req, x) == NotResponded(NotConnected)
    ensures !s.connected && ConnectStep(s, cfg, env).result.Some? ==>
      RequestSpec(ConnectStep(s, cfg, env).after, cancelled, req, x) == NotResponded(NotConnected)
  {
  }

  // ---------------------------------------------------------------------
  // The done channel
  // ---------------------------------------------------------------------

  /** As written: with no user and every dial and close succeeding, Close, connect and
      Close again panic on the done channel closed by the first Close. */
  lemma ReconnectAfterCloseAsWritten(cfg: Config, env1: Env, env2: Env)
    requires cfg.user == [] && env1.dial(cfg.addr).Dialled? && env2.dial(cfg.addr).Dialled?
    ensures var s1 := ConnectStep(Initial, cfg, env1).after;
      var s2 := CloseStep(s1, true).after;
      var s3 := ConnectStep(s2, cfg, env2).after;
      && s1.connected && CloseStep(s1, true).result == CloseOk
      && s3.connected && CloseStep(s3, true).result == DoubleClose
  {
    var s1 := ConnectStep(Initial, cfg, env1).after;
    var s2 := CloseStep(s1, true).after;
    assert s2.done == Closed;
  }

  /** connect as written breaks the invariant: a reconnected session can hold a closed
      done channel. */
  lemma ConnectBreaksInvariant(cfg: Config, env: Env)
    requires cfg.user == [] && env.dial(cfg.addr).Dialled?
    ensures DoneOpenWhileConnected(Fields(false, None, Closed))
    ensures !DoneOpenWhileConnected(ConnectStep(Fields(false, None, Closed), cfg, env).after)
  {
  }

  /** Corrected: a new session has the invariant, Close and the renewing connect keep
      it, and under it Close never panics. */
  lemma DoneInvariantHolds(s: Fields, closeOk: bool, cfg: Config, env: Env)
    ensures DoneOpenWhileConnected(Initial)
    ensures DoneOpenWhileConnected(s) ==>
      && DoneOpenWhileConnected(CloseStep(s, closeOk).after)
      && DoneOpenWhileConnected(ConnectRenewingStep(s, cfg, env).after)
      && CloseStep(s, closeOk).result != DoubleClose
  {
  }

  /** Corrected: the same run of connect, Close, connect, Close ends without a panic, and
      the renewing connect does what connect does apart from the done channel. */
  lemma ReconnectAfterCloseCorrected(cfg: Config, env1: Env, env2: Env)
    requires cfg.user == [] && env1.dial(cfg.addr).Dialled? && env2.dial(cfg.addr).Dialled?
    ensures var s1 := ConnectRenewingStep(Initial, cfg, env1).after;
      var s2 := CloseStep(s1, true).after;
      var s3 := ConnectRenewingStep(s2, cfg, env2).after;
      && s1.connected && CloseStep(s1, true).result == CloseOk
      && s3.connected && CloseStep(s3, true).result == CloseOk
    ensures forall s: Fields ::
      var st, st' := ConnectStep(s, cfg, env1), ConnectRenewingStep(s, cfg, env1);
      st'.result == st.result && st'.after.connected == st.after.connected && st'.after.conn == st.after.conn
  {
    var s1 := ConnectRenewingStep(Initial, cfg, env1).after;
    var s2 := CloseStep(s1, true).after;
    DoneInvariantHolds(s2, true, cfg, env2);
  }
}
