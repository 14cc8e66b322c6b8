/**
 * tarantool.go: the `Tarantool` client, which keeps a cluster of addresses, dials
 * them round robin and tracks whether it is connected. Its `auth` never succeeds:
 * whatever the server answers is returned as an error.
 * The mutex and the atomic loads and stores are read as plain sequential updates.
 */
module Client {
  import opened Bytes
  import opened Wrappers
  import opened Handshake
  import TransportResponse

  /** The errors tarantool.go returns, one per `fmt.Errorf`. */
  datatype Error =
    | CouldNotClose                       // "couldn't close connection"
    | AlreadyConnected                    // "already connected"
    | EmptyCluster                        // "empty cluster"
    | CouldNotConnect                     // "couldn't connect"
    | CouldNotGreet(greeting: GreetingError) // "couldn't read hello" / "couldn't read hash"
    | CouldNotAuthorize(auth: AuthFailure)  // "couldn't authorize"

  /** Why auth failed: the round trip failed, or the server answered, which auth
      reports as an error too ("response: %+v"). */
  datatype AuthFailure = RoundTripFailed(error: AuthError) | Replied(response: TransportResponse.Response)

  /** The fields of a Tarantool that its methods change. */
  datatype Fields = Fields(cluster: seq<seq<uint8>>, connected: bool, conn: Option<Conn>)

  /** The fields after an operation and the error it returns. */
  datatype Step = Step(after: Fields, err: Option<Error>)

  // ---------------------------------------------------------------------
  // Round robin
  // ---------------------------------------------------------------------

  /** `append(t.cluster[1:], t.cluster[0])`: the first address moves to the end. */
  function Rotate(c: seq<seq<uint8>>): (r: seq<seq<uint8>>)
    requires c != []
    ensures |r| == |c|
  {
    c[1..] + [c[0]]
  }

  /** n rotations in a row. */
  function RotateN(c: seq<seq<uint8>>, n: nat): (r: seq<seq<uint8>>)
    requires c != []
    ensures |r| == |c|
  {
    if n == 0 then c else Rotate(RotateN(c, n - 1))
  }

  /** A rotation keeps every address, as often as it was there. */
  lemma RotatePermutes(c: seq<seq<uint8>>)
    requires c != []
    ensures multiset(Rotate(c)) == multiset(c)
  {
    assert c == [c[0]] + c[1..];
  }

  /** After i rotations the list starts at the i-th address and wraps around. */
  lemma {:induction false} RotateNSplits(c: seq<seq<uint8>>, i: nat)
    requires c != [] && i <= |c|
    ensures RotateN(c, i) == c[i..] + c[..i]
  {
    if i > 0 {
      RotateNSplits(c, i - 1);
      var r := RotateN(c, i - 1);
      assert r[0] == c[i - 1];
      assert r[1..] == c[i..] + c[..i - 1];
      assert c[..i] == c[..i - 1] + [c[i - 1]];
    }
  }

  /** Round robin over n addresses: the i-th rotation (from 0) puts the i-th address
      first, each address once and in order, and n rotations restore the list. */
  lemma RoundRobin(c: seq<seq<uint8>>)
    requires c != []
    ensures forall i :: 0 <= i < |c| ==> RotateN(c, i)[0] == c[i]
    ensures RotateN(c, |c|) == c
  {
    forall i | 0 <= i < |c|
      ensures RotateN(c, i)[0] == c[i]
    {
      RotateNSplits(c, i);
    }
    RotateNSplits(c, |c|);
  }

  // ---------------------------------------------------------------------
  // The operations on the fields
  // ---------------------------------------------------------------------

  /** What auth (tarantool.go:114-134) reports: always a failure. */
  function AuthSpec(user: seq<uint8>, pass: seq<uint8>, salt: seq<uint8>, env: Env): (f: AuthFailure)
  {
    match RoundTripSpec(env.crypto, user, pass, salt, env.exchange)
    case NotAnswered(e) => RoundTripFailed(e)
    case Answered(r) => Replied(r)
  }

  /** disconnect (tarantool.go:49-65) as a function of the fields and of whether
      `conn.Close()` succeeds. */
  function DisconnectStep(s: Fields, closeOk: bool): (st: Step)
  {
    if !s.connected then Step(s, None)
    else if s.conn.None? then Step(s.(connected := false), None)
    else if !closeOk then Step(s.(connected := false), Some(CouldNotClose))
    else Step(s.(connected := false, conn := None), None)
  }

  /** connect (tarantool.go:67-112) as a function of the fields, the credentials and the
      answers of the outside world. */
  function ConnectStep(s: Fields, user: seq<uint8>, pass: seq<uint8>, env: Env): (st: Step)
  {
    if s.connected then Step(s, Some(AlreadyConnected))
    else if s.cluster == [] then Step(s, Some(EmptyCluster))
    else
      var dialled := env.dial(s.cluster[0]);
      var s' := s.(cluster := Rotate(s.cluster), conn := ConnOf(dialled));
      if dialled.DialFailed? then Step(s', Some(CouldNotConnect))
      else match ReadGreeting(env.greeting)
        case Failure(e) => Step(s', Some(CouldNotGreet(e)))
        case Success(salt) =>
          if user != [] then Step(s', Some(CouldNotAuthorize(AuthSpec(user, pass, salt, env))))
          else Step(s'.(connected := true), None)
  }

  /** ConnectTo (tarantool.go:33-43): disconnect, replace the cluster, connect. */
  function ConnectToStep(s: Fields, cluster: seq<seq<uint8>>, closeOk: bool, user: seq<uint8>, pass: seq<uint8>, env: Env)
    : (st: Step)
  {
    var d := DisconnectStep(s, closeOk);
    if d.err.Some? then d else ConnectStep(d.after.(cluster := cluster), user, pass, env)
  }

  /** connect's attempts one after another, each with its own answers. */
  function Connects(s: Fields, user: seq<uint8>, pass: seq<uint8>, envs: seq<Env>): (t: Fields)
    decreases |envs|
  {
    if envs == [] then s else Connects(ConnectStep(s, user, pass, envs[0]).after, user, pass, envs[1..])
  }

  // ---------------------------------------------------------------------
  // The client
  // ---------------------------------------------------------------------

  /** The `Tarantool` struct. */
  class Tarantool {
    const user: seq<uint8>
    const pass: seq<uint8>
    var cluster: seq<seq<uint8>>
    var connected: bool
    var conn: Option<Conn>

    function Snapshot(): Fields
      reads this
    {
      Fields(cluster, connected, conn)
    }

    /** New (tarantool.go:25-31): no cluster, not connected, no connection. */
    constructor New(user: seq<uint8>, pass: seq<uint8>)
      ensures this.user == user && this.pass == pass
      ensures Snapshot() == Fields([], false, None)
    {
      this.user := user;
      this.pass := pass;
      cluster := [];
      connected := false;
      conn := None;
    }

    /** ConnectTo (tarantool.go:33-43). */
    method ConnectTo(cluster: seq<seq<uint8>>, closeOk: bool, env: Env) returns (err: Option<Error>)
      modifies this
      ensures Step(Snapshot(), err) == ConnectToStep(old(Snapshot()), cluster, closeOk, user, pass, env)
    {
      err := Disconnect(closeOk);
      if err.Some? {
        return;
      }
      this.cluster := cluster;
      err := Connect(env);
    }

    /** Close (tarantool.go:45-47) is disconnect. */
    method Close(closeOk: bool) returns (err: Option<Error>)
      modifies this
      ensures Step(Snapshot(), err) == DisconnectStep(old(Snapshot()), closeOk)
    {
      err := Disconnect(closeOk);
    }

    /** disconnect (tarantool.go:49-65). */
    method Disconnect(closeOk: bool) returns (err: Option<Error>)
      modifies this
      ensures Step(Snapshot(), err) == DisconnectStep(old(Snapshot()), closeOk)
    {
      if !connected {
        return None;
      }
      connected := false;
      if conn.None? {
        return None;
      }
      if !closeOk {
        return Some(CouldNotClose);
      }
      conn := None;
      return None;
    }

    /** connect (tarantool.go:67-112). */
    method Connect(env: Env) returns (err: Option<Error>)
      modifies this
      ensures Step(Snapshot(), err) == ConnectStep(old(Snapshot()), user, pass, env)
    {
      if connected {
        return Some(AlreadyConnected);
      }
      if cluster == [] {
        return Some(EmptyCluster);
      }
      var addr := cluster[0];
      cluster := cluster[1..] + [cluster[0]];
      var dialled := env.dial(addr);
      conn := ConnOf(dialled);
      if dialled.DialFailed? {
        return Some(CouldNotConnect);
      }
      var salt := ReadGreeting(env.greeting);
      if salt.Failure? {
        return Some(CouldNotGreet(salt.error));
      }
      if user != [] {
        var failure := Auth(salt.value, env);
        if failure.Some? {
          return Some(CouldNotAuthorize(failure.value));
        }
      }
      connected := true;
      return None;
    }

    /** auth (tarantool.go:114-134): it returns an error whatever happens. */
    method Auth(salt: seq<uint8>, env: Env) returns (err: Option<AuthFailure>)
      ensures err.Some? && err.value == AuthSpec(user, pass, salt, env)
    {
      var r, _ := AuthRoundTrip(env.crypto, user, pass, salt, env.exchange);
      match r
      case NotAnswered(e) =>
        return Some(RoundTripFailed(e));
      case Answered(response) =>
        return Some(Replied(response));
    }
  }

  // ---------------------------------------------------------------------
  // What the operations promise
  // ---------------------------------------------------------------------

  /** connect succeeds exactly when the client was not connected, has a cluster, the dial
      and the greeting succeed and no user is set; it refuses while connected or with an
      empty cluster, changing nothing; otherwise it has rotated the cluster before dialling
      its first address, and keeps what the dial returned even when a later step fails. */
  lemma ConnectOutcomes(s: Fields, user: seq<uint8>, pass: seq<uint8>, env: Env)
    ensures var st := ConnectStep(s, user, pass, env);
      && (st.err.None? <==>
            !s.connected && s.cluster != [] && env.dial(s.cluster[0]).Dialled?
            && ReadGreeting(env.greeting).Success? && user == [])
      && (st.after.connected <==> s.connected || st.err.None?)
      && (s.connected ==> st == Step(s, Some(AlreadyConnected)))
      && (!s.connected && s.cluster == [] ==> st == Step(s, Some(EmptyCluster)))
      && (!s.connected && s.cluster != [] ==>
            st.after.cluster == Rotate(s.cluster) && st.after.conn == ConnOf(env.dial(s.cluster[0])))
  {
  }

  /** With a user set, connect never connects: auth always fails. */
  lemma ConnectWithUserNeverConnects(s: Fields, user: seq<uint8>, pass: seq<uint8>, env: Env)
    requires user != []
    ensures ConnectStep(s, user, pass, env).after.connected == s.connected
    ensures ConnectStep(s, user, pass, env).err.Some?
  {
  }

  /** disconnect leaves the client not connected and its cluster alone; it fails only when
      a connected client's connection will not close, which then stays; a successful close
      drops the connection; a client that is not connected is left as it is. */
  lemma DisconnectOutcomes(s: Fields, closeOk: bool)
    ensures var st := DisconnectStep(s, closeOk);
      && !st.after.connected && st.after.cluster == s.cluster
      && (st.err.Some? <==> s.connected && s.conn.Some? && !closeOk)
      && st.after.conn == (if s.connected && closeOk then None else s.conn)
      && (!s.connected ==> st == Step(s, None))
  {
  }

  /** ConnectTo keeps the old cluster when the disconnect fails; otherwise the new
      cluster replaces it (rotated once if it is not empty), and the connect never finds
      the client already connected. */
  lemma ConnectToReplacesCluster(s: Fields, cluster: seq<seq<uint8>>, closeOk: bool, user: seq<uint8>, pass: seq<uint8>, env: Env)
    ensures var st := ConnectToStep(s, cluster, closeOk, user, pass, env);
      && (DisconnectStep(s, closeOk).err.Some? ==> st.err == Some(CouldNotClose) && st.after.cluster == s.cluster)
      && (DisconnectStep(s, closeOk).err.None? ==>
            && st.after.cluster == (if cluster == [] then [] else Rotate(cluster))
            && st.err != Some(AlreadyConnected))
  {
  }

  /** With a user set, repeated connect attempts never connect, and each rotates the
      cluster once: k attempts leave it rotated k times, so the attempts dial the
      addresses in order (RoundRobin). */
  lemma {:induction false} ConnectsRotate(s: Fields, user: seq<uint8>, pass: seq<uint8>, envs: seq<Env>)
    requires !s.connected && s.cluster != [] && user != []
    ensures var t := Connects(s, user, pass, envs);
      !t.connected && t.cluster == RotateN(s.cluster, |envs|)
    decreases |envs|
  {
    if envs != [] {
      var next := ConnectStep(s, user, pass, envs[0]).after;
      ConnectsRotate(next, user, pass, envs[1..]);
      RotateNShifts(s.cluster, |envs| - 1);
    }
  }

  /** Rotating first and then n times is rotating n + 1 times. */
  lemma {:induction false} RotateNShifts(c: seq<seq<uint8>>, n: nat)
    requires c != []
    ensures RotateN(Rotate(c), n) == RotateN(c, n + 1)
  {
    if n > 0 {
      RotateNShifts(c, n - 1);
    }
  }
}
