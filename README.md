# Tarantool IPROTO client core, modelled in Dafny

This project models the core of a Go client for Tarantool's IPROTO binary protocol.
Requests and responses are MessagePack-encoded header and body maps behind a 5-byte
length prefix (`0xce` followed by a big-endian uint32). Logging in uses CHAP-SHA1: the
password is scrambled with the salt from the server's greeting.

The repository holds several drafts side by side, and each is modelled under its own name:

- `Msgpack` (msgpack/unmarshal.go): the hand-rolled MessagePack subset decoder. `token` reads the
  eight integer tags. Every other tag with the high bit set is read as a fixmap, so the
  map16/map32 branches of `unmarshalMap` can never be reached. Tags below `0x80` are refused,
  positive fixints included.
- `ResponseDraft` (response.go): `parseResponse`, the frame parser built on that decoder.
- `AuthMessage` (messages.go): `auth.Bytes`, the byte-exact AUTH body with its 31-byte name limit.
- `Auth` (auth.go): the AUTH request of the transport layer and the scramble
  `SHA1(pass) XOR SHA1(salt[0:20] ++ SHA1(SHA1(pass)))`.
- `TransportTypes`, `TransportRequest`, `TransportResponse` (transport/): the framing
  `Write`, plus the chunked `read` and the classifying `Read` of a reply.
- `Handshake`: the greeting and AUTH round trip shared by the two client drafts.
- `Client` (tarantool.go): the `Tarantool` client, a class with a round-robin cluster list.
- `Connection` (connection.go): the `Session` lifecycle, a class whose `done` channel is closed on `Close`.

Each stateful operation has two forms. One is a method on a class, or a loop over an array,
written as the source writes it. The other is a function of the old state, which the
method's `ensures` matches. The lemmas state what the source promises about those functions.

Go's slicing rules are explicit in the model. `bb[:n]` is checked against capacity, while
`bb[i]` and `bb[i:]` are checked against length, so the decoders carry the spare capacity
as a parameter. A panic is an explicit outcome, never a precondition.

Outside inputs are values passed in:

- SHA-1 and base64 (`Auth.Crypto`).
- The library encoder and decoder, the writer's answer and the reader's answers (`TransportTypes.Exchange`).
- The dialer and the greeting lines (`Handshake.Env`).
- Whether `conn.Close()` succeeds.

The source has no connection pool or ID registry, and the model has none.

## Model

| member | source | states |
|---|---|---|
| Msgpack.Token | msgpack/unmarshal.go:45-76 | A decoded value always consumes at least its tag byte, which is what makes the recursion terminate. |
| Msgpack.DecodeMap | msgpack/unmarshal.go:12-23 | A decoded map consumes at least its header byte. |
| Msgpack.KindOfTag | msgpack/unmarshal.go:47-63 | Exactly the tags 0xcc..0xd3 select an integer kind, and the kind's tag is the byte read. |
| Msgpack.LowNibble | msgpack/unmarshal.go:16 | A fixmap holds `tag % 16` entries (Go writes `0xf & tag`), which is fewer than 16. |
| Msgpack.UnmarshalMap | msgpack/unmarshal.go:12-43 | The key/value loop that decrements `l` and fills `res` returns what DecodeMap specifies: the value, the error, the remainder or the panic. |
| Msgpack.TokenRestIsSuffix | msgpack/unmarshal.go:45-76 | The remainder returned with a value or with an error is a suffix of the input. |
| Msgpack.DecodeMapRestIsSuffix | msgpack/unmarshal.go:12-43 | The same holds for unmarshalMap. |
| Msgpack.DecodeEntriesRestIsSuffix | msgpack/unmarshal.go:30-42 | The same holds for the key/value loop. |
| Msgpack.TokenUint8 | msgpack/unmarshal.go:48-49 | Tag 0xcc yields `bb[1]` as a uint8 and the remainder `bb[2:]`. |
| Msgpack.TokenInteger | msgpack/unmarshal.go:50-63 | Tags 0xcd..0xcf yield the big-endian value of the next 2/4/8 bytes. Tags 0xd0..0xd3 yield the two's-complement reading of 1/2/4/8 bytes. Either way, 1 + width bytes are dropped. |
| Msgpack.TokenRejectsLowTags | msgpack/unmarshal.go:68-75 | A tag below 0x80 is an error, and the input comes back unchanged. |
| Msgpack.TokenHighTagIsFixmap | msgpack/unmarshal.go:15-16 | Any other tag with the high bit set, 0xde/0xdf included, is a map of `tag % 16` entries after a one-byte header. |
| Msgpack.TokenErrNeedsCapacity | msgpack/unmarshal.go:46 | An error is reported only after `bb[:4]` succeeded. |
| Msgpack.TokenShortInputPanics | msgpack/unmarshal.go:46 | Fewer than four bytes of capacity make `bb[:4]` panic. |
| Msgpack.TokenEncodeNum | msgpack/unmarshal.go:48-63 | Round trip: every in-range integer of each of the eight kinds, encoded with its tag, decodes back to itself, and the following bytes are returned untouched. The only demand is the capacity `bb[:4]` needs: the encoding, the rest and the spare capacity together reach 4 bytes. |
| Msgpack.DecodeEntriesSkipsPairs | msgpack/unmarshal.go:30-40 | Reading n uint8 key/value pairs in order folds them into the map one after another. |
| Msgpack.TokenEncodeFixmap | msgpack/unmarshal.go:12-43 | Round trip: a fixmap of up to 15 uint8 pairs decodes to the fold of its pairs, and the following bytes are returned. It needs the capacity Go's `bb[:4]` slices need: 3 bytes of rest plus spare after an empty map's header, and 2 after the last pair otherwise. |
| Msgpack.FoldPairsLastWins | msgpack/unmarshal.go:39 | A later duplicate key overwrites an earlier one: the last pair with a key decides its value. |
| Msgpack.FoldPairsKeeps | msgpack/unmarshal.go:39 | A key that no pair mentions keeps its value. |
| Msgpack.DuplicateKeyExample | msgpack/unmarshal.go:39 | `{1: 5, 1: 7}` decodes to `{1: 7}`. |
| Msgpack.DecodeEntriesKeyErr | msgpack/unmarshal.go:31-34 | A key that fails to decode aborts the map with "couldn't get key" and the key's remainder. |
| Msgpack.DecodeEntriesValueErr | msgpack/unmarshal.go:35-38 | A value that fails to decode aborts the map with "couldn't get value". |
| Msgpack.DecodeEntriesKeyErrorAborts | msgpack/unmarshal.go:30-34 | A bad key after any number of good pairs aborts the whole map. |
| Msgpack.DecodeEntriesValueErrorAborts | msgpack/unmarshal.go:35-38 | A bad value after any number of good pairs aborts the whole map. |
| Bytes.TwosComplement | msgpack/unmarshal.go:56-63 | The signed reading of a w-byte value lies in the signed range of w bytes. |
| Bytes.BigEndianInjective | msgpack/unmarshal.go:50-55 | A big-endian reading determines the bytes: the encoding of the value read gives the same bytes back. |
| ResponseDraft.ByteKeyed | response.go:40-46 | The header built from the decoded map holds exactly the uint8-keyed entries, with their values. |
| ResponseDraft.ParseResponse | response.go:14-53 | The slicing steps, the checks and the header-copy loop give ParseSpec's parse, rejection or panic. |
| ResponseDraft.EmptyIsRejected | response.go:16-18 | Empty input is an error. |
| ResponseDraft.WrongTagIsRejected | response.go:19-23 | A first byte other than 0xce is an error. |
| ResponseDraft.ShortFramePanics | response.go:26 | With the right tag, a frame of fewer than five bytes panics when the length is sliced off (`bb[4:]`). |
| ResponseDraft.LengthMismatchIsRejected | response.go:28-30 | For a remainder under 4 GiB, a declared length other than the number of remaining bytes is an error. Above that the `uint32` length wraps. |
| ResponseDraft.BadHeaderIsRejected | response.go:33-39 | A header that does not decode, or is not a map, is an error. |
| ResponseDraft.NonByteKeyIsRejected | response.go:41-44 | Any header key that is not a uint8 is an error. |
| ResponseDraft.TrailingBytesAreRejected | response.go:48-52 | Bytes left after the header map are an error. |
| ResponseDraft.ParsedFrame | response.go:14-53 | A successful parse saw the 0xce tag and a correct length, and a uint8-keyed header map used every remaining byte. The response then has IsError false and exactly that map's entries as its header. |
| ResponseDraft.ParseByteFixmap | response.go:32-50 | A frame carrying a fixmap of uint8 pairs parses into a response with IsError false and the header those pairs fold to. It needs spare capacity of 3 after an empty map and 2 otherwise, the least Go's `bb[:4]` slices allow. |
| AuthMessage.ToBytes | messages.go:14-57 | The result is an error exactly when the user name is over 31 bytes. Otherwise the bytes written are exactly Layout. |
| AuthMessage.CopyInto | messages.go:28-30 | The copy loop writes `src` at `at` and leaves every other byte alone. |
| AuthMessage.WritePrefix | messages.go:20-27 | The four header writes put the map header, the user-name key and the fixstr header of an l-byte name at bytes 0..3, and touch nothing else. |
| AuthMessage.WriteMiddle | messages.go:31-50 | The fifteen constant writes place the tuple key, the array header, "chap-sha1" and the bin8 header, and touch nothing else. |
| AuthMessage.WriteTupleHead | messages.go:32-36 | `o[j+0..j+2]` become the tuple key and the header of an array of two. Nothing else changes. |
| AuthMessage.WriteMethodName | messages.go:37-47 | `o[j+3..j+12]` become the fixstr "chap-sha1". Nothing else changes. |
| AuthMessage.WriteBinHead | messages.go:48-50 | `o[j+13]` and `o[j+14]` become the bin8 header of a 20-byte scramble. Nothing else changes. |
| AuthMessage.LayoutPositions | messages.go:20-54 | The output is 39 + l bytes. Bytes 0..3 are 0x82, 0xcc, 0x23, 0xa0 + l, and `o[3] % 32` is l. Then come the name, `cc 21 92 a9` followed by "chap-sha1", 0xc4, 20, and the scramble. |
| AuthMessage.ParseLayoutInverts | messages.go:20-54 | Reading the layout back recovers the user name and the scramble. |
| AuthMessage.LayoutInvertsParse | messages.go:20-54 | Every body that reads back is the layout of what it reads back to. |
| Auth.Header | auth.go:15-20 | The header is exactly `{0x00: 7, 0x01: 1}`. |
| Auth.Body | auth.go:22-27 | The body is exactly `{0x23: username, 0x21: ["chap-sha1", scramble]}`. |
| Auth.SaltPrefix | auth.go:38 | `salt[0:20]` succeeds if and only if the decoded salt has capacity 20. It is then the first twenty salt bytes whenever the salt is that long. |
| Auth.DecodedCapacity | auth.go:30 | The decoded salt's capacity is at least its length. |
| Auth.ScrambleHash | auth.go:29-52 | The hashing and the XOR loop give ScrambleSpec: a 20-byte `step1 XOR step3`, or the failure. |
| Auth.ScrambleUnmasks | auth.go:44-49 | XOR-ing the scramble with step3 gives SHA1(pass) back. |
| Auth.OnlySaltPrefixMatters | auth.go:38 | Two salts with the same first twenty bytes give the same scramble. |
| Auth.ScrambleFailures | auth.go:30-38 | A malformed base64 salt is an error if and only if the decoder fails. A decoded salt of 20 bytes or more always scrambles. The salt-too-short outcome occurs exactly when the decoded capacity is below 20. |
| Bytes.XorBytesCancels | auth.go:47-49 | `(a XOR b) XOR b == a`, byte by byte. |
| TransportRequest.LengthPrefix | transport/request.go:23-28 | The length prefix is five bytes. |
| TransportRequest.Write | transport/request.go:11-39 | An encoding failure returns an error before anything is written. Otherwise the writer gets exactly one frame, the prefix followed by the payload. The result is a writer error, a short write when `n != l + 5`, or nil. |
| TransportRequest.Copy | transport/request.go:21-28 | Each `copy` puts its source bytes at the given offset of `p` and leaves every other byte as it was. |
| TransportRequest.FrameLayout | transport/request.go:19-28 | For payloads under 4 GiB, the frame is l + 5 bytes: 0xce, then big-endian l, then the payload. |
| TransportRequest.UnframeFrame | transport/request.go:19-28 | For payloads under 4 GiB, taking a frame apart gives the payload back. |
| TransportRequest.FrameUnframe | transport/request.go:19-28 | Whatever is taken apart successfully is the frame of its payload. Its 4-byte length field keeps such a payload under 4 GiB. |
| TransportRequest.FramePassesPrefixChecks | transport/request.go:19-28 | Write's prefix passes the tag and length checks of parseResponse, so the parse outcome depends only on the payload. |
| TransportResponse.ReadChunks | transport/response.go:65-88 | The `for !done` loop returns what ReadSpec specifies. |
| TransportResponse.FirstStop | transport/response.go:69-86 | This is the position of the first read that does not fill the buffer without EOF. |
| TransportResponse.ReadSpecStopsAtFirstShortRead | transport/response.go:65-88 | `read` returns the in-order concatenation of the full reads and stops at the first read that is short or at EOF. A cancellation returns its error. A 0-byte read without EOF is an unexpected EOF. |
| TransportResponse.ErrorNumber | transport/response.go:46 | The error code is below 0x1000. |
| TransportResponse.ErrorBitIsMask | transport/response.go:44 | The error test is exactly `code & 0x8000 != 0`. |
| TransportResponse.Interpret | transport/response.go:32-62 | The field-by-field updates of `r` give Classify's result. |
| TransportResponse.Read | transport/response.go:20-63 | Read is the chunked read followed by the classification. |
| TransportResponse.ClassifyFields | transport/response.go:36-50 | A received response passed the length check and has the code key. IsError holds if and only if bit 15 of the code is set. ErrorCode is `code % 0x1000` when IsError holds, and 0 otherwise. SchemaID is `header[0x05]`, or 0 when that key is absent. |
| TransportResponse.ClassifyBody | transport/response.go:52-62 | An error response must have an int8-to-string body. Its Error is `body[0x31]` and its Body becomes an empty map. A non-error response keeps its body. |
| TransportResponse.ClassifyRefuses | transport/response.go:36-43 | A length other than `len(p) - 5` is an error, and so is a header without key 0x00. |
| TransportResponse.ErrorCodeExample | transport/response.go:44-47 | Code 0x8002 is an error response with ErrorCode 2. |
| Handshake.ConnOf | tarantool.go:84 | A failed dial leaves no connection in `conn`. |
| Handshake.ReadGreetingOutcomes | tarantool.go:91-103 | Any error on the first line fails. An error other than EOF on the second line fails. The salt is the second line less exactly its maximal run of trailing spaces and newlines. |
| Bytes.TrimRightSplits | tarantool.go:103 | TrimRight removes exactly the maximal suffix of cutset bytes. |
| Handshake.AuthRequestFor | connection.go:116 | The AUTH request has header `{0x00: 7, 0x01: 1}` and body `{0x23: user, 0x21: ["chap-sha1", scramble]}`. |
| Handshake.AuthRoundTrip | connection.go:110-124 | Scramble, Write and Read in sequence give RoundTripSpec. The frame written is that of the encoded AUTH request, and none is written when the scramble or the encoding fails. |
| Handshake.RoundTripAnswers | connection.go:110-124 | The server's answer is returned exactly when the salt scrambles, the request is written in full and the reply is read and classified. |
| Handshake.UndecodableSaltFails | connection.go:110-113 | A salt that is not base64 fails before any request is made. |
| Client.Rotate | tarantool.go:81 | A rotation keeps the number of addresses. |
| Client.RotatePermutes | tarantool.go:81 | A rotation keeps the multiset of addresses. |
| Client.RotateNSplits | tarantool.go:81 | i rotations give `cluster[i:] ++ cluster[:i]`. |
| Client.RoundRobin | tarantool.go:81 | Rotation i (counting from 0) puts address i first, so n rotations over n addresses use each address once, in order, and restore the list. |
| Client.Tarantool.New | tarantool.go:25-31 | A new client has no cluster, is not connected and has no connection. |
| Client.Tarantool.ConnectTo | tarantool.go:33-43 | The new fields and the error are ConnectToStep of the old fields. |
| Client.Tarantool.Close | tarantool.go:45-47 | Close is disconnect. |
| Client.Tarantool.Disconnect | tarantool.go:49-65 | The new fields and the error are DisconnectStep of the old fields. |
| Client.Tarantool.Connect | tarantool.go:67-112 | The new fields and the error are ConnectStep of the old fields. |
| Client.Tarantool.Auth | tarantool.go:114-134 | auth always returns an error. When the server answers, that error carries the response. |
| Client.ConnectOutcomes | tarantool.go:67-112 | Connecting while connected fails with "already connected" and changes nothing; an empty cluster fails the same way. Otherwise the cluster is rotated before dialling `cluster[0]`, so a failed dial still advances it. connect succeeds if and only if the dial and the greeting succeed and no user is set, and only then sets `connected`. |
| Client.ConnectWithUserNeverConnects | tarantool.go:102-109 | With a non-empty user, connect always fails and never sets `connected`. |
| Client.DisconnectOutcomes | tarantool.go:49-65 | When not connected, disconnect does nothing and returns nil. Otherwise it clears `connected`, fails only when the close fails (keeping `conn`), and clears `conn` on a successful close. |
| Client.ConnectToReplacesCluster | tarantool.go:33-43 | A disconnect error aborts before the cluster is replaced. Otherwise the argument replaces the cluster, rotated once by the connect. |
| Client.ConnectsRotate | tarantool.go:81-86 | With a user set, k connect attempts leave the cluster rotated k times and the client not connected. |
| Connection.WithDefaults | connection.go:31-34 | A timeout of 0 or less becomes 30 s, and a positive timeout is kept. |
| Connection.Session.constructor | connection.go:31-42 | A new session is not connected, has no `conn` and has an open `done`. |
| Connection.Session.Close | connection.go:44-63 | The new fields and the outcome are CloseStep of the old fields. Under the invariant, Close keeps it and never panics. |
| Connection.Session.Connect | connection.go:65-94 | The new fields and the error are ConnectStep (as written) of the old fields. |
| Connection.Session.ConnectRenewingDone | connection.go:60 | Like connect, but a new connection gets an open `done`. It keeps the invariant. |
| Connection.Session.Auth | connection.go:96-131 | auth changes nothing and returns AuthSpec. |
| Connection.Session.Request | connection.go:133-153 | request changes nothing. It answers only when waitConnected reads `connected` and the context is not already done; otherwise it fails with "couldn't wait connection" and writes nothing. Then it writes the encoded request's frame and returns Read's classification. |
| Connection.CloseOutcomes | connection.go:44-63 | When not connected, Close returns nil and changes nothing. Otherwise `connected` is always cleared. A close error keeps `conn` and leaves `done` unsignalled. A successful close clears `conn` and closes `done`, which panics exactly when `done` was already closed. |
| Connection.ConnectOutcomes | connection.go:65-94 | When connected, connect returns nil without dialling. Otherwise it connects if and only if the dial succeeds and, when a user is set, auth succeeds; with an empty user, auth is skipped. |
| Connection.AuthOutcomes | connection.go:96-131 | auth succeeds if and only if the greeting is read, the round trip is answered and the answer is not an error. An error answer is reported with its code and message. |
| Connection.RequestOutcomes | connection.go:142-152 | request is answered exactly when the session is connected, the context is not done, and the request is written and read. The answer is Read's classification. A session that is not connected always gets "couldn't wait connection". |
| Connection.RequestNeedsConnect | connection.go:133-137 | A new session, a closed one and one whose connect failed never get an answer. Their request fails in waitConnected (connection.go:155-171). |
| Connection.ReconnectAfterCloseAsWritten | connection.go:60 | Connect, Close, connect, Close, with every dial and close succeeding, panics on the second Close. |
| Connection.ConnectBreaksInvariant | connection.go:65-94 | The connect as written can produce a connected session whose `done` is closed. |
| Connection.DoneInvariantHolds | connection.go:44-94 | A new session satisfies the invariant, and Close and the renewing connect keep it. Under the invariant, Close never panics. |
| Connection.ReconnectAfterCloseCorrected | connection.go:60 | With the renewing connect the same run ends without a panic, and the renewing connect agrees with connect except for `done`. |

## Left out

- Sockets, `net.Dialer`, the `bufio` greeting reads, `conn.Close`, the writer, the reader
  and context cancellation are foreign I/O. Their answers are parameters (`Handshake.Env`,
  `TransportTypes.Exchange`, `closeOk`, `cancelled`).
- Mutexes and atomics are left out because they only matter for concurrency. Every
  operation is read as a sequential update.
- `waitConnected` (connection.go:155-171): its timer-and-sleep polling is left out. In a
  sequential run nothing changes `connected` while it polls, so `Connection.WaitConnected`
  reads `connected` once, together with whether the context was already done. A wait that
  Go would end by the timer fails like a cancelled one. The timeout is kept in the
  configuration, and the dialer that also uses it is a parameter.
- The `vmihailenco/msgpack` encoder and decoder are a foreign library. Their results are
  parameters: the encoded payload, and the decoded `(l, header, body)`. That the encoder
  also appends an encoded nil is library behaviour and is not modelled.
- SHA-1 and base64 are uninterpreted functions (`Auth.Crypto`). SHA-1 always returns 20 bytes.
- Auth.DecodedCapacity: the capacity of the decoded salt is taken to be `len(hash) / 4 * 3`
  (base64's `DecodedLen`), or the salt length if that is larger.
- Auth.ScrambleHash: the checks on `h.Write` (auth.go:38-43) are not modelled, because
  SHA-1's writes never fail.
- A scramble whose salt is too short (auth.go:38) panics in Go. The model returns it as
  the `SaltTooShort` outcome instead.
- TransportRequest.Write: `EncodeUint32` is assumed to write the 5-byte `0xce` form.
  Its error branch ("couldn't encode length", transport/request.go:24-27) is not modelled,
  since writes to a bytes.Buffer do not fail.
- ResponseDraft.ParseResponse: Go ranges over the header in random order. On a non-byte
  key it returns the partly filled header with the error; the model returns only the error.
- TransportResponse.Read and Connection.Session.Request: on an error, Go also returns the
  partly filled Response. The model returns only the error.
- TransportResponse.Read: a reader that has not finished within the answers given is
  reported as `NoReply`. In Go the loop goes on waiting.
- Msgpack.TokenEncodeFixmap: the map round trip covers fixmaps of uint8 keys and values,
  and TokenEncodeNum covers single integers. Nested maps and mixed-kind keys are left out
  because of proof cost.
- Go `fmt.Printf` debug output (msgpack/unmarshal.go:46, response.go:15) is left out. Only
  the capacity that `bb[:4]` needs is kept.
- TransportResponse.ErrorNumber: the error number is computed as `code % 0x1000`. No lemma
  says this equals Go's `code & 0x0fff`, because the solver does not finish relating bit
  masks to integer arithmetic. The same holds for `Msgpack.LowNibble` (`b % 16` for
  `0xf & b`) and for AuthMessage's header bytes (`0xa0 + l` for `0xa0 | byte(l)`, with
  l <= 31, and `o[3] % 32` for `o[3] & 0x1f`). Only the error bit has such a lemma
  (`ErrorBitIsMask`).
- TransportTypes.ReadEvent: a chunk is not bounded by the 1024-byte buffer. A longer chunk
  is read like a full one, although no io.Reader returns one.
- Error message strings are left out. Each `fmt.Errorf` is an error kind.
- Go panics (slice out of range, unhashable map key, close of a closed channel) are not
  crashes here. Each is an explicit outcome.
- The drafts are not reconciled. auth.go and messages.go both declare `auth`, and
  response.go and transport/response.go both parse replies. Each is modelled on its own.
- examples/connect/main.go (flags, logging, signals) is command-line plumbing and is not
  part of this model.

## Findings

| source | as written | input that shows it | evidently intended | confidence | as-written member | corrected member |
|---|---|---|---|---|---|---|
| connection.go:60 | `Close` closes `done`, but `connect` (connection.go:65-94) never makes a new channel | A session with no user: connect (dial succeeds), Close (close succeeds), connect (dial succeeds), Close (close succeeds). The second Close closes the closed channel and panics. | Each new connection gets an open `done`, so every successful Close closes an open channel | high; not executed | Connection.ReconnectAfterCloseAsWritten | Connection.Session.ConnectRenewingDone |
