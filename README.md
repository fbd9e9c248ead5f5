# Toribook bid fan-out, modelled in Dafny

This project models the real-time bidding path of the Toribook ride-booking
server. Drivers submit bids for a booking, and each bid is stored in a
per-booking list in the key-value store and published on the booking's
broker channel. Passengers watch a booking over a websocket: a connection
is registered under the booking's channel, and the first viewer of a
channel starts the one listener that turns published bids into broadcasts
to every registered connection. Connections whose write fails are closed
and dropped.

Around that path the model also covers:

- the bearer-token guard that protects the HTTP routes;
- the token payload's issue and expiry times;
- the pointer ↔ `sql.Null*` conversions.

Files and modules:

- `base.dfy`: `Wrappers` (Option, Result) and `Ints` (Go's `int32`, `int64`).
- `websocket_manager.dfy`: `WebSocketManager`, the connection registry. It is a class whose `clients` map the methods update. Ghost logs record every write and close, and every broadcast call.
- `redis.dfy`: `Redis`, the four store commands the pipeline uses. Each takes its outcome as a parameter.
- `bid.dfy`: `BidApi`:
  - the ledger (`AddBid`, `GetBids`) and `PublishBid`;
  - the key and channel names;
  - the `Server` class, with bid submission, the viewer handshake with its check-and-mark on the subscriber flags, and the listener loop.
- `middlewares.dfy`: `Middleware`, the guard chain of `authMiddleware`, with Go's `strings.Fields` and `strings.ToLower`.
- `payload.dfy`: `Token`, `NewPayload` and `Payload.Valid`.
- `nullable.dfy`: `Nullable`, the six conversions.

Things that come from outside the program are parameters:

- A websocket write either fails or not; `failing` is the set of connections whose write fails.
- A writing store command (`RPUSH`, `EXPIRE`, `PUBLISH`) takes a `Redis.Outcome`. It either answers normally (`Ok`) or reports an error (`Err`). An error also says whether the server carried the command out anyway, as when the reply is lost after the write. A read (`LRANGE`) takes a `fault: Option<string>`, because a failed read changes nothing.
- JSON encoding and decoding are the two functions of a `Codec`. The round-trip lemmas assume `Inverts(codec)`: decoding an encoded bid gives the bid back.
- Request binding (gin's `BindJSON`) is its own function `bind`. It is a streaming decoder, so it can accept a body that `json.Unmarshal` would refuse, such as one with trailing text.
- The token verifier is a function `string -> Result<Payload, string>`.
- The clock reading and the random token identifier are plain arguments.

## Model

| member | source | states |
|---|---|---|
| WebSocketManager.Manager.constructor | helpers/websocket_manager.go:15-19 | a new registry has no channel entries and empty logs |
| WebSocketManager.Manager.AddClient | helpers/websocket_manager.go:21-25 | the channel's list becomes the old list with `conn` appended (no duplicate check, so adding twice lists it twice); every other channel and both logs are unchanged |
| WebSocketManager.Manager.RemoveClient | helpers/websocket_manager.go:27-37 | when `conn` is listed, the channel's list becomes `RemoveFirst` of the old list; otherwise the whole registry is unchanged; the loop is proved against `RemoveFirst` |
| WebSocketManager.RemoveFirstAt | helpers/websocket_manager.go:31-34 | the search stopping at the first index holding `conn` splices out exactly that entry |
| WebSocketManager.RemoveFirstMultiset | helpers/websocket_manager.go:30-36 | removal takes away exactly one copy of `conn`; later duplicates and all other connections stay |
| WebSocketManager.RemoveFirstAbsent | helpers/websocket_manager.go:31-36 | removing an unlisted connection changes nothing |
| WebSocketManager.RemoveUndoesAdd | helpers/websocket_manager.go:21-37 | removing a freshly added, previously unlisted connection restores the old list |
| WebSocketManager.Manager.Broadcast | helpers/websocket_manager.go:39-58 | the channel's list becomes `Survivors` of the old list, even for a channel without an entry (then empty); no other channel changes; the trace grows by `BroadcastTrace` and the call log by this call |
| WebSocketManager.BroadcastWritesEach | helpers/websocket_manager.go:43-47 | the connections written to are exactly the old list, once each, in list order |
| WebSocketManager.BroadcastWritesData | helpers/websocket_manager.go:47 | every write of a broadcast carries the broadcast's data |
| WebSocketManager.BroadcastClosesFailed | helpers/websocket_manager.go:48-51 | the connections closed are exactly those whose write failed, in list order |
| WebSocketManager.BroadcastClosesMembers | helpers/websocket_manager.go:48-53 | a connection is closed iff it was listed and its write failed; a closed connection is not kept |
| WebSocketManager.BroadcastKeepsOrCloses | helpers/websocket_manager.go:46-57 | every listed entry is either kept or closed: closed count plus survivor count is the old length |
| WebSocketManager.SurvivorsMembers | helpers/websocket_manager.go:48-53 | a connection survives iff it was listed and its write succeeded |
| WebSocketManager.SurvivorsAppend | helpers/websocket_manager.go:44-54 | filtering distributes over concatenation, so survivors keep their relative order |
| WebSocketManager.SurvivorsAll | helpers/websocket_manager.go:44-57 | the list stays as it was iff no listed write failed |
| WebSocketManager.SurvivorsTwice | helpers/websocket_manager.go:44-57 | two broadcasts in a row keep what one broadcast with both failure sets keeps |
| WebSocketManager.DroppedMembers | helpers/websocket_manager.go:48-51 | a connection is dropped iff it was listed and its write failed |
| WebSocketManager.SurvivorsAndDropped | helpers/websocket_manager.go:46-54 | each entry is kept or dropped, never both |
| WebSocketManager.WriteStepEvents | helpers/websocket_manager.go:47-53 | one connection's step writes it once and closes it iff its write fails |
| WebSocketManager.WrittenAppend | helpers/websocket_manager.go:46-54 | the writes of a concatenated trace are the writes of each part, in order |
| WebSocketManager.ClosedAppend | helpers/websocket_manager.go:46-54 | the closes of a concatenated trace are the closes of each part, in order |
| BidApi.LedgerKey | api/bid.go:66 | the ledger key is the booking id behind the five-character prefix "bids:" |
| BidApi.ChannelName | api/bid.go:96 | the channel name is the booking id behind the thirteen-character prefix "bids_channel:" |
| BidApi.KeyNamesDistinct | api/bid.go:66-96 | different bookings never share a ledger key or a channel, and no ledger key is a channel name |
| BidApi.AddBid | api/bid.go:65-77 | the result is the push's error. The encoded bid is appended at `"bids:"+id` iff the push took effect, which includes a push that reported an error after running. A 900-second TTL is requested only when the push reported success, and the TTL request's own error is ignored. Nothing is published |
| BidApi.GetBids | api/bid.go:79-93 | a read error is returned with no bids; otherwise the result is `DecodeAll` of the stored list; the loop is proved against `DecodeAll` |
| BidApi.DecodeAllAppend | api/bid.go:86-91 | reading a concatenation reads each part in order |
| BidApi.DecodeAllSkipsMalformed | api/bid.go:88-90 | an entry that does not decode contributes nothing |
| BidApi.DecodeAllKeepsWellFormed | api/bid.go:88-90 | an entry that decodes contributes its bid once, at its own position |
| BidApi.DecodeAllMembers | api/bid.go:86-91 | a bid is read back iff some stored entry decodes to it |
| BidApi.DecodeAllOfEncoded | api/bid.go:65-92 | a ledger written only through the codec reads back exactly the bids written, in order |
| BidApi.AppendThenRead | api/bid.go:65-92 | after a successful append, a read gives the earlier bids followed by the new one |
| BidApi.PublishBid | api/bid.go:95-102 | the encoded bid is published on `"bids_channel:"+id` iff the publish took effect; its reported error is returned; the lists and TTLs are unchanged |
| BidApi.CheckAndMark | api/bid.go:144-149 | the listener starts iff the channel was not yet marked; afterwards the channel is marked and no other flag moves |
| BidApi.StartsAtMostOnce | api/bid.go:144-149 | over any sequence of viewer connections, each channel's listener starts at most once; it starts iff the channel was not marked beforehand; marks are never cleared |
| BidApi.Server.constructor | api/server.go:16-35 | a new server has no subscriber flags, no started listeners and an empty registry |
| BidApi.Server.BidSubmit | api/bid.go:34-47 | a body that `bind` rejects answers 400 and changes nothing. A push that reports an error answers 500 and publishes nothing, but the bid is in the ledger iff the push took effect anyway. Otherwise the bid is stored, the TTL is set iff the expire took effect, the bid is published iff the publish took effect, the publish error is discarded, and the answer is 200 "bid placed" |
| BidApi.Server.StartBidChannelListener | api/bid.go:159-163 | one listener start on the booking's channel is recorded |
| BidApi.Server.BidWebSocket | api/bid.go:114-149 | a missing or rejected token answers 401 before any upgrade, and a failed upgrade ends the request; all three leave every flag and the registry as they were; otherwise the connection is added to `"bids_channel:"+id` and the listener starts iff the channel was unmarked; `Valid` (once per channel, exactly the marked channels) is kept |
| BidApi.Server.CloseViewer | api/bid.go:138-141 | the viewer's first entry is removed from the channel and its connection is closed |
| BidApi.Server.OnMessage | api/bid.go:168-175 | a payload that does not decode changes nothing; a bid is broadcast once on the booking's channel |
| BidApi.Server.ListenerLoop | api/bid.go:160-176 | the call log grows by one broadcast per decodable payload, in arrival order, on `"bids_channel:"+id`; the registry becomes `ListenClients` and the trace grows by `ListenTrace` |
| BidApi.ListenAdvance | api/bid.go:168-175 | handling the next payload extends the listener's registry, trace and call log by exactly that payload |
| BidApi.ListenStep | api/bid.go:168-175 | one more payload: a bid is broadcast over the channel's current list, a malformed payload changes nothing |
| BidApi.CallsStep | api/bid.go:169-175 | one more payload adds one broadcast call iff it decodes |
| BidApi.ListenClientsConns | api/bid.go:160-176 | the listener touches only its own channel, and only once some payload has decoded |
| BidApi.ListenConnsSurvivors | api/bid.go:168-176 | after the listener ran, the channel keeps, in registration order, exactly the connections no broadcast failed on |
| BidApi.ListenConnsUntouched | api/bid.go:168-174 | before any payload decodes, the channel's list is untouched |
| Middleware.Fields | api/middlewares.go:30 | every field is a non-empty run of non-space characters |
| Middleware.TrimLeftSkips | api/middlewares.go:30 | any leading run of white space is exactly what is trimmed before the first field |
| Middleware.FieldsAfterTrim | api/middlewares.go:30 | the split depends only on the text past the leading white space |
| Middleware.FieldsSkipsSpace | api/middlewares.go:30 | a leading white-space character of any kind neither starts nor ends a field |
| Middleware.FieldsSkipsSpaces | api/middlewares.go:30 | any leading run of white space, of any characters and length, is skipped |
| Middleware.FieldsOfSpace | api/middlewares.go:30 | text made only of white space, including the empty text, has no fields |
| Middleware.FieldsOfWordThen | api/middlewares.go:30 | a maximal run of non-space characters is the first field, and the rest is split on its own; with `FieldsSkipsSpaces` and `FieldsOfSpace` this determines the split of every text |
| Middleware.FieldsOfSpaced | api/middlewares.go:30 | a word followed by any one white-space character is the first field |
| Middleware.FieldsOfWordSpaces | api/middlewares.go:30 | a word followed by any non-empty run of white space is the first field |
| Middleware.FieldsOfJoin | api/middlewares.go:30 | splitting space-joined words gives the words back |
| Middleware.FieldsOfSchemeToken | api/middlewares.go:30 | "scheme", a run of white space, "token" and a tail that is empty or starts with white space split into scheme, token and the tail's fields |
| Middleware.FieldsOfHeader | api/middlewares.go:30-31 | the same header with any leading white space splits into scheme, token and the tail's fields, and is not empty |
| Middleware.ToLower | api/middlewares.go:39 | lower-casing keeps the length and maps each character by `LowerChar` |
| Middleware.BearerSchemes | api/middlewares.go:39-40 | a scheme passes the scheme check iff it spells "bearer" in any mix of cases |
| Middleware.Guards | api/middlewares.go:30-60 | after the header check, either the next handler runs once and only the payload key is set, or nothing is stored and the request is aborted with 401 |
| Middleware.GuardsPass | api/middlewares.go:30-60 | past the header check, a request passes iff there are at least two fields, a bearer scheme and a second field the verifier accepts; the verified payload is then stored |
| Middleware.GuardsReject | api/middlewares.go:30-56 | past the header check, each remaining guard rejects with its own message |
| Middleware.AuthMiddleware | api/middlewares.go:19-62 | either the next handler runs once, the abort state is untouched and only the payload key is set, or the next handler does not run, nothing is stored and the request is aborted with 401 |
| Middleware.Passes | api/middlewares.go:21-60 | a request passes iff its header has at least two fields, a bearer scheme and a second field the verifier accepts; then the verified payload is stored under "authorization_payload" and the next handler runs once |
| Middleware.RejectionMessages | api/middlewares.go:21-56 | each guard rejects with its own message: no header, invalid header, unsupported type naming the lower-cased scheme, or the verifier's error |
| Middleware.BearerVerdict | api/middlewares.go:48-60 | once the header and scheme checks pass, the outcome is the verifier's verdict on the second field |
| Middleware.TokenIsSecondField | api/middlewares.go:48-50 | for any white space around and between the parts, the verifier sees exactly the token; further fields play no part |
| Token.NewPayload | token/payload.go:48-62 | fails iff identifier generation fails, propagating its error; otherwise it keeps the identifier and username, is issued now and expires `duration` later |
| Token.Valid | token/payload.go:69-75 | the expired error is returned iff the time is strictly after the expiry, and no error otherwise |
| Token.FreshPayloadLifetime | token/payload.go:48-75 | a fresh payload is valid up to and including `now + duration`, and expired after |
| Nullable.MakeNullString | utils/nullable.go:6-11 | valid iff a value is present, carrying it; nil gives the zero record |
| Nullable.MakeNullInt64 | utils/nullable.go:13-18 | valid iff a value is present, carrying it; nil gives the zero record |
| Nullable.MakeNullInt32 | utils/nullable.go:20-25 | valid iff a value is present, carrying it; nil gives the zero record |
| Nullable.NullInt64ToPtr | utils/nullable.go:29-34 | a value iff the record is valid, and then the carried one |
| Nullable.NullStringToPtr | utils/nullable.go:36-41 | a value iff the record is valid, and then the carried one |
| Nullable.NullInt32ToPtr | utils/nullable.go:43-48 | a value iff the record is valid, and then the carried one |
| Nullable.StringRoundTrip | utils/nullable.go:6-41 | pointer → record → pointer is the identity |
| Nullable.Int64RoundTrip | utils/nullable.go:13-34 | pointer → record → pointer is the identity |
| Nullable.Int32RoundTrip | utils/nullable.go:20-48 | pointer → record → pointer is the identity |
| Nullable.StringReverseRoundTrip | utils/nullable.go:6-41 | record → pointer → record is the identity iff the record is valid or zero; an invalid record comes back zeroed |
| Nullable.Int64ReverseRoundTrip | utils/nullable.go:13-34 | record → pointer → record is the identity iff the record is valid or zero; an invalid record comes back zeroed |
| Nullable.Int32ReverseRoundTrip | utils/nullable.go:20-48 | record → pointer → record is the identity iff the record is valid or zero; an invalid record comes back zeroed |
| Redis.Client.RPush | api/bid.go:71 | the reported error is the outcome's; the value is appended at the key's tail iff the push took effect, even when an error was reported |
| Redis.Client.Expire | api/bid.go:74 | the reported error is the outcome's; the TTL is recorded iff the command took effect and the key exists |
| Redis.Client.LRange | api/bid.go:81 | the whole list (empty for a missing key), or the error |
| Redis.Client.Publish | api/bid.go:101 | the reported error is the outcome's; the message is appended to the channel's log iff the publish took effect |

## Left out

- Concurrency. Goroutines, `sync.RWMutex` in the registry, and `redisLock` with the `go func` of the listener are not modelled. Each locked section is one atomic method, and the listener runs as a sequential loop over the payloads its subscription delivers.
- The store itself. TTL expiry is the store's behaviour, so the model only records the last TTL requested on a key. `Subscribe` and the subscription channel become the `payloads` sequence of `ListenerLoop`.
- Websocket I/O. The upgrade, the read pump and `WriteJSON` become parameters: `upgrade` is the new connection or a failure, and `failing` is the set of connections whose write fails. The viewer handshake is split into `BidWebSocket`, which runs up to the read pump, and `CloseViewer`, the deferred teardown when the pump ends.
- WebSocketManager.Manager.RemoveClient: Go's `append(conns[:i], conns[i+1:]...)` shifts the shared backing array in place. The model uses sequences, which have no aliasing, so that effect is not captured.
- JSON. Encoding and decoding are the two abstract functions of a `Codec`. A `Bid` holds only strings and integers, so the error path of `json.Marshal` in `AddBid` and `PublishBid` cannot be taken and is not modelled.
- Logging and reply bodies. The log lines for a failed websocket write (helpers/websocket_manager.go:49) and for a payload that does not decode (api/bid.go:172) are not modelled. A rejected viewer gets `Rejected(401, message)` in both cases, although a missing token is answered with `ctx.JSON` and an `{"error": ...}` body (api/bid.go:119). A token the verifier rejects is answered with `AbortWithStatusJSON` and a `finalResponse` body (api/bid.go:125-127). Only the status and the message are kept.
- The `getBids` HTTP handler and the handler wrappers `bidSubmitHandler`, `getBidsHandler` and `BidWebSocketHandler`. These are HTTP plumbing around `GetBids`, `bidSubmit` and `bidWebSocket`. The route table in `api/server.go` refers to `getBidListHandler`, a name that `api/bid.go` does not define.
- Go's `int`. `BidAmount` and `DriverRating` are Go `int` fields, modelled as 64-bit integers (`int64`).
- The token maker, the PASETO and JWT makers, and the `jwt.Claims` getters of `Payload`, which only panic. Token verification is the `verify` parameter.
- Token.NewPayload: the source reads the clock twice, once for the issue time and once for the expiry. The model uses one reading `now`, so it states `expireAt - issuedAt == duration` exactly. The source guarantees only that the expiry is at least the issue time plus `duration`.
- Time arithmetic. Go's `time.Time` and the monotonic clock become integer nanoseconds, and the int64 overflow of `now + duration` is not modelled.
- Middleware.ToLower: only the ASCII letters A-Z are lower-cased. Go's `strings.ToLower` also maps non-ASCII letters. None of those maps to an ASCII letter of "bearer", so the scheme check is the same. Only the text of the "unsupported authorization type" message can differ for non-ASCII schemes.
- The passenger, driver, car and trip handlers, the database store, configuration and `main`. These are CRUD and wiring outside the bid path; the float ratings there are floating point.
