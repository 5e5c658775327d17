# WhatsApp HTTP gateway core, modelled in Dafny

The repository holds small Go programs that put an HTTP front on a WhatsApp
session kept by the `whatsmeow` library. Two variants contain the gateway
logic modelled here:

- **wa-b** forwards every incoming message to all connected WebSocket
  subscribers (`/wss`). It keeps the subscriber set `wsClients`.
- **wa-d** posts every non-empty incoming message to one webhook URL. The
  URL is set with `POST /webhook`.

Both variants serve `GET /login`, which reports the login status, and
`POST /send`, which sends a text message. The two handlers are the same,
line for line, in both files: wa-d/main.go:110-122 and 129-151 repeat
wa-b/main.go:132-143 and 151-173. Each is therefore defined once, in module
`Handlers`, and models both files. Each variant's `Server.Login` reads that
variant's own stored identity and start time.

Each variant's global state is one `Server` class. It holds the library's
stored identity (`cli.Store.ID`), `startTime`, and either the subscriber set
(`WaB.Server.clients`) or the webhook slot (`WaD.Server.webhookURL`). Each
section the source runs under `wsMutex` or `whMutex` is one atomic method.
The branch-only logic is pure functions:

- Module `Common`: events, times, identities and the `{from, message, time}`
  payload.
- Module `Handlers`: login status and the send decision chain, shared by both
  variants.
- Module `WaB`: the wa-b event filter, and the subscriber registry with its
  broadcast.
- Module `WaD`: the wa-d event filter, and the webhook slot with its push.
- Module `JsonText`: a JSON string-literal writer and reader (section 7 of
  RFC 8259). It is used to state what an error body carries.

Calls into code the model cannot see are inputs:

- JSON decoding of a request body is an `Option` value: `None` when decoding
  fails.
- `types.ParseJID` is a `string -> Option<Jid>` parameter.
- `cli.SendMessage` is a `SendCall -> Option<string>` parameter. It returns
  the error text, or `None` on success.
- `json.Marshal` is a `Payload -> Bytes` parameter.
- `conn.WriteMessage` is a `(Conn, Bytes) -> bool` parameter. It returns
  whether the write succeeded.
- `http.Post` is returned as a `Post` record (URL, content type, body). The
  model says nothing about what the server at the URL does with it.
- `time.Now()`, `Timestamp.Unix()` and `Sender.String()` are plain values.

Three facts about the code shape the model:

- A failed WebSocket write is ignored and does not remove the subscriber
  (wa-b/main.go:119).
- The webhook is one string slot, so the last write wins (wa-d/main.go:162).
- `/send` never checks for a session before calling `SendMessage`
  (wa-b/main.go:167).

## Model

| member | source | states |
|---|---|---|
| `Common.MessagePayload` | wa-b/main.go:84-88 | The payload built for a message has three members. |
| `Common.MessagePayloadInjective` | wa-d/main.go:83-87 | The payload keeps sender, text and Unix time: two messages that differ in any of them give different payloads. |
| `WaB.EventPayload` | wa-b/main.go:78-91 | An event is broadcast exactly when it is a message not sent by this account. Self-sent messages and non-message events give nothing. The payload has exactly the keys from, message and time, holding the sender, the conversation text (empty text included) and the Unix time. |
| `WaB.Server.constructor` | wa-b/main.go:30-32 | The process starts with no subscribers, the given stored identity and the start time. |
| `WaB.Server.Register` | wa-b/main.go:96-98 | The connection joins the subscriber set. Every other member stays. Registering a member again changes nothing. |
| `WaB.Server.Unregister` | wa-b/main.go:100-105 | Exactly that connection leaves the set. Removing an absent connection changes nothing, so a second removal is a no-op. |
| `WaB.Server.Broadcast` | wa-b/main.go:114-121 | It writes once to each subscriber present at the call, never twice to one, and the number of writes equals the number of subscribers. Every write carries the same bytes, marshalled once. A failed write is recorded and the loop goes on. The set is not changed. |
| `WaB.DistinctRecipientsCount` | wa-b/main.go:118-120 | Writes to pairwise different connections number as many as the connections written to. |
| `WaB.Server.OnEvent` | wa-b/main.go:79-90 | A dropped event writes nothing. Any other message event is broadcast to the current subscribers with its payload. |
| `WaB.Server.Login` | wa-b/main.go:135-138 | The login report is computed from the server's stored identity and start time. |
| `Handlers.LoginHandler` | wa-b/main.go:132-143 | "waiting" is never returned. The status is logged_in exactly when an identity is stored, and then the report carries the identity's user and the start time but no QR file. Otherwise the status is waiting_qr with qr_file "qr.png" and no user. generated_at is the request time. |
| `Handlers.EncodeLoginRespAsWritten` | wa-b/main.go:124-130 | The report is encoded as the source's tags give it: status first and generated_at last. qr_file and logged_in_as appear exactly when non-empty, and login_time always appears, whatever its value. |
| `Handlers.EncodeLoginResp` | wa-b/main.go:143 | The intended encoding is the same, except that login_time appears exactly when it is not the zero time. |
| `Handlers.WaitingResponseCarriesZeroLoginTime` | wa-b/main.go:124-130 | As encoded, a waiting_qr report still carries login_time, set to the zero time. |
| `Handlers.LoginResponseMembers` | wa-b/main.go:124-143 | With the intended omitempty behaviour, a logged-out report has the members status, qr_file and generated_at. A logged-in one has status, logged_in_as, login_time and generated_at. |
| `Handlers.SendHandler` | wa-b/main.go:151-173 | A non-POST gets 405 "POST only" and the body is not read. Else an undecodable body gets 400 "bad json". Else an unparsable recipient gets 400 "invalid JID". SendMessage is called exactly when all three checks pass, with the parsed recipient and the requested text. A send error gives 500 with the error text. Success gives `{"status":"sent"}`. No 400 or 405 reply follows a send. |
| `Handlers.SendErrorBodyAsWritten` | wa-b/main.go:169 | The 500 body the source writes, by concatenation: it reads back as its error text whenever that text needs no escaping. |
| `Handlers.ErrorBody` | wa-b/main.go:169 | The error body of a reply reads back, as JSON, to exactly its error text, whatever characters the text holds. |
| `Handlers.SendErrorBodyAsWrittenBreaks` | wa-b/main.go:169 | The body built by plain concatenation, for the error text `a"b`, does not read back as an error object. |
| `Handlers.ErrorBodyOfPlainText` | wa-b/main.go:169 | For a text with no quote, backslash or control character, the escaped body equals the concatenated one. |
| `Handlers.FixedErrorBody` | wa-b/main.go:154-164 | The escaped bodies of "POST only", "bad json" and "invalid JID" are exactly the literals the handlers write. |
| `Handlers.SendHandlerErrorBodies` | wa-b/main.go:151-173 | The 405 and 400 replies of /send escape to byte for byte the source's literals. The 500 body the source writes reads back as the error text when that text needs no escaping. With escaping, every error reply reads back as its text. |
| `WaD.EventPayload` | wa-d/main.go:73-90 | An event is pushed exactly when it is a message not sent by this account and its conversation text is not empty (an unset text counts as empty). The payload has exactly the keys from, message and time, holding sender, text and Unix time. |
| `WaD.EventPayloadRefinesWaB` | wa-d/main.go:79-82 | The webhook filter equals the WebSocket filter, except that it also drops empty-text messages. |
| `WaD.Server.constructor` | wa-d/main.go:26-31 | The process starts with an empty webhook URL. |
| `WaD.Server.WebhookHandler` | wa-d/main.go:153-165 | A non-POST gets 405 and leaves the URL as it was. A POST replaces the single stored URL with the decoded string, so the last write wins. An undecodable body stores "", which clears the webhook. The reply echoes the stored URL under the key "webhook". |
| `WaD.Server.PushWebhook` | wa-d/main.go:92-100 | With no URL stored, nothing is posted. Otherwise there is exactly one POST, made to the URL stored at that moment, with content type application/json and the marshalled payload as body. The URL is not changed. |
| `WaD.Server.OnEvent` | wa-d/main.go:83-88 | A dropped event posts nothing. A forwarded message is posted once, with its payload, exactly when a URL is stored. |
| `WaD.Server.Login` | wa-d/main.go:110-122 | The login report is the same identity-to-status mapping as wa-b, read from this server's identity and start time. |

## Left out

- `main` in every file: opening the session store, building the client,
  registering the HTTP routes, the listener, and waiting for SIGINT/SIGTERM.
  This is process start-up.
- `connectWhatsApp` (wa-b/main.go:59-75, wa-d/main.go:55-71): it consumes the
  QR channel and renders `qr.png`. This is library and file I/O. The stored
  identity is therefore a constructor input, and no modelled method changes
  it: only the library sets it.
- The WebSocket upgrade and the `NextReader` keep-alive loop in `wssHandler`
  (wa-b/main.go:95, 107-111) are network I/O. Only the register and
  unregister effects are modelled. The model also assumes the upgrade
  succeeds: the source ignores the upgrade error and would then register a
  nil connection.
- The mutexes and the `go pushWebhook` goroutine: each locked section is one
  atomic method. The echo in `webhookHandler` reads `webhookURL` after the
  unlock (wa-d/main.go:164). In the model it echoes the value just stored.
  A concurrent POST could make the source echo another value.
- Transport and encoding internals: `http.Post`, `conn.WriteMessage`,
  `cli.SendMessage`, `types.ParseJID` and JSON decoding are inputs. The
  status code of `http.Post` and the write errors are ignored, as in the
  source.
- `http.Error` framing: its trailing newline and its `text/plain` content
  type are not modelled. An error reply is its code and its error text. The
  source writes the 500 body as `Handlers.SendErrorBodyAsWritten`. That body
  breaks for texts that need escaping, as Findings below shows. The fixed
  405 and 400 bodies are `Handlers.ErrorBody` of their texts.
- Time values: time.Time values are opaque (`Zero` or an uninterpreted
  instant). Their RFC 3339 rendering is not modelled.
- `JsonText.ReadChars` does not read UTF-16 surrogate pairs in `\u` escapes.
  The writer never produces them.
- wa-cli/main.go, main.go and wa-d-upload - a/main.go are not part of this
  model.

## Findings

| source | as written | input that shows it | evidently intended | confidence | as-written member | corrected member |
|---|---|---|---|---|---|---|
| wa-b/main.go:128 (also wa-d/main.go:106) | `LoginTime time.Time` is tagged `omitempty`, but encoding/json never treats a struct value as empty, so `login_time` is always written | `GET /login` with no stored identity: the waiting_qr report carries `login_time` as the zero time (0001-01-01T00:00:00Z) | `login_time` left out until logged in, like `qr_file` and `logged_in_as` | high (encoding/json's documented omitempty rule), not executed | `Handlers.WaitingResponseCarriesZeroLoginTime` | `Handlers.LoginResponseMembers` |
| wa-b/main.go:169 (also wa-d/main.go:147) | the send error text is pasted between quotes without JSON escaping | a SendMessage error text `a"b` gives the body `{"error":"a"b"}`, which is not valid JSON | the error text written as a JSON string, so that the body is `{"error":<text>}` for any text | medium (depends on the library's error texts), not executed | `Handlers.SendErrorBodyAsWrittenBreaks` | `Handlers.ErrorBody` |
