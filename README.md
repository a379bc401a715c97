# cheshirecat-typescript-client, modelled in Dafny

This project models the core of the TypeScript client for the Cheshire Cat AI server and proves properties of that model:

- **WebSocket session** (`WsClients`). `WSClient` picks the credential for the query (a token wins over an API key) and creates one session, which it then caches. `WebSocketClient` is the session itself:
  - the ping/pong heartbeat;
  - the reconnect counter, capped at 5, with linear backoff;
  - the choice of error kind;
  - the dispatch of inbound frames;
  - the `send` guard and `close`.

  The socket is reduced to its `readyState`. Each timer is a field that says whether it is armed. Everything observable goes into an append-only log: emitted events, frames sent, socket closes, connections and scheduled reconnects. The socket may also change its ready state on its own, before the event that reports it, and only forward (`TransportMovedSpec`). `Step` and `Run` drive a session through any sequence of socket events, such state changes, timer firings and caller calls.
- **URI builder** (`Uris`). The fluent `Uri` builder and `toString`.
- **HTTP client** (`HttpClients`):
  - the credential guard of `getClient`;
  - `setToken`;
  - the two request interceptors that write the `Authorization`, `X-Agent-ID`, `X-User-ID` and `X-Chat-ID` headers.
- **Endpoint helpers** (`Endpoints`). `formatUrl`, with its slash-collapsing. The rule shared by `get`/`post`/`put`/`delete`: which options are attached, the status check, and deserialization of the body.
- **Case conversion** (`Helpers`). `camelToSnakeCase`, `snakeToCamelCase`, `camelCaseKey` and `convertTags`. The regular-expression passes are written out as recursive scans.
- **Serializer** (`Serializers`):
  - `normalize`, which renames keys recursively on the way out;
  - `denormalize`, which renames only the top-level keys on the way in;
  - `serialize` and `deserialize` around them.
- **DTO serialization** (`BaseDtos`, `Dtos`, `Plugins`, `Factories`, `NestedPlugins`):
  - `BaseDTO.toJSON`, with the per-class rename maps filled by `@SerializedName`;
  - the `toArray` methods of the message, agent-output, memory, why and plugin models;
  - the `convertScheme` normalisers that turn an empty scheme into null.
- **Fluent builders** (`MemoryBuilders`, `WhyBuilders`, `SettingInputBuilders`).

JavaScript values are the datatype `Js.Value`:
- a plain object is an ordered list of entries;
- assignment (`Js.Put`) keeps an existing key in place and appends a new one;
- the object spread `{...a, ...b}` is `Js.Spread`;
- a DTO instance keeps its class name, so `toJSON` can find its rename map.

The following are function parameters, not modelled:
- `JSON.parse` (`string -> Option<Value>`; `None` means it throws) and `JSON.stringify`;
- the `URLSearchParams` encoder;
- the serializer's name converter;
- the axios transport, which returns a response or fails.

Where the code and the documented behaviour of the client differ, the model follows the code:
- A frame that is not valid JSON, or that parses to a primitive, makes `onmessage` throw out of the handler (`Throws`). No `error` event is emitted for it.
- A ping frame is answered through the current socket whatever its state. While a reconnect's new socket is still connecting, that `send` throws out of the handler. Once the socket is closing or closed, the pong is silently dropped (`PingWhileNotOpenScenario`).
- A status outside 2xx never reaches the status check of `get`/`post`/`put`/`delete`, because axios rejects it first. Only a 2xx other than 200 fails with "Failed to …" (`OutcomeSpec`).
- `close()` sets no flag. The close event that follows still goes through `handleClose` and schedules a reconnect while attempts remain (`ExplicitCloseScenario`).
- Nothing emits `FailedRetry` when attempts run out. That kind appears only when a socket `error` event fires after the counter has reached 5 (`ErrorKindOf`).
- The heartbeat is set up only in the constructor. `handleClose` clears it, so a reconnected session is never pinged again (`HeartbeatNeverResumes`, `NoPingAfterReconnectScenario`).
- `handleConnectionLost` counts an attempt. The close it causes reaches `handleClose`, which counts another (`MissedPongScenario`).
- The backoff delay is `1000 × (counter after the increment)`, that is 1000, 2000, …, 5000 (`BackoffSchedule`).

## Model

| member | source | states |
|---|---|---|
| WsClients.Initial | src/clients/wsclient.ts:87-92 | A new session is connecting to its URL, has its ping interval set, no pong timeout, no reconnect pending and 0 attempts |
| WsClients.WebSocketClient.constructor | src/clients/wsclient.ts:87-92 | The constructor connects, arms the heartbeat and leaves the session in the initial state for its URL |
| WsClients.AfterSocketClose | src/clients/wsclient.ts:134 | `ws.close()` leaves a closed socket closed and starts closing any other |
| WsClients.ScheduleReconnectSpec | src/clients/wsclient.ts:136-142 | Below 5 attempts the counter goes up by one and a reconnect is scheduled at 1000 × the new count; at 5 nothing changes; the counter never passes 5 |
| WsClients.WebSocketClient.ScheduleReconnect | src/clients/wsclient.ts:212-218 | The reconnect step changes the session exactly as ScheduleReconnectSpec says |
| WsClients.ConnectionLostSpec | src/clients/wsclient.ts:133-143 | A lost connection closes the socket with code 1000 and the "no pong" reason, then runs the reconnect step |
| WsClients.WebSocketClient.HandleConnectionLost | src/clients/wsclient.ts:133-143 | The handler changes the session exactly as ConnectionLostSpec says |
| WsClients.OpenedSpec | src/clients/wsclient.ts:146-149 | An open event resets the counter to 0 and then emits `open` |
| WsClients.WebSocketClient.OnOpen | src/clients/wsclient.ts:146-149 | The handler changes the session exactly as OpenedSpec says |
| WsClients.CloseHandledSpec | src/clients/wsclient.ts:202-219 | `handleClose` clears both timers, emits `close` with the code and reason, then runs the reconnect step |
| WsClients.WebSocketClient.HandleClose | src/clients/wsclient.ts:202-219 | The handler changes the session exactly as CloseHandledSpec says |
| WsClients.ClosedSpec | src/clients/wsclient.ts:151-153 | A close event, whether from the current socket or from one a reconnect already replaced, goes through `handleClose`. Both timers end up cleared. The current socket ends CLOSED; a replaced one leaves the ready state as it was |
| WsClients.WebSocketClient.OnClose | src/clients/wsclient.ts:151-153 | The handler changes the session exactly as ClosedSpec says |
| WsClients.ErrorKindOf | src/clients/wsclient.ts:156-162 | FailedRetry iff attempts ≥ 5, whatever the socket state; otherwise SocketClosed iff the socket is CLOSED, else SocketError |
| WsClients.Description | src/clients/wsclient.ts:164 | The description is the event message when that is truthy, otherwise exactly "Unknown error" |
| WsClients.ErroredSpec | src/clients/wsclient.ts:155-166 | An error event emits exactly one `{name, description}` error of the chosen kind, with the socket's event passed along as the second argument, and changes nothing else |
| WsClients.WebSocketClient.OnError | src/clients/wsclient.ts:155-166 | The handler changes the session exactly as ErroredSpec says |
| WsClients.Classify | src/clients/wsclient.ts:168-192 | Classification of an inbound frame is total. Binary data is ignored. A parse failure or a primitive throws. `text == "ping"` is a ping; otherwise `text == "pong"` is a pong; otherwise a `type` other than "error" is a chat message; anything else is an error frame |
| WsClients.MessageHandledSpec | src/clients/wsclient.ts:168-193 | A ping is answered with exactly the pong frame on an OPEN socket. On a CLOSING or CLOSED socket it changes nothing, as `ws.send` then drops the frame; on a CONNECTING socket it throws. A ping emits nothing. A pong clears the pending timeout and emits only `pong`. A chat message emits `message`; an error frame emits `error`. Counter, socket and reconnects are untouched |
| WsClients.WebSocketClient.OnMessage | src/clients/wsclient.ts:168-193 | The handler reports a throw exactly on the throwing frames, a ping on a CONNECTING socket included, and otherwise changes the session as MessageHandledSpec says |
| WsClients.PingTickedSpec | src/clients/wsclient.ts:112-131 | On an open socket the interval sends a native ping, or a ping frame plus a new 5 s pong timeout; otherwise it does nothing |
| WsClients.WebSocketClient.PingTick | src/clients/wsclient.ts:112-131 | The interval callback changes the session exactly as PingTickedSpec says |
| WsClients.PongTimedOutSpec | src/clients/wsclient.ts:126-128 | A pong timeout that fires declares the connection lost, including one whose id a later ping overwrote |
| WsClients.WebSocketClient.PongTimeoutFires | src/clients/wsclient.ts:126-128 | The timeout callback changes the session exactly as PongTimedOutSpec says |
| WsClients.ReconnectFiredSpec | src/clients/wsclient.ts:214-217 | A scheduled reconnect connects a new socket to the same URL and removes that timer |
| WsClients.WebSocketClient.ReconnectFires | src/clients/wsclient.ts:214-217 | The reconnect callback changes the session exactly as ReconnectFiredSpec says |
| WsClients.SentSpec | src/clients/wsclient.ts:221-227 | `send` forwards the data unchanged iff the socket is OPEN; otherwise the session is unchanged (the call throws) |
| WsClients.WebSocketClient.Send | src/clients/wsclient.ts:221-227 | Returns whether it sent, which holds iff the socket was OPEN, and changes the session as SentSpec says |
| WsClients.CallerClosedSpec | src/clients/wsclient.ts:229-234 | `close` clears the ping interval, then closes the socket with the given code and reason. If the transport refuses them, no close frame goes out: a browser leaves the ready state alone and `ws` leaves it CLOSING. It touches neither the counter nor the pong timeout, and sets no flag |
| WsClients.WebSocketClient.Close | src/clients/wsclient.ts:229-234 | Returns whether the transport refused the code or reason (the call throws), and changes the session exactly as CallerClosedSpec says |
| WsClients.BrowserAcceptedWsAccepts | src/clients/wsclient.ts:233 | Any code and reason a browser socket accepts, the `ws` socket accepts too |
| WsClients.LostCloseAccepted | src/clients/wsclient.ts:134 | The close that `handleConnectionLost` makes, code 1000 with its 34-byte reason, is never refused, in any state and on either transport |
| WsClients.ReservedCodeCloseScenario | src/clients/wsclient.ts:229-234 | `close(1006)` on an open session is refused by both transports. The interval is still cleared and no close frame goes out. The socket stays OPEN in a browser and becomes CLOSING under `ws` |
| WsClients.NativePongedSpec | src/clients/wsclient.ts:195-199 | A native pong emits `pong` only when the transport has native `on` |
| WsClients.WebSocketClient.OnNativePong | src/clients/wsclient.ts:195-199 | The listener changes the session exactly as NativePongedSpec says |
| WsClients.TransportMovedSpec | src/clients/wsclient.ts:112-130 | A state change of the socket itself moves the ready state only forward and touches nothing else the session holds |
| WsClients.Step | src/clients/wsclient.ts:133-234 | Every input keeps the session valid: counter ≤ 5, every scheduled delay one of 1000…5000 |
| WsClients.StepExtendsLog | src/clients/wsclient.ts:133-234 | No input removes or rewrites an action already logged |
| WsClients.Run | src/clients/wsclient.ts:133-234 | After any sequence of inputs the counter is still ≤ 5 and the earlier log is a prefix of the new one |
| WsClients.HeartbeatNeverResumes | src/clients/wsclient.ts:90 | Once the ping interval is cleared, no sequence of inputs arms it again, and later interval ticks do nothing |
| WsClients.Delays | src/clients/wsclient.ts:217 | The backoff delays are 1000, 2000, …, 1000·k |
| WsClients.BackoffSchedule | src/clients/wsclient.ts:212-218 | Linear backoff: after n closes the counter is min(a + n, 5) and the scheduled delays are 1000, …, 1000·min(a + n, 5) |
| WsClients.BackoffStep | src/clients/wsclient.ts:212-218 | One close adds one attempt and its delay, up to the limit of 5 |
| WsClients.MissedPongScenario | src/clients/wsclient.ts:133-143 | A missed pong counts attempt 1 (1000 ms); the close it causes counts attempt 2 (2000 ms); the next open resets the counter to 0 |
| WsClients.ExplicitCloseScenario | src/clients/wsclient.ts:229-234 | After a caller's `close()`, the close event still schedules a reconnect, and that reconnect opens a new socket |
| WsClients.NoPingAfterReconnectScenario | src/clients/wsclient.ts:90 | After a close and a reconnect, an interval tick on the new open socket logs nothing |
| WsClients.RefusedConnectionScenario | src/clients/wsclient.ts:155-165 | A refused connection, marked CLOSED before `error` fires, emits one SocketClosed error and nothing else |
| WsClients.ServerClosingScenario | src/clients/wsclient.ts:122-124 | Once a server-started close makes the socket CLOSING, an interval tick sends no ping, before `close` arrives |
| WsClients.PingWhileNotOpenScenario | src/clients/wsclient.ts:174-176 | After a missed pong, a ping frame arriving while the replacement socket connects throws, and once the caller has closed the session a ping frame changes nothing |
| WsClients.WsQuery | src/clients/wsclient.ts:45-55 | The query holds exactly one credential: `token` when a token is set, otherwise `apikey` (even when that is unset). It holds `user_id` iff the user id is truthy, has one or two entries accordingly, and no key twice |
| WsClients.BuildWsQuery | src/clients/wsclient.ts:45-55 | Filling the query one assignment at a time gives WsQuery |
| WsClients.WsQueryMerged | src/clients/wsclient.ts:61 | Merging the query into the empty query of a fresh URI gives the query unchanged |
| WsClients.WSClient.constructor | src/clients/wsclient.ts:14-25 | Stores host, port, API key and scheme flag; no token, no session yet |
| WsClients.WSClient.SetToken | src/clients/wsclient.ts:27-30 | Stores the token, changes nothing else and returns the same client |
| WsClients.WSClient.GetWsUri | src/clients/wsclient.ts:44-63 | A fresh URI: scheme `wss` iff secure, the host and port, path `ws/` then the agent id (or nothing), and the query WsQuery describes |
| WsClients.WSClient.WsUrl | src/clients/wsclient.ts:57-67 | The rendered session URL is the scheme, "://", the host, the port suffix, then always "/ws/" followed by the agent id as given (or nothing), then the encoded query |
| WsClients.WSClient.GetClient | src/clients/wsclient.ts:32-42 | Fails iff neither an API key nor a token is set. Otherwise it creates a session for these identifiers the first time and returns that same session on every later call, whatever the identifiers |
| WsClients.WSClient.NewSession | src/clients/wsclient.ts:65-67 | A fresh session connected to the rendered URI of `getWsUri`, in its initial state |
| Uris.Uri.constructor | src/clients/uri.ts:13-17 | Defaults: scheme "http", empty host and path, null port, empty query |
| Uris.Uri.WithHost | src/clients/uri.ts:19-22 | Sets only the host and returns the same object |
| Uris.Uri.WithPort | src/clients/uri.ts:24-27 | Sets only the port (null and undefined included) and returns the same object |
| Uris.Uri.WithScheme | src/clients/uri.ts:29-32 | Sets only the scheme and returns the same object |
| Uris.Uri.WithPath | src/clients/uri.ts:34-37 | Sets only the path and returns the same object |
| Uris.Uri.WithQueryItems | src/clients/uri.ts:39-42 | The query becomes the spread of the old query and the items, nothing else changes, and the same object is returned |
| Uris.MergedQueryRead | src/clients/uri.ts:40 | After merging, earlier keys are still present and a given key reads as the last value given for it |
| Uris.Uri.ToString | src/clients/uri.ts:44-57 | The URL is scheme, "://", host, then the port, path and query parts |
| Uris.PortPart | src/clients/uri.ts:46-48 | `:port` appears iff the port is truthy, so 0, null and undefined add nothing |
| Uris.PathPart | src/clients/uri.ts:49-51 | A non-empty path is added after exactly one "/" with its own leading slashes removed; an empty path adds nothing |
| Uris.StripLeadingSlashes | src/clients/uri.ts:50 | The result is the input without its leading run of slashes, and does not start with "/" |
| Uris.QueryPart | src/clients/uri.ts:52-55 | `?query` appears iff the encoded query string is non-empty |
| HttpClients.HttpClient.constructor | src/clients/httpclient.ts:14-34 | Stores the API key, no token, no agent, user or chat; the base URI has the host, the port and scheme https iff secure |
| HttpClients.HttpClient.SetToken | src/clients/httpclient.ts:51-54 | Stores the token, changes nothing else and returns the same client |
| HttpClients.HttpClient.GetClient | src/clients/httpclient.ts:56-66 | Fails with "You must provide an apikey or a token" iff neither is set. Otherwise it overwrites agent, user and chat with its arguments, null included |
| HttpClients.RequestConfig.constructor | src/clients/httpclient.ts:72 | A request configuration with or without headers |
| HttpClients.HttpClient.BeforeSecureRequest | src/clients/httpclient.ts:72-91 | Creates the headers when absent, then applies the apikey interceptor's header writes (SecureHeaders) |
| HttpClients.SetIfTruthy | src/clients/httpclient.ts:80-82 | A conditional `headers.set` changes only its own header, and only when the value is truthy; every header then reads as that rule says |
| HttpClients.SecureHeaders | src/clients/httpclient.ts:77-88 | Each header after the apikey interceptor reads as its conditional write (Authorization from the API key, then X-Agent-ID, X-User-ID, X-Chat-ID), or as before when the value is not truthy |
| HttpClients.SecureHeadersSpec | src/clients/httpclient.ts:77-88 | Authorization is "Bearer <apikey>" iff the API key is set. X-Agent-ID, X-User-ID and X-Chat-ID are set iff their field is truthy. Every other header keeps its value |
| HttpClients.HttpClient.BeforeJwtRequest | src/clients/httpclient.ts:93-109 | Creates the headers when absent, then applies the token interceptor's header writes (JwtHeaders) |
| HttpClients.JwtHeaders | src/clients/httpclient.ts:98-106 | Each header after the token interceptor reads as its conditional write (Authorization from the token, then X-Agent-ID, X-Chat-ID), or as before when the value is not truthy |
| HttpClients.JwtHeadersSpec | src/clients/httpclient.ts:98-106 | Authorization is "Bearer <token>" iff a token is set. X-Agent-ID and X-Chat-ID are set when truthy. X-User-ID and every other header are never touched |
| HttpClients.Intercepted | src/clients/httpclient.ts:43-46 | After both interceptors, in either order, X-Agent-ID, X-User-ID and X-Chat-ID are as the fields make them. Authorization carries the only credential set, the later interceptor's when both are set, and is untouched when neither is |
| HttpClients.InterceptedOrderIndependent | src/clients/httpclient.ts:43-46 | Whichever order the two interceptors run in, agent, user and chat headers agree. With only one credential set, Authorization carries it |
| Endpoints.CollapseSlashes | src/endpoints/abstract.ts:15 | Collapsing keeps a leading "/" and leaves no "//" |
| Endpoints.CollapseIsDrop | src/endpoints/abstract.ts:15 | Collapsing runs of "/" equals the one-character-at-a-time reference that drops each slash followed by a slash |
| Endpoints.CollapseSlashesSpec | src/endpoints/abstract.ts:15 | Collapsing is idempotent, keeps every other character in order, and changes nothing in a string without "//" |
| Endpoints.FormatUrl | src/endpoints/abstract.ts:14-16 | `formatUrl` begins with "/" and never contains "//" |
| Endpoints.FormatUrlShape | src/endpoints/abstract.ts:14-16 | `formatUrl` keeps the non-slash characters of the prefix then of the endpoint, and adds none |
| Endpoints.RequestOptionsSpec | src/endpoints/abstract.ts:31-34 | The argument is attached iff it is truthy, under `query` for `get` and under `json` for the others, and no other option is set |
| Endpoints.RequestOptions | src/endpoints/abstract.ts:31-34 | At most one option; there is one iff the argument is truthy, and it is the argument under the verb's option name |
| Endpoints.OutcomeSpec | src/endpoints/abstract.ts:36-40 | A transport failure is passed on. A status outside 2xx fails with the HTTP library's rejection message before the handler sees it. A 2xx other than 200 fails with the verb's message. A 200 succeeds iff the body deserializes, and then returns the denormalized object |
| Endpoints.Outcome | src/endpoints/abstract.ts:36-40 | A request succeeds only on a response with status 200, and then yields an object |
| Endpoints.FailureMessage | src/endpoints/abstract.ts:38 | The verb's message begins "Failed to " and ends with ": " and the status text |
| Endpoints.AbstractEndpoint.constructor | src/endpoints/abstract.ts:8 | The system agent id is "system" |
| Endpoints.AbstractEndpoint.Request | src/endpoints/abstract.ts:30-95 | `get`/`post`/`put`/`delete` call the transport once with the options, then return the outcome OutcomeSpec describes for what it produced, a rejection included |
| Helpers.LowerChar | src/helpers.ts:8 | Lowercasing a character leaves no uppercase ASCII letter and fixes every other character |
| Helpers.UpperChar | src/helpers.ts:15 | Uppercasing a lowercase letter gives an uppercase letter that lowercases back |
| Helpers.Lower | src/helpers.ts:8 | `toLowerCase` keeps the length and lowercases each character |
| Helpers.SplitLowerUpper | src/helpers.ts:4 | The first replace only lengthens its input and keeps the first character |
| Helpers.SplitLowerUpperBreaks | src/helpers.ts:4 | After the first replace no lowercase letter is directly followed by an uppercase one |
| Helpers.InsertedKeeps | src/helpers.ts:4-6 | Inserting underscores keeps every other character, in order |
| Helpers.SplitLowerUpperKeeps | src/helpers.ts:4 | The first replace only inserts "_" (`Inserted`): every other character stays, in order |
| Helpers.SplitUpperRun | src/helpers.ts:6 | The second replace only lengthens its input, and changes nothing of length ≤ 2 |
| Helpers.SplitUpperRunBreaks | src/helpers.ts:6 | After the second replace no two uppercase letters are followed by a lowercase one |
| Helpers.SplitUpperRunKeeps | src/helpers.ts:6 | The second replace only inserts "_" (`Inserted`): every other character stays, in order |
| Helpers.CamelToSnakeCase | src/helpers.ts:1-9 | `camelToSnakeCase("")` is "" and the output has no uppercase ASCII letter |
| Helpers.CamelToSnakeKeepsLetters | src/helpers.ts:4-8 | Apart from underscores, the output is the lowercased input |
| Helpers.CamelToSnakeIdempotent | src/helpers.ts:4-8 | `camelToSnakeCase` is idempotent |
| Helpers.UpperAfterUnderscore | src/helpers.ts:15 | The `_x` replacement never lengthens its input and keeps a leading non-underscore |
| Helpers.SnakeToCamelCase | src/helpers.ts:11-16 | `snakeToCamelCase("")` is "" |
| Helpers.SnakeCamelRoundTrip | src/helpers.ts:1-16 | On a snake_case identifier whose later words have at least two letters, `camelToSnakeCase(snakeToCamelCase(s)) == s` |
| Helpers.SplitWords | src/helpers.ts:20 | `split("_")` gives at least one word, none of them containing "_" |
| Helpers.SplitJoinWords | src/helpers.ts:20 | Joining the split words with "_" gives the key back |
| Helpers.Capitalize | src/helpers.ts:24 | A later word keeps its length: its first character is uppercased and every other one lowercased |
| Helpers.CamelCaseKey | src/helpers.ts:18-27 | `camelCaseKey` output has no "_", and a key without "_" is only lowercased ("accessToken" gives "accesstoken") |
| Helpers.UpperAfterUnderscoreByWords | src/helpers.ts:18-27 | On lowercase snake keys, the regex conversion of `snakeToCamelCase` and the word-wise conversion of `camelCaseKey` agree |
| Helpers.CamelCaseKeyRoundTrip | src/helpers.ts:18-27 | On snake identifiers, `camelCaseKey` equals `snakeToCamelCase`, and it undoes `camelToSnakeCase` on their camel form |
| Helpers.TagsJoined | src/helpers.ts:29-33 | An array `tags` becomes its ", "-joined string; a missing or non-array `tags` leaves the object as it is. Every other key reads as before and the key layout is unchanged |
| Helpers.TagsJoinedIdempotent | src/helpers.ts:29-33 | Converting twice is converting once |
| Helpers.Record.constructor | src/helpers.ts:29 | A mutable object holding the given entries |
| Helpers.Record.ConvertTags | src/helpers.ts:29-33 | `convertTags` rewrites the object in place as TagsJoined and returns nothing |
| Serializers.Serializer.constructor | src/serializer.ts:4-8 | The serializer keeps the configured name converter |
| Serializers.Serializer.Serialize | src/serializer.ts:10-13 | The JSON text of the normalized payload |
| Serializers.Serializer.Normalize | src/serializer.ts:20-35 | The recursive loop computes Normalized of its input |
| Serializers.Serializer.NormalizeObject | src/serializer.ts:25-31 | The `for…of` loop fills a fresh object with NormalizedEntries of the source object |
| Serializers.Serializer.NormalizeEntry | src/serializer.ts:28-29 | One iteration assigns the converted key to the normalized value |
| Serializers.Normalized | src/serializer.ts:20-35 | An array stays an array of the same length, a plain object or DTO becomes a plain object, and anything else comes back unchanged |
| Serializers.NormalizedEntries | src/serializer.ts:25-31 | After n source entries the object has at most n keys, since keys that convert alike collapse, and at least one when n > 0 |
| Serializers.NormalizedArray | src/serializer.ts:21-23 | Arrays keep their length and order, each item normalized |
| Serializers.NormalizedItems | src/serializer.ts:22 | The mapped prefix has the length of the prefix |
| Serializers.NormalizedScalar | src/serializer.ts:34 | Primitives, null and undefined come back unchanged |
| Serializers.NormalizedEntriesRead | src/serializer.ts:25-31 | A key of a normalized object reads as the normalized value of the last source entry whose key converts to it, recursively |
| Serializers.NormalizedAsSpread | src/serializer.ts:25-31 | The normalized object is the spread of the renamed entries into a fresh object |
| Serializers.NormalizedEntriesDistinct | src/serializer.ts:25-31 | A normalized object never has a key twice |
| Serializers.NormalizedIsNormal | src/serializer.ts:20-35 | With an idempotent converter, every key of the result is fixed by it and no DTO is left |
| Serializers.NormalizedEntriesAllNormal | src/serializer.ts:25-31 | With an idempotent converter, every entry the object loop has written so far is in normal form |
| Serializers.NormalizeFixesNormalForm | src/serializer.ts:20-35 | Normalizing a value already in normal form changes nothing |
| Serializers.NormalizeIdempotent | src/serializer.ts:20-35 | With an idempotent converter such as `camelToSnakeCase`, normalizing twice is normalizing once |
| Serializers.Serializer.Deserialize | src/serializer.ts:15-18 | `deserialize` parses a string, uses anything else as it is, and denormalizes the result |
| Serializers.Deserialized | src/serializer.ts:15-18 | A string that does not parse fails; a parsed or non-string input gives its denormalized form |
| Serializers.Serializer.Denormalize | src/serializer.ts:37-44 | The loop computes Denormalized of its input |
| Serializers.Denormalized | src/serializer.ts:37-44 | Fails iff the input is null or undefined (the TypeError of `Object.entries`); otherwise it is a plain object |
| Serializers.OwnEntries | src/serializer.ts:39 | `Object.entries` throws iff the value is null or undefined, and otherwise lists the own keys |
| Serializers.IndexedEntries | src/serializer.ts:39 | An array's or string's entries are keyed "0", "1", … and hold its items in order |
| Serializers.CamelRenamed | src/serializer.ts:40-41 | Only the top-level keys go through `camelCaseKey`; values are untouched and order is kept |
| Serializers.DenormalizedRead | src/serializer.ts:37-44 | A key reads as the value of the last entry whose key converts to it, and is present iff some key converts to it |
| Serializers.FlatRoundTrip | src/serializer.ts:20-44 | A flat object with camelCase keys that come from snake identifiers survives normalize with `camelToSnakeCase` followed by denormalize |
| BaseDtos.Registry.constructor | src/models/base.ts:2 | No class has a rename map yet |
| BaseDtos.Registry.SerializedName | src/decorators.ts:1-7 | Decorating a property registers its JSON name in its class's map |
| BaseDtos.Registered | src/decorators.ts:3-5 | The map is created when absent. Afterwards the key maps to the name, every other key of the class keeps its name, and no other class changes |
| BaseDtos.RegisteredOverwrites | src/decorators.ts:4-5 | Decorating the same property again replaces its name |
| BaseDtos.NameOf | src/models/base.ts:6-13 | The JSON name is the registered non-empty name, or the key itself when the class has no map, the key is unmapped or its name is empty |
| BaseDtos.Registry.ToJson | src/models/base.ts:4-27 | The loop assigns each own key, under its JSON name, its serialized value |
| BaseDtos.Registry.ToJsonValue | src/models/base.ts:15-22 | A nested DTO is serialized by its own `toJSON`, an array item by item, anything else copied |
| BaseDtos.Registry.MapItems | src/models/base.ts:17-20 | The `map` over an array computes JsonItems |
| BaseDtos.JsonValue | src/models/base.ts:15-22 | An array keeps its length, and a value that is neither an array nor a DTO is copied |
| BaseDtos.JsonItems | src/models/base.ts:17-20 | Arrays keep length: non-DTO items are copied and DTO items become objects |
| BaseDtos.JsonItemsAt | src/models/base.ts:17-20 | Item i of the result is item i serialized when it is a DTO, and item i itself otherwise |
| BaseDtos.JsonEntries | src/models/base.ts:11-24 | The loop emits at most one entry per own key, and at least one when there is a key |
| BaseDtos.JsonEntriesExact | src/models/base.ts:11-24 | With pairwise different JSON names, `toJSON` emits exactly one entry per own key, in order, named by the map and holding the serialized value |
| BaseDtos.ToJsonUnmapped | src/models/base.ts:6 | A class without a map keeps every key name, and each value is serialized |
| Dtos.AgentOutput.constructor | src/models/dtos.ts:5-14 | Defaults: output null, no steps, returnDirect and withLlmError false |
| Dtos.AgentOutput.ToArray | src/models/dtos.ts:16-18 | `toArray` is `toJSON` of the instance |
| Dtos.AgentOutputJson | src/models/dtos.ts:4-19 | Once its decorators ran, an AgentOutput serializes to output, intermediate_steps, return_direct and with_llm_error, in that order |
| Dtos.AgentOutputRenames | src/models/dtos.ts:7-14 | The three decorators give AgentOutput the map intermediateSteps→intermediate_steps, returnDirect→return_direct, withLlmError→with_llm_error |
| Dtos.AgentOutputSerialized | src/models/dtos.ts:4-19 | Under those JSON names the four properties serialize to exactly four entries in declaration order |
| Dtos.MessageArray | src/models/dtos.ts:54-64 | `text` is always present; `image` is present iff the image is truthy |
| Dtos.MessageBase.constructor | src/models/dtos.ts:48-52 | Stores the text and the image (defaults "" and null) |
| Dtos.MessageBase.ToArray | src/models/dtos.ts:54-64 | The method builds MessageArray |
| Dtos.Message.constructor | src/models/dtos.ts:68-76 | An undefined or empty image becomes null; the text and extra fields are stored |
| Dtos.Message.ToArray | src/models/dtos.ts:78-86 | Without extra fields it is the base serialization. Otherwise the extra fields are spread last, overriding `text` and `image`, and the base keys keep their place |
| Dtos.Memory.constructor | src/models/dtos.ts:21-24 | Three empty memory collections |
| Dtos.Memory.ToArray | src/models/dtos.ts:26-28 | `toArray` is `toJSON` of the instance |
| Dtos.Why.constructor | src/models/dtos.ts:103-112 | No input, no steps, no memory, no model interactions |
| Dtos.Why.ToArray | src/models/dtos.ts:114-121 | Exactly input, intermediate_steps, memory (through `memory.toArray`) and model_interactions; fails when there is no memory to read |
| Js.Coalesce | src/builders/memory.ts:14 | `a ?? b` is `a` unless `a` is null or undefined, and exactly `b` when it is; the list setters of the builders and the agent segment of the WebSocket path use it |
| Js.Truthy | src/clients/uri.ts:46 | null and undefined are falsy; every object and array is truthy, even an empty one |
| Js.Get | src/models/dtos.ts:59-60 | A property read is absent iff no entry has the key |
| Js.Put | src/serializer.ts:29 | Assignment keeps an existing key in place, changes only its value, and appends a new key |
| Js.PutGet | src/serializer.ts:29 | After `o[k] = v`, `k` reads `v` and every other key reads as before |
| Js.PutFresh | src/serializer.ts:29 | Assigning a key the object does not have appends it at the end |
| Js.Spread | src/clients/uri.ts:40 | `{...a, ...b}` keeps the keys of `a` in their places and adds at most one entry per entry of `b` |
| Js.LastGet | src/models/dtos.ts:82 | The last value given for a key is absent iff the key does not occur |
| Js.LastGetDistinct | src/models/dtos.ts:82 | Without repeated keys, the last value given for a key is the one a read finds |
| Js.SpreadFresh | src/models/dtos.ts:82 | Spreading distinct new keys appends them in order |
| Js.SpreadGet | src/models/dtos.ts:82 | In `{...a, ...b}` a key of `b` reads as its last value in `b`; any other key reads as in `a` |
| Js.SpreadKeysPrefix | src/models/dtos.ts:82 | In `{...a, ...b}` the keys of `a` keep their positions and new keys come after |
| Js.SpreadDistinct | src/clients/uri.ts:40 | Spreading into an object without repeated keys leaves none |
| Js.EmptyToNull | src/models/api/factories.ts:8-10 | A truthy value without own keys becomes null; everything else, null and undefined included, is kept |
| Js.EmptyToNullIdempotent | src/models/api/factories.ts:8-10 | Converting twice is converting once |
| Js.OwnKeys | src/models/api/factories.ts:8 | `Object.keys` is empty for booleans and numbers, has one key per character of a string and per item of an array, and lists the keys of an object in order |
| Js.IntToString | src/clients/uri.ts:47 | The decimal text of a number is never empty |
| Factories.FactoryObjectSettingOutput.constructor | src/models/api/factories.ts:1-4 | A setting with the given name, value and scheme |
| Factories.FactoryObjectSettingOutput.ConvertScheme | src/models/api/factories.ts:6-12 | An empty scheme becomes null and any other is kept; name and value are untouched and the same object is returned |
| Factories.FactoryObjectSettingsOutput.constructor | src/models/api/factories.ts:15-17 | Settings (possibly absent) and the selected configuration |
| Factories.FactoryObjectSettingsOutput.ConvertSchemes | src/models/api/factories.ts:19-24 | Every setting, in order and with the count kept, goes through `convertScheme`. Without settings nothing changes; selectedConfiguration is never altered |
| NestedPlugins.PluginSettingsOutput.constructor | src/models/api/nested/plugins.ts:7-10 | A plugin setting with the given name, value and scheme |
| NestedPlugins.PluginSettingsOutput.ConvertScheme | src/models/api/nested/plugins.ts:12-18 | An empty scheme becomes null, while a non-empty, null or undefined scheme is kept. Name and value are untouched, and the same object is returned |
| Plugins.NewFilterOutput | src/models/api/plugins.ts:4 | A fresh filter has a null query |
| Plugins.NewPluginCollectionOutput | src/models/api/plugins.ts:26-28 | A fresh collection: a fresh filter, nothing installed, an empty registry |
| Plugins.FilterToArraySpec | src/models/api/plugins.ts:6-10 | The filter serializes to exactly `{query}` |
| Plugins.FilterToArray | src/models/api/plugins.ts:6-10 | The filter serializes to an object whose only key is `query` |
| Plugins.HookToArraySpec | src/models/api/plugins.ts:17-22 | A hook serializes to exactly its name and priority |
| Plugins.HookToArray | src/models/api/plugins.ts:17-22 | A hook serializes to the keys `name` then `priority` |
| Plugins.ToolToArray | src/models/api/plugins.ts:107-115 | A tool serializes to an object whose only key is `name` |
| Plugins.HooksToArray | src/models/api/plugins.ts:65 | Hooks are mapped item by item, with length and order kept |
| Plugins.ToolsToArray | src/models/api/plugins.ts:66 | Tools are mapped item by item, with length and order kept |
| Plugins.InstalledToArray | src/models/api/plugins.ts:33 | Installed plugins are mapped item by item, with length and order kept |
| Plugins.RegistryToArray | src/models/api/plugins.ts:34 | Registry plugins are mapped item by item, with length and order kept |
| Plugins.PluginItemToArray | src/models/api/plugins.ts:53-68 | A plugin item serializes to exactly the twelve keys in order, with the snake_case author and URL names |
| Plugins.PluginItemDistinct | src/models/api/plugins.ts:54-67 | The plugin item literal has no key twice |
| Plugins.PluginItemRenamed | src/models/api/plugins.ts:58-60 | authorName, authorUrl and pluginUrl are read back as author_name, author_url and plugin_url |
| Plugins.PluginItemNoCamelCase | src/models/api/plugins.ts:54-67 | The camelCase names authorName, authorUrl and pluginUrl do not appear |
| Plugins.PluginItemCopied | src/models/api/plugins.ts:55-64 | The other scalar fields are read back unchanged under their own names |
| Plugins.PluginItemLists | src/models/api/plugins.ts:65-66 | hooks and tools are read back as the item-by-item serializations of the two lists |
| Plugins.PluginItemRegistryToArray | src/models/api/plugins.ts:83-96 | A registry item serializes to exactly its ten keys in order, url included |
| Plugins.PluginItemRegistryAbsent | src/models/api/plugins.ts:84-95 | A registry item has no active, hooks or tools key |
| Plugins.PluginItemRegistryDistinct | src/models/api/plugins.ts:84-95 | The registry item literal has no key twice |
| Plugins.PluginItemRegistryRead | src/models/api/plugins.ts:88-94 | A registry item reads back its url and its renamed author and URL fields |
| Plugins.PluginCollectionToArraySpec | src/models/api/plugins.ts:30-36 | The collection serializes its filter and both lists, keeping the length and order of each |
| Plugins.PluginCollectionToArray | src/models/api/plugins.ts:30-36 | The collection serializes to the keys `filters`, `installed` and `registry` |
| MemoryBuilders.MemoryBuilder.constructor | src/builders/memory.ts:5-11 | A fresh builder has three empty lists |
| MemoryBuilders.MemoryBuilder.SetEpisodic | src/builders/memory.ts:13-16 | Stores the list, or [] for null or undefined, changes no other field and returns the same builder |
| MemoryBuilders.MemoryBuilder.SetDeclarative | src/builders/memory.ts:18-21 | Stores the list, or [] for null or undefined, changes no other field and returns the same builder |
| MemoryBuilders.MemoryBuilder.SetProcedural | src/builders/memory.ts:23-26 | Stores the list, or [] for null or undefined, changes no other field and returns the same builder |
| MemoryBuilders.MemoryBuilder.Build | src/builders/memory.ts:28-34 | Returns the current episodic, declarative and procedural lists |
| MemoryBuilders.BuildAfterSetters | src/builders/memory.ts:13-34 | After a chain of setters, each list is the last one given (or [] for null), and an unset list is [] |
| MemoryBuilders.MemoryPointBuilder.constructor | src/builders/memory.ts:37-43 | A fresh builder has neither content nor metadata |
| MemoryBuilders.MemoryPointBuilder.SetContent | src/builders/memory.ts:45-48 | Stores the content, leaves the metadata and returns the same builder |
| MemoryBuilders.MemoryPointBuilder.SetMetadata | src/builders/memory.ts:50-53 | Stores the metadata, leaves the content and returns the same builder |
| MemoryBuilders.MemoryPointBuilder.Build | src/builders/memory.ts:55-60 | Returns the content and metadata last set |
| MemoryBuilders.BuildMemoryPoint | src/builders/memory.ts:45-60 | Setting the content twice keeps the last one, and metadata set in between survives |
| WhyBuilders.WhyBuilder.constructor | src/builders/why.ts:5-11 | A fresh builder has steps [], no input and no memory |
| WhyBuilders.WhyBuilder.SetInput | src/builders/why.ts:13-16 | Stores the input as given, undefined included, and nothing else |
| WhyBuilders.WhyBuilder.SetIntermediateSteps | src/builders/why.ts:18-21 | Stores the steps, or [] for null or undefined, and nothing else |
| WhyBuilders.WhyBuilder.SetMemory | src/builders/why.ts:23-26 | Stores the memory and nothing else |
| WhyBuilders.WhyBuilder.Build | src/builders/why.ts:28-34 | Returns exactly the current input, steps and memory |
| WhyBuilders.BuildAfterReset | src/builders/why.ts:13-34 | Resetting the input to undefined and the steps to undefined gives input undefined and steps [] |
| SettingInputBuilders.SettingInputBuilder.constructor | src/builders/settingsInput.ts:5-11 | A fresh builder has no name, value or category |
| SettingInputBuilders.SettingInputBuilder.SetName | src/builders/settingsInput.ts:13-16 | Stores the name, changes no other field and returns the same builder |
| SettingInputBuilders.SettingInputBuilder.SetValue | src/builders/settingsInput.ts:18-21 | Stores the value, changes no other field and returns the same builder |
| SettingInputBuilders.SettingInputBuilder.SetCategory | src/builders/settingsInput.ts:23-26 | Stores the category, changes no other field and returns the same builder |
| SettingInputBuilders.SettingInputBuilder.Build | src/builders/settingsInput.ts:28-34 | Returns the name, value and category last set |
| SettingInputBuilders.BuildWithoutCategory | src/builders/settingsInput.ts:7 | Without `setCategory` the category stays undefined; name and value are the ones last set |

## Left out

- `WsClients.ErroredSpec` / `WsClients.WebSocketClient.OnError`: the socket's error event is reduced to its `message` and `error` fields. Node's `EventEmitter` throws an `error` emitted with no listener out of the handler. That throw is not modelled, and neither is the same throw when an error frame is emitted from `onmessage`.
- `WsClients.CallerClosedSpec` / `WsClients.WebSocketClient.Close`: the transport's own checks on `close` are written out as `CloseRefused`. For a browser, these are the codes and the 123-byte reason limit. For the `ws` library, they are its `isValidStatusCode` and the same limit, checked only on an OPEN socket. The asynchronous failure of a handshake that `ws` aborts on a CONNECTING socket is not modelled.
- Sockets, timers and the event emitter. `new WebSocket`, `setInterval`/`setTimeout`, `ws.ping` and `super.on`/`emit` are reduced to a ready state, armed-timer fields and an append-only log. Elapsed time, and listeners registered by callers, are not modelled.
- `JSON.parse`, `JSON.stringify` and `URLSearchParams(...).toString()` are function parameters: the model does not look inside them.
- The axios instance. Its creation, the base URL it is given and the order in which it runs the two interceptors (src/clients/httpclient.ts:36-49) are not modelled. The order is a parameter of `Intercepted`, and the model proves only what holds for either order.
- `AxiosHeaders` name case-insensitivity: headers are compared by their exact names.
- JavaScript numbers are unbounded integers. NaN, fractions and `-0` are not modelled, so neither is their truthiness.
- Case conversion covers ASCII letters only; Unicode case mapping is not modelled.
- `Object.entries` lists keys in insertion order; the integer-key-first ordering of real objects is not modelled.
- The static `serializedNames` map inherited through the prototype chain is a registry indexed by class name. Subclasses that share a parent's map are not modelled.
- `Message.additionalFields` is modelled as a plain object only.
- Plugin and DTO field types are taken as declared; runtime values of other types are not modelled.
- `AbstractEndpoint.getHttpClient` and the axios call form the `Transport` parameter of `Request`. Its `Err` stands for a call that produced no response: the credential check of `getClient` throwing, or a network failure. That credential check is modelled on its own by `HttpClients.HttpClient.GetClient`.
- Axios rejects every status outside 2xx, because nothing overrides its default `validateStatus`. The model follows this with `Accepted` and `RejectionMessage`. Only the text of axios's message is modelled, not the fields of its error object.
- `Endpoints.AbstractEndpoint.Request` models the four helpers in one method keyed by the verb. The asynchronous `Promise` is not modelled.
- `Endpoints.AbstractEndpoint.Request` hands the options object to the transport without saying what axios does with it. `get` and `delete` pass `{query}` or `{json}` as the axios request configuration, where neither name is an axios option, so the argument is never sent. `post` and `put` send the options object itself, `{json: payload}`, as the request body.
- The `send` of the `ws` library on a socket that is not open is modelled as a throw on CONNECTING and a dropped frame on CLOSING or CLOSED. The error the library passes to a send callback is not modelled.
- `Dtos.AgentOutputJson`: proved for steps that are plain records (no DTO instances). Steps that are DTOs are covered only by the general `Dtos.AgentOutput.ToArray` contract.
- `Serializers.FlatRoundTrip`: proved only for flat objects whose keys are camelCase forms of snake identifiers. Other keys do not survive the round trip ("accessToken" comes back as "accesstoken").
- `Helpers.SnakeCamelRoundTrip`: proved only for snake identifiers whose later words have at least two letters. A one-letter word such as "a_b_c" becomes "aBC", and splitting that back gives "a_bc".
- `WsClients.WSClient.GetClient`: the session's URL is given through the `encode` parameter, because `URLSearchParams` is not modelled.
- The serializer's `enableCircularCheck` option is never read by the code and is not modelled.
- `HttpClient.getHttpUri`, `on`/`emit` forwarding in `WebSocketClient`, `MemoryPoint`/`SettingInput` `toArray` (plain `toJSON`, covered by `BaseDtos.Registry.ToJson`) and the `Permission` record carry no logic of their own.
- The REST endpoint classes, the file and multipart readers, `client.ts`, `message.ts` and the type-only model files are not part of this model: they are asynchronous HTTP glue or declarations.
