# WebSocket transport of the SignalR Java client: connection set-up

This project models the part of `WebsocketTransport` that runs before a socket
exists: the transport's name (`webSockets`), its keep-alive support, and the
first half of `start`. That half does the following:

- It builds the `connect` or `reconnect` URL from the connection's session
  state: base URL, connection token, message id, groups token, connection data
  and an optional raw query string.
- It encodes the query values with `java.net.URLEncoder` in UTF-8. That
  encoding is the application/x-www-form-urlencoded format of section 17.13.4.1
  of HTML 4.01. `connectionData` and `connectionToken` are encoded twice; the
  other values once.
- It rewrites the scheme into the `ws`/`wss` schemes of section 3 of RFC 6455
  and records whether the connection is secure.
- It fails the returned future if the result is not a URI.
- Otherwise it puts a `User-Agent` header into the connection's header map and
  creates the socket client.

Modules:

- `Nullable` (`nullable.dfy`): `Option`, the model of a Java reference that may
  be null.
- `Text` (`text.dfy`): the `String.startsWith` and `String.replace` operations
  the transport uses, `contains` and `endsWith` for stating properties, and
  lemmas about them. `replace` substitutes every
  non-overlapping occurrence, scanning from left to right.
- `FormEncoding` (`form_encoding.dfy`): `URLEncoder.encode(s, "UTF-8")` in
  character form and in byte form. Its partner is a decoder in the style of
  `URLDecoder`.
- `QueryString` (`query_string.dfy`): joining `key=value` pairs with `&`. Its
  partner is the parser a server applies: split at `&`, then at the first `=`.
- `Websocket` (`websocket.dfy`): the session state, the specification functions
  `RequestUrl` (the URL before the rewrite) and `ConnectUrl` (the URL
  connected to), and their lemmas. It also holds the classes:
  - `Connection`: the connection's fields, including the mutable header map.
  - `WebsocketTransport`: the fields `connectionFuture` and `socketClient`, and
    the methods `ConcatenateUrl`, `RewriteScheme`, `BuildUrl` and `Start`, which
    follow `start` statement by statement.

Where the code and a plain reading of the transport's contract disagree, the
model follows the code:

- `connectionToken` is encoded twice, exactly like `connectionData` (line 77).
- The rewrite calls `String.replace`, which replaces EVERY occurrence of
  `https://` or `http://`, not only the prefix. The prefix test only picks the
  branch, and only that branch's marker is replaced. So the raw query string
  is rewritten exactly when it holds the marker of the branch its base URL
  picks (`UrlEnding`, `RewriteKeeps`). Behind an `http://` base URL,
  `next=http://...` goes out as `next=ws://...` (`RawQueryRewritten`). Behind
  an `https://` base URL, an `http://` in the raw query is sent unchanged. Behind
  a base URL with neither prefix, the raw query is always sent unchanged.
- A null base URL is written as the text `null`, because Java string
  concatenation does that.

## Model

| member | source | states |
|---|---|---|
| Websocket.Name | signalr-client-sdk/src/main/java/microsoft/aspnet/signalr/client/transport/WebsocketTransport.java:53-55 | The transport name is the constant `webSockets`. |
| Websocket.PathSegment | signalr-client-sdk/src/main/java/microsoft/aspnet/signalr/client/transport/WebsocketTransport.java:64 | `connect` for the initial connection, `reconnect` for any other connection type. |
| Websocket.OrEmpty | signalr-client-sdk/src/main/java/microsoft/aspnet/signalr/client/transport/WebsocketTransport.java:68-70 | A null message id, groups token or connection data stands for the empty string; any other value is itself. |
| Websocket.UrlText | signalr-client-sdk/src/main/java/microsoft/aspnet/signalr/client/transport/WebsocketTransport.java:75 | The base URL as concatenation writes it: the URL itself, or the text `null` when it is null. |
| Websocket.RequestUrl | signalr-client-sdk/src/main/java/microsoft/aspnet/signalr/client/transport/WebsocketTransport.java:64-83 | The URL before the rewrite: base URL, path segment, `?`, the five encoded parameters joined by `&`, then `&` and the raw query string when there is one. |
| Websocket.SchemeOf | signalr-client-sdk/src/main/java/microsoft/aspnet/signalr/client/transport/WebsocketTransport.java:84-88 | The branch the rewrite takes: secure when the URL starts with `https://`, otherwise plain when it starts with `http://`, otherwise none. |
| Websocket.Rewrite | signalr-client-sdk/src/main/java/microsoft/aspnet/signalr/client/transport/WebsocketTransport.java:84-90 | The secure branch replaces every `https://` by `wss://`, the plain branch every `http://` by `ws://`; when neither prefix matched, the text is left unchanged. |
| Websocket.ConnectUrl | signalr-client-sdk/src/main/java/microsoft/aspnet/signalr/client/transport/WebsocketTransport.java:64-90 | The URL connected to: the base URL rewritten by its own scheme, the unchanged segment, `?` and parameters, then `&` and the raw query string rewritten the same way. |
| Websocket.NoMarkerLeft | signalr-client-sdk/src/main/java/microsoft/aspnet/signalr/client/transport/WebsocketTransport.java:84-90 | Every occurrence is replaced, not only the prefix: after the secure branch the URL holds no `https://` anywhere, and after the plain branch no `http://`. |
| FormEncoding.EncodeChar | signalr-client-sdk/src/main/java/microsoft/aspnet/signalr/client/transport/WebsocketTransport.java:76-80 | One character as `URLEncoder` writes it: kept characters as themselves, a space as `+`, any other as `%XX` per UTF-8 byte. The result uses only the encoded alphabet. |
| Text.StartsWith | signalr-client-sdk/src/main/java/microsoft/aspnet/signalr/client/transport/WebsocketTransport.java:84-88 | `startsWith`: the string's first characters are exactly the prefix. |
| Text.ReplaceAll | signalr-client-sdk/src/main/java/microsoft/aspnet/signalr/client/transport/WebsocketTransport.java:86-89 | `replace`: scanning left to right, each non-overlapping occurrence of the target is replaced and every other character is copied. |
| Text.ReplaceAllRemoves | signalr-client-sdk/src/main/java/microsoft/aspnet/signalr/client/transport/WebsocketTransport.java:86-89 | No occurrence of the target is left after `replace` when target and replacement share neither first character. |
| Websocket.SupportKeepAlive | signalr-client-sdk/src/main/java/microsoft/aspnet/signalr/client/transport/WebsocketTransport.java:58-60 | The transport always supports keep-alive. |
| Websocket.NameEncodesToItself | signalr-client-sdk/src/main/java/microsoft/aspnet/signalr/client/transport/WebsocketTransport.java:53-55 | Encoding the transport name `webSockets` leaves it unchanged, so the `transport` value on the wire is the name itself. |
| Websocket.SegmentChoice | signalr-client-sdk/src/main/java/microsoft/aspnet/signalr/client/transport/WebsocketTransport.java:64 | The path segment is `connect` exactly for the initial connection and `reconnect` for every other connection type. |
| Websocket.SegmentAfterBase | signalr-client-sdk/src/main/java/microsoft/aspnet/signalr/client/transport/WebsocketTransport.java:75 | The segment follows the base URL directly and is followed by `?`, both before the scheme rewrite and after it (there behind the rewritten base URL). |
| Websocket.QueryLayout | signalr-client-sdk/src/main/java/microsoft/aspnet/signalr/client/transport/WebsocketTransport.java:75-80 | The query is exactly the five `key=value` pairs joined by `&`, in the fixed order, with the values encoded as the source encodes them. |
| Websocket.StartParamsWellFormed | signalr-client-sdk/src/main/java/microsoft/aspnet/signalr/client/transport/WebsocketTransport.java:76-80 | No key holds `&` or `=`, and no value holds `&`. |
| Websocket.QueryParameters | signalr-client-sdk/src/main/java/microsoft/aspnet/signalr/client/transport/WebsocketTransport.java:66-80 | A server that splits the query reads back exactly the five parameters, in order. Two decodings recover the UTF-8 bytes of `connectionData` and `connectionToken`, one decoding those of `groupsToken` and `messageId`, and `transport` is `webSockets`. |
| Websocket.NullFieldsSentEmpty | signalr-client-sdk/src/main/java/microsoft/aspnet/signalr/client/transport/WebsocketTransport.java:68-70 | A null `connectionData`, `groupsToken` or `messageId` is still sent, as its key with an empty value. |
| Websocket.ValuesCannotEscape | signalr-client-sdk/src/main/java/microsoft/aspnet/signalr/client/transport/WebsocketTransport.java:76-80 | Every value uses only letters, digits, `.-*_`, `+` and `%`, so none can hold `&`, `=` or `?`. |
| Websocket.DoubleEncodingExample | signalr-client-sdk/src/main/java/microsoft/aspnet/signalr/client/transport/WebsocketTransport.java:76-77 | Double encoding is visible on the wire: a space is sent as `%2B` and a `+` as `%252B`. |
| Websocket.NoSlashInQuery | signalr-client-sdk/src/main/java/microsoft/aspnet/signalr/client/transport/WebsocketTransport.java:75-80 | The path segment and the query contain no `/`, so no scheme marker can occur in them. |
| Websocket.SourceConcatenation | signalr-client-sdk/src/main/java/microsoft/aspnet/signalr/client/transport/WebsocketTransport.java:75-83 | The source's left-to-right concatenation, with the raw query string appended after `&` when it is present, is the URL `RequestUrl` describes: base URL, segment, `?`, parameters, raw tail. |
| Websocket.RewriteLayout | signalr-client-sdk/src/main/java/microsoft/aspnet/signalr/client/transport/WebsocketTransport.java:84-90 | For a URL laid out as base, a middle part that starts with no marker character and holds no `/`, then a raw tail: the base alone decides the branch, and replacing over the whole string equals rewriting the base and the raw tail separately. |
| Websocket.RewriteWholeUrl | signalr-client-sdk/src/main/java/microsoft/aspnet/signalr/client/transport/WebsocketTransport.java:84-90 | Rewriting the whole built URL by the scheme it starts with gives `ConnectUrl`. The branch depends only on the base URL. |
| Websocket.SchemeOutcome | signalr-client-sdk/src/main/java/microsoft/aspnet/signalr/client/transport/WebsocketTransport.java:84-90 | An `https://` base URL gives a URL starting `wss://`. An `http://` base URL gives one starting `ws://`. Any other base URL leaves the URL exactly as built. |
| Websocket.RewriteReversible | signalr-client-sdk/src/main/java/microsoft/aspnet/signalr/client/transport/WebsocketTransport.java:86-89 | The rewrite loses nothing. If the built URL held no `wss://` (or `ws://`), replacing it back by `https://` (or `http://`) recovers the built URL. |
| Websocket.UrlEnding | signalr-client-sdk/src/main/java/microsoft/aspnet/signalr/client/transport/WebsocketTransport.java:73-90 | Without a raw query string the URL ends with `&transport=webSockets`. A raw query string is sent after `&` unchanged exactly when it holds no copy of the marker of the branch the base URL picks; when it holds one, what follows `&` differs from it. |
| Websocket.RewriteKeeps | signalr-client-sdk/src/main/java/microsoft/aspnet/signalr/client/transport/WebsocketTransport.java:84-90 | The rewrite leaves a text unchanged exactly when the text holds no copy of the marker of the branch taken. The branch that matches neither prefix leaves every text unchanged. |
| Websocket.RawQueryRewritten | signalr-client-sdk/src/main/java/microsoft/aspnet/signalr/client/transport/WebsocketTransport.java:81-89 | `replace` also rewrites markers inside the raw query string: with an `http://` base URL, `next=http://<dest>` is sent as `next=ws://<dest>`, for any path and destination without a further `http://`. |
| Websocket.InitialConnectionExample | signalr-client-sdk/src/main/java/microsoft/aspnet/signalr/client/transport/WebsocketTransport.java:64-90 | Take an initial connection to `http://<path>` (no further `http://` in the path, so ports are allowed) with empty connection data and null message id, groups token and query string. It connects to `ws://<path>connect?connectionData=&connectionToken=<token encoded twice>&groupsToken=&messageId=&transport=webSockets`. |
| Websocket.WebsocketTransport.constructor | signalr-client-sdk/src/main/java/microsoft/aspnet/signalr/client/transport/WebsocketTransport.java:44-50 | A new transport has no connection future and no socket client. |
| Websocket.WebsocketTransport.ConcatenateUrl | signalr-client-sdk/src/main/java/microsoft/aspnet/signalr/client/transport/WebsocketTransport.java:64-83 | The URL before the rewrite, built statement by statement with the null defaults and the encodings, equals `RequestUrl` of the connection's state. |
| Websocket.WebsocketTransport.RewriteScheme | signalr-client-sdk/src/main/java/microsoft/aspnet/signalr/client/transport/WebsocketTransport.java:72-90 | `isSsl` is set exactly when the URL starts with `https://`. The result is the URL with every occurrence of the chosen marker replaced, or the URL itself when it starts with neither marker. |
| Websocket.WebsocketTransport.BuildUrl | signalr-client-sdk/src/main/java/microsoft/aspnet/signalr/client/transport/WebsocketTransport.java:64-90 | The URL connected to is `ConnectUrl` of the connection's state, and `isSsl` holds exactly when the base URL starts with `https://`. |
| Websocket.WebsocketTransport.Start | signalr-client-sdk/src/main/java/microsoft/aspnet/signalr/client/transport/WebsocketTransport.java:95-108 | `start` stores the future it returns. If the URL is not a valid URI, that future is failed with the URL, the header map is unchanged and no socket client is created. Otherwise the header map is the old map with `User-Agent` set to the platform user agent, and the socket client gets the URL, draft 17, the headers, timeout 0 and a TLS socket attempted exactly for `https://`. |
| FormEncoding.Utf8 | signalr-client-sdk/src/main/java/microsoft/aspnet/signalr/client/transport/WebsocketTransport.java:76-80 | The UTF-8 form of a character has one to four bytes. It has one byte, equal to the code point, exactly for ASCII; every byte of a longer form is at least 0x80. |
| FormEncoding.Encode | signalr-client-sdk/src/main/java/microsoft/aspnet/signalr/client/transport/WebsocketTransport.java:76-80 | The encoding is never shorter than its input and uses only letters, digits, `.-*_`, `+` and `%`. |
| FormEncoding.EncodeViaBytes | signalr-client-sdk/src/main/java/microsoft/aspnet/signalr/client/transport/WebsocketTransport.java:76-80 | Encoding character by character equals encoding the UTF-8 bytes of the string one byte at a time. |
| FormEncoding.DecodeEncodeBytes | signalr-client-sdk/src/main/java/microsoft/aspnet/signalr/client/transport/WebsocketTransport.java:76-80 | Decoding the byte-level encoding of any byte sequence gives that sequence back. |
| FormEncoding.DecodeEncode | signalr-client-sdk/src/main/java/microsoft/aspnet/signalr/client/transport/WebsocketTransport.java:76-80 | Decoding the encoding of any string gives its UTF-8 bytes. |
| FormEncoding.AsciiRoundTrip | signalr-client-sdk/src/main/java/microsoft/aspnet/signalr/client/transport/WebsocketTransport.java:76-77 | The UTF-8 bytes of ASCII text, read back one byte per character, give the text again. |
| FormEncoding.DecodeTwice | signalr-client-sdk/src/main/java/microsoft/aspnet/signalr/client/transport/WebsocketTransport.java:76-77 | A value encoded twice survives two decodings. The first gives the single encoding back as text; the second gives the value's UTF-8 bytes. |
| FormEncoding.EncodeKept | signalr-client-sdk/src/main/java/microsoft/aspnet/signalr/client/transport/WebsocketTransport.java:80 | A string of letters, digits and `.-*_` encodes to itself. |
| QueryString.ParseJoinParams | signalr-client-sdk/src/main/java/microsoft/aspnet/signalr/client/transport/WebsocketTransport.java:75-80 | Parsing the joined query of well-formed parameters gives back the parameters, in order. |
| QueryString.SplitJoin | signalr-client-sdk/src/main/java/microsoft/aspnet/signalr/client/transport/WebsocketTransport.java:75-80 | Splitting at `&` undoes joining with `&` when no part holds `&`. |
| QueryString.JoinParamsExcludes | signalr-client-sdk/src/main/java/microsoft/aspnet/signalr/client/transport/WebsocketTransport.java:75-80 | A character that is neither `&` nor `=` and occurs in no key and no value does not occur in the query. |
| Text.ReplaceAllAbsent | signalr-client-sdk/src/main/java/microsoft/aspnet/signalr/client/transport/WebsocketTransport.java:86-89 | `replace` leaves a string without the target unchanged. |
| Text.ReplaceAllSplit | signalr-client-sdk/src/main/java/microsoft/aspnet/signalr/client/transport/WebsocketTransport.java:86-89 | `replace` distributes over a concatenation whose second part starts with a character not in the target, since no occurrence can straddle the boundary. |
| Text.ReplaceAllUndo | signalr-client-sdk/src/main/java/microsoft/aspnet/signalr/client/transport/WebsocketTransport.java:86-89 | Replacing `p` by `r` and then `r` by `p` restores a string that held no `r`, when `r`'s first character does not recur in `r`. |
| Text.PrefixSurvives | signalr-client-sdk/src/main/java/microsoft/aspnet/signalr/client/transport/WebsocketTransport.java:86-89 | A prefix that lacks the replacement's first character and begins the rewritten string already began the original. |

## Left out

- The `WebSocketClient` subclass, its callbacks `onOpen`, `onMessage`, `onClose` and `onError`, and the calls to `connect`, `close` and `send` (lines 108-130, 144-158). These are network I/O through a library that is not part of this model, and its callbacks run on the library's own thread. `Start` records only the arguments the client is created with.
- How the future behaves once `setResult`, `triggerError` or cancellation happen, and `ConnectionBase.onError` and `closed` (line 145). Their classes are not part of this model. The future is modelled only as `Pending` or `Failed` with the URL that did not parse.
- The TLS socket substitution (lines 132-142). It consists of JSSE calls whose exceptions are swallowed. `SocketClient.tlsSocket` records only that it is attempted when `isSsl` holds.
- `java.net.URI` parsing (line 99). It is the parameter `validUri` of `Start`, not a re-implementation of RFC 3986.
- `Platform.getUserAgent()` (line 106). It is the parameter `userAgent` of `Start`.
- The `UnsupportedEncodingException` branch (lines 91-93). It cannot be reached with UTF-8.
- Logging (line 107 and the callbacks) and the unused `Gson` instance (line 40).
- A null connection token. `URLEncoder.encode` throws a `NullPointerException` on it; the model takes the token as a string.
- Lone surrogates. A Dafny `char` is a Unicode scalar value, so the replacement bytes `URLEncoder` writes for an unpaired surrogate are not modelled.
- Websocket.WebsocketTransport.Start: the socket client gets the header map as a value. In the source it shares the same `Map` object with the connection, so later changes to the connection's headers are not seen through the client in the model.
- `URLEncoder` and `URLDecoder` themselves are not part of this model. `FormEncoding` states their documented behaviour: characters kept, space as `+`, and every other UTF-8 byte as `%XX` with upper-case hex digits.
