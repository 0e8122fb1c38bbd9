# remote-serial-port-server, modelled in Dafny

This project models remote-serial-port-server. The server exposes serial
ports over HTTP, WebSocket, TCP and UDP. The model covers six parts:

- **`lib/webserver.js`** (`webserver.dfy`).
  - The serial port manager `spm` is a `Registry` class. It maps canonical port names to `Port` records and carries its single-callback event table.
  - Each record owns a fixed 65535-byte receive buffer. This is a Dafny `array`, with its fill index `rxindex` and its `rxoverflow` flag.
  - The REST handlers are methods over the registry: open, the `data` listener, close, write, `GET read`, `DELETE read` and `available`. Each handler's semaphore-guarded critical section is one atomic method.
  - Every handler is proved against value-level functions on the buffer (`Appended`, `Drained`, `Cleared`) and against the admission function `Admit`. `Admit` states the order of the checks: a valid name, then the allow-list, then the port is open, then the read or write permission.
- **`lib/util.js`** (`util.dfy`).
  - `getPortName` takes the platform as a parameter.
  - `isPortAllowed` is a loop proved against the predicate `PortAllowed`.
  - The emitter that `addEventEmitter` installs is a class: a table with one callback per event, and a log of the calls made.
- **`server.js`** (`server.dfy`).
  - The default configuration.
  - The argument loop, a method proved equal to the recursive function `ParseCommandLine`.
  - The `--config port,baud,framing` inner loop, a method proved equal to `ParseSerialConfig`.
  - The mode switch.
  - The `received` listener that fans serial data out to a port's WebSocket clients.
- **`lib/tcp.js`** (`tcp.dfy`): the relay class with its `clients` array and broadcast.
- **`lib/udp.js`** (`udp.dfy`): the relay class with its learned-endpoint dictionary and the send loop over `Object.keys(clients)`.
- **What both relays share** (`relay.dfy`): the configuration check at start-up, the serial device and its event table, and the `address:port` key.
  - Two supporting files: `config.dfy` holds the configuration record, and `common.dfy` holds the JavaScript built-ins the code relies on: `split`, `indexOf`, `splice`, `parseInt`, `String(n)` and the case mappings.
- **`lib/websocket.js`** (`websocket.dfy`).
  - The upgrade-path pattern is a leftmost-match function. It is proved equal to a declarative reading of the regular expression.
  - The line, name and allow-list checks come next. Then the client is appended to the record's `websockets` or `wsc` list. A port not in `spm` gets a fresh placeholder record.
  - The data-line write guard and the control-line events complete the file.

Devices, sockets and callbacks are not executed in the model:

- A device's success or failure to open, close or write is a `bool` parameter.
- A chunk handed to a device is appended to a `written` log.
- Every send to a socket is appended to a `sent` log.
- Sockets and WebSocket clients are opaque identities.
- Registered callbacks are `HandlerId`s. Each `emit` appends one `Call` to the emitter's log.

Where the code does something other than what its documentation suggests, the model follows the code:

- Opening a port that is already in `spm` replaces its record (`OpenPort`).
- Closing removes the entry before the device has closed (`ClosePort`).
- `GET read` clears the whole buffer, even when `take` returns only part of it. So `X-Read-Available` is always 0 (`ReadPort`).
- An allow-list that is present but empty admits nothing. A JavaScript `[]` is truthy, and no entry matches (`PortAllowed`). The command line never produces one (`AllowListNeverEmpty`).
- On win32 a COM name keeps its letter case, so "com3" and "COM3" become two different registry keys (`WindowsKeepsCase`).
- The overflow flag records whether the last chunk did not fit. Once it is up the buffer is full, so it stays up until the next drain or clear (`OverflowPersists`).
- The WebSocket pattern is matched against `u.path`, which includes the query string. A `?` after the name therefore defeats the match (`MatchExcludesQuery`).
- Off Windows, the allow-list is compared with the "/dev/..." canonical name. An entry such as "ttyUSB0" therefore never admits that port (`AllowListNeedsDevPrefix`).

## Model

| member | source | states |
|---|---|---|
| `Common.Split` | server.js:80 | `split(",")` gives at least one piece, no piece holds a comma, and joining the pieces with commas gives the value back |
| `Common.SplitJoin` | server.js:85 | splitting pieces joined by commas recovers exactly those pieces |
| `Common.IndexOf` | lib/webserver.js:288 | -1 iff the text does not occur; otherwise the first position where it occurs |
| `Common.FirstIndex` | lib/tcp.js:82 | -1 iff the element is absent; otherwise the first position holding it |
| `Common.SpliceOne` | lib/tcp.js:82 | `splice(start, 1)` removes the element at `start`; a start at or past the end removes nothing; a negative start counts from the end |
| `Common.NatToString` | lib/tcp.js:34 | the decimal numeral of a port number is non-empty and all digits |
| `Common.ParseIntNatToString` | lib/udp.js:113 | `parseInt` reads back exactly the number its numeral spells |
| `Common.ParseIntOneChar` | server.js:108-114 | `parseInt` of one character is its digit value, or NaN for a non-digit |
| `Common.Lower` | lib/util.js:43 | lower-casing keeps the length, leaves no upper-case Latin letter (nor the Kelvin sign), and keeps every other character in its place |
| `Common.LowerIdempotent` | lib/util.js:43 | lower-casing an already lower-cased name changes nothing |
| `Util.GetPortName` | lib/util.js:8-26 | an empty name fails; on "win32" the name succeeds iff it is "COM" (any case) plus one or more digits, and is returned unchanged; elsewhere it succeeds iff it is a non-empty run of `[A-Za-z0-9_.-]` and the result is "/dev/" + name, which has no slash after the prefix |
| `Util.GetPortNameInjective` | lib/util.js:14-25 | two names that canonicalise to the same port name are the same name |
| `Util.CanonicalNameIsFinal` | lib/util.js:14-25 | off Windows a canonical name is itself refused as a name (it holds a slash); on Windows canonicalising twice gives the same result |
| `Util.WindowsKeepsCase` | lib/util.js:14-19 | on win32 "com3" and "COM3" are both accepted and stay distinct |
| `Util.IsPortAllowed` | lib/util.js:29-49 | the result is true iff the name is non-empty and either there is no allow-list or some entry equals it when both are lower-cased |
| `Util.PortAllowedIgnoresCase` | lib/util.js:42-48 | two non-empty names that are equal up to case are both allowed or both refused |
| `Util.AllowListExample` | lib/util.js:42-48 | with the list ["COM1"], "COM1" and "com1" are allowed and "COM2" is not |
| `Util.AllowListNeedsDevPrefix` | lib/util.js:22-48 | off Windows, an allow-list holding only the bare name never admits the canonical "/dev/" name |
| `Util.Emitter.constructor` | lib/util.js:52-53 | an object before the emitter is installed: no table, no calls |
| `Util.Emitter.AddEventEmitter` | lib/util.js:52-65 | the first application installs an empty table, a later one keeps the existing table; the call log is untouched |
| `Util.Emitter.On` | lib/util.js:61-63 | the callback for the event replaces any earlier one and no other entry changes |
| `Util.Emitter.Emit` | lib/util.js:55-60 | the registered callback is called exactly once with the data; with none registered nothing happens |
| `WebServer.Appended` | lib/webserver.js:164-177 | the buffer length is unchanged; the index advances by min(chunk length, free space); the bytes before the old index and after the new index are unchanged; the stored bytes are the chunk's prefix; the flag is up iff the buffer was full or the chunk did not fit |
| `WebServer.AppendedConsistent` | lib/webserver.js:166-177 | the buffer invariant (index within capacity, flag only when full) is preserved by an append |
| `WebServer.AppendedContents` | lib/webserver.js:169-175 | the received contents grow by exactly the part of the chunk that fit |
| `WebServer.OverflowPersists` | lib/webserver.js:166-177 | once the flag is up, every later append (even of an empty chunk) leaves the buffer exactly as it is |
| `WebServer.AppendedAll` | lib/webserver.js:157-183 | a sequence of chunks keeps the buffer length and keeps the index within it |
| `WebServer.AppendedAllWithinCapacity` | lib/webserver.js:164-177 | non-empty chunks whose total fits are all stored in order, the index advances by the total, and the flag ends down |
| `WebServer.SixteenByteExample` | lib/webserver.js:164-283 | at capacity 16: 10 bytes fit, 10 more overflow keeping 6, a drain returns the 16 stored bytes and leaves an empty buffer with the flag down |
| `WebServer.Cleared` | lib/webserver.js:279-281 | after a clear the buffer keeps its length, is all zeros, the index is 0 and the flag is down |
| `WebServer.Drained` | lib/webserver.js:271-281 | with no `take`, or `take` 0 (where the `or` falls back to the capacity), the reply is all received bytes; otherwise it has min(take, index) bytes; either way it is a prefix of the received contents, and the buffer is then cleared entirely |
| `WebServer.DrainedAsWritten` | lib/webserver.js:271-281 | for a decimal `take` string: an empty one reads everything, one whose value exceeds the index reads everything received, and any other gives a reply as long as the string itself, of which the first min(length, value) bytes are received bytes and the rest are the string's own digit characters; the buffer is cleared |
| `WebServer.TakeStringFinding` | lib/webserver.js:271-276 | with ten bytes received, `?take=10` replies with two bytes and `?take=0` with the character '0', against ten bytes and all received bytes in `Drained` |
| `WebServer.Port.State` | lib/webserver.js:144-153 | every valid record's buffer is consistent and its length is the record's capacity |
| `WebServer.Port.Opened` | lib/webserver.js:144-153 | a new record has capacity 65535, index 0, the flag down, the given options, an open device and no subscribers |
| `WebServer.Port.Placeholder` | lib/websocket.js:50-54 | the stand-in record has a never-opened device created with `autoOpen: false` and no subscribers |
| `WebServer.Port.Append` | lib/webserver.js:164-178 | the in-place copy into the array leaves exactly the state `Appended` describes |
| `WebServer.Port.Drain` | lib/webserver.js:269-283 | the bytes returned and the new state are exactly those `Drained` describes |
| `WebServer.Port.Clear` | lib/webserver.js:320-324 | the new state is exactly `Cleared` of the old one |
| `WebServer.Port.Available` | lib/webserver.js:350-354 | returns the index, the capacity and the flag, changes nothing, and the length never exceeds the capacity |
| `WebServer.Port.WriteDevice` | lib/webserver.js:240 | the chunk is appended to the device's write log |
| `WebServer.Port.CloseDevice` | lib/webserver.js:207 | the device is no longer open |
| `WebServer.Port.AddWebSocket` | lib/websocket.js:82-85 | the client is appended to the data-line list, which is created when absent |
| `WebServer.Port.AddControlSocket` | lib/websocket.js:108-111 | the client is appended to the control-line list, which is created when absent |
| `WebServer.Registry.constructor` | server.js:8 | an empty port map whose emitter is not yet installed |
| `WebServer.NewRegistry` | lib/webserver.js:42 | after `addEventEmitter` the empty registry satisfies the invariant every handler requires, with an empty event table and call log |
| `WebServer.Gate` | lib/webserver.js:221-233 | the result is exactly `Admit`: invalid name, then denied by the allow-list, then not open, then the missing read or write permission, in that order |
| `WebServer.OpenPort` | lib/webserver.js:129-193 | a refused name or a denied port changes nothing; a device that fails to open changes nothing; otherwise a fresh record with the body's options plus `autoOpen: false` replaces whatever the name held and no other entry changes |
| `WebServer.OnData` | lib/webserver.js:157-188 | the chunk is appended to the record the name holds now, whose write log, device flag and subscriber lists are unchanged, then `received` is emitted with the whole raw chunk; a name no longer registered emits nothing; the event table is unchanged |
| `WebServer.ClosePort` | lib/webserver.js:196-216 | a refused, denied or unregistered name leaves `spm` and the named record and its buffer unchanged; otherwise exactly that entry leaves `spm` whether or not the device closes, its buffer, write log and subscribers are unchanged, success means the device is closed, and a failed close leaves the device flag as it was |
| `WebServer.WritePort` | lib/webserver.js:219-250 | a failed check returns its error and leaves the named record and its buffer unchanged; otherwise the body is appended to that device's log, the buffer state, device flag and subscribers are unchanged, and the reply is its length or the write error |
| `WebServer.ContentType` | lib/webserver.js:285-290 | plain text iff the Accept header contains "text/html" or "text/plain", octet-stream otherwise |
| `WebServer.ReadPort` | lib/webserver.js:253-301 | a failed check returns its error and leaves the named record and its buffer unchanged; otherwise the reply carries the drained bytes, `X-Read-Length` is their count, `X-Read-Available` is 0, the buffer ends as `Drained` says, and the write log, device flag and subscribers are unchanged |
| `WebServer.ClearRead` | lib/webserver.js:304-331 | a failed check returns its error and leaves the named record and its buffer unchanged; otherwise the buffer ends as `Cleared` says and the write log, device flag and subscribers are unchanged |
| `WebServer.AvailableOf` | lib/webserver.js:334-361 | a failed check returns its error; otherwise the reply is the name, index, capacity and flag of the record |
| `WebSocket.NameRun` | lib/websocket.js:35 | the greedy name run is a prefix of name characters followed by a non-name character or the end |
| `WebSocket.NameRunStops` | lib/websocket.js:35 | the greedy run over a name followed by "/" or the end is exactly that name |
| `WebSocket.MatchAtMeaning` | lib/websocket.js:35 | the matcher succeeds at a position with given captures iff the pattern's declarative reading holds there |
| `WebSocket.MatchFromLeftmost` | lib/websocket.js:35 | the search from a position finds no match iff none exists there or later, and otherwise returns the first matching position |
| `WebSocket.MatchPortPath` | lib/websocket.js:35-38 | no match iff no position matches; a match carries the captures of the leftmost matching position |
| `WebSocket.LeftmostMatchMeaning` | lib/websocket.js:35-38 | the same two facts for the search from the start of the path |
| `WebSocket.ApiPathMatches` | lib/websocket.js:31-38 | "/api/v1/port/:name" and "/api/v1/port/:name/:line" yield exactly that name and line |
| `WebSocket.MatchExcludesQuery` | lib/websocket.js:30-35 | no '?' follows the literal in a match, so a query string after the name defeats it |
| `WebSocket.NoMatchInApiPrefix` | lib/websocket.js:35 | no position inside the "/api/v1" prefix starts a match |
| `WebSocket.MatchFromSkip` | lib/websocket.js:35 | positions without a match can be skipped by the leftmost search |
| `WebSocket.LineOf` | lib/websocket.js:40-43 | only "data" gives the data line and only "control" the control line; a missing segment is refused |
| `WebSocket.AdmitConnection` | lib/websocket.js:35-48 | the result is exactly `Admission`: path mismatch, then unknown line, then invalid name, then denied by the allow-list |
| `WebSocket.Subscribe` | lib/websocket.js:82-111 | the client is appended to the list of its line, created when absent, and the other list is unchanged |
| `WebSocket.Connect` | lib/websocket.js:27-112 | a refused connection returns its error; a registered port's record gets the client appended to its line's list, and its buffer, write log and device flag are unchanged; an unregistered name gets a fresh unopened placeholder that `spm` never holds, with the options `{ autoOpen: false }`, nothing written and the client as its only subscriber |
| `WebSocket.DataMessage` | lib/websocket.js:58-79 | a device that is not open refuses, then missing write permission refuses, both writing nothing; otherwise the message is appended to the device's log |
| `WebSocket.ControlMessage` | lib/websocket.js:89-105 | an unparsable message is an error; event "open" is acknowledged; every other event is not implemented and carries that event |
| `Relay.EndpointKeyParts` | lib/tcp.js:34 | the key's last ':' sits right after the address, the part before it is the address and the part after it is the port's decimal numeral |
| `Relay.EndpointKeySplits` | lib/tcp.js:34 | a key splits back into its peer: the address is everything before the last ':', and parsing the rest as an integer gives the port |
| `Relay.NoColonInNumeral` | lib/udp.js:113 | a decimal port number contains no ':' |
| `Relay.LastIndexBeforeSuffix` | lib/udp.js:113 | the last ':' in address + ":" + numeral is the one before the numeral |
| `Relay.EndpointKeyInjective` | lib/udp.js:113-115 | two peers with the same key are the same peer, even with colons in the address |
| `Relay.Validate` | lib/tcp.js:5-27 | a missing config, then a port not above 0, then a missing or empty serial port name each fail, in that order; otherwise the options are the given ones (or none) with `autoOpen: false` |
| `Relay.Device.constructor` | lib/tcp.js:22-28 | a closed device with the start-up name and options, an empty write log and a fresh installed emitter |
| `Relay.Device.Opened` | lib/tcp.js:121-131 | `autoOpen` is deleted from the options and `open` is emitted with what is left |
| `Relay.Device.OpenFailed` | lib/tcp.js:106-120 | `error` is emitted, and the process exits with status 1 exactly when started from the command line |
| `Relay.Device.Forward` | lib/tcp.js:50-54 | `write` is emitted, then the identical bytes are appended to the device's log |
| `Relay.Device.Received` | lib/tcp.js:138-139 | `read` is emitted with the serial data |
| `Relay.DistinctOccursOnce` | lib/tcp.js:98-100 | in a list without repetitions each element occurs exactly once |
| `Tcp.Sends` | lib/tcp.js:94-101 | the broadcast writes the message once to each client, in list order |
| `Tcp.BroadcastReachesEachOnce` | lib/tcp.js:94-101 | each connected socket receives the message exactly once and no other socket receives it |
| `Tcp.SpliceKeepsDistinct` | lib/tcp.js:82 | removing one element by `splice` never creates a repetition |
| `Tcp.EndRemovesSocket` | lib/tcp.js:80-82 | ending a connected socket removes exactly that socket and keeps the others in order |
| `Tcp.EndOfUnknownSocket` | lib/tcp.js:82 | ending a socket that is not in the list removes the last one instead |
| `Tcp.TcpRelay.constructor` | lib/tcp.js:22-31 | a relay with a fresh device, no clients and nothing sent |
| `Tcp.TcpRelay.OnConnect` | lib/tcp.js:32-41 | the socket, named after its remote endpoint, is appended to the list, then `client connected` is emitted |
| `Tcp.TcpRelay.OnEnd` | lib/tcp.js:73-89 | `client disconnected` is emitted and the list becomes `splice(indexOf(socket), 1)` of the old one, still without repetitions |
| `Tcp.TcpRelay.Broadcast` | lib/tcp.js:94-101 | the send log grows by `Sends` of the current clients |
| `Tcp.TcpRelay.OnSerialData` | lib/tcp.js:132-149 | `read` is emitted, then the identical bytes are broadcast |
| `Tcp.TcpRelay.OnClientData` | lib/tcp.js:44-70 | `write` is emitted, then the identical bytes go to the device |
| `Tcp.StartTcp` | lib/tcp.js:5-31 | a failed check returns its error; otherwise a relay with the validated name and options, no clients and a closed device |
| `Udp.Datagrams` | lib/udp.js:82-96 | one datagram per key, in key order, each to the client stored under that key |
| `Udp.EachClientOnce` | lib/udp.js:82-96 | every registered client receives each serial chunk exactly once and no other peer receives it |
| `Udp.UdpRelay.constructor` | lib/udp.js:27-36 | a relay with a fresh device and no clients |
| `Udp.UdpRelay.OnMessage` | lib/udp.js:107-131 | the sender is inserted under its key only if absent, so the dictionary only grows and always holds the sender; `write` is emitted; the identical bytes go to the device |
| `Udp.UdpRelay.OnSerialData` | lib/udp.js:71-103 | `read` is emitted, then the send log grows by `Datagrams` of the registered clients |
| `Udp.StartUdp` | lib/udp.js:5-36 | a failed check returns its error; otherwise a relay with the validated name and options and no clients |
| `Server.NoArguments` | server.js:7-22 | with no arguments: port 5147, mode "http", prefix "/api/v1", all five permissions on, no allow-list, verbose and debug from the environment flags "true" or "1" |
| `Server.ParityOf` | server.js:120-122 | exactly the letters N, E, O, M and S have a parity |
| `Server.ParseDigitIsParseInt` | server.js:108-114 | the digit read from one character is exactly `parseInt` of the one-character string |
| `Server.FramingMeaning` | server.js:100-125 | a framing is accepted iff it has three characters, data bits 5 to 8, stop bits 1 or 2 and a parity letter in either case; the values are those digits and letter |
| `Server.FramingErrors` | server.js:103-124 | each error is given exactly when its check is the first to fail: a wrong length gives the framing error; a data-bits character outside 5 to 8 the data-bits error; good data bits with a stop-bits character other than 1 or 2 the stop-bits error; good data and stop bits with a letter that upper-cases to none of N, E, O, M, S the parity error |
| `Server.FramingStopBitsFirst` | server.js:113-124 | in "8X3" the bad stop bits are reported, not the bad parity letter |
| `Server.FramingExample` | server.js:101 | "8N1" is 8 data bits, no parity, 1 stop bit |
| `Server.FramingLowerCaseParity` | server.js:120-122 | "7e2" is accepted with even parity |
| `Server.SerialConfigMeaning` | server.js:83-128 | field 0 is the port name; a single field sets only it; the baud rate must be above 0; fewer fields leave later options unset; a fourth field fails after three good ones |
| `Server.ParseConfigOption` | server.js:84-130 | the inner loop yields exactly `ParseSerialConfig` of the value |
| `Server.Next` | server.js:38 | `args[++i]` is the following argument, or undefined past the end |
| `Server.ParseOption` | server.js:27-152 | one turn of the loop advances by one or two arguments; what each case changes is stated by `ParseOptionEffect`, `AllowListEffect`, `ConfigOptionEffect`, `PortOptionEffect`, `PortOption`, `AllowPortsOption`, `DebugOption` and `UnknownArgumentExits` |
| `Server.ParseArgs` | server.js:25-153 | the loop yields exactly `ParseCommandLine` of the arguments |
| `Server.PermissionFlags` | server.js:54-72 | only the exact spellings `--no-list`, `--no-read`, `--no-write`, `--no-ui`, `--no-ws` select their cases |
| `Server.ParseOptionEffect` | server.js:54-72 | each permission is turned off only by its own `--no-X`; every other option leaves all five as they were |
| `Server.AllowListEffect` | server.js:74-81 | the allow-list changes only through `--allow-ports`, and then to a non-empty list |
| `Server.ConfigOptionEffect` | server.js:83-131 | `--config` changes only the serial port name and options |
| `Server.PortOptionEffect` | server.js:36-43 | the port number changes only through `-p`/`--port`, and then to a number above 0 |
| `Server.RunHasPositivePort` | server.js:36-43 | a configuration the loop runs with has a port number above 0 |
| `Server.PermissionOffOnlyByOption` | server.js:54-72 | a permission ends off only if it started off or its `--no-X` option is among the arguments |
| `Server.AllPermissionsByDefault` | server.js:15-72 | with no `--no-X` option every permission is on |
| `Server.AllowListNeverEmpty` | server.js:74-81 | an allow-list set on the command line is never empty |
| `Server.PortOption` | server.js:36-43 | `-p`/`--port` sets the port to `parseInt` of the next argument when it is above 0 and otherwise exits with status 2 |
| `Server.LastPortWins` | server.js:36-43 | of two port options the later value wins; a bad value in either exits with status 2 |
| `Server.Dispatch` | server.js:340-373 | udp and tcp start their own relay exactly when the relay's checks pass, and exit with status 1 exactly when they fail; http starts the web server exactly for its mode; echo starts its server exactly when the serial port name is present and non-empty, and otherwise exits with status 1; any other mode, or none, exits with status 2 |
| `Server.UnknownArgumentExits` | server.js:148-151 | an argument the switch does not know ends the loop with status 2, naming the argument |
| `Server.UnknownFirstArgument` | server.js:148-151 | a command line starting with an unknown argument exits with status 2 whatever follows |
| `Server.AllowPortsOption` | server.js:74-81 | `--allow-ports` without a value, or with an empty one, exits with status 2; otherwise only the allow-list changes, to comma-free entries that join back to the value |
| `Server.AllowPortsMissing` | server.js:74-81 | `--allow-ports` as the last argument, or followed by an empty one, exits the whole command line with status 2 |
| `Server.DebugOption` | server.js:138-141 | `--debug` turns on both debug and verbose output and changes nothing else |
| `Server.OutputFlagsStayOn` | server.js:132-141 | no option turns verbose or debug output off again |
| `Server.DebugFirst` | server.js:138-141 | a command line starting with `--debug` runs, if it runs, with debug and verbose output |
| `Server.StartFailsOnlyWithoutPortName` | server.js:205-226 | started from the command line, udp, tcp and echo (whose start at server.js:340-349 fails the same way) exit with status 1 exactly when the serial port name is missing or empty |
| `Server.ForwardReceived` | server.js:318-331 | the chunk goes to every client of the port's data-line list, in order, only while reading is permitted; a missing record or list sends nothing |

## Findings

| source | as written | input that shows it | evidently intended | confidence | as-written member | corrected member |
|---|---|---|---|---|---|---|
| lib/webserver.js:271-276 | `req.query.take` is a string. Unless it is empty or its value exceeds `rxindex`, it reaches `new Buffer(take)` unconverted, so the reply holds the string's own bytes, and at most as many received bytes as the string has characters | ten bytes received: `?take=10` replies with 2 bytes, and `?take=0` replies with the character '0' | `take` bytes are returned (all received bytes when `take` is absent or 0), never more than received | not executed | `WebServer.DrainedAsWritten`, `WebServer.TakeStringFinding` | `WebServer.Drained` |

## Left out

- The Express application is left out: routing, body parsing, views, static files, the status route, the error handlers and uptime. They are HTTP plumbing and a clock.
- The port listings `GET /port` and `GET /port/:name` are left out. They depend entirely on the serial port library's `list`, as does `--list`.
- The serial port library itself is reduced to a boolean. The open, close and write callbacks become a `bool` parameter saying whether they succeed, and `isOpen` becomes the record's `deviceOpen` flag.
- The sockets are left out: `net`, `dgram`, `ws` and the HTTP listener. Peers are opaque identities and every send is a log append.
- Asynchrony and the semaphore library are not modelled. Each `take … leave` section is one atomic method, and interleavings are not modelled.
- The debug `--verbose` logging is left out: console output, `verbose()` and `help()`.
- `process.exit`, thrown errors and the version printout become `Outcome`, `Launch` and `Result` values.
- `lib/echo.js` is modelled only up to its port-name check (lib/echo.js:8-10), which `Dispatch` turns into exit status 1. The echo server it then starts is not part of this model.
- `setConfig` is not modelled as module state. The settings it installs are passed to each operation as a `Settings` value.
- The webserver's own fallback permissions (lib/webserver.js:31-37) are left out. They apply only when the module is used without server.js.
- `WebServer.ReadPort`: `take` is the number the query asks for, as the handler evidently intends (see Findings). The source passes the query string itself to `new Buffer` whenever it is non-empty and its value does not exceed `rxindex`. `DrainedAsWritten` models that path for strings of decimal digits only. Other `take` strings (signs, spaces, hexadecimal, exponents, fractions, non-numeric text, a repeated parameter) are not modelled, because the way Node's `Buffer` coerces them is not modelled.
- `WebServer.WritePort`: the body is a byte sequence. A body that the JSON parser turned into an object is not modelled.
- `Tcp.TcpRelay.OnClientData`: the failing write's error log refers to an undefined `remote` (lib/tcp.js:57). Only that log is affected, and it is left out.
- `Tcp.TcpRelay.OnConnect`: it requires the new socket's identity to be unused. Every connection is a new socket object, so this is what the source guarantees.
- WebSocket paths are taken as already produced by `url.parse`. Its percent-escaping is not modelled.
- `WebSocket.ControlMessage`: `JSON.parse` is left out. The parsed message is given as `Unparsable` or as the `event` string, and the loose `==` comparison with "open" is modelled only for strings.
- Strings are sequences of Unicode characters, while JavaScript strings are UTF-16 code units. Lengths differ only for characters outside the Basic Multilingual Plane.
- `Common.Lower`: only A-Z and the Kelvin sign are lower-cased; other upper-case characters are kept as they are, because only these lower-case to ASCII letters that a canonical port name can hold.
- `Util.IsPortAllowed`: `toLowerCase` is modelled for the characters that lower-case to ASCII: A-Z and the Kelvin sign. This is exact when the port name is ASCII, which every canonical name is.
- `Common.ParseInt`: the value is an exact integer, while JavaScript's `parseInt` returns a double that rounds above 2^53 and becomes `Infinity` for very long numerals. Its results are only compared with 0 (server.js:38-40 and 94-96), so no outcome depends on the difference, but the stored port number and baud rate are exact here.
- `Server.ParseArgs`: consequences of an undefined `--mode` or `--prefix` value are not modelled beyond the `Dispatch` exit. Express mounting under an undefined prefix is part of the HTTP plumbing.
- `Server.ForwardReceived`: the listener is registered only when WebSocket permission is on, and registering it is HTTP start-up. Read permission is passed in as `canRead`.
- `Relay.Device.OpenFailed`: the error object carried by the `error` event is left out. Only the port name is kept.
