# Pairing and session broker: a Dafny model

This project models the server that brokers pairing and session handoff
between headless messaging bots and their operators. A bot relays a
short-lived pairing code, which a human later fetches. The bot also uploads
its authentication state (a "session"), restores it after a restart, and
receives small push notifications over a WebSocket. The model covers:

- the pairing-code cache of `FileStorage` (a map from raw bot identity to code
  and expiry, with read-time eviction and a periodic sweep);
- the session directory of `FileStorage`. Each file is named after the
  sanitised identity plus `.json`. Saving overwrites and deleting is
  idempotent. Listing keeps the names ending in `.json` and removes the FIRST
  `.json` from each, which need not be the suffix (`x.jsony.json` is listed
  as `xy.json`);
- the connection registry `botConnections` of the WebSocket server and
  `notifyBot`;
- the HTTP handlers of `registerRoutes`. Upload is create-only, restore and
  delete answer 404 for a missing session, and fetching a pairing code reports
  the whole seconds left;
- the pure helpers around them: `buildUrl`, the two request schemas, and the
  grouping, countdown and colour logic of the pairing-code display.

Files, one module each: `optional.dfy`, `json.dfy` (JSON values and JavaScript
truthiness), `strings.dfy` (`indexOf`, `includes`, `endsWith`,
`String.prototype.replace`), `schema.dfy`, `api.dfy`, `storage.dfy`, `ws.dfy`,
`routes.dfy`, `codedisplay.dfy`.

State is modelled the way the code holds it:

- `Storage.FileStorage` is a class. Its `pairingCodes` map and `sessionFiles`
  directory are fields that its methods reassign.
- `Ws.Registry` holds a map to `Ws.Connection` objects. Each connection has a
  ready state and an outbox: the messages `send` put on the wire.
- `Routes.Server` is the composition root that owns one storage and one
  registry.

Time is an integer number of milliseconds passed in as `now`. The pairing
fetch handler reads the clock twice: once inside `getPairingCode` and once to
compute `expiresInSeconds`. The model takes both readings as parameters.

The endpoint table `api` of shared/routes.ts:9-65 is a set of constants in
`api.dfy` (`Api.PairingRelay`, `Api.PairingGet`, `Api.SessionUpload`,
`Api.SessionGet`, `Api.SessionDelete`, `Api.SessionList`), each a method and a
path. The properties of the two paths with a `:botId` placeholder are
`Api.PairingUrl` and `Api.SessionUrl`.

At these points the model follows what the code does:

- Closing a socket deletes the registry entry of its bot without checking
  that the closing socket is the registered one. So a stale close drops a
  newer connection (`Ws.StaleCloseScenario`).
- A pairing code is still returned when `now == expiresAt`. Reads evict only
  when `now > expiresAt`, and the sweep removes only entries with
  `expiresAt < now`.
- `expiresAt` is `now + expiresIn * 1000`: the TTL arrives in seconds and
  timestamps are in milliseconds.
- `saveSession` itself overwrites. The create-only rule is the upload
  handler's check, which tests the stored value's JavaScript truthiness.
- The route-level delete answers 404 for an absent session. The store-level
  delete is an idempotent no-op.

## Model

| member | source | states |
|---|---|---|
| Strings.IndexFrom | shared/routes.ts:71 | the result is the least occurrence of the pattern at or after the start index, or none exists there |
| Strings.IndexOf | shared/routes.ts:71 | `indexOf` returns i exactly when i is the first occurrence |
| Strings.Includes | shared/routes.ts:71 | `includes` holds exactly when the pattern occurs somewhere |
| Strings.EndsWith | server/storage.ts:116 | defines `endsWith`: the suffix fits and the last characters of the string are the suffix |
| Strings.EndsWithSplit | server/storage.ts:116 | `endsWith` holds exactly when the string is some text followed by the suffix, which is what the `.json` filter relies on |
| Strings.Substitution | shared/routes.ts:72 | defines GetSubstitution for a string pattern: `$$`, `$&`, `` $` `` and `$'` expanded, every other character copied |
| Strings.JsReplace | shared/routes.ts:72 | `replace`: unchanged when the pattern is absent; otherwise the text before and after the first occurrence is kept |
| Strings.ReplaceFirst | shared/routes.ts:72 | literal replacement: text before the first occurrence kept, the replacement inserted, text after it kept; unchanged if absent |
| Strings.SubstitutionWithoutDollar | shared/routes.ts:72 | a replacement string without `$` is inserted verbatim by GetSubstitution |
| Strings.JsReplaceWithoutDollar | server/storage.ts:117 | `s.replace(pat, rep)` with no `$` in `rep` is the literal first-occurrence replacement |
| Strings.FirstOccurrenceAfter | server/storage.ts:117 | the first occurrence of a pattern after a prefix lacking its first character is right after that prefix |
| Schema.ParsePairingCodeRequest | shared/schema.ts:4-8 | an accepted body has a non-empty botId, a non-empty pairingCode and a positive expiresIn, read from the body's own fields |
| Schema.ParseSessionRequest | shared/schema.ts:11-14 | an accepted body has a non-empty botId and a record `auth`, read from the body's own fields |
| Schema.ParsePairingCodeBody | shared/schema.ts:4-8 | a relay body is accepted exactly when its request is valid, and parses back to that request |
| Schema.ParseSessionBody | shared/schema.ts:11-14 | an upload body is accepted exactly when its request is valid, and parses back to that request |
| Api.NatString | shared/routes.ts:72 | `String(n)` of a number is a non-empty string of decimal digits |
| Api.ValueString | shared/routes.ts:72 | a string value is used as is; a number value never contains `$` |
| Api.Step | shared/routes.ts:71-72 | absent placeholder: url unchanged; present: only its first occurrence is replaced by the value, everything else preserved |
| Api.Substituted | shared/routes.ts:70-74 | defines the intended result: the steps applied in entry order, each to the result of the earlier ones |
| Api.StepAsWritten | shared/routes.ts:71-72 | defines one step as written: `replace` with the value as a replacement string, only when the placeholder occurs |
| Api.SubstitutedAsWritten | shared/routes.ts:70-74 | defines the loop as written: the steps as written applied in entry order |
| Api.BuildUrl | shared/routes.ts:67-77 | no params: the path unchanged; otherwise the params applied in order, each seeing the earlier ones, as the code writes the replacement |
| Api.SubstitutedAppend | shared/routes.ts:70-74 | applying ps then qs equals applying ps + qs, so each replacement sees the result of the earlier ones |
| Api.AsWrittenWithoutDollar | shared/routes.ts:70-74 | when no value contains `$`, the code as written yields the intended literal substitution |
| Api.PlaceholderAtEnd | shared/routes.ts:72 | a path ending in `:key` after a colon-free prefix becomes the prefix followed by the value |
| Api.SessionUrl | shared/routes.ts:43 | the session URL of bot b is `/api/session/` + b, and also as written when b has no `$` |
| Api.PairingUrl | shared/routes.ts:21 | the pairing URL of bot b is `/api/pair/` + b |
| Api.DollarPatternExpanded | shared/routes.ts:72 | with botId `$&` the code as written keeps `:botId` in the URL, while the intended result is `/api/session/$&` |
| Storage.NewEntry | server/storage.ts:56-60 | the stored entry carries the relayed code, and a positive TTL puts its expiry at least one second after now |
| Storage.Live | server/storage.ts:67 | defines when a read returns an entry: the clock has not passed its expiry |
| Storage.Unexpired | server/storage.ts:43-50 | the sweep at now keeps exactly the entries with expiresAt >= now, with their values unchanged |
| Storage.SweepKeepsLive | server/storage.ts:46 | the sweep keeps an entry exactly when a read at the same time would still return it |
| Storage.SweepLater | server/storage.ts:43-50 | sweeping at t1 and then at a later t2 is the same as sweeping at t2 |
| Storage.Sanitize | server/storage.ts:79 | the key holds only `[A-Za-z0-9_-]` and is no longer than the identity |
| Storage.SanitizeConcat | server/storage.ts:79 | sanitising distributes over concatenation, so the kept characters stay in their original order |
| Storage.SanitizeChar | server/storage.ts:79 | a single character is kept exactly when it is in `[A-Za-z0-9_-]` |
| Storage.SanitizeFixed | server/storage.ts:79 | a string is left unchanged exactly when all its characters are safe |
| Storage.SanitizeIdempotent | server/storage.ts:79 | sanitising twice is sanitising once |
| Storage.SanitizeDrops | server/storage.ts:79 | one unsafe character between safe texts is removed |
| Storage.SanitizeAliases | server/storage.ts:79 | `bot#1` and `bot!1` alias to the same key `bot1` |
| Storage.SessionFileName | server/storage.ts:77-81 | every session file name ends in `.json` |
| Storage.RemoveFirstJson | server/storage.ts:117 | `f.replace(".json", "")`: the first `.json` is removed and the rest kept; a name without one is unchanged |
| Storage.StoredNames | server/storage.ts:112-121 | defines the listed names of a directory: the `.json` file names with their first `.json` removed |
| Storage.RemoveJsonOfSessionFileName | server/storage.ts:117 | removing the first `.json` from a bot's session file name gives the sanitised identity |
| Storage.SessionNames | server/storage.ts:115-117 | filtering and mapping the listing yields at most one name per entry |
| Storage.SessionNamesMembers | server/storage.ts:115-117 | a name is listed exactly when some entry ending in `.json` gives it once its first `.json` is removed |
| Storage.SessionFileNameShape | server/storage.ts:79-80 | the names of shape safe characters + `.json` are exactly the session file names |
| Storage.StoredNamesOfSessionDirectory | server/storage.ts:112-121 | in a directory written only by saveSession, a key is listed exactly when that bot's file exists |
| Storage.StoredNamesAreSafe | server/storage.ts:112-121 | every listed name of such a directory is a sanitised key whose file is present |
| Storage.FileStorage.constructor | server/storage.ts:39-41 | the pairing cache starts empty; the directory is as found on disk |
| Storage.FileStorage.SweepExpired | server/storage.ts:43-50 | the cache becomes exactly its entries with expiresAt >= now; the sessions are untouched |
| Storage.FileStorage.StorePairingCode | server/storage.ts:55-61 | the bot's entry becomes exactly code and now + expiresIn*1000, replacing any earlier entry live or not; other bots unchanged |
| Storage.FileStorage.GetPairingCode | server/storage.ts:63-73 | no entry: absent, cache unchanged; now > expiresAt: absent and only that entry evicted; otherwise the entry, cache unchanged |
| Storage.FileStorage.SaveSession | server/storage.ts:83-86 | the bot's file is set to the blob, overwriting any earlier one; nothing else changes |
| Storage.FileStorage.GetSession | server/storage.ts:88-99 | the blob of the bot's file verbatim, or absent when there is no file |
| Storage.FileStorage.DeleteSession | server/storage.ts:101-110 | the bot's file is removed if present; an absent file leaves the directory as it is |
| Storage.FileStorage.ReadDirectory | server/storage.ts:114 | the listing holds every file name of the directory exactly once |
| Storage.FileStorage.ListSessions | server/storage.ts:112-121 | the names are exactly the names of the directory's `.json` files with their first `.json` removed |
| Storage.SaveThenGet | server/storage.ts:83-99 | after a save, a read with any identity of the same sanitised key returns the saved blob |
| Storage.DeleteIdempotent | server/storage.ts:101-110 | deleting twice equals deleting once; deleting an absent session changes nothing |
| Storage.SessionDirectoryPreserved | server/storage.ts:83-110 | saving and deleting keep a directory in which every file was written by saveSession |
| Ws.Registry.Handle | server/ws.ts:40 | the frame is non-empty exactly when a socket is registered for the bot |
| Ws.Connection.constructor | server/ws.ts:10-13 | a new socket is open, has sent nothing and remembers its botId query parameter |
| Ws.Registry.constructor | server/ws.ts:5 | the registry starts empty |
| Ws.Registry.OnConnection | server/ws.ts:15-17 | with a non-empty botId the entry becomes the new socket, replacing any earlier one, others unchanged; without one the registry is unchanged |
| Ws.Registry.OnClose | server/ws.ts:19-21 | the socket is closed and its bot's entry is deleted whatever socket is registered now |
| Ws.Registry.NotifyBot | server/ws.ts:39-46 | returns true exactly when a socket is registered and OPEN, then appends exactly one `{type, payload}` to its outbox; never changes the registry map |
| Ws.StaleCloseScenario | server/ws.ts:15-21 | after a reconnect, the old socket's close unregisters the bot and a notification to its open new socket is not delivered |
| Ws.DeliveryScenario | server/ws.ts:39-46 | an open registered socket receives exactly the one message sent; once it is CLOSING, notify returns false and its outbox stays that one message |
| Routes.ExpiresInSeconds | server/routes.ts:47-48 | the whole seconds left rounded down: r*1000 <= expiresAt-now < r*1000+1000, and 0 once past expiry |
| Routes.Server.constructor | server/routes.ts:8-14 | a server over an empty pairing cache, the directory on disk and an empty registry |
| Routes.Server.RelayPairingCode | server/routes.ts:19-35 | invalid input answers 400 and leaves the cache unchanged; valid input stores the code and answers 200 |
| Routes.Server.GetPairingCode | server/routes.ts:38-55 | absent or expired answers 404, expired evicted; otherwise code, expiresAt and the seconds left at the second clock reading |
| Routes.Server.UploadSession | server/routes.ts:60-87 | invalid answers 400; an existing session answers 409 with the blob unchanged and nothing sent; otherwise the blob is saved, session_saved is sent if the socket is open, and the reply is 200 either way; the registry and every socket's state are unchanged |
| Routes.Server.RestoreSession | server/routes.ts:90-100 | the stored value verbatim with 200 when it is truthy; otherwise, or when there is no file, 404 |
| Routes.Server.DeleteSession | server/routes.ts:103-118 | no session: 404, nothing changed, nothing sent; otherwise removed, session_deleted `{action:"reset"}` sent if open, 200; the registry and the socket's state are unchanged |
| Routes.Server.ListSessions | server/routes.ts:121-124 | 200 with exactly the names of the stored sessions |
| Routes.HasSessionOfRecords | server/routes.ts:68-69 | when every stored value is a record, the conflict check is exactly the existence of the bot's file |
| Routes.UploadKeepsRecords | server/routes.ts:62-74 | an accepted upload keeps every stored value a record |
| Routes.SessionLifecycleScenario | server/routes.ts:60-118 | upload succeeds, a second upload is 409, delete succeeds, upload succeeds again and restore returns the latest blob |
| Routes.ListScenario | server/routes.ts:121-124 | after saving b1 and b2 and deleting b1 the list is exactly b2 |
| Routes.PairingScenario | server/routes.ts:19-55 | a code relayed for 30 s is served at T+30000 with expiresAt T+30000, and is not found at T+31000 |
| Json.RecordIsTruthy | server/routes.ts:69 | a record blob is truthy for `if (existing)` |
| Json.Truthy | server/routes.ts:69 | defines JavaScript truthiness of a parsed value: null, false, 0 and the empty string are falsy, everything else truthy |
| Routes.HasSession | server/routes.ts:68-69 | defines the conflict, restore and delete test: the bot's file exists and its value is truthy |
| Schema.ValidPairingCodeRequest | shared/schema.ts:4-8 | defines the relay schema: non-empty botId and pairingCode, positive expiresIn |
| Schema.ValidSessionRequest | shared/schema.ts:11-14 | defines the upload schema: non-empty botId, record auth |
| Ws.IsBotId | server/ws.ts:13-15 | defines `if (botId)` on the query parameter: present and non-empty |
| CodeDisplay.RunLength | client/src/components/CodeDisplay.tsx:19 | the run `.{1,3}` matches: at most three characters, no line terminator, stopping only at a terminator or the limit |
| CodeDisplay.Groups | client/src/components/CodeDisplay.tsx:19 | defines the matches of `/.{1,3}/g`: greedy runs of one to three non-terminator characters, left to right |
| CodeDisplay.Join | client/src/components/CodeDisplay.tsx:19 | defines `join`: the parts with the separator between neighbours |
| CodeDisplay.FormatCode | client/src/components/CodeDisplay.tsx:19 | defines `formattedCode`: the groups joined by `-`, or the code itself when there is no match |
| CodeDisplay.GroupsSizes | client/src/components/CodeDisplay.tsx:19 | every match holds one to three characters, none of them a line terminator |
| CodeDisplay.GroupsCover | client/src/components/CodeDisplay.tsx:19 | the matches concatenated are the code with its line terminators removed |
| CodeDisplay.GroupsOfThree | client/src/components/CodeDisplay.tsx:19 | for a code without line terminators, every group but the last has exactly three characters, the groups concatenate back to the code, and only the empty code has no groups |
| CodeDisplay.FormatEmpty | client/src/components/CodeDisplay.tsx:19 | the empty code formats to the empty string |
| CodeDisplay.FormatTwoGroups | client/src/components/CodeDisplay.tsx:19 | a six-character code is shown as its two halves joined by `-` |
| CodeDisplay.Digits | client/src/components/CodeDisplay.tsx:20 | one single-character string per character of the code, in order |
| CodeDisplay.DigitsConcat | client/src/components/CodeDisplay.tsx:20 | the digits put back together are the code |
| CodeDisplay.TimeLeft | client/src/components/CodeDisplay.tsx:25 | the seconds left are >= 0 and rounded up; they are 0 exactly when now >= expiresAt |
| CodeDisplay.ProgressColor | client/src/components/CodeDisplay.tsx:48 | defines the colour: red below 10 s, amber below 30 s, primary otherwise |
| CodeDisplay.ShowsExpired | client/src/components/CodeDisplay.tsx:50 | defines the expired view: no whole second left |
| CodeDisplay.ColorByRemaining | client/src/components/CodeDisplay.tsx:48 | red up to 9000 ms left (below 10 s), amber up to 29000 ms (10 to 29 s), primary beyond (30 s up) |
| CodeDisplay.ExpiredViewFromExpiry | client/src/components/CodeDisplay.tsx:50 | for a clock reading taken by `updateTime`, the expired view is chosen exactly when the reading is at or past the expiry |

## Findings

| source | as written | input that shows it | evidently intended | confidence | as-written member | corrected member |
|---|---|---|---|---|---|---|
| shared/routes.ts:72 | `url.replace(":" + key, String(value))` passes the value as a replacement string, so `$&`, `$$`, `` $` `` and `$'` in it are expanded | `buildUrl("/api/session/:botId", {botId: "$&"})` gives `/api/session/:botId` | the value inserted literally, giving `/api/session/$&` | not executed; follows ECMAScript GetSubstitution | Api.DollarPatternExpanded | Api.Step |

`Api.BuildUrl` models the loop as written, through `Api.SubstitutedAsWritten`.
`Api.Step` and `Api.Substituted` are the intended literal substitution, and
the properties of `buildUrl` are proved about them. `Api.AsWrittenWithoutDollar`
shows that the two agree whenever no value contains `$`. Number values never
contain `$`.

## Left out

- Filesystem I/O: `fs.writeFile`, `readFile`, `unlink`, `readdir`, `ensureSessionsDir` and `path.join`. The sessions directory is a map from file name to value. JSON serialisation and parsing are the identity on that value.
- Storage errors other than a missing file. Only the relay and upload handlers catch them and answer 500 (server/routes.ts:28-34, 80-86); in the other handlers such an error is an unhandled rejection. `listSessions` answers `[]` when the directory cannot be read. The model's storage cannot fail.
- `setInterval` and `Date.now()`. The sweep is an ordinary method and clock readings are parameters.
- The WebSocket transport: the server itself, URL and query parsing, ping/pong, the message handler and the bytes `send` writes. A sent message is appended to the socket's outbox, and the transport's state changes are the `state` field.
- Express request and response plumbing, zod internals and `console.log`. A reply is a status and a body datatype. Route parameters arrive as already-decoded strings.
- Concurrency between requests and the sweep. The code takes no locks, and the model is sequential.
- Floating point: JSON numbers, `expiresIn` and timestamps are integers, and the `progress` percentage of the display is not modelled.
- The UI rendering, animation and clipboard code of the display, the other pages and components, and the react-query hooks.
- Storage.FileStorage.ListSessions: states the set of names and a length bound, not their order, because `readdir` returns entries in the file system's order.
- Api.BuildUrl: takes the parameters in the order `Object.entries` yields them. JavaScript's ordering of integer-like keys before other keys is not modelled.
- CodeDisplay.Digits: treats a character as one element, whereas `split("")` splits UTF-16 code units, so a character outside the Basic Multilingual Plane would give two elements there.
- CodeDisplay.Groups: a character is one Unicode scalar value, whereas `.` in a regular expression without the `u` flag matches one UTF-16 code unit. So `😀12` is one group `😀12` in the model but `😀1-2` in the browser. The same holds for CodeDisplay.FormatCode and the lemmas about both (GroupsSizes, GroupsCover, GroupsOfThree, FormatTwoGroups).
- Api.NatString: writes every number in plain decimal digits, whereas `String(n)` switches to exponent form for magnitudes of 1e21 and more. The client passes only strings to `buildUrl` (client/src/hooks/use-pairing.ts:14, 49).
- CodeDisplay.ExpiredViewFromExpiry: is about the helpers on one clock reading. The component starts with `timeLeft = 0` (client/src/components/CodeDisplay.tsx:14), so its first render shows the expired view before `updateTime` runs.
