# Backend.AI client: a verified model of its core

This project models the core of the Backend.AI Python client SDK and command-line tool in Dafny. It covers these parts:

- **The development API proxy** (`cli/proxy.py`):
  - the `^/?v(\d+)/` path rewrite and the routing table;
  - the HTTP relay, with its 8192-byte read loop and forced `Access-Control-Allow-Origin: *`;
  - the exception-to-response mapping (passed through, 502, 503, 500);
  - the `WebSocketProxy`, whose two pumps, FIFO upstream buffer and drain task are modelled as a state machine over finite message schedules.
- **The legacy request builder** (`sorna/request.py`):
  - path normalisation and the default header order;
  - the cached `content` property and its setter;
  - the version-prefixed relative URL of `build_url`;
  - the allowed-methods check and the `Response` accessors.
- **Sessions** (`session.py`):
  - API version negotiation;
  - the `is_legacy_server` comparison;
  - the close/enter/exit life cycle of `Session` and `AsyncSession`.
- **Keypair GraphQL calls** (`func/keypair.py`): query templating with `$fields` substitution, the `Int!`/`String!` type token, and the variables of every call.
- **The virtual-folder name check** (`ai/backend/client/vfolder.py`): the `_rx_slug` pattern, including Python's `$` before a final newline, its use in `_create` and `__init__`, and `_delete`'s status test.
- **CLI aliases** (`cli/__init__.py`): the `AliasGroup` tables, `get_command`, the help listing of `format_commands`, and the `sys.argv` rewriting of `run_alias`.
- **Pretty printing** (`cli/pretty.py`): `italic`, `format_pretty`, the piece sequence of `format_error`, and the writes of `print_pretty`/`print_error` to an output file.

## How the model is built

Shared modules:

- `Common` holds `Option`, `Outcome` (a value or a raised Python exception) and the Python exception kinds.
- `Strings` holds join, decimal rendering, lexicographic order, sorting and `str.replace`.
- `Values` holds a JSON-like value with Python truthiness and dictionary lookup.

Pure code in the source (keypair queries, the slug pattern, `format_error`, version negotiation) becomes datatypes, functions and lemmas. State the source changes in place becomes classes with `modifies` clauses. Examples:

- the proxy's socket pair and upstream buffer;
- the request's header table and content cache;
- the session's closed flag and work queue;
- the alias tables;
- `sys.argv`;
- an output file.

Loops of the source become `while` loops with invariants: the relay read loop, the drain task, both pumps, the scheduler, alias registration and the help rows.

Calls into libraries become function parameters. These cover `json.dumps`, `urljoin`, `yarl`'s `/`, `click.style`, `textwrap.indent`, `str()` of a value, click's short help, and the list of sub-commands. Network and clock inputs become plain parameters: the probe outcome, upstream responses, message schedules and the current date.

## Model

| member | source | states |
|---|---|---|
| ProxyRoutes.MatchSound | src/ai/backend/client/cli/proxy.py:103 | a prefix the matcher finds is an optional '/', 'v', one or more digits and '/' |
| ProxyRoutes.MatchComplete | src/ai/backend/client/cli/proxy.py:103 | any such prefix of the path is the one the matcher finds |
| ProxyRoutes.DigitRunEnd | src/ai/backend/client/cli/proxy.py:103 | the greedy `\d+` run ends at the first non-digit |
| ProxyRoutes.DigitRunEndIs | src/ai/backend/client/cli/proxy.py:103 | the end of the digit run is determined by the first non-digit after digits |
| ProxyRoutes.RewritePath | src/ai/backend/client/cli/proxy.py:103 | a path without a version prefix is kept; a prefixed one becomes '/' and a suffix of the path, at least two characters shorter |
| ProxyRoutes.RewriteStripsPrefix | src/ai/backend/client/cli/proxy.py:103 | a path with a version prefix becomes '/' followed by the rest of the path |
| ProxyRoutes.RewriteKeepsOtherPaths | src/ai/backend/client/cli/proxy.py:103 | a path with no version prefix is unchanged |
| ProxyRoutes.RewriteOnlyOnce | src/ai/backend/client/cli/proxy.py:103 | "/v6/v7/x" becomes "/v7/x": only the first prefix is replaced |
| ProxyRoutes.RewriteNeedsDigitsAndSlash | src/ai/backend/client/cli/proxy.py:103 | "/v/x" and "/v6" are unchanged |
| ProxyRoutes.Route | src/ai/backend/client/cli/proxy.py:198-200 | the WebSocket handler serves exactly GET on /stream/… and /wsproxy/…; everything else goes to the HTTP handler |
| ProxyRoutes.WebSocketPathsAreNotRewritten | src/ai/backend/client/cli/proxy.py:152 | the version rewrite leaves a /stream/ or /wsproxy/ path as it is |
| ProxyHttp.Without | src/ai/backend/client/cli/proxy.py:121 | removing a header removes every case-insensitive match and nothing is added |
| ProxyHttp.SameNameReflexive | src/ai/backend/client/cli/proxy.py:121 | header names match themselves case-insensitively |
| ProxyHttp.SetHeader | src/ai/backend/client/cli/proxy.py:121 | the new header is present, and the table grows by at most one entry |
| ProxyHttp.WithoutNamed | src/ai/backend/client/cli/proxy.py:121 | after removal no header of that name is left, and removing twice is removing once |
| ProxyHttp.SetHeaderSpec | src/ai/backend/client/cli/proxy.py:120-121 | after the item assignment the name has exactly one entry, with the new value, and every other header is kept |
| ProxyHttp.CopiedHeaders | src/ai/backend/client/cli/proxy.py:110-114 | Content-Type and Content-Length are copied verbatim, each only when present, and nothing else is copied |
| ProxyHttp.BuildApiRequest | src/ai/backend/client/cli/proxy.py:103-114 | the API request keeps the method and query, carries the rewritten path and copies the two raw headers |
| ProxyHttp.ReadStep | src/ai/backend/client/cli/proxy.py:124-126 | one `aread(8192)` returns at most 8192 bytes of the body and leaves the rest pending, or returns the empty end-of-body marker and consumes it |
| ProxyHttp.BodyIgnoresAfterEof | src/ai/backend/client/cli/proxy.py:123-127 | whatever follows the first empty chunk never becomes part of the relayed body |
| ProxyHttp.ChunkReader.ARead | src/ai/backend/client/cli/proxy.py:124 | the reader hands out the next read and keeps the rest |
| ProxyHttp.ChunkReader.constructor | src/ai/backend/client/cli/proxy.py:117 | the reader starts with every upstream segment pending |
| ProxyHttp.UpstreamResponse.constructor | src/ai/backend/client/cli/proxy.py:117 | the upstream response carries its status, reason, headers and body, and is not yet released |
| ProxyHttp.UpstreamResponse.Release | src/ai/backend/client/cli/proxy.py:117-147 | leaving the `async with` block marks the upstream response released |
| ProxyHttp.StreamResponse.constructor | src/ai/backend/client/cli/proxy.py:118 | a new stream response is 200 OK with no headers and no body |
| ProxyHttp.CopyBody | src/ai/backend/client/cli/proxy.py:123-127 | the chunks written are, in order, the whole body before the first empty read; each is 1..8192 bytes; exactly what follows the empty read stays unread |
| ProxyHttp.Relay | src/ai/backend/client/cli/proxy.py:117-128 | the response has the upstream status and reason, the upstream headers with Access-Control-Allow-Origin set to '*', and the upstream body |
| ProxyHttp.ErrorReply | src/ai/backend/client/cli/proxy.py:129-147 | API errors pass their status, reason and data through; client errors give 502 Bad Gateway, cancellation 503 Service Unavailable, anything else 500 Internal Server Error, each of the three with its fixed text body |
| ProxyHttp.ErrorReplyHidesDetails | src/ai/backend/client/cli/proxy.py:142-147 | two unexpected faults get the same reply |
| ProxyHttp.WebHandler | src/ai/backend/client/cli/proxy.py:101-147 | the handler sends the built API request; a failed fetch becomes the mapped error reply, a successful one the relayed stream, and a fetched response is released when the `async with` block is left |
| WebSocketBridge.FrameOf | src/ai/backend/client/cli/proxy.py:57-60 | a data message keeps its payload, and its frame is text exactly for a TEXT message |
| WebSocketBridge.PumpedIgnoresAfterStop | src/ai/backend/client/cli/proxy.py:35-43 | nothing after a stopping message is ever pumped |
| WebSocketBridge.PumpedKeepsAllData | src/ai/backend/client/cli/proxy.py:35-37 | a run of data messages is pumped in full, in order, as their frames |
| WebSocketBridge.PumpedFromStep | src/ai/backend/client/cli/proxy.py:35-43 | each received message either stops the pump or adds its frame when it is data |
| WebSocketBridge.ClientFramesStep | src/ai/backend/client/cli/proxy.py:35-43 | the client pump's effect, one schedule event at a time |
| WebSocketBridge.ServerFramesStep | src/ai/backend/client/cli/proxy.py:56-64 | the server pump's effect, one schedule event at a time |
| WebSocketBridge.ServerFramesPrefix | src/ai/backend/client/cli/proxy.py:56-64 | what the server pump has forwarded so far is a prefix of what it would forward in full |
| WebSocketBridge.DeliveredOrQueued | src/ai/backend/client/cli/proxy.py:74-87 | every enqueued frame is either already delivered upstream or still queued |
| WebSocketBridge.ClientFramesOfMessages | src/ai/backend/client/cli/proxy.py:35-37 | a schedule of client data messages queues exactly their frames |
| WebSocketBridge.ClientFramesSkipOthers | src/ai/backend/client/cli/proxy.py:35-43 | server-side events do not change what the client pump queues |
| WebSocketBridge.WebSocket.constructor | src/ai/backend/client/cli/proxy.py:22-25 | a socket starts with the given state and sent frames |
| WebSocketBridge.WebSocket.Send | src/ai/backend/client/cli/proxy.py:58-60 | a frame is sent (`send_str`/`send_bytes`) only while the socket is open |
| WebSocketBridge.WebSocket.Close | src/ai/backend/client/cli/proxy.py:91 | closing keeps what was sent |
| WebSocketBridge.WebSocketProxy.constructor | src/ai/backend/client/cli/proxy.py:22-27 | the proxy starts with an empty buffer and no drain task |
| WebSocketBridge.WebSocketProxy.Send | src/ai/backend/client/cli/proxy.py:86-87 | `send` appends (payload, kind) to the end of the upstream buffer |
| WebSocketBridge.WebSocketProxy.ConsumeOne | src/ai/backend/client/cli/proxy.py:77-82 | the drain task takes the head of the buffer and sends it upstream only while the upstream socket is open; otherwise the frame is discarded |
| WebSocketBridge.WebSocketProxy.ConsumeUpstreamBuffer | src/ai/backend/client/cli/proxy.py:74-84 | a running drain task empties the buffer in FIFO order, delivering all of it when the upstream socket is open and none of it otherwise |
| WebSocketBridge.WebSocketProxy.CloseDownstream | src/ai/backend/client/cli/proxy.py:89-91 | after the helper the downstream socket is closed and its sent frames are unchanged |
| WebSocketBridge.WebSocketProxy.CloseUpstream | src/ai/backend/client/cli/proxy.py:93-98 | after the helper the drain task is finished and the upstream socket is closed |
| WebSocketBridge.WebSocketProxy.UpstreamReceive | src/ai/backend/client/cli/proxy.py:35-43 | a client message enqueues its frame if it is data; ERROR and CLOSE stop the pump |
| WebSocketBridge.WebSocketProxy.UpstreamFinish | src/ai/backend/client/cli/proxy.py:44-49 | the client pump ends by closing the downstream socket |
| WebSocketBridge.WebSocketProxy.Upstream | src/ai/backend/client/cli/proxy.py:33-49 | the client pump enqueues exactly the data frames before the first stop, in order, then closes downstream |
| WebSocketBridge.WebSocketProxy.DownstreamStart | src/ai/backend/client/cli/proxy.py:53-55 | the server pump first starts the drain task |
| WebSocketBridge.WebSocketProxy.DownstreamReceive | src/ai/backend/client/cli/proxy.py:56-64 | a server data message is forwarded downstream with its kind; CLOSED and ERROR stop the pump |
| WebSocketBridge.WebSocketProxy.DownstreamFinish | src/ai/backend/client/cli/proxy.py:70-72 | the server pump always ends with close_upstream |
| WebSocketBridge.WebSocketProxy.DownstreamLoop | src/ai/backend/client/cli/proxy.py:56-64 | the server pump forwards exactly the data frames before the first stop, in receipt order |
| WebSocketBridge.WebSocketProxy.Downstream | src/ai/backend/client/cli/proxy.py:51-72 | the whole server pump forwards its frames, then leaves the drain task finished and the upstream socket closed |
| WebSocketBridge.WebSocketProxy.Step | src/ai/backend/client/cli/proxy.py:29-98 | one scheduled event advances exactly one pump or the drain task |
| WebSocketBridge.WebSocketProxy.Proxy | src/ai/backend/client/cli/proxy.py:29-31 | for any interleaving: every client data frame before the stop is queued once; the upstream socket receives a prefix of them, in order; the downstream socket receives a prefix of the server's frames |
| WebSocketBridge.WebSocketHandler | src/ai/backend/client/cli/proxy.py:150-182 | the handler connects with the rewritten path; a failed connection is the mapped error reply; a successful one is bridged, and the upstream connection is closed when the `async with` at line 158 is left |
| LegacyRequest.Keys | sorna/request.py:54-58 | the keys of the ordered header table, in order |
| LegacyRequest.Find | sorna/request.py:74 | a lookup fails exactly for a missing key |
| LegacyRequest.SetItem | sorna/request.py:74 | OrderedDict assignment keeps a key's place, and a new key goes last |
| LegacyRequest.SetItemFind | sorna/request.py:74 | after assignment the key maps to the new value and other keys are unchanged |
| LegacyRequest.SetItemDistinct | sorna/request.py:74 | assignment keeps the keys distinct |
| LegacyRequest.StoredPath | sorna/request.py:49-51 | exactly one leading '/' is removed when present |
| LegacyRequest.StoredPathStripsOnce | sorna/request.py:49-51 | "//x" keeps one slash and "x" is kept as given |
| LegacyRequest.StoredData | sorna/request.py:52 | missing data becomes the empty mapping |
| LegacyRequest.InitialHeaders | sorna/request.py:54-58 | a new request's headers are Content-Type: application/json, Date and X-Sorna-Version, in that order, with no Content-Length |
| LegacyRequest.ContentLengthComesLast | sorna/request.py:54-58 | Content-Length, once set, comes after the three default headers |
| LegacyRequest.MajorVersion | sorna/request.py:89 | the text before the first '.', or all of it |
| LegacyRequest.MajorVersionBeforeDot | sorna/request.py:89 | a version "major.minor" gives its major part |
| LegacyRequest.MajorVersionWithoutDot | sorna/request.py:89 | a version without '.' is kept whole |
| LegacyRequest.RelativeUrl | sorna/request.py:89-91 | the major version, then '/' and the path exactly when the path is non-empty |
| LegacyRequest.RelativeUrlExample | sorna/request.py:89-91 | "v2.20170315" with "kernel/create" gives "v2/kernel/create" |
| LegacyRequest.RelativeUrlEmptyPath | sorna/request.py:90 | an empty path adds nothing after the major version |
| LegacyRequest.Lower | sorna/request.py:105 | `str.lower()` on the method name: ASCII capitals become small letters and other characters are kept |
| LegacyRequest.MethodCheckIsCaseSensitive | sorna/request.py:38-41 | "GET" is allowed and "get" is not |
| LegacyRequest.Request.constructor | sorna/request.py:43-59 | a new request stores the given or default config, the stripped path, the data or an empty mapping, the date and the default headers, with no cached content |
| LegacyRequest.Request.Content | sorna/request.py:61-75 | the first read caches b'' for empty data or the encoded data and sets Content-Length to its decimal length; later reads return the cache and change nothing |
| LegacyRequest.Request.SetContent | sorna/request.py:77-86 | setting bytes while data is non-empty is an AssertionError that changes nothing; otherwise the bytes are cached and Content-Length set; setting None clears the cache and keeps the headers |
| LegacyRequest.Request.BuildUrl | sorna/request.py:88-91 | the URL is the endpoint joined with the relative URL |
| LegacyRequest.Request.Prepare | sorna/request.py:93-109 | a method outside the seven allowed ones is an AssertionError; otherwise the lower-cased verb, the built URL, the JSON of the data and the headers are sent |
| LegacyRequest.NewResponse | sorna/request.py:153-176 | the accessors return the constructor's arguments, with content type 'text/plain' and no content length by default |
| Values.FalsyValues | src/ai/backend/client/cli/pretty.py:109 | Python's `if v:` is false exactly for None, False, 0, 0.0, '' and the empty list and dictionary |
| Values.Get | src/ai/backend/client/cli/pretty.py:108 | `.get(key, None)` finds a value exactly when some entry has the key, and the value is stored under it |
| Strings.NatToStringRoundTrip | sorna/request.py:74 | the decimal text of a length reads back as that length |
| Strings.NatToStringInjective | sorna/request.py:74 | different lengths give different Content-Length values |
| Strings.SortStrings | src/ai/backend/client/cli/__init__.py:68 | `sorted` of the aliases is in order and a permutation of them |
| Strings.ReplaceSkips | src/ai/backend/client/func/keypair.py:42 | `str.replace` leaves a prefix that holds no start of the pattern unchanged |
| Strings.ReplaceHit | src/ai/backend/client/func/keypair.py:42 | an occurrence of the pattern at the front is replaced, and the rest is handled after it |
| Strings.LessIrreflexive | src/ai/backend/client/session.py:31 | Python's string order is irreflexive |
| Strings.LessAsymmetric | src/ai/backend/client/session.py:31 | Python's string order is asymmetric |
| Strings.LessTransitive | src/ai/backend/client/session.py:31 | Python's string order is transitive |
| Strings.LessTotal | src/ai/backend/client/session.py:31 | any two different strings are ordered |
| Sessions.VersionLessIrreflexive | src/ai/backend/client/session.py:54 | the tuple order on versions is irreflexive |
| Sessions.VersionLessTransitive | src/ai/backend/client/session.py:54 | the tuple order on versions is transitive |
| Sessions.VersionLessAsymmetric | src/ai/backend/client/session.py:54 | the tuple order on versions is asymmetric |
| Sessions.VersionLessTotal | src/ai/backend/client/session.py:54 | any two distinct versions are ordered |
| Sessions.Min | src/ai/backend/client/session.py:60 | `min` returns one of its arguments, and it is at or below both |
| Sessions.MinSymmetric | src/ai/backend/client/session.py:60 | the order of the arguments does not matter |
| Sessions.Negotiate | src/ai/backend/client/session.py:35-63 | an answer gives the smaller of the two versions, with a warning exactly when the server is newer; a timeout or client error falls back to the client version; any other error propagates |
| Sessions.NegotiatedNotNewer | src/ai/backend/client/session.py:53-63 | the negotiated version is never newer than the client's or the server's |
| Sessions.WarnedIffDowngraded | src/ai/backend/client/session.py:54-60 | the warning is issued exactly when the server's version is not the one used |
| Sessions.ProbeUrl | src/ai/backend/client/session.py:49 | the probe goes to endpoint / 'func/' exactly for a 'session' endpoint, and to the endpoint itself otherwise |
| Sessions.IsLegacyText | src/ai/backend/client/session.py:31 | 'v4.20181215' itself is legacy; a 'v' text whose major digit is below 4 is legacy, and one whose first digit is 5 to 9 is not |
| Strings.Less | src/ai/backend/client/session.py:31 | Python's `<` on str holds exactly when at the first position where the texts differ the left one has ended or has the smaller code point |
| Strings.LessEq | src/ai/backend/client/session.py:31 | Python's `<=` on str holds exactly for equal texts or when `<` holds |
| Sessions.LegacyTextDownwardClosed | src/ai/backend/client/session.py:31 | under the string comparison, any version text below a legacy one is legacy |
| Sessions.LegacyTextMisordersMajorTen | src/ai/backend/client/session.py:31 | as written, "v10.20200101" counts as legacy and "v5.20191215" does not |
| Sessions.LegacyByMajor | src/ai/backend/client/session.py:26-31 | on parsed versions every major above 4 is not legacy, every major below 4 is, and legacy is closed downwards |
| Sessions.SyncSession.constructor | src/ai/backend/client/session.py:162-174 | a new session is open, with the HTTP-session creation queued and no API version |
| Sessions.SyncSession.Close | src/ai/backend/client/session.py:357-369 | the first close marks the session closed and queues the HTTP-session close, then the sentinel; a later close changes nothing |
| Sessions.SyncSession.Enter | src/ai/backend/client/session.py:379-383 | entering a closed session raises "Cannot reuse closed session"; otherwise negotiation runs on the worker and its version is stored |
| Sessions.SyncSession.Exit | src/ai/backend/client/session.py:385-387 | leaving always closes and never suppresses the exception |
| Sessions.WithSession | src/ai/backend/client/session.py:357-387 | the first `with` reports the negotiation outcome; when negotiation succeeds, the block queues creation, negotiation, close and the sentinel in that order, and a second entry is refused; when `__enter__` raises, `__exit__` is skipped, the session stays open with creation and negotiation queued, and a second `with` negotiates again with the same outcome |
| Sessions.AsyncSession.constructor | src/ai/backend/client/session.py:400-407 | a new async session is open with no API version |
| Sessions.AsyncSession.Close | src/ai/backend/client/session.py:580-584 | close marks the session closed and the HTTP session closed, once |
| Sessions.AsyncSession.Enter | src/ai/backend/client/session.py:586-589 | entering a closed session raises "Cannot reuse closed session"; otherwise the negotiated version is stored |
| Sessions.AsyncSession.Exit | src/ai/backend/client/session.py:591-593 | leaving always closes and returns False |
| KeyPairs.UidType | src/ai/backend/client/func/keypair.py:36 | the type token is 'Int!' exactly for an int user id and 'String!' exactly for any other |
| KeyPairs.Body | src/ai/backend/client/func/keypair.py:52-56 | the JSON body holds the query, and holds the variables exactly when the call has them |
| KeyPairs.ResultOf | src/ai/backend/client/func/keypair.py:57-59 | the result is the entry under the call's key, and a missing key is a KeyError |
| KeyPairs.Create | src/ai/backend/client/func/keypair.py:24-59 | a POST to /admin/graphql answered under 'create_keypair', with two variables |
| KeyPairs.Update | src/ai/backend/client/func/keypair.py:63-93 | a POST of the fixed modify mutation answered under 'modify_keypair', with two variables |
| KeyPairs.Delete | src/ai/backend/client/func/keypair.py:97-116 | a POST answered under 'delete_keypair', with one variable |
| KeyPairs.List | src/ai/backend/client/func/keypair.py:120-158 | a POST answered under 'keypairs', with one variable, or two when a user is given |
| KeyPairs.Info | src/ai/backend/client/func/keypair.py:161-186 | a POST answered under 'keypair', without variables |
| KeyPairs.Activate | src/ai/backend/client/func/keypair.py:190-216 | a POST of the modify mutation answered under 'modify_keypair', with two variables |
| KeyPairs.Deactivate | src/ai/backend/client/func/keypair.py:220-248 | a POST of the modify mutation answered under 'modify_keypair', with two variables |
| Strings.ReplaceAll | src/ai/backend/client/func/keypair.py:42 | `str.replace`: replacing a pattern by itself changes nothing, and a same-length replacement keeps the length; what it keeps of the text before the first match is stated by `Strings.ReplaceSkips` |
| KeyPairs.FillFields | src/ai/backend/client/func/keypair.py:42 | field names whose joined text is '$fields' leave the template unchanged, and a joined text as long as '$fields' keeps the template's length; for a template with one '$fields' the result is `KeyPairs.FillReplacesPlaceholder` |
| KeyPairs.FillReplacesPlaceholder | src/ai/backend/client/func/keypair.py:42 | in a template with a single '$fields', the placeholder is replaced by the field names joined with single spaces, and nothing else changes |
| KeyPairs.CreateHeadHasNoMarker | src/ai/backend/client/func/keypair.py:37-39 | the create template holds no other '$fields' before the placeholder |
| KeyPairs.ListHeadHasNoMarker | src/ai/backend/client/func/keypair.py:132-144 | neither list template holds another '$fields' before the placeholder |
| KeyPairs.InfoHeadHasNoMarker | src/ai/backend/client/func/keypair.py:174-176 | the info template holds no other '$fields' before the placeholder |
| KeyPairs.DefaultCreateFieldsText | src/ai/backend/client/func/keypair.py:34-35 | create's default fields are "access_key secret_key" |
| KeyPairs.DefaultListFieldsText | src/ai/backend/client/func/keypair.py:127-131 | list's default fields are access_key, secret_key, is_active and is_admin |
| KeyPairs.CreateQuery | src/ai/backend/client/func/keypair.py:34-42 | create is a POST to /admin/graphql whose query is its template with the given or default fields filled in |
| KeyPairs.CreateDeclaresUserIdType | src/ai/backend/client/func/keypair.py:36-37 | the mutation declares `$user_id: Int!` exactly for an int user id |
| KeyPairs.CreateVariables | src/ai/backend/client/func/keypair.py:43-51 | create's variables carry the user id at the top and the four inputs verbatim under 'input' |
| KeyPairs.ListEmailIffUser | src/ai/backend/client/func/keypair.py:132-150 | the query declares `$email` and the variables hold 'email' exactly when a user id is given; 'is_active' is always there |
| KeyPairs.ListQuery | src/ai/backend/client/func/keypair.py:127-145 | list's query is the chosen template with the given or default fields filled in, under the result key 'keypairs' |
| KeyPairs.InfoQuery | src/ai/backend/client/func/keypair.py:169-186 | info sends no variables, and its query does not depend on the keypair's access key |
| KeyPairs.ActivateIsUpdate | src/ai/backend/client/func/keypair.py:195-207 | activate is update with is_active True and the other three inputs None |
| KeyPairs.DeactivateIsUpdate | src/ai/backend/client/func/keypair.py:227-239 | deactivate is update with is_active False and the other three inputs None |
| KeyPairs.UpdateVariables | src/ai/backend/client/func/keypair.py:72-85 | update names the access key first and passes the four options under 'input', each as given or null for None |
| KeyPairs.DeleteVariables | src/ai/backend/client/func/keypair.py:101-116 | delete sends only the access key and reads 'delete_keypair' |
| VFolders.SlugRunEnd | ai/backend/client/vfolder.py:19 | the greedy `[a-zA-Z0-9._-]*` run ends at the first other character |
| VFolders.SearchSlugCorrect | ai/backend/client/vfolder.py:19 | the matcher accepts exactly a slug, or a slug followed by one final newline |
| VFolders.AcceptedShape | ai/backend/client/vfolder.py:19 | an accepted name, less an optional final newline, starts and ends with a letter or digit and holds only slug characters |
| VFolders.NewlineEdge | ai/backend/client/vfolder.py:19 | a slug with one trailing newline is accepted and with two is not; a single letter or digit is accepted |
| VFolders.RejectedNames | ai/backend/client/vfolder.py:19 | "", "-a", "a-" and "a b" are refused; "a", "a.b_c-d" and "a\n" are accepted |
| VFolders.Create | ai/backend/client/vfolder.py:24-29 | a refused name raises AssertionError before any request; an accepted one gives POST /folders/ with the name |
| VFolders.New | ai/backend/client/vfolder.py:130-133 | a refused name raises before the name is stored; an accepted one gives a folder with that name and config |
| VFolders.DeleteRequest | ai/backend/client/vfolder.py:47-48 | `_delete` sends DELETE to /folders/ followed by the folder's name, with no data |
| VFolders.DeleteResult | ai/backend/client/vfolder.py:46-50 | the body is returned exactly on status 200, and None otherwise |
| VFolders.NewFoldersHaveAcceptedNames | ai/backend/client/vfolder.py:130-133 | every folder object that exists has an accepted name, so creating it would be allowed too |
| Cli.WithAliases | src/ai/backend/client/cli/__init__.py:31-32 | every alias maps to the command, and every other entry is kept |
| Cli.AliasGroup.constructor | src/ai/backend/client/cli/__init__.py:16-19 | a new group has empty command, alias and registry tables |
| Cli.AliasGroup.Register | src/ai/backend/client/cli/__init__.py:27-33 | the command is registered; with aliases, `_commands[name]` becomes the list and each alias maps to the name (a re-registered alias moves to the newest command); without aliases both tables are unchanged |
| Cli.AliasGroup.Command | src/ai/backend/client/cli/__init__.py:21-34 | `command(aliases=…)` registers a plain command, and each alias then resolves to it |
| Cli.AliasGroup.Group | src/ai/backend/client/cli/__init__.py:36-49 | `group(aliases=…)` registers a group, and each alias then resolves to it |
| Cli.AliasGroup.Resolve | src/ai/backend/client/cli/__init__.py:52-53 | an alias is replaced by its command's name; any other name is kept |
| Cli.AliasGroup.GetCommand | src/ai/backend/client/cli/__init__.py:51-56 | the command is found exactly when the resolved name is registered |
| Cli.AliasGroup.DisplayName | src/ai/backend/client/cli/__init__.py:67-69 | an aliased command is shown as "name (a1,a2)" with its aliases sorted and comma-joined; any other is shown by name |
| Cli.AliasesResolve | src/ai/backend/client/cli/__init__.py:51-56 | every alias in the table leads to its registered command |
| Cli.AliasShadowsName | src/ai/backend/client/cli/__init__.py:52-53 | an alias wins over a command of the same name |
| Cli.AliasGroup.Listed | src/ai/backend/client/cli/__init__.py:59-70 | the names `format_commands` keeps: never more than were listed, and none of them hidden |
| Cli.ListedExactly | src/ai/backend/client/cli/__init__.py:59-70 | the listing holds exactly the known, visible sub-commands, under their display names, and no more rows than names listed |
| Cli.ListedInOrder | src/ai/backend/client/cli/__init__.py:59-70 | the k-th row is the k-th kept sub-command: kept names come from strictly increasing positions of click's list, and none is skipped |
| Cli.MaxNameLength | src/ai/backend/client/cli/__init__.py:74 | the longest display name, which some listed name reaches |
| Cli.LimitFitsNames | src/ai/backend/client/cli/__init__.py:74 | every name plus 6 plus the limit fits the width, and the longest fills it |
| Cli.HelpRows | src/ai/backend/client/cli/__init__.py:75-78 | one row per listed command, in order, with its short help at the limit |
| Cli.AliasGroup.FormatCommands | src/ai/backend/client/cli/__init__.py:58-81 | the limit is computed exactly when something is listed, as width − 6 − the longest name, and the rows pair each listed name with its short help |
| Cli.BaseName | src/ai/backend/client/cli/__init__.py:107 | the last path component is a '/'-free suffix of the path |
| Cli.LastDot | src/ai/backend/client/cli/__init__.py:107 | the index of the last '.', or −1 without one |
| Cli.BaseNameOfName | src/ai/backend/client/cli/__init__.py:107 | a name without '/' is its own last component |
| Cli.BaseNameAfterSlash | src/ai/backend/client/cli/__init__.py:107 | the last component is what follows the last '/' |
| Cli.StemDropsDirectory | src/ai/backend/client/cli/__init__.py:107 | "/usr/local/bin/lcc" has the stem "lcc" |
| Cli.StemDropsSuffix | src/ai/backend/client/cli/__init__.py:107 | "lpython.py" has the stem "lpython" |
| Cli.StemKeepsLeadingDot | src/ai/backend/client/cli/__init__.py:107 | ".lcc" has the stem ".lcc" |
| Cli.Stem | src/ai/backend/client/cli/__init__.py:107 | the stem is a '/'-free prefix of the last component, either all of it or the part before a '.' |
| Cli.AliasArgv | src/ai/backend/client/cli/__init__.py:107-115 | an empty argv raises IndexError; otherwise argv grows, keeps the program first, has 'run' second, and ends with '--help' when no argument was given or with the last argument otherwise |
| Cli.InsertSecond | src/ai/backend/client/cli/__init__.py:110-113 | `insert(1, x)` puts x second and shifts the rest |
| Cli.AliasArgvShape | src/ai/backend/client/cli/__init__.py:107-115 | argv becomes the program, 'run', then 'c' for lcc or 'python' for lpython, the original arguments, and '--help' exactly when there were none |
| Cli.Process.constructor | src/ai/backend/client/cli/__init__.py:103 | the process starts with its argv |
| Cli.Process.RunAlias | src/ai/backend/client/cli/__init__.py:103-115 | an empty argv raises IndexError and is left alone; otherwise argv is rewritten in place as above |
| Pretty.Italic | src/ai/backend/client/cli/pretty.py:44-45 | the text between ESC[3m and ESC[23m |
| Pretty.Unitalic | src/ai/backend/client/cli/pretty.py:44-45 | whatever it recovers italicises back to its input |
| Pretty.ItalicRoundTrip | src/ai/backend/client/cli/pretty.py:44-45 | the text can be recovered from its italic form |
| Pretty.ItalicInjective | src/ai/backend/client/cli/pretty.py:44-45 | different texts have different italic forms |
| Pretty.IndicatorOf | src/ai/backend/client/cli/pretty.py:49-60 | each of the five statuses has its glyph and colour; any other value raises ValueError |
| Pretty.IndicatorsDistinct | src/ai/backend/client/cli/pretty.py:49-58 | different statuses get different indicators |
| Pretty.DropFirst | src/ai/backend/client/cli/pretty.py:61 | `[1:]` drops the first character, and nothing of an empty text |
| Pretty.FormatPretty | src/ai/backend/client/cli/pretty.py:48-61 | the result is the styled indicator followed by the indented message without its first character; an unknown status raises |
| Pretty.IndicatorReplacesFirstSpace | src/ai/backend/client/cli/pretty.py:61 | with a two-space indent the indicator takes the place of the first space |
| Pretty.GetNotNone | src/ai/backend/client/cli/pretty.py:108 | `.get(key, None)` treats a JSON null as missing |
| Pretty.Then | src/ai/backend/client/cli/pretty.py:104-124 | pieces yielded before the rest of the generator come first, and the generator ends as the rest ends |
| Pretty.FormatError | src/ai/backend/client/cli/pretty.py:103-131 | only an API error report can stop with an exception; it yields at least its header; any other exception yields exactly three pieces |
| Pretty.AfterTitle | src/ai/backend/client/cli/pretty.py:108-124 | after the title, the generator can only fail by calling `.get` on a non-dictionary or by adding a non-string content |
| Pretty.Strip | src/ai/backend/client/cli/pretty.py:131 | the stripped text is a slice of the input with only whitespace outside it, and it neither starts nor ends with whitespace |
| Pretty.ApiErrorPieces | src/ai/backend/client/cli/pretty.py:104-124 | an API error report yields "Class: status reason\n" first; it stops with KeyError('title') exactly when the data has no title, and then after that one piece; otherwise the second piece is the title's text |
| Pretty.ApiErrorOpens | src/ai/backend/client/cli/pretty.py:104-107 | an API error report opens with "Class: status reason\n" and then the title; a missing title stops it with KeyError('title') |
| Pretty.ApiErrorMinimal | src/ai/backend/client/cli/pretty.py:104-124 | with only a title, the report is the header and the title |
| Pretty.ApiErrorFull | src/ai/backend/client/cli/pretty.py:104-124 | with every part present: header, title, details, the two agent lines, agent exception and title, then content, in that order |
| Pretty.TitledReport | src/ai/backend/client/cli/pretty.py:105-107 | a titled report is the header and title, then whatever follows the title |
| Pretty.AgentLinesOf | src/ai/backend/client/cli/pretty.py:112-121 | an agent section with exception and title yields the two fixed lines and those two |
| Pretty.AfterTitleOf | src/ai/backend/client/cli/pretty.py:108-124 | with details, an agent section and content, what follows the title is those three parts, in order |
| Pretty.FullSample | src/ai/backend/client/cli/pretty.py:107-122 | a four-entry error dictionary answers each lookup the report makes |
| Pretty.OtherErrorPieces | src/ai/backend/client/cli/pretty.py:125-131 | any other exception yields three pieces: "Class: first argument" ('' without arguments), the text of every further argument joined by newlines, and "*** Traceback ***" with the stripped traceback |
| Pretty.PrettyOutput | src/ai/backend/client/cli/pretty.py:71-93 | print_pretty fails exactly for an unknown status or a multi-line WAITING message |
| Pretty.PrintAgreesWithFormat | src/ai/backend/client/cli/pretty.py:87-93 | print_pretty writes the line clear, exactly what format_pretty formats, "\r", and a newline unless WAITING |
| Pretty.NewlineUnlessWaiting | src/ai/backend/client/cli/pretty.py:92-93 | the output ends with a newline exactly when the status is not WAITING |
| Pretty.OutputFile.constructor | src/ai/backend/client/cli/pretty.py:71-73 | a new output file is empty |
| Pretty.OutputFile.Echo | src/ai/backend/client/cli/pretty.py:87 | `echo` appends the text and, with `nl`, a newline, then flushes the file as click does |
| Pretty.OutputFile.Flush | src/ai/backend/client/cli/pretty.py:91 | `flush` makes everything written so far flushed |
| Pretty.OutputFile.ShowLine | src/ai/backend/client/cli/pretty.py:87-93 | the clear, the text and "\r" are written, then the newline when the line is closed, and everything written is flushed |
| Pretty.OutputFile.PrintPretty | src/ai/backend/client/cli/pretty.py:71-93 | a refused message or status writes nothing; otherwise the file grows by the pretty output and all of it is flushed |
| Pretty.OutputFile.ReportError | src/ai/backend/client/cli/pretty.py:140-145 | the styled report, "\r" and a newline are written, then flushed |
| Pretty.OutputFile.PrintError | src/ai/backend/client/cli/pretty.py:134-145 | a terminal first gets the line clear, flushed; an exception while formatting propagates after that clear and nothing more is written; otherwise the report follows and everything is flushed |

## Left out

- Concurrency: the pumps, the drain task and the handlers run on asyncio. They are modelled as steps over a finite schedule of events, in any interleaving. Task cancellation is modelled as the drain task ending. Of the faults inside a pump, only a failed write to the caller's socket is modelled (it ends `downstream()` through its `except`); faults raised while receiving, any fault inside `upstream()`, and a fault raised by a write inside the drain task are not modelled. In the program such a write fault (a transport reset while `up_conn.closed` is still False) ends `consume_upstream_buffer` silently: later queued frames are never sent and `up_conn` stays open until `downstream()` ends. In the model a write to an open socket always succeeds, so `WebSocketProxy.ConsumeOne` and `ConsumeUpstreamBuffer` do not show that path.
- The router of `create_proxy_app` is modelled by what it matches. aiohttp's pattern internals and `web.run_app` are not modelled.
- The `\d` of the path pattern is ASCII digits only. Python's `re` also accepts other Unicode decimal digits.
- Library calls are parameters. These are `json.dumps`/`loads`, `urljoin`, `yarl`'s `/`, `click.style`, `textwrap.indent`, `str()` of a value, click's `get_short_help_str` and `list_commands`, and `traceback.format_tb`.
- The Content-Type the proxy also gives the API request for signing (`content_type`, proxy.py line 111) is not modelled; request signing is not part of this model.
- The `print_error` call on the proxy's 500 path is not modelled; the reply it returns is.
- `Values.Value`: a JSON number with a fraction is a `Float` over exact reals. IEEE double rounding, and the NaN and Infinity values `json.loads` accepts, are not modelled; the text of a float comes from the `repr` parameter.
- Values.Get: it returns the first entry with the key, while a dictionary decoded by `json.loads` keeps the last of duplicated keys; the two agree whenever keys are distinct.
- `echo` is modelled as writing text. Its stripping of ANSI codes when the output is not a terminal is not modelled.
- The relay writes each chunk downstream as it arrives. The model records the written chunks when the loop ends, so only the final state is captured, not a failure part-way through.
- `_SyncWorkerThread` is modelled only by the order of the work it is given. The per-session `type(...)` function-proxy assembly is not modelled.
- `parse_api_version` is taken as already applied: versions are (major, date) pairs.
- The `hello` call that `is_legacy_server` makes is left out. The comparison is modelled on the version text.
- `send`/`asend` network I/O is left out. The model keeps the allowed-method check, the lower-cased verb, the URL, the payload and the headers.
- `Request(path=None)` and `Response.json()` are not modelled.
- A Python `bool` user id counts as an `int` in `isinstance`. Keypair user ids are modelled as an int or a string, so a bool is not modelled.
- Keypair calls are modelled up to the request they send and the lookup of the result key. The HTTP round trip and `resp.json()` are not modelled.
- `Cli.Stem`: `Path` normalisation (trailing and repeated slashes, `.` components) is not modelled. The stem is taken from the text after the last '/'.
- `run_alias`'s hand-off to `main.main` is left out.
- The `bold`, `underline`, `inverse` and `show_warning` helpers and the `functools.partial` shortcuts are not modelled.
- Of the legacy `vfolder.py`, the thin wrappers `_list`, `_get`, `_info`, `_upload`, `_download` and `_list_files` are not modelled; they are file and HTTP plumbing.
- A folder's config is an opaque type parameter.
- `Pretty.IsSpace`: of the whitespace `str.isspace()` accepts, the characters below 128 are modelled (tab through carriage return, 0x1C-0x1F, space); non-ASCII whitespace such as U+0085, U+00A0 and the other Unicode spaces is not.

## Findings

| source | as written | input that shows it | evidently intended | confidence | as-written member | corrected member |
|---|---|---|---|---|---|---|
| src/ai/backend/client/session.py:31 | the server version text is compared with 'v4.20181215' as a string | 'v10.20200101' <= 'v4.20181215' is true, so a version-10 server counts as legacy | compare parsed (major, date) versions, so that every major above 4 is not legacy | medium (not executed) | Sessions.LegacyTextMisordersMajorTen | Sessions.LegacyByMajor |
