# igo mux and rest, modelled in Dafny

This project models two Go packages.

The first is `mux`, a path-trie HTTP router:
- `New` normalises a path prefix.
- `Handle` registers handlers under normalised patterns such as `users/:user-id/feeds/`.
- `Init` builds the trie once. Each pattern becomes one node per `/`-separated name, and two differently named `:capture` children under one node abort with "mux: pattern ambiguous".
- `match` strips the prefix and walks the trie level by level. At each level the first child that matches wins. A `:name` node binds the text up to the next `/` in a capture map.
- `ServeHTTP` falls back to the not-found handler.
- `ServeHTTPWithContext` stores the capture map in the request context.

The second is `rest`, which adapts Go methods to HTTP:
- `makeRpc` accepts a method only in one of four signature shapes: `(ctx)`, `(ctx, req)`, `(ctx, w, r)` or `(ctx, w, r, req)`. Each returns `(rsp, error)`.
- The adapter decodes the request parameter by content negotiation. It calls the method, then maps the method's error and the JSON reply to a status and a context error.
- `Resource` binds the methods `Get`, `Post`, `Put` and `Delete` to the verbs GET, POST, PUT and DELETE. Any other verb gets 405.

## Layout

| file | module | what it holds |
|---|---|---|
| `wrappers.dfy` | `Wrappers` | `Option` and the Go nil-dereference panic text |
| `strings.dfy` | `Strings` | `strings.Index` and `strings.Split` for a one-character separator, with `Join` as Split's inverse |
| `trie.dfy` | `Trie` | the node table; `capture`; the sibling scan and the walk of `match`, as functions; how appending a child affects it |
| `mux.dfy` | `Mux` | prefix and pattern normalisation, `makeNode`, both loops of `Init`, and the `Mux` class (`New`, `Handle`, `Init`, `match`, `ServeHTTP`, `ServeHTTPWithContext`) |
| `routing.dfy` | `Routing` | the registration/matching round trip; the test table's examples; the source's outer loop as written, and its hang |
| `types.dfy` | `Types` | Go types as the adapter inspects them; `isExported`; `isExportedOrBuiltinType` |
| `context.dfy` | `Context` | the context value chain; `mux.FromContext`; `rest.Err` |
| `http.dfy` | `Http` | a `ResponseWriter` as the trace of calls made on it; which handler-set headers are sent |
| `content.dfy` | `Content` | `populateRequest`; `populateRequestMultiForm`; `respond` |
| `rpc.dfy` | `Rpc` | `makeRpc`, and the adapter's `ServeHTTPWithContext` |
| `rest.dfy` | `Rest` | `mustMakeRpc`, `New`, and `Resource.ServeHTTPWithContext` |

How the model is built:
- **The trie.** It is a table of nodes: names, handlers and children side by side. Node 0 is the root, and a pointer to a node is its index.
- **`Init`'s loops.** Both walk Go maps, whose iteration order is unspecified. In the model, each iteration picks any key not yet visited, and every contract holds for every order.
- **Panics.** Each panic is an outcome value carrying the panic's message.
- **Reflection.** A method is known by its `Signature`. A call is a function `Call` from the method name and the argument list to the method's two results and the calls the method itself made on the `ResponseWriter`.
- **Codecs.** JSON, gorilla/schema, `mime.ParseMediaType` and multipart parsing are not run. A `Request` carries what each of them answers for it.

The model follows the code where the code and the design intent differ:
- **Empty Content-Type.** On POST or PUT it gives `ErrContentType`, with no fallback to form decoding.
- **Header set too late.** `respond` calls `WriteHeader(200)` and `Write` before it sets `Content-Type`. The model keeps that order as a trace. `Content.RespondContentTypeNotSent` proves that this header is never among the headers sent; net/http may still add a sniffed `Content-Type` of its own on the first `Write`, which belongs to the transport and is not modelled.
- **Stale captures.** A capture node records its key even when its step fails. That entry can end up in the map returned for a later sibling's match.
- **`ErrMethodNotAllowed`'s text.** It is "method not found" (rest/rest.go:11).

## Model

| member | source | states |
|---|---|---|
| Strings.Index | mux/mux.go:180 | -1 exactly when the separator does not occur; otherwise the position of its first occurrence |
| Strings.Split | mux/mux.go:104 | at least one piece, and no piece contains the separator |
| Strings.JoinSplit | mux/mux.go:104 | no characters are lost: joining the pieces with the separator gives back the string |
| Trie.CaptureKey | mux/mux.go:179 | a capture name is `:`, then its key, then `/` |
| Trie.Segments | mux/mux.go:104-110 | every node name built from a pattern ends with `/` and holds no other `/` |
| Trie.Capture | mux/mux.go:176-212 | on a `:` node: the key is the name without `:` and `/`; with a `/` in the path, the value is the text before the first `/`, holds no `/`, and the handler is returned only when nothing remains; without a `/`, only the key is returned. On a literal node: its name is consumed when the path starts with it, otherwise nothing. Any remainder is strictly shorter than the path |
| Trie.Scan | mux/mux.go:242-262 | a descent names a child of the node, with a non-empty remainder strictly shorter than the path; a handler found is the one stored at one of the node's children |
| Trie.ScanFirstMatch | mux/mux.go:242-262 | the scan is exhausted exactly when every sibling is inert (no handler, no remainder); otherwise the first sibling that is not inert decides the result and later ones are not tried. A terminal node with a nil handler is inert, so it is skipped |
| Trie.MatchFrom | mux/mux.go:233-266 | a route has a handler exactly when it has a capture map, and that handler is the one stored at some non-root node |
| Trie.MatchPath | mux/mux.go:214-229 | an empty path, or one that does not start with the prefix, yields no handler; a path equal to the prefix yields the root handler and a nil capture map; any handler returned is stored at some node |
| Trie.AppendChild | mux/mux.go:128-129 | the new handler-less node gets the next index and the name, and goes last among the parent's children; every other node keeps its name, handler and children |
| Trie.AppendChildLookup | mux/mux.go:128-129 | appending a child keeps every child found before, and finds the new child by its name |
| Trie.AppendChildValid | mux/mux.go:118-132 | a child whose name is new among its siblings, and that is not a second capture, keeps sibling names distinct and at most one capture per node |
| Context.FromContext | mux/mux.go:63-66 | `ok` is false only with a nil map; the value the router stored is returned with `ok` true, even when that map is nil |
| Context.Err | rest/rpc.go:109-116 | the innermost error rest stored; nil on the background context |
| Context.KeysIndependent | mux/mux.go:63-70 | the router's and rest's context keys do not collide: each lookup sees through the other package's values |
| Mux.NormalizePrefix | mux/mux.go:31-39 | the result is non-empty and starts and ends with `/`; `""` becomes `"/"`; otherwise exactly the missing leading and trailing `/` are added |
| Mux.NormalizePrefixIdempotent | mux/mux.go:31-39 | a prefix that already starts and ends with `/` is returned unchanged, so normalising twice changes nothing |
| Mux.NormalizePattern | mux/mux.go:82-87 | `"/"` becomes the root key `""`; the key is empty or ends with `/`; it is the pattern without one leading `/`, extended by at most one character |
| Mux.NormalizePatternSegments | mux/mux.go:82-87 | normalising a pattern does not change the node names it yields |
| Mux.MakeNode | mux/mux.go:118-132 | returns the existing child exactly when one has the name. Panics exactly when none has it, the name is a capture and a capture sibling exists; the message names the pattern and that sibling. Otherwise it appends a new child, which the lookup then finds, and the trie stays valid |
| Mux.InsertStep | mux/mux.go:136-139 | one makeNode call on the walk: it keeps the insertion invariant one name further, or panics because another key already put a differently named capture at this position; the message names the pattern and that capture |
| Mux.InsertPath | mux/mux.go:135-139 | either the key's names walk from the root to its end node, and the existing nodes keep their names and handlers; or it panics because another key puts a different capture at the same position |
| Mux.SegmentNames | mux/mux.go:103-110 | the names are those of the split pieces: empties skipped, `/` appended to each |
| Mux.CollectSegments | mux/mux.go:102-111 | exactly the keys that have at least one name, each with its names, whatever the visiting order |
| Mux.AddKey | mux/mux.go:134-140 | one key inserted with its handler, keeping every earlier key's walk and handler; it panics only when the registrations are ambiguous |
| Mux.BuildTrie | mux/mux.go:113-141 | panics exactly when two keys put different captures under one node. Otherwise: the trie is valid, the root is named by the prefix and holds `m[""]`, every key with at least one name walks to a node, and that node holds the key's handler when no other key has the same names. Every other node lies on some key's walk, and a non-root node holds a handler only when it is some key's end node holding that key's handler |
| Mux.BuiltNotAmbiguous | mux/mux.go:118-125 | an ambiguous set of registrations cannot produce a built trie |
| Mux.ServingHandler | mux/mux.go:50-53 | the matched handler, or the not-found handler exactly when match found none |
| Mux.NamelessKeyUnbound | mux/mux.go:103-117 | `Handle("//")` stores the key `"/"`, which has no names; with only that key registered, the built trie is the lone root holding a nil handler |
| Mux.RoutedHandlerRegistered | mux/mux.go:127-140 | on a built trie, a handler that match returns is the handler registered for some key |
| Mux.EmptyRouterNotFound | mux/mux.go:113-141 | with nothing registered, the built trie is the lone root with a nil handler, and every request is served by the not-found handler |
| Mux.Mux.New | mux/mux.go:26-47 | normalised prefix, no registrations, no root, `http.NotFound` when no fallback is given |
| Mux.Mux.Handle | mux/mux.go:77-95 | after Init it panics "already inited"; on `""` it panics with index out of range; on an existing normalised key it panics "pattern existed"; otherwise it adds exactly that one entry. Nothing else changes |
| Mux.Mux.Init | mux/mux.go:97-152 | does nothing once the root exists. Otherwise it panics exactly when the registrations are ambiguous, leaving no root; or it installs a built trie, whose nodes all lie on registered keys' walks and whose non-root handlers all sit at key end nodes |
| Mux.Mux.Match | mux/mux.go:214-267 | with a root: the route MatchPath gives. Before Init: a nil dereference exactly when the path passes the prefix check, otherwise no match |
| Mux.Mux.ServeHTTP | mux/mux.go:49-56 | the serving handler for the matched route; before Init, a nil-dereference panic exactly when the path passes the prefix check |
| Mux.Mux.ServeHTTPWithContext | mux/mux.go:72-75 | the parent context with the matched capture map stored under the router's key |
| Routing.MatchWalk | mux/mux.go:237-262 | under nodes whose children are all literal or all one capture, a path filled in along names that walk to a node with a handler matches that handler, binding each capture key to its value |
| Routing.MatchRegistered | mux/mux.go:134-140 | round trip: in a built trie, a key with a non-nil handler, whose names no other key has, is matched by the prefix followed by the key filled with any slash-free values; match returns that handler with exactly those captures |
| Routing.CaptureTableExample | mux/mux_test.go:43-46 | `/api/users/user123/feeds/feed123/` reaches the handler of `users/:user-id/feeds/:feed-id` with `{user-id: user123, feed-id: feed123}` |
| Routing.AmbiguousTableExample | mux/mux_test.go:163-181 | registering `users/:user-id/` and `users/:user-id2/` is ambiguous, so Init panics "mux: pattern ambiguous" |
| Routing.SourcePass | mux/mux.go:237-266 | one pass of the outer `for` as written: a pass that goes down moves to a child with a strictly shorter path; a pass that matches nothing keeps the same node and the same non-empty path |
| Routing.Passes | mux/mux.go:237-266 | any number of passes as written: the loop never moves to a longer path. SourceStuck and SourceAgrees state what it does |
| Routing.SourceStuck | mux/mux.go:237-266 | when no sibling matches a non-empty remainder, the source's loop stays at the same node and path after any number of passes |
| Routing.HangExample | mux/mux.go:237-266 | on a trie with only `users/` under `/api/`, the path `/api/feeds/` never leaves the loop as written, while the corrected walk reports no match |
| Routing.SourceAgrees | mux/mux.go:237-266 | whenever the source's loop returns, the corrected walk returns the same route |
| Types.IsExported | rest/rpc.go:37-40 | true exactly when the first character is an upper-case letter; false for the empty name |
| Types.IsExportedOrBuiltinType | rest/rpc.go:43-50 | removes every pointer layer (the base type never changes), then accepts exactly an exported name or an empty package path |
| Http.SentHeaders | rest/content.go:91-93 | the headers sent are ones the handler actually set, before the first call that commits the response (headers the server adds are not modelled) |
| Http.SetBeforeCommitSent | rest/content.go:91-93 | a header set before the first committing call is sent, with the value of its last such set |
| Http.UnsetNotSent | rest/content.go:91-93 | a header that no call sets before the first commit is not sent |
| Content.Negotiate | rest/content.go:46-76 | nil type: no decoding. GET/DELETE: form decoding. Empty Content-Type: `ErrContentType`. Unparseable: the parse error. `application/json`: JSON. `multipart/form-data` with another type: `ErrMultipartMismatch`; with the multipart type: a copy. Any other media type: form decoding. Each case holds exactly for its inputs |
| Content.QueryIgnoresContentType | rest/content.go:53-55 | GET and DELETE use form decoding whatever the Content-Type |
| Content.CodecResult | rest/content.go:21-40 | a codec's success yields its value, and its failure yields that decode error |
| Content.RejectBeforeDecoding | rest/content.go:57-72 | the rejected cases fail with exactly the negotiated error, before any codec runs |
| Content.DecodeErrorFromChosenCodec | rest/content.go:53-76 | a decode error appears exactly when the chosen codec, form or JSON, failed with it |
| Content.MultipartCopied | rest/content.go:69-73 | the handler receives the request's own Value and File maps; when no form was parsed, a nil-dereference panic |
| Content.MultipartForm.PopulateFrom | rest/content.go:27-36 | both fields become the parsed form's maps, and the result is nil; a nil form panics and changes nothing |
| Content.Populate | rest/content.go:46-80 | no request value exactly for a nil type; a nil-dereference panic exactly when a multipart copy meets an unparsed form; every failure other than a codec's is the negotiated rejection |
| Content.PopulateRequest | rest/content.go:46-80 | the negotiated decoder run on a fresh target, with the outcome Populate defines |
| Content.RespondTrace | rest/content.go:91-93 | status 200, then the body, then the Content-Type header, in that order |
| Content.Respond | rest/content.go:83-96 | a marshal failure returns its error and writes nothing; success returns nil and appends the status, body and header calls |
| Content.SentHeadersFrozen | rest/content.go:91-93 | nothing after a committing call changes which handler-set headers are sent |
| Content.RespondContentTypeNotSent | rest/content.go:91-93 | the Content-Type that respond sets is never sent: the handler-set headers that go out are those set before respond |
| Rpc.MakeRpc | rest/rpc.go:57-106 | a missing method gives ErrMethodNotFound. A method is accepted exactly when it has two results, the second `error`, and one of the four parameter shapes; anything else panics. The adapter's `numIn` is the arity, and its request type is parameter 1 in arity 2 and parameter 3 in arity 4 |
| Rpc.ArgsFor | rest/rpc.go:143-157 | `numIn` arguments in the order ctx, [w, r], [req], with the request value present exactly in arities 2 and 4 |
| Rpc.DecodeFailureSkipsCall | rest/rpc.go:133-136 | a failed decoding returns a context carrying that error; the method is not called and nothing is written |
| Rpc.CalledWithItsArity | rest/rpc.go:143-159 | the method is called exactly when decoding succeeded, with an argument list of its arity |
| Rpc.CallOutcomes | rest/rpc.go:159-184 | after the method's own writes (arities 3 and 4 only): an error that is an `http.Handler` serves the reply and leaves the context unchanged; a plain error or a marshal failure writes 500 and carries `ErrRpcErr`, and nothing else does; success writes the JSON reply and carries nil |
| Rpc.ServeSpec | rest/rpc.go:122-185 | it panics exactly when populateRequest panics; a failed decoding writes nothing and carries an error; a call gets `numIn` arguments and always leads to a write |
| Rpc.AnswerSpec | rest/rpc.go:159-184 | the reply to a method's result starts with the calls the method made on `w`, and records the arguments it was called with |
| Rpc.Answer | rest/rpc.go:159-184 | the context returned and the calls on `w` are those AnswerSpec gives: the method's own writes, then the delegation, the 500 reply or the JSON reply |
| Rpc.ServeRpc | rest/rpc.go:122-185 | the returned context, and the calls on the writer, are those ServeSpec defines. This includes what a method of arity 3 or 4 writes to `w` itself, before the adapter's own calls |
| Rest.MustMakeRpc | rest/rest.go:20-26 | an absent method gives no adapter. An accepted one gives its adapter; otherwise makeRpc's own signature panic. The "makeRpc error" panic never happens |
| Rest.New | rest/rest.go:33-42 | succeeds exactly when each of Get, Post, Put and Delete is absent or accepted, and binds each verb's adapter |
| Rest.Select | rest/rest.go:45-56 | exactly "GET", "POST", "PUT" and "DELETE" select their adapters; every other verb selects none |
| Rest.VerbBindsMethod | rest/rest.go:28-42 | on a resource New built, a verb has a handler exactly when the value has the matching Go method, and it is that method's adapter |
| Rest.ServeResource | rest/rest.go:44-66 | with an adapter: exactly the adapter's context, and its writes, including what the method writes to `w` itself. Without one: a 405 "Method not allowed" reply, and a context carrying `ErrMethodNotAllowed` |
| Rest.NotAllowedErr | rest/rest.go:63-65 | the 405 answer's context reads back `ErrMethodNotAllowed` |
| Rest.GetOnlyResource | rest/rest_test.go:90-103 | a value with only `Get(context.Context) (bool, error)` binds a GET adapter of arity 1 and no POST adapter |
| Rest.EmptyResource | rest/rest.go:10 | a value with no methods binds with no adapter for any verb |

## Left out

- HTTP transport: requests come in as values, and a `ResponseWriter` is the trace of calls made on it. `http.Error` and a delegated `h.ServeHTTP` are one event each.
- Handlers are never run. `ServeHTTP` returns the handler it would call. A rest method is not run either: its results, and the calls it makes on `w`, are whatever `Call` answers.
- Reflection is not modelled (`reflect.Value.Call`, `reflect.New`, the `Elem` and pointer handling of the request value at rest/rpc.go:123-141). A method is its signature, and a call is an uninterpreted function.
- The codecs are uninterpreted: encoding/json, gorilla/schema, `mime.ParseMediaType` and multipart parsing, including the form parsing that `r.FormValue("")` forces.
- Concurrency: the router has no locking, so `Init` before serving is the caller's business.
- `Print` and `printNode` (mux/mux.go:160-174) are debug output.
- `mux.Err` (mux/mux.go:58-61) always returns nil.
- Unreachable branches are not modelled as branches: the `len(p) == 0` test after a descent (mux/mux.go:264-266); "mux: never reached." (mux/mux.go:270); the adapter's "not reached." (rest/rpc.go:156), which `WellFormed` rules out; populateRequest's final `return nil` (rest/content.go:78-79).
- Types.IsExported: only ASCII letters count as upper case. `unicode.IsUpper` accepts every Unicode upper-case letter, and the model has no Unicode tables.
- Mux.BuildTrie: when two keys have the same names (`a/b/` and `a//b/`), the node gets the handler of whichever key the map visits last. `Built` therefore states a node's handler only for keys whose names no other key has.
- Mux.BuildTrie: a pattern whose names are all empty, such as `"//"` (stored as `"/"`), is accepted by Handle and never bound: Init's first loop skips it and the root holds `m[""]`, so its handler is served nowhere. `Built` speaks only of keys with at least one name.
- Routing.MatchRegistered: assumes no node has both literal and capture children. Where one does, an earlier sibling can take the path first.
- Mux.Mux.Match: where the source loops forever (see Findings), the model returns no match.
- The trie is a table of nodes rather than linked `*node` values. No two nodes share children, so no aliasing is lost.

## Findings

| source | as written | input that shows it | evidently intended | confidence | as-written member | corrected member |
|---|---|---|---|---|---|---|
| mux/mux.go:237-266 | when no child at a level matches a non-empty remainder, `p` and `ns` stay unchanged and the outer `for` repeats the same scan forever (the not-found test is commented out, mux/mux_test.go:183-186) | only `users/` registered under prefix `/api/`, request path `/api/feeds/` | return no handler, so that ServeHTTP answers with the not-found handler | not executed | Routing.HangExample | Trie.MatchFrom |

`Routing.SourcePass` and `Routing.Passes` model the loop as written. `Routing.SourceStuck` shows that it never returns once a level is exhausted. `Routing.SourceAgrees` shows that the corrected `Trie.MatchFrom`, which `Mux.Mux.Match` uses, gives the same route wherever the source does return.
