# dat-gateway: routing, short names and the session cache

dat-gateway serves Dat archives over plain HTTP. A request whose Host header starts with the
label `dat` (for example `dat.gateway.test/<address>`) registers the first five characters of
`<address>` as a short name in a process-wide table. It is then redirected (`302`) to the host
with `dat` replaced by that short name. Any other request treats its leading Host label as a
short name and looks the address up in the table. It resolves the address to an archive key,
takes a session for the key from an LRU cache or opens a new one, and hands the request to the
session with its target rewritten. Rejections become `404 Not found` (for the resolver's
`DNS record not found`) or `500` with the error serialized as JSON. `close` waits for the HTTP
server to finish closing and then resets the cache.

The model is in seven modules:

- `Wrappers` (wrappers.dfy): `Option` and `Result`.
- `Externals` (externals.dfy): the values exchanged with the wrapped libraries: archive keys,
  sessions and rejection values (a message and an opaque JSON text).
- `JsStrings` (js_strings.dfy): the semantics of the JavaScript string built-ins the handler
  uses: `split`, `join`, `substr`, `indexOf`, and `replace` with a string pattern. The last one
  expands the `$$`, `$&`, `` $` `` and `$'` patterns in its replacement text, as section
  22.1.3.18.1 (GetSubstitution) of ECMAScript 2022 requires.
- `Routing` (routing.dfy): the synchronous part of the request handler as functions. It reads
  the subdomain, chooses a branch, derives the short name, builds the redirect location and the
  forwarded target, and maps errors to responses.
- `ShortNames` (short_names.dfy): the module-level `map` as a `NameTable` object with a pure
  `Assign`/`LookupIn` specification.
- `SessionCache` (session_cache.dfy): `getDat` as a pure function `Acquire` over a key-to-session
  map. It also lists the effects a call takes (open, store, join the network, metadata synced),
  so that their order can be stated.
- `Gateway` (gateway.dfy): the `DatGateway` class and the `NodeProcess` its gateways share. The request handler, `getDat` and `close`
  are methods over the cache, the trace of effects and the shared table. The handler and
  `getDat` are proved against the pure `Respond` and `Acquire`, and `close` states its new
  cache and trace outright.

The resolver and the archive library's open are parameters. Each is a function from its
argument to the outcome the library reports, so each call is deterministic in the model. Each
request runs to the end of its promise chain before the next one starts.

Where the intended design and the code differ, the model follows the code:

- There is no single-flight: nothing stops two concurrent misses on one key from each opening
  a session. The model runs requests one after another, so it adds no such mechanism and does
  not exhibit the duplicate opens either (see "## Left out").
- A short name is silently reassigned when a later address has the same first five characters.
- A new session is put in the cache before its metadata update finishes. Only the caller of
  that `getDat` waits for the update. The model records this order of effects, but not a
  concurrent hit during the update (see "## Left out").
- The table is module-level state shared by every gateway in the process.
- The redirect host is built by `replace`, which reads the short name as a replacement
  template. `Location`, and so `Classify`, `Respond` and `Handle`, keep that behaviour. The
  redirect therefore agrees with the registered short name only when the short name holds no
  `$` (see "Findings").
- A request without a Host header, or a `dat` request whose target has no `/`, throws a
  TypeError out of the request listener. Without an `uncaughtException` handler this ends the
  Node process, so no gateway's `Handle` can be called once a response is `Uncaught`.

## Model

| member | source | states |
|---|---|---|
| JsStrings.FirstIndex | index.js:35-36 | the first position of the separator: every earlier character differs from it, and it is the string's length when the separator is absent |
| JsStrings.Split | index.js:35-36 | `split` always yields at least one piece, and no piece contains the separator |
| JsStrings.SplitHead | index.js:35 | the first piece of a split is the text before the first separator, or the whole string |
| JsStrings.SplitHasSecond | index.js:38 | a split has a second piece (so `urlParts[1]` is defined) exactly when the separator occurs |
| JsStrings.SplitTail | index.js:49 | the pieces after the first are the split of the text after the first separator |
| JsStrings.JoinSplit | index.js:36-49 | joining the pieces of a split with the same separator gives back the original string |
| JsStrings.SplitJoin | index.js:36-49 | splitting a join of separator-free pieces (at least one) gives back the pieces |
| JsStrings.Join | index.js:49 | `join` of no pieces is empty; otherwise the result starts with the first piece, followed by the separator when there is a second one |
| JsStrings.JoinSplitTail | index.js:36-49 | joining the pieces after the first gives back the text after the first separator |
| JsStrings.Substr | index.js:39 | `substr` (ECMAScript Annex B): the text at the start position (counted from the end when negative, clamped to the string) whose length is the requested length, clamped to what remains |
| JsStrings.IndexOf | index.js:42 | `indexOf` returns an occurrence of the pattern with no occurrence before it, and returns nothing only when there is no occurrence at all |
| JsStrings.Expand | index.js:42 | the replacement template of `replace`: a template without `$` expands to itself |
| JsStrings.Replace | index.js:42 | `replace` with a string pattern: without an occurrence the string is unchanged; otherwise it is the text before the first occurrence, the replacement template expanded for that match, and the text after it |
| JsStrings.ExpandLeadingMatch | index.js:42 | a template `$&` followed by text without `$` expands to the matched text followed by that text |
| JsStrings.ReplaceWithoutDollar | index.js:42 | `replace` with a replacement text free of `$` is literal first-occurrence replacement |
| Routing.FirstLabel | index.js:35 | the subdomain is a prefix of the host without `.`, and it is either the whole host or followed by a `.` |
| Routing.SentinelHostIff | index.js:35-37 | the shorten branch is taken exactly for the host `dat` and for hosts beginning `dat.` |
| Routing.Scheme | index.js:41 | the redirect's protocol is `https` exactly on an encrypted connection, and `http` otherwise |
| Routing.ShortName | index.js:39 | the short name is the first min(5, length) characters of the address, so it is a prefix of the address |
| Routing.ShortNameCollision | index.js:39-40 | two addresses that agree on their first five characters get the same short name |
| Routing.RedirectHostAsWritten | index.js:42 | as written, on a `dat` host the short name is expanded as a replacement template (`$&` standing for `dat`, `$'` for the rest of the host) before the rest of the host |
| Routing.RedirectHost | index.js:42 | corrected: on a `dat` host the redirect host is the short name followed by the host after its leading `dat` |
| Routing.RedirectHostAgreesWithoutDollar | index.js:42 | as written and corrected agree whenever the short name contains no `$` |
| Routing.DollarShortNameMisroutes | index.js:38-42 | the address `$&abc` is its own short name, but the host as written starts `databc`, so the next request's subdomain is not `$&abc` |
| Routing.DollarShortNameCorrected | index.js:38-42 | with literal replacement the same address leads to the subdomain `$&abc` |
| Routing.RedirectLandsOnShortName | index.js:35-48 | corrected: following the literal redirect gives the short name as the next subdomain exactly when the short name has no `.` |
| Routing.RedirectAsWrittenLandsOnShortName | index.js:35-48 | as written, for a short name without `$`: following the redirect gives the short name as the next subdomain exactly when it has no `.` |
| Routing.Location | index.js:41-42 | the `location` header is the scheme (`https` when encrypted, else `http`), `://`, the expanded short name and the host after `dat`; for a short name without `$`, the short name itself |
| Routing.ForwardedUrl | index.js:36-54 | the forwarded target is `/` followed by everything after the first `/` of the original target (just `/` when it has none) |
| Routing.ForwardedUrlKeepsPath | index.js:36-54 | a target that starts with `/` is forwarded unchanged |
| Routing.Classify | index.js:33-54 | serve exactly when a Host header is present and its subdomain is not `dat`; shorten exactly when the subdomain is `dat` and the target contains `/`; otherwise the handler throws |
| Routing.ShortenRedirects | index.js:36-46 | a shorten request registers the second `/`-piece of its target under its short name and redirects to the scheme, `://`, the short name expanded as a template and the host after `dat`; the short name itself when it has no `$` |
| Routing.ServeForwards | index.js:35-54 | a serve request looks up its subdomain and forwards its target, unchanged when it starts with `/` |
| Routing.RedirectReply | index.js:43-46 | the shorten branch answers `302` with the `location` header and an empty body |
| Routing.ErrorReply | index.js:56-64 | `404` with body `Not found` if and only if the message is `DNS record not found`; every other rejection gives `500` with the serialized error, and no location header |
| ShortNames.Assign | index.js:40 | after registration the short name maps to the address, and every other entry is as before |
| ShortNames.LookupIn | index.js:48 | the lookup finds a value exactly when the name is in the table, and then it is the table's value |
| ShortNames.LookupAfterAssign | index.js:40-48 | looking up the short name of a just-registered address gives the address back |
| ShortNames.AssignIdempotent | index.js:40 | registering the same address twice has the same effect as once |
| ShortNames.AssignOverwrites | index.js:39-40 | a later address with the same short name replaces the earlier one, which can no longer be found |
| ShortNames.NameTable.constructor | index.js:17 | the table starts empty |
| ShortNames.NameTable.Register | index.js:40 | the table becomes `Assign` of the old table |
| ShortNames.NameTable.Lookup | index.js:48 | the lookup reads the table without changing it |
| SessionCache.Acquire | index.js:86-105 | a delivered session is the one cached under the key afterwards; a failed open passes the library's error on and leaves the cache as it was; no call drops a key |
| SessionCache.AcquireOpensOnlyOnMiss | index.js:88-92 | the archive library is asked for a session exactly when the key is not cached |
| SessionCache.AcquireHit | index.js:88 | a hit returns the cached session, leaves the cache as it was and takes no effect |
| SessionCache.AcquireFailedOpen | index.js:91-94 | a failed open rejects with the library's error and leaves the cache unchanged; the only effect is the open with `temp` set and the key |
| SessionCache.AcquireSuccessfulOpen | index.js:95-101 | a successful open adds key to session to the cache, stores it before joining the network, and delivers it after the metadata update, which is the last effect |
| SessionCache.AcquireKeepsOtherKeys | index.js:96 | no call changes the entry of another key |
| SessionCache.AcquireThenHit | index.js:88-100 | after a session was delivered, the next call for its key returns the same session with no effect |
| Gateway.ServeAddress | index.js:48-64 | the serve chain only reads the table; a resolver rejection gets the catch handler's reply to it with nothing changed; after a successful resolve the cache and the effects are those of `getDat`, and the request goes to the delivered session with the forwarded target, or the open's rejection gets the catch handler's reply |
| Gateway.Respond | index.js:33-66 | the handler throws exactly when the routing does, writes the table only on the shorten branch, and writes no status other than `302`, `404` and `500` |
| Gateway.RespondTableWrites | index.js:37-48 | the shorten branch writes the table exactly by `Assign` and answers `302` with the location and an empty body; a shorten request and a throwing request leave the cache alone and take no effect |
| Gateway.ServeUnknownName | index.js:50-60 | a resolver rejection with `DNS record not found` gives `404 Not found` and changes nothing |
| Gateway.ServeOpenFails | index.js:50-63 | a failed open with any other message gives `500` with the error's JSON and leaves the cache and the table unchanged |
| Gateway.ServeOpensSession | index.js:50-55 | an uncached key whose open succeeds hands the request to the new session with the forwarded target, caches the session under the key, and takes the open, the store, the network join and the metadata update, in that order |
| Gateway.ServeCachedSession | index.js:50-55 | a cached key hands the request to the cached session with the forwarded target and takes no effect |
| Gateway.ShortenThenServe | index.js:37-50 | a request to the host in the `location` header, with any target, asks the resolver for the registered address, when the short name has no `.` or `$` and is not `dat` |
| Gateway.DomainLocation | index.js:41-42 | on the host `dat.<domain>` the location is the scheme, `://`, the expanded short name and `.<domain>`; the short name itself when it has no `$` |
| Gateway.ShortenRouteFor | index.js:35-42 | `dat.<domain>/<address>`, for an address of five or more characters without `/`, is a shorten request for the whole address under its first five characters |
| Gateway.RegisterAddress | index.js:37-46 | registering an address of five or more characters without `/` under `dat.<domain>` redirects to `<scheme>://<expanded first five>.<domain>` (`<first five>` itself without `$`) and registers those five characters |
| Gateway.LeadingMatchLocation | index.js:42 | for a short name `$&` followed by text without `$`, the location carries `dat` and that text instead of the short name |
| Gateway.RegisterLeadingMatchAddress | index.js:37-46 | the handler as written, for an address starting `$&` with no further `$` in its first five characters: those five characters are registered, but the `302` goes to `dat` followed by characters three to five, not to the registered name |
| Gateway.RegisterExampleAddress | index.js:37-46 | `example-address-123` under `dat.gateway.test`, unencrypted, redirects to `http://examp.gateway.test` with `examp` registered |
| Gateway.NodeProcess.constructor | index.js:33-66 | the process starts out running |
| Gateway.DatGateway.constructor | index.js:21-32 | a new gateway has an empty cache and no effects, and uses the given directory, the shared table and the process it runs in |
| Gateway.DatGateway.GetDat | index.js:86-105 | the result, the new cache and the new effects are those of `Acquire` on the old cache |
| Gateway.DatGateway.Handle | index.js:33-66 | the response, the new table, the new cache and the new effects are those of `Respond` on the old table and cache; the process, shared by every gateway in it, goes on running exactly when the request did not throw |
| Gateway.DatGateway.Close | index.js:78-84 | the server finishes closing before the cache is reset, and the cache is empty afterwards |

## Findings

| source | as written | input that shows it | evidently intended | confidence | as-written member | corrected member |
|---|---|---|---|---|---|---|
| index.js:42 | `host.replace('dat', shortname)` reads the short name as a replacement template, so `$&`, `` $` ``, `$'` and `$$` in it are expanded | target `/$&abc` on host `dat.gateway.test`: the short name `$&abc` is registered but the location is `http://databc.gateway.test` (Routing.DollarShortNameMisroutes, Gateway.RegisterLeadingMatchAddress) | the short name inserted literally: `http://$&abc.gateway.test` (Routing.DollarShortNameCorrected) | not executed; follows from the ECMAScript definition of `replace` | Routing.RedirectHostAsWritten | Routing.RedirectHost |

The handler's model (`Location`, `Classify`, `Respond` and `DatGateway.Handle`) uses
`RedirectHostAsWritten`, as the code does. The corrected `RedirectHost` and its lemmas
(`RedirectLandsOnShortName`, `DollarShortNameCorrected`) state what the redirect should be.
`RedirectHostAgreesWithoutDollar` shows that the two agree for every short name without `$`.

## Left out

- HTTP server creation, `listen` and writing to sockets are network I/O. Responses are values;
  `close` does not depend on whether the server was listening.
- Dat session construction, `joinNetwork`, `hyperdrive-http`, `metadata.update` and the
  session's own request handler belong to foreign libraries. The open is an outcome supplied by
  the caller. The effects record the open, the `cache.set`, `joinNetwork` and the metadata-update
  callback. Attaching `hyperdrive-http` as `dat.onrequest` is not recorded. The hand-over to the
  session is the `Delegated` response. What a session writes is not modelled.
- `resolveDat` is a thin wrapper over `dat-link-resolve`. It is a function from the looked-up
  address (`None` for `undefined` after a table miss) to a key or an error. What the library
  does with `undefined` is not known, so no lemma fixes the response to an unknown short name.
- Gateway.DatGateway.GetDat: LRU eviction (`max`, `maxAge`), `dispose` and the closing of
  sessions on reset live inside `lru-cache`. The cache is an exact map. The model does not
  capture a `set` evicting other entries, stale entries counting as misses, or sessions being
  closed at reset (only the `CacheReset` effect records it).
- Concurrency and promise interleaving are not modelled. Requests run one after another to the
  end of their chains. The model therefore cannot show two concurrent misses opening two
  sessions, or a hit handing out a session whose metadata update has not finished. A hang in
  the resolver, the open or the metadata update is not modelled either.
- `log` and its `DEBUG`/`LOG` checks are diagnostics only. `JSON.stringify(e)` is an opaque
  string carried by the error.
- A rejection from the session's own handler is not modelled. Nor is a second `writeHead`
  after it has started responding.
- A Host label that names an inherited property of a plain object (`constructor`, `toString`,
  ...) makes `map[subdomain]` yield a function, not `undefined`. The table is a map of
  strings, so these labels miss.
- Gateway.ShortenThenServe: requires a short name without `$`. With a `$` the redirect goes to
  another label, as `Routing.DollarShortNameMisroutes` shows, so the next request does not reach
  the registered address.
- Routing.RedirectAsWrittenLandsOnShortName: stated only for short names without `$`. For the
  others the next subdomain depends on what the template expands to.
- Routing.ShortenRedirects, Routing.Location, Gateway.RegisterAddress: the literal form of the
  location (the short name itself) is promised only for short names without `$`. For the rest,
  the location is given by the expansion.
- Gateway.DatGateway.Handle: an uncaught TypeError (`req.headers.host` undefined at
  index.js:35, or `requestedDat` undefined at index.js:39) ends the Node process unless the
  embedding program handles `uncaughtException`. The model records `Uncaught`, writes no
  response and clears `running` on the `NodeProcess` shared by every gateway, so no gateway
  handles a request afterwards. What such a handler does next is not modelled.
- Characters are UTF-16 code units abstractly. `substr` may split a surrogate pair. Host
  labels are compared case-sensitively, as `===` does.
