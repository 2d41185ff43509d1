/**
 * The gateway object of index.js:19-118: its session cache, the shared short-name table, the
 * request handler run to completion one request at a time, `getDat` and `close`.
 * The resolver (`resolveDat`, index.js:107-117) and the archive library's open are supplied
 * as functions from their argument to the outcome they report.
 */
module Gateway {
  import opened Wrappers
  import opened Externals
  import opened JsStrings
  import opened Routing
  import opened ShortNames
  import opened SessionCache

  /** What handling one request leads to: the response, the table, the cache and the effects. */
  datatype Step = Step(response: Response, names: map<string, string>, cache: map<Key, Session>, effects: seq<Effect>)

  /**
   * The promise chain of the serve branch: resolve the looked-up address, get a session for
   * the key, then hand the request over with its target rewritten; a rejection at either
   * stage goes to the catch handler. The table is only read; after a successful resolve the
   * cache and the effects are those of `getDat`, and the request goes to the session it
   * delivers; a rejection is answered by the catch handler's reply to that rejection.
   */
  function ServeAddress(names: map<string, string>, cache: map<Key, Session>, dir: string,
                        address: Option<string>, forward: string,
                        resolver: Option<string> -> Result<Key, Error>,
                        opener: Key -> Result<Session, Error>): (r: Step)
    ensures r.names == names
    ensures r.response.Delegated? ==> r.response.url == forward
    ensures r.response.Reply? ==> r.response.location == None && (r.response.status == 404 || r.response.status == 500)
    ensures !r.response.Uncaught?
    ensures r.cache == cache || resolver(address).Success?
    ensures resolver(address).Failure? ==> r == Step(ErrorReply(resolver(address).error), names, cache, [])
    ensures resolver(address).Success? ==>
      var key := resolver(address).value;
      var a := Acquire(cache, dir, key, opener(key));
      && r.cache == a.cache
      && r.effects == a.effects
      && r.response == (if a.result.Success? then Delegated(a.result.value, forward) else ErrorReply(a.result.error))
  {
    match resolver(address)
    case Failure(e) => Step(ErrorReply(e), names, cache, [])
    case Success(key) =>
      var a := Acquire(cache, dir, key, opener(key));
      match a.result
      case Failure(e) => Step(ErrorReply(e), names, a.cache, a.effects)
      case Success(s) => Step(Delegated(s, forward), names, a.cache, a.effects)
  }

  /**
   * The whole request handler, given the table and the cache it starts from: it throws exactly
   * when the routing does, writes the table only on the shorten branch, and writes no status
   * other than `302`, `404` and `500`.
   */
  function Respond(names: map<string, string>, cache: map<Key, Session>, dir: string, req: Request,
                   resolver: Option<string> -> Result<Key, Error>,
                   opener: Key -> Result<Session, Error>): (r: Step)
    ensures r.response.Uncaught? <==> Classify(req).Unhandled?
    ensures !Classify(req).Shorten? ==> r.names == names
    ensures r.response.Reply? ==> r.response.status == 302 || r.response.status == 404 || r.response.status == 500
  {
    match Classify(req)
    case Unhandled => Step(Uncaught, names, cache, [])
    case Shorten(_, full, location) => Step(RedirectReply(location), Assign(names, full), cache, [])
    case Serve(subdomain, forward) =>
      ServeAddress(names, cache, dir, LookupIn(names, subdomain), forward, resolver, opener)
  }

  /**
   * A shorten request writes exactly its short name into the table and answers `302` with its
   * location; neither it nor a throwing request touches the cache or takes an effect.
   */
  lemma RespondTableWrites(names: map<string, string>, cache: map<Key, Session>, dir: string, req: Request,
                           resolver: Option<string> -> Result<Key, Error>,
                           opener: Key -> Result<Session, Error>)
    ensures var st := Respond(names, cache, dir, req, resolver, opener);
      && (Classify(req).Shorten? ==>
            st.names == Assign(names, Classify(req).full) && st.cache == cache && st.effects == []
            && st.response == Reply(302, Some(Classify(req).location), ""))
      && (Classify(req).Unhandled? ==> st == Step(Uncaught, names, cache, []))
  {
  }

  /** A serve request whose name the resolver does not know gets `404 Not found`, and nothing changes. */
  lemma ServeUnknownName(names: map<string, string>, cache: map<Key, Session>, dir: string, req: Request,
                         resolver: Option<string> -> Result<Key, Error>,
                         opener: Key -> Result<Session, Error>)
    requires Classify(req).Serve?
    requires var address := LookupIn(names, Classify(req).subdomain);
      resolver(address).Failure? && resolver(address).error.message == Some(NotFoundMessage)
    ensures Respond(names, cache, dir, req, resolver, opener) == Step(Reply(404, None, "Not found"), names, cache, [])
  {
  }

  /** A serve request whose session cannot be opened gets `500` with the error's JSON. */
  lemma ServeOpenFails(names: map<string, string>, cache: map<Key, Session>, dir: string, req: Request,
                       resolver: Option<string> -> Result<Key, Error>,
                       opener: Key -> Result<Session, Error>)
    requires Classify(req).Serve?
    requires var address := LookupIn(names, Classify(req).subdomain);
      && resolver(address).Success?
      && resolver(address).value !in cache
      && opener(resolver(address).value).Failure?
      && opener(resolver(address).value).error.message != Some(NotFoundMessage)
    ensures var key := resolver(LookupIn(names, Classify(req).subdomain)).value;
      var st := Respond(names, cache, dir, req, resolver, opener);
      && st.response == Reply(500, None, opener(key).error.json)
      && st.cache == cache
      && st.names == names
  {
  }

  /**
   * A serve request for an uncached key whose open succeeds is handed to the new session,
   * which is cached under the key; the open, the store, the network join and the metadata
   * update are the effects, in that order.
   */
  lemma ServeOpensSession(names: map<string, string>, cache: map<Key, Session>, dir: string, req: Request,
                          resolver: Option<string> -> Result<Key, Error>,
                          opener: Key -> Result<Session, Error>)
    requires Classify(req).Serve?
    requires var address := LookupIn(names, Classify(req).subdomain);
      && resolver(address).Success?
      && resolver(address).value !in cache
      && opener(resolver(address).value).Success?
    ensures var key := resolver(LookupIn(names, Classify(req).subdomain)).value;
      var s := opener(key).value;
      Respond(names, cache, dir, req, resolver, opener)
        == Step(Delegated(s, Classify(req).forward), names, cache[key := s],
                [OpenSession(dir, OpenOptions(TemporaryStorage, key)), StoreEntry(key), JoinNetwork(key), MetadataSynced(key)])
  {
  }

  /** A serve request for a cached key is handed to the cached session without an open. */
  lemma ServeCachedSession(names: map<string, string>, cache: map<Key, Session>, dir: string, req: Request,
                           resolver: Option<string> -> Result<Key, Error>,
                           opener: Key -> Result<Session, Error>)
    requires Classify(req).Serve?
    requires var address := LookupIn(names, Classify(req).subdomain);
      resolver(address).Success? && resolver(address).value in cache
    ensures var key := resolver(LookupIn(names, Classify(req).subdomain)).value;
      Respond(names, cache, dir, req, resolver, opener)
        == Step(Delegated(cache[key], Classify(req).forward), names, cache, [])
  {
  }

  /**
   * Following the redirect of a shorten request (to the host its `location` header names),
   * with any target, asks the resolver for the address that was registered, provided the
   * short name has no `.` or `$` and is not `dat` itself.
   */
  lemma ShortenThenServe(names: map<string, string>, cache: map<Key, Session>, dir: string,
                         req: Request, url: string, encrypted: bool,
                         resolver: Option<string> -> Result<Key, Error>,
                         opener: Key -> Result<Session, Error>)
    requires Classify(req).Shorten?
    requires '.' !in Classify(req).short && '$' !in Classify(req).short && Classify(req).short != Sentinel
    ensures var r := Classify(req);
      var st := Respond(names, cache, dir, req, resolver, opener);
      var next := Request(Some(RedirectHostAsWritten(req.host.value, r.short)), url, encrypted);
      Respond(st.names, st.cache, dir, next, resolver, opener)
        == ServeAddress(st.names, cache, dir, Some(r.full), ForwardedUrl(url), resolver, opener)
  {
    var r := Classify(req);
    ShortenRedirects(req);
    RedirectAsWrittenLandsOnShortName(req.host.value, r.short);
    LookupAfterAssign(names, r.full);
  }

  /** `dat.<domain>` is a shorten host, and the rest after its `dat` is `.<domain>`. */
  lemma SentinelDomainHost(domain: string)
    ensures FirstLabel("dat." + domain) == Sentinel
    ensures ("dat." + domain)[|Sentinel|..] == "." + domain
  {
    var host := "dat." + domain;
    SentinelHostIff(host);
    assert host[..4] == "dat.";
  }

  /** The target `/<address>` of an address without `/` splits into the empty piece and the address. */
  lemma SplitSlashAddress(address: string)
    requires '/' !in address
    ensures Split("/" + address, '/') == ["", address]
  {
    FirstIndexAbsent(address, '/');
    SplitCons("", address, '/');
    assert "/" + address == "" + ['/'] + address;
  }

  /** The `location` header for `dat.<domain>`: the expanded short name and then `.<domain>`. */
  lemma DomainLocation(domain: string, short: string, encrypted: bool)
    ensures Location("dat." + domain, short, encrypted)
              == Scheme(encrypted) + "://" + Expand(short, Sentinel, "", "." + domain) + "." + domain
    ensures '$' !in short ==>
              Location("dat." + domain, short, encrypted) == Scheme(encrypted) + "://" + short + "." + domain
  {
    SentinelDomainHost(domain);
    var sc, e := Scheme(encrypted) + "://", Expand(short, Sentinel, "", "." + domain);
    assert sc + e + ("dat." + domain)[|Sentinel|..] == sc + e + "." + domain;
    assert sc + short + ("dat." + domain)[|Sentinel|..] == sc + short + "." + domain;
  }

  /** For a short name `$&` followed by text without `$`, the location starts `dat` instead. */
  lemma LeadingMatchLocation(scheme: string, short: string, domain: string)
    requires |short| >= 2 && short[..2] == "$&" && '$' !in short[2..]
    ensures scheme + Expand(short, Sentinel, "", "." + domain) + "." + domain
              == scheme + Sentinel + short[2..] + "." + domain
  {
    ExpandLeadingMatch(short, Sentinel, "", "." + domain);
  }

  /** The routing of `dat.<domain>/<address>` for an address of five or more characters without `/`. */
  lemma ShortenRouteFor(domain: string, address: string, encrypted: bool)
    requires |address| >= ShortNameLength && '/' !in address
    ensures Classify(Request(Some("dat." + domain), "/" + address, encrypted))
              == Shorten(address[..5], address, Location("dat." + domain, address[..5], encrypted))
  {
    SentinelDomainHost(domain);
    SplitSlashAddress(address);
  }

  /**
   * Registering an address of at least five characters under `dat.<domain>`: a `302` to the
   * scheme, the expansion of the address's first five characters and `.<domain>` (those five
   * characters themselves when they hold no `$`), with the five characters registered.
   */
  lemma RegisterAddress(names: map<string, string>, cache: map<Key, Session>, dir: string,
                        domain: string, address: string, encrypted: bool,
                        resolver: Option<string> -> Result<Key, Error>,
                        opener: Key -> Result<Session, Error>)
    requires |address| >= ShortNameLength && '/' !in address
    ensures var st := Respond(names, cache, dir, Request(Some("dat." + domain), "/" + address, encrypted), resolver, opener);
      && st.response == Reply(302, Some(Scheme(encrypted) + "://" + Expand(address[..5], Sentinel, "", "." + domain) + "." + domain), "")
      && ('$' !in address[..5] ==> st.response == Reply(302, Some(Scheme(encrypted) + "://" + address[..5] + "." + domain), ""))
      && LookupIn(st.names, address[..5]) == Some(address)
  {
    ShortenRouteFor(domain, address, encrypted);
    DomainLocation(domain, address[..5], encrypted);
  }

  /**
   * The handler as written, on an address whose first five characters are `$&` and three
   * characters without `$` (for example `$&abc`) under `dat.<domain>`: it registers those five
   * characters but redirects to `dat` and the three characters, so the next request asks for
   * another label.
   */
  lemma RegisterLeadingMatchAddress(names: map<string, string>, cache: map<Key, Session>, dir: string,
                                    domain: string, address: string, encrypted: bool,
                                    resolver: Option<string> -> Result<Key, Error>,
                                    opener: Key -> Result<Session, Error>)
    requires |address| >= ShortNameLength && '/' !in address
    requires address[..2] == "$&" && '$' !in address[2..5]
    ensures var st := Respond(names, cache, dir, Request(Some("dat." + domain), "/" + address, encrypted), resolver, opener);
      && st.response == Reply(302, Some(Scheme(encrypted) + "://" + Sentinel + address[2..5] + "." + domain), "")
      && LookupIn(st.names, address[..5]) == Some(address)
  {
    var a := address[..5];
    assert a[..2] == "$&" && a[2..] == address[2..5];
    RegisterAddress(names, cache, dir, domain, address, encrypted, resolver, opener);
    LeadingMatchLocation(Scheme(encrypted) + "://", a, domain);
  }

  lemma ExampleAddressFacts(domain: string, address: string)
    requires domain == "gateway.test" && address == "example-address-123"
    ensures |address| >= ShortNameLength && '/' !in address && address[..5] == "examp"
    ensures '$' !in address[..5]
    ensures Scheme(false) + "://" + address[..5] + "." + domain == "http://examp.gateway.test"
  {
    forall k | 0 <= k < |address| ensures address[k] != '/' { }
  }

  /**
   * The scenario of registering `example-address-123` under `dat.gateway.test` over an
   * unencrypted connection: a `302` to `http://examp.gateway.test`, with `examp` registered.
   */
  lemma RegisterExampleAddress(names: map<string, string>, cache: map<Key, Session>, dir: string,
                               domain: string, address: string,
                               resolver: Option<string> -> Result<Key, Error>,
                               opener: Key -> Result<Session, Error>)
    requires domain == "gateway.test" && address == "example-address-123"
    ensures var st := Respond(names, cache, dir, Request(Some("dat." + domain), "/" + address, false), resolver, opener);
      && st.response == Reply(302, Some("http://examp.gateway.test"), "")
      && LookupIn(st.names, "examp") == Some(address)
  {
    ExampleAddressFacts(domain, address);
    RegisterAddress(names, cache, dir, domain, address, false, resolver, opener);
  }

  /**
   * The Node process the gateways run in. An exception that escapes a request listener ends
   * it for every gateway, unless the embedding program handles `uncaughtException`.
   */
  class NodeProcess {
    /** False once an exception has escaped a request listener. */
    var running: bool

    constructor ()
      ensures running
    {
      running := true;
    }
  }

  class DatGateway {
    /** The storage directory passed to every open. */
    const dir: string
    /** The process-wide short-name table (index.js:17), shared with every other gateway. */
    const names: NameTable
    /** The LRU cache's contents, key to session. */
    var cache: map<Key, Session>
    /** The effects taken so far, oldest first. */
    var trace: seq<Effect>
    /** The process the gateway runs in, shared with every other gateway in it. */
    const process: NodeProcess

    constructor (dir: string, names: NameTable, process: NodeProcess)
      ensures this.dir == dir && this.names == names && this.process == process
      ensures cache == map[] && trace == []
    {
      this.dir := dir;
      this.names := names;
      this.process := process;
      cache := map[];
      trace := [];
    }

    /** `getDat(key)`, with `opener` giving what the archive library reports for a key. */
    method GetDat(key: Key, opener: Key -> Result<Session, Error>) returns (r: Result<Session, Error>)
      modifies this
      ensures var a := Acquire(old(cache), dir, key, opener(key));
        r == a.result && cache == a.cache && trace == old(trace) + a.effects
      ensures process.running == old(process.running)
    {
      if key in cache {
        r := Success(cache[key]);
        return;
      }
      trace := trace + [OpenSession(dir, OpenOptions(TemporaryStorage, key))];
      match opener(key)
      case Failure(e) =>
        r := Failure(e);
      case Success(s) =>
        cache := cache[key := s];
        trace := trace + [StoreEntry(key)];
        trace := trace + [JoinNetwork(key)];
        trace := trace + [MetadataSynced(key)];
        r := Success(s);
    }

    /**
     * The request listener, run to the end of its promise chain, in a process that is still
     * running; a request that throws ends the process.
     */
    method Handle(req: Request, resolver: Option<string> -> Result<Key, Error>,
                  opener: Key -> Result<Session, Error>) returns (resp: Response)
      requires process.running
      modifies this, names, process
      ensures var st := Respond(old(names.entries), old(cache), dir, req, resolver, opener);
        && resp == st.response
        && names.entries == st.names
        && cache == st.cache
        && trace == old(trace) + st.effects
      ensures process.running <==> !resp.Uncaught?
    {
      match Classify(req)
      case Unhandled =>
        resp := Uncaught;
        process.running := false;
      case Shorten(_, full, location) =>
        names.Register(full);
        resp := RedirectReply(location);
      case Serve(subdomain, forward) =>
        var address := names.Lookup(subdomain);
        match resolver(address)
        case Failure(e) =>
          resp := ErrorReply(e);
        case Success(key) =>
          var got := GetDat(key, opener);
          match got
          case Failure(e) =>
            resp := ErrorReply(e);
          case Success(s) =>
            resp := Delegated(s, forward);
    }

    /** `close()`: the server finishes closing first, then the cache is reset. */
    method Close()
      modifies this
      ensures cache == map[]
      ensures trace == old(trace) + [ServerClosed, CacheReset]
      ensures process.running == old(process.running)
    {
      trace := trace + [ServerClosed];
      cache := map[];
      trace := trace + [CacheReset];
    }
  }
}
