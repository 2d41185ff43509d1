/**
 * The pure part of the gateway's request handler (index.js:33-66): reading the subdomain from
 * the Host header, choosing between "shorten" and "serve", deriving the short name and the
 * redirect location, rewriting the forwarded path, and mapping a rejection to a status.
 */
module Routing {
  import opened Wrappers
  import opened Externals
  import opened JsStrings

  /** The subdomain label that asks for an address to be shortened. */
  const Sentinel := "dat"
  /** How many characters of an address make its short name. */
  const ShortNameLength := 5
  /** The rejection message the resolver uses for an unknown name. */
  const NotFoundMessage := "DNS record not found"

  /** What the handler reads of a request: the Host header, the target and the socket's TLS flag. */
  datatype Request = Request(host: Option<string>, url: string, encrypted: bool)

  /** What the handler does with the response. */
  datatype Response =
      /** A status, an optional `location` header and a body, written by the handler itself. */
    | Reply(status: int, location: Option<string>, body: string)
      /** The request handed to the session's own handler with its target rewritten to `url`. */
    | Delegated(session: Session, url: string)
      /** A TypeError escapes the request listener; no response is written. */
    | Uncaught

  /** The handler's synchronous decision about a request. */
  datatype Route =
    | Unhandled
    | Shorten(short: string, full: string, location: string)
    | Serve(subdomain: string, forward: string)

  /** `host.split('.')[0]`: the text before the first `.`, the whole host if it has none. */
  function FirstLabel(host: string): (first: string)
    ensures |first| <= |host| && first == host[..|first|]
    ensures '.' !in first
    ensures first == host || host[|first|] == '.'
  {
    Split(host, '.')[0]
  }

  /** The shorten branch is taken exactly for the host `dat` and for hosts starting `dat.`. */
  lemma SentinelHostIff(host: string)
    ensures FirstLabel(host) == Sentinel <==> host == Sentinel || (|host| >= 4 && host[..4] == "dat.")
  {
    if host == Sentinel {
      FirstIndexAbsent(host, '.');
    } else if |host| >= 4 && host[..4] == "dat." {
      forall j | 0 <= j < 3 ensures host[j] != '.' {
        assert host[j] == "dat."[j];
      }
      FirstIndexUnique(host, '.', 3);
    }
  }

  /** `address.substr(0, 5)`: the address's first five characters, or all of it if shorter. */
  function ShortName(address: string): (short: string)
    ensures |short| == Min(ShortNameLength, |address|)
    ensures short == address[..|short|]
  {
    Substr(address, 0, ShortNameLength)
  }

  /** Addresses that agree on their first five characters get the same short name. */
  lemma ShortNameCollision(a: string, b: string)
    requires |a| >= ShortNameLength && |b| >= ShortNameLength
    requires a[..ShortNameLength] == b[..ShortNameLength]
    ensures ShortName(a) == ShortName(b)
  {
  }

  /** The protocol of the redirect: `https` exactly on an encrypted connection, else `http`. */
  function Scheme(encrypted: bool): (r: string)
    ensures r == "https" <==> encrypted
    ensures !encrypted ==> r == "http"
  {
    if encrypted then "https" else "http"
  }

  /**
   * `host.replace('dat', short)` as written: the short name is a replacement template, so on
   * the shorten branch it is expanded with `dat` as the match and the rest of the host after it.
   */
  function RedirectHostAsWritten(host: string, short: string): (r: string)
    ensures FirstLabel(host) == Sentinel ==>
              r == Expand(short, Sentinel, "", host[|Sentinel|..]) + host[|Sentinel|..]
  {
    SentinelHostIff(host);
    assert FirstLabel(host) == Sentinel ==> host[..3] == Sentinel && IndexOf(host, Sentinel) == Some(0);
    Replace(host, Sentinel, short)
  }

  /**
   * The first `dat` of the host replaced by the short name taken literally; on the shorten
   * branch that `dat` is the host's leading label.
   */
  function RedirectHost(host: string, short: string): (r: string)
    ensures FirstLabel(host) == Sentinel ==> r == short + host[|Sentinel|..]
  {
    SentinelHostIff(host);
    assert FirstLabel(host) == Sentinel ==> host[..3] == Sentinel && IndexOf(host, Sentinel) == Some(0);
    ReplaceLiteral(host, Sentinel, short)
  }

  /** As written and corrected agree whenever the short name holds no `$`. */
  lemma RedirectHostAgreesWithoutDollar(host: string, short: string)
    requires '$' !in short
    ensures RedirectHostAsWritten(host, short) == RedirectHost(host, short)
  {
    ReplaceWithoutDollar(host, Sentinel, short);
  }

  /**
   * The address `$&abc` (request target `/$&abc`) has itself as its short name, but on any
   * shorten host the host as written starts `databc`, because `$&` expands to the matched
   * `dat`; a browser following that redirect asks for the label `databc...`, not `$&abc`.
   */
  lemma DollarShortNameMisroutes(host: string)
    requires FirstLabel(host) == Sentinel
    ensures ShortName("$&abc") == "$&abc"
    ensures RedirectHostAsWritten(host, "$&abc") == "databc" + host[|Sentinel|..]
    ensures FirstLabel(RedirectHostAsWritten(host, "$&abc")) != "$&abc"
  {
    var after := host[|Sentinel|..];
    assert Expand("abc", Sentinel, "", after) == "abc";
    assert Expand("$&abc", Sentinel, "", after) == "dat" + "abc";
    var h := RedirectHostAsWritten(host, "$&abc");
    assert h[0] == 'd';
  }

  /** The corrected host for the same address leads to the short name `$&abc` itself. */
  lemma DollarShortNameCorrected(host: string)
    requires FirstLabel(host) == Sentinel
    ensures RedirectHost(host, "$&abc") == "$&abc" + host[|Sentinel|..]
    ensures FirstLabel(RedirectHost(host, "$&abc")) == "$&abc"
  {
    RedirectLandsOnShortName(host, "$&abc");
  }

  /**
   * Whoever follows the redirect asks for the short name as a subdomain label exactly when
   * the short name has no `.`; otherwise the next request's label is a shorter text.
   */
  lemma RedirectLandsOnShortName(host: string, short: string)
    requires FirstLabel(host) == Sentinel
    ensures FirstLabel(RedirectHost(host, short)) == short <==> '.' !in short
  {
    var rest := host[|Sentinel|..];
    assert rest == "" || rest[0] == '.';
    var h := short + rest;
    if '.' !in short {
      FirstIndexAfter(short, rest, '.');
      if rest != "" {
        FirstIndexUnique(rest, '.', 0);
      }
      assert h[..|short|] == short;
    } else {
      FirstIndexWithin(short, rest, '.');
      FirstIndexAbsent(short, '.');
    }
  }

  /** As written, the same holds for every short name without `$`. */
  lemma RedirectAsWrittenLandsOnShortName(host: string, short: string)
    requires FirstLabel(host) == Sentinel && '$' !in short
    ensures FirstLabel(RedirectHostAsWritten(host, short)) == short <==> '.' !in short
  {
    RedirectHostAgreesWithoutDollar(host, short);
    RedirectLandsOnShortName(host, short);
  }

  /**
   * The `location` header: the scheme follows the socket's encryption, and the host is the
   * request's host after `replace`, as written. On the shorten branch it is the expanded short
   * name followed by the host after `dat`, and the short name itself when it holds no `$`.
   */
  function Location(host: string, short: string, encrypted: bool): (r: string)
    ensures FirstLabel(host) == Sentinel ==>
      r == Scheme(encrypted) + "://" + Expand(short, Sentinel, "", host[|Sentinel|..]) + host[|Sentinel|..]
    ensures FirstLabel(host) == Sentinel && '$' !in short ==>
      r == Scheme(encrypted) + "://" + short + host[|Sentinel|..]
  {
    var h := RedirectHostAsWritten(host, short);
    assert FirstLabel(host) == Sentinel && '$' !in short ==> h == short + host[|Sentinel|..] by {
      if FirstLabel(host) == Sentinel && '$' !in short {
        RedirectHostAgreesWithoutDollar(host, short);
      }
    }
    Scheme(encrypted) + "://" + h
  }

  /**
   * `'/' + url.split('/').slice(1).join('/')`: the target the session's handler sees, which is
   * `/` followed by everything after the first `/` of the target (just `/` when it has none).
   */
  function ForwardedUrl(url: string): (r: string)
    ensures r == "/" + url[Min(FirstIndex(url, '/') + 1, |url|)..]
  {
    JoinSplitTail(url, '/');
    "/" + Join(Split(url, '/')[1..], '/')
  }

  /** A target that starts with `/` is forwarded unchanged. */
  lemma ForwardedUrlKeepsPath(url: string)
    requires |url| > 0 && url[0] == '/'
    ensures ForwardedUrl(url) == url
  {
    assert url == [url[0]] + url[1..];
  }

  /**
   * The handler's synchronous part: serve exactly when there is a Host header whose subdomain
   * is not `dat`, shorten exactly when the subdomain is `dat` and the target has a `/`; a
   * missing Host header or segment throws a TypeError.
   */
  function Classify(req: Request): (r: Route)
    ensures r.Serve? <==> req.host.Some? && FirstLabel(req.host.value) != Sentinel
    ensures r.Shorten? <==> req.host.Some? && FirstLabel(req.host.value) == Sentinel && '/' in req.url
  {
    SplitHasSecond(req.url, '/');
    match req.host
    case None => Unhandled
    case Some(host) =>
      var parts := Split(req.url, '/');
      if FirstLabel(host) == Sentinel then
        if |parts| < 2 then Unhandled
        else
          var full := parts[1];
          var short := ShortName(full);
          Shorten(short, full, Location(host, short, req.encrypted))
      else Serve(FirstLabel(host), ForwardedUrl(req.url))
  }

  /**
   * A shorten request registers the second `/`-piece of its target under its first five
   * characters and is redirected to the host whose leading label is replaced by their
   * expansion as a template, which is the short name itself when it holds no `$`.
   */
  lemma ShortenRedirects(req: Request)
    requires Classify(req).Shorten?
    ensures req.host.Some? && FirstLabel(req.host.value) == Sentinel
    ensures var r := Classify(req);
      && r.full == Split(req.url, '/')[1]
      && '/' !in r.full
      && |r.short| == Min(ShortNameLength, |r.full|)
      && r.short == r.full[..|r.short|]
      && r.location == Scheme(req.encrypted) + "://"
                       + Expand(r.short, Sentinel, "", req.host.value[|Sentinel|..]) + req.host.value[|Sentinel|..]
      && ('$' !in r.short ==> r.location == Scheme(req.encrypted) + "://" + r.short + req.host.value[|Sentinel|..])
  {
    var r := Classify(req);
  }

  /** A serve request looks up its leading label and forwards its path. */
  lemma ServeForwards(req: Request)
    requires Classify(req).Serve?
    ensures req.host.Some? && Classify(req).subdomain == FirstLabel(req.host.value)
    ensures Classify(req).forward == "/" + req.url[Min(FirstIndex(req.url, '/') + 1, |req.url|)..]
    ensures |req.url| > 0 && req.url[0] == '/' ==> Classify(req).forward == req.url
  {
    if |req.url| > 0 && req.url[0] == '/' {
      ForwardedUrlKeepsPath(req.url);
    }
  }

  /** The `302` the shorten branch writes: a `location` header and an empty body. */
  function RedirectReply(location: string): (r: Response)
    ensures r.Reply? && r.status == 302 && r.location == Some(location) && r.body == ""
  {
    Reply(302, Some(location), "")
  }

  /** The catch handler: `404 Not found` for an unknown name, `500` with the JSON otherwise. */
  function ErrorReply(e: Error): (r: Response)
    ensures r.Reply? && r.location == None
    ensures r.status == 404 <==> e.message == Some(NotFoundMessage)
    ensures r.status == 404 ==> r.body == "Not found"
    ensures r.status != 404 ==> r.status == 500 && r.body == e.json
  {
    if e.message == Some(NotFoundMessage) then Reply(404, None, "Not found")
    else Reply(500, None, e.json)
  }
}
