/** `validateAndFetch`: one hop of the gateway and the redirect recursion.

    A hop checks the redirect count, sanitises and parses the URL, admits
    only `http:` and `https:`, requires the normalised path to be usable,
    runs the access gate on the URL's host, and only then asks the
    transport for the URL. The URL requested is the parsed URL's own
    serialisation: the normalised path is a gate only and is never put into
    the request. A 3xx answer with a `Location` header starts the next hop
    on the resolved target with the count raised by one.

    Besides its result, a hop records the calls it makes on the outside
    world (`Effect`s), so that the order of checks and calls can be stated.
 */
module FetchOrchestrator {
  import opened Optional
  import opened Failures
  import opened IpAddress
  import opened Environment
  import opened AccessPolicy
  import opened JsParseInt

  /** A call on the outside world, tagged with the hop that made it. */
  datatype Effect =
    | DnsLookup(hostname: string, hop: nat)
    | Request(url: string, hop: nat)
    | DestroyUpstream(hop: nat)

  /** What `validateAndFetch` resolves with: the upstream response's status
      and headers, its body stream still open. */
  datatype Fetched = Fetched(status: nat, headers: map<string, string>)

  /** The settled value of a call together with the calls it made, in order. */
  datatype Run = Run(result: Result<Fetched>, effects: seq<Effect>)

  /** How the transport's answer settles a hop: finished (and whether the
      open upstream stream was destroyed), or redirected to `next`. */
  datatype Step = Done(result: Result<Fetched>, destroyed: bool) | Follow(next: string)

  const TooManyRedirects: ProxyError := Raise("Too many redirects", 421)
  const MissingLocation: ProxyError := Raise("Redirect response missing Location header", 421)
  const FileTooLarge: ProxyError := Raise("file too large", 413)

  /** Sanitise, parse, admit the scheme, and gate on the normalised path.
      An input is accepted exactly when it sanitises, parses, uses `http:`
      or `https:` and has a usable normalised path; the accepted URL is
      the parse itself. */
  function CheckInput(urls: UrlLibrary, rawUrl: string): (r: Result<Url>)
    ensures r.Ok? ==> urls.parseUrl(urls.sanitize(rawUrl)) == Some(r.value)
    ensures r.Ok? <==>
      && urls.sanitize(rawUrl) != ""
      && urls.parseUrl(urls.sanitize(rawUrl)).Some?
      && urls.parseUrl(urls.sanitize(rawUrl)).value.protocol in {"http:", "https:"}
      && urls.normalizePath(urls.parseUrl(urls.sanitize(rawUrl)).value.pathname) != ""
    ensures urls.sanitize(rawUrl) != "" && urls.parseUrl(urls.sanitize(rawUrl)).None? ==> r == Err(InvalidUrlError)
    ensures r.Err? ==> r.error.status == 400 || r.error == InvalidUrlError
  {
    var sanitized := urls.sanitize(rawUrl);
    if sanitized == "" then Err(Raise("Invalid or unsafe URL: " + rawUrl, 400))
    else match urls.parseUrl(sanitized)
      case None => Err(InvalidUrlError)
      case Some(url) =>
        if url.protocol != "http:" && url.protocol != "https:" then
          Err(Raise(url.protocol + " protocol is not allowed", 400))
        else if urls.normalizePath(url.pathname) == "" then
          Err(Raise("Invalid or unsafe URL path: " + url.pathname, 400))
        else Ok(url)
  }

  /** The size check on a response: a `content-length` that `parseInt`
      reads as a number above the cap. An absent or empty header, or one
      that reads as `NaN`, never trips it. */
  function ExceedsUploadCap(headers: map<string, string>, maxUploadSize: int): (tooLarge: bool)
    ensures tooLarge ==> "content-length" in headers
    ensures tooLarge <==>
      ParseInt(Header(headers, "content-length")).Some? && ParseInt(Header(headers, "content-length")).value > maxUploadSize
  {
    var declared := Header(headers, "content-length");
    declared != "" && match ParseInt(declared)
      case None => false
      case Some(n) => n > maxUploadSize
  }

  /** The body of the `try` after the transport answered, and its `catch`.
      Only a size-cap refusal destroys the opened stream; only a 3xx with a
      `Location` is followed; an error that is not a `RequestFailedError`
      always leaves with a status, its name and message kept. */
  function Settle(cfg: Config, urls: UrlLibrary, normalizedUrl: string, t: Transport): (step: Step)
    ensures step.Done? && step.destroyed <==> t.Responded? && ExceedsUploadCap(t.headers, cfg.maxUploadSize)
    ensures step.Done? && step.destroyed ==> step.result == Err(FileTooLarge)
    ensures t.RequestFailed? && 300 <= t.error.status < 400 && Header(t.headers, "location") != ""
            && urls.resolveUrl(Header(t.headers, "location"), normalizedUrl).None? ==>
      step == Done(Err(InvalidUrlError), false)
    ensures step.Follow? ==>
      && t.RequestFailed? && 300 <= t.error.status < 400 && Header(t.headers, "location") != ""
      && urls.resolveUrl(Header(t.headers, "location"), normalizedUrl) == Some(step.next)
    ensures t.Responded? && !ExceedsUploadCap(t.headers, cfg.maxUploadSize) ==>
      step == Done(Ok(Fetched(t.status, t.headers)), false)
    ensures t.Threw? ==>
      && step.Done? && step.result.Err?
      && step.result.error.status != 0
      && step.result.error.name == t.error.name && step.result.error.message == t.error.message
  {
    match t
    case Responded(status, headers) =>
      if ExceedsUploadCap(headers, cfg.maxUploadSize) then Done(Err(FileTooLarge), true)
      else Done(Ok(Fetched(status, headers)), false)
    case RequestFailed(e, headers) =>
      if 300 <= e.status < 400 then
        var location := Header(headers, "location");
        if location == "" then Done(Err(MissingLocation), false)
        else match urls.resolveUrl(location, normalizedUrl)
          case None => Done(Err(InvalidUrlError), false)
          case Some(next) => Follow(next)
      else Done(Err(e), false)
    case Threw(e, timedOut) =>
      if e.status != 0 then Done(Err(e), false)
      else Done(Err(e.(status := if timedOut then 408 else 422)), false)
  }

  /** Hops still allowed from `redirectCount`; it falls on every redirect. */
  function Budget(cfg: Config, redirectCount: nat): nat
  {
    if redirectCount <= cfg.maxRedirects then cfg.maxRedirects + 1 - redirectCount else 0
  }

  /** `validateAndFetch(rawUrl, redirectCount)`. */
  function ValidateAndFetch(cfg: Config, urls: UrlLibrary, ips: IpLibrary, net: Network, rawUrl: string, redirectCount: nat): (r: Run)
    ensures redirectCount > cfg.maxRedirects ==> r == Run(Err(TooManyRedirects), [])
    ensures forall i :: 0 <= i < |r.effects| ==> redirectCount <= r.effects[i].hop <= cfg.maxRedirects
    ensures r.effects != [] ==>
      CheckInput(urls, rawUrl).Ok? && r.effects[0] == DnsLookup(CheckInput(urls, rawUrl).value.hostname, redirectCount)
    ensures |r.effects| > 1 ==> r.effects[1] == Request(CheckInput(urls, rawUrl).value.href, redirectCount)
    decreases Budget(cfg, redirectCount)
  {
    if redirectCount > cfg.maxRedirects then Run(Err(TooManyRedirects), [])
    else match CheckInput(urls, rawUrl)
      case Err(e) => Run(Err(e), [])
      case Ok(url) =>
        var normalizedUrl := url.href;
        var lookedUp := [DnsLookup(url.hostname, redirectCount)];
        match AccessCheck(cfg, ips, url.hostname, net.lookup(url.hostname, redirectCount), normalizedUrl)
        case Fail(e) => Run(Err(e), lookedUp)
        case Pass =>
          var requested := lookedUp + [Request(normalizedUrl, redirectCount)];
          match Settle(cfg, urls, normalizedUrl, net.fetch(normalizedUrl, redirectCount))
          case Done(result, destroyed) =>
            Run(result, if destroyed then requested + [DestroyUpstream(redirectCount)] else requested)
          case Follow(next) =>
            var rest := ValidateAndFetch(cfg, urls, ips, net, next, redirectCount + 1);
            Run(rest.result, requested + rest.effects)
  }

  // ---------------------------------------------------------------------
  // Rejections before any call

  /** Each of the three input rejections is a 400 and happens before the
      resolver or the transport is called. */
  lemma InvalidInputRejectedBeforeAnyCall(cfg: Config, urls: UrlLibrary, ips: IpLibrary, net: Network, rawUrl: string, redirectCount: nat)
    requires redirectCount <= cfg.maxRedirects
    ensures var r := ValidateAndFetch(cfg, urls, ips, net, rawUrl, redirectCount);
      && (urls.sanitize(rawUrl) == "" ==>
            r == Run(Err(Raise("Invalid or unsafe URL: " + rawUrl, 400)), []))
      && (forall u :: urls.sanitize(rawUrl) != "" && urls.parseUrl(urls.sanitize(rawUrl)) == Some(u) ==>
            && (u.protocol !in {"http:", "https:"} ==>
                  r == Run(Err(Raise(u.protocol + " protocol is not allowed", 400)), []))
            && (u.protocol in {"http:", "https:"} && urls.normalizePath(u.pathname) == "" ==>
                  r == Run(Err(Raise("Invalid or unsafe URL path: " + u.pathname, 400)), [])))
  {
  }

  // ---------------------------------------------------------------------
  // Every request is guarded, and there are few of them

  /** `hostname` and `href` are the host and the serialisation of one URL
      that the input check accepted. */
  ghost predicate SameAcceptedUrl(urls: UrlLibrary, hostname: string, href: string)
  {
    exists raw :: CheckInput(urls, raw).Ok? && CheckInput(urls, raw).value.hostname == hostname && CheckInput(urls, raw).value.href == href
  }

  /** Every request is immediately preceded by the DNS lookup of the same
      hop, for the host of the URL requested, and the access gate passed
      for that lookup's answer and the requested URL. */
  ghost predicate GuardedRequests(cfg: Config, urls: UrlLibrary, ips: IpLibrary, net: Network, es: seq<Effect>)
  {
    forall i :: 0 <= i < |es| && es[i].Request? ==>
      && 0 < i && es[i - 1].DnsLookup? && es[i - 1].hop == es[i].hop
      && SameAcceptedUrl(urls, es[i - 1].hostname, es[i].url)
      && AccessCheck(cfg, ips, es[i - 1].hostname, net.lookup(es[i - 1].hostname, es[i].hop), es[i].url) == Pass
  }

  lemma GuardedAppend(cfg: Config, urls: UrlLibrary, ips: IpLibrary, net: Network, a: seq<Effect>, b: seq<Effect>)
    requires GuardedRequests(cfg, urls, ips, net, a) && GuardedRequests(cfg, urls, ips, net, b)
    ensures GuardedRequests(cfg, urls, ips, net, a + b)
  {
    forall i | 0 <= i < |a + b| && (a + b)[i].Request?
      ensures 0 < i && (a + b)[i - 1].DnsLookup? && (a + b)[i - 1].hop == (a + b)[i].hop
      ensures SameAcceptedUrl(urls, (a + b)[i - 1].hostname, (a + b)[i].url)
      ensures AccessCheck(cfg, ips, (a + b)[i - 1].hostname, net.lookup((a + b)[i - 1].hostname, (a + b)[i].hop), (a + b)[i].url) == Pass
    {
      if i >= |a| {
        assert (a + b)[i] == b[i - |a|];
        assert i - |a| > 0;
        assert (a + b)[i - 1] == b[i - |a| - 1];
      }
    }
  }

  /** No request leaves the gateway unless the access gate passed, on that
      hop's own DNS answer for the requested URL's host, for the URL being
      requested. */
  lemma {:induction false} EveryRequestGuarded(cfg: Config, urls: UrlLibrary, ips: IpLibrary, net: Network, rawUrl: string, redirectCount: nat)
    ensures GuardedRequests(cfg, urls, ips, net, ValidateAndFetch(cfg, urls, ips, net, rawUrl, redirectCount).effects)
    decreases Budget(cfg, redirectCount)
  {
    if redirectCount <= cfg.maxRedirects && CheckInput(urls, rawUrl).Ok? {
      var url := CheckInput(urls, rawUrl).value;
      var records := net.lookup(url.hostname, redirectCount);
      if AccessCheck(cfg, ips, url.hostname, records, url.href) == Pass {
        var requested := [DnsLookup(url.hostname, redirectCount), Request(url.href, redirectCount)];
        assert SameAcceptedUrl(urls, url.hostname, url.href);
        assert GuardedRequests(cfg, urls, ips, net, requested);
        assert GuardedRequests(cfg, urls, ips, net, [DestroyUpstream(redirectCount)]);
        GuardedAppend(cfg, urls, ips, net, requested, [DestroyUpstream(redirectCount)]);
        match Settle(cfg, urls, url.href, net.fetch(url.href, redirectCount))
        case Done(_, _) =>
        case Follow(next) =>
          EveryRequestGuarded(cfg, urls, ips, net, next, redirectCount + 1);
          GuardedAppend(cfg, urls, ips, net, requested, ValidateAndFetch(cfg, urls, ips, net, next, redirectCount + 1).effects);
      }
    }
  }

  /** What the gate guarantees about every request: the host of the URL
      requested was looked up on that hop, the lookup answered, and either
      the URL is allow-listed or every address of that answer is classified
      as not blocked. The transport's own name resolution is a separate
      lookup that this does not constrain. */
  lemma RequestOnlyAfterCleanLookup(cfg: Config, urls: UrlLibrary, ips: IpLibrary, net: Network, rawUrl: string, redirectCount: nat, i: nat)
    requires var es := ValidateAndFetch(cfg, urls, ips, net, rawUrl, redirectCount).effects;
      i < |es| && es[i].Request?
    ensures var es := ValidateAndFetch(cfg, urls, ips, net, rawUrl, redirectCount).effects;
      && 0 < i && es[i - 1].DnsLookup? && es[i - 1].hop == es[i].hop
      && SameAcceptedUrl(urls, es[i - 1].hostname, es[i].url)
      && var records := net.lookup(es[i - 1].hostname, es[i].hop);
      && records != []
      && (IsAllowedResource(cfg, es[i].url)
          || forall j :: 0 <= j < |records| ==> IsBlocked(cfg, ips, records[j].ip) == Ok(false))
  {
    var es := ValidateAndFetch(cfg, urls, ips, net, rawUrl, redirectCount).effects;
    EveryRequestGuarded(cfg, urls, ips, net, rawUrl, redirectCount);
    var records := net.lookup(es[i - 1].hostname, es[i].hop);
    if records != [] {
      AccessGrantedIff(cfg, ips, es[i - 1].hostname, records, es[i].url);
    }
  }

  function RequestCount(es: seq<Effect>): nat
  {
    if es == [] then 0 else (if es[0].Request? then 1 else 0) + RequestCount(es[1..])
  }

  lemma {:induction false} RequestCountAppend(a: seq<Effect>, b: seq<Effect>)
    ensures RequestCount(a + b) == RequestCount(a) + RequestCount(b)
  {
    if a == [] {
      assert a + b == b;
    } else {
      assert (a + b)[1..] == a[1..] + b;
      RequestCountAppend(a[1..], b);
    }
  }

  /** The hop bound: a call with redirect count `c` sends at most
      `maxRedirects + 1 - c` requests, so from a count of 0 at most
      `maxRedirects` redirects are followed. */
  lemma {:induction false} RequestsWithinBudget(cfg: Config, urls: UrlLibrary, ips: IpLibrary, net: Network, rawUrl: string, redirectCount: nat)
    ensures RequestCount(ValidateAndFetch(cfg, urls, ips, net, rawUrl, redirectCount).effects) <= Budget(cfg, redirectCount)
    decreases Budget(cfg, redirectCount)
  {
    if redirectCount <= cfg.maxRedirects && CheckInput(urls, rawUrl).Ok? {
      var url := CheckInput(urls, rawUrl).value;
      var lookedUp := [DnsLookup(url.hostname, redirectCount)];
      var requested := lookedUp + [Request(url.href, redirectCount)];
      assert RequestCount(requested) == 1 by {
        var single := [Request(url.href, redirectCount)];
        assert single[1..] == [];
        assert RequestCount(single) == 1;
        assert requested[1..] == single;
      }
      RequestCountAppend(requested, [DestroyUpstream(redirectCount)]);
      if AccessCheck(cfg, ips, url.hostname, net.lookup(url.hostname, redirectCount), url.href) == Pass {
        match Settle(cfg, urls, url.href, net.fetch(url.href, redirectCount))
        case Done(_, _) =>
        case Follow(next) =>
          RequestsWithinBudget(cfg, urls, ips, net, next, redirectCount + 1);
          RequestCountAppend(requested, ValidateAndFetch(cfg, urls, ips, net, next, redirectCount + 1).effects);
      }
    }
  }

  // ---------------------------------------------------------------------
  // The normalised path is a gate only

  /** Replacing the path normaliser by any other that accepts and rejects
      the same paths changes nothing: neither the result nor the URLs that
      are looked up or requested depend on the normalised path itself. */
  lemma {:induction false} NormalizedPathOnlyGates(cfg: Config, urls: UrlLibrary, ips: IpLibrary, net: Network, normalize: string -> string, rawUrl: string, redirectCount: nat)
    requires forall p :: (normalize(p) == "") == (urls.normalizePath(p) == "")
    ensures ValidateAndFetch(cfg, urls.(normalizePath := normalize), ips, net, rawUrl, redirectCount)
         == ValidateAndFetch(cfg, urls, ips, net, rawUrl, redirectCount)
    decreases Budget(cfg, redirectCount)
  {
    var other := urls.(normalizePath := normalize);
    assert CheckInput(other, rawUrl) == CheckInput(urls, rawUrl);
    if redirectCount <= cfg.maxRedirects && CheckInput(urls, rawUrl).Ok? {
      var url := CheckInput(urls, rawUrl).value;
      assert Settle(cfg, other, url.href, net.fetch(url.href, redirectCount))
          == Settle(cfg, urls, url.href, net.fetch(url.href, redirectCount));
      match Settle(cfg, urls, url.href, net.fetch(url.href, redirectCount))
      case Done(_, _) =>
      case Follow(next) =>
        NormalizedPathOnlyGates(cfg, urls, ips, net, normalize, next, redirectCount + 1);
    }
  }

  // ---------------------------------------------------------------------
  // The size cap

  /** A `content-length` written as the decimal number `n` trips the cap
      exactly when `n` is above it: `cap + 1` is refused, `cap` is not. */
  lemma DeclaredLengthAgainstCap(headers: map<string, string>, cap: int, n: nat)
    requires Header(headers, "content-length") == Decimal(n)
    ensures ExceedsUploadCap(headers, cap) <==> n > cap
  {
    ParseIntReadsDecimal("", n, "");
    assert "" + Decimal(n) + "" == Decimal(n);
  }

  /** A response whose declared length trips the cap fails with 413 after
      its stream was opened, and that stream is destroyed. */
  lemma OversizedResponseRejected(cfg: Config, urls: UrlLibrary, ips: IpLibrary, net: Network, rawUrl: string, redirectCount: nat, u: Url, status: nat, headers: map<string, string>)
    requires redirectCount <= cfg.maxRedirects && CheckInput(urls, rawUrl) == Ok(u)
    requires AccessCheck(cfg, ips, u.hostname, net.lookup(u.hostname, redirectCount), u.href) == Pass
    requires net.fetch(u.href, redirectCount) == Responded(status, headers)
    requires ExceedsUploadCap(headers, cfg.maxUploadSize)
    ensures ValidateAndFetch(cfg, urls, ips, net, rawUrl, redirectCount) ==
      Run(Err(FileTooLarge), [DnsLookup(u.hostname, redirectCount), Request(u.href, redirectCount), DestroyUpstream(redirectCount)])
    ensures FileTooLarge.status == 413
  {
  }

  /** A response whose `content-length` does not trip the cap (absent,
      empty, `NaN`, or at most the cap) is returned as it came, its stream
      left open. */
  lemma ResponseWithinCapReturned(cfg: Config, urls: UrlLibrary, ips: IpLibrary, net: Network, rawUrl: string, redirectCount: nat, u: Url, status: nat, headers: map<string, string>)
    requires redirectCount <= cfg.maxRedirects && CheckInput(urls, rawUrl) == Ok(u)
    requires AccessCheck(cfg, ips, u.hostname, net.lookup(u.hostname, redirectCount), u.href) == Pass
    requires net.fetch(u.href, redirectCount) == Responded(status, headers)
    requires !ExceedsUploadCap(headers, cfg.maxUploadSize)
    ensures ValidateAndFetch(cfg, urls, ips, net, rawUrl, redirectCount) ==
      Run(Ok(Fetched(status, headers)), [DnsLookup(u.hostname, redirectCount), Request(u.href, redirectCount)])
  {
  }

  // ---------------------------------------------------------------------
  // Redirects and the mapping of transport failures

  /** A 3xx answer with a `Location` starts the next hop on the target
      resolved against the current URL, with the count raised by one; its
      outcome becomes this call's outcome. */
  lemma RedirectFollowed(cfg: Config, urls: UrlLibrary, ips: IpLibrary, net: Network, rawUrl: string, redirectCount: nat, u: Url, e: ProxyError, headers: map<string, string>, next: string)
    requires redirectCount <= cfg.maxRedirects && CheckInput(urls, rawUrl) == Ok(u)
    requires AccessCheck(cfg, ips, u.hostname, net.lookup(u.hostname, redirectCount), u.href) == Pass
    requires net.fetch(u.href, redirectCount) == RequestFailed(e, headers) && 300 <= e.status < 400
    requires Header(headers, "location") != ""
    requires urls.resolveUrl(Header(headers, "location"), u.href) == Some(next)
    ensures var r := ValidateAndFetch(cfg, urls, ips, net, rawUrl, redirectCount);
      var rest := ValidateAndFetch(cfg, urls, ips, net, next, redirectCount + 1);
      r.result == rest.result
      && r.effects == [DnsLookup(u.hostname, redirectCount), Request(u.href, redirectCount)] + rest.effects
  {
  }

  /** How a hop that reached the transport ends when it is not redirected:
      a 3xx without `Location` is 421, a 3xx whose `Location` the `URL`
      class cannot resolve is its `TypeError`, any other `RequestFailedError` is
      passed on unchanged, and another error keeps its status or, without
      one, gets 408 for a timeout and 422 otherwise, its message kept. */
  lemma TransportFailureMapping(cfg: Config, urls: UrlLibrary, ips: IpLibrary, net: Network, rawUrl: string, redirectCount: nat, u: Url)
    requires redirectCount <= cfg.maxRedirects && CheckInput(urls, rawUrl) == Ok(u)
    requires AccessCheck(cfg, ips, u.hostname, net.lookup(u.hostname, redirectCount), u.href) == Pass
    ensures var r := ValidateAndFetch(cfg, urls, ips, net, rawUrl, redirectCount);
      var requested := [DnsLookup(u.hostname, redirectCount), Request(u.href, redirectCount)];
      match net.fetch(u.href, redirectCount)
      case RequestFailed(e, headers) =>
        && (300 <= e.status < 400 && Header(headers, "location") == "" ==> r == Run(Err(MissingLocation), requested))
        && (var location := Header(headers, "location");
            300 <= e.status < 400 && location != "" && urls.resolveUrl(location, u.href).None? ==> r == Run(Err(InvalidUrlError), requested))
        && (!(300 <= e.status < 400) ==> r == Run(Err(e), requested))
      case Threw(e, timedOut) =>
        r == Run(Err(e.(status := StatusOr(e.status, if timedOut then 408 else 422))), requested)
      case Responded(_, _) => true
  {
  }
}
