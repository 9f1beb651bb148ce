/** `proxy`: the HTTP boundary of the gateway, and the `onError` handler it
    attaches to the upstream stream.

    A request without a `url` parameter is answered 400. Otherwise the URL
    is fetched from a redirect count of 0; a failure is answered in plain
    text as `Error: <message>` with the error's status, 500 when it has
    none; a success sets the status (200 when the upstream gave none), the
    content type (`application/octet-stream` when the upstream gave none)
    and `Cache-Control: no-store`, and pipes the upstream body.

    `res.writeHead` refuses a status outside 100..999 by throwing before it
    writes anything. In the failure path `proxy` then calls `res.end()`,
    which sends the response's default status 200 with no body; in
    `onError` the throw leaves the handler.

    The caller's response and the upstream stream form one `Relay` object.
    Its flags are the ones `proxy` and `onError` read and change:
    `headersSent`, whether the response and the upstream were destroyed.
 */
module StreamRelay {
  import opened Optional
  import opened Failures
  import opened IpAddress
  import opened Environment
  import opened AccessPolicy
  import opened FetchOrchestrator

  const MissingUrlParameter: string := "Missing ?url parameter"
  const OctetStream: string := "application/octet-stream"

  /** What `proxy` has left on the caller's response when it returns. */
  datatype Reply =
    | TextReply(status: nat, body: string)           // a plain-text answer, already sent
    | StreamReply(status: nat, contentType: string)  // a head ready to go out with the piped body
    | BareEnd(status: nat)                           // `res.end()` with no head written and no body

  /** The statuses `res.writeHead` accepts. */
  predicate ValidStatus(status: nat)
  {
    100 <= status <= 999
  }

  /** The reply `proxy` gives, for the `url` query parameter (`None` when
      it is absent). */
  function ProxyReply(cfg: Config, urls: UrlLibrary, ips: IpLibrary, net: Network, urlParam: Option<string>): Reply
  {
    if urlParam.None? || urlParam.value == "" then TextReply(400, MissingUrlParameter)
    else match ValidateAndFetch(cfg, urls, ips, net, urlParam.value, 0).result
      case Err(e) =>
        var status := StatusOr(e.status, 500);
        if ValidStatus(status) then TextReply(status, "Error: " + Describe(e)) else BareEnd(200)
      case Ok(fetched) =>
        var contentType := Header(fetched.headers, "content-type");
        StreamReply(StatusOr(fetched.status, 200), if contentType != "" then contentType else OctetStream)
  }

  /** The caller's response `res` together with the upstream body stream. */
  class Relay {
    var statusCode: nat
    var headers: map<string, string>  // keyed by lower-case name
    var body: string
    var headersSent: bool
    var ended: bool
    var destroyed: bool               // `res.destroy()` was called
    var piping: bool                  // the upstream is piped in and `onError` attached
    var upstreamDestroyed: bool       // `upstreamStream.destroy()` was called

    /** Nothing is written before the head goes out. */
    ghost predicate Valid()
      reads this
    {
      (ended ==> headersSent) && (destroyed ==> headersSent)
    }

    /** A response as Node hands it to the handler. */
    ghost predicate Idle()
      reads this
    {
      && statusCode == 200 && headers == map[] && body == ""
      && !headersSent && !ended && !destroyed && !piping && !upstreamDestroyed
    }

    /** The response carries `reply`, and the upstream is still open. */
    ghost predicate Shows(reply: Reply)
      reads this
    {
      && !destroyed && !upstreamDestroyed
      && match reply
         case TextReply(status, text) =>
           && statusCode == status && headers == map["content-type" := "text/plain"]
           && body == text && headersSent && ended && !piping
         case StreamReply(status, contentType) =>
           && statusCode == status
           && headers == map["content-type" := contentType, "cache-control" := "no-store"]
           && body == "" && !headersSent && !ended && piping
         case BareEnd(status) =>
           && statusCode == status && headers == map[]
           && body == "" && headersSent && ended && !piping
    }

    constructor ()
      ensures Valid() && Idle()
    {
      statusCode, headers, body := 200, map[], "";
      headersSent, ended, destroyed, piping, upstreamDestroyed := false, false, false, false, false;
    }

    /** `res.writeHead(status, { 'Content-Type': contentType })`; `written`
        is false when it throws on an invalid status, and then nothing
        changed. */
    method WriteHead(status: nat, contentType: string) returns (written: bool)
      requires Valid() && !headersSent
      modifies this`statusCode, this`headers, this`headersSent
      ensures Valid()
      ensures written <==> ValidStatus(status)
      ensures written ==> headersSent && statusCode == status && headers == old(headers)["content-type" := contentType]
      ensures !written ==> !headersSent && statusCode == old(statusCode) && headers == old(headers)
    {
      if !ValidStatus(status) {
        return false;
      }
      statusCode := status;
      headers := headers["content-type" := contentType];
      headersSent := true;
      written := true;
    }

    /** `res.setHeader(name, value)`. */
    method SetHeader(name: string, value: string)
      requires !headersSent
      modifies this`headers
      ensures headers == old(headers)[name := value]
    {
      headers := headers[name := value];
    }

    /** `res.end(text)`: it sends the head first if it has not gone out. */
    method End(text: string)
      requires Valid() && !ended
      modifies this`body, this`ended, this`headersSent
      ensures Valid() && headersSent && ended && body == old(body) + text
    {
      body := body + text;
      headersSent := true;
      ended := true;
    }

    /** `upstreamStream.on('error', onError); upstreamStream.pipe(res)`. */
    method Pipe()
      requires !piping
      modifies this`piping
      ensures piping
    {
      piping := true;
    }

    /** The first upstream chunk reaches the caller: the head goes out. */
    method FlushHeaders()
      requires Valid() && piping
      modifies this`headersSent
      ensures Valid() && headersSent
    {
      headersSent := true;
    }

    /** `onError(err)`: the upstream is always destroyed; before the head
        went out the caller gets `err`'s status (503 when it has none) and
        `Error: <message>`, afterwards the caller's response is destroyed and
        its status and body stay as they were. `escaped` is true when
        `writeHead` threw on an invalid status and the throw left the
        handler with nothing written. */
    method OnError(err: ProxyError) returns (escaped: bool)
      requires Valid() && piping
      modifies this
      ensures Valid() && upstreamDestroyed && piping
      ensures escaped <==> !old(headersSent) && !ValidStatus(StatusOr(err.status, 503))
      ensures !old(headersSent) && !escaped ==>
        && headersSent
        && statusCode == StatusOr(err.status, 503)
        && headers == old(headers)["content-type" := "text/plain"]
        && body == old(body) + "Error: " + err.message
        && ended && destroyed == old(destroyed)
      ensures old(headersSent) ==>
        && headersSent && destroyed
        && statusCode == old(statusCode) && headers == old(headers)
        && body == old(body) && ended == old(ended)
      ensures escaped ==>
        && !headersSent && statusCode == old(statusCode) && headers == old(headers)
        && body == old(body) && ended == old(ended) && destroyed == old(destroyed)
    {
      upstreamDestroyed := true;
      escaped := false;
      if !headersSent {
        var written := WriteHead(StatusOr(err.status, 503), "text/plain");
        if !written {
          return true;
        }
        End("Error: " + err.message);
      } else {
        destroyed := true;
      }
    }
  }

  /** `proxy(req, res)`, for the request's `url` parameter. */
  method Proxy(cfg: Config, urls: UrlLibrary, ips: IpLibrary, net: Network, urlParam: Option<string>, res: Relay)
    requires res.Valid() && res.Idle()
    modifies res
    ensures res.Valid() && res.Shows(ProxyReply(cfg, urls, ips, net, urlParam))
  {
    if urlParam.None? || urlParam.value == "" {
      var _ := res.WriteHead(400, "text/plain");
      res.End(MissingUrlParameter);
      return;
    }
    var run := ValidateAndFetch(cfg, urls, ips, net, urlParam.value, 0);
    match run.result {
      case Err(e) =>
        var written := res.WriteHead(StatusOr(e.status, 500), "text/plain");
        if written {
          res.End("Error: " + Describe(e));
        } else {
          res.End("");
        }
      case Ok(fetched) =>
        res.statusCode := StatusOr(fetched.status, 200);
        var contentType := Header(fetched.headers, "content-type");
        res.SetHeader("content-type", if contentType != "" then contentType else OctetStream);
        res.SetHeader("cache-control", "no-store");
        res.Pipe();
    }
  }

  /** An upstream that fails twice before any byte reached the caller: the
      first error answers the caller, the second only destroys the
      response, and the upstream ends destroyed. When the first error's
      status is one `writeHead` refuses, the first handler call throws
      instead and the caller got nothing. */
  method UpstreamFailsTwice(res: Relay, first: ProxyError, second: ProxyError) returns (escaped: bool)
    requires res.Valid() && res.piping && !res.headersSent
    modifies res
    ensures res.Valid() && res.upstreamDestroyed
    ensures escaped <==> !ValidStatus(StatusOr(first.status, 503))
    ensures !escaped ==>
      && res.destroyed && res.ended
      && res.statusCode == StatusOr(first.status, 503)
      && res.body == old(res.body) + "Error: " + first.message
    ensures escaped ==> !res.headersSent && !res.ended && res.body == old(res.body)
  {
    escaped := res.OnError(first);
    if escaped {
      return;
    }
    var again := res.OnError(second);
    assert !again;
  }

  // ---------------------------------------------------------------------
  // Properties of the reply

  /** The three ways `proxy` answers: the missing parameter, a failure of
      the fetch, and a success. */
  lemma ProxyReplyCases(cfg: Config, urls: UrlLibrary, ips: IpLibrary, net: Network, urlParam: Option<string>)
    ensures urlParam == None || urlParam == Some("") ==>
      ProxyReply(cfg, urls, ips, net, urlParam) == TextReply(400, "Missing ?url parameter")
    ensures urlParam.Some? && urlParam.value != "" ==>
      match ValidateAndFetch(cfg, urls, ips, net, urlParam.value, 0).result
      case Err(e) =>
        var status := if e.status != 0 then e.status else 500;
        && (100 <= status <= 999 ==>
              ProxyReply(cfg, urls, ips, net, urlParam) == TextReply(status, "Error: " + Describe(e)))
        && (!(100 <= status <= 999) ==> ProxyReply(cfg, urls, ips, net, urlParam) == BareEnd(200))
      case Ok(f) =>
        && ProxyReply(cfg, urls, ips, net, urlParam).StreamReply?
        && ProxyReply(cfg, urls, ips, net, urlParam).status == (if f.status != 0 then f.status else 200)
        && ProxyReply(cfg, urls, ips, net, urlParam).contentType ==
             (if "content-type" in f.headers && f.headers["content-type"] != "" then f.headers["content-type"]
              else "application/octet-stream")
  {
  }

  /** Every status the caller sees is set: none of the fallbacks is 0. */
  lemma ReplyStatusNeverZero(cfg: Config, urls: UrlLibrary, ips: IpLibrary, net: Network, urlParam: Option<string>)
    ensures ProxyReply(cfg, urls, ips, net, urlParam).status != 0
  {
  }

  /** A host that resolves only to the private address 10.0.0.5 is refused
      with 403 and the body names the address. */
  lemma BlockedPrivateHostAnswered403(cfg: Config, urls: UrlLibrary, ips: IpLibrary, net: Network)
    requires cfg.maxRedirects >= 0
    requires urls.sanitize("http://evil.internal/secret") == "http://evil.internal/secret"
    requires urls.parseUrl("http://evil.internal/secret")
          == Some(Url("http:", "evil.internal", "/secret", "http://evil.internal/secret"))
    requires urls.normalizePath("/secret") == "/secret"
    requires net.lookup("evil.internal", 0) == [Record("10.0.0.5", IPv4(10, 0, 0, 5))]
    requires ips.rangeOf(IPv4(10, 0, 0, 5)) == "private"
    requires !IsAllowedResource(cfg, "http://evil.internal/secret")
    ensures ProxyReply(cfg, urls, ips, net, Some("http://evil.internal/secret"))
         == TextReply(403, "Error: " + ("Blocked IP address: " + "10.0.0.5"))
  {
    var rawUrl := "http://evil.internal/secret";
    var url := Url("http:", "evil.internal", "/secret", rawUrl);
    var blocked := BlockedAddress("10.0.0.5");
    assert AccessCheck(cfg, ips, url.hostname, net.lookup(url.hostname, 0), rawUrl) == Fail(blocked) by {
      PrivateOnlyHostRefused(cfg, ips, url.hostname, [Record("10.0.0.5", IPv4(10, 0, 0, 5))], rawUrl);
    }
    assert ValidateAndFetch(cfg, urls, ips, net, rawUrl, 0).result == Err(blocked) by {
      assert CheckInput(urls, rawUrl) == Ok(url);
    }
  }

  /** A host that resolves only to addresses (IPv4, IPv6 or IPv4-mapped)
      in ranges other than "unicast" is refused with 403 naming its first
      address, whatever the blocked-network list holds, unless its URL is
      allow-listed. */
  lemma PrivateOnlyHostRefused(cfg: Config, ips: IpLibrary, hostname: string, records: seq<Record>, targetUrl: string)
    requires records != []
    requires forall j :: 0 <= j < |records| ==> ips.rangeOf(Unmapped(records[j].ip)) != "unicast"
    requires !IsAllowedResource(cfg, targetUrl)
    ensures AccessCheck(cfg, ips, hostname, records, targetUrl) == Fail(BlockedAddress(records[0].address))
  {
    NonUnicastBlockedWithoutList(cfg, ips, records[0].ip);
    FirstRejectedAddressDecides(cfg, ips, hostname, records, targetUrl, 0);
  }
}
