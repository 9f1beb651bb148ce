/** What the gateway reads but does not own: the immutable settings, the
    foreign libraries it calls, and the network.

    The libraries (`strict-url-sanitise`, `als-normalize-urlpath`, the WHATWG
    `URL` class, `ipaddr.js`) and the network (`dns.lookup`,
    `fetchStreamWithResponse`) are given as functions. The network functions
    also take the hop number (the redirect count of the call that uses them),
    so that a resolver or server answering differently from one hop to the
    next is covered. Within a hop the transport resolves the host again on
    its own; which address it then connects to is not part of the model,
    and nothing ties it to the answer `lookup` gave the access gate.
 */
module Environment {
  import opened Optional
  import opened Failures
  import opened IpAddress

  /** The settings the gateway consults (`Settings.*`). */
  datatype Config = Config(
    allowedResources: Option<string -> bool>, // `Settings.allowedResources.test`, when set
    blockedNetworks: seq<string>,             // CIDR strings, in order
    maxRedirects: int,
    maxUploadSize: int)

  /** The parts of a parsed WHATWG `URL` that the gateway reads.
      `href` is `url.toString()`. */
  datatype Url = Url(protocol: string, hostname: string, pathname: string, href: string)

  datatype UrlLibrary = UrlLibrary(
    sanitize: string -> string,                   // `sanitizeUrl`; "" is a rejection
    parseUrl: string -> Option<Url>,              // `new URL(s)`; `None` when it throws
    resolveUrl: (string, string) -> Option<string>, // `new URL(location, base).toString()`
    normalizePath: string -> string)              // `normalizeUrlPath(p).pathname`; "" when unusable

  datatype IpLibrary = IpLibrary(
    rangeOf: IpAddr -> string,                    // `addr.range()`, e.g. "unicast", "private", "loopback"
    parseCidr: string -> Option<Cidr>)            // `ipaddr.parseCIDR`; `None` when it throws

  /** One answer of `dns.lookup(hostname, { all: true })`: the address as
      text and as the address library parses it. */
  datatype Record = Record(address: string, ip: IpAddr)

  /** What `fetchStreamWithResponse` does with one request.
      Response headers are keyed by lower-case name. */
  datatype Transport =
    | Responded(status: nat, headers: map<string, string>)
      // resolves with an open body stream; `response.status` (0 if absent)
    | RequestFailed(error: ProxyError, headers: map<string, string>)
      // rejects with a `RequestFailedError`: `error.status` is the HTTP status
    | Threw(error: ProxyError, timedOut: bool)
      // rejects with any other error; `timedOut` is `err.type === "request-timeout"`

  datatype Network = Network(
    lookup: (string, nat) -> seq<Record>,         // `dns.lookup`; [] also when it rejects
    fetch: (string, nat) -> Transport)

  /** `headers.get(name)`, with `null` and "" both read as "" (both falsy). */
  function Header(headers: map<string, string>, name: string): string
  {
    if name in headers then headers[name] else ""
  }
}
