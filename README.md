# Linked-URL proxy: a Dafny model of its SSRF-guarding fetch gateway

The linked-URL proxy fetches a user-supplied URL for the web application
and streams the answer back, while keeping requests away from addresses
inside the host network (server-side request forgery). This project models
its controller, `services/linked-url-proxy/app/js/LinkedUrlProxyController.mjs`,
and proves what it guarantees.

- `failures.dfy` (`Failures`): the error values. An error carries a name, a
  message and the HTTP status in `err.info.status`; status 0 means "none",
  because JavaScript treats a missing status and 0 alike.
- `optional.dfy` (`Optional`): the `Option` type.
- `environment.dfy` (`Environment`): the read-only settings (`Config`), and
  the foreign libraries and the network as function values:
  - `UrlLibrary` holds the sanitiser, the WHATWG `URL` parser and resolver,
    and the path normaliser.
  - `IpLibrary` holds the range table and the CIDR parser of `ipaddr.js`.
  - `Network` holds `dns.lookup` and the transport.
  - The network functions also take the hop number, so a resolver that
    answers differently from one hop to the next is covered. Within one
    hop, the transport's own second resolution of the host is not modelled
    (see "Left out").
- `parse_int.dfy` (`JsParseInt`): `parseInt(s, 10)` as ECMA-262 defines it,
  used on the `content-length` header.
- `ip_address.dfy` (`IpAddress`): addresses as bit sequences, IPv4-mapped
  IPv6 addresses (section 2.5.5.2 of RFC 4291), and prefix matching
  (section 3.1 of RFC 4632).
- `access_policy.dfy` (`AccessPolicy`): `isAllowedResource`, `isBlockedIp`
  and `checkUrlAccess`. The two loops are methods proved against the
  functions `IsBlocked` and `AccessCheck`.
- `fetch_orchestrator.dfy` (`FetchOrchestrator`): `validateAndFetch` as a
  recursive function over the redirect count. Each call returns its result
  and the calls it made on the outside world (DNS lookup, request, stream
  destruction), tagged with the hop, in order.
- `stream_relay.dfy` (`StreamRelay`): `proxy` as a method on a `Relay`
  object. The object stands for the caller's response and the upstream
  stream. Its `OnError` method is the `onError` handler.

Points where the code's behaviour is easy to misread:
- The URL requested is `url.toString()`. The normalised path only decides
  whether the request goes ahead and is never put into the URL
  (`NormalizedPathOnlyGates`).
- A CIDR entry is fatal (500) when matching it throws, as well as when it
  does not parse. `ipaddr.js` throws when the address and the range are of
  different families. So in a list that mixes IPv4 and IPv6 ranges, an
  address fails with 500 on the first range of the other family that it
  reaches (`OtherFamilyEntryIsFatal`).
- A URL that the `URL` class cannot parse throws a `TypeError` with no
  status, and the boundary answers it with 500, not 400. The same holds for
  a redirect whose `Location` cannot be resolved against the current URL.
- The code does not itself release a redirect response's stream before it
  follows the redirect.
- `res.writeHead` throws on a status outside 100..999. In the failure path
  `proxy` then sends a bare `res.end()`: the default 200, no headers, no
  body. In `onError` the throw leaves the handler with nothing written.

## Model

| member | source | states |
|---|---|---|
| `AccessPolicy.IsAllowedResource` | services/linked-url-proxy/app/js/LinkedUrlProxyController.mjs:11-14 | without an allow-list no URL is allowed; with one, exactly the URLs its test accepts |
| `AccessPolicy.IsBlockedIp` | services/linked-url-proxy/app/js/LinkedUrlProxyController.mjs:16-39 | the early-exit loop over the blocked networks returns or throws exactly what `IsBlocked` prescribes, for every address |
| `AccessPolicy.MappedAddressJudgedAsEmbedded` | services/linked-url-proxy/app/js/LinkedUrlProxyController.mjs:17-20 | an IPv4-mapped IPv6 address gets the same verdict (blocked, allowed or fatal) as the IPv4 address it embeds, and `::ffff:v` is judged as `v` |
| `AccessPolicy.NonUnicastBlockedWithoutList` | services/linked-url-proxy/app/js/LinkedUrlProxyController.mjs:22-25 | an address whose range is not "unicast" is blocked whatever the blocked-network list holds |
| `AccessPolicy.ListPassesIffEveryEntryMisses` | services/linked-url-proxy/app/js/LinkedUrlProxyController.mjs:27-38 | the list clears an address if and only if every entry parses, is of the address's family, and does not match |
| `AccessPolicy.FirstDecisiveEntryDecides` | services/linked-url-proxy/app/js/LinkedUrlProxyController.mjs:27-36 | the first entry that does not miss decides: a match blocks, a parse or match failure throws the 500 "Invalid blockedNetworks entry" error; later entries are not read |
| `AccessPolicy.OtherFamilyEntryIsFatal` | services/linked-url-proxy/app/js/LinkedUrlProxyController.mjs:29-35 | a reached entry of the other address family is fatal (500) |
| `AccessPolicy.BlockedErrorsAreFatal` | services/linked-url-proxy/app/js/LinkedUrlProxyController.mjs:31-35 | the only error the classification throws has status 500 |
| `AccessPolicy.ListErrorsAreFatal` | services/linked-url-proxy/app/js/LinkedUrlProxyController.mjs:31-35 | every error of the list walk has status 500 |
| `AccessPolicy.CheckUrlAccess` | services/linked-url-proxy/app/js/LinkedUrlProxyController.mjs:41-57 | resolving the host and looping over its addresses returns or throws exactly what `AccessCheck` prescribes for that hop's DNS answer |
| `AccessPolicy.UnresolvedHostFails` | services/linked-url-proxy/app/js/LinkedUrlProxyController.mjs:42-47 | an empty or failed lookup fails with 421 even for an allow-listed URL |
| `AccessPolicy.AllowListedSkipsAddressChecks` | services/linked-url-proxy/app/js/LinkedUrlProxyController.mjs:48-49 | a resolved, allow-listed URL passes whatever its addresses are |
| `AccessPolicy.AccessGrantedIff` | services/linked-url-proxy/app/js/LinkedUrlProxyController.mjs:43-56 | a resolved host passes if and only if its URL is allow-listed or every resolved address is classified as not blocked |
| `AccessPolicy.RecordsPassIff` | services/linked-url-proxy/app/js/LinkedUrlProxyController.mjs:50-56 | the address loop passes if and only if no address is blocked and none throws |
| `AccessPolicy.FirstRejectedAddressDecides` | services/linked-url-proxy/app/js/LinkedUrlProxyController.mjs:50-55 | without the allow-list, the first address not cleared decides: blocked gives 403 "Blocked IP address: <address>", a throw is passed on |
| `AccessPolicy.FirstRejectedRecordDecides` | services/linked-url-proxy/app/js/LinkedUrlProxyController.mjs:50-55 | the same for the address loop alone |
| `AccessPolicy.AccessFailureStatuses` | services/linked-url-proxy/app/js/LinkedUrlProxyController.mjs:41-57 | every failure of the gate has status 421, 403 or 500 |
| `AccessPolicy.RecordsFailureStatuses` | services/linked-url-proxy/app/js/LinkedUrlProxyController.mjs:50-56 | every failure of the address loop has status 403 or 500 |
| `IpAddress.MappingRoundTrips` | services/linked-url-proxy/app/js/LinkedUrlProxyController.mjs:18-19 | mapping an IPv4 address into IPv6 and unwrapping it are inverse, in both orders |
| `IpAddress.Matches` | services/linked-url-proxy/app/js/LinkedUrlProxyController.mjs:30 | a match fails exactly when the families differ, and holds exactly when the first `prefix` bits agree |
| `JsParseInt.LeadingDigits` | services/linked-url-proxy/app/js/LinkedUrlProxyController.mjs:105 | the digit run `parseInt` reads is a prefix of its input, all digits, and stops at the first non-digit |
| `JsParseInt.ParseInt` | services/linked-url-proxy/app/js/LinkedUrlProxyController.mjs:105 | the value is a number if and only if a digit follows the leading white space and optional sign; it is negative only after a `-` |
| `JsParseInt.Decimal` | services/linked-url-proxy/app/js/LinkedUrlProxyController.mjs:105 | the decimal rendering of `n` is a non-empty string of digits whose value is `n` |
| `JsParseInt.ParseIntReadsDecimal` | services/linked-url-proxy/app/js/LinkedUrlProxyController.mjs:105 | `parseInt` of a decimal number, with any leading white space and any trailing text that does not start with a digit, is that number |
| `JsParseInt.ParseIntWithoutDigitsIsNaN` | services/linked-url-proxy/app/js/LinkedUrlProxyController.mjs:105-106 | a value without a digit after the white space and optional sign is `NaN` |
| `FetchOrchestrator.CheckInput` | services/linked-url-proxy/app/js/LinkedUrlProxyController.mjs:66-87 | an input is accepted if and only if it sanitises to a non-empty string that parses, with scheme `http:` or `https:` and a non-empty normalised path; the accepted URL is that parse; a parse failure is exactly the parser's `TypeError`, and every other rejection is a 400 |
| `FetchOrchestrator.ExceedsUploadCap` | services/linked-url-proxy/app/js/LinkedUrlProxyController.mjs:103-106 | the cap trips if and only if the `content-length` header is present and `parseInt` reads it as a number above the cap |
| `FetchOrchestrator.Settle` | services/linked-url-proxy/app/js/LinkedUrlProxyController.mjs:100-143 | only a tripped cap destroys the opened stream, and it fails with 413; only a 3xx with a `Location` is followed, to that location resolved against the current URL, and an unresolvable `Location` gives the `URL` class's `TypeError`; a response within the cap is returned as it came; an error from outside the HTTP exchange leaves with a status, its name and message kept |
| `FetchOrchestrator.ValidateAndFetch` | services/linked-url-proxy/app/js/LinkedUrlProxyController.mjs:59-144 | past the hop limit the call fails with 421 and makes no call; every call it makes is tagged with a hop between the starting count and the limit; the first call is the lookup of the accepted URL's host, the second the request for that URL's own serialisation |
| `FetchOrchestrator.InvalidInputRejectedBeforeAnyCall` | services/linked-url-proxy/app/js/LinkedUrlProxyController.mjs:66-87 | a falsy sanitiser result, a scheme other than `http:`/`https:`, or an empty normalised path each give 400 with its message, before any lookup or request |
| `FetchOrchestrator.EveryRequestGuarded` | services/linked-url-proxy/app/js/LinkedUrlProxyController.mjs:89-101 | on every hop, the request comes right after that hop's DNS lookup; the host looked up and the URL requested are the host and serialisation of one accepted URL; the access gate passed for that lookup's answer and the requested URL |
| `FetchOrchestrator.GuardedAppend` | services/linked-url-proxy/app/js/LinkedUrlProxyController.mjs:127-128 | joining the calls of one hop and those of the redirect it follows keeps every request guarded |
| `FetchOrchestrator.RequestOnlyAfterCleanLookup` | services/linked-url-proxy/app/js/LinkedUrlProxyController.mjs:89-101 | before every request, the requested URL's own host was looked up on the same hop and answered; either the URL is allow-listed or every address of that answer is classified as not blocked |
| `FetchOrchestrator.RequestCountAppend` | services/linked-url-proxy/app/js/LinkedUrlProxyController.mjs:127-128 | the requests of a hop and of the redirect it follows add up |
| `FetchOrchestrator.RequestsWithinBudget` | services/linked-url-proxy/app/js/LinkedUrlProxyController.mjs:124-128 | a call starting at redirect count `c` sends at most `maxRedirects + 1 - c` requests, so at most `maxRedirects` redirects are followed |
| `FetchOrchestrator.NormalizedPathOnlyGates` | services/linked-url-proxy/app/js/LinkedUrlProxyController.mjs:81-101 | any path normaliser that accepts and rejects the same paths yields the same result and the same calls: the normalised path never reaches the request |
| `FetchOrchestrator.DeclaredLengthAgainstCap` | services/linked-url-proxy/app/js/LinkedUrlProxyController.mjs:103-106 | a `content-length` of `n` in decimal trips the cap if and only if `n` is above it, so `cap + 1` is refused and `cap` is not |
| `FetchOrchestrator.OversizedResponseRejected` | services/linked-url-proxy/app/js/LinkedUrlProxyController.mjs:103-111 | a response whose declared length trips the cap fails with 413 and its opened stream is destroyed |
| `FetchOrchestrator.ResponseWithinCapReturned` | services/linked-url-proxy/app/js/LinkedUrlProxyController.mjs:103-118 | a response whose `content-length` does not trip the cap (absent, empty, `NaN`, or at most the cap) is returned with its status and headers after exactly one lookup and one request |
| `FetchOrchestrator.RedirectFollowed` | services/linked-url-proxy/app/js/LinkedUrlProxyController.mjs:123-128 | a 3xx with `Location` recurses on the target resolved against the current URL with the count plus one, and its outcome is the call's outcome |
| `FetchOrchestrator.TransportFailureMapping` | services/linked-url-proxy/app/js/LinkedUrlProxyController.mjs:119-142 | a 3xx without `Location` gives 421; a 3xx whose `Location` cannot be resolved gives the `URL` class's `TypeError` (500 at the boundary); another `RequestFailedError` is passed on unchanged; another error keeps its status, or gets 408 for a timeout and 422 otherwise |
| `StreamRelay.Proxy` | services/linked-url-proxy/app/js/LinkedUrlProxyController.mjs:146-188 | the response ends in exactly the state `ProxyReply` prescribes: status, headers, body, and whether the upstream is piped; a status `writeHead` refuses ends in a bare `res.end()` |
| `StreamRelay.ProxyReplyCases` | services/linked-url-proxy/app/js/LinkedUrlProxyController.mjs:150-185 | a missing `url` gives 400 `Missing ?url parameter`; a failure gives its status (500 if none) and `Error: <message>`, or a bare 200 with no body when that status is outside 100..999; a success gives the upstream status (200 if none) and content type (`application/octet-stream` if none) |
| `StreamRelay.ReplyStatusNeverZero` | services/linked-url-proxy/app/js/LinkedUrlProxyController.mjs:151-182 | every reply carries a status other than 0 |
| `StreamRelay.BlockedPrivateHostAnswered403` | services/linked-url-proxy/app/js/LinkedUrlProxyController.mjs:41-57 | a host resolving only to the private 10.0.0.5 is answered 403 with body `Error: Blocked IP address: 10.0.0.5` |
| `StreamRelay.PrivateOnlyHostRefused` | services/linked-url-proxy/app/js/LinkedUrlProxyController.mjs:16-56 | a URL that is not allow-listed, whose host resolves only to non-unicast addresses (IPv4, IPv6 or IPv4-mapped), is refused with 403 naming its first address, whatever the blocked-network list holds |
| `StreamRelay.Relay.OnError` | services/linked-url-proxy/app/js/LinkedUrlProxyController.mjs:162-172 | the upstream is always destroyed; before the head is sent the caller gets the error's status (503 if none) and `Error: <message>`, unless `writeHead` refuses that status and the throw leaves the handler with nothing written; afterwards the response is destroyed and nothing else changes |
| `StreamRelay.UpstreamFailsTwice` | services/linked-url-proxy/app/js/LinkedUrlProxyController.mjs:162-172 | two upstream errors before the head is sent answer the caller once and then destroy the response, with the upstream destroyed; if the first status is refused by `writeHead`, the handler throws and nothing is written |

## Left out

- Name resolution, the HTTP transport, `strict-url-sanitise`,
  `als-normalize-urlpath`, the WHATWG `URL` class and the range table of
  `ipaddr.js` are foreign code. They are parameters of the model: function
  values in `UrlLibrary`, `IpLibrary` and `Network`.
- A throw from the sanitiser or the path normaliser themselves is not
  modelled. They return a string, and "" is their rejection.
- `ipaddr.parse` of a DNS answer is not modelled. `dns.lookup` only returns
  well-formed addresses, so each answer is its text together with its
  parsed value.
- `AccessPolicy.IsBlocked` unwraps a mapped address directly. The source
  prints the embedded IPv4 address and parses it again; the model takes
  that round trip to give back the same address.
- The allow-list is a pure predicate. The `lastIndex` state of a global
  regular expression's `test` is not modelled.
- `parseInt` yields an exact integer. JavaScript rounds very long digit
  strings to a double before the comparison with the cap.
- The byte relay itself is event-driven I/O: `pipe`, backpressure, the
  body bytes, and a caller that disconnects. Only the flags that `proxy`
  and `onError` read and set are modelled. The first body chunk sending
  the head is `Relay.FlushHeaders`.
- Parsing the request line (`new URL(req.url, ...)`) is not modelled. The
  model starts from the `url` query parameter, or its absence.
- Node's `writeHead` truncates the status to 32 bits (`statusCode |= 0`)
  before its range check. The model applies the 100..999 check to the
  status as it is. A status below 2^32 + 100 is judged the same either
  way. From 2^32 + 100 on, truncation can give a status inside 100..999
  that Node accepts and the model refuses.
- The transport resolves the host name again on its own. Nothing ties the
  address it connects to to the answer `dns.lookup` gave the access gate
  on the same hop. A resolver that answers the gate with a public address
  and the transport with a blocked one (DNS rebinding) is therefore not
  excluded. `FetchOrchestrator.RequestOnlyAfterCleanLookup` speaks only
  about the gate's lookup.
- What happens after an exception leaves `onError` (an uncaught exception
  in an event handler) is not modelled. `Relay.OnError` reports it as
  `escaped`.
- `logger` calls and the loading of `Settings` are not modelled. The
  settings are an immutable parameter.
- The body stream that `validateAndFetch` returns is not modelled as data.
  `Fetched` records only that it is open, with the response's status and
  headers.
