/** The access gate run before every request: `isAllowedResource`,
    `isBlockedIp` and `checkUrlAccess`.

    A host must resolve to at least one address. A URL on the allow-list is
    then let through whatever it resolves to. Otherwise every address is
    classified: an IPv4-mapped IPv6 address is judged as the IPv4 address it
    carries, any range other than "unicast" is blocked, and a unicast address
    is blocked when it lies in one of the configured CIDR ranges. A range
    that cannot be parsed or matched is a configuration error (500).
 */
module AccessPolicy {
  import opened Optional
  import opened Failures
  import opened IpAddress
  import opened Environment

  /** `isAllowedResource`: without an allow-list nothing is allowed; with
      one, exactly the URLs its test accepts. */
  function IsAllowedResource(cfg: Config, targetUrl: string): (allowed: bool)
    ensures cfg.allowedResources.None? ==> !allowed
    ensures cfg.allowedResources.Some? ==> (allowed <==> cfg.allowedResources.value(targetUrl))
  {
    cfg.allowedResources.Some? && cfg.allowedResources.value(targetUrl)
  }

  function InvalidEntry(blocked: string): ProxyError
  {
    Raise("Invalid blockedNetworks entry: " + blocked, 500)
  }

  function BlockedAddress(address: string): ProxyError
  {
    Raise("Blocked IP address: " + address, 403)
  }

  function DnsFailure(hostname: string): ProxyError
  {
    Raise("DNS lookup failed for " + hostname, 421)
  }

  /** One configured entry against an address: `ipaddr.parseCIDR(blocked)`
      then `addr.match(net)`; `None` when either throws. */
  function EntryMatch(ips: IpLibrary, blocked: string, a: IpAddr): Option<bool>
  {
    match ips.parseCidr(blocked)
    case None => None
    case Some(net) => Matches(a, net)
  }

  /** The verdict of the blocked-network list, entry by entry in order:
      the first entry that matches blocks, the first that throws is fatal. */
  function ListVerdict(ips: IpLibrary, entries: seq<string>, a: IpAddr): Result<bool>
  {
    if entries == [] then Ok(false)
    else match EntryMatch(ips, entries[0], a)
      case None => Err(InvalidEntry(entries[0]))
      case Some(hit) => if hit then Ok(true) else ListVerdict(ips, entries[1..], a)
  }

  /** The value `isBlockedIp` returns (`Ok`) or throws (`Err`). */
  function IsBlocked(cfg: Config, ips: IpLibrary, a: IpAddr): Result<bool>
    decreases if a.V6? then 1 else 0
  {
    if IsIPv4Mapped(a) then IsBlocked(cfg, ips, EmbeddedIPv4(a))
    else if ips.rangeOf(a) != "unicast" then Ok(true)
    else ListVerdict(ips, cfg.blockedNetworks, a)
  }

  /** The address that is classified: the embedded IPv4 address of an
      IPv4-mapped address, the address itself otherwise. */
  function Unmapped(a: IpAddr): IpAddr
  {
    if IsIPv4Mapped(a) then EmbeddedIPv4(a) else a
  }

  /** `isBlockedIp`: the early-exit loop over `Settings.blockedNetworks`. */
  method IsBlockedIp(cfg: Config, ips: IpLibrary, addr: IpAddr) returns (r: Result<bool>)
    ensures r == IsBlocked(cfg, ips, addr)
    decreases if addr.V6? then 1 else 0
  {
    if IsIPv4Mapped(addr) {
      r := IsBlockedIp(cfg, ips, EmbeddedIPv4(addr));
      return;
    }
    if ips.rangeOf(addr) != "unicast" {
      return Ok(true);
    }
    var entries := cfg.blockedNetworks;
    var i := 0;
    while i < |entries|
      invariant i <= |entries|
      invariant ListVerdict(ips, entries, addr) == ListVerdict(ips, entries[i..], addr)
    {
      var blocked := entries[i];
      var net := ips.parseCidr(blocked);
      if net.None? {
        return Err(InvalidEntry(blocked));
      }
      var hit := Matches(addr, net.value);
      if hit.None? {
        return Err(InvalidEntry(blocked));
      }
      if hit.value {
        return Ok(true);
      }
      assert entries[i..][1..] == entries[i + 1..];
      i := i + 1;
    }
    r := Ok(false);
  }

  /** The outcome of the address loop of `checkUrlAccess`. */
  function RecordsVerdict(cfg: Config, ips: IpLibrary, records: seq<Record>): Outcome
  {
    if records == [] then Pass
    else match IsBlocked(cfg, ips, records[0].ip)
      case Err(e) => Fail(e)
      case Ok(blocked) =>
        if blocked then Fail(BlockedAddress(records[0].address))
        else RecordsVerdict(cfg, ips, records[1..])
  }

  /** What `checkUrlAccess` does once the resolver answered `records`. */
  function AccessCheck(cfg: Config, ips: IpLibrary, hostname: string, records: seq<Record>, targetUrl: string): Outcome
  {
    if records == [] then Fail(DnsFailure(hostname))
    else if IsAllowedResource(cfg, targetUrl) then Pass
    else RecordsVerdict(cfg, ips, records)
  }

  /** `checkUrlAccess`: resolve every address of the host, then gate. */
  method CheckUrlAccess(cfg: Config, ips: IpLibrary, net: Network, hostname: string, targetUrl: string, hop: nat)
    returns (r: Outcome)
    ensures r == AccessCheck(cfg, ips, hostname, net.lookup(hostname, hop), targetUrl)
  {
    var records := net.lookup(hostname, hop);
    if |records| == 0 {
      return Fail(DnsFailure(hostname));
    }
    if IsAllowedResource(cfg, targetUrl) {
      return Pass;
    }
    var i := 0;
    while i < |records|
      invariant i <= |records|
      invariant RecordsVerdict(cfg, ips, records) == RecordsVerdict(cfg, ips, records[i..])
    {
      var blocked := IsBlockedIp(cfg, ips, records[i].ip);
      if blocked.Err? {
        return Fail(blocked.error);
      }
      if blocked.value {
        return Fail(BlockedAddress(records[i].address));
      }
      assert records[i..][1..] == records[i + 1..];
      i := i + 1;
    }
    r := Pass;
  }

  // ---------------------------------------------------------------------
  // Classification of one address

  /** An IPv4-mapped IPv6 address is blocked, allowed or fatal exactly as
      the IPv4 address it embeds, and `::ffff:v` is judged as `v`. */
  lemma MappedAddressJudgedAsEmbedded(cfg: Config, ips: IpLibrary, v: IpAddr, a: IpAddr)
    requires v.V4? && IsIPv4Mapped(a)
    ensures IsBlocked(cfg, ips, a) == IsBlocked(cfg, ips, EmbeddedIPv4(a))
    ensures IsBlocked(cfg, ips, MapToIPv6(v)) == IsBlocked(cfg, ips, v)
  {
    MappingRoundTrips(v, a);
  }

  /** A range other than "unicast" is blocked whatever the configured list
      holds: the list is not consulted, so even a malformed entry does not
      matter. */
  lemma NonUnicastBlockedWithoutList(cfg: Config, ips: IpLibrary, a: IpAddr)
    requires ips.rangeOf(Unmapped(a)) != "unicast"
    ensures IsBlocked(cfg, ips, a) == Ok(true)
    ensures forall other: seq<string> :: IsBlocked(cfg.(blockedNetworks := other), ips, a) == Ok(true)
  {
  }

  /** The list lets an address through exactly when every entry parses,
      is of the address's family, and does not match. */
  lemma {:induction false} ListPassesIffEveryEntryMisses(ips: IpLibrary, entries: seq<string>, a: IpAddr)
    ensures ListVerdict(ips, entries, a) == Ok(false)
        <==> forall i :: 0 <= i < |entries| ==> EntryMatch(ips, entries[i], a) == Some(false)
  {
    if entries != [] {
      ListPassesIffEveryEntryMisses(ips, entries[1..], a);
      if EntryMatch(ips, entries[0], a) == Some(false) {
        assert forall i :: 1 <= i < |entries| ==> entries[i] == entries[1..][i - 1];
      }
    }
  }

  /** The first entry that does not miss decides: a match blocks, a parse
      or match failure is fatal with status 500; later entries are never
      read. */
  lemma {:induction false} FirstDecisiveEntryDecides(ips: IpLibrary, entries: seq<string>, a: IpAddr, k: nat)
    requires k < |entries|
    requires forall j :: 0 <= j < k ==> EntryMatch(ips, entries[j], a) == Some(false)
    requires EntryMatch(ips, entries[k], a) != Some(false)
    ensures ListVerdict(ips, entries, a) ==
      if EntryMatch(ips, entries[k], a) == Some(true) then Ok(true) else Err(InvalidEntry(entries[k]))
  {
    if k > 0 {
      assert entries[1..][k - 1] == entries[k];
      FirstDecisiveEntryDecides(ips, entries[1..], a, k - 1);
    }
  }

  /** An entry of the other address family is fatal when it is reached:
      with IPv4 and IPv6 ranges in one list, an address of one family that
      misses every earlier entry fails on the first entry of the other. */
  lemma OtherFamilyEntryIsFatal(ips: IpLibrary, entries: seq<string>, a: IpAddr, k: nat, net: Cidr)
    requires k < |entries|
    requires forall j :: 0 <= j < k ==> EntryMatch(ips, entries[j], a) == Some(false)
    requires ips.parseCidr(entries[k]) == Some(net) && net.base.V4? != a.V4?
    ensures ListVerdict(ips, entries, a) == Err(InvalidEntry(entries[k]))
  {
    FirstDecisiveEntryDecides(ips, entries, a, k);
  }

  // ---------------------------------------------------------------------
  // The gate over all resolved addresses

  /** A host that does not resolve fails with 421 even when its URL is on
      the allow-list: the lookup is checked first. */
  lemma UnresolvedHostFails(cfg: Config, ips: IpLibrary, hostname: string, targetUrl: string)
    ensures AccessCheck(cfg, ips, hostname, [], targetUrl) == Fail(DnsFailure(hostname))
    ensures DnsFailure(hostname).status == 421
  {
  }

  /** A resolved host whose URL is on the allow-list passes without any of
      its addresses being classified, even a loopback or private one. */
  lemma AllowListedSkipsAddressChecks(cfg: Config, ips: IpLibrary, hostname: string, records: seq<Record>, targetUrl: string)
    requires records != [] && IsAllowedResource(cfg, targetUrl)
    ensures AccessCheck(cfg, ips, hostname, records, targetUrl) == Pass
  {
  }

  /** A resolved host passes exactly when its URL is allow-listed or every
      one of its addresses is classified as not blocked. */
  lemma {:induction false} AccessGrantedIff(cfg: Config, ips: IpLibrary, hostname: string, records: seq<Record>, targetUrl: string)
    requires records != []
    ensures AccessCheck(cfg, ips, hostname, records, targetUrl) == Pass
        <==> IsAllowedResource(cfg, targetUrl)
             || forall i :: 0 <= i < |records| ==> IsBlocked(cfg, ips, records[i].ip) == Ok(false)
  {
    RecordsPassIff(cfg, ips, records);
  }

  lemma {:induction false} RecordsPassIff(cfg: Config, ips: IpLibrary, records: seq<Record>)
    ensures RecordsVerdict(cfg, ips, records) == Pass
        <==> forall i :: 0 <= i < |records| ==> IsBlocked(cfg, ips, records[i].ip) == Ok(false)
  {
    if records != [] {
      RecordsPassIff(cfg, ips, records[1..]);
      if IsBlocked(cfg, ips, records[0].ip) == Ok(false) {
        assert forall i :: 1 <= i < |records| ==> records[i] == records[1..][i - 1];
      }
    }
  }

  /** Without the allow-list, the first address that is not cleared
      decides: a blocked one fails with 403 and names that address, one
      whose classification throws fails with that error. */
  lemma {:induction false} FirstRejectedAddressDecides(cfg: Config, ips: IpLibrary, hostname: string, records: seq<Record>, targetUrl: string, k: nat)
    requires !IsAllowedResource(cfg, targetUrl)
    requires k < |records|
    requires forall j :: 0 <= j < k ==> IsBlocked(cfg, ips, records[j].ip) == Ok(false)
    requires IsBlocked(cfg, ips, records[k].ip) != Ok(false)
    ensures AccessCheck(cfg, ips, hostname, records, targetUrl) ==
      match IsBlocked(cfg, ips, records[k].ip)
      case Ok(_) => Fail(BlockedAddress(records[k].address))
      case Err(e) => Fail(e)
  {
    FirstRejectedRecordDecides(cfg, ips, records, k);
  }

  lemma {:induction false} FirstRejectedRecordDecides(cfg: Config, ips: IpLibrary, records: seq<Record>, k: nat)
    requires k < |records|
    requires forall j :: 0 <= j < k ==> IsBlocked(cfg, ips, records[j].ip) == Ok(false)
    requires IsBlocked(cfg, ips, records[k].ip) != Ok(false)
    ensures RecordsVerdict(cfg, ips, records) ==
      match IsBlocked(cfg, ips, records[k].ip)
      case Ok(_) => Fail(BlockedAddress(records[k].address))
      case Err(e) => Fail(e)
  {
    if k > 0 {
      assert records[1..][k - 1] == records[k];
      FirstRejectedRecordDecides(cfg, ips, records[1..], k - 1);
    }
  }

  /** Every failure of the gate carries the status 421, 403 or 500. */
  lemma {:induction false} AccessFailureStatuses(cfg: Config, ips: IpLibrary, hostname: string, records: seq<Record>, targetUrl: string)
    ensures AccessCheck(cfg, ips, hostname, records, targetUrl).Fail? ==>
      AccessCheck(cfg, ips, hostname, records, targetUrl).error.status in {421, 403, 500}
  {
    if records != [] && !IsAllowedResource(cfg, targetUrl) {
      RecordsFailureStatuses(cfg, ips, records);
    }
  }

  lemma {:induction false} RecordsFailureStatuses(cfg: Config, ips: IpLibrary, records: seq<Record>)
    ensures RecordsVerdict(cfg, ips, records).Fail? ==> RecordsVerdict(cfg, ips, records).error.status in {403, 500}
  {
    if records != [] {
      BlockedErrorsAreFatal(cfg, ips, records[0].ip);
      RecordsFailureStatuses(cfg, ips, records[1..]);
    }
  }

  /** Classification only ever throws the 500 of a bad list entry. */
  lemma BlockedErrorsAreFatal(cfg: Config, ips: IpLibrary, a: IpAddr)
    ensures IsBlocked(cfg, ips, a).Err? ==> IsBlocked(cfg, ips, a).error.status == 500
  {
    ListErrorsAreFatal(ips, cfg.blockedNetworks, Unmapped(a));
  }

  lemma {:induction false} ListErrorsAreFatal(ips: IpLibrary, entries: seq<string>, a: IpAddr)
    ensures ListVerdict(ips, entries, a).Err? ==> ListVerdict(ips, entries, a).error.status == 500
  {
    if entries != [] {
      ListErrorsAreFatal(ips, entries[1..], a);
    }
  }
}
