/** IP addresses and CIDR ranges as the gateway's address library
    (`ipaddr.js`) represents them: an IPv4 address of 32 bits or an IPv6
    address of 128 bits, most significant bit first.

    `addr.match([base, prefix])` compares the first `prefix` bits of two
    addresses of the same family (section 3.1 of RFC 4632) and throws when
    the families differ; the thrown case is `None` below.
    `isIPv4MappedAddress()` recognises `::ffff:0:0/96` and `toIPv4Address()`
    takes the low 32 bits (section 2.5.5.2 of RFC 4291).
 */
module IpAddress {
  import opened Optional

  datatype Address = V4(bits: seq<bool>) | V6(bits: seq<bool>)

  /** The number of bits of an address of this family. */
  function Width(a: Address): nat
  {
    if a.V4? then 32 else 128
  }

  type IpAddr = a: Address | |a.bits| == Width(a) witness V4(seq(32, i => false))

  /** A range `base/prefix`, as `ipaddr.parseCIDR` returns it: the prefix
      never exceeds the width of the base address. */
  datatype CidrRange = CidrRange(base: IpAddr, prefix: nat)

  type Cidr = c: CidrRange | c.prefix <= Width(c.base) witness CidrRange(V4(seq(32, i => false)), 0)

  /** The 96 leading bits of an IPv4-mapped IPv6 address: 80 zero bits and
      16 one bits. */
  function MappedPrefix(): seq<bool>
  {
    seq(96, i => i >= 80)
  }

  predicate IsIPv4Mapped(a: IpAddr)
  {
    a.V6? && a.bits[..96] == MappedPrefix()
  }

  /** `toIPv4Address()` of a mapped address: its low 32 bits. */
  function EmbeddedIPv4(a: IpAddr): (v: IpAddr)
    requires IsIPv4Mapped(a)
    ensures v.V4?
  {
    V4(a.bits[96..])
  }

  /** `::ffff:a.b.c.d` for the IPv4 address `a.b.c.d`. */
  function MapToIPv6(v: IpAddr): (a: IpAddr)
    requires v.V4?
    ensures IsIPv4Mapped(a)
  {
    assert |MappedPrefix() + v.bits| == 128;
    assert (MappedPrefix() + v.bits)[..96] == MappedPrefix();
    V6(MappedPrefix() + v.bits)
  }

  /** Mapping an IPv4 address into IPv6 and unwrapping it again are inverse
      to each other, in both orders. */
  lemma MappingRoundTrips(v: IpAddr, a: IpAddr)
    requires v.V4? && IsIPv4Mapped(a)
    ensures EmbeddedIPv4(MapToIPv6(v)) == v
    ensures MapToIPv6(EmbeddedIPv4(a)) == a
  {
    assert (MappedPrefix() + v.bits)[96..] == v.bits;
    assert a.bits == a.bits[..96] + a.bits[96..];
  }

  /** `addr.match(net)`: `None` when the families differ (the library
      throws), otherwise whether the first `net.prefix` bits agree. */
  function Matches(a: IpAddr, net: Cidr): (r: Option<bool>)
    ensures r.None? <==> a.V4? != net.base.V4?
    ensures r == Some(true) <==>
      a.V4? == net.base.V4? && forall i :: 0 <= i < net.prefix ==> a.bits[i] == net.base.bits[i]
  {
    if a.V4? != net.base.V4? then None
    else
      PrefixesAgree(a.bits, net.base.bits, net.prefix);
      Some(a.bits[..net.prefix] == net.base.bits[..net.prefix])
  }

  lemma PrefixesAgree(x: seq<bool>, y: seq<bool>, p: nat)
    requires p <= |x| && p <= |y|
    ensures x[..p] == y[..p] <==> forall i :: 0 <= i < p ==> x[i] == y[i]
  {
    if x[..p] != y[..p] {
      var k :| 0 <= k < p && x[..p][k] != y[..p][k];
    }
  }

  /** The eight bits of an octet, most significant first. */
  function OctetBits(n: nat): (b: seq<bool>)
    requires n < 256
    ensures |b| == 8
  {
    [ n / 128 % 2 == 1, n / 64 % 2 == 1, n / 32 % 2 == 1, n / 16 % 2 == 1,
      n / 8 % 2 == 1, n / 4 % 2 == 1, n / 2 % 2 == 1, n % 2 == 1 ]
  }

  /** The IPv4 address written `a.b.c.d`. */
  function IPv4(a: nat, b: nat, c: nat, d: nat): (v: IpAddr)
    requires a < 256 && b < 256 && c < 256 && d < 256
    ensures v.V4?
  {
    V4(OctetBits(a) + OctetBits(b) + OctetBits(c) + OctetBits(d))
  }
}
