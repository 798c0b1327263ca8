/** The PortMapping resource: its spec, its status, and the name the watchers give it. */
module PortMappings {
  import opened Wrappers
  import opened Text

  datatype Protocol = Tcp | Udp

  /** One instant, in nanoseconds. */
  type Time = int

  datatype PortMappingSpec = PortMappingSpec(
    externalPort: u16,
    internalHost: string,
    internalPort: u16,
    protocol: Protocol,
    description: Option<string>)

  /** The description the router is given; without one it is the mapping's name. */
  function Description(spec: PortMappingSpec, name: string): string {
    if spec.description.Some? then spec.description.value else name
  }

  datatype PortMappingStatus = PortMappingStatus(
    active: bool,
    leaseExpiry: Option<Time>,
    lastRenewal: Option<Time>)

  function ProtocolSuffix(protocol: Protocol): string {
    match protocol
    case Tcp => "tcp"
    case Udp => "udp"
  }

  function ProtocolName(protocol: Protocol): string {
    match protocol
    case Tcp => "TCP"
    case Udp => "UDP"
  }

  /** The name given to the PortMapping, and to the proxy, of one forwarded port. */
  function NameForOwner(ns: string, name: string, external: u16, protocol: Protocol): string {
    ns + "-" + name + "-" + Decimal(external) + "-" + ProtocolSuffix(protocol)
  }

  /** Names read as namespace, owner, external port and protocol. */
  lemma NamesRead()
    ensures NameForOwner("ns", "web", 80, Tcp) == "ns-web-80-tcp"
    ensures NameForOwner("ns", "dns", 53, Udp) == "ns-dns-53-udp"
  {
    assert Decimal(80) == "80" by {
      assert Decimal(8) == "8" && DigitChar(0) == '0';
    }
    assert Decimal(53) == "53" by {
      assert Decimal(5) == "5" && DigitChar(3) == '3';
    }
  }

  /** A text is cut in one way only at its last dash. */
  lemma LastDash(a: string, d: string, a': string, d': string)
    requires a + "-" + d == a' + "-" + d'
    requires '-' !in d && '-' !in d'
    ensures a == a' && d == d'
  {
    var w := a + "-" + d;
    assert w[|a|] == '-' && w[|a'|] == '-';
    assert forall k | |a| < k < |w| :: w[k] == d[k - |a| - 1];
    assert forall k | |a'| < k < |w| :: w[k] == d'[k - |a'| - 1];
    assert |a| == |a'|;
    assert a == w[..|a|] && a' == w[..|a'|];
    assert d == w[|a| + 1..] && d' == w[|a'| + 1..];
  }

  /** Names agree exactly when the dash-joined owner, the external port and the protocol agree. */
  lemma NameEncoding(ns: string, name: string, external: u16, protocol: Protocol,
                     ns': string, name': string, external': u16, protocol': Protocol)
    ensures NameForOwner(ns, name, external, protocol) == NameForOwner(ns', name', external', protocol')
       <==> ns + "-" + name == ns' + "-" + name' && external == external' && protocol == protocol'
  {
    if NameForOwner(ns, name, external, protocol) == NameForOwner(ns', name', external', protocol') {
      DecimalPlain(external);
      DecimalPlain(external');
      LastDash(ns + "-" + name + "-" + Decimal(external), ProtocolSuffix(protocol),
               ns' + "-" + name' + "-" + Decimal(external'), ProtocolSuffix(protocol'));
      assert ProtocolSuffix(protocol)[0] == ProtocolSuffix(protocol')[0];
      LastDash(ns + "-" + name, Decimal(external), ns' + "-" + name', Decimal(external'));
      DecimalInjective(external, external');
    }
  }

  /** Within one namespace the encoding is injective. */
  lemma NameInjectiveInNamespace(ns: string, name: string, external: u16, protocol: Protocol,
                                 name': string, external': u16, protocol': Protocol)
    ensures NameForOwner(ns, name, external, protocol) == NameForOwner(ns, name', external', protocol')
       <==> name == name' && external == external' && protocol == protocol'
  {
    NameEncoding(ns, name, external, protocol, ns, name', external', protocol');
    if ns + "-" + name == ns + "-" + name' {
      assert name == (ns + "-" + name)[|ns| + 1..];
      assert name' == (ns + "-" + name')[|ns| + 1..];
    }
  }

  /** Across namespaces it is not: two owners can meet in one proxy key. */
  lemma NameClashAcrossNamespaces(external: u16, protocol: Protocol)
    ensures NameForOwner("a", "b-c", external, protocol) == NameForOwner("a-b", "c", external, protocol)
  {
    assert "a" + "-" + "b-c" == "a-b" + "-" + "c";
  }
}
