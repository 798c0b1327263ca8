/** The port-forward annotation: its grammar, and what a Service or Pod asks for with it. */
module Annotations {
  import opened Wrappers
  import opened Text
  import opened PortMappings

  type i32 = n: int | -0x8000_0000 <= n < 0x8000_0000

  /** A declared Service port or container port. */
  datatype DeclaredPort = DeclaredPort(port: i32, protocol: Option<string>)

  /** One forwarding a watcher has to set up. */
  datatype Desired = Desired(external: u16, internal: u16, protocol: Protocol)

  /** The cast `p as u16`, which keeps the low sixteen bits. */
  function AsU16(p: i32): u16 {
    p % 0x1_0000
  }

  function ParseK8sProtocol(protocol: Option<string>): Protocol {
    if protocol == Some("UDP") then Udp else Tcp
  }

  /** The protocols declared for one port number, in declaration order. */
  function ProtocolsAt(ports: seq<DeclaredPort>, port: u16): seq<Protocol> {
    if ports == [] then []
    else
      (if AsU16(ports[0].port) == port then [ParseK8sProtocol(ports[0].protocol)] else [])
      + ProtocolsAt(ports[1..], port)
  }

  function Expand(external: u16, internal: u16, protocols: seq<Protocol>): seq<Desired> {
    seq(|protocols|, i requires 0 <= i < |protocols| => Desired(external, internal, protocols[i]))
  }

  /** A remapped port is forwarded over TCP when nothing is declared for it. */
  function ExpandRemap(external: u16, internal: u16, protocols: seq<Protocol>): seq<Desired> {
    if protocols == [] then [Desired(external, internal, Tcp)] else Expand(external, internal, protocols)
  }

  /** What one comma-separated part of the annotation contributes. */
  function PartEntries(part: string, lookup: u16 -> seq<Protocol>): seq<Desired> {
    var part := Trim(part);
    if part == "" then []
    else match SplitOnce(part, ':')
      case Some((ext, svc)) =>
        (match (ParseUnsigned(Trim(ext), U16_MAX), ParseUnsigned(Trim(svc), U16_MAX))
         case (Some(external), Some(internal)) => ExpandRemap(external, internal, lookup(internal))
         case _ => [])
      case None =>
        match ParseUnsigned(part, U16_MAX)
        case Some(port) => Expand(port, port, lookup(port))
        case None => []
  }

  function PartsEntries(parts: seq<string>, lookup: u16 -> seq<Protocol>): seq<Desired> {
    if parts == [] then []
    else PartsEntries(parts[..|parts| - 1], lookup) + PartEntries(parts[|parts| - 1], lookup)
  }

  function PortList(value: string, lookup: u16 -> seq<Protocol>): seq<Desired> {
    PartsEntries(Split(value, ','), lookup)
  }

  /** The parsing loop, which pushes onto `result` part by part. */
  method ParsePortList(value: string, lookup: u16 -> seq<Protocol>) returns (result: seq<Desired>)
    ensures result == PortList(value, lookup)
  {
    result := [];
    var parts := Split(value, ',');
    for n := 0 to |parts|
      invariant result == PartsEntries(parts[..n], lookup)
    {
      assert parts[..n + 1][..n] == parts[..n];
      result := PushPart(result, parts[n], lookup);
    }
    assert parts[..|parts|] == parts;
  }

  /** The body of that loop. */
  method PushPart(result: seq<Desired>, text: string, lookup: u16 -> seq<Protocol>) returns (extended: seq<Desired>)
    ensures extended == result + PartEntries(text, lookup)
  {
    var part := Trim(text);
    if part == "" {
      return result;
    }
    match SplitOnce(part, ':') {
      case Some((ext, svc)) =>
        match (ParseUnsigned(Trim(ext), U16_MAX), ParseUnsigned(Trim(svc), U16_MAX)) {
          case (Some(external), Some(internal)) =>
            var protocols := lookup(internal);
            if |protocols| == 0 {
              return result + [Desired(external, internal, Tcp)];
            }
            extended := PushAll(result, external, internal, protocols);
          case _ => return result;
        }
      case None =>
        match ParseUnsigned(part, U16_MAX) {
          case Some(port) => extended := PushAll(result, port, port, lookup(port));
          case None => return result;
        }
    }
  }

  method PushAll(result: seq<Desired>, external: u16, internal: u16, protocols: seq<Protocol>)
    returns (extended: seq<Desired>)
    ensures extended == result + Expand(external, internal, protocols)
  {
    extended := result;
    for i := 0 to |protocols|
      invariant extended == result + Expand(external, internal, protocols)[..i]
    {
      extended := extended + [Desired(external, internal, protocols[i])];
    }
  }

  /** The annotation of a Service or a Pod, read against its declared ports. */
  function ParseAnnotation(value: string, ports: seq<DeclaredPort>): seq<Desired> {
    if value == "true" then
      seq(|ports|, i requires 0 <= i < |ports| =>
        Desired(AsU16(ports[i].port), AsU16(ports[i].port), ParseK8sProtocol(ports[i].protocol)))
    else PortList(value, (port: u16) => ProtocolsAt(ports, port))
  }

  method ReadAnnotation(value: string, ports: seq<DeclaredPort>) returns (desired: seq<Desired>)
    ensures desired == ParseAnnotation(value, ports)
  {
    if value == "true" {
      desired := ParseAnnotation(value, ports);
    } else {
      desired := ParsePortList(value, (port: u16) => ProtocolsAt(ports, port));
    }
  }

  // ----- The grammar -----

  lemma {:induction false} PartsEntriesAppend(a: seq<string>, b: seq<string>, lookup: u16 -> seq<Protocol>)
    ensures PartsEntries(a + b, lookup) == PartsEntries(a, lookup) + PartsEntries(b, lookup)
  {
    if b == [] {
      assert a + b == a;
    } else {
      var init, last := b[..|b| - 1], b[|b| - 1];
      assert (a + b)[..|a + b| - 1] == a + init && (a + b)[|a + b| - 1] == last;
      PartsEntriesAppend(a, init, lookup);
      Associative(PartsEntries(a, lookup), PartsEntries(init, lookup), PartEntries(last, lookup));
    }
  }

  /** A comma concatenates: the list read from `a,b` is that of `a` followed by that of `b`. */
  lemma CommaConcatenates(a: string, b: string, lookup: u16 -> seq<Protocol>)
    ensures PortList(a + "," + b, lookup) == PortList(a, lookup) + PortList(b, lookup)
  {
    SplitAppend(a, ',', b);
    PartsEntriesAppend(Split(a, ','), Split(b, ','), lookup);
  }

  function PrintPair(pair: (u16, u16)): string {
    Decimal(pair.0) + ":" + Decimal(pair.1)
  }

  function PrintPairs(pairs: seq<(u16, u16)>): string {
    if pairs == [] then ""
    else if |pairs| == 1 then PrintPair(pairs[0])
    else PrintPair(pairs[0]) + "," + PrintPairs(pairs[1..])
  }

  function PairEntries(pairs: seq<(u16, u16)>, lookup: u16 -> seq<Protocol>): seq<Desired> {
    if pairs == [] then []
    else
      var (external, internal) := pairs[0];
      var protocols := lookup(internal);
      (if protocols == [] then [Desired(external, internal, Tcp)]
       else seq(|protocols|, i requires 0 <= i < |protocols| => Desired(external, internal, protocols[i])))
      + PairEntries(pairs[1..], lookup)
  }

  lemma SinglePart(value: string, lookup: u16 -> seq<Protocol>)
    requires ',' !in value
    ensures PortList(value, lookup) == PartEntries(value, lookup)
  {
    SplitWhole(value, ',');
    assert [value][..0] == [];
    assert PartsEntries([value], lookup) == PartsEntries([], lookup) + PartEntries(value, lookup);
  }

  lemma PairIsPlain(pair: (u16, u16))
    ensures
      var part := PrintPair(pair);
      ',' !in part && Trim(part) == part
      && part != "" && SplitOnce(part, ':') == Some((Decimal(pair.0), Decimal(pair.1)))
  {
    var ext, svc := Decimal(pair.0), Decimal(pair.1);
    DecimalPlain(pair.0);
    DecimalPlain(pair.1);
    var part := PrintPair(pair);
    assert part == ext + [':'] + svc;
    SplitOnceAt(ext, ':', svc);
    assert part[0] == ext[0] && part[|part| - 1] == svc[|svc| - 1];
    assert IsDigit(ext[0]) && IsDigit(svc[|svc| - 1]);
  }

  lemma PairRoundTrip(pair: (u16, u16), lookup: u16 -> seq<Protocol>)
    ensures PortList(PrintPair(pair), lookup) == ExpandRemap(pair.0, pair.1, lookup(pair.1))
  {
    PairIsPlain(pair);
    SinglePart(PrintPair(pair), lookup);
    DecimalPlain(pair.0);
    DecimalPlain(pair.1);
    ParseDecimal(pair.0, U16_MAX);
    ParseDecimal(pair.1, U16_MAX);
  }

  /**
   Printing pairs as `external:service` joined by commas and reading the text back gives, in
   order, each pair under every protocol looked up for it, or TCP when there is none.
   */
  lemma {:induction false} RemapRoundTrip(pairs: seq<(u16, u16)>, lookup: u16 -> seq<Protocol>)
    ensures PortList(PrintPairs(pairs), lookup) == PairEntries(pairs, lookup)
  {
    if pairs == [] {
      SinglePart("", lookup);
    } else {
      PairRoundTrip(pairs[0], lookup);
      if |pairs| > 1 {
        CommaConcatenates(PrintPair(pairs[0]), PrintPairs(pairs[1..]), lookup);
        RemapRoundTrip(pairs[1..], lookup);
      } else {
        assert pairs[1..] == [];
      }
    }
  }

  /** A part without a digit asks for nothing, and the parts around it are read as if it were not there. */
  lemma JunkIsSkipped(a: string, junk: string, b: string, lookup: u16 -> seq<Protocol>)
    requires ',' !in junk && NoDigits(junk)
    ensures PortList(a + "," + junk + "," + b, lookup) == PortList(a, lookup) + PortList(b, lookup)
  {
    JunkIsNothing(junk, lookup);
    ThreeLists(a, junk, b, lookup);
    assert PortList(a, lookup) + [] == PortList(a, lookup);
  }

  lemma ThreeLists(a: string, middle: string, b: string, lookup: u16 -> seq<Protocol>)
    ensures PortList(a + "," + middle + "," + b, lookup)
         == PortList(a, lookup) + PortList(middle, lookup) + PortList(b, lookup)
  {
    CommaConcatenates(a + "," + middle, b, lookup);
    CommaConcatenates(a, middle, lookup);
  }

  lemma JunkIsNothing(junk: string, lookup: u16 -> seq<Protocol>)
    requires ',' !in junk && NoDigits(junk)
    ensures PortList(junk, lookup) == []
  {
    SinglePart(junk, lookup);
    var part := Trim(junk);
    TrimAddsNoDigit(junk);
    NoDigitNoNumber(part, U16_MAX);
    if SplitOnce(part, ':').Some? {
      var (ext, svc) := SplitOnce(part, ':').value;
      SplitOncePieces(part, ':');
      assert NoDigits(ext);
      TrimAddsNoDigit(ext);
      NoDigitNoNumber(Trim(ext), U16_MAX);
    }
  }

  lemma TrimAddsNoDigit(s: string)
    requires NoDigits(s)
    ensures NoDigits(Trim(s))
  {
    forall c | IsDigit(c)
      ensures c !in Trim(s)
    {
      TrimKeepsOut(s, c);
    }
  }

  lemma {:induction false} SplitOncePieces(s: string, c: char)
    requires SplitOnce(s, c).Some?
    ensures s == SplitOnce(s, c).value.0 + [c] + SplitOnce(s, c).value.1
  {
    if s[0] == c {
      assert s == "" + [c] + s[1..];
    } else {
      SplitOncePieces(s[1..], c);
      assert s == [s[0]] + s[1..];
    }
  }

  /** A part that splits into two numbers, with or without blanks, asks for the one to go to the other. */
  lemma PartOfPair(part: string, trimmed: string, ext: string, svc: string, pair: (u16, u16),
                   lookup: u16 -> seq<Protocol>)
    requires ',' !in part && Trim(part) == trimmed != "" && SplitOnce(trimmed, ':') == Some((ext, svc))
    requires ParseUnsigned(Trim(ext), U16_MAX) == Some(pair.0) && ParseUnsigned(Trim(svc), U16_MAX) == Some(pair.1)
    ensures PortList(part, lookup) == ExpandRemap(pair.0, pair.1, lookup(pair.1))
  {
    SinglePart(part, lookup);
  }

  function BlankedPair(pair: (u16, u16), b1: string, b2: string): string {
    (Decimal(pair.0) + b1) + [':'] + (b2 + Decimal(pair.1))
  }

  lemma BlankedPairSplits(pair: (u16, u16), b1: string, b2: string)
    requires Blank(b1) && Blank(b2)
    ensures
      var part := BlankedPair(pair, b1, b2);
      && part != "" && IsDigit(part[0]) && IsDigit(part[|part| - 1]) && ',' !in part
      && SplitOnce(part, ':') == Some((Decimal(pair.0) + b1, b2 + Decimal(pair.1)))
  {
    DecimalPlain(pair.0);
    DecimalPlain(pair.1);
    var part := BlankedPair(pair, b1, b2);
    assert part[0] == Decimal(pair.0)[0] && part[|part| - 1] == Decimal(pair.1)[|Decimal(pair.1)| - 1];
    SplitOnceAt(Decimal(pair.0) + b1, ':', b2 + Decimal(pair.1));
  }

  lemma BlankAfter(n: u16, blank: string)
    requires Blank(blank)
    ensures ParseUnsigned(Trim(Decimal(n) + blank), U16_MAX) == Some(n)
  {
    TrimTakesBlanks("", Decimal(n), blank);
    assert "" + Decimal(n) + blank == Decimal(n) + blank;
    ParseDecimal(n, U16_MAX);
  }

  lemma BlankBefore(blank: string, n: u16)
    requires Blank(blank)
    ensures ParseUnsigned(Trim(blank + Decimal(n)), U16_MAX) == Some(n)
  {
    TrimTakesBlanks(blank, Decimal(n), "");
    assert blank + Decimal(n) + "" == blank + Decimal(n);
    ParseDecimal(n, U16_MAX);
  }

  /** Blanks around the numbers of a pair do not matter. */
  lemma BlanksDoNotMatter(pair: (u16, u16), b0: string, b1: string, b2: string, b3: string,
                          lookup: u16 -> seq<Protocol>)
    requires Blank(b0) && Blank(b1) && Blank(b2) && Blank(b3)
    ensures PortList(b0 + BlankedPair(pair, b1, b2) + b3, lookup) == PairEntries([pair], lookup)
  {
    var part := BlankedPair(pair, b1, b2);
    BlankedPairSplits(pair, b1, b2);
    TrimTakesBlanks(b0, part, b3);
    BlankAfter(pair.0, b1);
    BlankBefore(b2, pair.1);
    PartOfPair(b0 + part + b3, part, Decimal(pair.0) + b1, b2 + Decimal(pair.1), pair, lookup);
    OnePairEntries(pair, lookup);
  }

  lemma OnePairEntries(pair: (u16, u16), lookup: u16 -> seq<Protocol>)
    ensures PairEntries([pair], lookup) == ExpandRemap(pair.0, pair.1, lookup(pair.1))
  {
    assert [pair][1..] == [];
  }

  // ----- What is asked for, in terms of the declared ports -----

  /** A declared port has the number modulo 65536, and is UDP exactly when declared so. */
  predicate DeclaredAs(declared: DeclaredPort, port: u16, protocol: Protocol) {
    (port - declared.port) % 0x1_0000 == 0 && (protocol == Udp <==> declared.protocol == Some("UDP"))
  }

  predicate Declares(ports: seq<DeclaredPort>, port: u16, protocol: Protocol) {
    exists i :: 0 <= i < |ports| && DeclaredAs(ports[i], port, protocol)
  }

  lemma CastAndProtocol(declared: DeclaredPort, port: u16, protocol: Protocol)
    ensures DeclaredAs(declared, port, protocol)
       <==> AsU16(declared.port) == port && ParseK8sProtocol(declared.protocol) == protocol
  {
  }

  lemma ProtocolsAreDeclared(ports: seq<DeclaredPort>, port: u16, protocol: Protocol)
    ensures protocol in ProtocolsAt(ports, port) <==> Declares(ports, port, protocol)
  {
    ProtocolsAtMember(ports, port, protocol);
    forall i | 0 <= i < |ports|
      ensures DeclaredAs(ports[i], port, protocol)
         <==> AsU16(ports[i].port) == port && ParseK8sProtocol(ports[i].protocol) == protocol
    {
      CastAndProtocol(ports[i], port, protocol);
    }
  }

  /** "true" asks for each declared port once, in order, to itself. */
  lemma TrueAsksForDeclared(ports: seq<DeclaredPort>)
    ensures
      var desired := ParseAnnotation("true", ports);
      |desired| == |ports| && forall i | 0 <= i < |ports| ::
        desired[i].internal == desired[i].external && DeclaredAs(ports[i], desired[i].external, desired[i].protocol)
  {
    forall i | 0 <= i < |ports|
      ensures DeclaredAs(ports[i], AsU16(ports[i].port), ParseK8sProtocol(ports[i].protocol))
    {
      CastAndProtocol(ports[i], AsU16(ports[i].port), ParseK8sProtocol(ports[i].protocol));
    }
  }

  /** A plain port asks for itself, under every protocol declared for it, and for nothing if there is none. */
  lemma PlainPortAsks(port: u16, ports: seq<DeclaredPort>, d: Desired)
    ensures d in ParseAnnotation(Decimal(port), ports)
       <==> d.external == port && d.internal == port && Declares(ports, port, d.protocol)
  {
    var lookup := (p: u16) => ProtocolsAt(ports, p);
    assert IsDigit(Decimal(port)[0]);
    PlainPortEntries(port, lookup);
    ProtocolsAreDeclared(ports, port, d.protocol);
    var protocols := lookup(port);
    if k :| 0 <= k < |protocols| && protocols[k] == d.protocol && d.external == port && d.internal == port {
      assert Expand(port, port, protocols)[k] == d;
    }
  }

  lemma {:induction false} PairEntriesMember(pairs: seq<(u16, u16)>, lookup: u16 -> seq<Protocol>, d: Desired)
    ensures d in PairEntries(pairs, lookup)
       <==> exists k ::
              0 <= k < |pairs| && pairs[k] == (d.external, d.internal)
              && (d.protocol in lookup(d.internal) || (lookup(d.internal) == [] && d.protocol == Tcp))
  {
    if pairs != [] {
      PairEntriesMember(pairs[1..], lookup, d);
      assert forall k | 0 < k < |pairs| :: pairs[k] == pairs[1..][k - 1];
      var protocols := lookup(pairs[0].1);
      if k :| 0 <= k < |protocols| && protocols[k] == d.protocol && pairs[0] == (d.external, d.internal) {
        var first := seq(|protocols|, i requires 0 <= i < |protocols| => Desired(pairs[0].0, pairs[0].1, protocols[i]));
        assert first[k] == d;
      }
    }
  }

  /**
   An `external:service` pair asks for the external port to go to the service port, under every
   protocol declared for the service port, or over TCP when none is declared.
   */
  lemma PairsAsk(pairs: seq<(u16, u16)>, ports: seq<DeclaredPort>, d: Desired)
    ensures d in ParseAnnotation(PrintPairs(pairs), ports)
       <==> (exists k :: 0 <= k < |pairs| && pairs[k] == (d.external, d.internal))
            && (|| Declares(ports, d.internal, d.protocol)
                || (d.protocol == Tcp && !Declares(ports, d.internal, Udp)))
  {
    PairsAreRead(pairs, ports);
    PairEntriesMember(pairs, (p: u16) => ProtocolsAt(ports, p), d);
    SomeOrTcp(ports, d.internal, d.protocol);
  }

  lemma PairsAreRead(pairs: seq<(u16, u16)>, ports: seq<DeclaredPort>)
    ensures ParseAnnotation(PrintPairs(pairs), ports) == PairEntries(pairs, (p: u16) => ProtocolsAt(ports, p))
  {
    if pairs != [] {
      assert IsDigit(Decimal(pairs[0].0)[0]) && PrintPairs(pairs)[0] == Decimal(pairs[0].0)[0];
    }
    RemapRoundTrip(pairs, (p: u16) => ProtocolsAt(ports, p));
  }

  lemma SomeOrTcp(ports: seq<DeclaredPort>, port: u16, protocol: Protocol)
    ensures protocol in ProtocolsAt(ports, port) || (ProtocolsAt(ports, port) == [] && protocol == Tcp)
       <==> Declares(ports, port, protocol) || (protocol == Tcp && !Declares(ports, port, Udp))
  {
    var protocols := ProtocolsAt(ports, port);
    ProtocolsAreDeclared(ports, port, Tcp);
    ProtocolsAreDeclared(ports, port, Udp);
    if protocols != [] {
      assert protocols[0] in protocols && (protocols[0] == Tcp || protocols[0] == Udp);
    }
  }

  // ----- "true" against an explicit list -----

  /** The explicit list naming every declared port. */
  function ExplicitList(ports: seq<DeclaredPort>): string {
    if ports == [] then ""
    else if |ports| == 1 then Decimal(AsU16(ports[0].port))
    else Decimal(AsU16(ports[0].port)) + "," + ExplicitList(ports[1..])
  }

  lemma PlainPortEntries(port: u16, lookup: u16 -> seq<Protocol>)
    ensures PortList(Decimal(port), lookup) == Expand(port, port, lookup(port))
  {
    DecimalPlain(port);
    SinglePart(Decimal(port), lookup);
    SplitOnceNone(Decimal(port), ':');
    ParseDecimal(port, U16_MAX);
  }

  lemma {:induction false} ExplicitEntries(ports: seq<DeclaredPort>, lookup: u16 -> seq<Protocol>, d: Desired)
    ensures d in PortList(ExplicitList(ports), lookup)
       <==> exists i ::
              0 <= i < |ports| && d in Expand(AsU16(ports[i].port), AsU16(ports[i].port), lookup(AsU16(ports[i].port)))
  {
    if ports == [] {
      SinglePart("", lookup);
    } else {
      var p := AsU16(ports[0].port);
      PlainPortEntries(p, lookup);
      if |ports| > 1 {
        CommaConcatenates(Decimal(p), ExplicitList(ports[1..]), lookup);
        ExplicitEntries(ports[1..], lookup, d);
        assert forall i :: 0 < i < |ports| ==> ports[i] == ports[1..][i - 1];
      }
    }
  }

  lemma {:induction false} ProtocolsAtMember(ports: seq<DeclaredPort>, port: u16, protocol: Protocol)
    ensures protocol in ProtocolsAt(ports, port)
       <==> exists i ::
              0 <= i < |ports| && AsU16(ports[i].port) == port && ParseK8sProtocol(ports[i].protocol) == protocol
  {
    if ports != [] {
      ProtocolsAtMember(ports[1..], port, protocol);
      assert forall i :: 0 < i < |ports| ==> ports[i] == ports[1..][i - 1];
    }
  }

  lemma ExplicitListIsNotTrue(ports: seq<DeclaredPort>)
    ensures ExplicitList(ports) != "true"
  {
    if ports != [] {
      var first := Decimal(AsU16(ports[0].port));
      assert ExplicitList(ports)[0] == first[0] && IsDigit(first[0]);
    }
  }

  /** "true" forwards exactly the set that naming every declared port forwards. */
  lemma TrueAgreesWithExplicitList(ports: seq<DeclaredPort>, d: Desired)
    ensures d in ParseAnnotation("true", ports) <==> d in ParseAnnotation(ExplicitList(ports), ports)
  {
    ExplicitListIsNotTrue(ports);
    var lookup := (port: u16) => ProtocolsAt(ports, port);
    ExplicitEntries(ports, lookup, d);
    ProtocolsAtMember(ports, d.external, d.protocol);
    if i :| 0 <= i < |ports| && AsU16(ports[i].port) == d.external && ParseK8sProtocol(ports[i].protocol) == d.protocol
            && d.internal == d.external {
      assert ParseAnnotation("true", ports)[i] == d;
      var protocols := lookup(d.external);
      var k :| 0 <= k < |protocols| && protocols[k] == d.protocol;
      assert Expand(d.external, d.external, protocols)[k] == d;
    }
  }

  // ----- When one external port keeps one internal port -----

  /** No external port and protocol is sent to two different internal ports. */
  ghost predicate Consistent(desired: seq<Desired>) {
    forall i, j | 0 <= i < |desired| && 0 <= j < |desired| ::
      desired[i].external == desired[j].external && desired[i].protocol == desired[j].protocol
      ==> desired[i].internal == desired[j].internal
  }

  lemma {:induction false} SplitKeepsOut(s: string, c: char, d: char)
    requires d !in s
    ensures forall p :: p in Split(s, c) ==> d !in p
  {
    if s != "" {
      SplitKeepsOut(s[1..], c, d);
    }
  }

  lemma {:induction false} ColonFreeParts(parts: seq<string>, lookup: u16 -> seq<Protocol>)
    requires forall p :: p in parts ==> ':' !in p
    ensures forall d :: d in PartsEntries(parts, lookup) ==> d.external == d.internal
  {
    if parts != [] {
      var last := parts[|parts| - 1];
      ColonFreeParts(parts[..|parts| - 1], lookup);
      TrimKeepsOut(last, ':');
      SplitOnceNone(Trim(last), ':');
    }
  }

  /** An annotation without a colon, "true" among them, forwards every port to itself. */
  lemma ColonFreeIsConsistent(value: string, ports: seq<DeclaredPort>)
    requires ':' !in value
    ensures forall d :: d in ParseAnnotation(value, ports) ==> d.external == d.internal
    ensures Consistent(ParseAnnotation(value, ports))
  {
    if value != "true" {
      SplitKeepsOut(value, ',', ':');
      ColonFreeParts(Split(value, ','), (port: u16) => ProtocolsAt(ports, port));
    }
  }
}
