/** Reading a gateway's root description: the loop over XML events, and what it finds. */
module RootDesc {
  import opened Wrappers
  import opened Text

  /** What the XML reader delivers; comments, empty elements and the like are `Ignored`. */
  datatype Event = Start(tag: string) | Text(text: string) | End(tag: string) | Ignored | Eof | Malformed

  datatype GatewayServices = GatewayServices(
    rootUrl: string,
    wanIpControlUrl: Option<string>,
    wanIpEventUrl: Option<string>,
    wanPppControlUrl: Option<string>,
    wanPppEventUrl: Option<string>)

  function Or(preferred: Option<string>, other: Option<string>): Option<string> {
    if preferred.Some? then preferred else other
  }

  function ControlUrl(g: GatewayServices): Option<string> {
    Or(g.wanIpControlUrl, g.wanPppControlUrl)
  }

  function EventUrl(g: GatewayServices): Option<string> {
    Or(g.wanIpEventUrl, g.wanPppEventUrl)
  }

  /** The contents of one service element. */
  datatype Service = Service(serviceType: string, controlUrl: string, eventUrl: string)

  const EMPTY := Service("", "", "")

  predicate IsWanIp(s: Service) {
    Contains(s.serviceType, "WANIPConnection")
  }

  predicate IsWanPpp(s: Service) {
    !IsWanIp(s) && Contains(s.serviceType, "WANPPPConnection")
  }

  function Resolve(baseUrl: string, url: string): string {
    if url != "" && url[0] == '/' then baseUrl + url else url
  }

  // ----- The event loop -----

  datatype Reader = Reader(services: GatewayServices, current: Service, inService: bool, tag: string)

  function Begin(rootUrl: string): Reader {
    Reader(GatewayServices(rootUrl, None, None, None, None), EMPTY, false, "")
  }

  function Record(g: GatewayServices, baseUrl: string, s: Service): GatewayServices {
    var control, event := Some(Resolve(baseUrl, s.controlUrl)), Some(Resolve(baseUrl, s.eventUrl));
    if IsWanIp(s) then g.(wanIpControlUrl := control, wanIpEventUrl := event)
    else if IsWanPpp(s) then g.(wanPppControlUrl := control, wanPppEventUrl := event)
    else g
  }

  function SetField(s: Service, tag: string, text: string): Service {
    match tag
    case "serviceType" => s.(serviceType := text)
    case "controlURL" => s.(controlUrl := text)
    case "eventSubURL" => s.(eventUrl := text)
    case _ => s
  }

  function Handle(r: Reader, e: Event, baseUrl: string): Reader {
    match e
    case Start(tag) => if tag == "service" then Reader(r.services, EMPTY, true, tag) else r.(tag := tag)
    case Text(text) => if r.inService then r.(current := SetField(r.current, r.tag, text)) else r
    case End(tag) =>
      if tag == "service" && r.inService
      then r.(services := Record(r.services, baseUrl, r.current), inService := false) else r
    case _ => r
  }

  function HandleAll(r: Reader, events: seq<Event>, baseUrl: string): Reader {
    if events == [] then r
    else Handle(HandleAll(r, events[..|events| - 1], baseUrl), events[|events| - 1], baseUrl)
  }

  predicate Ends(e: Event) {
    e.Eof? || e.Malformed?
  }

  /** How many events precede the end of the document, or its first error. */
  function DocumentLength(events: seq<Event>): (n: nat)
    ensures n <= |events| && (forall i | 0 <= i < n :: !Ends(events[i])) && (n < |events| ==> Ends(events[n]))
  {
    if events == [] || Ends(events[0]) then 0 else 1 + DocumentLength(events[1..])
  }

  datatype XmlError = ParseError

  function Parsed(events: seq<Event>, baseUrl: string, rootUrl: string): Result<GatewayServices, XmlError> {
    var n := DocumentLength(events);
    if n < |events| && events[n].Malformed? then Failure(ParseError)
    else Success(HandleAll(Begin(rootUrl), events[..n], baseUrl).services)
  }

  /** The loop: buffers are overwritten event by event until the document ends or breaks. */
  method ParseRootDesc(events: seq<Event>, baseUrl: string, rootUrl: string)
    returns (r: Result<GatewayServices, XmlError>)
    ensures r == Parsed(events, baseUrl, rootUrl)
  {
    var services := GatewayServices(rootUrl, None, None, None, None);
    var serviceType, controlUrl, eventUrl := "", "", "";
    var inService := false;
    var currentTag := "";
    var n := 0;
    while n < |events| && !Ends(events[n])
      invariant 0 <= n <= |events|
      invariant forall i | 0 <= i < n :: !Ends(events[i])
      invariant Reader(services, Service(serviceType, controlUrl, eventUrl), inService, currentTag)
             == HandleAll(Begin(rootUrl), events[..n], baseUrl)
    {
      assert events[..n + 1][..n] == events[..n];
      match events[n] {
        case Start(tag) =>
          currentTag := tag;
          if currentTag == "service" {
            inService := true;
            serviceType, controlUrl, eventUrl := "", "", "";
          }
        case Text(text) =>
          if inService {
            match currentTag {
              case "serviceType" => serviceType := text;
              case "controlURL" => controlUrl := text;
              case "eventSubURL" => eventUrl := text;
              case _ =>
            }
          }
        case End(tag) =>
          if tag == "service" && inService {
            var control := if controlUrl != "" && controlUrl[0] == '/' then baseUrl + controlUrl else controlUrl;
            var event := if eventUrl != "" && eventUrl[0] == '/' then baseUrl + eventUrl else eventUrl;
            if Contains(serviceType, "WANIPConnection") {
              services := services.(wanIpControlUrl := Some(control), wanIpEventUrl := Some(event));
            } else if Contains(serviceType, "WANPPPConnection") {
              services := services.(wanPppControlUrl := Some(control), wanPppEventUrl := Some(event));
            }
            inService := false;
          }
        case _ =>
      }
      n := n + 1;
    }
    assert n == DocumentLength(events);
    if n < |events| && events[n].Malformed? {
      return Failure(ParseError);
    }
    return Success(services);
  }

  // ----- Documents -----

  datatype Node = Element(tag: string, children: seq<Node>) | TextNode(text: string) | OtherNode

  function Events(node: Node): seq<Event> {
    match node
    case Element(tag, children) => [Start(tag)] + EventsAll(children) + [End(tag)]
    case TextNode(text) => [Text(text)]
    case OtherNode => [Ignored]
  }

  function EventsAll(nodes: seq<Node>): seq<Event> {
    if nodes == [] then [] else Events(nodes[0]) + EventsAll(nodes[1..])
  }

  /** A leaf holds no elements. */
  predicate IsLeaf(node: Node) {
    node.OtherNode? || (node.Element? && node.tag != "service" && forall c | c in node.children :: !c.Element?)
  }

  /** Service elements hold only leaf children, and so are never nested. */
  predicate Flat(node: Node) {
    node.Element? ==>
      if node.tag == "service" then forall c | c in node.children :: IsLeaf(c)
      else forall c | c in node.children :: Flat(c)
  }

  /** The last text among the nodes, if there is one. */
  function LastText(nodes: seq<Node>): Option<string> {
    if nodes == [] then None
    else if nodes[|nodes| - 1].TextNode? then Some(nodes[|nodes| - 1].text)
    else LastText(nodes[..|nodes| - 1])
  }

  /** The text of the last child with the tag that has any. */
  function FieldOf(children: seq<Node>, tag: string): string {
    if children == [] then ""
    else
      var last := children[|children| - 1];
      if last.Element? && last.tag == tag && LastText(last.children).Some? then LastText(last.children).value
      else FieldOf(children[..|children| - 1], tag)
  }

  function ServiceOf(children: seq<Node>): Service {
    Service(FieldOf(children, "serviceType"), FieldOf(children, "controlURL"), FieldOf(children, "eventSubURL"))
  }

  /** The service elements of a document, in document order. */
  function Services(node: Node): seq<Service> {
    match node
    case Element(tag, children) => if tag == "service" then [ServiceOf(children)] else ServicesAll(children)
    case _ => []
  }

  function ServicesAll(nodes: seq<Node>): seq<Service> {
    if nodes == [] then [] else Services(nodes[0]) + ServicesAll(nodes[1..])
  }

  function RecordAll(g: GatewayServices, baseUrl: string, services: seq<Service>): GatewayServices
    decreases services
  {
    if services == [] then g else RecordAll(Record(g, baseUrl, services[0]), baseUrl, services[1..])
  }

  // ----- The loop against the documents -----

  lemma {:induction false} HandleAllAppend(r: Reader, a: seq<Event>, b: seq<Event>, baseUrl: string)
    ensures HandleAll(r, a + b, baseUrl) == HandleAll(HandleAll(r, a, baseUrl), b, baseUrl)
  {
    if b == [] {
      assert a + b == a;
    } else {
      assert (a + b)[..|a + b| - 1] == a + b[..|b| - 1];
      HandleAllAppend(r, a, b[..|b| - 1], baseUrl);
    }
  }

  lemma {:induction false} RecordAllAppend(g: GatewayServices, baseUrl: string, a: seq<Service>, b: seq<Service>)
    ensures RecordAll(g, baseUrl, a + b) == RecordAll(RecordAll(g, baseUrl, a), baseUrl, b)
    decreases a
  {
    if a == [] {
      assert a + b == b;
    } else {
      assert (a + b)[1..] == a[1..] + b;
      RecordAllAppend(Record(g, baseUrl, a[0]), baseUrl, a[1..], b);
    }
  }

  lemma HandleOne(r: Reader, e: Event, baseUrl: string)
    ensures HandleAll(r, [e], baseUrl) == Handle(r, e, baseUrl)
  {
    assert [e][..0] == [];
    assert HandleAll(r, [], baseUrl) == r;
  }

  lemma {:induction false} EventsAllAppend(a: seq<Node>, b: seq<Node>)
    ensures EventsAll(a + b) == EventsAll(a) + EventsAll(b)
  {
    if a == [] {
      assert a + b == b;
    } else {
      assert (a + b)[1..] == a[1..] + b;
      EventsAllAppend(a[1..], b);
    }
  }

  lemma EventsAllSnoc(init: seq<Node>, last: Node)
    ensures EventsAll(init + [last]) == EventsAll(init) + Events(last)
  {
    EventsAllAppend(init, [last]);
    assert [last][1..] == [];
    assert EventsAll([last]) == Events(last);
  }

  /** The events of an element are its start, its children's events, and its end. */
  lemma ElementEvents(r: Reader, tag: string, children: seq<Node>, baseUrl: string)
    ensures
      var inner := HandleAll(Handle(r, Start(tag), baseUrl), EventsAll(children), baseUrl);
      HandleAll(r, Events(Element(tag, children)), baseUrl) == Handle(inner, End(tag), baseUrl)
  {
    HandleOne(r, Start(tag), baseUrl);
    HandleAllAppend(r, [Start(tag)], EventsAll(children), baseUrl);
    HandleAllAppend(r, [Start(tag)] + EventsAll(children), [End(tag)], baseUrl);
    HandleOne(HandleAll(r, [Start(tag)] + EventsAll(children), baseUrl), End(tag), baseUrl);
  }

  lemma LeafText(r: Reader, node: Node, baseUrl: string)
    requires r.inService && !node.Element?
    ensures
      HandleAll(r, Events(node), baseUrl)
      == if node.TextNode? then r.(current := SetField(r.current, r.tag, node.text)) else r
  {
    HandleOne(r, if node.TextNode? then Text(node.text) else Ignored, baseUrl);
  }

  /** A later text for the same field hides an earlier one. */
  lemma SetFieldTwice(s: Service, tag: string, text: string, text': string)
    ensures SetField(SetField(s, tag, text), tag, text') == SetField(s, tag, text')
  {
  }

  /** Texts inside a leaf of a service overwrite the field of the leaf's tag. */
  lemma {:induction false} LeafTexts(r: Reader, nodes: seq<Node>, baseUrl: string)
    requires r.inService && forall c | c in nodes :: !c.Element?
    ensures
      HandleAll(r, EventsAll(nodes), baseUrl)
      == match LastText(nodes) case Some(text) => r.(current := SetField(r.current, r.tag, text)) case None => r
  {
    if nodes != [] {
      var init, last := nodes[..|nodes| - 1], nodes[|nodes| - 1];
      assert nodes == init + [last];
      EventsAllSnoc(init, last);
      HandleAllAppend(r, EventsAll(init), Events(last), baseUrl);
      LeafTexts(r, init, baseUrl);
      LeafText(HandleAll(r, EventsAll(init), baseUrl), last, baseUrl);
      assert LastText(nodes) == if last.TextNode? then Some(last.text) else LastText(init);
      if last.TextNode? && LastText(init).Some? {
        SetFieldTwice(r.current, r.tag, LastText(init).value, last.text);
      }
    }
  }

  lemma LeafFields(r: Reader, leaf: Node, baseUrl: string)
    requires r.inService && IsLeaf(leaf)
    ensures
      var r' := HandleAll(r, Events(leaf), baseUrl);
      && r'.services == r.services && r'.inService
      && r'.current == if leaf.Element? && LastText(leaf.children).Some?
                       then SetField(r.current, leaf.tag, LastText(leaf.children).value) else r.current
  {
    if leaf.Element? {
      ElementEvents(r, leaf.tag, leaf.children, baseUrl);
      LeafTexts(Handle(r, Start(leaf.tag), baseUrl), leaf.children, baseUrl);
    } else {
      HandleOne(r, Ignored, baseUrl);
    }
  }

  /** One more leaf sets the field of its tag, if it has any text. */
  lemma ServiceOfSnoc(init: seq<Node>, leaf: Node)
    ensures
      ServiceOf(init + [leaf])
      == if leaf.Element? && LastText(leaf.children).Some?
         then SetField(ServiceOf(init), leaf.tag, LastText(leaf.children).value) else ServiceOf(init)
  {
    var children := init + [leaf];
    assert children[..|children| - 1] == init && children[|children| - 1] == leaf;
  }

  /** Reading the leaves of a service collects its fields. */
  lemma {:induction false} ServiceFields(r: Reader, children: seq<Node>, baseUrl: string)
    requires r.inService && r.current == EMPTY && forall c | c in children :: IsLeaf(c)
    ensures
      var r' := HandleAll(r, EventsAll(children), baseUrl);
      r'.services == r.services && r'.inService && r'.current == ServiceOf(children)
  {
    if children != [] {
      var init, last := children[..|children| - 1], children[|children| - 1];
      assert children == init + [last];
      EventsAllSnoc(init, last);
      HandleAllAppend(r, EventsAll(init), Events(last), baseUrl);
      ServiceFields(r, init, baseUrl);
      ServiceOfSnoc(init, last);
      LeafFields(HandleAll(r, EventsAll(init), baseUrl), last, baseUrl);
    }
  }

  lemma {:induction false} NodeIsRead(r: Reader, node: Node, baseUrl: string)
    requires !r.inService && Flat(node)
    ensures
      var r' := HandleAll(r, Events(node), baseUrl);
      !r'.inService && r'.services == RecordAll(r.services, baseUrl, Services(node))
    decreases node, 1
  {
    match node {
      case Element(tag, children) =>
        ElementEvents(r, tag, children, baseUrl);
        if tag == "service" {
          ServiceFields(Handle(r, Start(tag), baseUrl), children, baseUrl);
          assert RecordAll(Record(r.services, baseUrl, ServiceOf(children)), baseUrl, [])
              == Record(r.services, baseUrl, ServiceOf(children));
        } else {
          NodesAreRead(Handle(r, Start(tag), baseUrl), children, baseUrl);
        }
      case TextNode(text) => HandleOne(r, Text(text), baseUrl);
      case OtherNode => HandleOne(r, Ignored, baseUrl);
    }
  }

  lemma {:induction false} NodesAreRead(r: Reader, nodes: seq<Node>, baseUrl: string)
    requires !r.inService && forall c | c in nodes :: Flat(c)
    ensures
      var r' := HandleAll(r, EventsAll(nodes), baseUrl);
      !r'.inService && r'.services == RecordAll(r.services, baseUrl, ServicesAll(nodes))
    decreases nodes, 0
  {
    if nodes != [] {
      HandleAllAppend(r, Events(nodes[0]), EventsAll(nodes[1..]), baseUrl);
      NodeIsRead(r, nodes[0], baseUrl);
      NodesAreRead(HandleAll(r, Events(nodes[0]), baseUrl), nodes[1..], baseUrl);
      RecordAllAppend(r.services, baseUrl, Services(nodes[0]), ServicesAll(nodes[1..]));
    }
  }

  // ----- What is found -----

  ghost predicate IsLastOf(services: seq<Service>, kind: Service -> bool, i: nat) {
    i < |services| && kind(services[i]) && forall j | i < j < |services| :: !kind(services[j])
  }

  /** The two addresses are those of the last service of a kind, or absent when there is none. */
  ghost predicate FromLast(control: Option<string>, event: Option<string>, baseUrl: string,
                           services: seq<Service>, kind: Service -> bool) {
    && (forall i: nat | IsLastOf(services, kind, i) ::
          control == Some(Resolve(baseUrl, services[i].controlUrl))
           && event == Some(Resolve(baseUrl, services[i].eventUrl)))
    && ((forall s | s in services :: !kind(s)) ==> control.None? && event.None?)
  }

  lemma FromLastSnoc(control: Option<string>, event: Option<string>, baseUrl: string,
                     init: seq<Service>, last: Service, kind: Service -> bool)
    requires FromLast(control, event, baseUrl, init, kind)
    ensures
      if kind(last)
      then FromLast(Some(Resolve(baseUrl, last.controlUrl)), Some(Resolve(baseUrl, last.eventUrl)),
                    baseUrl, init + [last], kind)
      else FromLast(control, event, baseUrl, init + [last], kind)
  {
    var services := init + [last];
    assert services[|init|] == last;
    assert forall i: nat | i < |init| :: services[i] == init[i];
    assert forall i: nat | IsLastOf(services, kind, i) && !kind(last) :: IsLastOf(init, kind, i);
  }

  lemma {:induction false} RecordAllFindsLast(rootUrl: string, baseUrl: string, services: seq<Service>)
    ensures
      var g := RecordAll(Begin(rootUrl).services, baseUrl, services);
      && FromLast(g.wanIpControlUrl, g.wanIpEventUrl, baseUrl, services, IsWanIp)
      && FromLast(g.wanPppControlUrl, g.wanPppEventUrl, baseUrl, services, IsWanPpp)
  {
    if services != [] {
      var init, last := services[..|services| - 1], services[|services| - 1];
      assert services == init + [last];
      RecordAllAppend(Begin(rootUrl).services, baseUrl, init, [last]);
      var before := RecordAll(Begin(rootUrl).services, baseUrl, init);
      assert RecordAll(Record(before, baseUrl, last), baseUrl, []) == Record(before, baseUrl, last);
      RecordAllFindsLast(rootUrl, baseUrl, init);
      FromLastSnoc(before.wanIpControlUrl, before.wanIpEventUrl, baseUrl, init, last, IsWanIp);
      FromLastSnoc(before.wanPppControlUrl, before.wanPppEventUrl, baseUrl, init, last, IsWanPpp);
    }
  }

  lemma {:induction false} NodeDoesNotEnd(node: Node)
    ensures forall e | e in Events(node) :: !Ends(e)
    decreases node, 1
  {
    if node.Element? {
      NodesDoNotEnd(node.children);
    }
  }

  lemma {:induction false} NodesDoNotEnd(nodes: seq<Node>)
    ensures forall e | e in EventsAll(nodes) :: !Ends(e)
    decreases nodes, 0
  {
    if nodes != [] {
      NodeDoesNotEnd(nodes[0]);
      NodesDoNotEnd(nodes[1..]);
    }
  }

  /**
   For every document whose services hold only leaves, the loop finds the last service whose
   type contains WANIPConnection and the last other one whose type contains WANPPPConnection.
   */
  lemma LoopFindsLastServices(nodes: seq<Node>, baseUrl: string, rootUrl: string)
    requires forall c | c in nodes :: Flat(c)
    ensures
      var r := Parsed(EventsAll(nodes) + [Eof], baseUrl, rootUrl);
      && r.Success?
      && FromLast(r.value.wanIpControlUrl, r.value.wanIpEventUrl, baseUrl, ServicesAll(nodes), IsWanIp)
      && FromLast(r.value.wanPppControlUrl, r.value.wanPppEventUrl, baseUrl, ServicesAll(nodes), IsWanPpp)
  {
    var events := EventsAll(nodes) + [Eof];
    NodesDoNotEnd(nodes);
    var n := DocumentLength(events);
    assert forall i | 0 <= i < |EventsAll(nodes)| ::
        events[i] == EventsAll(nodes)[i] && EventsAll(nodes)[i] in EventsAll(nodes);
    assert Ends(events[|EventsAll(nodes)|]);
    assert n == |EventsAll(nodes)|;
    assert events[..|EventsAll(nodes)|] == EventsAll(nodes);
    NodesAreRead(Begin(rootUrl), nodes, baseUrl);
    RecordAllFindsLast(rootUrl, baseUrl, ServicesAll(nodes));
  }

  /** The end event `k` of an open service of the given kind took both addresses from its buffers. */
  ghost predicate TakenAt(events: seq<Event>, baseUrl: string, rootUrl: string, kind: Service -> bool, k: nat,
                          control: Option<string>, event: Option<string>) {
    && k < |events| && events[k] == End("service")
    && var r := HandleAll(Begin(rootUrl), events[..k], baseUrl);
    && r.inService && kind(r.current)
    && control == Some(Resolve(baseUrl, r.current.controlUrl))
    && event == Some(Resolve(baseUrl, r.current.eventUrl))
  }

  ghost predicate TakenTogether(events: seq<Event>, baseUrl: string, rootUrl: string, kind: Service -> bool,
                                control: Option<string>, event: Option<string>) {
    (control.None? && event.None?) || exists k :: TakenAt(events, baseUrl, rootUrl, kind, k, control, event)
  }

  lemma {:induction false} BothFromOneService(events: seq<Event>, baseUrl: string, rootUrl: string)
    ensures
      var g := HandleAll(Begin(rootUrl), events, baseUrl).services;
      && TakenTogether(events, baseUrl, rootUrl, IsWanIp, g.wanIpControlUrl, g.wanIpEventUrl)
      && TakenTogether(events, baseUrl, rootUrl, IsWanPpp, g.wanPppControlUrl, g.wanPppEventUrl)
  {
    if events != [] {
      var n := |events| - 1;
      var init := events[..n];
      BothFromOneService(init, baseUrl, rootUrl);
      var before := HandleAll(Begin(rootUrl), init, baseUrl).services;
      var g := HandleAll(Begin(rootUrl), events, baseUrl).services;
      forall kind: Service -> bool, k: nat, control, event | TakenAt(init, baseUrl, rootUrl, kind, k, control, event)
        ensures TakenAt(events, baseUrl, rootUrl, kind, k, control, event)
      {
        assert init[..k] == events[..k];
      }
      if g.wanIpControlUrl != before.wanIpControlUrl || g.wanIpEventUrl != before.wanIpEventUrl {
        assert TakenAt(events, baseUrl, rootUrl, IsWanIp, n, g.wanIpControlUrl, g.wanIpEventUrl);
      }
      if g.wanPppControlUrl != before.wanPppControlUrl || g.wanPppEventUrl != before.wanPppEventUrl {
        assert TakenAt(events, baseUrl, rootUrl, IsWanPpp, n, g.wanPppControlUrl, g.wanPppEventUrl);
      }
    }
  }

  /**
   Over every event stream, the control and event address always come from the same service
   element: one that was recorded as a WANIPConnection if any was, otherwise a WANPPPConnection.
   */
  lemma UrlsComeFromOneService(events: seq<Event>, baseUrl: string, rootUrl: string)
    ensures
      var g := HandleAll(Begin(rootUrl), events, baseUrl).services;
      TakenTogether(events, baseUrl, rootUrl,
                    if g.wanIpControlUrl.Some? then IsWanIp else IsWanPpp, ControlUrl(g), EventUrl(g))
  {
    BothFromOneService(events, baseUrl, rootUrl);
  }

  // ----- What addresses and kinds mean -----

  /** An address that begins with a slash is taken from the base; any other is kept. */
  lemma AddressIsResolved(baseUrl: string, url: string)
    ensures "/" <= url ==> Resolve(baseUrl, url) == baseUrl + url
    ensures !("/" <= url) ==> Resolve(baseUrl, url) == url
  {
    if url != "" {
      assert "/" <= url <==> url[0] == '/';
    }
  }

  ghost predicate Mentions(text: string, word: string) {
    exists i :: 0 <= i <= |text| && word <= text[i..]
  }

  lemma ContainsMeansMentions(text: string, word: string)
    ensures Contains(text, word) <==> Mentions(text, word)
  {
    FindIsFirst(text, word);
  }

  /** The two kinds of service, by what their type mentions; the first takes precedence. */
  lemma KindsByType(s: Service)
    ensures IsWanIp(s) <==> Mentions(s.serviceType, "WANIPConnection")
    ensures IsWanPpp(s) <==> !Mentions(s.serviceType, "WANIPConnection") && Mentions(s.serviceType, "WANPPPConnection")
  {
    ContainsMeansMentions(s.serviceType, "WANIPConnection");
    ContainsMeansMentions(s.serviceType, "WANPPPConnection");
  }

  /** What an address of a service comes out as. */
  function Absolute(baseUrl: string, url: string): string {
    if "/" <= url then baseUrl + url else url
  }

  ghost predicate NoneAfter(services: seq<Service>, i: nat, word: string) {
    forall j | i < j < |services| :: !Mentions(services[j].serviceType, word)
  }

  lemma LastOfKind(services: seq<Service>, i: nat)
    requires i < |services| && Mentions(services[i].serviceType, "WANIPConnection")
    requires NoneAfter(services, i, "WANIPConnection")
    ensures IsLastOf(services, IsWanIp, i)
  {
    forall j | i <= j < |services|
      ensures IsWanIp(services[j]) <==> Mentions(services[j].serviceType, "WANIPConnection")
    {
      KindsByType(services[j]);
    }
  }

  lemma LastIsAbsolute(control: Option<string>, event: Option<string>, baseUrl: string, services: seq<Service>,
                       kind: Service -> bool, i: nat)
    requires FromLast(control, event, baseUrl, services, kind) && IsLastOf(services, kind, i)
    ensures control == Some(Absolute(baseUrl, services[i].controlUrl))
    ensures event == Some(Absolute(baseUrl, services[i].eventUrl))
  {
    AddressIsResolved(baseUrl, services[i].controlUrl);
    AddressIsResolved(baseUrl, services[i].eventUrl);
  }

  /**
   So the gateway's control and event address are those of the last service in document order whose
   type mentions WANIPConnection, taken from the base where they begin with a slash.
   */
  lemma GatewayAddresses(nodes: seq<Node>, baseUrl: string, rootUrl: string, i: nat)
    requires forall c | c in nodes :: Flat(c)
    requires i < |ServicesAll(nodes)| && Mentions(ServicesAll(nodes)[i].serviceType, "WANIPConnection")
    requires NoneAfter(ServicesAll(nodes), i, "WANIPConnection")
    ensures
      var service := ServicesAll(nodes)[i];
      var r := Parsed(EventsAll(nodes) + [Eof], baseUrl, rootUrl);
      && r.Success?
      && ControlUrl(r.value) == Some(Absolute(baseUrl, service.controlUrl))
      && EventUrl(r.value) == Some(Absolute(baseUrl, service.eventUrl))
  {
    var services := ServicesAll(nodes);
    LoopFindsLastServices(nodes, baseUrl, rootUrl);
    LastOfKind(services, i);
    var g := Parsed(EventsAll(nodes) + [Eof], baseUrl, rootUrl).value;
    LastIsAbsolute(g.wanIpControlUrl, g.wanIpEventUrl, baseUrl, services, IsWanIp, i);
  }

  /** Without one, they are those of the last service whose type mentions WANPPPConnection. */
  lemma FallbackAddresses(nodes: seq<Node>, baseUrl: string, rootUrl: string, i: nat)
    requires forall c | c in nodes :: Flat(c)
    requires forall s | s in ServicesAll(nodes) :: !Mentions(s.serviceType, "WANIPConnection")
    requires i < |ServicesAll(nodes)| && Mentions(ServicesAll(nodes)[i].serviceType, "WANPPPConnection")
    requires NoneAfter(ServicesAll(nodes), i, "WANPPPConnection")
    ensures
      var service := ServicesAll(nodes)[i];
      var r := Parsed(EventsAll(nodes) + [Eof], baseUrl, rootUrl);
      && r.Success?
      && ControlUrl(r.value) == Some(Absolute(baseUrl, service.controlUrl))
      && EventUrl(r.value) == Some(Absolute(baseUrl, service.eventUrl))
  {
    var services := ServicesAll(nodes);
    LoopFindsLastServices(nodes, baseUrl, rootUrl);
    LastOfFallback(services, i);
    var g := Parsed(EventsAll(nodes) + [Eof], baseUrl, rootUrl).value;
    NoneIsAbsent(g.wanIpControlUrl, g.wanIpEventUrl, baseUrl, services, IsWanIp);
    LastIsAbsolute(g.wanPppControlUrl, g.wanPppEventUrl, baseUrl, services, IsWanPpp, i);
  }

  lemma NoneIsAbsent(control: Option<string>, event: Option<string>, baseUrl: string, services: seq<Service>,
                     kind: Service -> bool)
    requires FromLast(control, event, baseUrl, services, kind) && forall s | s in services :: !kind(s)
    ensures control.None? && event.None?
  {
  }

  lemma LastOfFallback(services: seq<Service>, i: nat)
    requires forall s | s in services :: !Mentions(s.serviceType, "WANIPConnection")
    requires i < |services| && Mentions(services[i].serviceType, "WANPPPConnection")
    requires NoneAfter(services, i, "WANPPPConnection")
    ensures IsLastOf(services, IsWanPpp, i)
    ensures forall s | s in services :: !IsWanIp(s)
  {
    forall s | s in services
      ensures !IsWanIp(s)
      ensures IsWanPpp(s) <==> Mentions(s.serviceType, "WANPPPConnection")
    {
      KindsByType(s);
    }
  }

  // ----- The base address -----

  function BaseUrlFrom(url: string): string {
    match Find(url, "://")
    case None => url
    case Some(i) =>
      var afterScheme := url[i + 3..];
      match Find(afterScheme, "/")
      case None => url
      case Some(slash) => url[..i] + "://" + afterScheme[..slash]
  }

  lemma FindSchemeEnd(scheme: string, rest: string)
    requires ':' !in scheme
    ensures Find(scheme + ("://" + rest), "://") == Some(|scheme|)
  {
    var tail := "://" + rest;
    forall i | 0 <= i < |scheme|
      ensures !("://" <= (scheme + tail)[i..])
    {
      assert (scheme + tail)[i..][0] == scheme[i];
    }
    FindSkips(scheme, tail, "://");
    assert "://" <= tail;
  }

  lemma FindSlash(host: string, path: string)
    requires '/' !in host
    ensures Find(host + ("/" + path), "/") == Some(|host|)
    ensures Find(host, "/") == None
  {
    forall i | 0 <= i < |host|
      ensures !("/" <= (host + ("/" + path))[i..])
      ensures !("/" <= (host + "")[i..])
    {
      assert (host + ("/" + path))[i..][0] == host[i];
      assert (host + "")[i..][0] == host[i];
    }
    FindSkips(host, "/" + path, "/");
    FindSkips(host, "", "/");
    assert "/" <= "/" + path;
    assert host + "" == host;
  }

  lemma SchemeIsCut(scheme: string, rest: string)
    requires ':' !in scheme
    ensures
      var url := scheme + ("://" + rest);
      && Find(url, "://") == Some(|scheme|) && url[|scheme| + 3..] == rest && url[..|scheme|] == scheme
  {
    FindSchemeEnd(scheme, rest);
  }

  lemma BaseUrlOfHost(scheme: string, host: string)
    requires ':' !in scheme && '/' !in host
    ensures BaseUrlFrom(scheme + ("://" + host)) == scheme + ("://" + host)
  {
    FindSlash(host, "");
    SchemeIsCut(scheme, host);
  }

  lemma BaseUrlOfPath(scheme: string, host: string, path: string)
    requires ':' !in scheme && '/' !in host
    ensures BaseUrlFrom(scheme + ("://" + (host + ("/" + path)))) == scheme + ("://" + host)
  {
    var rest := host + ("/" + path);
    FindSlash(host, path);
    SchemeIsCut(scheme, rest);
    assert rest[..|host|] == host;
    Associative(scheme, "://", host);
  }

  /** The base of an address is its scheme and host, and taking the base again changes nothing. */
  lemma BaseUrlIsSchemeAndHost(scheme: string, host: string, path: string)
    requires ':' !in scheme && '/' !in host
    ensures
      var base := BaseUrlFrom(scheme + ("://" + (host + ("/" + path))));
      base == scheme + ("://" + host) && BaseUrlFrom(base) == base
  {
    BaseUrlOfPath(scheme, host, path);
    BaseUrlOfHost(scheme, host);
  }

  /** An address without a scheme is its own base. */
  lemma BaseUrlWithoutScheme(url: string)
    requires !Mentions(url, "://")
    ensures BaseUrlFrom(url) == url
  {
    ContainsMeansMentions(url, "://");
  }
}
