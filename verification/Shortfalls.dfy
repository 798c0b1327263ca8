/** Inputs on which a pass misses what its annotation asks for, one for each exact condition. */
module Shortfalls {
  import opened Wrappers
  import opened Text
  import opened PortMappings
  import opened Annotations
  import opened Proxies
  import opened Reconciler
  import opened Stabilisation
  import Idempotence
  import EndToEnd

  // ----- One external port, two internal ports: the annotation `80:1,80:2` -----

  function TwoTargets(): string {
    PrintPairs([(80, 1), (80, 2)])
  }

  lemma Printed80()
    ensures Decimal(80) == "80"
  {
    assert Decimal(8) == "8" && DigitChar(0) == '0';
  }

  lemma TwoTargetsIsPrinted()
    ensures TwoTargets() == "80:1,80:2"
  {
    Printed80();
    assert PrintPair((80, 1)) == "80:1" && PrintPair((80, 2)) == "80:2";
    assert [(80, 1), (80, 2)][1..] == [(80, 2)];
  }

  /** Two remapped ports with no declared protocol are both forwarded over TCP. */
  lemma TwoPairEntries(lookup: u16 -> seq<Protocol>)
    requires lookup(1) == [] && lookup(2) == []
    ensures PairEntries([(80, 1), (80, 2)], lookup) == [Desired(80, 1, Tcp), Desired(80, 2, Tcp)]
  {
    var pairs: seq<(u16, u16)> := [(80, 1), (80, 2)];
    assert pairs[1..] == [(80, 2)] && pairs[1..][1..] == [];
    assert PairEntries(pairs[1..], lookup) == [Desired(80, 2, Tcp)] + [];
    assert PairEntries(pairs, lookup) == [Desired(80, 1, Tcp)] + PairEntries(pairs[1..], lookup);
  }

  lemma TwoTargetsParsed()
    ensures ParseAnnotation(TwoTargets(), []) == [Desired(80, 1, Tcp), Desired(80, 2, Tcp)]
    ensures !Consistent(ParseAnnotation(TwoTargets(), []))
  {
    PairsAreRead([(80, 1), (80, 2)], []);
    TwoPairEntries((port: u16) => ProtocolsAt([], port));
    TwoTargetsClash();
  }

  lemma TwoTargetsClash()
    ensures !Consistent([Desired(80, 1, Tcp), Desired(80, 2, Tcp)])
  {
    var desired := [Desired(80, 1, Tcp), Desired(80, 2, Tcp)];
    assert desired[0].external == desired[1].external && desired[0].internal != desired[1].internal;
  }

  /** In every world, such an annotation makes each further failure-free pass start a new accept loop. */
  lemma TwoTargetsRestartEveryPass(w: World, lanIp: string, owner: Owner, ip: string, o: Outcomes, o': Outcomes)
    requires FailureFree(o) && FailureFree(o') && IsListing(o.items, w.store, owner.ns)
    requires
      IsListing(o'.items, ReconcileOwner(w, lanIp, owner, Some(TwoTargets()), [], Reachable(ip), o).0.store, owner.ns)
    ensures
      var w' := ReconcileOwner(w, lanIp, owner, Some(TwoTargets()), [], Reachable(ip), o).0;
      var w'' := ReconcileOwner(w', lanIp, owner, Some(TwoTargets()), [], Reachable(ip), o').0;
      |w''.proxies.loops| > |w'.proxies.loops|
  {
    TwoTargetsParsed();
    var req := Request(owner, lanIp, ip, ParseAnnotation(TwoTargets(), []));
    Idempotence.SecondPassChangesNothingIff(w, req, o, o');
  }

  /** Its first entry gives way to the second. */
  lemma FirstTargetDoesNotPrevail(lanIp: string, owner: Owner, ip: string)
    ensures
      var req := EndToEnd.RequestOf(lanIp, owner, TwoTargets(), [], ip);
      |req.desired| == 2 && !EndToEnd.Prevails(req, 0) && EndToEnd.Prevails(req, 1)
  {
    TwoTargetsParsed();
    var req := EndToEnd.RequestOf(lanIp, owner, TwoTargets(), [], ip);
    assert IsLast(req, 2, 1);
    assert NameOf(owner, req.desired[1]) == NameOf(owner, req.desired[0]);
  }

  // ----- An annotation removed and restored -----

  /**
   In every world, when the annotation goes while a PortMapping carries a finalizer, and comes back
   before it is gone, the pass finds it terminating and leaves it so: it is asked for, and not live.
   */
  lemma RestoredAnnotationStaysGone(w: World, lanIp: string, owner: Owner, value: string, ports: seq<DeclaredPort>,
                                    ip: string, o: Outcomes, o': Outcomes, i: nat)
    requires FailureFree(o) && FailureFree(o') && IsListing(o.items, w.store, owner.ns)
    requires i < |ParseAnnotation(value, ports)|
    requires
      var name := NameOf(owner, ParseAnnotation(value, ports)[i]);
      Owned(w.store, owner, name) && w.store[KeyFor(owner, name)].finalizer
    requires IsListing(o'.items, ReconcileOwner(w, lanIp, owner, None, ports, Reachable(ip), o).0.store, owner.ns)
    ensures
      var w' := ReconcileOwner(w, lanIp, owner, None, ports, Reachable(ip), o).0;
      var (w'', r) := ReconcileOwner(w', lanIp, owner, Some(value), ports, Reachable(ip), o');
      r == Success(Requeue(60)) && !Live(w'', owner, NameOf(owner, ParseAnnotation(value, ports)[i]))
  {
    var req := Request(owner, lanIp, ip, ParseAnnotation(value, ports));
    var name := NameOf(owner, req.desired[i]);
    var w' := ReconcileOwner(w, lanIp, owner, None, ports, Reachable(ip), o).0;
    PruneIs(w, w, owner, [], o);
    assert Stale(w, owner, [], name);
    assert Lookup(w'.store, KeyFor(owner, name)) == Deleted(w.store, KeyFor(owner, name));
    var w'' := ReconcileOwner(w', lanIp, owner, Some(value), ports, Reachable(ip), o').0;
    SelfStabilises(w', lanIp, owner, value, ports, ip, o');
    UpsertSucceeds(w', req, o', |req.desired|);
    PruneIs(w', UpsertTo(w', req, o', |req.desired|).0, owner, Names(req), o');
    assert Placed(w'', req, |req.desired|, i);
    DesiredLiveIff(w', w'', req, o', i);
  }

  // ----- A world with one live PortMapping -----

  const OWNER := Owner("ns", "web", "uid")
  const HTTP := Desired(80, 80, Tcp)

  function OneName(): string {
    NameOf(OWNER, HTTP)
  }

  /** The PortMapping of port 80, adopted by the PortMapping controller. */
  function OneObject(terminating: bool): Store {
    var spec := PortMappingSpec(80, "192.168.0.2", 30000, Tcp, None);
    map[KeyFor(OWNER, OneName()) := PortMapping(true, Some("uid"), {}, spec, None, true, terminating)]
  }

  function OneWorld(): World {
    World(OneObject(false), ProxyState(map[], [], {}))
  }

  function AllWell(): Outcomes {
    Outcomes(true, [OneName()], i => Some(30000), i => true, name => true)
  }

  lemma OneIsListed(terminating: bool)
    ensures FailureFree(AllWell()) && IsListing(AllWell().items, OneObject(terminating), "ns")
    ensures Owned(OneObject(terminating), OWNER, OneName())
  {
    assert FailureFree(AllWell()) by {
      assert forall i :: AllWell().binds(i) == Some(30000) && AllWell().patched(i);
      assert forall name :: AllWell().deleted(name);
    }
    forall name
      ensures name in AllWell().items
         <==> ObjectKey("ns", name) in OneObject(terminating) && OneObject(terminating)[ObjectKey("ns", name)].managed
    {
      assert name in [OneName()] <==> name == OneName();
    }
  }

  lemma OnePortParsed(port: u16)
    ensures ParseAnnotation(PrintPairs([(port, port)]), []) == [Desired(port, port, Tcp)]
  {
    var lookup := (p: u16) => ProtocolsAt([], p);
    PairsAreRead([(port, port)], []);
    assert [(port, port)][1..] == [];
    assert PairEntries([(port, port)], lookup) == [Desired(port, port, Tcp)] + [];
  }

  /** Removed and restored, the annotation `80:80` ends with its only name asked for and no live PortMapping of it. */
  lemma RestoredExample(lanIp: string, ip: string)
    ensures
      var value := PrintPairs([(80, 80)]);
      var w' := ReconcileOwner(OneWorld(), lanIp, OWNER, None, [], Reachable(ip), AllWell()).0;
      var w'' := ReconcileOwner(w', lanIp, OWNER, Some(value), [], Reachable(ip), AllWell()).0;
      && FailureFree(AllWell()) && IsListing(AllWell().items, OneWorld().store, "ns")
      && IsListing(AllWell().items, w'.store, "ns")
      && Live(OneWorld(), OWNER, OneName()) && OneName() in AskedNames(OWNER, value, [])
      && !Live(w'', OWNER, OneName())
  {
    var value := PrintPairs([(80, 80)]);
    OneIsListed(false);
    OneIsListed(true);
    OnePortParsed(80);
    OneIsReleased(lanIp, ip);
    assert AskedNames(OWNER, value, [])[0] == OneName();
    RestoredAnnotationStaysGone(OneWorld(), lanIp, OWNER, value, [], ip, AllWell(), AllWell(), 0);
  }

  lemma OneIsReleased(lanIp: string, ip: string)
    ensures
      ReconcileOwner(OneWorld(), lanIp, OWNER, None, [], Reachable(ip), AllWell()).0.store == OneObject(true)
  {
    OneIsListed(false);
    var w' := ReconcileOwner(OneWorld(), lanIp, OWNER, None, [], Reachable(ip), AllWell()).0;
    PruneIs(OneWorld(), OneWorld(), OWNER, [], AllWell());
    forall key: ObjectKey
      ensures Lookup(w'.store, key) == Lookup(OneObject(true), key)
    {
      assert Stale(OneWorld(), OWNER, [], key.name) <==> key.name == OneName();
    }
    SameLookups(w'.store, OneObject(true));
  }

  lemma SameLookups(store: Store, store': Store)
    requires forall key: ObjectKey :: Lookup(store, key) == Lookup(store', key)
    ensures store == store'
  {
    forall key: ObjectKey
      ensures key in store <==> key in store'
      ensures key in store ==> store[key] == store'[key]
    {
      assert Lookup(store, key) == Lookup(store', key);
    }
  }

  // ----- A Service that becomes headless -----

  lemma OneNameNotAsked()
    ensures OneName() !in AskedNames(OWNER, PrintPairs([(81, 81)]), [])
  {
    OnePortParsed(81);
    var names := AskedNames(OWNER, PrintPairs([(81, 81)]), []);
    assert |names| == 1 && names[0] == NameOf(OWNER, Desired(81, 81, Tcp));
    if OneName() in names {
      SameNameSamePort(OWNER, Desired(81, 81, Tcp), HTTP);
    }
  }

  function MovedService(clusterIp: string): Service {
    Service(Some("ns"), "web", Some("uid"), Some(PrintPairs([(81, 81)])), Some(clusterIp), [])
  }

  /**
   The annotation moves from port 80 to 81: in the pass that follows, the PortMapping of port 80
   stays live exactly when the Service has no ClusterIP.
   */
  lemma HeadlessServiceKeepsStale(lanIp: string, clusterIp: string)
    ensures FailureFree(AllWell()) && IsListing(AllWell().items, OneWorld().store, "ns")
    ensures Live(OneWorld(), OWNER, OneName()) && OneName() !in AskedNames(OWNER, PrintPairs([(81, 81)]), [])
    ensures
      Live(ReconcileService(OneWorld(), lanIp, MovedService(clusterIp), AllWell()).0, OWNER, OneName())
      <==> clusterIp == "None" || clusterIp == ""
  {
    var svc := MovedService(clusterIp);
    OneIsListed(false);
    OneNameNotAsked();
    OnePortParsed(81);
    assert ServiceOwner(svc) == OWNER;
    StaleSurvivesIff(OneWorld(), lanIp, OWNER, PrintPairs([(81, 81)]), [], ServiceBackend(svc), AllWell(), OneName());
  }
}
