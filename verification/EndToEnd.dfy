/** From an annotated Service to the router: parsing, naming, proxy, store and lease together. */
module EndToEnd {
  import opened Wrappers
  import opened Text
  import opened PortMappings
  import opened Annotations
  import opened Proxies
  import opened Reconciler
  import opened Stabilisation
  import Lease
  import LeaseRuns

  /** The controller's PortMapping `id` carries, as its current spec, what the watcher's store says. */
  ghost predicate Mirrors(l: Lease.World, id: nat, store: Store, key: ObjectKey) {
    && id < |l.pms| && |l.pms[id].specs| > 0 && !l.pms[id].phase.Gone?
    && key in store && l.pms[id].specs[|l.pms[id].specs| - 1] == store[key].spec
  }

  /** The router has performed an add of the current spec. */
  ghost predicate AddedSinceEdit(l: Lease.World, id: nat)
    requires id < |l.pms|
  {
    l.pms[id].lastGrant.Some? && l.pms[id].lastGrant.value.gen == |l.pms[id].specs| - 1
  }

  /** The forwarding the annotation asked for: router to LAN address, to proxy port, to backend address and port. */
  ghost predicate Forwarded(w: Reconciler.World, l: Lease.World, req: Request, d: Desired) {
    var name := NameOf(req.owner, d);
    var key := Lease.RouterKey(d.external, d.protocol);
    && key in l.router && name in w.proxies.table
    && var handle := w.proxies.table[name];
    && l.router[key].client == req.lanIp && l.router[key].port == handle.port
    && handle.loop < |w.proxies.loops| && handle.loop !in w.proxies.told
    && var loop := w.proxies.loops[handle.loop];
    && loop.port == handle.port && loop.protocol == d.protocol && Dials(loop.target, req.backend, d.internal)
    && l.router[key].description == "auto:" + req.owner.ns + "/" + req.owner.name + " proxy->" + loop.target
  }

  /** The last entry of the name asks for the same internal port. */
  ghost predicate Prevails(req: Request, i: nat)
    requires i < |req.desired|
  {
    forall k | i <= k < |req.desired| && IsLast(req, |req.desired|, k)
      && NameOf(req.owner, req.desired[k]) == NameOf(req.owner, req.desired[i]) ::
      req.desired[k].internal == req.desired[i].internal
  }

  /** The proxy of the entry's name reaches its backend and port. */
  ghost predicate Reaches(w: Reconciler.World, req: Request, d: Desired)
    requires Published(w, req, d)
  {
    var handle := w.proxies.table[NameOf(req.owner, d)];
    Dials(handle.target, req.backend, d.internal) && handle.protocol == d.protocol
  }

  lemma DialsOne(target: string, ip: string, port: u16, port': u16)
    requires Dials(target, ip, port)
    ensures Dials(target, ip, port') <==> port == port'
  {
  }

  /** A name's proxy reaches an entry's port exactly when the last entry of the name asks for it too. */
  lemma PrevailsMeansReached(w: Reconciler.World, req: Request, i: nat)
    requires i < |req.desired| && Programmed(w, req, |req.desired|)
    ensures
      var d := req.desired[i];
      Published(w, req, d) && (Reaches(w, req, d) <==> Prevails(req, i))
    ensures
      w.store[KeyFor(req.owner, NameOf(req.owner, req.desired[i]))].spec.description
      == Some("auto:" + req.owner.ns + "/" + req.owner.name + " proxy->"
              + w.proxies.table[NameOf(req.owner, req.desired[i])].target)
  {
    var k := LastOf(req, |req.desired|, i);
    var d, last := req.desired[i], req.desired[k];
    SameNameSamePort(req.owner, last, d);
    assert Placed(w, req, |req.desired|, i) && Placed(w, req, |req.desired|, k);
    DialsOne(w.proxies.table[NameOf(req.owner, d)].target, req.backend, last.internal, d.internal);
    forall j | i <= j < |req.desired| && IsLast(req, |req.desired|, j)
      && NameOf(req.owner, req.desired[j]) == NameOf(req.owner, d)
      ensures j == k
    {
    }
  }

  /** The router half: under the entry's key it holds what the PortMapping's spec says. */
  lemma HeldEntryIsSpec(l: Lease.World, store: Store, key: ObjectKey, id: nat)
    requires Mirrors(l, id, store, key) && AddedSinceEdit(l, id)
    requires LeaseRuns.Held(l, id) && l.now < l.pms[id].lastGrant.value.at + Lease.LEASE
    ensures RouterHolds(l, store[key].spec)
  {
  }

  ghost predicate RouterHolds(l: Lease.World, spec: PortMappingSpec) {
    var key := Lease.RouterKey(spec.externalPort, spec.protocol);
    && key in l.router && l.router[key].client == spec.internalHost && l.router[key].port == spec.internalPort
    && (spec.description.Some? ==> l.router[key].description == spec.description.value)
  }

  /** The proxy half: the loop that listens on the port of a name's proxy is running and is what its handle says. */
  lemma HandleRuns(ps: ProxyState, name: string)
    requires Tidy(ps) && name in ps.table
    ensures
      var h := ps.table[name];
      h.loop < |ps.loops| && h.loop !in ps.told && ps.loops[h.loop] == Loop(h.port, h.target, h.protocol)
  {
  }

  lemma HeldEntryForwards(w: Reconciler.World, l: Lease.World, req: Request, i: nat, id: nat)
    requires i < |req.desired| && Programmed(w, req, |req.desired|) && Tidy(w.proxies)
    requires Mirrors(l, id, w.store, KeyFor(req.owner, NameOf(req.owner, req.desired[i]))) && AddedSinceEdit(l, id)
    requires LeaseRuns.Held(l, id) && l.now < l.pms[id].lastGrant.value.at + Lease.LEASE
    ensures Forwarded(w, l, req, req.desired[i]) <==> Prevails(req, i)
  {
    var name := NameOf(req.owner, req.desired[i]);
    PrevailsMeansReached(w, req, i);
    HeldEntryIsSpec(l, w.store, KeyFor(req.owner, name), id);
    HandleRuns(w.proxies, name);
    PublishedForwards(w, l, req, req.desired[i]);
  }

  /** With both halves, forwarding comes down to what the name's proxy reaches. */
  lemma PublishedForwards(w: Reconciler.World, l: Lease.World, req: Request, d: Desired)
    requires Published(w, req, d) && RouterHolds(l, w.store[KeyFor(req.owner, NameOf(req.owner, d))].spec)
    requires
      w.store[KeyFor(req.owner, NameOf(req.owner, d))].spec.description
      == Some("auto:" + req.owner.ns + "/" + req.owner.name + " proxy->"
              + w.proxies.table[NameOf(req.owner, d)].target)
    requires
      var ps, h := w.proxies, w.proxies.table[NameOf(req.owner, d)];
      h.loop < |ps.loops| && h.loop !in ps.told && ps.loops[h.loop] == Loop(h.port, h.target, h.protocol)
    ensures Forwarded(w, l, req, d) <==> Reaches(w, req, d)
  {
  }

  /** One desired entry's PortMapping, as the controller sees it after the pass, has been added for its current spec. */
  ghost predicate Submitted(w: Reconciler.World, l: Lease.World, req: Request, i: nat, id: nat)
    requires i < |req.desired|
  {
    Mirrors(l, id, w.store, KeyFor(req.owner, NameOf(req.owner, req.desired[i]))) && AddedSinceEdit(l, id)
  }

  /** What an owner's annotation asks for, with the backend at `ip`. */
  function RequestOf(lanIp: string, owner: Owner, value: string, ports: seq<DeclaredPort>, ip: string): Request {
    Request(owner, lanIp, ip, ParseAnnotation(value, ports))
  }

  /** The pass it leads to. */
  function Pass(w: Reconciler.World, lanIp: string, owner: Owner, value: string, ports: seq<DeclaredPort>, ip: string,
                o: Outcomes): (Reconciler.World, Result<Action, ReconcileError>)
  {
    ReconcileOwner(w, lanIp, owner, Some(value), ports, Reachable(ip), o)
  }

  /**
   End to end. After a failure-free pass for an annotated owner with a reachable backend, a desired
   entry is held by the router as the LAN address and the port of the proxy of its name, whose
   running accept loop forwards to the backend at the entry's internal port, exactly when no
   later entry takes its name for another internal port; provided the entry's PortMapping was
   added since its last spec change and less than 3600 seconds ago, and since one of its adds
   no other claimed its key.
   */
  lemma RequestReachesRouter(w: Reconciler.World, lanIp: string, owner: Owner, value: string, ports: seq<DeclaredPort>,
                             ip: string, o: Outcomes, i: nat, steps: seq<Lease.Step>, id: nat)
    requires FailureFree(o) && IsListing(o.items, w.store, owner.ns) && Tidy(w.proxies)
    requires i < |ParseAnnotation(value, ports)|
    requires Lease.CanRun(Lease.INITIAL, steps) && LeaseRuns.ApartSinceAdd(Lease.INITIAL, steps, id)
    requires
      var l := Lease.Run(Lease.INITIAL, steps);
      && Submitted(Pass(w, lanIp, owner, value, ports, ip, o).0, l, RequestOf(lanIp, owner, value, ports, ip), i, id)
      && l.now < l.pms[id].lastGrant.value.at + Lease.LEASE
    ensures
      var req := RequestOf(lanIp, owner, value, ports, ip);
      var (w', r) := Pass(w, lanIp, owner, value, ports, ip, o);
      && r == Success(Requeue(60))
      && (Forwarded(w', Lease.Run(Lease.INITIAL, steps), req, req.desired[i]) <==> Prevails(req, i))
  {
    SelfStabilises(w, lanIp, owner, value, ports, ip, o);
    LeaseRuns.HeldSinceAdd(Lease.INITIAL, steps, id);
    HeldEntryForwards(Pass(w, lanIp, owner, value, ports, ip, o).0, Lease.Run(Lease.INITIAL, steps),
                      RequestOf(lanIp, owner, value, ports, ip), i, id);
  }

  /** When the PortMapping is kept timely since that add, this is so at every moment after it, renewals included. */
  lemma TimelyRequestStaysReachable(w: Reconciler.World, lanIp: string, owner: Owner, value: string,
                                    ports: seq<DeclaredPort>, ip: string, o: Outcomes, i: nat,
                                    steps: seq<Lease.Step>, id: nat, b: LeaseRuns.Bounds)
    requires FailureFree(o) && IsListing(o.items, w.store, owner.ns) && Tidy(w.proxies)
    requires i < |ParseAnnotation(value, ports)|
    requires LeaseRuns.Admissible(b) && Lease.CanRun(Lease.INITIAL, steps)
    requires LeaseRuns.KeptSinceAdd(Lease.INITIAL, steps, id, b, false)
    requires Submitted(Pass(w, lanIp, owner, value, ports, ip, o).0, Lease.Run(Lease.INITIAL, steps),
                       RequestOf(lanIp, owner, value, ports, ip), i, id)
    ensures
      var req := RequestOf(lanIp, owner, value, ports, ip);
      Forwarded(Pass(w, lanIp, owner, value, ports, ip, o).0, Lease.Run(Lease.INITIAL, steps), req, req.desired[i])
      <==> Prevails(req, i)
  {
    LeaseRuns.LeaseNeverLapses(steps, id, b);
    LeaseRuns.KeptIsApart(Lease.INITIAL, steps, id, b, false);
    RequestReachesRouter(w, lanIp, owner, value, ports, ip, o, i, steps, id);
  }

  // ----- Services and Pods -----

  function ServiceRequest(lanIp: string, svc: Service): Request
    requires svc.annotation.Some? && ServiceBackend(svc).Reachable?
  {
    RequestOf(lanIp, ServiceOwner(svc), svc.annotation.value, svc.ports, ServiceBackend(svc).ip)
  }

  function PodRequest(lanIp: string, pod: Pod): Request
    requires pod.annotation.Some? && PodBackend(pod).Reachable?
  {
    RequestOf(lanIp, PodOwner(pod), pod.annotation.value, Flatten(pod.containers), PodBackend(pod).ip)
  }

  /** So a Service's entry is forwarded to its ClusterIP. */
  lemma ServiceReachesRouter(w: Reconciler.World, lanIp: string, svc: Service, o: Outcomes, i: nat,
                             steps: seq<Lease.Step>, id: nat)
    requires svc.annotation.Some? && ServiceBackend(svc).Reachable?
    requires FailureFree(o) && IsListing(o.items, w.store, ServiceOwner(svc).ns) && Tidy(w.proxies)
    requires i < |ServiceRequest(lanIp, svc).desired|
    requires Lease.CanRun(Lease.INITIAL, steps) && LeaseRuns.ApartSinceAdd(Lease.INITIAL, steps, id)
    requires
      var l := Lease.Run(Lease.INITIAL, steps);
      && Submitted(ReconcileService(w, lanIp, svc, o).0, l, ServiceRequest(lanIp, svc), i, id)
      && l.now < l.pms[id].lastGrant.value.at + Lease.LEASE
    ensures
      var req := ServiceRequest(lanIp, svc);
      var (w', r) := ReconcileService(w, lanIp, svc, o);
      && r == Success(Requeue(60))
      && Some(req.backend) == svc.clusterIp && req.lanIp == lanIp && req.owner.name == svc.name
      && (Forwarded(w', Lease.Run(Lease.INITIAL, steps), req, req.desired[i]) <==> Prevails(req, i))
  {
    RequestReachesRouter(w, lanIp, ServiceOwner(svc), svc.annotation.value, svc.ports, ServiceBackend(svc).ip, o, i,
                         steps, id);
  }

  lemma TimelyServiceStaysReachable(w: Reconciler.World, lanIp: string, svc: Service, o: Outcomes, i: nat,
                                    steps: seq<Lease.Step>, id: nat, b: LeaseRuns.Bounds)
    requires svc.annotation.Some? && ServiceBackend(svc).Reachable?
    requires FailureFree(o) && IsListing(o.items, w.store, ServiceOwner(svc).ns) && Tidy(w.proxies)
    requires i < |ServiceRequest(lanIp, svc).desired|
    requires LeaseRuns.Admissible(b) && Lease.CanRun(Lease.INITIAL, steps)
    requires LeaseRuns.KeptSinceAdd(Lease.INITIAL, steps, id, b, false)
    requires Submitted(ReconcileService(w, lanIp, svc, o).0, Lease.Run(Lease.INITIAL, steps),
                       ServiceRequest(lanIp, svc), i, id)
    ensures
      var req := ServiceRequest(lanIp, svc);
      Forwarded(ReconcileService(w, lanIp, svc, o).0, Lease.Run(Lease.INITIAL, steps), req, req.desired[i])
      <==> Prevails(req, i)
  {
    TimelyRequestStaysReachable(w, lanIp, ServiceOwner(svc), svc.annotation.value, svc.ports, ServiceBackend(svc).ip,
                                o, i, steps, id, b);
  }

  /** And a Pod's entry to its Pod address. */
  lemma PodReachesRouter(w: Reconciler.World, lanIp: string, pod: Pod, o: Outcomes, i: nat,
                         steps: seq<Lease.Step>, id: nat)
    requires pod.annotation.Some? && PodBackend(pod).Reachable?
    requires FailureFree(o) && IsListing(o.items, w.store, PodOwner(pod).ns) && Tidy(w.proxies)
    requires i < |PodRequest(lanIp, pod).desired|
    requires Lease.CanRun(Lease.INITIAL, steps) && LeaseRuns.ApartSinceAdd(Lease.INITIAL, steps, id)
    requires
      var l := Lease.Run(Lease.INITIAL, steps);
      && Submitted(ReconcilePod(w, lanIp, pod, o).0, l, PodRequest(lanIp, pod), i, id)
      && l.now < l.pms[id].lastGrant.value.at + Lease.LEASE
    ensures
      var req := PodRequest(lanIp, pod);
      var (w', r) := ReconcilePod(w, lanIp, pod, o);
      && r == Success(Requeue(60))
      && Some(req.backend) == pod.podIp && req.lanIp == lanIp && req.owner.name == pod.name
      && (Forwarded(w', Lease.Run(Lease.INITIAL, steps), req, req.desired[i]) <==> Prevails(req, i))
  {
    RequestReachesRouter(w, lanIp, PodOwner(pod), pod.annotation.value, Flatten(pod.containers), PodBackend(pod).ip,
                         o, i, steps, id);
  }

  lemma TimelyPodStaysReachable(w: Reconciler.World, lanIp: string, pod: Pod, o: Outcomes, i: nat,
                                steps: seq<Lease.Step>, id: nat, b: LeaseRuns.Bounds)
    requires pod.annotation.Some? && PodBackend(pod).Reachable?
    requires FailureFree(o) && IsListing(o.items, w.store, PodOwner(pod).ns) && Tidy(w.proxies)
    requires i < |PodRequest(lanIp, pod).desired|
    requires LeaseRuns.Admissible(b) && Lease.CanRun(Lease.INITIAL, steps)
    requires LeaseRuns.KeptSinceAdd(Lease.INITIAL, steps, id, b, false)
    requires Submitted(ReconcilePod(w, lanIp, pod, o).0, Lease.Run(Lease.INITIAL, steps), PodRequest(lanIp, pod), i, id)
    ensures
      var req := PodRequest(lanIp, pod);
      Forwarded(ReconcilePod(w, lanIp, pod, o).0, Lease.Run(Lease.INITIAL, steps), req, req.desired[i])
      <==> Prevails(req, i)
  {
    TimelyRequestStaysReachable(w, lanIp, PodOwner(pod), pod.annotation.value, Flatten(pod.containers),
                                PodBackend(pod).ip, o, i, steps, id, b);
  }
}
