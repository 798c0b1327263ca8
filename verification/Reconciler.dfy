/**
 The Service and Pod watchers: one reconcile pass over the PortMapping store and the proxy
 table. Whatever the cluster and the operating system answer during a pass is given by
 `Outcomes`, so a pass is a function of the world and of those answers.
 */
module Reconciler {
  import opened Wrappers
  import opened Text
  import opened PortMappings
  import opened Annotations
  import opened Proxies

  datatype ObjectKey = ObjectKey(ns: string, name: string)

  /** `owner` is the owner reference the watcher applied; `otherOwners` are references set by others. */
  datatype PortMapping = PortMapping(
    managed: bool,
    owner: Option<string>,
    otherOwners: set<string>,
    spec: PortMappingSpec,
    status: Option<PortMappingStatus>,
    finalizer: bool,
    terminating: bool)

  type Store = map<ObjectKey, PortMapping>

  datatype World = World(store: Store, proxies: ProxyState)

  datatype Owner = Owner(ns: string, name: string, uid: string)

  /** What an annotated owner with a reachable backend asks for. */
  datatype Request = Request(owner: Owner, lanIp: string, backend: string, desired: seq<Desired>)

  /**
   The answers met during a pass: the listing of labelled PortMappings in the owner's namespace,
   the port bound for each desired entry, and whether each patch and each delete succeeds.
   */
  datatype Outcomes = Outcomes(
    listed: bool,
    items: seq<string>,
    binds: nat -> Option<u16>,
    patched: nat -> bool,
    deleted: string -> bool)

  datatype Action = AwaitChange | Requeue(seconds: nat)

  datatype ReconcileError = KubeError

  // ----- Names, targets and manifests -----

  function NameOf(owner: Owner, d: Desired): string {
    NameForOwner(owner.ns, owner.name, d.external, d.protocol)
  }

  function Names(req: Request): (names: seq<string>)
    ensures |names| == |req.desired|
    ensures forall i | 0 <= i < |names| :: names[i] == NameOf(req.owner, req.desired[i])
  {
    seq(|req.desired|, i requires 0 <= i < |req.desired| => NameOf(req.owner, req.desired[i]))
  }

  function KeyFor(owner: Owner, name: string): ObjectKey {
    ObjectKey(owner.ns, name)
  }

  function Target(backend: string, internal: u16): string {
    backend + ":" + Decimal(internal)
  }

  function SpecFor(req: Request, d: Desired, port: u16): PortMappingSpec {
    PortMappingSpec(d.external, req.lanIp, port, d.protocol,
      Some("auto:" + req.owner.ns + "/" + req.owner.name + " proxy->" + Target(req.backend, d.internal)))
  }

  // ----- The cluster API -----

  predicate OwnedBy(pm: PortMapping, uid: string) {
    pm.owner == Some(uid) || uid in pm.otherOwners
  }

  /** Server-side apply of a manifest: create, or overwrite label, owner reference and spec. */
  function Patch(store: Store, key: ObjectKey, uid: string, spec: PortMappingSpec): Store {
    if key in store then
      store[key := store[key].(managed := true, owner := Some(uid), spec := spec)]
    else
      store[key := PortMapping(true, Some(uid), {}, spec, None, false, false)]
  }

  /** Deletion only marks an object that still carries a finalizer. */
  function Delete(store: Store, key: ObjectKey): Store {
    if key !in store then store
    else if store[key].finalizer then store[key := store[key].(terminating := true)]
    else store - {key}
  }

  /** `list_owned_port_mappings`: the listed objects that have the owner's uid among their references. */
  function OwnedNames(store: Store, owner: Owner, items: seq<string>): seq<string> {
    if items == [] then []
    else
      var rest := OwnedNames(store, owner, items[..|items| - 1]);
      var key := KeyFor(owner, items[|items| - 1]);
      if key in store && OwnedBy(store[key], owner.uid) then rest + [items[|items| - 1]] else rest
  }

  // ----- One pass, as a function of the world and the answers -----

  /** The first `n` desired entries; the flag drops, and the pass ends, at a failed patch. */
  function UpsertTo(w: World, req: Request, o: Outcomes, n: nat): (World, bool)
    requires n <= |req.desired|
  {
    if n == 0 then (w, true)
    else
      var (before, ok) := UpsertTo(w, req, o, n - 1);
      if ok then UpsertOne(before, req, o, n - 1) else (before, false)
  }

  function UpsertOne(w: World, req: Request, o: Outcomes, i: nat): (World, bool)
    requires i < |req.desired|
  {
    var d := req.desired[i];
    var name := NameOf(req.owner, d);
    var (proxies, r) := Ensure(w.proxies, name, Target(req.backend, d.internal), d.protocol, o.binds(i));
    match r
    case Failure(_) => (w.(proxies := proxies), true)
    case Success(port) =>
      if o.patched(i)
      then (World(Patch(w.store, KeyFor(req.owner, name), req.owner.uid, SpecFor(req, d, port)), proxies), true)
      else (w.(proxies := proxies), false)
  }

  function StopTo(ps: ProxyState, owned: seq<string>, keep: seq<string>, n: nat): ProxyState
    requires n <= |owned|
  {
    if n == 0 then ps
    else
      var before := StopTo(ps, owned, keep, n - 1);
      if owned[n - 1] in keep then before else Stop(before, owned[n - 1])
  }

  function DeleteTo(store: Store, owner: Owner, owned: seq<string>, keep: seq<string>, o: Outcomes, n: nat): Store
    requires n <= |owned|
  {
    if n == 0 then store
    else
      var before := DeleteTo(store, owner, owned, keep, o, n - 1);
      if owned[n - 1] in keep || !o.deleted(owned[n - 1]) then before else Delete(before, KeyFor(owner, owned[n - 1]))
  }

  /** Drop every owned PortMapping that is not kept, together with its proxy. */
  function Prune(w: World, owner: Owner, owned: seq<string>, keep: seq<string>, o: Outcomes): World {
    World(DeleteTo(w.store, owner, owned, keep, o, |owned|), StopTo(w.proxies, owned, keep, |owned|))
  }

  function ApplyDesired(w: World, req: Request, owned: seq<string>, o: Outcomes)
    : (World, Result<Action, ReconcileError>)
  {
    var (upserted, ok) := UpsertTo(w, req, o, |req.desired|);
    if ok then (Prune(upserted, req.owner, owned, Names(req), o), Success(Requeue(60)))
    else (upserted, Failure(KubeError))
  }

  /** Where an owner's traffic goes, or how the pass ends when that is not known. */
  datatype Backend = Reachable(ip: string) | Unreachable(action: Action)

  function ReconcileOwner(w: World, lanIp: string, owner: Owner, annotation: Option<string>,
                          ports: seq<DeclaredPort>, backend: Backend, o: Outcomes)
    : (World, Result<Action, ReconcileError>)
  {
    if !o.listed then (w, Failure(KubeError))
    else
      var owned := OwnedNames(w.store, owner, o.items);
      match annotation
      case None => (Prune(w, owner, owned, [], o), Success(AwaitChange))
      case Some(value) =>
        match backend
        case Unreachable(action) => (w, Success(action))
        case Reachable(ip) =>
          var desired := ParseAnnotation(value, ports);
          if desired == [] then (w, Success(AwaitChange))
          else ApplyDesired(w, Request(owner, lanIp, ip, desired), owned, o)
  }

  // ----- Services and Pods -----

  datatype Service = Service(
    ns: Option<string>, name: string, uid: Option<string>, annotation: Option<string>,
    clusterIp: Option<string>, ports: seq<DeclaredPort>)

  datatype Pod = Pod(
    ns: Option<string>, name: string, uid: Option<string>, annotation: Option<string>,
    podIp: Option<string>, containers: seq<seq<DeclaredPort>>)

  function GetOr(value: Option<string>, default: string): string {
    if value.Some? then value.value else default
  }

  function ServiceOwner(svc: Service): Owner {
    Owner(GetOr(svc.ns, "default"), svc.name, GetOr(svc.uid, ""))
  }

  function ServiceBackend(svc: Service): Backend {
    var ip := GetOr(svc.clusterIp, "");
    if ip == "" || ip == "None" then Unreachable(AwaitChange) else Reachable(ip)
  }

  function PodOwner(pod: Pod): Owner {
    Owner(GetOr(pod.ns, "default"), pod.name, GetOr(pod.uid, ""))
  }

  function PodBackend(pod: Pod): Backend {
    match pod.podIp
    case Some(ip) => Reachable(ip)
    case None => Unreachable(Requeue(5))
  }

  function Flatten(containers: seq<seq<DeclaredPort>>): seq<DeclaredPort> {
    if containers == [] then [] else containers[0] + Flatten(containers[1..])
  }

  function ReconcileService(w: World, lanIp: string, svc: Service, o: Outcomes)
    : (World, Result<Action, ReconcileError>)
  {
    ReconcileOwner(w, lanIp, ServiceOwner(svc), svc.annotation, svc.ports, ServiceBackend(svc), o)
  }

  function ReconcilePod(w: World, lanIp: string, pod: Pod, o: Outcomes): (World, Result<Action, ReconcileError>) {
    ReconcileOwner(w, lanIp, PodOwner(pod), pod.annotation, Flatten(pod.containers), PodBackend(pod), o)
  }

  // ----- The watcher object, which updates the store and the proxy table in place -----

  class Watcher {
    var store: Store
    var shuttingDown: bool
    const proxies: ProxyManager

    function Now(): World
      reads this, proxies
    {
      World(store, proxies.State())
    }

    constructor (store: Store, proxies: ProxyManager)
      ensures this.store == store && this.proxies == proxies && !shuttingDown
    {
      this.store, this.proxies, this.shuttingDown := store, proxies, false;
    }

    method ListOwned(owner: Owner, items: seq<string>) returns (owned: seq<string>)
      ensures owned == OwnedNames(store, owner, items)
    {
      owned := [];
      for n := 0 to |items|
        invariant owned == OwnedNames(store, owner, items[..n])
      {
        assert items[..n + 1][..n] == items[..n];
        var key := KeyFor(owner, items[n]);
        if key in store && OwnedBy(store[key], owner.uid) {
          owned := owned + [items[n]];
        }
      }
      assert items[..|items|] == items;
    }

    /** The annotation is gone: stop every owned proxy, then delete every owned PortMapping. */
    method Release(owner: Owner, owned: seq<string>, o: Outcomes)
      modifies this`store, proxies
      ensures Now() == Prune(old(Now()), owner, owned, [], o)
    {
      for n := 0 to |owned|
        invariant Now() == World(old(store), StopTo(old(proxies.State()), owned, [], n))
      {
        proxies.StopProxy(owned[n]);
      }
      for n := 0 to |owned|
        invariant Now() == World(DeleteTo(old(store), owner, owned, [], o, n),
                                 StopTo(old(proxies.State()), owned, [], |owned|))
      {
        if o.deleted(owned[n]) {
          store := Delete(store, KeyFor(owner, owned[n]));
        }
      }
    }

    /** The first loop of a pass: start proxies and upsert PortMappings, up to a failed patch. */
    method UpsertAll(req: Request, o: Outcomes) returns (ok: bool)
      modifies this`store, proxies
      ensures (Now(), ok) == UpsertTo(old(Now()), req, o, |req.desired|)
    {
      for i := 0 to |req.desired|
        invariant (Now(), true) == UpsertTo(old(Now()), req, o, i)
      {
        ok := UpsertNext(req, o, i);
        if !ok {
          UpsertStopsAt(old(Now()), req, o, i + 1, |req.desired|);
          return false;
        }
      }
      return true;
    }

    method UpsertNext(req: Request, o: Outcomes, i: nat) returns (ok: bool)
      requires i < |req.desired|
      modifies this`store, proxies
      ensures (Now(), ok) == UpsertOne(old(Now()), req, o, i)
    {
      var d := req.desired[i];
      var name := NameOf(req.owner, d);
      var ensured := proxies.EnsureProxy(name, Target(req.backend, d.internal), d.protocol, o.binds(i));
      match ensured {
        case Failure(_) => return true;
        case Success(port) =>
          if !o.patched(i) {
            return false;
          }
          store := Patch(store, KeyFor(req.owner, name), req.owner.uid, SpecFor(req, d, port));
          return true;
      }
    }

    /** The second loop: stop and delete what is owned but no longer wanted. */
    method RemoveStale(owner: Owner, owned: seq<string>, keep: seq<string>, o: Outcomes)
      modifies this`store, proxies
      ensures Now() == Prune(old(Now()), owner, owned, keep, o)
    {
      for n := 0 to |owned|
        invariant Now() == World(DeleteTo(old(store), owner, owned, keep, o, n),
                                 StopTo(old(proxies.State()), owned, keep, n))
      {
        if owned[n] !in keep {
          proxies.StopProxy(owned[n]);
          if o.deleted(owned[n]) {
            store := Delete(store, KeyFor(owner, owned[n]));
          }
        }
      }
    }

    method Apply(req: Request, owned: seq<string>, o: Outcomes) returns (r: Result<Action, ReconcileError>)
      modifies this`store, proxies
      ensures (Now(), r) == ApplyDesired(old(Now()), req, owned, o)
    {
      var ok := UpsertAll(req, o);
      if !ok {
        return Failure(KubeError);
      }
      RemoveStale(req.owner, owned, Names(req), o);
      return Success(Requeue(60));
    }

    method OnService(svc: Service, o: Outcomes) returns (r: Result<Action, ReconcileError>)
      modifies this`store, proxies
      ensures (Now(), r) == if shuttingDown then (old(Now()), Success(AwaitChange))
                            else ReconcileService(old(Now()), proxies.lanIp, svc, o)
    {
      if shuttingDown {
        return Success(AwaitChange);
      }
      if !o.listed {
        return Failure(KubeError);
      }
      var owner := ServiceOwner(svc);
      var owned := ListOwned(owner, o.items);
      if svc.annotation.None? {
        Release(owner, owned, o);
        return Success(AwaitChange);
      }
      var clusterIp := GetOr(svc.clusterIp, "");
      if clusterIp == "" || clusterIp == "None" {
        return Success(AwaitChange);
      }
      var desired := ReadAnnotation(svc.annotation.value, svc.ports);
      if desired == [] {
        return Success(AwaitChange);
      }
      r := Apply(Request(owner, proxies.lanIp, clusterIp, desired), owned, o);
    }

    method OnPod(pod: Pod, o: Outcomes) returns (r: Result<Action, ReconcileError>)
      modifies this`store, proxies
      ensures (Now(), r) == if shuttingDown then (old(Now()), Success(AwaitChange))
                            else ReconcilePod(old(Now()), proxies.lanIp, pod, o)
    {
      if shuttingDown {
        return Success(AwaitChange);
      }
      if !o.listed {
        return Failure(KubeError);
      }
      var owner := PodOwner(pod);
      var owned := ListOwned(owner, o.items);
      if pod.annotation.None? {
        Release(owner, owned, o);
        return Success(AwaitChange);
      }
      if pod.podIp.None? {
        return Success(Requeue(5));
      }
      var desired := ReadAnnotation(pod.annotation.value, Flatten(pod.containers));
      if desired == [] {
        return Success(AwaitChange);
      }
      r := Apply(Request(owner, proxies.lanIp, pod.podIp.value, desired), owned, o);
    }
  }

  /** After a failed patch the rest of the desired list is not looked at. */
  lemma {:induction false} UpsertStopsAt(w: World, req: Request, o: Outcomes, i: nat, n: nat)
    requires i <= n <= |req.desired| && !UpsertTo(w, req, o, i).1
    ensures UpsertTo(w, req, o, n) == UpsertTo(w, req, o, i)
    decreases n
  {
    if i < n {
      UpsertStopsAt(w, req, o, i, n - 1);
    }
  }
}
