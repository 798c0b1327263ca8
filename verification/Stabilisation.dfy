/** What a reconcile pass achieves from any leftover store and proxy table. */
module Stabilisation {
  import opened Wrappers
  import opened Text
  import opened PortMappings
  import opened Annotations
  import opened Proxies
  import opened Reconciler

  // ----- The state a pass aims at -----

  /** Among the first `n` entries, none after `i` has the name of entry `i`. */
  ghost predicate IsLast(req: Request, n: nat, i: nat)
    requires i < n <= |req.desired|
  {
    forall j | i < j < n :: NameOf(req.owner, req.desired[j]) != NameOf(req.owner, req.desired[i])
  }

  lemma {:induction false} LastOf(req: Request, n: nat, i: nat) returns (k: nat)
    requires i < n <= |req.desired|
    ensures i <= k < n && IsLast(req, n, k) && NameOf(req.owner, req.desired[k]) == NameOf(req.owner, req.desired[i])
    decreases n - i
  {
    if IsLast(req, n, i) {
      k := i;
    } else {
      var j :| i < j < n && NameOf(req.owner, req.desired[j]) == NameOf(req.owner, req.desired[i]);
      k := LastOf(req, n, j);
    }
  }

  /** The PortMapping of one entry is labelled, owned, and points at the proxy of that name. */
  ghost predicate Published(w: World, req: Request, d: Desired) {
    var name := NameOf(req.owner, d);
    var key := KeyFor(req.owner, name);
    && key in w.store && name in w.proxies.table
    && var pm := w.store[key];
    && pm.managed && pm.owner == Some(req.owner.uid)
    && pm.spec.externalPort == d.external && pm.spec.protocol == d.protocol
    && pm.spec.internalHost == req.lanIp
    && pm.spec.internalPort == w.proxies.table[name].port
  }

  /** Connecting to `target` reaches the address and the port: they are what stands before and after a colon. */
  predicate Dials(target: string, ip: string, port: u16) {
    && |ip| < |target| && target[..|ip|] == ip && target[|ip|] == ':'
    && ParseUnsigned(target[|ip| + 1..], U16_MAX) == Some(port)
  }

  lemma TargetDials(backend: string, internal: u16, port: u16)
    ensures Dials(Target(backend, internal), backend, port) <==> internal == port
  {
    var target := Target(backend, internal);
    assert target[|backend| + 1..] == Decimal(internal) && target[..|backend|] == backend && target[|backend|] == ':';
    ParseDecimal(internal, U16_MAX);
  }

  /** The proxy of one entry forwards to the port of that entry, and the manifest says so. */
  ghost predicate Aimed(w: World, req: Request, d: Desired) {
    var name := NameOf(req.owner, d);
    && Published(w, req, d)
    && Dials(w.proxies.table[name].target, req.backend, d.internal)
    && w.proxies.table[name].protocol == d.protocol
    && w.store[KeyFor(req.owner, name)].spec.description
       == Some("auto:" + req.owner.ns + "/" + req.owner.name + " proxy->" + w.proxies.table[name].target)
    && Serves(w.proxies.table[name], Target(req.backend, d.internal), d.protocol)
    && w.store[KeyFor(req.owner, name)].spec == SpecFor(req, d, w.proxies.table[name].port)
  }

  /** Of the first `n` entries the `i`-th is published, and aimed at unless a later one takes its name. */
  ghost predicate Placed(w: World, req: Request, n: nat, i: nat)
    requires i < n <= |req.desired|
  {
    Published(w, req, req.desired[i]) && (IsLast(req, n, i) ==> Aimed(w, req, req.desired[i]))
  }

  ghost predicate Programmed(w: World, req: Request, n: nat)
    requires n <= |req.desired|
  {
    forall i: nat | i < n :: Placed(w, req, n, i)
  }

  predicate Terminating(store: Store, key: ObjectKey) {
    key in store && store[key].terminating
  }

  predicate Undeleted(store: Store, key: ObjectKey) {
    key in store && !store[key].terminating
  }

  function Lookup(store: Store, key: ObjectKey): Option<PortMapping> {
    if key in store then Some(store[key]) else None
  }

  function HandleAt(ps: ProxyState, name: string): Option<Handle> {
    if name in ps.table then Some(ps.table[name]) else None
  }

  /** Outside the given names of one namespace, store and proxy table are as before. */
  ghost predicate UntouchedBut(w: World, w': World, ns: string, names: set<string>) {
    && (forall key: ObjectKey :: !(key.ns == ns && key.name in names) ==> Lookup(w'.store, key) == Lookup(w.store, key))
    && (forall name :: name !in names ==> HandleAt(w'.proxies, name) == HandleAt(w.proxies, name))
  }

  ghost predicate FailureFree(o: Outcomes) {
    && o.listed
    && (forall i :: o.binds(i).Some? && o.patched(i))
    && (forall name :: o.deleted(name))
  }

  /** The API's promise about a labelled listing of one namespace. */
  ghost predicate IsListing(items: seq<string>, store: Store, ns: string) {
    forall name :: name in items <==> ObjectKey(ns, name) in store && store[ObjectKey(ns, name)].managed
  }

  ghost predicate Owned(store: Store, owner: Owner, name: string) {
    var key := KeyFor(owner, name);
    key in store && store[key].managed && OwnedBy(store[key], owner.uid)
  }

  lemma {:induction false} OwnedNamesAre(store: Store, owner: Owner, items: seq<string>)
    ensures
      forall name ::
        name in OwnedNames(store, owner, items)
        <==> name in items && KeyFor(owner, name) in store && OwnedBy(store[KeyFor(owner, name)], owner.uid)
  {
    if items != [] {
      OwnedNamesAre(store, owner, items[..|items| - 1]);
    }
  }

  // ----- The upserting loop -----

  ghost function NameSet(names: seq<string>, n: nat): set<string>
    requires n <= |names|
  {
    set i | 0 <= i < n :: names[i]
  }

  lemma UntouchedTransitive(w: World, mid: World, w': World, ns: string, names: set<string>, more: set<string>)
    requires UntouchedBut(w, mid, ns, names) && UntouchedBut(mid, w', ns, more)
    ensures UntouchedBut(w, w', ns, names + more)
  {
    forall key: ObjectKey | !(key.ns == ns && key.name in names + more)
      ensures Lookup(w'.store, key) == Lookup(w.store, key)
    {
      assert Lookup(mid.store, key) == Lookup(w.store, key);
    }
    forall name | name !in names + more
      ensures HandleAt(w'.proxies, name) == HandleAt(w.proxies, name)
    {
      assert HandleAt(mid.proxies, name) == HandleAt(w.proxies, name);
    }
  }

  lemma UpsertOneTouchesItsName(w: World, req: Request, o: Outcomes, i: nat)
    requires i < |req.desired|
    ensures UntouchedBut(w, UpsertOne(w, req, o, i).0, req.owner.ns, {NameOf(req.owner, req.desired[i])})
  {
  }

  /** Whatever fails, the upserting loop touches only the desired names. */
  lemma {:induction false} UpsertTouchesDesired(w: World, req: Request, o: Outcomes, n: nat)
    requires n <= |req.desired|
    ensures UntouchedBut(w, UpsertTo(w, req, o, n).0, req.owner.ns, NameSet(Names(req), n))
  {
    if n > 0 {
      var names := Names(req);
      UpsertTouchesDesired(w, req, o, n - 1);
      var (before, ok) := UpsertTo(w, req, o, n - 1);
      UpsertOneTouchesItsName(before, req, o, n - 1);
      assert NameSet(names, n) == NameSet(names, n - 1) + {names[n - 1]};
      if ok {
        UntouchedTransitive(w, before, UpsertOne(before, req, o, n - 1).0, req.owner.ns,
                            NameSet(names, n - 1), {names[n - 1]});
      }
    }
  }

  lemma {:induction false} UpsertKeepsTidy(w: World, req: Request, o: Outcomes, n: nat)
    requires n <= |req.desired| && Tidy(w.proxies)
    ensures Tidy(UpsertTo(w, req, o, n).0.proxies)
  {
    if n > 0 {
      UpsertKeepsTidy(w, req, o, n - 1);
      var (before, ok) := UpsertTo(w, req, o, n - 1);
      var d := req.desired[n - 1];
      EnsureKeepsTidy(before.proxies, NameOf(req.owner, d), Target(req.backend, d.internal), d.protocol,
                      o.binds(n - 1));
    }
  }

  /** One desired entry whose bind and patch succeed. */
  lemma UpsertOneAims(w: World, req: Request, o: Outcomes, i: nat)
    requires i < |req.desired| && o.binds(i).Some? && o.patched(i)
    ensures
      var (w', ok) := UpsertOne(w, req, o, i);
      var key := KeyFor(req.owner, NameOf(req.owner, req.desired[i]));
      && ok && Aimed(w', req, req.desired[i])
      && (Terminating(w'.store, key) <==> Terminating(w.store, key))
  {
    TargetDials(req.backend, req.desired[i].internal, req.desired[i].internal);
  }

  /** Entries that share a name share external port and protocol, so the store entry suits them all. */
  lemma SameNameSamePort(owner: Owner, d: Desired, d': Desired)
    requires NameOf(owner, d) == NameOf(owner, d')
    ensures d.external == d'.external && d.protocol == d'.protocol
  {
    NameInjectiveInNamespace(owner.ns, owner.name, d.external, d.protocol, owner.name, d'.external, d'.protocol);
  }

  lemma AimedDependsOnName(w: World, w': World, req: Request, d: Desired)
    requires
      var name := NameOf(req.owner, d);
      && Lookup(w'.store, KeyFor(req.owner, name)) == Lookup(w.store, KeyFor(req.owner, name))
      && HandleAt(w'.proxies, name) == HandleAt(w.proxies, name)
    ensures Published(w, req, d) ==> Published(w', req, d)
    ensures Aimed(w, req, d) ==> Aimed(w', req, d)
  {
  }

  lemma TargetsAgree(backend: string, p: u16, p': u16)
    ensures Target(backend, p) == Target(backend, p') <==> p == p'
  {
    if Target(backend, p) == Target(backend, p') {
      assert Decimal(p) == Target(backend, p)[|backend| + 1..];
      assert Decimal(p') == Target(backend, p')[|backend| + 1..];
      DecimalInjective(p, p');
    }
  }

  /** One more entry whose bind and patch succeed. */
  lemma UpsertOnePlaces(before: World, req: Request, o: Outcomes, n: nat, i: nat, after: World)
    requires i <= n < |req.desired| && o.binds(n).Some? && o.patched(n) && (i < n ==> Placed(before, req, n, i))
    requires after == UpsertOne(before, req, o, n).0
    ensures Placed(after, req, n + 1, i)
  {
    UpsertOneAims(before, req, o, n);
    if NameOf(req.owner, req.desired[i]) == NameOf(req.owner, req.desired[n]) {
      SameNameSamePort(req.owner, req.desired[n], req.desired[i]);
      assert IsLast(req, n + 1, i) ==> i == n;
    } else {
      UpsertOneTouchesItsName(before, req, o, n);
      assert IsLast(req, n + 1, i) ==> IsLast(req, n, i);
      AimedDependsOnName(before, after, req, req.desired[i]);
    }
  }

  lemma {:induction false} UpsertSucceeds(w: World, req: Request, o: Outcomes, n: nat)
    requires n <= |req.desired| && FailureFree(o)
    ensures UpsertTo(w, req, o, n).1
  {
    if n > 0 {
      UpsertSucceeds(w, req, o, n - 1);
      assert o.patched(n - 1);
    }
  }

  lemma UpsertUnfolds(w: World, req: Request, o: Outcomes, n: nat)
    requires 0 < n <= |req.desired| && FailureFree(o)
    ensures UpsertTo(w, req, o, n) == UpsertOne(UpsertTo(w, req, o, n - 1).0, req, o, n - 1)
    ensures o.binds(n - 1).Some? && o.patched(n - 1)
  {
    UpsertSucceeds(w, req, o, n - 1);
  }

  lemma {:induction false} UpsertPlaces(w: World, req: Request, o: Outcomes, n: nat, i: nat, after: World)
    requires i < n <= |req.desired| && FailureFree(o) && after == UpsertTo(w, req, o, n).0
    ensures Placed(after, req, n, i)
    decreases n
  {
    var before := UpsertTo(w, req, o, n - 1).0;
    if i < n - 1 {
      UpsertPlaces(w, req, o, n - 1, i, before);
    }
    UpsertUnfolds(w, req, o, n);
    UpsertOnePlaces(before, req, o, n - 1, i, after);
  }

  /** After each prefix of the desired list its entries are in place. */
  lemma UpsertPrograms(w: World, req: Request, o: Outcomes, n: nat)
    requires n <= |req.desired| && FailureFree(o)
    ensures UpsertTo(w, req, o, n).1 && Programmed(UpsertTo(w, req, o, n).0, req, n)
  {
    var after := UpsertTo(w, req, o, n).0;
    UpsertSucceeds(w, req, o, n);
    forall i: nat | i < n
      ensures Placed(after, req, n, i)
    {
      UpsertPlaces(w, req, o, n, i, after);
    }
  }

  lemma UpsertOneKeepsTermination(w: World, req: Request, o: Outcomes, i: nat, key: ObjectKey)
    requires i < |req.desired|
    ensures Terminating(UpsertOne(w, req, o, i).0.store, key) <==> Terminating(w.store, key)
  {
  }

  /** Patching neither finishes nor revokes a deletion. */
  lemma {:induction false} UpsertKeepsTermination(w: World, req: Request, o: Outcomes, n: nat, key: ObjectKey)
    requires n <= |req.desired|
    ensures Terminating(UpsertTo(w, req, o, n).0.store, key) <==> Terminating(w.store, key)
  {
    if n > 0 {
      UpsertKeepsTermination(w, req, o, n - 1, key);
      UpsertOneKeepsTermination(UpsertTo(w, req, o, n - 1).0, req, o, n - 1, key);
    }
  }

  // ----- The pruning loop -----

  lemma {:induction false} StopToIs(ps: ProxyState, owned: seq<string>, keep: seq<string>, n: nat)
    requires n <= |owned|
    ensures StopTo(ps, owned, keep, n).table == ps.table - (NameSet(owned, n) - (set k | k in keep))
    ensures StopTo(ps, owned, keep, n).loops == ps.loops
    ensures Tidy(ps) ==> Tidy(StopTo(ps, owned, keep, n))
  {
    if n > 0 {
      StopToIs(ps, owned, keep, n - 1);
      var before := StopTo(ps, owned, keep, n - 1);
      assert NameSet(owned, n) == NameSet(owned, n - 1) + {owned[n - 1]};
      if Tidy(ps) {
        StopKeepsTidy(before, owned[n - 1]);
      }
    } else {
      assert NameSet(owned, 0) == {};
    }
  }

  /** What deleting does to one object. */
  function Deleted(store: Store, key: ObjectKey): Option<PortMapping> {
    var store' := Delete(store, key);
    if key in store' then Some(store'[key]) else None
  }

  lemma {:induction false} DeleteToIs(store: Store, owner: Owner, owned: seq<string>, keep: seq<string>,
                                     o: Outcomes, n: nat, key: ObjectKey)
    requires n <= |owned|
    ensures
      var gone := key.ns == owner.ns && key.name in NameSet(owned, n) && key.name !in keep && o.deleted(key.name);
      Lookup(DeleteTo(store, owner, owned, keep, o, n), key) == if gone then Deleted(store, key) else Lookup(store, key)
  {
    if n > 0 {
      DeleteToIs(store, owner, owned, keep, o, n - 1, key);
      assert NameSet(owned, n) == NameSet(owned, n - 1) + {owned[n - 1]};
    }
  }

  /** Stale names: owned and listed, but no longer desired. */
  ghost predicate Stale(w: World, owner: Owner, keep: seq<string>, name: string) {
    Owned(w.store, owner, name) && name !in keep
  }

  lemma ListedOwned(w: World, owner: Owner, items: seq<string>)
    requires IsListing(items, w.store, owner.ns)
    ensures
      var owned := OwnedNames(w.store, owner, items);
      forall name :: name in NameSet(owned, |owned|) <==> Owned(w.store, owner, name)
  {
    OwnedNamesAre(w.store, owner, items);
    var owned := OwnedNames(w.store, owner, items);
    assert forall name :: name in NameSet(owned, |owned|) <==> name in owned;
  }

  // ----- The theorems -----

  /** The names a pass may touch: the desired ones, and the owned ones it removes. */
  ghost function Concerned(w: World, owner: Owner, keep: seq<string>): set<string> {
    (set name | name in keep) + (set key | key in w.store && Stale(w, owner, keep, key.name) :: key.name)
  }

  /** What pruning after a successful listing does to the world the upserting loop left. */
  ghost predicate Pruned(w: World, mid: World, w': World, owner: Owner, keep: seq<string>, o: Outcomes) {
    && (forall key: ObjectKey ::
          Lookup(w'.store, key)
          == if key.ns == owner.ns && Stale(w, owner, keep, key.name) && o.deleted(key.name)
             then Deleted(mid.store, key) else Lookup(mid.store, key))
    && (forall name ::
          HandleAt(w'.proxies, name) == if Stale(w, owner, keep, name) then None else HandleAt(mid.proxies, name))
  }

  lemma PruneIs(w: World, mid: World, owner: Owner, keep: seq<string>, o: Outcomes)
    requires IsListing(o.items, w.store, owner.ns)
    ensures
      var w' := Prune(mid, owner, OwnedNames(w.store, owner, o.items), keep, o);
      Pruned(w, mid, w', owner, keep, o) && (Tidy(mid.proxies) ==> Tidy(w'.proxies))
  {
    var owned := OwnedNames(w.store, owner, o.items);
    ListedOwned(w, owner, o.items);
    StopToIs(mid.proxies, owned, keep, |owned|);
    forall key: ObjectKey
      ensures
        Lookup(Prune(mid, owner, owned, keep, o).store, key)
        == if key.ns == owner.ns && Stale(w, owner, keep, key.name) && o.deleted(key.name)
           then Deleted(mid.store, key) else Lookup(mid.store, key)
    {
      DeleteToIs(mid.store, owner, owned, keep, o, |owned|, key);
    }
  }

  lemma StaleIsConcerned(w: World, owner: Owner, keep: seq<string>, name: string)
    requires Stale(w, owner, keep, name)
    ensures name in Concerned(w, owner, keep)
  {
    assert KeyFor(owner, name) in w.store;
  }

  lemma PruneTouchesConcerned(w: World, mid: World, w': World, owner: Owner, keep: seq<string>, o: Outcomes)
    requires Pruned(w, mid, w', owner, keep, o)
    ensures UntouchedBut(mid, w', owner.ns, Concerned(w, owner, keep))
  {
    forall name | Stale(w, owner, keep, name)
      ensures name in Concerned(w, owner, keep)
    {
      StaleIsConcerned(w, owner, keep, name);
    }
  }

  /**
   The frame of every pass, failed or not: outside the owner's namespace, its desired names
   and the owned names it removes, no PortMapping and no proxy changes.
   */
  lemma PassTouchesConcerned(w: World, req: Request, o: Outcomes)
    requires IsListing(o.items, w.store, req.owner.ns)
    ensures
      var (w', r) := ApplyDesired(w, req, OwnedNames(w.store, req.owner, o.items), o);
      && UntouchedBut(w, w', req.owner.ns, Concerned(w, req.owner, Names(req)))
      && (Tidy(w.proxies) ==> Tidy(w'.proxies))
  {
    var n := |req.desired|;
    var names := Names(req);
    var (mid, ok) := UpsertTo(w, req, o, n);
    UpsertTouchesDesired(w, req, o, n);
    assert NameSet(names, n) == set name | name in names;
    if Tidy(w.proxies) {
      UpsertKeepsTidy(w, req, o, n);
    }
    var w' := Prune(mid, req.owner, OwnedNames(w.store, req.owner, o.items), names, o);
    PruneIs(w, mid, req.owner, names, o);
    PruneTouchesConcerned(w, mid, w', req.owner, names, o);
    UntouchedTransitive(w, mid, w', req.owner.ns, NameSet(names, n), Concerned(w, req.owner, names));
    assert NameSet(names, n) + Concerned(w, req.owner, names) == Concerned(w, req.owner, names);
  }

  /** A failure-free pass ends with every entry published, and the last of each name aimed at. */
  lemma PassPrograms(w: World, req: Request, o: Outcomes)
    requires FailureFree(o) && IsListing(o.items, w.store, req.owner.ns)
    ensures Programmed(ApplyDesired(w, req, OwnedNames(w.store, req.owner, o.items), o).0, req, |req.desired|)
  {
    var n, names := |req.desired|, Names(req);
    var mid := UpsertTo(w, req, o, n).0;
    UpsertPrograms(w, req, o, n);
    PruneIs(w, mid, req.owner, names, o);
    var w' := Prune(mid, req.owner, OwnedNames(w.store, req.owner, o.items), names, o);
    forall i: nat | i < n
      ensures Placed(w', req, n, i)
    {
      assert names[i] in names && Placed(mid, req, n, i);
      AimedDependsOnName(mid, w', req, req.desired[i]);
    }
  }

  /**
   Self-stabilisation. From any world, one failure-free pass with a reachable backend and
   a non-empty desired list succeeds; every entry is published, the last entry of each name
   has the proxy aimed at it, what was owned but is not desired is deleted and its proxy is
   stopped, and nothing else in the store or the proxy table changes.
   */
  lemma SelfStabilises(w: World, lanIp: string, owner: Owner, value: string,
                       ports: seq<DeclaredPort>, ip: string, o: Outcomes)
    requires FailureFree(o) && IsListing(o.items, w.store, owner.ns)
    requires ParseAnnotation(value, ports) != []
    ensures
      var req := Request(owner, lanIp, ip, ParseAnnotation(value, ports));
      var (w', r) := ReconcileOwner(w, lanIp, owner, Some(value), ports, Reachable(ip), o);
      && r == Success(Requeue(60))
      && Programmed(w', req, |req.desired|)
      && (forall name | Stale(w, owner, Names(req), name) ::
            PortOf(w'.proxies, name) == None && !Undeleted(w'.store, KeyFor(owner, name)))
      && UntouchedBut(w, w', owner.ns, Concerned(w, owner, Names(req)))
      && (Tidy(w.proxies) ==> Tidy(w'.proxies))
  {
    var req := Request(owner, lanIp, ip, ParseAnnotation(value, ports));
    var n := |req.desired|;
    var names := Names(req);
    var mid := UpsertTo(w, req, o, n).0;
    var w' := Prune(mid, owner, OwnedNames(w.store, owner, o.items), names, o);
    UpsertPrograms(w, req, o, n);
    PassPrograms(w, req, o);
    PassTouchesConcerned(w, req, o);
    PruneIs(w, mid, owner, names, o);
    forall name | Stale(w, owner, names, name)
      ensures PortOf(w'.proxies, name) == None && !Undeleted(w'.store, KeyFor(owner, name))
    {
      assert HandleAt(w'.proxies, name) == None;
      assert Lookup(w'.store, KeyFor(owner, name)) == Deleted(mid.store, KeyFor(owner, name));
    }
  }

  /** The owner's PortMappings that are not on their way out. */
  ghost predicate Live(w: World, owner: Owner, name: string) {
    Owned(w.store, owner, name) && Undeleted(w.store, KeyFor(owner, name))
  }

  lemma DesiredLiveIff(w: World, w': World, req: Request, o: Outcomes, i: nat)
    requires i < |req.desired| && Published(w', req, req.desired[i])
    requires Pruned(w, UpsertTo(w, req, o, |req.desired|).0, w', req.owner, Names(req), o)
    ensures
      var name := NameOf(req.owner, req.desired[i]);
      Live(w', req.owner, name) <==> !Terminating(w.store, KeyFor(req.owner, name))
  {
    var mid := UpsertTo(w, req, o, |req.desired|).0;
    var name := NameOf(req.owner, req.desired[i]);
    assert Names(req)[i] == name;
    assert Lookup(w'.store, KeyFor(req.owner, name)) == Lookup(mid.store, KeyFor(req.owner, name));
    UpsertKeepsTermination(w, req, o, |req.desired|, KeyFor(req.owner, name));
  }

  lemma UndesiredNotLive(w: World, mid: World, w': World, owner: Owner, keep: seq<string>, o: Outcomes, name: string)
    requires FailureFree(o) && Pruned(w, mid, w', owner, keep, o)
    requires UntouchedBut(w, w', owner.ns, Concerned(w, owner, keep))
    requires name !in keep
    ensures !Live(w', owner, name)
  {
    var key := KeyFor(owner, name);
    if Stale(w, owner, keep, name) {
      assert Lookup(w'.store, key) == Deleted(mid.store, key);
    } else {
      assert key.name !in Concerned(w, owner, keep);
      assert Lookup(w'.store, key) == Lookup(w.store, key);
    }
  }

  /**
   After such a pass the owner's undeleted PortMappings are named exactly by the desired
   list if and only if no desired name was already being deleted when the pass began:
   a patch does not bring a terminating object back.
   */
  lemma LiveNamesAreDesired(w: World, lanIp: string, owner: Owner, value: string,
                            ports: seq<DeclaredPort>, ip: string, o: Outcomes)
    requires FailureFree(o) && IsListing(o.items, w.store, owner.ns)
    requires ParseAnnotation(value, ports) != []
    ensures
      var req := Request(owner, lanIp, ip, ParseAnnotation(value, ports));
      var w' := ReconcileOwner(w, lanIp, owner, Some(value), ports, Reachable(ip), o).0;
      (forall name :: Live(w', owner, name) <==> name in Names(req))
      <==> (forall name | name in Names(req) :: !Terminating(w.store, KeyFor(owner, name)))
  {
    var req := Request(owner, lanIp, ip, ParseAnnotation(value, ports));
    var n := |req.desired|;
    var names := Names(req);
    var mid := UpsertTo(w, req, o, n).0;
    var w' := Prune(mid, owner, OwnedNames(w.store, owner, o.items), names, o);
    UpsertPrograms(w, req, o, n);
    PassPrograms(w, req, o);
    PassTouchesConcerned(w, req, o);
    PruneIs(w, mid, owner, names, o);
    forall name
      ensures Live(w', owner, name) <==> name in names && !Terminating(w.store, KeyFor(owner, name))
    {
      if i :| 0 <= i < n && names[i] == name {
        assert Placed(w', req, n, i);
        DesiredLiveIff(w, w', req, o, i);
      } else {
        UndesiredNotLive(w, mid, w', owner, names, o, name);
      }
    }
  }

  /** When the annotation is gone, the owner keeps no live PortMapping and no proxy. */
  lemma RemovedAnnotationReleases(w: World, lanIp: string, owner: Owner, ports: seq<DeclaredPort>,
                                  backend: Backend, o: Outcomes)
    requires FailureFree(o) && IsListing(o.items, w.store, owner.ns)
    ensures
      var (w', r) := ReconcileOwner(w, lanIp, owner, None, ports, backend, o);
      && r == Success(AwaitChange)
      && (forall name :: !Live(w', owner, name))
      && (forall name | Owned(w.store, owner, name) :: PortOf(w'.proxies, name) == None)
      && UntouchedBut(w, w', owner.ns, Concerned(w, owner, []))
      && (Tidy(w.proxies) ==> Tidy(w'.proxies))
  {
    var w' := ReconcileOwner(w, lanIp, owner, None, ports, backend, o).0;
    PruneIs(w, w, owner, [], o);
    PruneTouchesConcerned(w, w, w', owner, [], o);
    forall name
      ensures !Live(w', owner, name)
      ensures Owned(w.store, owner, name) ==> PortOf(w'.proxies, name) == None
    {
      assert Stale(w, owner, [], name) <==> Owned(w.store, owner, name);
      assert Stale(w, owner, [], name) ==> HandleAt(w'.proxies, name) == None;
      assert Lookup(w'.store, KeyFor(owner, name))
          == if Stale(w, owner, [], name) then Deleted(w.store, KeyFor(owner, name))
             else Lookup(w.store, KeyFor(owner, name));
    }
  }

  /** The two early returns keep stale PortMappings: nothing at all changes. */
  lemma EarlyReturnsKeepEverything(w: World, lanIp: string, owner: Owner, value: string,
                                   ports: seq<DeclaredPort>, backend: Backend, o: Outcomes)
    requires backend.Unreachable? || ParseAnnotation(value, ports) == []
    ensures ReconcileOwner(w, lanIp, owner, Some(value), ports, backend, o).0 == w
  {
  }

  /** The names the annotation asks for. */
  function AskedNames(owner: Owner, value: string, ports: seq<DeclaredPort>): seq<string> {
    Names(Request(owner, "", "", ParseAnnotation(value, ports)))
  }

  /**
   A live PortMapping that the annotation no longer asks for outlives a failure-free pass if and
   only if the pass returns early: the backend is not reachable, or the annotation matches no port.
   */
  lemma StaleSurvivesIff(w: World, lanIp: string, owner: Owner, value: string, ports: seq<DeclaredPort>,
                         backend: Backend, o: Outcomes, name: string)
    requires FailureFree(o) && IsListing(o.items, w.store, owner.ns)
    requires Live(w, owner, name) && name !in AskedNames(owner, value, ports)
    ensures
      Live(ReconcileOwner(w, lanIp, owner, Some(value), ports, backend, o).0, owner, name)
      <==> backend.Unreachable? || ParseAnnotation(value, ports) == []
  {
    if backend.Reachable? && ParseAnnotation(value, ports) != [] {
      var req := Request(owner, lanIp, backend.ip, ParseAnnotation(value, ports));
      assert Names(req) == AskedNames(owner, value, ports);
      SelfStabilises(w, lanIp, owner, value, ports, backend.ip, o);
      assert Stale(w, owner, Names(req), name);
    } else {
      EarlyReturnsKeepEverything(w, lanIp, owner, value, ports, backend, o);
    }
  }

  // ----- Whose objects a pass may touch -----

  /** The object names the uid as that of its owner, or of one of its owners. */
  ghost predicate CarriesUid(store: Store, key: ObjectKey, uid: string) {
    key in store && (store[key].owner == Some(uid) || uid in store[key].otherOwners)
  }

  ghost predicate Asks(owner: Owner, annotation: Option<string>, ports: seq<DeclaredPort>, name: string) {
    annotation.Some? && name in AskedNames(owner, annotation.value, ports)
  }

  lemma {:induction false} OwnedCarryUid(store: Store, owner: Owner, items: seq<string>, name: string)
    requires name in OwnedNames(store, owner, items)
    ensures CarriesUid(store, KeyFor(owner, name), owner.uid)
  {
    var n := |items| - 1;
    if name in OwnedNames(store, owner, items[..n]) {
      OwnedCarryUid(store, owner, items[..n], name);
    }
  }

  lemma PruneTouchesCarriers(w: World, mid: World, owner: Owner, items: seq<string>, keep: seq<string>, o: Outcomes,
                             key: ObjectKey)
    requires !(key.ns == owner.ns && CarriesUid(w.store, key, owner.uid))
    ensures Lookup(Prune(mid, owner, OwnedNames(w.store, owner, items), keep, o).store, key) == Lookup(mid.store, key)
  {
    var owned := OwnedNames(w.store, owner, items);
    DeleteToIs(mid.store, owner, owned, keep, o, |owned|, key);
    if key.ns == owner.ns && key.name in NameSet(owned, |owned|) {
      OwnedCarryUid(w.store, owner, items, key.name);
    }
  }

  lemma PruneStopsCarriers(w: World, mid: World, owner: Owner, items: seq<string>, keep: seq<string>, o: Outcomes,
                           name: string)
    requires !CarriesUid(w.store, KeyFor(owner, name), owner.uid)
    ensures
      HandleAt(Prune(mid, owner, OwnedNames(w.store, owner, items), keep, o).proxies, name)
      == HandleAt(mid.proxies, name)
  {
    var owned := OwnedNames(w.store, owner, items);
    StopToIs(mid.proxies, owned, keep, |owned|);
    if name in NameSet(owned, |owned|) {
      OwnedCarryUid(w.store, owner, items, name);
    }
  }

  /**
   In every pass, whatever is listed and whatever fails, an object that the annotation does not ask
   for and that does not carry the owner's uid stays as it is, and so does the proxy of its name.
   */
  lemma OthersAreLeftAlone(w: World, lanIp: string, owner: Owner, annotation: Option<string>, ports: seq<DeclaredPort>,
                           backend: Backend, o: Outcomes, key: ObjectKey)
    requires !(key.ns == owner.ns && (Asks(owner, annotation, ports, key.name) || CarriesUid(w.store, key, owner.uid)))
    ensures
      var w' := ReconcileOwner(w, lanIp, owner, annotation, ports, backend, o).0;
      && Lookup(w'.store, key) == Lookup(w.store, key)
      && (key.ns == owner.ns ==> HandleAt(w'.proxies, key.name) == HandleAt(w.proxies, key.name))
  {
    if annotation.None? {
      PruneTouchesCarriers(w, w, owner, o.items, [], o, key);
      if key.ns == owner.ns {
        PruneStopsCarriers(w, w, owner, o.items, [], o, key.name);
      }
    } else if backend.Reachable? {
      var req := Request(owner, lanIp, backend.ip, ParseAnnotation(annotation.value, ports));
      var n := |req.desired|;
      var mid := UpsertTo(w, req, o, n).0;
      assert Names(req) == AskedNames(owner, annotation.value, ports);
      UpsertTouchesDesired(w, req, o, n);
      assert NameSet(Names(req), n) == set name | name in Names(req);
      PruneTouchesCarriers(w, mid, owner, o.items, Names(req), o, key);
      if key.ns == owner.ns {
        PruneStopsCarriers(w, mid, owner, o.items, Names(req), o, key.name);
      }
    }
  }

  /**
   Conversely, in a failure-free pass that does not return early, a labelled object that carries the
   uid and is not asked for goes, at once or when its finalizer is done, and its proxy is stopped.
   */
  lemma CarriersUnaskedGo(w: World, lanIp: string, owner: Owner, annotation: Option<string>, ports: seq<DeclaredPort>,
                          backend: Backend, o: Outcomes, name: string)
    requires FailureFree(o) && IsListing(o.items, w.store, owner.ns)
    requires annotation.Some? ==> backend.Reachable? && ParseAnnotation(annotation.value, ports) != []
    requires !Asks(owner, annotation, ports, name)
    requires CarriesUid(w.store, KeyFor(owner, name), owner.uid) && w.store[KeyFor(owner, name)].managed
    ensures
      var w' := ReconcileOwner(w, lanIp, owner, annotation, ports, backend, o).0;
      var pm := w.store[KeyFor(owner, name)];
      && name !in w'.proxies.table
      && Lookup(w'.store, KeyFor(owner, name)) == if pm.finalizer then Some(pm.(terminating := true)) else None
  {
    var key := KeyFor(owner, name);
    var w' := ReconcileOwner(w, lanIp, owner, annotation, ports, backend, o).0;
    if annotation.None? {
      PruneIs(w, w, owner, [], o);
      assert Stale(w, owner, [], name);
      assert Lookup(w'.store, key) == Deleted(w.store, key) && HandleAt(w'.proxies, name) == None;
    } else {
      var req := Request(owner, lanIp, backend.ip, ParseAnnotation(annotation.value, ports));
      var n := |req.desired|;
      var mid := UpsertTo(w, req, o, n).0;
      assert Names(req) == AskedNames(owner, annotation.value, ports);
      UpsertSucceeds(w, req, o, n);
      UpsertTouchesDesired(w, req, o, n);
      PruneIs(w, mid, owner, Names(req), o);
      assert Stale(w, owner, Names(req), name);
      assert Lookup(mid.store, key) == Lookup(w.store, key);
      assert Lookup(w'.store, key) == Deleted(mid.store, key) && HandleAt(w'.proxies, name) == None;
    }
  }

  // ----- What a pass leaves to others in the objects it applies -----

  /** Status, finalizer, deletion and foreign owners stay; a new object has none. */
  ghost predicate SameRest(before: Option<PortMapping>, after: Option<PortMapping>) {
    match (before, after)
    case (Some(was), Some(now)) =>
      && now.status == was.status && now.finalizer == was.finalizer && now.terminating == was.terminating
      && now.otherOwners == was.otherOwners
    case (None, Some(now)) => now.status == None && !now.finalizer && !now.terminating && now.otherOwners == {}
    case (Some(_), None) => false
    case (None, None) => true
  }

  lemma UpsertOneKeepsRest(w: World, req: Request, o: Outcomes, i: nat, key: ObjectKey)
    requires i < |req.desired|
    ensures SameRest(Lookup(w.store, key), Lookup(UpsertOne(w, req, o, i).0.store, key))
  {
  }

  lemma {:induction false} UpsertKeepsRest(w: World, req: Request, o: Outcomes, n: nat, key: ObjectKey)
    requires n <= |req.desired|
    ensures SameRest(Lookup(w.store, key), Lookup(UpsertTo(w, req, o, n).0.store, key))
  {
    if n > 0 {
      UpsertKeepsRest(w, req, o, n - 1, key);
      UpsertOneKeepsRest(UpsertTo(w, req, o, n - 1).0, req, o, n - 1, key);
    }
  }

  /** In every pass, an object the annotation asks for keeps all that a watcher does not apply. */
  lemma AskedKeepsRest(w: World, req: Request, o: Outcomes, name: string)
    requires name in Names(req)
    ensures
      var w' := ApplyDesired(w, req, OwnedNames(w.store, req.owner, o.items), o).0;
      SameRest(Lookup(w.store, KeyFor(req.owner, name)), Lookup(w'.store, KeyFor(req.owner, name)))
  {
    var n, key := |req.desired|, KeyFor(req.owner, name);
    var owned := OwnedNames(w.store, req.owner, o.items);
    UpsertKeepsRest(w, req, o, n, key);
    DeleteToIs(UpsertTo(w, req, o, n).0.store, req.owner, owned, Names(req), o, |owned|, key);
  }

  // ----- Whose name and uid a watcher works under -----

  lemma {:induction false} FlattenMember(containers: seq<seq<DeclaredPort>>, port: DeclaredPort)
    ensures port in Flatten(containers) <==> exists c :: 0 <= c < |containers| && port in containers[c]
  {
    if containers != [] {
      FlattenMember(containers[1..], port);
      assert forall c | 0 < c < |containers| :: containers[c] == containers[1..][c - 1];
    }
  }

  /** The object of one desired port, with everything spelled out. */
  ghost predicate AppliedFor(store: Store, ns: Option<string>, name: string, uid: Option<string>, lanIp: string,
                             d: Desired)
  {
    var namespace := if ns.Some? then ns.value else "default";
    var key := ObjectKey(namespace, NameForOwner(namespace, name, d.external, d.protocol));
    && key in store
    && var pm := store[key];
    && pm.managed && pm.owner == Some(if uid.Some? then uid.value else "")
    && pm.spec.externalPort == d.external && pm.spec.protocol == d.protocol && pm.spec.internalHost == lanIp
  }

  lemma OwnerApplies(w: World, lanIp: string, owner: Owner, value: string, ports: seq<DeclaredPort>, ip: string,
                     o: Outcomes, d: Desired)
    requires FailureFree(o) && IsListing(o.items, w.store, owner.ns) && d in ParseAnnotation(value, ports)
    ensures
      var w' := ReconcileOwner(w, lanIp, owner, Some(value), ports, Reachable(ip), o).0;
      AppliedFor(w'.store, Some(owner.ns), owner.name, Some(owner.uid), lanIp, d)
  {
    var req := Request(owner, lanIp, ip, ParseAnnotation(value, ports));
    SelfStabilises(w, lanIp, owner, value, ports, ip, o);
    var i :| 0 <= i < |req.desired| && req.desired[i] == d;
    assert Placed(ReconcileOwner(w, lanIp, owner, Some(value), ports, Reachable(ip), o).0, req, |req.desired|, i);
  }

  /** A failure-free pass for a Service applies its objects in the Service's namespace, name and uid. */
  lemma ServiceApplies(w: World, lanIp: string, svc: Service, o: Outcomes, d: Desired)
    requires FailureFree(o) && IsListing(o.items, w.store, if svc.ns.Some? then svc.ns.value else "default")
    requires svc.clusterIp.Some? && svc.clusterIp.value != "" && svc.clusterIp.value != "None"
    requires svc.annotation.Some? && d in ParseAnnotation(svc.annotation.value, svc.ports)
    ensures AppliedFor(ReconcileService(w, lanIp, svc, o).0.store, svc.ns, svc.name, svc.uid, lanIp, d)
  {
    OwnerApplies(w, lanIp, ServiceOwner(svc), svc.annotation.value, svc.ports, svc.clusterIp.value, o, d);
  }

  /** And one for a Pod those of the declared ports of all its containers. */
  lemma PodApplies(w: World, lanIp: string, pod: Pod, o: Outcomes, d: Desired)
    requires FailureFree(o) && IsListing(o.items, w.store, if pod.ns.Some? then pod.ns.value else "default")
    requires pod.podIp.Some? && pod.annotation == Some("true")
    requires exists c, k ::
      0 <= c < |pod.containers| && 0 <= k < |pod.containers[c]|
      && DeclaredAs(pod.containers[c][k], d.external, d.protocol) && d.internal == d.external
    ensures AppliedFor(ReconcilePod(w, lanIp, pod, o).0.store, pod.ns, pod.name, pod.uid, lanIp, d)
  {
    var ports := Flatten(pod.containers);
    var c, k :| 0 <= c < |pod.containers| && 0 <= k < |pod.containers[c]|
      && DeclaredAs(pod.containers[c][k], d.external, d.protocol) && d.internal == d.external;
    FlattenMember(pod.containers, pod.containers[c][k]);
    var i :| 0 <= i < |ports| && ports[i] == pod.containers[c][k];
    TrueAsksForDeclared(ports);
    var desired := ParseAnnotation("true", ports);
    CastAndProtocol(ports[i], d.external, d.protocol);
    CastAndProtocol(ports[i], desired[i].external, desired[i].protocol);
    assert desired[i] == d;
    OwnerApplies(w, lanIp, PodOwner(pod), "true", ports, pod.podIp.value, o, d);
  }
}
