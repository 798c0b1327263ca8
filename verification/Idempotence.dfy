/** A second pass on unchanged inputs, and exactly when it changes nothing. */
module Idempotence {
  import opened Wrappers
  import opened Annotations
  import opened Proxies
  import opened Reconciler
  import opened Stabilisation

  /** In a consistent list every entry of a name is aimed at, not only the last. */
  lemma ConsistentAimsAll(w: World, req: Request, i: nat)
    requires Consistent(req.desired) && Programmed(w, req, |req.desired|) && i < |req.desired|
    ensures Aimed(w, req, req.desired[i])
  {
    var k := LastOf(req, |req.desired|, i);
    SameNameSamePort(req.owner, req.desired[i], req.desired[k]);
    assert Placed(w, req, |req.desired|, k);
  }

  lemma UpsertOneSettled(w: World, req: Request, o: Outcomes, i: nat)
    requires i < |req.desired| && o.patched(i) && Aimed(w, req, req.desired[i])
    ensures UpsertOne(w, req, o, i) == (w, true)
  {
    var key := KeyFor(req.owner, NameOf(req.owner, req.desired[i]));
    assert Patch(w.store, key, req.owner.uid, w.store[key].spec) == w.store;
  }

  ghost predicate AllAimed(w: World, req: Request) {
    forall i: nat | i < |req.desired| :: AimedAt(w, req, i)
  }

  ghost predicate AimedAt(w: World, req: Request, i: nat)
    requires i < |req.desired|
  {
    Aimed(w, req, req.desired[i])
  }

  /** On a world where every entry is aimed at, upserting finds nothing to do. */
  lemma {:induction false} UpsertSettled(w: World, req: Request, o: Outcomes, n: nat)
    requires n <= |req.desired| && FailureFree(o) && AllAimed(w, req)
    ensures UpsertTo(w, req, o, n) == (w, true)
  {
    if n > 0 {
      UpsertSettled(w, req, o, n - 1);
      UpsertUnfolds(w, req, o, n);
      assert AimedAt(w, req, n - 1);
      UpsertOneSettled(w, req, o, n - 1);
    }
  }

  /** Stale leftovers of a finished pass are already terminating and have no proxy. */
  lemma {:induction false} PruneSettled(w: World, owner: Owner, owned: seq<string>, keep: seq<string>,
                                      o: Outcomes, n: nat)
    requires n <= |owned|
    requires forall name | name in owned && name !in keep ::
      name !in w.proxies.table
      && (KeyFor(owner, name) in w.store ==>
          w.store[KeyFor(owner, name)].finalizer && w.store[KeyFor(owner, name)].terminating)
    ensures StopTo(w.proxies, owned, keep, n) == w.proxies && DeleteTo(w.store, owner, owned, keep, o, n) == w.store
  {
    if n > 0 {
      PruneSettled(w, owner, owned, keep, o, n - 1);
      var key := KeyFor(owner, owned[n - 1]);
      if owned[n - 1] !in keep && key in w.store {
        assert w.store[key := w.store[key].(terminating := true)] == w.store;
      }
    }
  }

  /** The table already has a proxy for every one of the first `n` entries. */
  ghost predicate AllServed(ps: ProxyState, req: Request, n: nat)
    requires n <= |req.desired|
  {
    forall i | 0 <= i < n ::
      var d := req.desired[i];
      Running(ps, NameOf(req.owner, d), Target(req.backend, d.internal), d.protocol).Some?
  }

  lemma AllServedSnoc(ps: ProxyState, req: Request, n: nat)
    requires 0 < n <= |req.desired| && AllServed(ps, req, n - 1)
    requires
      var d := req.desired[n - 1];
      Running(ps, NameOf(req.owner, d), Target(req.backend, d.internal), d.protocol).Some?
    ensures AllServed(ps, req, n)
  {
  }

  lemma UpsertOneSpawnsOrServes(w: World, req: Request, o: Outcomes, i: nat)
    requires i < |req.desired| && o.binds(i).Some?
    ensures
      var ps := UpsertOne(w, req, o, i).0.proxies;
      var d := req.desired[i];
      if Running(w.proxies, NameOf(req.owner, d), Target(req.backend, d.internal), d.protocol).Some?
      then ps == w.proxies
      else |ps.loops| == |w.proxies.loops| + 1
  {
  }

  /** An upserting loop that spawns nothing left the proxy table alone, which served every entry. */
  lemma {:induction false} NoSpawnMeansServed(w: World, req: Request, o: Outcomes, n: nat)
    requires n <= |req.desired| && FailureFree(o)
    ensures
      var ps := UpsertTo(w, req, o, n).0.proxies;
      && |ps.loops| >= |w.proxies.loops|
      && (|ps.loops| == |w.proxies.loops| ==> ps == w.proxies && AllServed(w.proxies, req, n))
  {
    if n > 0 {
      NoSpawnMeansServed(w, req, o, n - 1);
      UpsertSucceeds(w, req, o, n - 1);
      assert o.binds(n - 1).Some?;
      var before := UpsertTo(w, req, o, n - 1).0;
      UpsertOneSpawnsOrServes(before, req, o, n - 1);
      if |UpsertTo(w, req, o, n).0.proxies.loops| == |w.proxies.loops| {
        assert before.proxies == w.proxies;
        AllServedSnoc(w.proxies, req, n);
      }
    }
  }

  lemma ServedMeansConsistent(ps: ProxyState, req: Request)
    requires AllServed(ps, req, |req.desired|)
    ensures Consistent(req.desired)
  {
    forall i, j | 0 <= i < |req.desired| && 0 <= j < |req.desired|
      && req.desired[i].external == req.desired[j].external && req.desired[i].protocol == req.desired[j].protocol
      ensures req.desired[i].internal == req.desired[j].internal
    {
      var d, d' := req.desired[i], req.desired[j];
      assert Running(ps, NameOf(req.owner, d), Target(req.backend, d.internal), d.protocol).Some?;
      assert Running(ps, NameOf(req.owner, d'), Target(req.backend, d'.internal), d'.protocol).Some?;
      TargetsAgree(req.backend, d.internal, d'.internal);
    }
  }

  /** What the first pass leaves stale, it leaves terminating under a finalizer and without a proxy. */
  lemma StaleIsSettled(w: World, req: Request, o: Outcomes, o': Outcomes)
    requires FailureFree(o) && IsListing(o.items, w.store, req.owner.ns)
    ensures
      var w' := ApplyDesired(w, req, OwnedNames(w.store, req.owner, o.items), o).0;
      IsListing(o'.items, w'.store, req.owner.ns) ==>
        forall name | name in OwnedNames(w'.store, req.owner, o'.items) && name !in Names(req) ::
          name !in w'.proxies.table && KeyFor(req.owner, name) in w'.store
          && w'.store[KeyFor(req.owner, name)].finalizer && w'.store[KeyFor(req.owner, name)].terminating
  {
    var owner, names, n := req.owner, Names(req), |req.desired|;
    var mid := UpsertTo(w, req, o, n).0;
    UpsertPrograms(w, req, o, n);
    UpsertTouchesDesired(w, req, o, n);
    var w' := Prune(mid, owner, OwnedNames(w.store, owner, o.items), names, o);
    PruneIs(w, mid, owner, names, o);
    OwnedNamesAre(w'.store, owner, o'.items);
    if IsListing(o'.items, w'.store, owner.ns) {
      forall name | name in OwnedNames(w'.store, owner, o'.items) && name !in names
        ensures name !in w'.proxies.table
        ensures KeyFor(owner, name) in w'.store
        ensures w'.store[KeyFor(owner, name)].finalizer && w'.store[KeyFor(owner, name)].terminating
      {
        var key := KeyFor(owner, name);
        assert Lookup(mid.store, key) == Lookup(w.store, key);
        assert Stale(w, owner, names, name);
        assert HandleAt(w'.proxies, name) == None;
        assert Lookup(w'.store, key) == Deleted(mid.store, key);
      }
    }
  }

  /**
   Idempotence, both ways. After one failure-free pass, a second on unchanged inputs leaves
   store and proxy table exactly as they are if no external port and protocol was asked to go
   to two internal ports; otherwise it starts at least one new accept loop.
   */
  lemma SecondPassChangesNothingIff(w: World, req: Request, o: Outcomes, o': Outcomes)
    requires FailureFree(o) && FailureFree(o') && IsListing(o.items, w.store, req.owner.ns)
    requires
      var w' := ApplyDesired(w, req, OwnedNames(w.store, req.owner, o.items), o).0;
      IsListing(o'.items, w'.store, req.owner.ns)
    ensures
      var w' := ApplyDesired(w, req, OwnedNames(w.store, req.owner, o.items), o).0;
      var w'' := ApplyDesired(w', req, OwnedNames(w'.store, req.owner, o'.items), o').0;
      && (Consistent(req.desired) <==> w'' == w')
      && (!Consistent(req.desired) ==> |w''.proxies.loops| > |w'.proxies.loops|)
  {
    var names, n := Names(req), |req.desired|;
    var mid := UpsertTo(w, req, o, n).0;
    var w' := ApplyDesired(w, req, OwnedNames(w.store, req.owner, o.items), o).0;
    var w'' := ApplyDesired(w', req, OwnedNames(w'.store, req.owner, o'.items), o').0;
    UpsertPrograms(w, req, o, n);
    UpsertPrograms(w', req, o', n);
    var owned := OwnedNames(w'.store, req.owner, o'.items);
    if Consistent(req.desired) {
      PassPrograms(w, req, o);
      forall i: nat | i < n
        ensures AimedAt(w', req, i)
      {
        ConsistentAimsAll(w', req, i);
      }
      UpsertSettled(w', req, o', n);
      StaleIsSettled(w, req, o, o');
      PruneSettled(w', req.owner, owned, names, o', |owned|);
    } else {
      var mid' := UpsertTo(w', req, o', n).0;
      NoSpawnMeansServed(w', req, o', n);
      StopToIs(mid'.proxies, owned, names, |owned|);
      assert w''.proxies.loops == mid'.proxies.loops;
      if AllServed(w'.proxies, req, n) {
        ServedMeansConsistent(w'.proxies, req);
      }
    }
  }

  /** For "true", and for every annotation without a colon, passes are idempotent. */
  lemma ColonFreePassesAreIdempotent(w: World, lanIp: string, owner: Owner, value: string,
                                     ports: seq<DeclaredPort>, ip: string, o: Outcomes, o': Outcomes)
    requires ':' !in value
    requires FailureFree(o) && FailureFree(o') && IsListing(o.items, w.store, owner.ns)
    requires IsListing(o'.items,
                       ReconcileOwner(w, lanIp, owner, Some(value), ports, Reachable(ip), o).0.store, owner.ns)
    ensures
      var w' := ReconcileOwner(w, lanIp, owner, Some(value), ports, Reachable(ip), o).0;
      ReconcileOwner(w', lanIp, owner, Some(value), ports, Reachable(ip), o').0 == w'
  {
    ColonFreeIsConsistent(value, ports);
    if ParseAnnotation(value, ports) != [] {
      SecondPassChangesNothingIff(w, Request(owner, lanIp, ip, ParseAnnotation(value, ports)), o, o');
    }
  }
}
