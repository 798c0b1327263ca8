/**
 The DNSEndpoint controller: pointing the A records of managed endpoints at the WAN address.
 Patches come from fan-outs, which carry the address they were started with, and from
 reconciles, which read the current one.
 */
module DnsEndpoints {
  import opened Wrappers

  datatype Endpoint = Endpoint(dnsName: string, recordType: string, recordTtl: Option<int>, targets: seq<string>)

  type Spec = seq<Endpoint>

  /** A DNSEndpoint, with the value of its managed annotation. */
  datatype DnsEndpoint = DnsEndpoint(annotation: Option<string>, spec: Spec)

  predicate IsManaged(ep: DnsEndpoint) {
    ep.annotation == Some("true")
  }

  predicate TargetsCorrect(spec: Spec, ip: string) {
    forall i | 0 <= i < |spec| :: spec[i].recordType == "A" ==> spec[i].targets == [ip]
  }

  predicate HasARecord(spec: Spec) {
    exists i :: 0 <= i < |spec| && spec[i].recordType == "A"
  }

  function Retarget(e: Endpoint, ip: string): Endpoint {
    if e.recordType == "A" then e.(targets := [ip]) else e
  }

  function PatchedSpec(spec: Spec, ip: string): (patched: Spec)
    ensures |patched| == |spec|
    ensures forall i | 0 <= i < |spec| :: patched[i] == Retarget(spec[i], ip)
  {
    seq(|spec|, i requires 0 <= i < |spec| => Retarget(spec[i], ip))
  }

  /** The loop over a clone of the endpoints. */
  method BuildPatchedSpec(spec: Spec, ip: string) returns (patched: Spec)
    ensures patched == PatchedSpec(spec, ip)
  {
    patched := spec;
    for i := 0 to |spec|
      invariant |patched| == |spec|
      invariant forall j | 0 <= j < |spec| :: patched[j] == if j < i then Retarget(spec[j], ip) else spec[j]
    {
      if patched[i].recordType == "A" {
        patched := patched[i := patched[i].(targets := [ip])];
      }
    }
  }

  /** Patching makes the targets correct, and changes a spec exactly when they were not. */
  lemma PatchedIsCorrect(spec: Spec, ip: string)
    ensures TargetsCorrect(PatchedSpec(spec, ip), ip)
    ensures PatchedSpec(spec, ip) == spec <==> TargetsCorrect(spec, ip)
  {
    if PatchedSpec(spec, ip) == spec {
      forall i | 0 <= i < |spec| && spec[i].recordType == "A"
        ensures spec[i].targets == [ip]
      {
        assert PatchedSpec(spec, ip)[i] == Retarget(spec[i], ip);
      }
    }
  }

  /** Specs that differ at most in the targets of A records. */
  ghost predicate SameShape(spec: Spec, spec': Spec) {
    |spec| == |spec'| && forall i | 0 <= i < |spec| :: Retarget(spec[i], "") == Retarget(spec'[i], "")
  }

  lemma ShapeDecidesPatch(spec: Spec, spec': Spec, ip: string)
    requires SameShape(spec, spec')
    ensures PatchedSpec(spec, ip) == PatchedSpec(spec', ip)
    ensures SameShape(spec, PatchedSpec(spec', ip))
  {
    forall i | 0 <= i < |spec|
      ensures Retarget(spec[i], ip) == Retarget(spec'[i], ip)
      ensures Retarget(spec[i], "") == Retarget(PatchedSpec(spec', ip)[i], "")
    {
      assert Retarget(spec[i], "") == Retarget(spec'[i], "");
    }
  }

  // ----- A fan-out that runs on its own -----

  class EndpointStore {
    var endpoints: map<string, DnsEndpoint>

    constructor (endpoints: map<string, DnsEndpoint>)
      ensures this.endpoints == endpoints
    {
      this.endpoints := endpoints;
    }

    /** List once, then patch every managed endpoint of the listing; failed patches are skipped. */
    method UpdateAllManaged(ip: string, listed: bool, items: seq<string>, patched: string -> bool)
      requires forall name :: name in items <==> name in endpoints
      modifies this
      ensures endpoints.Keys == old(endpoints).Keys
      ensures forall name | name in endpoints ::
        endpoints[name] ==
          var ep := old(endpoints)[name];
          if listed && ep.annotation == Some("true") && patched(name) then ep.(spec := PatchedSpec(ep.spec, ip)) else ep
    {
      if !listed {
        return;
      }
      var snapshot := endpoints;
      for n := 0 to |items|
        invariant endpoints.Keys == snapshot.Keys
        invariant forall name | name in endpoints ::
          endpoints[name] ==
            if name in items[..n] && snapshot[name].annotation == Some("true") && patched(name)
            then snapshot[name].(spec := PatchedSpec(snapshot[name].spec, ip)) else snapshot[name]
      {
        var name := items[n];
        assert name in endpoints && items[..n + 1] == items[..n] + [name];
        if IsManaged(snapshot[name]) {
          var spec := BuildPatchedSpec(snapshot[name].spec, ip);
          if patched(name) {
            endpoints := endpoints[name := endpoints[name].(spec := spec)];
          }
        }
      }
    }
  }

  // ----- Interleavings, once the WAN address stays at `ip` -----

  /**
   A leftover fan-out, or a reconcile that read an earlier address, which has one patch left:
   about to list, or with the rest of its listing still to patch.
   */
  datatype Fanout = ToList(ip: string) | Patching(ip: string, items: seq<(string, Spec)>)

  /** `pending` holds the patches of reconciles that found a snapshot incorrect. */
  datatype System = System(endpoints: map<string, DnsEndpoint>, fanouts: seq<Fanout>, pending: map<nat, (string, Spec)>)

  datatype Step =
    | List(fanout: nat, names: seq<string>, listed: bool)
    | PatchNext(fanout: nat, landed: bool)
    | ReconcileRead(id: nat, name: string, snapshot: Spec)
    | ReconcilePatch(id: nat, landed: bool)

  predicate Enabled(s: System, step: Step) {
    match step
    case List(f, names, _) =>
      && f < |s.fanouts| && s.fanouts[f].ToList?
      && |names| == |s.endpoints|
      && (forall name | name in names :: name in s.endpoints) && (forall name | name in s.endpoints :: name in names)
    case PatchNext(f, _) => f < |s.fanouts| && s.fanouts[f].Patching? && s.fanouts[f].items != []
    case ReconcileRead(id, name, snapshot) => id !in s.pending && name in s.endpoints
    case ReconcilePatch(id, _) => id in s.pending
  }

  /** A patch that reaches the cluster; the endpoint it names may have gone. */
  function Land(endpoints: map<string, DnsEndpoint>, item: (string, Spec), ip: string): map<string, DnsEndpoint> {
    if item.0 in endpoints then endpoints[item.0 := endpoints[item.0].(spec := PatchedSpec(item.1, ip))] else endpoints
  }

  function Exec(s: System, step: Step, ip: string): System
    requires Enabled(s, step)
  {
    match step
    case List(f, names, listed) =>
      var items := if listed
        then seq(|names|, i requires 0 <= i < |names| => (names[i], s.endpoints[names[i]].spec)) else [];
      s.(fanouts := s.fanouts[f := Patching(s.fanouts[f].ip, items)])
    case PatchNext(f, landed) =>
      var fan := s.fanouts[f];
      var item := fan.items[0];
      var managed := item.0 in s.endpoints && IsManaged(s.endpoints[item.0]);
      s.(endpoints := if managed && landed then Land(s.endpoints, item, fan.ip) else s.endpoints,
         fanouts := s.fanouts[f := fan.(items := fan.items[1..])])
    case ReconcileRead(id, name, snapshot) =>
      if IsManaged(s.endpoints[name]) && !TargetsCorrect(snapshot, ip)
      then s.(pending := s.pending[id := (name, snapshot)])
      else s
    case ReconcilePatch(id, landed) =>
      s.(endpoints := if landed then Land(s.endpoints, s.pending[id], ip) else s.endpoints,
         pending := s.pending - {id})
  }

  /** Nothing but these patches edits the endpoints, so every snapshot differs only in A targets. */
  ghost predicate Undisturbed(s: System) {
    && (forall f, i | 0 <= f < |s.fanouts| && s.fanouts[f].Patching? && 0 <= i < |s.fanouts[f].items| ::
          Fits(s, s.fanouts[f].items[i]))
    && (forall id | id in s.pending ::
          Fits(s, s.pending[id]) && s.endpoints[s.pending[id].0].annotation == Some("true"))
  }

  ghost predicate Fits(s: System, item: (string, Spec)) {
    item.0 in s.endpoints && SameShape(s.endpoints[item.0].spec, item.1)
  }

  /** Watch events carry some earlier state of the endpoint. */
  ghost predicate Genuine(s: System, step: Step) {
    step.ReconcileRead? ==> Fits(s, (step.name, step.snapshot))
  }

  lemma LandingKeepsFits(s: System, item: (string, Spec), ip: string, other: (string, Spec))
    requires Fits(s, item) && Fits(s, other)
    ensures Fits(s.(endpoints := Land(s.endpoints, item, ip)), other)
  {
    if item.0 == other.0 {
      ShapeDecidesPatch(other.1, item.1, ip) by {
        assert SameShape(other.1, item.1);
      }
    }
  }

  lemma StepKeepsUndisturbed(s: System, step: Step, ip: string)
    requires Undisturbed(s) && Enabled(s, step) && Genuine(s, step)
    ensures Undisturbed(Exec(s, step, ip))
  {
    var s' := Exec(s, step, ip);
    var landing := match step
      case PatchNext(f, _) => Some((s.fanouts[f].items[0], s.fanouts[f].ip))
      case ReconcilePatch(id, _) => Some((s.pending[id], ip))
      case _ => None;
    forall item | Fits(s, item)
      ensures Fits(s', item)
    {
      if landing.Some? {
        LandingKeepsFits(s, landing.value.0, landing.value.1, item);
      }
    }
    forall f, i | 0 <= f < |s'.fanouts| && s'.fanouts[f].Patching? && 0 <= i < |s'.fanouts[f].items|
      ensures Fits(s', s'.fanouts[f].items[i])
    {
      if step.PatchNext? && step.fanout == f {
        assert s'.fanouts[f].items[i] == s.fanouts[f].items[i + 1];
        assert Fits(s, s.fanouts[f].items[i + 1]);
      } else if step.List? && step.fanout == f {
        assert step.names[i] in step.names;
      } else {
        assert Fits(s, s.fanouts[f].items[i]);
      }
    }
  }

  // ----- The measure -----

  /** How many patches a fan-out can still make; listing always uses one up. */
  function Cost(fan: Fanout, endpoints: nat): nat {
    match fan case ToList(_) => endpoints + 1 case Patching(_, items) => |items|
  }

  function Budget(fanouts: seq<Fanout>, endpoints: nat): nat {
    if fanouts == [] then 0 else Cost(fanouts[0], endpoints) + Budget(fanouts[1..], endpoints)
  }

  /** What leftover fan-outs can still do. */
  function Leftover(s: System): nat {
    Budget(s.fanouts, |s.endpoints|)
  }

  function Wrong(s: System, ip: string): set<string> {
    set name | name in s.endpoints && s.endpoints[name].annotation == Some("true")
      && !TargetsCorrect(s.endpoints[name].spec, ip)
  }

  lemma {:induction false} BudgetUpdate(fanouts: seq<Fanout>, f: nat, fan: Fanout, endpoints: nat)
    requires f < |fanouts|
    ensures Budget(fanouts[f := fan], endpoints) + Cost(fanouts[f], endpoints)
         == Budget(fanouts, endpoints) + Cost(fan, endpoints)
  {
    if f > 0 {
      assert fanouts[f := fan][1..] == fanouts[1..][f - 1 := fan];
      BudgetUpdate(fanouts[1..], f - 1, fan, endpoints);
    } else {
      assert fanouts[f := fan][1..] == fanouts[1..];
    }
  }

  /** A reconcile patches the endpoint it was called for with what its snapshot held, retargeted. */
  lemma ReconcilePatchesSnapshot(s: System, id: nat, name: string, snapshot: Spec, ip: string)
    requires Enabled(s, ReconcileRead(id, name, snapshot)) && s.endpoints[name].annotation == Some("true")
    requires !TargetsCorrect(snapshot, ip)
    ensures
      var read := Exec(s, ReconcileRead(id, name, snapshot), ip);
      && read.endpoints == s.endpoints && read.fanouts == s.fanouts && Enabled(read, ReconcilePatch(id, true))
      && Exec(read, ReconcilePatch(id, true), ip)
        == s.(endpoints := s.endpoints[name := s.endpoints[name].(spec := PatchedSpec(snapshot, ip))])
  {
    var read := Exec(s, ReconcileRead(id, name, snapshot), ip);
    assert read.pending - {id} == s.pending;
  }

  /** A patch by a reconcile makes its endpoint correct and touches no other. */
  lemma ReconcilePatchCorrects(s: System, id: nat, ip: string)
    requires Undisturbed(s) && id in s.pending
    ensures
      var name := s.pending[id].0;
      var s' := Exec(s, ReconcilePatch(id, true), ip);
      && Wrong(s', ip) == Wrong(s, ip) - {name}
      && (s'.endpoints == s.endpoints <==> name !in Wrong(s, ip))
  {
    var item := s.pending[id];
    var s' := Exec(s, ReconcilePatch(id, true), ip);
    var before := s.endpoints[item.0].spec;
    ShapeDecidesPatch(before, item.1, ip);
    PatchedIsCorrect(before, ip);
    assert s'.endpoints[item.0].spec == PatchedSpec(before, ip);
    assert s'.endpoints == s.endpoints <==> PatchedSpec(before, ip) == before;
  }

  /**
   The pair (leftover fan-out work, wrong managed endpoints) never grows in lexicographic
   order, and it drops at every step that changes an endpoint.
   */
  lemma PatchesLowerMeasure(s: System, step: Step, ip: string)
    requires Undisturbed(s) && Enabled(s, step) && Genuine(s, step)
    ensures
      var s' := Exec(s, step, ip);
      && s'.endpoints.Keys == s.endpoints.Keys
      && (|| Leftover(s') < Leftover(s)
          || (Leftover(s') == Leftover(s) && Wrong(s', ip) < Wrong(s, ip))
          || (Leftover(s') == Leftover(s) && s'.endpoints == s.endpoints))
  {
    var s' := Exec(s, step, ip);
    assert s'.endpoints.Keys == s.endpoints.Keys by {
      if step.ReconcilePatch? {
        assert Fits(s, s.pending[step.id]);
      }
    }
    assert |s'.endpoints| == |s'.endpoints.Keys| == |s.endpoints|;
    match step {
      case List(f, names, listed) => BudgetUpdate(s.fanouts, f, s'.fanouts[f], |s.endpoints|);
      case PatchNext(f, _) => BudgetUpdate(s.fanouts, f, s'.fanouts[f], |s.endpoints|);
      case ReconcileRead(_, _, _) =>
      case ReconcilePatch(id, landed) =>
        if landed {
          ReconcilePatchCorrects(s, id, ip);
        }
    }
  }

  // ----- Runs -----

  ghost predicate CanRun(s: System, steps: seq<Step>, ip: string)
    decreases steps
  {
    steps == [] || (Enabled(s, steps[0]) && Genuine(s, steps[0]) && CanRun(Exec(s, steps[0], ip), steps[1..], ip))
  }

  ghost function Run(s: System, steps: seq<Step>, ip: string): System
    requires CanRun(s, steps, ip)
    decreases steps
  {
    if steps == [] then s else Run(Exec(s, steps[0], ip), steps[1..], ip)
  }

  /** How many steps of a run change an endpoint. */
  ghost function Changes(s: System, steps: seq<Step>, ip: string): nat
    requires CanRun(s, steps, ip)
    decreases steps
  {
    if steps == [] then 0
    else
      var s' := Exec(s, steps[0], ip);
      (if s'.endpoints == s.endpoints then 0 else 1) + Changes(s', steps[1..], ip)
  }

  /** The measure as one number. */
  function Weight(s: System, ip: string): nat {
    Leftover(s) * (|s.endpoints| + 1) + |Wrong(s, ip)|
  }

  lemma SubsetSize<T>(a: set<T>, b: set<T>)
    requires a <= b
    ensures |a| <= |b| && (a != b ==> |a| < |b|)
  {
    assert b == a + (b - a);
    assert a != b ==> b - a != {};
  }

  lemma Lexicographic(major: nat, minor: nat, major': nat, minor': nat, n: nat)
    requires minor <= n && minor' <= n
    requires major' < major || (major' == major && minor' < minor)
    ensures major' * (n + 1) + minor' < major * (n + 1) + minor
  {
    if major' < major {
      assert (major - major' - 1) * (n + 1) >= 0;
    }
  }

  lemma StepLowersWeight(s: System, step: Step, ip: string)
    requires Undisturbed(s) && Enabled(s, step) && Genuine(s, step)
    ensures
      var s' := Exec(s, step, ip);
      && Weight(s', ip) <= Weight(s, ip)
      && (s'.endpoints != s.endpoints ==> Weight(s', ip) < Weight(s, ip))
  {
    var s' := Exec(s, step, ip);
    PatchesLowerMeasure(s, step, ip);
    var n := |s.endpoints|;
    assert |s'.endpoints| == |s'.endpoints.Keys| == n;
    SubsetSize(Wrong(s', ip), s'.endpoints.Keys);
    SubsetSize(Wrong(s, ip), s.endpoints.Keys);
    if Leftover(s') == Leftover(s) && s'.endpoints == s.endpoints {
      assert Wrong(s', ip) == Wrong(s, ip);
    } else {
      if Leftover(s') == Leftover(s) {
        SubsetSize(Wrong(s', ip), Wrong(s, ip));
      }
      Lexicographic(Leftover(s), |Wrong(s, ip)|, Leftover(s'), |Wrong(s', ip)|, n);
    }
  }

  /** However fan-outs and reconciles interleave, only so many patches can change anything. */
  lemma {:induction false} ChangesAreBounded(s: System, steps: seq<Step>, ip: string)
    requires Undisturbed(s) && CanRun(s, steps, ip)
    ensures Changes(s, steps, ip) + Weight(Run(s, steps, ip), ip) <= Weight(s, ip)
    decreases steps
  {
    if steps != [] {
      StepKeepsUndisturbed(s, steps[0], ip);
      StepLowersWeight(s, steps[0], ip);
      ChangesAreBounded(Exec(s, steps[0], ip), steps[1..], ip);
    }
  }

  // ----- Convergence -----

  /** The endpoint is patched by a reconcile, or seen correct by one that reads its current state. */
  ghost predicate Settles(s: System, step: Step, ip: string, name: string) {
    || (step.ReconcilePatch? && step.landed && step.id in s.pending && s.pending[step.id].0 == name)
    || (step.ReconcileRead? && step.name == name && name in s.endpoints
        && step.snapshot == s.endpoints[name].spec && TargetsCorrect(step.snapshot, ip))
  }

  ghost predicate SettledDuring(s: System, steps: seq<Step>, ip: string, name: string)
    requires CanRun(s, steps, ip)
    decreases steps
  {
    steps != [] && (Settles(s, steps[0], ip, name) || SettledDuring(Exec(s, steps[0], ip), steps[1..], ip, name))
  }

  /** With no fan-out left, an endpoint that is right stays right, and a settled one is right. */
  lemma QuietStep(s: System, step: Step, ip: string, name: string)
    requires Undisturbed(s) && Enabled(s, step) && Genuine(s, step) && Leftover(s) == 0
    ensures
      var s' := Exec(s, step, ip);
      && Leftover(s') == 0
      && (name !in Wrong(s, ip) || Settles(s, step, ip, name) ==> name !in Wrong(s', ip))
  {
    PatchesLowerMeasure(s, step, ip);
    if step.ReconcilePatch? && step.landed {
      ReconcilePatchCorrects(s, step.id, ip);
    }
  }

  lemma {:induction false} SettledStaysRight(s: System, steps: seq<Step>, ip: string, name: string)
    requires Undisturbed(s) && CanRun(s, steps, ip) && Leftover(s) == 0
    requires name !in Wrong(s, ip) || SettledDuring(s, steps, ip, name)
    ensures
      var s' := Run(s, steps, ip);
      Undisturbed(s') && Leftover(s') == 0 && name !in Wrong(s', ip)
    decreases steps
  {
    if steps != [] {
      StepKeepsUndisturbed(s, steps[0], ip);
      QuietStep(s, steps[0], ip, name);
      SettledStaysRight(Exec(s, steps[0], ip), steps[1..], ip, name);
    }
  }

  lemma {:induction false} RunKeepsUndisturbed(s: System, steps: seq<Step>, ip: string)
    requires Undisturbed(s) && CanRun(s, steps, ip)
    ensures Undisturbed(Run(s, steps, ip))
    ensures Run(s, steps, ip).endpoints.Keys == s.endpoints.Keys
    ensures forall name | name in s.endpoints ::
              Run(s, steps, ip).endpoints[name].annotation == s.endpoints[name].annotation
    decreases steps
  {
    if steps != [] {
      StepKeepsUndisturbed(s, steps[0], ip);
      PatchesLowerMeasure(s, steps[0], ip);
      RunKeepsUndisturbed(Exec(s, steps[0], ip), steps[1..], ip);
    }
  }

  /** Every managed A record targets exactly the WAN address. */
  ghost predicate Converged(s: System, ip: string) {
    forall name, i | name in s.endpoints && s.endpoints[name].annotation == Some("true")
      && 0 <= i < |s.endpoints[name].spec| && s.endpoints[name].spec[i].recordType == "A" ::
      s.endpoints[name].spec[i].targets == [ip]
  }

  /** The patch of a reconcile under way comes, and lands. */
  ghost predicate Lands(steps: seq<Step>, id: nat) {
    steps != []
    && if steps[0].ReconcilePatch? && steps[0].id == id then steps[0].landed else Lands(steps[1..], id)
  }

  /** One reconcile of the endpoint reads its current spec, and its patch, if it makes one, lands. */
  ghost predicate ReconciledDuring(s: System, steps: seq<Step>, ip: string, name: string)
    requires CanRun(s, steps, ip)
    decreases steps
  {
    steps != []
    && (|| ReconciledDuring(Exec(s, steps[0], ip), steps[1..], ip, name)
        || (&& steps[0].ReconcileRead? && steps[0].name == name && name in s.endpoints
            && steps[0].snapshot == s.endpoints[name].spec
            && (steps[0].id in Exec(s, steps[0], ip).pending ==> Lands(steps[1..], steps[0].id))))
  }

  lemma {:induction false} LandedPatchSettles(s: System, steps: seq<Step>, ip: string, id: nat)
    requires CanRun(s, steps, ip) && id in s.pending && Lands(steps, id)
    ensures SettledDuring(s, steps, ip, s.pending[id].0)
    decreases steps
  {
    if !(steps[0].ReconcilePatch? && steps[0].id == id) {
      LandedPatchSettles(Exec(s, steps[0], ip), steps[1..], ip, id);
    }
  }

  /** A reconcile settles its endpoint: what it reads is right, or it patches it. */
  lemma {:induction false} ReconciledMeansSettled(s: System, steps: seq<Step>, ip: string, name: string)
    requires Undisturbed(s) && CanRun(s, steps, ip) && ReconciledDuring(s, steps, ip, name)
    requires name in s.endpoints && s.endpoints[name].annotation == Some("true")
    ensures SettledDuring(s, steps, ip, name)
    decreases steps
  {
    var s1 := Exec(s, steps[0], ip);
    if ReconciledDuring(s1, steps[1..], ip, name) {
      StepKeepsUndisturbed(s, steps[0], ip);
      StepKeepsEndpoint(s, steps[0], ip, name);
      ReconciledMeansSettled(s1, steps[1..], ip, name);
    } else if steps[0].id in s1.pending {
      LandedPatchSettles(s1, steps[1..], ip, steps[0].id);
    }
  }

  lemma StepKeepsEndpoint(s: System, step: Step, ip: string, name: string)
    requires Enabled(s, step) && name in s.endpoints
    ensures name in Exec(s, step, ip).endpoints
    ensures Exec(s, step, ip).endpoints[name].annotation == s.endpoints[name].annotation
  {
  }

  /** Once fan-outs are done, a reconcile of every managed endpoint makes all of them right. */
  lemma QuietRunConverges(s: System, steps: seq<Step>, ip: string)
    requires Undisturbed(s) && CanRun(s, steps, ip) && Leftover(s) == 0
    requires forall name | name in s.endpoints && s.endpoints[name].annotation == Some("true") ::
      ReconciledDuring(s, steps, ip, name)
    ensures Converged(Run(s, steps, ip), ip)
  {
    RunKeepsUndisturbed(s, steps, ip);
    var s' := Run(s, steps, ip);
    forall name | name in s'.endpoints && s'.endpoints[name].annotation == Some("true")
      ensures TargetsCorrect(s'.endpoints[name].spec, ip)
    {
      ReconciledMeansSettled(s, steps, ip, name);
      SettledStaysRight(s, steps, ip, name);
    }
  }

  lemma RunCons(s: System, step: Step, steps: seq<Step>, ip: string)
    requires Enabled(s, step) && Genuine(s, step) && CanRun(Exec(s, step, ip), steps, ip)
    ensures CanRun(s, [step] + steps, ip) && Run(s, [step] + steps, ip) == Run(Exec(s, step, ip), steps, ip)
  {
    assert ([step] + steps)[1..] == steps;
  }

  /**
   Convergence, from any state, with any fan-outs and reconciles under way and in any
   interleaving: if the fan-outs are done at some point of the run, and after it each managed
   endpoint gets one reconcile that reads its current spec and whose patch, if it makes one,
   lands, then at the end every managed A record targets exactly the WAN address.
   */
  lemma RunConverges(s: System, before: seq<Step>, after: seq<Step>, ip: string)
    requires Undisturbed(s) && CanRun(s, before, ip) && CanRun(Run(s, before, ip), after, ip)
    requires
      var drained := Run(s, before, ip);
      && Leftover(drained) == 0
      && forall name | name in drained.endpoints && drained.endpoints[name].annotation == Some("true") ::
           ReconciledDuring(drained, after, ip, name)
    ensures Converged(Run(Run(s, before, ip), after, ip), ip)
  {
    RunKeepsUndisturbed(s, before, ip);
    QuietRunConverges(Run(s, before, ip), after, ip);
  }

  /** As long as an endpoint is wrong, a reconcile that reads it and lands its patch makes progress. */
  lemma WrongEndpointGetsCorrected(s: System, ip: string, name: string, id: nat)
    requires Undisturbed(s) && name in Wrong(s, ip) && id !in s.pending
    ensures
      var steps := [ReconcileRead(id, name, s.endpoints[name].spec), ReconcilePatch(id, true)];
      CanRun(s, steps, ip)
      && Wrong(Run(s, steps, ip), ip) == Wrong(s, ip) - {name}
      && Run(s, steps, ip).fanouts == s.fanouts && Run(s, steps, ip).pending == s.pending
  {
    var read, patch := ReconcileRead(id, name, s.endpoints[name].spec), ReconcilePatch(id, true);
    assert Genuine(s, read);
    var s1 := Exec(s, read, ip);
    StepKeepsUndisturbed(s, read, ip);
    ReconcilePatchCorrects(s1, id, ip);
    assert Wrong(s1, ip) == Wrong(s, ip);
    var s2 := Exec(s1, patch, ip);
    assert s2.pending == s.pending;
    assert CanRun(s2, [], ip) && [patch][1..] == [] && [read, patch][1..] == [patch];
    assert CanRun(s1, [patch], ip) && Run(s1, [patch], ip) == s2;
  }

  /** Then nothing changes any more, and no reconcile that reads the current state patches. */
  lemma {:induction false} ConvergedIsFinal(s: System, steps: seq<Step>, ip: string)
    requires Undisturbed(s) && CanRun(s, steps, ip) && Leftover(s) == 0 && Converged(s, ip)
    ensures
      var s' := Run(s, steps, ip);
      && s'.endpoints == s.endpoints
      && (forall id, name | name in s'.endpoints && id !in s'.pending ::
            Exec(s', ReconcileRead(id, name, s'.endpoints[name].spec), ip) == s')
    decreases steps
  {
    if steps != [] {
      var s1 := Exec(s, steps[0], ip);
      StepKeepsUndisturbed(s, steps[0], ip);
      PatchesLowerMeasure(s, steps[0], ip);
      assert Wrong(s, ip) == {};
      ConvergedIsFinal(s1, steps[1..], ip);
    }
  }

  // ----- What a whole run leaves in one endpoint -----

  /** The address a step writes into an endpoint, if its patch lands there. */
  function PatchOn(s: System, step: Step, ip: string, name: string): Option<string>
    requires Enabled(s, step)
  {
    match step
    case PatchNext(f, landed) =>
      if landed && s.fanouts[f].items[0].0 == name && name in s.endpoints
         && s.endpoints[name].annotation == Some("true")
      then Some(s.fanouts[f].ip) else None
    case ReconcilePatch(id, landed) => if landed && s.pending[id].0 == name then Some(ip) else None
    case _ => None
  }

  ghost function LastPatch(s: System, steps: seq<Step>, ip: string, name: string): Option<string>
    requires CanRun(s, steps, ip)
    decreases steps
  {
    if steps == [] then None
    else
      var later := LastPatch(Exec(s, steps[0], ip), steps[1..], ip, name);
      if later.Some? then later else PatchOn(s, steps[0], ip, name)
  }

  function Patched(spec: Spec, address: Option<string>): Spec {
    match address case None => spec case Some(ip) => PatchedSpec(spec, ip)
  }

  lemma StepPatches(s: System, step: Step, ip: string, name: string)
    requires Undisturbed(s) && Enabled(s, step) && name in s.endpoints
    ensures name in Exec(s, step, ip).endpoints
    ensures Exec(s, step, ip).endpoints[name].spec == Patched(s.endpoints[name].spec, PatchOn(s, step, ip, name))
  {
    match step {
      case PatchNext(f, _) =>
        var item := s.fanouts[f].items[0];
        assert Fits(s, item);
        ShapeDecidesPatch(s.endpoints[item.0].spec, item.1, s.fanouts[f].ip);
      case ReconcilePatch(id, _) =>
        var item := s.pending[id];
        assert Fits(s, item);
        ShapeDecidesPatch(s.endpoints[item.0].spec, item.1, ip);
      case _ =>
    }
  }

  /** No step touches a DNSEndpoint whose annotation is not "true". */
  lemma StepLeavesUnmanaged(s: System, step: Step, ip: string, name: string)
    requires Undisturbed(s) && Enabled(s, step) && name in s.endpoints && s.endpoints[name].annotation != Some("true")
    ensures
      var endpoints' := Exec(s, step, ip).endpoints;
      name in endpoints' && endpoints'[name] == s.endpoints[name]
  {
    if step.ReconcilePatch? {
      assert Fits(s, s.pending[step.id]);
    }
  }

  /** Records keep their names, types and lifetimes, and other than A records their targets. */
  ghost predicate Alike(spec: Spec, spec': Spec) {
    |spec'| == |spec| && forall i | 0 <= i < |spec| ::
      && spec'[i].dnsName == spec[i].dnsName && spec'[i].recordType == spec[i].recordType
      && spec'[i].recordTtl == spec[i].recordTtl && (spec[i].recordType != "A" ==> spec'[i].targets == spec[i].targets)
  }

  /** A step changes at most the targets of A records. */
  lemma StepKeepsAlike(s: System, step: Step, ip: string, name: string)
    requires Undisturbed(s) && Enabled(s, step) && name in s.endpoints
    ensures
      var endpoints' := Exec(s, step, ip).endpoints;
      && name in endpoints' && endpoints'[name].annotation == s.endpoints[name].annotation
      && Alike(s.endpoints[name].spec, endpoints'[name].spec)
  {
    StepPatches(s, step, ip, name);
    StepKeepsEndpoint(s, step, ip, name);
    var spec := s.endpoints[name].spec;
    forall other: string, i | 0 <= i < |spec|
      ensures PatchedSpec(spec, other)[i] == Retarget(spec[i], other)
    {
    }
  }

  lemma LaterPatchWins(spec: Spec, ip: string, later: string)
    ensures PatchedSpec(PatchedSpec(spec, ip), later) == PatchedSpec(spec, later)
  {
  }

  /** In every run, stale fan-outs included, an endpoint holds what the last patch that landed on it wrote. */
  lemma {:induction false} EndpointHoldsLastPatch(s: System, steps: seq<Step>, ip: string, name: string)
    requires Undisturbed(s) && CanRun(s, steps, ip) && name in s.endpoints
    ensures
      var s' := Run(s, steps, ip);
      name in s'.endpoints && s'.endpoints[name].spec == Patched(s.endpoints[name].spec, LastPatch(s, steps, ip, name))
    decreases steps
  {
    if steps != [] {
      var s1 := Exec(s, steps[0], ip);
      StepKeepsUndisturbed(s, steps[0], ip);
      StepPatches(s, steps[0], ip, name);
      EndpointHoldsLastPatch(s1, steps[1..], ip, name);
      var first, later := PatchOn(s, steps[0], ip, name), LastPatch(s1, steps[1..], ip, name);
      if first.Some? && later.Some? {
        LaterPatchWins(s.endpoints[name].spec, first.value, later.value);
      }
    }
  }

  /** So it is right exactly when that patch carried the current address, or it has no A record to get wrong. */
  lemma RightExactlyWhenLastPatchIsCurrent(s: System, steps: seq<Step>, ip: string, name: string)
    requires Undisturbed(s) && CanRun(s, steps, ip) && name in s.endpoints
    ensures
      var s' := Run(s, steps, ip);
      var last := LastPatch(s, steps, ip, name);
      name in s'.endpoints
      && (TargetsCorrect(s'.endpoints[name].spec, ip)
          <==> (if last.Some? then last.value == ip || !HasARecord(s.endpoints[name].spec)
                else TargetsCorrect(s.endpoints[name].spec, ip)))
  {
    EndpointHoldsLastPatch(s, steps, ip, name);
    var spec, last := s.endpoints[name].spec, LastPatch(s, steps, ip, name);
    if last.Some? {
      PatchedIsCorrect(spec, last.value);
      var patched := PatchedSpec(spec, last.value);
      assert forall i | 0 <= i < |spec| :: patched[i] == Retarget(spec[i], last.value);
      if i :| 0 <= i < |spec| && spec[i].recordType == "A" {
        assert patched[i].targets == [last.value];
        assert [last.value][0] == last.value && [ip][0] == ip;
      }
    }
  }

  // ----- When a right endpoint can be undone -----

  /** A fan-out under way that can still write another address into the endpoint. */
  predicate Threatens(fan: Fanout, ip: string, name: string) {
    fan.ip != ip && (fan.ToList? || exists i :: 0 <= i < |fan.items| && fan.items[i].0 == name)
  }

  ghost predicate Threatened(s: System, ip: string, name: string) {
    exists f :: 0 <= f < |s.fanouts| && Threatens(s.fanouts[f], ip, name)
  }

  ghost predicate Right(s: System, ip: string, name: string) {
    name in s.endpoints && TargetsCorrect(s.endpoints[name].spec, ip)
  }

  ghost predicate StaysRight(s: System, ip: string, name: string) {
    forall steps | CanRun(s, steps, ip) :: Right(Run(s, steps, ip), ip, name)
  }

  lemma StepKeepsUnthreatened(s: System, step: Step, ip: string, name: string)
    requires Enabled(s, step) && !Threatened(s, ip, name)
    ensures !Threatened(Exec(s, step, ip), ip, name)
  {
    var s' := Exec(s, step, ip);
    forall f | 0 <= f < |s'.fanouts|
      ensures !Threatens(s'.fanouts[f], ip, name)
    {
      assert !Threatens(s.fanouts[f], ip, name);
      if step.PatchNext? && step.fanout == f {
        assert forall i :: 0 <= i < |s'.fanouts[f].items| ==> s'.fanouts[f].items[i] == s.fanouts[f].items[i + 1];
      }
    }
  }

  lemma UnthreatenedStepKeepsRight(s: System, step: Step, ip: string, name: string)
    requires Undisturbed(s) && Enabled(s, step) && Right(s, ip, name) && !Threatened(s, ip, name)
    ensures Right(Exec(s, step, ip), ip, name)
  {
    StepPatches(s, step, ip, name);
    if step.PatchNext? {
      var fan := s.fanouts[step.fanout];
      assert !Threatens(fan, ip, name);
      assert fan.items[0].0 == name ==> fan.ip == ip;
    }
    PatchedIsCorrect(s.endpoints[name].spec, ip);
  }

  lemma {:induction false} UnthreatenedStaysRight(s: System, steps: seq<Step>, ip: string, name: string)
    requires Undisturbed(s) && CanRun(s, steps, ip) && Right(s, ip, name) && !Threatened(s, ip, name)
    ensures Right(Run(s, steps, ip), ip, name)
    decreases steps
  {
    if steps != [] {
      StepKeepsUndisturbed(s, steps[0], ip);
      StepKeepsUnthreatened(s, steps[0], ip, name);
      UnthreatenedStepKeepsRight(s, steps[0], ip, name);
      UnthreatenedStaysRight(Exec(s, steps[0], ip), steps[1..], ip, name);
    }
  }

  /** Patching with another address makes an endpoint with an A record wrong. */
  lemma OtherAddressIsWrong(spec: Spec, ip: string, other: string)
    requires HasARecord(spec) && other != ip
    ensures !TargetsCorrect(PatchedSpec(spec, other), ip)
  {
    var i :| 0 <= i < |spec| && spec[i].recordType == "A";
    assert PatchedSpec(spec, other)[i] == Retarget(spec[i], other);
    assert [other][0] != [ip][0];
  }

  /** The run by which a listing under way undoes the endpoint: its patches fail up to the endpoint's, which lands. */
  lemma {:induction false} ListingUndoes(s: System, f: nat, ip: string, name: string) returns (steps: seq<Step>)
    requires Undisturbed(s) && f < |s.fanouts| && s.fanouts[f].Patching? && Threatens(s.fanouts[f], ip, name)
    requires name in s.endpoints && s.endpoints[name].annotation == Some("true") && HasARecord(s.endpoints[name].spec)
    ensures CanRun(s, steps, ip) && !Right(Run(s, steps, ip), ip, name)
    decreases |s.fanouts[f].items|
  {
    var fan := s.fanouts[f];
    if fan.items[0].0 == name {
      var step := PatchNext(f, true);
      StepPatches(s, step, ip, name);
      OtherAddressIsWrong(s.endpoints[name].spec, ip, fan.ip);
      RunCons(s, step, [], ip);
      steps := [step] + [];
    } else {
      var step := PatchNext(f, false);
      var i :| 0 <= i < |fan.items| && fan.items[i].0 == name;
      assert fan.items[1..][i - 1] == fan.items[i];
      var s1 := Exec(s, step, ip);
      StepKeepsUndisturbed(s, step, ip);
      assert s1.fanouts[f] == fan.(items := fan.items[1..]) && s1.endpoints == s.endpoints;
      assert Threatens(s1.fanouts[f], ip, name) by {
        assert s1.fanouts[f].items[i - 1].0 == name;
      }
      var rest := ListingUndoes(s1, f, ip, name);
      RunCons(s, step, rest, ip);
      steps := [step] + rest;
    }
  }

  /** Every finite set of names can be listed. */
  lemma {:induction false} Enumeration(names: set<string>) returns (listing: seq<string>)
    ensures |listing| == |names|
    ensures forall name :: name in listing <==> name in names
    decreases |names|
  {
    if names == {} {
      listing := [];
    } else {
      var name :| name in names;
      var rest := Enumeration(names - {name});
      listing := [name] + rest;
    }
  }

  lemma FanoutUndoes(s: System, f: nat, ip: string, name: string) returns (steps: seq<Step>)
    requires Undisturbed(s) && f < |s.fanouts| && Threatens(s.fanouts[f], ip, name)
    requires name in s.endpoints && s.endpoints[name].annotation == Some("true") && HasARecord(s.endpoints[name].spec)
    ensures CanRun(s, steps, ip) && !Right(Run(s, steps, ip), ip, name)
  {
    if s.fanouts[f].Patching? {
      steps := ListingUndoes(s, f, ip, name);
    } else {
      var listing := Enumeration(s.endpoints.Keys);
      assert |s.endpoints.Keys| == |s.endpoints|;
      var step := List(f, listing, true);
      var s1 := Exec(s, step, ip);
      StepKeepsUndisturbed(s, step, ip);
      var i :| 0 <= i < |listing| && listing[i] == name;
      assert s1.fanouts[f].items[i].0 == name;
      var rest := ListingUndoes(s1, f, ip, name);
      RunCons(s, step, rest, ip);
      steps := [step] + rest;
    }
  }

  /**
   An endpoint that is right stays right in every continuation if and only if it is not managed,
   has no A record, or no fan-out under way carries another address and has yet to list, or
   has yet to patch this endpoint.
   */
  lemma StaysRightIff(s: System, ip: string, name: string)
    requires Undisturbed(s) && Right(s, ip, name)
    ensures
      StaysRight(s, ip, name)
      <==> s.endpoints[name].annotation != Some("true") || !HasARecord(s.endpoints[name].spec)
           || !Threatened(s, ip, name)
  {
    if s.endpoints[name].annotation == Some("true") && HasARecord(s.endpoints[name].spec) && Threatened(s, ip, name) {
      var f :| 0 <= f < |s.fanouts| && Threatens(s.fanouts[f], ip, name);
      var steps := FanoutUndoes(s, f, ip, name);
    } else {
      forall steps | CanRun(s, steps, ip)
        ensures Right(Run(s, steps, ip), ip, name)
      {
        if !Threatened(s, ip, name) {
          UnthreatenedStaysRight(s, steps, ip, name);
        } else {
          UntouchableStaysRight(s, steps, ip, name);
        }
      }
    }
  }

  /** Patches pass over what is not managed, and change nothing where there is no A record. */
  lemma UntouchableStaysRight(s: System, steps: seq<Step>, ip: string, name: string)
    requires Undisturbed(s) && CanRun(s, steps, ip) && Right(s, ip, name)
    requires s.endpoints[name].annotation != Some("true") || !HasARecord(s.endpoints[name].spec)
    ensures Right(Run(s, steps, ip), ip, name)
  {
    RightExactlyWhenLastPatchIsCurrent(s, steps, ip, name);
    if HasARecord(s.endpoints[name].spec) {
      UnmanagedIsNotPatched(s, steps, ip, name);
    }
  }

  lemma {:induction false} UnmanagedIsNotPatched(s: System, steps: seq<Step>, ip: string, name: string)
    requires Undisturbed(s) && CanRun(s, steps, ip)
    requires name in s.endpoints && s.endpoints[name].annotation != Some("true")
    ensures LastPatch(s, steps, ip, name) == None
    decreases steps
  {
    if steps != [] {
      StepKeepsUndisturbed(s, steps[0], ip);
      StepKeepsEndpoint(s, steps[0], ip, name);
      UnmanagedIsNotPatched(Exec(s, steps[0], ip), steps[1..], ip, name);
    }
  }
}
