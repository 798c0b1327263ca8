/**
 The WAN address and the DNSEndpoints together: every write that changes the address may start a
 fan-out with it, and a reconcile that has read an address keeps it until its patch, even when
 the address changes in between.
 */
module Propagation {
  import opened Wrappers
  import W = WanAddress
  import D = DnsEndpoints

  datatype System = System(wan: W.System, dns: D.System)

  function Initial(startup: Option<string>, endpoints: map<string, D.DnsEndpoint>): System {
    System(W.Initial(startup), D.System(endpoints, [], map[]))
  }

  /** `stale` lists the reconciles under way, which are left with the address they have read. */
  datatype Step =
    | Observe(id: nat, ip: string, stale: seq<nat>)
    | Finish(id: nat)
    | SetActive(active: bool)
    | Dns(step: D.Step)

  predicate Enabled(s: System, step: Step) {
    match step
    case Observe(id, ip, stale) =>
      && W.Enabled(s.wan, W.Observe(id, ip))
      && |stale| == |s.dns.pending|
      && (forall r | r in stale :: r in s.dns.pending) && (forall r | r in s.dns.pending :: r in stale)
    case Finish(id) => W.Enabled(s.wan, W.Finish(id))
    case SetActive(_) => true
    case Dns(step) => s.wan.current.Some? && D.Enabled(s.dns, step)
  }

  /** Patches of reconciles that read `ip`, which has been superseded. */
  function Outdated(ip: string, pending: map<nat, (string, D.Spec)>, stale: seq<nat>): (fanouts: seq<D.Fanout>)
    requires forall r | r in stale :: r in pending
    ensures |fanouts| == |stale|
  {
    seq(|stale|, i requires 0 <= i < |stale| => D.Patching(ip, [pending[stale[i]]]))
  }

  /** The address of a write under way; its index is in the log in every run. */
  function Written(wan: W.System, w: W.Write): string {
    if w.index < |wan.log| then wan.log[w.index] else ""
  }

  function Exec(s: System, step: Step): System
    requires Enabled(s, step)
  {
    match step
    case Observe(id, ip, stale) =>
      System(W.Exec(s.wan, W.Observe(id, ip)),
        if s.wan.current.Some? && s.wan.current != Some(ip) then
          s.dns.(fanouts := s.dns.fanouts + Outdated(s.wan.current.value, s.dns.pending, stale), pending := map[])
        else s.dns)
    case Finish(id) =>
      var w := s.wan.writes[id];
      System(W.Exec(s.wan, W.Finish(id)),
        if w.changed && s.wan.active then s.dns.(fanouts := s.dns.fanouts + [D.ToList(Written(s.wan, w))]) else s.dns)
    case SetActive(active) => s.(wan := W.Exec(s.wan, W.SetActive(active)))
    case Dns(step) => s.(dns := D.Exec(s.dns, step, s.wan.current.value))
  }

  /** Watch events carry some earlier state of their endpoint. */
  ghost predicate Genuine(s: System, step: Step) {
    step.Dns? ==> D.Genuine(s.dns, step.step)
  }

  ghost predicate CanRun(s: System, steps: seq<Step>)
    decreases steps
  {
    steps == [] || (Enabled(s, steps[0]) && Genuine(s, steps[0]) && CanRun(Exec(s, steps[0]), steps[1..]))
  }

  ghost function Run(s: System, steps: seq<Step>): System
    requires CanRun(s, steps)
    decreases steps
  {
    if steps == [] then s else Run(Exec(s, steps[0]), steps[1..])
  }

  // ----- Snapshots keep their shape while addresses change -----

  lemma StepKeepsUndisturbed(s: System, step: Step)
    requires D.Undisturbed(s.dns) && Enabled(s, step) && Genuine(s, step)
    ensures D.Undisturbed(Exec(s, step).dns)
  {
    if step.Dns? {
      D.StepKeepsUndisturbed(s.dns, step.step, s.wan.current.value);
    } else {
      FanoutsOnlyGrow(s, step);
    }
  }

  lemma FanoutsOnlyGrow(s: System, step: Step)
    requires D.Undisturbed(s.dns) && Enabled(s, step) && !step.Dns?
    ensures D.Undisturbed(Exec(s, step).dns)
  {
    var dns, dns' := s.dns, Exec(s, step).dns;
    forall f, i | 0 <= f < |dns'.fanouts| && dns'.fanouts[f].Patching? && 0 <= i < |dns'.fanouts[f].items|
      ensures D.Fits(dns', dns'.fanouts[f].items[i])
    {
      if f < |dns.fanouts| {
        assert D.Fits(dns, dns.fanouts[f].items[i]);
      } else {
        var r := step.stale[f - |dns.fanouts|];
        assert r in step.stale && D.Fits(dns, dns.pending[r]);
      }
    }
    forall r | r in dns'.pending
      ensures D.Fits(dns', dns'.pending[r])
    {
      assert D.Fits(dns, dns.pending[r]);
    }
  }

  lemma {:induction false} RunKeepsUndisturbed(s: System, steps: seq<Step>)
    requires D.Undisturbed(s.dns) && CanRun(s, steps)
    ensures D.Undisturbed(Run(s, steps).dns)
    decreases steps
  {
    if steps != [] {
      StepKeepsUndisturbed(s, steps[0]);
      RunKeepsUndisturbed(Exec(s, steps[0]), steps[1..]);
    }
  }

  // ----- After the last change of the address -----

  /** The address is `ip`, and no write that changed it has its look at the flag still to come. */
  ghost predicate Settled(s: System, ip: string) {
    s.wan.current == Some(ip) && forall id | id in s.wan.writes :: !s.wan.writes[id].changed
  }

  ghost predicate OnlySees(steps: seq<Step>, ip: string) {
    forall step | step in steps :: step.Observe? ==> step.ip == ip
  }

  function DnsSteps(steps: seq<Step>): seq<D.Step> {
    if steps == [] then []
    else (if steps[0].Dns? then [steps[0].step] else []) + DnsSteps(steps[1..])
  }

  lemma SettledStep(s: System, step: Step, ip: string)
    requires Settled(s, ip) && Enabled(s, step) && (step.Observe? ==> step.ip == ip)
    ensures Settled(Exec(s, step), ip)
    ensures Exec(s, step).dns == if step.Dns? then D.Exec(s.dns, step.step, ip) else s.dns
  {
  }

  /** From then on a run is, for the endpoints, a run at a fixed address. */
  lemma {:induction false} SettledRunProjects(s: System, steps: seq<Step>, ip: string)
    requires Settled(s, ip) && CanRun(s, steps) && OnlySees(steps, ip)
    ensures D.CanRun(s.dns, DnsSteps(steps), ip) && Run(s, steps).dns == D.Run(s.dns, DnsSteps(steps), ip)
    decreases steps
  {
    if steps != [] {
      var s1 := Exec(s, steps[0]);
      SettledStep(s, steps[0], ip);
      SettledRunProjects(s1, steps[1..], ip);
      if steps[0].Dns? {
        D.RunCons(s.dns, steps[0].step, DnsSteps(steps[1..]), ip);
      } else {
        assert DnsSteps(steps) == DnsSteps(steps[1..]);
      }
    }
  }

  /** Each managed endpoint gets one reconcile that reads its current spec, and whose patch, if any, lands. */
  ghost predicate AllReconciled(dns: D.System, steps: seq<D.Step>, ip: string) {
    D.CanRun(dns, steps, ip)
    && forall name | name in dns.endpoints && dns.endpoints[name].annotation == Some("true") ::
         D.ReconciledDuring(dns, steps, ip, name)
  }

  /**
   Address changes reach the endpoints. From startup, through any polls, notifications, fan-outs
   and reconciles in any interleaving: once the address stays at `ip`, the fan-outs started
   for changes are done, and each managed endpoint has then been reconciled once, every
   managed A record targets exactly `ip`.
   */
  lemma AddressReachesEndpoints(startup: Option<string>, endpoints: map<string, D.DnsEndpoint>,
                                before: seq<Step>, after: seq<Step>, ip: string)
    requires CanRun(Initial(startup, endpoints), before)
    requires
      var s := Run(Initial(startup, endpoints), before);
      && Settled(s, ip) && D.Leftover(s.dns) == 0
      && CanRun(s, after) && OnlySees(after, ip) && AllReconciled(s.dns, DnsSteps(after), ip)
    ensures D.Converged(Run(Run(Initial(startup, endpoints), before), after).dns, ip)
  {
    RunKeepsUndisturbed(Initial(startup, endpoints), before);
    var s := Run(Initial(startup, endpoints), before);
    SettledRunProjects(s, after, ip);
    D.QuietRunConverges(s.dns, DnsSteps(after), ip);
  }

  /** Whatever runs, from startup, a DNSEndpoint whose annotation is not "true" is left exactly as it was. */
  lemma UnmanagedIsLeftAlone(startup: Option<string>, endpoints: map<string, D.DnsEndpoint>, steps: seq<Step>,
                             name: string)
    requires CanRun(Initial(startup, endpoints), steps)
    requires name in endpoints && endpoints[name].annotation != Some("true")
    ensures
      var endpoints' := Run(Initial(startup, endpoints), steps).dns.endpoints;
      name in endpoints' && endpoints'[name] == endpoints[name]
  {
    RunLeavesUnmanaged(Initial(startup, endpoints), steps, name);
  }

  lemma {:induction false} RunLeavesUnmanaged(s: System, steps: seq<Step>, name: string)
    requires D.Undisturbed(s.dns) && CanRun(s, steps)
    requires name in s.dns.endpoints && s.dns.endpoints[name].annotation != Some("true")
    ensures
      var dns' := Run(s, steps).dns;
      name in dns'.endpoints && dns'.endpoints[name] == s.dns.endpoints[name]
    decreases steps
  {
    if steps != [] {
      var s1 := Exec(s, steps[0]);
      StepKeepsUndisturbed(s, steps[0]);
      if steps[0].Dns? {
        D.StepLeavesUnmanaged(s.dns, steps[0].step, s.wan.current.value, name);
      }
      RunLeavesUnmanaged(s1, steps[1..], name);
    }
  }

  /** In every other, names, types and lifetimes of records stay, and so do the targets of all but A records. */
  lemma {:induction false} OnlyATargetsChange(s: System, steps: seq<Step>, name: string)
    requires D.Undisturbed(s.dns) && CanRun(s, steps) && name in s.dns.endpoints
    ensures
      var endpoints' := Run(s, steps).dns.endpoints;
      && name in endpoints' && endpoints'[name].annotation == s.dns.endpoints[name].annotation
      && D.Alike(s.dns.endpoints[name].spec, endpoints'[name].spec)
    decreases steps
  {
    if steps != [] {
      var s1 := Exec(s, steps[0]);
      StepKeepsUndisturbed(s, steps[0]);
      if steps[0].Dns? {
        D.StepKeepsAlike(s.dns, steps[0].step, s.wan.current.value, name);
      }
      assert D.Alike(s.dns.endpoints[name].spec, s1.dns.endpoints[name].spec);
      OnlyATargetsChange(s1, steps[1..], name);
    }
  }

  /** A writer that looks at the flag starts the fan-outs its accounting says: one with its address, or none. */
  lemma FanoutsMatchAccounting(s: System, id: nat)
    requires Enabled(s, Finish(id)) && WritesInLog(s)
    ensures
      var w, s' := s.wan.writes[id], Exec(s, Finish(id));
      var started := s'.wan.fanouts[w.index] - s.wan.fanouts[w.index];
      && started == (if w.changed && s.wan.active then 1 else 0)
      && s'.dns.fanouts == s.dns.fanouts + (if started == 1 then [D.ToList(s.wan.log[w.index])] else [])
      && s'.dns.endpoints == s.dns.endpoints && s'.dns.pending == s.dns.pending
  {
    assert s.dns.fanouts + [] == s.dns.fanouts;
  }

  /** A change of the address leaves the reconciles under way with the one they have read. */
  lemma OvertakenReconcileKeepsAddress(s: System, id: nat, ip: string, stale: seq<nat>, r: nat)
    requires Enabled(s, Observe(id, ip, stale)) && s.wan.current.Some? && s.wan.current != Some(ip)
    requires r in s.dns.pending
    ensures
      var dns' := Exec(s, Observe(id, ip, stale)).dns;
      dns'.pending == map[] && exists f ::
        0 <= f < |dns'.fanouts| && dns'.fanouts[f] == D.Patching(s.wan.current.value, [s.dns.pending[r]])
  {
    var dns' := Exec(s, Observe(id, ip, stale)).dns;
    var k :| 0 <= k < |stale| && stale[k] == r;
    assert dns'.fanouts[|s.dns.fanouts| + k] == D.Patching(s.wan.current.value, [s.dns.pending[r]]);
  }

  // ----- How much a change of the address can still set off -----

  /** Changing writes that may still start a fan-out. */
  function Coming(s: System): set<nat> {
    set id | id in s.wan.writes && s.wan.writes[id].changed
  }

  function Weight(s: System, ip: string): nat {
    var n := |s.dns.endpoints| + 1;
    D.Weight(s.dns, ip) + |Coming(s)| * (n * n)
  }

  lemma {:induction false} BudgetSnoc(fanouts: seq<D.Fanout>, fan: D.Fanout, endpoints: nat)
    ensures D.Budget(fanouts + [fan], endpoints) == D.Budget(fanouts, endpoints) + D.Cost(fan, endpoints)
  {
    if fanouts == [] {
      assert (fanouts + [fan])[1..] == [];
    } else {
      assert (fanouts + [fan])[1..] == fanouts[1..] + [fan];
      BudgetSnoc(fanouts[1..], fan, endpoints);
    }
  }

  /** A changing write that finishes is one less to come, and starts at most one fan-out. */
  lemma FinishTrades(s: System, id: nat)
    requires Enabled(s, Finish(id)) && s.wan.writes[id].changed
    ensures
      var s' := Exec(s, Finish(id));
      && |Coming(s')| == |Coming(s)| - 1
      && D.Leftover(s'.dns) <= D.Leftover(s.dns) + |s.dns.endpoints| + 1
  {
    var s' := Exec(s, Finish(id));
    assert Coming(s') == Coming(s) - {id} && id in Coming(s);
    BudgetSnoc(s.dns.fanouts, D.ToList(Written(s.wan, s.wan.writes[id])), |s.dns.endpoints|);
  }

  lemma FinishKeepsEndpoints(s: System, id: nat, ip: string)
    requires Enabled(s, Finish(id))
    ensures
      var s' := Exec(s, Finish(id));
      && s'.dns.endpoints == s.dns.endpoints && D.Wrong(s'.dns, ip) == D.Wrong(s.dns, ip)
      && (!s.wan.writes[id].changed ==> s'.dns == s.dns && Coming(s') == Coming(s))
  {
  }

  lemma WeightIs(s: System, ip: string, n: nat, leftover: nat, coming: nat)
    requires n == |s.dns.endpoints| + 1 && leftover == D.Leftover(s.dns) && coming == |Coming(s)|
    ensures Weight(s, ip) == leftover * n + |D.Wrong(s.dns, ip)| + coming * (n * n)
  {
  }

  lemma FinishKeepsWeight(s: System, id: nat, ip: string)
    requires Enabled(s, Finish(id))
    ensures Weight(Exec(s, Finish(id)), ip) <= Weight(s, ip)
    ensures Exec(s, Finish(id)).dns.endpoints == s.dns.endpoints
  {
    var s' := Exec(s, Finish(id));
    var n := |s.dns.endpoints| + 1;
    FinishKeepsEndpoints(s, id, ip);
    WeightIs(s, ip, n, D.Leftover(s.dns), |Coming(s)|);
    WeightIs(s', ip, n, D.Leftover(s'.dns), |Coming(s')|);
    if s.wan.writes[id].changed {
      FinishTrades(s, id);
      Trade(D.Leftover(s.dns), D.Leftover(s'.dns), |Coming(s)|, |Coming(s')|, n);
    }
  }

  lemma Trade(before: nat, now: nat, coming: nat, coming': nat, n: nat)
    requires now <= before + n && coming == coming' + 1
    ensures now * n + coming' * (n * n) <= before * n + coming * (n * n)
  {
    assert now * n <= (before + n) * n == before * n + n * n;
    assert coming' * (n * n) + n * n == coming * (n * n);
  }

  lemma StepLowersWeight(s: System, step: Step, ip: string)
    requires D.Undisturbed(s.dns) && s.wan.current == Some(ip)
    requires Enabled(s, step) && Genuine(s, step) && (step.Observe? ==> step.ip == ip)
    ensures
      var s' := Exec(s, step);
      && s'.wan.current == Some(ip) && Weight(s', ip) <= Weight(s, ip)
      && (s'.dns.endpoints != s.dns.endpoints ==> Weight(s', ip) < Weight(s, ip))
  {
    match step {
      case Observe(_, _, _) => assert Coming(Exec(s, step)) == Coming(s);
      case Finish(id) => FinishKeepsWeight(s, id, ip);
      case SetActive(_) => assert Coming(Exec(s, step)) == Coming(s);
      case Dns(d) =>
        D.StepLowersWeight(s.dns, d, ip);
        D.PatchesLowerMeasure(s.dns, d, ip);
        assert |Exec(s, step).dns.endpoints.Keys| == |s.dns.endpoints.Keys|;
        assert Coming(Exec(s, step)) == Coming(s);
    }
  }

  /** How many steps of a run change an endpoint. */
  ghost function Changes(s: System, steps: seq<Step>): nat
    requires CanRun(s, steps)
    decreases steps
  {
    if steps == [] then 0
    else
      var s' := Exec(s, steps[0]);
      (if s'.dns.endpoints == s.dns.endpoints then 0 else 1) + Changes(s', steps[1..])
  }

  /**
   After the last change of the address, with fan-outs still to be started, under way and done,
   only so many patches can change an endpoint.
   */
  lemma {:induction false} ChangesAreBounded(s: System, steps: seq<Step>, ip: string)
    requires D.Undisturbed(s.dns) && s.wan.current == Some(ip) && CanRun(s, steps) && OnlySees(steps, ip)
    ensures Changes(s, steps) + Weight(Run(s, steps), ip) <= Weight(s, ip)
    decreases steps
  {
    if steps != [] {
      StepKeepsUndisturbed(s, steps[0]);
      StepLowersWeight(s, steps[0], ip);
      ChangesAreBounded(Exec(s, steps[0]), steps[1..], ip);
    }
  }

  // ----- When a right endpoint can be undone -----

  ghost predicate WritesInLog(s: System) {
    forall id | id in s.wan.writes :: s.wan.writes[id].index < |s.wan.log|
  }

  /** A write that changed the address to something else may still start a fan-out with it. */
  ghost predicate OtherComing(s: System, ip: string) {
    exists id :: id in s.wan.writes && s.wan.writes[id].changed && Written(s.wan, s.wan.writes[id]) != ip
  }

  /** As long as the address stays at `ip`, the endpoint stays right, whatever is under way. */
  ghost predicate StaysRight(s: System, ip: string, name: string) {
    forall steps | CanRun(s, steps) && OnlySees(steps, ip) :: D.Right(Run(s, steps).dns, ip, name)
  }

  ghost predicate Safe(s: System, ip: string, name: string) {
    && D.Undisturbed(s.dns) && s.wan.current == Some(ip) && WritesInLog(s)
    && D.Right(s.dns, ip, name) && !D.Threatened(s.dns, ip, name) && !OtherComing(s, ip)
  }

  lemma StepKeepsOtherAway(s: System, step: Step, ip: string)
    requires s.wan.current == Some(ip) && WritesInLog(s) && !OtherComing(s, ip)
    requires Enabled(s, step) && (step.Observe? ==> step.ip == ip)
    ensures Exec(s, step).wan.current == Some(ip) && WritesInLog(Exec(s, step)) && !OtherComing(Exec(s, step), ip)
  {
    var s' := Exec(s, step);
    forall id | id in s'.wan.writes && s'.wan.writes[id].changed
      ensures Written(s'.wan, s'.wan.writes[id]) == ip
    {
      assert id in s.wan.writes && s'.wan.writes[id] == s.wan.writes[id];
      assert Written(s'.wan, s.wan.writes[id]) == Written(s.wan, s.wan.writes[id]);
    }
  }

  lemma StepKeepsSafe(s: System, step: Step, ip: string, name: string)
    requires Safe(s, ip, name) && Enabled(s, step) && Genuine(s, step) && (step.Observe? ==> step.ip == ip)
    ensures Safe(Exec(s, step), ip, name)
  {
    var dns' := Exec(s, step).dns;
    StepKeepsUndisturbed(s, step);
    StepKeepsOtherAway(s, step, ip);
    if step.Dns? {
      D.StepKeepsUnthreatened(s.dns, step.step, ip, name);
      D.UnthreatenedStepKeepsRight(s.dns, step.step, ip, name);
    } else {
      forall f | 0 <= f < |dns'.fanouts|
        ensures !D.Threatens(dns'.fanouts[f], ip, name)
      {
        if f < |s.dns.fanouts| {
          assert dns'.fanouts[f] == s.dns.fanouts[f];
        }
      }
    }
  }

  lemma {:induction false} SafeStaysRight(s: System, steps: seq<Step>, ip: string, name: string)
    requires Safe(s, ip, name) && CanRun(s, steps) && OnlySees(steps, ip)
    ensures D.Right(Run(s, steps).dns, ip, name)
    decreases steps
  {
    if steps != [] {
      StepKeepsSafe(s, steps[0], ip, name);
      SafeStaysRight(Exec(s, steps[0]), steps[1..], ip, name);
    }
  }

  lemma RunCons(s: System, step: Step, steps: seq<Step>)
    requires Enabled(s, step) && Genuine(s, step) && CanRun(Exec(s, step), steps)
    ensures CanRun(s, [step] + steps) && Run(s, [step] + steps) == Run(Exec(s, step), steps)
  {
    assert ([step] + steps)[1..] == steps;
  }

  /** What the endpoints can go through at a fixed address, they can go through here. */
  lemma {:induction false} RunLifts(s: System, dsteps: seq<D.Step>, ip: string) returns (steps: seq<Step>)
    requires s.wan.current == Some(ip) && D.CanRun(s.dns, dsteps, ip)
    ensures CanRun(s, steps) && OnlySees(steps, ip) && Run(s, steps).dns == D.Run(s.dns, dsteps, ip)
    decreases dsteps
  {
    if dsteps == [] {
      steps := [];
    } else {
      var rest := RunLifts(Exec(s, Dns(dsteps[0])), dsteps[1..], ip);
      RunCons(s, Dns(dsteps[0]), rest);
      steps := [Dns(dsteps[0])] + rest;
    }
  }

  lemma ComingUndoes(s: System, ip: string, name: string) returns (steps: seq<Step>)
    requires D.Undisturbed(s.dns) && s.wan.current == Some(ip) && OtherComing(s, ip)
    requires name in s.dns.endpoints && s.dns.endpoints[name].annotation == Some("true")
    requires D.HasARecord(s.dns.endpoints[name].spec)
    ensures CanRun(s, steps) && OnlySees(steps, ip) && !D.Right(Run(s, steps).dns, ip, name)
  {
    var id :| id in s.wan.writes && s.wan.writes[id].changed && Written(s.wan, s.wan.writes[id]) != ip;
    var s1 := Exec(s, SetActive(true));
    var s2 := Exec(s1, Finish(id));
    StepKeepsUndisturbed(s, SetActive(true));
    StepKeepsUndisturbed(s1, Finish(id));
    var f := |s.dns.fanouts|;
    assert s2.dns.fanouts[f] == D.ToList(Written(s.wan, s.wan.writes[id]));
    var dsteps := D.FanoutUndoes(s2.dns, f, ip, name);
    var rest := RunLifts(s2, dsteps, ip);
    RunCons(s1, Finish(id), rest);
    RunCons(s, SetActive(true), [Finish(id)] + rest);
    steps := [SetActive(true)] + ([Finish(id)] + rest);
  }

  /**
   In every run from startup: while the address stays, a right endpoint that is managed and has
   an A record stays right if and only if no fan-out with another address has yet to list or to
   patch it, and none is still to be started by a write that set another address.
   */
  lemma StaysRightIff(startup: Option<string>, endpoints: map<string, D.DnsEndpoint>, before: seq<Step>,
                      ip: string, name: string)
    requires CanRun(Initial(startup, endpoints), before)
    requires
      var s := Run(Initial(startup, endpoints), before);
      && s.wan.current == Some(ip) && D.Right(s.dns, ip, name)
      && s.dns.endpoints[name].annotation == Some("true") && D.HasARecord(s.dns.endpoints[name].spec)
    ensures
      var s := Run(Initial(startup, endpoints), before);
      StaysRight(s, ip, name) <==> !D.Threatened(s.dns, ip, name) && !OtherComing(s, ip)
  {
    RunKeepsUndisturbed(Initial(startup, endpoints), before);
    RunKeepsWritesInLog(Initial(startup, endpoints), before);
    var s := Run(Initial(startup, endpoints), before);
    if D.Threatened(s.dns, ip, name) {
      var f :| 0 <= f < |s.dns.fanouts| && D.Threatens(s.dns.fanouts[f], ip, name);
      var dsteps := D.FanoutUndoes(s.dns, f, ip, name);
      var steps := RunLifts(s, dsteps, ip);
    } else if OtherComing(s, ip) {
      var steps := ComingUndoes(s, ip, name);
    } else {
      forall steps | CanRun(s, steps) && OnlySees(steps, ip)
        ensures D.Right(Run(s, steps).dns, ip, name)
      {
        SafeStaysRight(s, steps, ip, name);
      }
    }
  }

  lemma {:induction false} RunKeepsWritesInLog(s: System, steps: seq<Step>)
    requires WritesInLog(s) && CanRun(s, steps)
    ensures WritesInLog(Run(s, steps))
    decreases steps
  {
    if steps != [] {
      RunKeepsWritesInLog(Exec(s, steps[0]), steps[1..]);
    }
  }

  // ----- A run from startup that undoes one -----

  function OneEndpoint(targets: seq<string>): map<string, D.DnsEndpoint> {
    map["e" := D.DnsEndpoint(Some("true"), [D.Endpoint("home", "A", None, targets)])]
  }

  /** A write finishes, and the fan-out it starts, the `f`-th, lists and patches the endpoint. */
  function FanoutSteps(id: nat, f: nat): seq<Step> {
    [Finish(id), Dns(D.List(f, ["e"], true)), Dns(D.PatchNext(f, true))]
  }

  /** After two writes, both still to look at the flag. */
  function BothWritten(x: string, y: string): System {
    var writes := map[0 := W.Write(0, true), 1 := W.Write(1, true)];
    System(W.System(None, Some(y), 2, [x, y], writes, true, map[], multiset{}), D.System(OneEndpoint([]), [], map[]))
  }

  lemma SecondWrite(x: string, y: string)
    requires x != y
    ensures
      var wan := W.System(None, Some(x), 1, [x], map[0 := W.Write(0, true)], true, map[], multiset{});
      var s := System(wan, D.System(OneEndpoint([]), [], map[]));
      Enabled(s, Observe(1, y, [])) && Exec(s, Observe(1, y, [])) == BothWritten(x, y)
  {
    var wan := W.System(None, Some(x), 1, [x], map[0 := W.Write(0, true)], true, map[], multiset{});
    var s := System(wan, D.System(OneEndpoint([]), [], map[]));
    assert [x] + [y] == [x, y];
    assert Exec(s, Observe(1, y, [])).wan.writes == BothWritten(x, y).wan.writes;
    assert Exec(s, Observe(1, y, [])).dns.fanouts == [];
  }

  lemma BothWrite(x: string, y: string)
    requires x != y
    ensures
      var steps := [SetActive(true), Observe(0, x, []), Observe(1, y, [])];
      && CanRun(Initial(None, OneEndpoint([])), steps)
      && Run(Initial(None, OneEndpoint([])), steps) == BothWritten(x, y)
  {
    var s := Initial(None, OneEndpoint([]));
    var s1 := Exec(s, SetActive(true));
    var s2 := Exec(s1, Observe(0, x, []));
    assert s2 == System(W.System(None, Some(x), 1, [x], map[0 := W.Write(0, true)], true, map[], multiset{}), s.dns);
    SecondWrite(x, y);
    RunCons(s2, Observe(1, y, []), []);
    RunCons(s1, Observe(0, x, []), [Observe(1, y, [])]);
    RunCons(s, SetActive(true), [Observe(0, x, []), Observe(1, y, [])]);
  }

  /** One endpoint, with the fan-outs under way. */
  function OneSystem(wan: W.System, targets: seq<string>, fanouts: seq<D.Fanout>): System {
    System(wan, D.System(OneEndpoint(targets), fanouts, map[]))
  }

  lemma FanoutLists(wan: W.System, targets: seq<string>, fanouts: seq<D.Fanout>, ip: string)
    requires wan.current.Some?
    ensures
      var s := OneSystem(wan, targets, fanouts + [D.ToList(ip)]);
      var list := Dns(D.List(|fanouts|, ["e"], true));
      && Enabled(s, list) && Genuine(s, list)
      && Exec(s, list) == OneSystem(wan, targets, fanouts + [D.Patching(ip, [("e", OneEndpoint(targets)["e"].spec)])])
  {
    var s := OneSystem(wan, targets, fanouts + [D.ToList(ip)]);
    var items := [("e", OneEndpoint(targets)["e"].spec)];
    assert |s.dns.endpoints| == 1;
    var fanouts' := Exec(s, Dns(D.List(|fanouts|, ["e"], true))).dns.fanouts;
    assert fanouts'[|fanouts|].items == items;
    assert fanouts' == fanouts + [D.Patching(ip, items)];
  }

  lemma FanoutPatches(wan: W.System, targets: seq<string>, fanouts: seq<D.Fanout>, ip: string)
    requires wan.current.Some?
    ensures
      var s := OneSystem(wan, targets, fanouts + [D.Patching(ip, [("e", OneEndpoint(targets)["e"].spec)])]);
      var patch := Dns(D.PatchNext(|fanouts|, true));
      Enabled(s, patch) && Genuine(s, patch) && Exec(s, patch) == OneSystem(wan, [ip], fanouts + [D.Patching(ip, [])])
  {
    var spec := OneEndpoint(targets)["e"].spec;
    var s := OneSystem(wan, targets, fanouts + [D.Patching(ip, [("e", spec)])]);
    var dns' := Exec(s, Dns(D.PatchNext(|fanouts|, true))).dns;
    assert D.PatchedSpec(spec, ip) == OneEndpoint([ip])["e"].spec;
    assert [("e", spec)][1..] == [];
    assert dns'.fanouts[|fanouts|] == D.Patching(ip, []);
    assert dns'.fanouts == fanouts + [D.Patching(ip, [])];
    assert dns'.endpoints == OneEndpoint([ip]);
  }

  lemma WriteFansOut(wan: W.System, targets: seq<string>, fanouts: seq<D.Fanout>, id: nat, ip: string)
    requires wan.current.Some? && wan.active && id in wan.writes && wan.writes[id].changed
    requires Written(wan, wan.writes[id]) == ip
    ensures
      var s, steps := OneSystem(wan, targets, fanouts), FanoutSteps(id, |fanouts|);
      && CanRun(s, steps)
      && Run(s, steps) == OneSystem(W.Exec(wan, W.Finish(id)), [ip], fanouts + [D.Patching(ip, [])])
  {
    var wan' := W.Exec(wan, W.Finish(id));
    var items := [("e", OneEndpoint(targets)["e"].spec)];
    var s := OneSystem(wan, targets, fanouts);
    var s1 := OneSystem(wan', targets, fanouts + [D.ToList(ip)]);
    var s2 := OneSystem(wan', targets, fanouts + [D.Patching(ip, items)]);
    var list, patch := Dns(D.List(|fanouts|, ["e"], true)), Dns(D.PatchNext(|fanouts|, true));
    assert Exec(s, Finish(id)) == s1;
    FanoutLists(wan', targets, fanouts, ip);
    FanoutPatches(wan', targets, fanouts, ip);
    RunCons(s2, patch, []);
    RunCons(s1, list, [patch] + []);
    RunCons(s, Finish(id), [list] + ([patch] + []));
    assert FanoutSteps(id, |fanouts|) == [Finish(id)] + ([list] + ([patch] + []));
  }

  /**
   The lock is released before the fan-out, so a fan-out can be overtaken: from startup, the address
   becomes `x` and then `y`, the endpoint is patched to `y`, and then the late fan-out for `x`
   patches it back, with the address still at `y`.
   */
  lemma LateFanoutUndoes(x: string, y: string)
    requires x != y
    ensures
      var start, writes := Initial(None, OneEndpoint([])), [SetActive(true), Observe(0, x, []), Observe(1, y, [])];
      && CanRun(start, writes)
      && var written := Run(start, writes);
      && CanRun(written, FanoutSteps(1, 0))
      && var right := Run(written, FanoutSteps(1, 0));
      && right.wan.current == Some(y) && D.Right(right.dns, y, "e") && CanRun(right, FanoutSteps(0, 1))
      && var undone := Run(right, FanoutSteps(0, 1));
      && undone.wan.current == Some(y) && undone.dns.endpoints == OneEndpoint([x]) && !D.Right(undone.dns, y, "e")
  {
    BothWrite(x, y);
    var wan := BothWritten(x, y).wan;
    WriteFansOut(wan, [], [], 1, y);
    assert [] + [D.Patching(y, [])] == [D.Patching(y, [])];
    WriteFansOut(W.Exec(wan, W.Finish(1)), [y], [D.Patching(y, [])], 0, x);
    OneIsRight(x, y);
    OneIsRight(y, y);
  }

  lemma OneIsRight(x: string, y: string)
    ensures D.TargetsCorrect(OneEndpoint([x])["e"].spec, y) <==> x == y
  {
    assert [x] == [y] <==> x == y by {
      assert [x][0] == x && [y][0] == y;
    }
    assert OneEndpoint([x])["e"].spec[0].targets == [x];
  }
}
