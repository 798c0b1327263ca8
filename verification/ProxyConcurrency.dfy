/**
 The proxy manager under concurrent calls. `ensure_proxy` takes the lock three times, with a
 bind in between, so a run interleaves the blocks below in any order the calls allow.
 */
module ProxyConcurrency {
  import opened Wrappers
  import opened Text
  import opened PortMappings
  import opened Proxies

  /** How far an `ensure_proxy` call has come; `was` is the entry its stop removed, if any. */
  datatype Phase =
    | Entered
    | MustStop
    | MustBind(was: Option<Handle>)
    | Bound(handle: Handle, was: Option<Handle>)

  datatype Call =
    | EnsureCall(key: string, target: string, protocol: Protocol, phase: Phase)
    | StopCall(key: string)

  datatype System = System(ps: ProxyState, calls: map<nat, Call>)

  const INITIAL := System(ProxyState(map[], [], {}), map[])

  datatype Step =
    | CallEnsure(id: nat, key: string, target: string, protocol: Protocol)
    | CallStop(id: nat, key: string)
    | CheckRunning(id: nat)
    | StopOld(id: nat)
    | Bind(id: nat, port: Option<u16>)
    | InstallNew(id: nat)
    | StopKey(id: nat)

  predicate Enabled(s: System, step: Step) {
    match step
    case CallEnsure(id, _, _, _) => id !in s.calls
    case CallStop(id, _) => id !in s.calls
    case StopKey(id) => id in s.calls && s.calls[id].StopCall?
    case CheckRunning(id) => id in s.calls && s.calls[id].EnsureCall? && s.calls[id].phase.Entered?
    case StopOld(id) => id in s.calls && s.calls[id].EnsureCall? && s.calls[id].phase.MustStop?
    case Bind(id, _) => id in s.calls && s.calls[id].EnsureCall? && s.calls[id].phase.MustBind?
    case InstallNew(id) => id in s.calls && s.calls[id].EnsureCall? && s.calls[id].phase.Bound?
  }

  function Exec(s: System, step: Step): System
    requires Enabled(s, step)
  {
    match step
    case CallEnsure(id, key, target, protocol) =>
      s.(calls := s.calls[id := EnsureCall(key, target, protocol, Entered)])
    case CallStop(id, key) => s.(calls := s.calls[id := StopCall(key)])
    case CheckRunning(id) =>
      var c := s.calls[id];
      if Running(s.ps, c.key, c.target, c.protocol).Some? then s.(calls := s.calls - {id})
      else s.(calls := s.calls[id := c.(phase := MustStop)])
    case StopOld(id) =>
      var c := s.calls[id];
      var was := if c.key in s.ps.table then Some(s.ps.table[c.key]) else None;
      System(Stop(s.ps, c.key), s.calls[id := c.(phase := MustBind(was))])
    case Bind(id, None) => s.(calls := s.calls - {id})
    case Bind(id, Some(port)) =>
      var c := s.calls[id];
      var handle := Handle(port, c.target, c.protocol, |s.ps.loops|);
      System(Spawn(s.ps, port, c.target, c.protocol), s.calls[id := c.(phase := Bound(handle, c.phase.was))])
    case InstallNew(id) =>
      var c := s.calls[id];
      System(Install(s.ps, c.key, c.phase.handle), s.calls - {id})
    case StopKey(id) => System(Stop(s.ps, s.calls[id].key), s.calls - {id})
  }

  ghost predicate CanRun(s: System, steps: seq<Step>)
    decreases steps
  {
    steps == [] || (Enabled(s, steps[0]) && CanRun(Exec(s, steps[0]), steps[1..]))
  }

  ghost function Run(s: System, steps: seq<Step>): System
    requires CanRun(s, steps)
    decreases steps
  {
    if steps == [] then s else Run(Exec(s, steps[0]), steps[1..])
  }

  /** The key a step works on. */
  function KeyOf(s: System, step: Step): string
    requires Enabled(s, step)
  {
    if step.CallEnsure? || step.CallStop? then step.key else s.calls[step.id].key
  }

  // ----- No leak, in every interleaving -----

  datatype Owner = Entry(key: string) | InFlight(id: nat)

  ghost function HandleOf(s: System, o: Owner): Option<Handle> {
    match o
    case Entry(key) => if key in s.ps.table then Some(s.ps.table[key]) else None
    case InFlight(id) =>
      if id in s.calls && s.calls[id].EnsureCall? && s.calls[id].phase.Bound?
      then Some(s.calls[id].phase.handle) else None
  }

  ghost predicate Owns(s: System, o: Owner, loop: nat) {
    HandleOf(s, o).Some? && HandleOf(s, o).value.loop == loop
  }

  ghost predicate RunningOwned(s: System) {
    && (forall loop | loop in s.ps.told :: loop < |s.ps.loops|)
    && (forall loop: nat | loop < |s.ps.loops| && loop !in s.ps.told :: exists o :: Owns(s, o, loop))
  }

  ghost predicate Describes(s: System, o: Owner) {
    HandleOf(s, o).Some? ==>
      var h := HandleOf(s, o).value;
      h.loop < |s.ps.loops| && h.loop !in s.ps.told && s.ps.loops[h.loop] == Loop(h.port, h.target, h.protocol)
  }

  /** A loop is running exactly when something owns it, and its owner is unique and describes it. */
  ghost predicate OwnedOnce(s: System) {
    && RunningOwned(s)
    && (forall o :: Describes(s, o))
    && (forall o, o', loop | Owns(s, o, loop) && Owns(s, o', loop) :: o == o')
  }

  /** The loop that changes hands in a step, if any: the one just bound, or the one installed. */
  ghost function Moved(s: System, step: Step): nat
    requires Enabled(s, step)
  {
    if step.InstallNew? then s.calls[step.id].phase.handle.loop else |s.ps.loops|
  }

  /** Who owns that loop after the step. */
  ghost function Heir(s: System, step: Step): Owner
    requires Enabled(s, step)
  {
    if step.InstallNew? then Entry(KeyOf(s, step)) else InFlight(step.id)
  }

  lemma OwnerBefore(s: System, step: Step, o: Owner)
    requires OwnedOnce(s) && Enabled(s, step) && HandleOf(Exec(s, step), o).Some?
    ensures
      var h := HandleOf(Exec(s, step), o).value;
      if h.loop == Moved(s, step) then o == Heir(s, step) else HandleOf(s, o) == Some(h)
    ensures Describes(Exec(s, step), o)
  {
    assert Describes(s, o);
    var key := KeyOf(s, step);
    assert Describes(s, Entry(key));
    assert Describes(s, InFlight(step.id));
    if key in s.ps.table {
      assert Owns(s, Entry(key), s.ps.table[key].loop);
    }
    if step.InstallNew? {
      assert Owns(s, InFlight(step.id), Moved(s, step));
    }
    if HandleOf(s, o).Some? {
      assert Owns(s, o, HandleOf(s, o).value.loop);
    }
  }

  lemma OwnerAfter(s: System, step: Step, loop: nat) returns (o: Owner)
    requires OwnedOnce(s) && Enabled(s, step)
    requires var ps' := Exec(s, step).ps; loop < |ps'.loops| && loop !in ps'.told
    ensures Owns(Exec(s, step), o, loop)
  {
    if loop == Moved(s, step) {
      o := Heir(s, step);
    } else {
      o :| Owns(s, o, loop);
    }
  }

  lemma StepKeepsOwnedOnce(s: System, step: Step)
    requires OwnedOnce(s) && Enabled(s, step)
    ensures OwnedOnce(Exec(s, step))
  {
    var s' := Exec(s, step);
    assert forall loop | loop in s'.ps.told :: loop < |s'.ps.loops| by {
      assert Describes(s, Entry(KeyOf(s, step)));
    }
    forall loop: nat | loop < |s'.ps.loops| && loop !in s'.ps.told
      ensures exists o :: Owns(s', o, loop)
    {
      var o := OwnerAfter(s, step, loop);
    }
    forall o
      ensures Describes(s', o)
    {
      if HandleOf(s', o).Some? {
        OwnerBefore(s, step, o);
      }
    }
    forall o, o', loop | Owns(s', o, loop) && Owns(s', o', loop)
      ensures o == o'
    {
      OwnerBefore(s, step, o);
      OwnerBefore(s, step, o');
      assert loop != Moved(s, step) ==> Owns(s, o, loop) && Owns(s, o', loop);
    }
  }

  lemma {:induction false} RunKeepsOwnedOnce(s: System, steps: seq<Step>)
    requires OwnedOnce(s) && CanRun(s, steps)
    ensures OwnedOnce(Run(s, steps))
    decreases steps
  {
    if steps != [] {
      StepKeepsOwnedOnce(s, steps[0]);
      RunKeepsOwnedOnce(Exec(s, steps[0]), steps[1..]);
    }
  }

  /**
   In every interleaving, even of calls on one key, each loop not yet told to stop is owned
   by exactly one map entry or in-flight call; with no call in flight its port, target and
   protocol are those of its map entry.
   */
  lemma NoLeak(steps: seq<Step>, loop: nat)
    requires CanRun(INITIAL, steps)
    requires var ps := Run(INITIAL, steps).ps; loop < |ps.loops| && loop !in ps.told
    ensures
      var s := Run(INITIAL, steps);
      && (exists o :: Owns(s, o, loop) && forall o' :: Owns(s, o', loop) ==> o' == o)
      && (s.calls == map[] ==>
            exists key :: key in s.ps.table && s.ps.table[key]
              == Handle(s.ps.loops[loop].port, s.ps.loops[loop].target, s.ps.loops[loop].protocol, loop))
  {
    RunKeepsOwnedOnce(INITIAL, steps);
    var s := Run(INITIAL, steps);
    var o :| Owns(s, o, loop);
    assert Describes(s, o);
    assert s.calls == map[] ==> o.Entry? && o.key in s.ps.table;
  }

  /** Conversely, no map entry is left pointing at a loop that was told to stop. */
  lemma EntryIsRunning(steps: seq<Step>, key: string)
    requires CanRun(INITIAL, steps) && key in Run(INITIAL, steps).ps.table
    ensures
      var ps := Run(INITIAL, steps).ps;
      var h := ps.table[key];
      h.loop < |ps.loops| && h.loop !in ps.told && ps.loops[h.loop] == Loop(h.port, h.target, h.protocol)
  {
    RunKeepsOwnedOnce(INITIAL, steps);
    assert Describes(Run(INITIAL, steps), Entry(key));
  }

  /** When no call is in flight, entries and running loops are in bijection. */
  lemma QuietIsTidy(steps: seq<Step>)
    requires CanRun(INITIAL, steps) && Run(INITIAL, steps).calls == map[]
    ensures Tidy(Run(INITIAL, steps).ps)
  {
    RunKeepsOwnedOnce(INITIAL, steps);
    var s := Run(INITIAL, steps);
    forall key | key in s.ps.table
      ensures Owns(s, Entry(key), s.ps.table[key].loop) && Describes(s, Entry(key))
    {
    }
    forall loop: nat | loop < |s.ps.loops| && loop !in s.ps.told
      ensures exists key :: Holds(s.ps, key, loop)
    {
      var o :| Owns(s, o, loop);
      assert Holds(s.ps, o.key, loop);
    }
  }

  // ----- Refinement of an atomic keyed table -----

  datatype Proxy = Proxy(port: u16, target: string, protocol: Protocol)

  /** `ensure_proxy` as one atomic operation on the table entry of its key. */
  function AtomicEnsure(entry: Option<Proxy>, target: string, protocol: Protocol, bind: Option<u16>)
    : (Option<Proxy>, Result<u16, ProxyError>)
  {
    if entry.Some? && entry.value.target == target && entry.value.protocol == protocol
    then (entry, Success(entry.value.port))
    else match bind
      case None => (None, Failure(BindFailed))
      case Some(port) => (Some(Proxy(port, target, protocol)), Success(port))
  }

  ghost predicate Exclusive(s: System) {
    forall id, id' | id in s.calls && id' in s.calls :: s.calls[id].key == s.calls[id'].key ==> id == id'
  }

  predicate Restarting(c: Call) {
    c.EnsureCall? && (c.phase.MustBind? || c.phase.Bound?)
  }

  ghost predicate Restarts(s: System, id: nat, key: string) {
    id in s.calls && Restarting(s.calls[id]) && s.calls[id].key == key
  }

  function AsProxy(h: Option<Handle>): Option<Proxy> {
    match h case None => None case Some(h) => Some(Proxy(h.port, h.target, h.protocol))
  }

  /** The atomic entry of a key: a call that is restarting its proxy has not taken effect yet. */
  ghost function View(s: System, key: string): Option<Proxy> {
    if exists id :: Restarts(s, id, key) then
      var id :| Restarts(s, id, key);
      AsProxy(s.calls[id].phase.was)
    else AsProxy(HandleOf(s, Entry(key)))
  }

  ghost predicate FindsItsKey(ps: ProxyState, c: Call) {
    c.EnsureCall? ==>
      && (c.phase.MustStop? ==> Running(ps, c.key, c.target, c.protocol).None?)
      && (Restarting(c) ==> c.key !in ps.table)
      && (Restarting(c) && c.phase.was.Some? ==> !Serves(c.phase.was.value, c.target, c.protocol))
      && (c.phase.Bound? ==> Serves(c.phase.handle, c.target, c.protocol))
  }

  /** While a call has its key to itself, nobody undoes what its check and its stop saw. */
  ghost predicate Undisturbed(s: System) {
    forall id | id in s.calls :: FindsItsKey(s.ps, s.calls[id])
  }

  /** The operation a step completes: the key, and what the call on it was given and returned. */
  datatype Effect =
    | Silent
    | EnsureDone(key: string, target: string, protocol: Protocol, bind: Option<u16>, result: Result<u16, ProxyError>)
    | StopDone(key: string)

  function EffectOf(s: System, step: Step): Effect
    requires Enabled(s, step)
  {
    match step
    case CheckRunning(id) =>
      var c := s.calls[id];
      (match Running(s.ps, c.key, c.target, c.protocol)
       case Some(port) => EnsureDone(c.key, c.target, c.protocol, None, Success(port))
       case None => Silent)
    case Bind(id, None) =>
      var c := s.calls[id];
      EnsureDone(c.key, c.target, c.protocol, None, Failure(BindFailed))
    case InstallNew(id) =>
      var c := s.calls[id];
      EnsureDone(c.key, c.target, c.protocol, Some(c.phase.handle.port), Success(c.phase.handle.port))
    case StopKey(id) => StopDone(s.calls[id].key)
    case _ => Silent
  }

  /** One step either changes no entry of the atomic table or is one atomic operation on it. */
  ghost predicate Refines(s: System, step: Step)
    requires Enabled(s, step)
  {
    var s' := Exec(s, step);
    match EffectOf(s, step)
    case Silent => forall key :: View(s', key) == View(s, key)
    case EnsureDone(key, target, protocol, bind, result) =>
      && (View(s', key), result) == AtomicEnsure(View(s, key), target, protocol, bind)
      && (forall other | other != key :: View(s', other) == View(s, other))
    case StopDone(key) =>
      && View(s', key) == None
      && (forall other | other != key :: View(s', other) == View(s, other))
  }

  lemma ViewOf(s: System, key: string, id: nat)
    requires Exclusive(s)
    requires Restarts(s, id, key)
    ensures View(s, key) == AsProxy(s.calls[id].phase.was)
  {
  }

  /** The calls other than the stepping one work on other keys. */
  lemma OthersWorkElsewhere(s: System, step: Step, id: nat)
    requires Exclusive(s) && Enabled(s, step) && Exclusive(Exec(s, step))
    requires id in s.calls && id != step.id
    ensures s.calls[id].key != KeyOf(s, step)
  {
    var s' := Exec(s, step);
    if step.id in s.calls {
      assert s.calls[step.id].key == KeyOf(s, step);
    } else {
      assert s'.calls[step.id].key == KeyOf(s, step) && s'.calls[id] == s.calls[id];
    }
  }

  lemma OtherKeysKeepTheirView(s: System, step: Step, key: string)
    requires Exclusive(s) && Enabled(s, step) && Exclusive(Exec(s, step))
    requires key != KeyOf(s, step)
    ensures View(Exec(s, step), key) == View(s, key)
  {
    var s' := Exec(s, step);
    assert forall id :: Restarts(s, id, key) <==> Restarts(s', id, key);
    if id :| Restarts(s, id, key) {
      ViewOf(s, key, id);
      ViewOf(s', key, id);
    }
  }

  lemma TableChangesOnlyAtKey(s: System, step: Step, key: string)
    requires Enabled(s, step) && key != KeyOf(s, step)
    ensures HandleOf(Exec(s, step), Entry(key)) == HandleOf(s, Entry(key))
  {
  }

  lemma OwnCallFindsItsKey(s: System, step: Step)
    requires Undisturbed(s) && Enabled(s, step) && step.id in Exec(s, step).calls
    ensures FindsItsKey(Exec(s, step).ps, Exec(s, step).calls[step.id])
  {
    if step.id in s.calls {
      assert FindsItsKey(s.ps, s.calls[step.id]);
    }
  }

  lemma StepKeepsUndisturbed(s: System, step: Step)
    requires Exclusive(s) && Undisturbed(s) && Enabled(s, step) && Exclusive(Exec(s, step))
    ensures Undisturbed(Exec(s, step))
  {
    var s' := Exec(s, step);
    forall id | id in s'.calls
      ensures FindsItsKey(s'.ps, s'.calls[id])
    {
      if id == step.id {
        OwnCallFindsItsKey(s, step);
      } else {
        assert id in s.calls && s'.calls[id] == s.calls[id] && FindsItsKey(s.ps, s.calls[id]);
        OthersWorkElsewhere(s, step, id);
        TableChangesOnlyAtKey(s, step, s.calls[id].key);
      }
    }
  }

  /** While nobody restarts the proxy of a key, its atomic entry is the entry of the table. */
  lemma SettledView(s: System, key: string)
    requires forall id | id in s.calls :: s.calls[id].key == key ==> !Restarting(s.calls[id])
    ensures View(s, key) == AsProxy(HandleOf(s, Entry(key)))
  {
  }

  ghost function OwnView(s: System, id: nat, key: string): Option<Proxy> {
    if Restarts(s, id, key) then AsProxy(s.calls[id].phase.was) else AsProxy(HandleOf(s, Entry(key)))
  }

  lemma ViewOfOwn(s: System, id: nat, key: string)
    requires Exclusive(s)
    requires forall other | other in s.calls && other != id :: s.calls[other].key != key
    ensures View(s, key) == OwnView(s, id, key)
  {
    if Restarts(s, id, key) {
      ViewOf(s, key, id);
    } else {
      SettledView(s, key);
    }
  }

  /** What the stepping call makes of the atomic entry of its own key. */
  lemma OwnViewMoves(s: System, step: Step)
    requires Undisturbed(s) && Enabled(s, step)
    ensures
      var key := KeyOf(s, step);
      var (was, now) := (OwnView(s, step.id, key), OwnView(Exec(s, step), step.id, key));
      match EffectOf(s, step)
      case Silent => now == was
      case EnsureDone(k, target, protocol, bind, result) =>
        k == key && (now, result) == AtomicEnsure(was, target, protocol, bind)
      case StopDone(k) => k == key && now == None
  {
    if step.id in s.calls {
      assert FindsItsKey(s.ps, s.calls[step.id]);
    }
  }

  lemma StepRefines(s: System, step: Step)
    requires Exclusive(s) && Undisturbed(s) && Enabled(s, step) && Exclusive(Exec(s, step))
    ensures Refines(s, step)
  {
    var s' := Exec(s, step);
    var mine := KeyOf(s, step);
    forall key | key != mine
      ensures View(s', key) == View(s, key)
    {
      OtherKeysKeepTheirView(s, step, key);
    }
    forall id | id in s.calls && id != step.id
      ensures s.calls[id].key != mine
    {
      OthersWorkElsewhere(s, step, id);
    }
    assert forall id | id in s'.calls && id != step.id :: s'.calls[id] == s.calls[id];
    ViewOfOwn(s, step.id, mine);
    ViewOfOwn(s', step.id, mine);
    OwnViewMoves(s, step);
  }

  ghost predicate AlwaysExclusive(s: System, steps: seq<Step>)
    requires CanRun(s, steps)
    decreases steps
  {
    Exclusive(s) && (steps != [] ==> AlwaysExclusive(Exec(s, steps[0]), steps[1..]))
  }

  ghost predicate AlwaysRefines(s: System, steps: seq<Step>)
    requires CanRun(s, steps)
    decreases steps
  {
    steps != [] ==> Refines(s, steps[0]) && AlwaysRefines(Exec(s, steps[0]), steps[1..])
  }

  lemma {:induction false} RunRefines(s: System, steps: seq<Step>)
    requires CanRun(s, steps) && AlwaysExclusive(s, steps) && Undisturbed(s)
    ensures AlwaysRefines(s, steps) && Undisturbed(Run(s, steps))
    decreases steps
  {
    if steps != [] {
      StepRefines(s, steps[0]);
      StepKeepsUndisturbed(s, steps[0]);
      RunRefines(Exec(s, steps[0]), steps[1..]);
    }
  }

  /** In every run where no two in-flight calls share a key, each step refines the atomic table. */
  lemma ExclusiveRunsRefineAtomicTable(steps: seq<Step>)
    requires CanRun(INITIAL, steps) && AlwaysExclusive(INITIAL, steps)
    ensures AlwaysRefines(INITIAL, steps)
  {
    RunRefines(INITIAL, steps);
  }

  predicate Calls(step: Step, key: string) {
    (step.CallEnsure? || step.CallStop?) && step.key == key
  }

  lemma RunCons(s: System, step: Step, steps: seq<Step>)
    requires Enabled(s, step) && CanRun(Exec(s, step), steps)
    ensures CanRun(s, [step] + steps) && Run(s, [step] + steps) == Run(Exec(s, step), steps)
  {
    assert ([step] + steps)[1..] == steps;
  }

  lemma {:induction false} RunAppends(s: System, first: seq<Step>, rest: seq<Step>)
    requires CanRun(s, first) && CanRun(Run(s, first), rest)
    ensures CanRun(s, first + rest) && Run(s, first + rest) == Run(Run(s, first), rest)
    decreases first
  {
    if first == [] {
      assert first + rest == rest;
    } else {
      assert first + rest == [first[0]] + (first[1..] + rest);
      RunAppends(Exec(s, first[0]), first[1..], rest);
      RunCons(s, first[0], first[1..] + rest);
    }
  }

  // ----- Exactly when an entry, and a returned port, stays -----

  /** A call that leaves an entry alone: it has only entered, and asks for what the entry serves. */
  predicate Harmless(c: Call, entry: Handle) {
    c.EnsureCall? && c.phase.Entered? && Serves(entry, c.target, c.protocol)
  }

  ghost predicate AllHarmless(s: System, key: string)
    requires key in s.ps.table
  {
    forall id | id in s.calls && s.calls[id].key == key :: Harmless(s.calls[id], s.ps.table[key])
  }

  ghost predicate NoCallOn(steps: seq<Step>, key: string) {
    forall step | step in steps :: !Calls(step, key)
  }

  /** In every continuation without a new call on the key, its entry stays the same handle. */
  ghost predicate EntryStays(s: System, key: string) {
    forall steps | CanRun(s, steps) && NoCallOn(steps, key) ::
      HandleOf(Run(s, steps), Entry(key)) == HandleOf(s, Entry(key))
  }

  /** In every such continuation `get_port` reports the same port for the key. */
  ghost predicate PortStays(s: System, key: string) {
    forall steps | CanRun(s, steps) && NoCallOn(steps, key) :: PortOf(Run(s, steps).ps, key) == PortOf(s.ps, key)
  }

  lemma HarmlessStep(s: System, step: Step, key: string)
    requires key in s.ps.table && AllHarmless(s, key) && Enabled(s, step) && !Calls(step, key)
    ensures HandleOf(Exec(s, step), Entry(key)) == HandleOf(s, Entry(key))
    ensures key in Exec(s, step).ps.table && AllHarmless(Exec(s, step), key)
  {
    if KeyOf(s, step) != key {
      TableChangesOnlyAtKey(s, step, key);
    } else {
      assert step.CheckRunning? && Harmless(s.calls[step.id], s.ps.table[key]);
    }
  }

  lemma {:induction false} HarmlessRun(s: System, steps: seq<Step>, key: string)
    requires key in s.ps.table && AllHarmless(s, key) && CanRun(s, steps) && NoCallOn(steps, key)
    ensures HandleOf(Run(s, steps), Entry(key)) == HandleOf(s, Entry(key))
    decreases steps
  {
    if steps != [] {
      HarmlessStep(s, steps[0], key);
      HarmlessRun(Exec(s, steps[0]), steps[1..], key);
    }
  }

  lemma RunOne(s: System, step: Step)
    requires Enabled(s, step)
    ensures CanRun(s, [step]) && Run(s, [step]) == Exec(s, step)
  {
    RunCons(s, step, []);
    assert [step] + [] == [step];
  }

  lemma RunTwo(s: System, step: Step, step': Step)
    requires Enabled(s, step) && Enabled(Exec(s, step), step')
    ensures CanRun(s, [step, step']) && Run(s, [step, step']) == Exec(Exec(s, step), step')
  {
    RunOne(Exec(s, step), step');
    RunCons(s, step, [step']);
    assert [step] + [step'] == [step, step'];
  }

  /** The steps by which a call that is not harmless changes the entry of its key. */
  function Disturbance(c: Call, id: nat, other: u16): seq<Step> {
    match c
    case StopCall(_) => [StopKey(id)]
    case EnsureCall(_, _, _, phase) =>
      match phase
      case Entered => [CheckRunning(id), StopOld(id)]
      case MustStop => [StopOld(id)]
      case MustBind(_) => [Bind(id, Some(other)), InstallNew(id)]
      case Bound(_, _) => [InstallNew(id)]
  }

  /** Stopping calls leave no entry. */
  lemma StopDisturbs(s: System, key: string, id: nat, other: u16)
    requires key in s.ps.table && id in s.calls && s.calls[id].key == key && !Harmless(s.calls[id], s.ps.table[key])
    requires s.calls[id].EnsureCall? ==> s.calls[id].phase.Entered? || s.calls[id].phase.MustStop?
    ensures
      var steps := Disturbance(s.calls[id], id, other);
      CanRun(s, steps) && HandleOf(Run(s, steps), Entry(key)) == None && PortOf(Run(s, steps).ps, key) == None
  {
    var c := s.calls[id];
    if c.StopCall? {
      RunOne(s, StopKey(id));
    } else if c.phase.MustStop? {
      RunOne(s, StopOld(id));
    } else {
      RunTwo(s, CheckRunning(id), StopOld(id));
    }
  }

  /** Calls past their stop install a handle of their own. */
  lemma InstallDisturbs(s: System, key: string, id: nat, other: u16)
    requires id in s.calls && s.calls[id].key == key && Restarting(s.calls[id])
    ensures
      var steps := Disturbance(s.calls[id], id, other);
      var handle := if s.calls[id].phase.Bound? then s.calls[id].phase.handle
                    else Handle(other, s.calls[id].target, s.calls[id].protocol, |s.ps.loops|);
      CanRun(s, steps) && HandleOf(Run(s, steps), Entry(key)) == Some(handle)
      && PortOf(Run(s, steps).ps, key) == Some(handle.port)
  {
    if s.calls[id].phase.Bound? {
      RunOne(s, InstallNew(id));
    } else {
      RunTwo(s, Bind(id, Some(other)), InstallNew(id));
    }
  }

  /**
   In every state a run can reach, the entry of a key stays in every continuation without a new
   call on the key if and only if every call in flight on it has only entered and asks for what
   the entry serves.
   */
  lemma EntryStaysIff(s: System, key: string)
    requires OwnedOnce(s) && key in s.ps.table
    ensures EntryStays(s, key) <==> AllHarmless(s, key)
  {
    var entry := s.ps.table[key];
    assert HandleOf(s, Entry(key)) == Some(entry) && Describes(s, Entry(key));
    if AllHarmless(s, key) {
      forall steps | CanRun(s, steps) && NoCallOn(steps, key)
        ensures HandleOf(Run(s, steps), Entry(key)) == HandleOf(s, Entry(key))
      {
        HarmlessRun(s, steps, key);
      }
    } else {
      var id :| id in s.calls && s.calls[id].key == key && !Harmless(s.calls[id], entry);
      var steps := Disturbance(s.calls[id], id, 0);
      assert NoCallOn(steps, key);
      if Restarting(s.calls[id]) {
        InstallDisturbs(s, key, id, 0);
        BoundLoopIsAnother(s, key, id);
      } else {
        StopDisturbs(s, key, id, 0);
      }
      assert CanRun(s, steps) && HandleOf(Run(s, steps), Entry(key)) != HandleOf(s, Entry(key));
    }
  }

  /** A call that has bound holds a loop of its own. */
  lemma BoundLoopIsAnother(s: System, key: string, id: nat)
    requires OwnedOnce(s) && key in s.ps.table && id in s.calls
    ensures
      s.calls[id].EnsureCall? && s.calls[id].phase.Bound? ==> s.calls[id].phase.handle.loop != s.ps.table[key].loop
  {
    var entry := s.ps.table[key];
    assert Owns(s, Entry(key), entry.loop);
    if s.calls[id].EnsureCall? && s.calls[id].phase.Bound? {
      assert Owns(s, InFlight(id), s.calls[id].phase.handle.loop);
    }
  }

  /** The operating system gave the calls in flight on the key ports other than the entry's. */
  ghost predicate BoundElsewhere(s: System, key: string)
    requires key in s.ps.table
  {
    forall id | id in s.calls && s.calls[id].key == key && s.calls[id].EnsureCall? && s.calls[id].phase.Bound? ::
      s.calls[id].phase.handle.port != s.ps.table[key].port
  }

  lemma PortStaysIff(s: System, key: string)
    requires key in s.ps.table && BoundElsewhere(s, key)
    ensures PortStays(s, key) <==> AllHarmless(s, key)
  {
    var entry := s.ps.table[key];
    if AllHarmless(s, key) {
      forall steps | CanRun(s, steps) && NoCallOn(steps, key)
        ensures PortOf(Run(s, steps).ps, key) == PortOf(s.ps, key)
      {
        HarmlessRun(s, steps, key);
        assert HandleOf(Run(s, steps), Entry(key)) == Some(entry);
      }
    } else {
      var id :| id in s.calls && s.calls[id].key == key && !Harmless(s.calls[id], entry);
      var other: u16 := if entry.port == 0 then 1 else 0;
      var steps := Disturbance(s.calls[id], id, other);
      assert NoCallOn(steps, key);
      if Restarting(s.calls[id]) {
        InstallDisturbs(s, key, id, other);
      } else {
        StopDisturbs(s, key, id, other);
      }
      assert CanRun(s, steps) && PortOf(Run(s, steps).ps, key) != PortOf(s.ps, key);
    }
  }

  /** A call that returns a port leaves the entry it speaks of, serving what it was asked for. */
  lemma ReturnedPortIsTheEntry(s: System, step: Step)
    requires Enabled(s, step) && EffectOf(s, step).EnsureDone? && EffectOf(s, step).result.Success?
    ensures
      var key := EffectOf(s, step).key;
      var s' := Exec(s, step);
      key in s'.ps.table && PortOf(s'.ps, key) == Some(EffectOf(s, step).result.value)
  {
  }

  /**
   In every run, when a call returns a port, `get_port` reports that port in every continuation
   without a new call on the key if and only if every call then in flight on the key has only
   entered and asks for what the entry serves; given that two bound sockets have two ports. The
   entry itself, and with it the loop that listens on the port, stays exactly then in any case.
   */
  lemma ReturnedPortStaysIff(steps: seq<Step>, step: Step)
    requires CanRun(INITIAL, steps) && Enabled(Run(INITIAL, steps), step)
    requires
      var effect := EffectOf(Run(INITIAL, steps), step);
      effect.EnsureDone? && effect.result.Success?
    ensures
      var effect := EffectOf(Run(INITIAL, steps), step);
      var s := Exec(Run(INITIAL, steps), step);
      && effect.key in s.ps.table && PortOf(s.ps, effect.key) == Some(effect.result.value)
      && (EntryStays(s, effect.key) <==> AllHarmless(s, effect.key))
      && (BoundElsewhere(s, effect.key) ==> (PortStays(s, effect.key) <==> AllHarmless(s, effect.key)))
  {
    RunKeepsOwnedOnce(INITIAL, steps);
    var s0 := Run(INITIAL, steps);
    var key := EffectOf(s0, step).key;
    StepKeepsOwnedOnce(s0, step);
    ReturnedPortIsTheEntry(s0, step);
    EntryStaysIff(Exec(s0, step), key);
    if BoundElsewhere(Exec(s0, step), key) {
      PortStaysIff(Exec(s0, step), key);
    }
  }

  /** In particular the port lasts when no other call in flight shares the key. */
  lemma ReturnedPortLasts(s: System, step: Step, steps: seq<Step>)
    requires Exclusive(s) && Enabled(s, step) && CanRun(Exec(s, step), steps)
    requires EffectOf(s, step).EnsureDone? && EffectOf(s, step).result.Success?
    requires NoCallOn(steps, EffectOf(s, step).key)
    ensures PortOf(Run(Exec(s, step), steps).ps, EffectOf(s, step).key) == Some(EffectOf(s, step).result.value)
  {
    var s' := Exec(s, step);
    assert s'.calls == s.calls - {step.id};
    HarmlessRun(s', steps, EffectOf(s, step).key);
    assert HandleOf(s', Entry(EffectOf(s, step).key)).Some?;
  }

  // ----- A call that runs alone -----

  /** The steps of a call that finds its proxy running, and of one that has to restart it. */
  function Lookup(key: string, target: string, protocol: Protocol): seq<Step> {
    [CallEnsure(0, key, target, protocol), CheckRunning(0)]
  }

  function RestartSteps(bind: Option<u16>): seq<Step> {
    if bind.Some? then [StopOld(0), Bind(0, bind), InstallNew(0)] else [StopOld(0), Bind(0, bind)]
  }

  /** The lookup ends the call when the proxy runs, and leaves it to stop otherwise. */
  lemma AloneLooksUp(ps: ProxyState, key: string, target: string, protocol: Protocol)
    ensures
      var s, steps := System(ps, map[]), Lookup(key, target, protocol);
      CanRun(s, steps)
      && Run(s, steps) == System(ps, if Running(ps, key, target, protocol).Some? then map[]
                                     else map[0 := EnsureCall(key, target, protocol, MustStop)])
  {
    var s := System(ps, map[]);
    var s1 := System(ps, map[0 := EnsureCall(key, target, protocol, Entered)]);
    var s2 := System(ps, if Running(ps, key, target, protocol).Some? then map[]
                         else map[0 := EnsureCall(key, target, protocol, MustStop)]);
    assert Exec(s, CallEnsure(0, key, target, protocol)) == s1;
    assert Exec(s1, CheckRunning(0)).calls == s2.calls;
    RunTwo(s, CallEnsure(0, key, target, protocol), CheckRunning(0));
  }

  /** Stopping what is there and binding a socket. */
  lemma AloneRebinds(ps: ProxyState, key: string, target: string, protocol: Protocol, bind: Option<u16>)
    ensures
      var s := System(ps, map[0 := EnsureCall(key, target, protocol, MustStop)]);
      var was := if key in ps.table then Some(ps.table[key]) else None;
      var stopped := Stop(ps, key);
      CanRun(s, [StopOld(0), Bind(0, bind)])
      && Run(s, [StopOld(0), Bind(0, bind)])
        == match bind
           case None => System(stopped, map[])
           case Some(port) =>
             System(Spawn(stopped, port, target, protocol),
                    map[0 := EnsureCall(key, target, protocol, Bound(Handle(port, target, protocol, |ps.loops|), was))])
  {
    var s := System(ps, map[0 := EnsureCall(key, target, protocol, MustStop)]);
    var was := if key in ps.table then Some(ps.table[key]) else None;
    var s3 := System(Stop(ps, key), map[0 := EnsureCall(key, target, protocol, MustBind(was))]);
    assert Exec(s, StopOld(0)) == s3;
    RunTwo(s, StopOld(0), Bind(0, bind));
    if bind.None? {
      assert Exec(s3, Bind(0, bind)).calls == map[];
    }
  }

  lemma AloneRestarts(ps: ProxyState, key: string, target: string, protocol: Protocol, bind: Option<u16>)
    requires Running(ps, key, target, protocol).None?
    ensures
      var s := System(ps, map[0 := EnsureCall(key, target, protocol, MustStop)]);
      CanRun(s, RestartSteps(bind))
      && Run(s, RestartSteps(bind)) == System(Ensure(ps, key, target, protocol, bind).0, map[])
  {
    AloneRebinds(ps, key, target, protocol, bind);
    if bind.Some? {
      var s := System(ps, map[0 := EnsureCall(key, target, protocol, MustStop)]);
      var bound := Run(s, [StopOld(0), Bind(0, bind)]);
      assert Exec(bound, InstallNew(0)).calls == map[];
      RunOne(bound, InstallNew(0));
      RunAppends(s, [StopOld(0), Bind(0, bind)], [InstallNew(0)]);
      assert [StopOld(0), Bind(0, bind)] + [InstallNew(0)] == RestartSteps(bind);
    }
  }

  /** A call that runs alone does what the sequential `Ensure` says. */
  lemma AloneIsSequential(ps: ProxyState, key: string, target: string, protocol: Protocol, bind: Option<u16>)
    ensures
      var s := System(ps, map[]);
      var steps := Lookup(key, target, protocol)
        + if Running(ps, key, target, protocol).Some? then [] else RestartSteps(bind);
      CanRun(s, steps) && Run(s, steps) == System(Ensure(ps, key, target, protocol, bind).0, map[])
  {
    AloneLooksUp(ps, key, target, protocol);
    if Running(ps, key, target, protocol).Some? {
      assert Lookup(key, target, protocol) + [] == Lookup(key, target, protocol);
    } else {
      AloneRestarts(ps, key, target, protocol, bind);
      RunAppends(System(ps, map[]), Lookup(key, target, protocol), RestartSteps(bind));
    }
  }

  // ----- Two calls on one key -----

  const FIRST := EnsureCall("k", "a", Tcp, Entered)
  const SECOND := EnsureCall("k", "b", Tcp, Entered)

  /** Both calls find no proxy under the key, and go on to the stop. */
  lemma BothMissTheKey()
    ensures
      var steps := [CallEnsure(0, "k", "a", Tcp), CallEnsure(1, "k", "b", Tcp), CheckRunning(0), CheckRunning(1)];
      && CanRun(INITIAL, steps)
      && Run(INITIAL, steps)
        == System(INITIAL.ps, map[0 := FIRST.(phase := MustStop), 1 := SECOND.(phase := MustStop)])
  {
    var s1 := System(INITIAL.ps, map[0 := FIRST]);
    var s2 := System(INITIAL.ps, map[0 := FIRST, 1 := SECOND]);
    var s3 := System(INITIAL.ps, map[0 := FIRST.(phase := MustStop), 1 := SECOND]);
    var s4 := System(INITIAL.ps, map[0 := FIRST.(phase := MustStop), 1 := SECOND.(phase := MustStop)]);
    assert Exec(s3, CheckRunning(1)) == s4;
    RunCons(s3, CheckRunning(1), []);
    assert Exec(s2, CheckRunning(0)) == s3;
    RunCons(s2, CheckRunning(0), [CheckRunning(1)]);
    assert Exec(s1, CallEnsure(1, "k", "b", Tcp)) == s2;
    RunCons(s1, CallEnsure(1, "k", "b", Tcp), [CheckRunning(0), CheckRunning(1)]);
    RunCons(INITIAL, CallEnsure(0, "k", "a", Tcp), [CallEnsure(1, "k", "b", Tcp), CheckRunning(0), CheckRunning(1)]);
  }

  /** The first call runs to its return, and then the second stops what it finds under the key. */
  lemma SecondStopsFirst(port: u16)
    ensures
      var s := System(INITIAL.ps, map[0 := FIRST.(phase := MustStop), 1 := SECOND.(phase := MustStop)]);
      && CanRun(s, [StopOld(0), Bind(0, Some(port))])
      && var bound := Run(s, [StopOld(0), Bind(0, Some(port))]);
      && Enabled(bound, InstallNew(0))
      && EffectOf(bound, InstallNew(0)) == EnsureDone("k", "a", Tcp, Some(port), Success(port))
      && CanRun(Exec(bound, InstallNew(0)), [StopOld(1)])
      && PortOf(Run(Exec(bound, InstallNew(0)), [StopOld(1)]).ps, "k") == None
  {
    var s := System(INITIAL.ps, map[0 := FIRST.(phase := MustStop), 1 := SECOND.(phase := MustStop)]);
    var stopped := Exec(s, StopOld(0));
    var bound := Exec(stopped, Bind(0, Some(port)));
    RunCons(stopped, Bind(0, Some(port)), []);
    RunCons(s, StopOld(0), [Bind(0, Some(port))]);
    var installed := Exec(bound, InstallNew(0));
    assert installed.calls[1] == SECOND.(phase := MustStop);
    RunCons(installed, StopOld(1), []);
    assert [StopOld(1)] == [StopOld(1)] + [];
    assert [Bind(0, Some(port))] == [Bind(0, Some(port))] + [];
  }

  /**
   Two calls in flight on one key are enough to lose a returned port: the first call returns
   its port, and the second, already past its check, removes the entry with no further call.
   */
  lemma SharedKeyLosesReturnedPort(port: u16)
    ensures
      var before := [CallEnsure(0, "k", "a", Tcp), CallEnsure(1, "k", "b", Tcp), CheckRunning(0), CheckRunning(1)]
        + [StopOld(0), Bind(0, Some(port))];
      && CanRun(INITIAL, before)
      && var s := Run(INITIAL, before);
      && Enabled(s, InstallNew(0))
      && EffectOf(s, InstallNew(0)) == EnsureDone("k", "a", Tcp, Some(port), Success(port))
      && CanRun(Exec(s, InstallNew(0)), [StopOld(1)])
      && PortOf(Run(Exec(s, InstallNew(0)), [StopOld(1)]).ps, "k") == None
  {
    BothMissTheKey();
    SecondStopsFirst(port);
    RunAppends(INITIAL, [CallEnsure(0, "k", "a", Tcp), CallEnsure(1, "k", "b", Tcp), CheckRunning(0), CheckRunning(1)],
               [StopOld(0), Bind(0, Some(port))]);
  }
}
