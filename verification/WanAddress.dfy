/**
 The two writers of the WAN address: the poll task and the notify handler. Each compares and
 writes under the lock, and only afterwards reads the active flag and starts a DNS fan-out,
 so other writes can come in between.
 */
module WanAddress {
  import opened Wrappers

  /** A write whose critical section is over and whose look at the flag is still to come. */
  datatype Write = Write(index: nat, changed: bool)

  /**
   `startup` is the address set before the writers run, `log` every address written since, in
   lock order; `flagSeen` keeps what each changing write saw of the flag, and `fanouts` counts the
   fan-outs started for each write.
   */
  datatype System = System(
    startup: Option<string>,
    current: Option<string>,
    counter: nat,
    log: seq<string>,
    writes: map<nat, Write>,
    active: bool,
    flagSeen: map<nat, bool>,
    fanouts: multiset<nat>)

  function Initial(startup: Option<string>): System {
    System(startup, startup, 0, [], map[], false, map[], multiset{})
  }

  datatype Step =
    | Observe(id: nat, ip: string)
    | Finish(id: nat)
    | SetActive(active: bool)

  predicate Enabled(s: System, step: Step) {
    match step
    case Observe(id, _) => id !in s.writes
    case Finish(id) => id in s.writes
    case SetActive(_) => true
  }

  function Exec(s: System, step: Step): System
    requires Enabled(s, step)
  {
    match step
    case Observe(id, ip) =>
      var changed := s.current != Some(ip);
      s.(current := Some(ip), counter := if changed then s.counter + 1 else s.counter,
         log := s.log + [ip], writes := s.writes[id := Write(|s.log|, changed)])
    case Finish(id) =>
      var w := s.writes[id];
      var s' := s.(writes := s.writes - {id});
      if w.changed then
        s'.(flagSeen := s.flagSeen[w.index := s.active],
            fanouts := if s.active then s.fanouts + multiset{w.index} else s.fanouts)
      else s'
    case SetActive(active) => s.(active := active)
  }

  ghost predicate CanRun(s: System, steps: seq<Step>)
    decreases steps
  {
    steps == [] || (Enabled(s, steps[0]) && CanRun(Exec(s, steps[0]), steps[1..]))
  }

  ghost function Run(s: System, steps: seq<Step>): System
    requires CanRun(s, steps)
    decreases steps
  {
    if steps == [] then s else Run(Exec(s, steps[0]), steps[1..])
  }

  // ----- The shared state both writers update -----

  class EventingState {
    var currentExternalIp: Option<string>
    var wanIpChanges: nat

    constructor (startup: Option<string>)
      ensures currentExternalIp == startup && wanIpChanges == 0
    {
      currentExternalIp, wanIpChanges := startup, 0;
    }

    /** The critical section of both writers. */
    method Observe(ip: string) returns (changed: bool)
      modifies this
      ensures
        var s := Initial(None).(current := old(currentExternalIp), counter := old(wanIpChanges));
        var s' := Exec(s, Step.Observe(0, ip));
        currentExternalIp == s'.current && wanIpChanges == s'.counter && changed == s'.writes[0].changed
    {
      changed := currentExternalIp != Some(ip);
      if changed {
        wanIpChanges := wanIpChanges + 1;
      }
      currentExternalIp := Some(ip);
    }
  }

  // ----- Accounting -----

  /** The write at `i` differs from the one before it, or from the startup value. */
  predicate Differs(startup: Option<string>, log: seq<string>, i: nat)
    requires i < |log|
  {
    if i == 0 then startup != Some(log[0]) else log[i - 1] != log[i]
  }

  function DifferentNeighbours(startup: Option<string>, log: seq<string>): nat {
    if log == [] then 0
    else DifferentNeighbours(startup, log[..|log| - 1]) + if Differs(startup, log, |log| - 1) then 1 else 0
  }

  /** The current address and the counter are what the log says. */
  ghost predicate CountedByLog(s: System) {
    && s.current == (if s.log == [] then s.startup else Some(s.log[|s.log| - 1]))
    && s.counter == DifferentNeighbours(s.startup, s.log)
  }

  /** Each write under way stands for its own entry of the log, and has not seen the flag. */
  ghost predicate WritesInLog(s: System) {
    && (forall id | id in s.writes ::
          s.writes[id].index < |s.log| && s.writes[id].changed == Differs(s.startup, s.log, s.writes[id].index)
          && s.writes[id].index !in s.flagSeen)
    && (forall id, id' | id in s.writes && id' in s.writes :: s.writes[id].index == s.writes[id'].index ==> id == id')
  }

  /** A write that has not looked at the flag yet. */
  ghost predicate Awaited(s: System, i: nat) {
    exists id :: id in s.writes && s.writes[id].index == i
  }

  /** Every changing write has seen the flag or is still to see it. */
  ghost predicate FlagsInLog(s: System) {
    && (forall i | i in s.flagSeen :: i < |s.log| && Differs(s.startup, s.log, i))
    && (forall i: nat | i < |s.log| && Differs(s.startup, s.log, i) && i !in s.flagSeen :: Awaited(s, i))
  }

  ghost predicate FanoutsMatchFlags(s: System) {
    forall i: nat :: s.fanouts[i] == if i in s.flagSeen && s.flagSeen[i] then 1 else 0
  }

  ghost predicate Accounted(s: System) {
    CountedByLog(s) && WritesInLog(s) && FlagsInLog(s) && FanoutsMatchFlags(s)
  }

  /** A longer log leaves the earlier comparisons alone. */
  lemma ObserveKeepsDiffers(s: System, id: nat, ip: string, i: nat)
    requires id !in s.writes && i < |s.log|
    ensures Differs(s.startup, Exec(s, Observe(id, ip)).log, i) == Differs(s.startup, s.log, i)
  {
  }

  lemma ObserveCounts(s: System, id: nat, ip: string)
    requires CountedByLog(s) && id !in s.writes
    ensures CountedByLog(Exec(s, Observe(id, ip)))
    ensures Exec(s, Observe(id, ip)).writes[id] == Write(|s.log|, Differs(s.startup, s.log + [ip], |s.log|))
  {
    assert (s.log + [ip])[..|s.log|] == s.log;
  }

  lemma ObserveKeepsWrites(s: System, id: nat, ip: string)
    requires CountedByLog(s) && WritesInLog(s) && FlagsInLog(s) && id !in s.writes
    ensures WritesInLog(Exec(s, Observe(id, ip)))
  {
    ObserveCounts(s, id, ip);
    forall i: nat | i < |s.log|
      ensures Differs(s.startup, Exec(s, Observe(id, ip)).log, i) == Differs(s.startup, s.log, i)
    {
      ObserveKeepsDiffers(s, id, ip, i);
    }
  }

  lemma ObserveKeepsFlags(s: System, id: nat, ip: string)
    requires FlagsInLog(s) && id !in s.writes
    ensures FlagsInLog(Exec(s, Observe(id, ip)))
  {
    var s' := Exec(s, Observe(id, ip));
    forall i: nat | i < |s.log|
      ensures Differs(s.startup, s'.log, i) == Differs(s.startup, s.log, i)
    {
      ObserveKeepsDiffers(s, id, ip, i);
    }
    forall i: nat | i < |s'.log| && Differs(s'.startup, s'.log, i) && i !in s'.flagSeen
      ensures Awaited(s', i)
    {
      if i < |s.log| {
        assert Awaited(s, i);
        var other :| other in s.writes && s.writes[other].index == i;
        assert s'.writes[other].index == i;
      } else {
        assert s'.writes[id].index == i;
      }
    }
  }

  lemma FinishKeepsFlags(s: System, id: nat)
    requires WritesInLog(s) && FlagsInLog(s) && id in s.writes
    ensures FlagsInLog(Exec(s, Finish(id)))
  {
    var s' := Exec(s, Finish(id));
    forall i: nat | i < |s'.log| && Differs(s'.startup, s'.log, i) && i !in s'.flagSeen
      ensures Awaited(s', i)
    {
      assert Awaited(s, i);
      var other :| other in s.writes && s.writes[other].index == i;
      assert s'.writes[other].index == i;
    }
  }

  lemma FinishKeepsWrites(s: System, id: nat)
    requires WritesInLog(s) && id in s.writes
    ensures WritesInLog(Exec(s, Finish(id)))
  {
  }

  lemma FinishKeepsFanouts(s: System, id: nat)
    requires WritesInLog(s) && FanoutsMatchFlags(s) && id in s.writes
    ensures FanoutsMatchFlags(Exec(s, Finish(id)))
  {
    assert s.fanouts[s.writes[id].index] == 0;
  }

  lemma StepKeepsAccounted(s: System, step: Step)
    requires Accounted(s) && Enabled(s, step)
    ensures Accounted(Exec(s, step)) && Exec(s, step).startup == s.startup
  {
    match step {
      case Observe(id, ip) =>
        ObserveCounts(s, id, ip);
        ObserveKeepsWrites(s, id, ip);
        ObserveKeepsFlags(s, id, ip);
      case Finish(id) =>
        FinishKeepsWrites(s, id);
        FinishKeepsFlags(s, id);
        FinishKeepsFanouts(s, id);
      case SetActive(_) =>
        forall i: nat | Awaited(s, i)
          ensures Awaited(Exec(s, step), i)
        {
          var other :| other in s.writes && s.writes[other].index == i;
          assert Exec(s, step).writes[other].index == i;
        }
    }
  }

  lemma {:induction false} RunKeepsAccounted(s: System, steps: seq<Step>)
    requires Accounted(s) && CanRun(s, steps)
    ensures Accounted(Run(s, steps)) && Run(s, steps).startup == s.startup
    decreases steps
  {
    if steps != [] {
      StepKeepsAccounted(s, steps[0]);
      RunKeepsAccounted(Exec(s, steps[0]), steps[1..]);
    }
  }

  /** In every interleaving the counter is the number of adjacent distinct values in the write log. */
  lemma CounterCountsChanges(startup: Option<string>, steps: seq<Step>)
    requires CanRun(Initial(startup), steps)
    ensures
      var s := Run(Initial(startup), steps);
      s.counter == DifferentNeighbours(startup, s.log)
  {
    RunKeepsAccounted(Initial(startup), steps);
  }

  /**
   A fan-out starts, once, exactly for those counted writes that read the flag as true; and
   every counted write whose writer has finished has read the flag.
   */
  lemma FanoutsFollowCountedWrites(startup: Option<string>, steps: seq<Step>, i: nat)
    requires CanRun(Initial(startup), steps) && i < |Run(Initial(startup), steps).log|
    ensures
      var s := Run(Initial(startup), steps);
      && s.fanouts[i] == (if Differs(startup, s.log, i) && i in s.flagSeen && s.flagSeen[i] then 1 else 0)
      && (i in s.flagSeen ==> Differs(startup, s.log, i))
      && (Differs(startup, s.log, i) && !Awaited(s, i) ==> i in s.flagSeen)
  {
    RunKeepsAccounted(Initial(startup), steps);
  }

  /** Once the address has settled, no later write is counted and none starts a fan-out. */
  lemma SettledAddressStartsNoFanout(startup: Option<string>, steps: seq<Step>, from: nat, i: nat)
    requires CanRun(Initial(startup), steps)
    requires
      var log := Run(Initial(startup), steps).log;
      from < i < |log| && forall j | from <= j < |log| :: log[j] == log[from]
    ensures
      var s := Run(Initial(startup), steps);
      !Differs(startup, s.log, i) && s.fanouts[i] == 0
  {
    RunKeepsAccounted(Initial(startup), steps);
    FanoutsFollowCountedWrites(startup, steps, i);
  }

  // ----- What a write sees of the flag -----

  /** The flag as the last step that set it left it. */
  function FlagAfter(was: bool, steps: seq<Step>): bool
    decreases steps
  {
    if steps == [] then was
    else FlagAfter(if steps[0].SetActive? then steps[0].active else was, steps[1..])
  }

  lemma {:induction false} RunSetsFlag(s: System, steps: seq<Step>)
    requires CanRun(s, steps)
    ensures Run(s, steps).active == FlagAfter(s.active, steps)
    decreases steps
  {
    if steps != [] {
      RunSetsFlag(Exec(s, steps[0]), steps[1..]);
    }
  }

  lemma {:induction false} SeenFlagStays(s: System, steps: seq<Step>, i: nat)
    requires Accounted(s) && CanRun(s, steps) && i in s.flagSeen
    ensures i in Run(s, steps).flagSeen && Run(s, steps).flagSeen[i] == s.flagSeen[i]
    decreases steps
  {
    if steps != [] {
      StepKeepsAccounted(s, steps[0]);
      SeenFlagStays(Exec(s, steps[0]), steps[1..], i);
    }
  }

  /**
   In every run a write that changed the address starts its one fan-out exactly if the flag was
   last set to true before the writer looked; the flag starts out false.
   */
  lemma FanoutIffFlagSetBefore(startup: Option<string>, before: seq<Step>, id: nat, after: seq<Step>)
    requires CanRun(Initial(startup), before) && Enabled(Run(Initial(startup), before), Finish(id))
    requires Run(Initial(startup), before).writes[id].changed
    requires CanRun(Exec(Run(Initial(startup), before), Finish(id)), after)
    ensures
      var s := Run(Initial(startup), before);
      Run(Exec(s, Finish(id)), after).fanouts[s.writes[id].index] == if FlagAfter(false, before) then 1 else 0
  {
    var s := Run(Initial(startup), before);
    RunSetsFlag(Initial(startup), before);
    RunKeepsAccounted(Initial(startup), before);
    StepKeepsAccounted(s, Finish(id));
    SeenFlagStays(Exec(s, Finish(id)), after, s.writes[id].index);
    RunKeepsAccounted(Exec(s, Finish(id)), after);
  }
}
