/** Theorems about runs of the PortMapping controller: snapshots, staleness, continuity, no flood. */
module LeaseRuns {
  import opened Wrappers
  import opened PortMappings
  import opened Lease

  // ----- Every run -----

  lemma TickKeepsOk(w: World, elapsed: nat)
    requires Ok(w)
    ensures Ok(Exec(w, Tick(elapsed)))
  {
    var w' := Exec(w, Tick(elapsed));
    forall key | key in w'.router
      ensures EntryOk(w', key)
    {
      assert EntryOk(w, key);
    }
  }

  lemma CreateKeepsOk(w: World, name: string, spec: PortMappingSpec)
    requires Ok(w)
    ensures Ok(Exec(w, Create(name, spec)))
  {
    var w' := Exec(w, Create(name, spec));
    forall key | key in w'.router
      ensures EntryOk(w', key)
    {
      assert EntryOk(w, key);
    }
  }

  /** A step about a PortMapping keeps its name and the generations it had. */
  lemma HistoryGrows(pm: Pm, now: Time, step: Step)
    requires Ready(pm, step)
    ensures ExecPm(pm, now, step).name == pm.name && pm.specs <= ExecPm(pm, now, step).specs
    ensures !step.Edit? ==> ExecPm(pm, now, step).specs == pm.specs
  {
  }

  /** The entry an add writes is a snapshot of the generation it was sent with. */
  lemma AddedEntryIsOk(w: World, id: nat)
    requires Enabled(w, Add(id))
    ensures
      var w' := Exec(w, Add(id));
      var key := KeyOf(w.pms[id].specs[w.pms[id].phase.gen]);
      key in w'.router && EntryOk(w', key)
  {
  }

  /** An entry that a step leaves alone stays a snapshot of what it was. */
  lemma KeptEntryIsOk(w: World, step: Step, key: RouterKey)
    requires Enabled(w, step) && !step.Tick? && !step.Create?
    requires key in w.router && EntryOk(w, key)
    requires key in Exec(w, step).router && Exec(w, step).router[key] == w.router[key]
    ensures EntryOk(Exec(w, step), key)
  {
    var owner := w.router[key].owner;
    var was, now := w.pms[owner], Exec(w, step).pms[owner];
    HistoryGrows(w.pms[step.id], w.now, step);
    assert was.name == now.name && was.specs <= now.specs;
  }

  lemma StepKeepsEntry(w: World, step: Step, key: RouterKey)
    requires Ok(w) && Enabled(w, step) && !step.Tick? && !step.Create?
    requires key in Exec(w, step).router
    ensures EntryOk(Exec(w, step), key)
  {
    if step.Add? && key == KeyOf(w.pms[step.id].specs[w.pms[step.id].phase.gen]) {
      AddedEntryIsOk(w, step.id);
    } else {
      assert key in w.router && EntryOk(w, key);
      KeptEntryIsOk(w, step, key);
    }
  }

  lemma StepKeepsOk(w: World, step: Step)
    requires Ok(w) && Enabled(w, step)
    ensures Ok(Exec(w, step))
  {
    if step.Tick? {
      TickKeepsOk(w, step.elapsed);
    } else if step.Create? {
      CreateKeepsOk(w, step.name, step.spec);
    } else {
      var w' := Exec(w, step);
      StepKeepsPmOk(w.pms[step.id], w.now, step);
      forall id | 0 <= id < |w'.pms|
        ensures PmOk(w'.pms[id], w'.now)
      {
        assert PmOk(w.pms[id], w.now);
      }
      forall key | key in w'.router
        ensures EntryOk(w', key)
      {
        StepKeepsEntry(w, step, key);
      }
    }
  }

  lemma {:induction false} RunKeepsOk(w: World, steps: seq<Step>)
    requires Ok(w) && CanRun(w, steps)
    ensures Ok(Run(w, steps))
    decreases steps
  {
    if steps != [] {
      StepKeepsOk(w, steps[0]);
      RunKeepsOk(Exec(w, steps[0]), steps[1..]);
    }
  }

  /**
   Every router entry, in every run, is a snapshot of some generation of some PortMapping's
   spec, written under that spec's external port and protocol by an add less than 3600 seconds ago.
   Without a description it carries the PortMapping's name.
   */
  lemma EntriesAreRecentSnapshots(steps: seq<Step>, key: RouterKey)
    requires CanRun(INITIAL, steps) && key in Run(INITIAL, steps).router
    ensures EntryOk(Run(INITIAL, steps), key)
    ensures
      var w := Run(INITIAL, steps);
      var e := w.router[key];
      && e.owner < |w.pms| && e.gen < |w.pms[e.owner].specs|
      && var spec := w.pms[e.owner].specs[e.gen];
      && key == RouterKey(spec.externalPort, spec.protocol)
      && e.client == spec.internalHost && e.port == spec.internalPort
      && e.description == (if spec.description.Some? then spec.description.value else w.pms[e.owner].name)
      && e.grantedAt <= w.now < e.grantedAt + 3600 * 1_000_000_000
  {
    RunKeepsOk(INITIAL, steps);
  }

  /**
   No renewal flood: however a reconcile is triggered, an active mapping is added again only
   when more than 3569 seconds have passed since its recorded renewal.
   */
  lemma ActiveMappingIsNotReAddedEarly(steps: seq<Step>, id: nat)
    requires CanRun(INITIAL, steps) && Enabled(Run(INITIAL, steps), Trigger(id))
    requires var pm := Run(INITIAL, steps).pms[id]; pm.status.Some? && pm.status.value.active
    ensures
      var w := Run(INITIAL, steps);
      && w.pms[id].status.value.lastRenewal.Some?
      && (Exec(w, Trigger(id)).pms[id].phase.Sent?
          <==> w.now > w.pms[id].status.value.lastRenewal.value + 3569 * SECOND)
  {
    RunKeepsOk(INITIAL, steps);
    var w := Run(INITIAL, steps);
    assert PmOk(w.pms[id], w.now);
    DueExactlyWhenBufferReached(w.pms[id].status.value.lastRenewal.value, w.now);
  }

  /** No wake livelock: a reconcile that runs when its timer is due, or later, sends the add. */
  lemma TimerWakesRenew(steps: seq<Step>, id: nat)
    requires CanRun(INITIAL, steps) && Enabled(Run(INITIAL, steps), Trigger(id))
    requires Run(INITIAL, steps).now >= Run(INITIAL, steps).pms[id].phase.wakeAt
    ensures Exec(Run(INITIAL, steps), Trigger(id)).pms[id].phase.Sent?
  {
    RunKeepsOk(INITIAL, steps);
    var w := Run(INITIAL, steps);
    assert PmOk(w.pms[id], w.now);
    DueIsLasting(w.pms[id].status, w.pms[id].phase.wakeAt, w.now);
  }

  /** The router refuses to renew a mapping whose last add was recorded. */
  ghost predicate RefusesRenewal(w: World, id: nat, patched: bool) {
    && Enabled(w, Refuse(id, patched))
    && var pm := w.pms[id];
    && pm.status.Some? && pm.status.value.active && pm.status.value.lastRenewal.Some?
    && pm.lastGrant.Some? && pm.lastGrant.value.at <= pm.status.value.lastRenewal.value
  }

  /**
   The timer of the retry after a refused renewal is due inside the lease of the last add if and
   only if the inactive status could not be written and the refusal came less than 3570 seconds
   after that add. With the status written it is due more than 29 seconds after the lease.
   */
  lemma RetryTimerInsideLeaseIff(steps: seq<Step>, id: nat, patched: bool)
    requires CanRun(INITIAL, steps) && RefusesRenewal(Run(INITIAL, steps), id, patched)
    ensures
      var w := Run(INITIAL, steps);
      var granted := w.pms[id].lastGrant.value.at;
      var pm' := Exec(w, Refuse(id, patched)).pms[id];
      && pm'.phase.Waiting?
      && pm'.phase.wakeAt == w.now + (if patched then 60 else 30) * 1_000_000_000
      && (pm'.phase.wakeAt < granted + LEASE <==> !patched && w.now < granted + 3570 * SECOND)
      && pm'.phase.wakeAt > granted + LEASE + (if patched then 29 else -1) * SECOND
  {
    RunKeepsOk(INITIAL, steps);
    var w := Run(INITIAL, steps);
    assert PmOk(w.pms[id], w.now);
    DueExactlyWhenBufferReached(w.pms[id].status.value.lastRenewal.value, w.pms[id].phase.sentAt);
  }

  /**
   Only the timer is late: whatever else triggers a reconcile, the write of the inactive status
   among it, sends the add again at once, however soon after the refusal.
   */
  lemma RefusedAddIsSentByNextTrigger(steps: seq<Step>, id: nat, patched: bool, elapsed: nat)
    requires CanRun(INITIAL, steps) && Enabled(Run(INITIAL, steps), Refuse(id, patched))
    requires !Run(INITIAL, steps).pms[id].deleting
    ensures
      var refused := Exec(Run(INITIAL, steps), Refuse(id, patched));
      var later := Exec(refused, Tick(elapsed));
      && Enabled(later, Trigger(id))
      && Exec(later, Trigger(id)).pms[id].phase == Sent(|later.pms[id].specs| - 1, later.now)
  {
    RunKeepsOk(INITIAL, steps);
    var w := Run(INITIAL, steps);
    assert PmOk(w.pms[id], w.now);
    DueIsLasting(w.pms[id].status, w.pms[id].phase.sentAt, w.now + elapsed);
  }

  // ----- The status, in every run -----

  /** What the last status patch that landed said. */
  datatype Report = Nothing | Established(readAt: Time) | Failed

  /** The status patch of a step that lands, if it has one. */
  function Reported(w: World, step: Step, id: nat): Report
    requires Enabled(w, step)
  {
    match step
    case PatchStatus(other, true) => if other == id then Established(w.pms[id].phase.readAt) else Nothing
    case Refuse(other, true) => if other == id then Failed else Nothing
    case LoseAnswer(other, true) => if other == id then Failed else Nothing
    case _ => Nothing
  }

  ghost function LastReport(w: World, steps: seq<Step>, id: nat): Report
    requires CanRun(w, steps)
    decreases steps
  {
    if steps == [] then Nothing
    else
      var later := LastReport(Exec(w, steps[0]), steps[1..], id);
      if later.Nothing? then Reported(w, steps[0], id) else later
  }

  function StatusAfter(report: Report, before: Option<PortMappingStatus>): Option<PortMappingStatus> {
    match report
    case Nothing => before
    case Established(readAt) => Some(PortMappingStatus(true, Some(readAt + 3600 * 1_000_000_000), Some(readAt)))
    case Failed => Some(PortMappingStatus(false, None, None))
  }

  function StatusOf(w: World, id: nat): Option<PortMappingStatus> {
    if id < |w.pms| then w.pms[id].status else None
  }

  lemma StepReports(w: World, step: Step, id: nat)
    requires Enabled(w, step)
    ensures StatusOf(Exec(w, step), id) == StatusAfter(Reported(w, step, id), StatusOf(w, id))
  {
  }

  lemma {:induction false} RunReports(w: World, steps: seq<Step>, id: nat)
    requires CanRun(w, steps)
    ensures StatusOf(Run(w, steps), id) == StatusAfter(LastReport(w, steps, id), StatusOf(w, id))
    decreases steps
  {
    if steps != [] {
      StepReports(w, steps[0], id);
      RunReports(Exec(w, steps[0]), steps[1..], id);
    }
  }

  /**
   In every run the status is what the last status patch that landed said: active, with the lease
   counted from the reading of the answer, after an add that succeeded; neither active nor with
   an expiry after one that failed; and empty before the first.
   */
  lemma StatusIsLastReport(steps: seq<Step>, id: nat)
    requires CanRun(INITIAL, steps)
    ensures StatusOf(Run(INITIAL, steps), id) == StatusAfter(LastReport(INITIAL, steps, id), None)
  {
    RunReports(INITIAL, steps, id);
  }

  /**
   Right after a failed add, be it refused or its answer lost: with its patch landed the status is
   inactive without an expiry and the retry waits 60 seconds; otherwise the status stays and it
   waits 30 seconds.
   */
  lemma FailedAddIsRecorded(w: World, id: nat, lost: bool, patched: bool)
    requires Enabled(w, if lost then LoseAnswer(id, patched) else Refuse(id, patched))
    ensures
      var pm' := Exec(w, if lost then LoseAnswer(id, patched) else Refuse(id, patched)).pms[id];
      && pm'.status == (if patched then Some(PortMappingStatus(false, None, None)) else w.pms[id].status)
      && pm'.phase == Waiting(w.now + (if patched then 60 else 30) * 1_000_000_000)
  {
  }

  // ----- The spec, in every run -----

  /** The spec a step writes for the PortMapping, with the time. */
  function Written(w: World, step: Step, id: nat): seq<(PortMappingSpec, Time)>
    requires Enabled(w, step)
  {
    match step
    case Create(_, spec) => if id == |w.pms| then [(spec, w.now)] else []
    case Edit(other, spec) => if id == other then [(spec, w.now)] else []
    case _ => []
  }

  ghost function WrittenDuring(w: World, steps: seq<Step>, id: nat): seq<(PortMappingSpec, Time)>
    requires CanRun(w, steps)
    decreases steps
  {
    if steps == [] then []
    else Written(w, steps[0], id) + WrittenDuring(Exec(w, steps[0]), steps[1..], id)
  }

  /** The generations of a PortMapping's spec with their times. */
  function History(w: World, id: nat): seq<(PortMappingSpec, Time)> {
    if id < |w.pms| && |w.pms[id].specs| == |w.pms[id].edits|
    then seq(|w.pms[id].specs|, i requires 0 <= i < |w.pms[id].specs| => (w.pms[id].specs[i], w.pms[id].edits[i]))
    else []
  }

  lemma StepWrites(w: World, step: Step, id: nat)
    requires Ok(w) && Enabled(w, step)
    ensures History(Exec(w, step), id) == History(w, id) + Written(w, step, id)
  {
    if id < |w.pms| {
      assert PmOk(w.pms[id], w.now);
    }
  }

  lemma {:induction false} RunWrites(w: World, steps: seq<Step>, id: nat)
    requires Ok(w) && CanRun(w, steps)
    ensures History(Run(w, steps), id) == History(w, id) + WrittenDuring(w, steps, id)
    decreases steps
  {
    if steps != [] {
      StepKeepsOk(w, steps[0]);
      StepWrites(w, steps[0], id);
      RunWrites(Exec(w, steps[0]), steps[1..], id);
    }
  }

  /** In every run the generations of a spec are what was created and edited, in order and with the times. */
  lemma SpecsAreWhatWasWritten(steps: seq<Step>, id: nat)
    requires CanRun(INITIAL, steps)
    ensures History(Run(INITIAL, steps), id) == WrittenDuring(INITIAL, steps, id)
    ensures id < |Run(INITIAL, steps).pms| ==>
      |Run(INITIAL, steps).pms[id].specs| == |Run(INITIAL, steps).pms[id].edits|
  {
    RunKeepsOk(INITIAL, steps);
    RunWrites(INITIAL, steps, id);
    if id < |Run(INITIAL, steps).pms| {
      assert PmOk(Run(INITIAL, steps).pms[id], Run(INITIAL, steps).now);
    }
  }

  // ----- Deletion -----

  /** A cleanup that reaches the router drops the entry of the current key and no other; one that fails drops none. */
  lemma CleanupDropsCurrentKey(w: World, id: nat, applied: bool, key: RouterKey)
    requires Enabled(w, Cleanup(id, applied))
    ensures
      var spec := w.pms[id].specs[|w.pms[id].specs| - 1];
      var w' := Exec(w, Cleanup(id, applied));
      && (key in w'.router <==> key in w.router && !(applied && key == RouterKey(spec.externalPort, spec.protocol)))
      && (key in w'.router ==> w'.router[key] == w.router[key])
  {
  }

  /** A PortMapping that waits when it is deleted, or has been cleaned up, is never added again. */
  lemma {:induction false} DeletedIsNotAdded(w: World, steps: seq<Step>, id: nat)
    requires CanRun(w, steps) && id < |w.pms| && w.pms[id].deleting
    requires (w.pms[id].phase.Waiting? || w.pms[id].phase.Gone?)
    ensures Add(id) !in steps && Trigger(id) !in steps
    decreases steps
  {
    if steps != [] {
      assert steps == [steps[0]] + steps[1..];
      DeletedIsNotAdded(Exec(w, steps[0]), steps[1..], id);
    }
  }

  // ----- An entry whose PortMapping is gone or re-keyed -----

  /** A PortMapping that is not gone claims the key of its current spec, and that of an add it has sent. */
  ghost predicate Claims(pm: Pm, key: RouterKey) {
    !pm.phase.Gone? && |pm.specs| > 0
    && (|| KeyOf(pm.specs[|pm.specs| - 1]) == key
        || (pm.phase.Sent? && pm.phase.gen < |pm.specs| && KeyOf(pm.specs[pm.phase.gen]) == key))
  }

  ghost predicate Released(w: World, id: nat, key: RouterKey) {
    id < |w.pms| && !Claims(w.pms[id], key)
  }

  ghost predicate AlwaysReleased(w: World, steps: seq<Step>, id: nat, key: RouterKey)
    requires CanRun(w, steps)
    decreases steps
  {
    Released(w, id, key) && (steps != [] ==> AlwaysReleased(Exec(w, steps[0]), steps[1..], id, key))
  }

  /** Its entry under that key is at most as old as the given time. */
  ghost predicate GrantedBy(w: World, id: nat, key: RouterKey, t: Time) {
    key in w.router && w.router[key].owner == id ==> w.router[key].grantedAt <= t
  }

  lemma StepDoesNotRenewReleased(w: World, step: Step, id: nat, key: RouterKey, t: Time)
    requires Enabled(w, step) && Released(w, id, key) && GrantedBy(w, id, key, t)
    ensures GrantedBy(Exec(w, step), id, key, t)
  {
  }

  lemma {:induction false} ReleasedEntryIsNotRenewed(w: World, steps: seq<Step>, id: nat, key: RouterKey, t: Time)
    requires Ok(w) && CanRun(w, steps) && AlwaysReleased(w, steps, id, key) && GrantedBy(w, id, key, t)
    ensures GrantedBy(Run(w, steps), id, key, t) && Ok(Run(w, steps))
    decreases steps
  {
    if steps != [] {
      StepKeepsOk(w, steps[0]);
      StepDoesNotRenewReleased(w, steps[0], id, key, t);
      ReleasedEntryIsNotRenewed(Exec(w, steps[0]), steps[1..], id, key, t);
    }
  }

  /**
   A PortMapping that is gone or re-keyed, and stays so, has no entry left under its old key
   once 3600 seconds have passed, even if the router's delete failed.
   */
  lemma ReleasedEntryExpires(before: seq<Step>, steps: seq<Step>, id: nat, key: RouterKey)
    requires CanRun(INITIAL, before)
    requires CanRun(Run(INITIAL, before), steps) && AlwaysReleased(Run(INITIAL, before), steps, id, key)
    requires Run(Run(INITIAL, before), steps).now >= Run(INITIAL, before).now + LEASE
    ensures
      var w' := Run(Run(INITIAL, before), steps);
      key in w'.router ==> w'.router[key].owner != id
  {
    RunKeepsOk(INITIAL, before);
    var w := Run(INITIAL, before);
    assert key in w.router ==> EntryOk(w, key);
    ReleasedEntryIsNotRenewed(w, steps, id, key, w.now);
    var w' := Run(w, steps);
    assert key in w'.router ==> EntryOk(w', key);
  }

  // ----- A PortMapping whose key no other claims -----

  /**
   No other PortMapping claims the key of this one's last add. One that is gone, or that has
   moved on to another key, stands in nobody's way.
   */
  ghost predicate KeysApart(w: World, id: nat) {
    id < |w.pms| && !w.pms[id].phase.Gone? && w.pms[id].lastGrant.Some?
    && w.pms[id].lastGrant.value.gen < |w.pms[id].specs| ==>
      var key := KeyOf(w.pms[id].specs[w.pms[id].lastGrant.value.gen]);
      forall other | 0 <= other < |w.pms| && other != id :: !Claims(w.pms[other], key)
  }

  /** The last add for the PortMapping is what the router holds, for as long as its lease runs. */
  ghost predicate Held(w: World, id: nat) {
    id < |w.pms| && !w.pms[id].phase.Gone? && w.pms[id].lastGrant.Some?
    && w.pms[id].lastGrant.value.gen < |w.pms[id].specs|
    && w.now < w.pms[id].lastGrant.value.at + LEASE
    ==>
      var grant := w.pms[id].lastGrant.value;
      var key := KeyOf(w.pms[id].specs[grant.gen]);
      key in w.router && w.router[key] == EntryOf(w.pms[id], id, grant.gen, grant.at)
  }

  /** A step about a PortMapping leaves the router alone under the keys it does not claim. */
  lemma UnclaimedKeyIsLeftAlone(w: World, step: Step, key: RouterKey)
    requires Enabled(w, step) && !step.Tick? && !step.Create? && !Claims(w.pms[step.id], key)
    ensures key in Exec(w, step).router <==> key in w.router
    ensures key in w.router ==> Exec(w, step).router[key] == w.router[key]
  {
  }

  /** An add is held from the moment the router performs it. */
  lemma AddIsHeld(w: World, id: nat)
    requires Enabled(w, Add(id))
    ensures Held(Exec(w, Add(id)), id)
  {
  }

  /** Between adds only a cleanup touches the router, and specs only grow. */
  lemma QuietOwnStep(w: World, step: Step)
    requires Enabled(w, step) && !step.Tick? && !step.Create? && !step.Add? && !step.Cleanup?
    ensures
      var pm, pm' := w.pms[step.id], Exec(w, step).pms[step.id];
      && Exec(w, step).router == w.router && Exec(w, step).now == w.now && |Exec(w, step).pms| == |w.pms|
      && pm'.lastGrant == pm.lastGrant && pm'.name == pm.name && pm.specs <= pm'.specs
      && pm'.phase.Gone? == pm.phase.Gone?
  {
  }

  lemma OwnStepKeepsHeld(w: World, step: Step)
    requires Ok(w) && Enabled(w, step) && !step.Tick? && !step.Create? && Held(w, step.id)
    ensures Held(Exec(w, step), step.id)
  {
    if step.Add? {
      AddIsHeld(w, step.id);
    } else if !step.Cleanup? {
      var pm := w.pms[step.id];
      QuietOwnStep(w, step);
      assert PmOk(pm, w.now);
      if pm.lastGrant.Some? {
        assert Exec(w, step).pms[step.id].specs[pm.lastGrant.value.gen] == pm.specs[pm.lastGrant.value.gen];
      }
    }
  }

  lemma OtherStepKeepsHeld(w: World, step: Step, id: nat)
    requires Enabled(w, step) && KeysApart(w, id) && Held(w, id)
    requires !step.Tick? && !step.Create? && step.id != id && id < |w.pms|
    ensures Held(Exec(w, step), id)
  {
    var pm := w.pms[id];
    assert Exec(w, step).pms[id] == pm;
    if !pm.phase.Gone? && pm.lastGrant.Some? && pm.lastGrant.value.gen < |pm.specs| {
      UnclaimedKeyIsLeftAlone(w, step, KeyOf(pm.specs[pm.lastGrant.value.gen]));
    }
  }

  lemma StepKeepsHeld(w: World, step: Step, id: nat)
    requires Ok(w) && Enabled(w, step) && KeysApart(w, id) && Held(w, id)
    ensures Held(Exec(w, step), id)
  {
    if id < |w.pms| && !step.Tick? && !step.Create? {
      if step.id == id {
        OwnStepKeepsHeld(w, step);
      } else {
        OtherStepKeepsHeld(w, step, id);
      }
    }
  }

  ghost predicate AlwaysApart(w: World, steps: seq<Step>, id: nat)
    requires CanRun(w, steps)
    decreases steps
  {
    KeysApart(w, id) && (steps != [] ==> AlwaysApart(Exec(w, steps[0]), steps[1..], id))
  }

  lemma {:induction false} RunKeepsHeld(w: World, steps: seq<Step>, id: nat)
    requires Ok(w) && CanRun(w, steps) && AlwaysApart(w, steps, id) && Held(w, id)
    ensures Ok(Run(w, steps)) && Held(Run(w, steps), id)
    decreases steps
  {
    if steps != [] {
      StepKeepsOk(w, steps[0]);
      StepKeepsHeld(w, steps[0], id);
      RunKeepsHeld(Exec(w, steps[0]), steps[1..], id);
    }
  }

  /** From one of its adds on, no other PortMapping claims the key of its last add. */
  ghost predicate ApartSinceAdd(w: World, steps: seq<Step>, id: nat)
    requires CanRun(w, steps)
    decreases steps
  {
    steps != []
    && (|| (steps[0] == Add(id) && AlwaysApart(Exec(w, steps[0]), steps[1..], id))
        || ApartSinceAdd(Exec(w, steps[0]), steps[1..], id))
  }

  /** So what came before that add, an overlap with another PortMapping included, does not matter. */
  lemma {:induction false} HeldSinceAdd(w: World, steps: seq<Step>, id: nat)
    requires Ok(w) && CanRun(w, steps) && ApartSinceAdd(w, steps, id)
    ensures Ok(Run(w, steps)) && Held(Run(w, steps), id)
    decreases steps
  {
    var w1 := Exec(w, steps[0]);
    StepKeepsOk(w, steps[0]);
    if steps[0] == Add(id) && AlwaysApart(w1, steps[1..], id) {
      AddIsHeld(w, id);
      RunKeepsHeld(w1, steps[1..], id);
    } else {
      HeldSinceAdd(w1, steps[1..], id);
    }
  }

  // ----- Keeping keys apart is what it takes -----

  /** Steps about the other PortMappings there are; none is edited, and no time passes. */
  ghost predicate AboutOthers(steps: seq<Step>, id: nat) {
    forall step | step in steps :: !step.Tick? && !step.Create? && !step.Edit? && step.id != id
  }

  /** Whatever the reconciles of other PortMappings go on to do, the last add stays in the router. */
  ghost predicate HeldAgainstOthers(w: World, id: nat) {
    forall steps | CanRun(w, steps) && AboutOthers(steps, id) :: Held(Run(w, steps), id)
  }

  /** Without edits a reconcile takes up no new claim. */
  lemma ClaimsShrink(w: World, step: Step, id: nat)
    requires Enabled(w, step) && !step.Tick? && !step.Create? && !step.Edit? && step.id != id
    requires id < |w.pms| && KeysApart(w, id)
    ensures KeysApart(Exec(w, step), id)
  {
    var w' := Exec(w, step);
    assert w'.pms[id] == w.pms[id];
    forall other, key | 0 <= other < |w'.pms| && Claims(w'.pms[other], key)
      ensures Claims(w.pms[other], key)
    {
    }
  }

  lemma {:induction false} ApartStaysHeld(w: World, steps: seq<Step>, id: nat)
    requires Ok(w) && CanRun(w, steps) && AboutOthers(steps, id) && id < |w.pms| && KeysApart(w, id) && Held(w, id)
    ensures Held(Run(w, steps), id)
    decreases steps
  {
    if steps != [] {
      StepKeepsOk(w, steps[0]);
      ClaimsShrink(w, steps[0], id);
      StepKeepsHeld(w, steps[0], id);
      ApartStaysHeld(Exec(w, steps[0]), steps[1..], id);
    }
  }

  /** The step by which a reconcile under way is given up. */
  function GiveUp(pm: Pm, id: nat): seq<Step> {
    match pm.phase
    case Sent(_, _) => [Refuse(id, true)]
    case Granted(_) => [LoseAnswer(id, true)]
    case Answered(_) => [PatchStatus(id, false)]
    case Patched(_) => [Requeue(id)]
    case _ => []
  }

  /** How a claim displaces the entry: by the add that was sent, or by giving up and deleting the current key. */
  function Displacement(pm: Pm, id: nat, key: RouterKey): seq<Step> {
    if pm.phase.Sent? && pm.phase.gen < |pm.specs| && KeyOf(pm.specs[pm.phase.gen]) == key then [Add(id)]
    else GiveUp(pm, id) + [Delete(id), Cleanup(id, true)]
  }

  lemma RunCons(w: World, step: Step, steps: seq<Step>)
    requires Enabled(w, step) && CanRun(Exec(w, step), steps)
    ensures CanRun(w, [step] + steps) && Run(w, [step] + steps) == Run(Exec(w, step), steps)
  {
    assert ([step] + steps)[1..] == steps;
  }

  /** A waiting PortMapping that is deleted takes the entry of its current key with it. */
  lemma DeletingDisplaces(w: World, other: nat)
    requires other < |w.pms| && w.pms[other].phase.Waiting? && |w.pms[other].specs| > 0
    ensures
      var key := KeyOf(w.pms[other].specs[|w.pms[other].specs| - 1]);
      var steps := [Delete(other), Cleanup(other, true)];
      && CanRun(w, steps) && key !in Run(w, steps).router && Run(w, steps).now == w.now
      && |Run(w, steps).pms| == |w.pms|
      && forall id | 0 <= id < |w.pms| && id != other :: Run(w, steps).pms[id] == w.pms[id]
  {
    var w1 := Exec(w, Delete(other));
    RunCons(w1, Cleanup(other, true), []);
    RunCons(w, Delete(other), [Cleanup(other, true)]);
    assert [Cleanup(other, true)] + [] == [Cleanup(other, true)];
    assert [Delete(other)] + [Cleanup(other, true)] == [Delete(other), Cleanup(other, true)];
  }

  lemma GivingUpWaits(w: World, other: nat)
    requires other < |w.pms| && |w.pms[other].specs| > 0 && GiveUp(w.pms[other], other) != []
    ensures
      var step := GiveUp(w.pms[other], other)[0];
      && Enabled(w, step) && step.id == other && !step.Tick? && !step.Create? && !step.Edit?
      && var w1 := Exec(w, step);
      && |w1.pms| == |w.pms| && w1.pms[other].phase.Waiting? && w1.pms[other].specs == w.pms[other].specs
      && w1.now == w.now && forall id | 0 <= id < |w.pms| && id != other :: w1.pms[id] == w.pms[id]
  {
  }

  lemma ClaimDisplaces(w: World, id: nat, other: nat, key: RouterKey)
    requires other < |w.pms| && other != id && id < |w.pms| && Claims(w.pms[other], key)
    ensures
      var steps := Displacement(w.pms[other], other, key);
      && CanRun(w, steps) && AboutOthers(steps, id)
      && var w' := Run(w, steps);
      && id < |w'.pms| && w'.pms[id] == w.pms[id] && w'.now == w.now
      && (key in w'.router ==> w'.router[key].owner == other)
  {
    var pm := w.pms[other];
    var steps := Displacement(pm, other, key);
    if pm.phase.Sent? && pm.phase.gen < |pm.specs| && KeyOf(pm.specs[pm.phase.gen]) == key {
      RunCons(w, Add(other), []);
      assert [Add(other)] + [] == [Add(other)];
    } else if pm.phase.Waiting? {
      DeletingDisplaces(w, other);
      assert steps == [Delete(other), Cleanup(other, true)];
    } else {
      GivingUpWaits(w, other);
      var w1 := Exec(w, steps[0]);
      DeletingDisplaces(w1, other);
      RunCons(w, steps[0], [Delete(other), Cleanup(other, true)]);
      assert steps == [steps[0]] + [Delete(other), Cleanup(other, true)];
    }
  }

  /**
   In every run, while its lease runs, the entry of a PortMapping survives whatever the reconciles
   and deletions of the other PortMappings go on to do if and only if none of them claims its key.
   */
  lemma HeldAgainstOthersIff(steps: seq<Step>, id: nat)
    requires CanRun(INITIAL, steps)
    requires
      var w := Run(INITIAL, steps);
      && id < |w.pms| && !w.pms[id].phase.Gone? && w.pms[id].lastGrant.Some?
      && w.now < w.pms[id].lastGrant.value.at + LEASE && Held(w, id)
    ensures HeldAgainstOthers(Run(INITIAL, steps), id) <==> KeysApart(Run(INITIAL, steps), id)
  {
    RunKeepsOk(INITIAL, steps);
    var w := Run(INITIAL, steps);
    assert PmOk(w.pms[id], w.now);
    if KeysApart(w, id) {
      forall more | CanRun(w, more) && AboutOthers(more, id)
        ensures Held(Run(w, more), id)
      {
        ApartStaysHeld(w, more, id);
      }
    } else {
      var key := KeyOf(w.pms[id].specs[w.pms[id].lastGrant.value.gen]);
      var other :| 0 <= other < |w.pms| && other != id && Claims(w.pms[other], key);
      ClaimDisplaces(w, id, other, key);
      assert !Held(Run(w, Displacement(w.pms[other], other, key)), id);
    }
  }

  // ----- Timely runs -----

  /**
   Bounds on request latency, response latency, the query and patch after an add, and wake-up
   delay; and whether the patch of the status may fail.
   */
  datatype Bounds = Bounds(request: nat, response: nat, query: nat, wake: nat, patchMayFail: bool)

  /** The longest pause after an add that leaves little of the lease: the clamp, or the retry of a failed patch. */
  function LatePause(b: Bounds): nat {
    (if b.patchMayFail then ERROR_REQUEUE_SECS else MIN_REQUEUE_SECS) * SECOND
  }

  /** The latencies fit in the renewal buffer, and with the query and the late pause they fit in the lease. */
  ghost predicate Admissible(b: Bounds) {
    && b.response + b.wake + b.request < RENEWAL_BUFFER_SECS * SECOND
    && b.response + b.query + LatePause(b) + b.wake + b.request < LEASE
  }

  /** In nanoseconds: the buffer is 30 seconds, the late pause 10 or 30, and the lease 3600. */
  lemma AdmissibleInNumbers(b: Bounds)
    ensures Admissible(b)
       <==> && b.response + b.wake + b.request < 30_000_000_000
            && b.response + b.query + (if b.patchMayFail then 30_000_000_000 else 10_000_000_000) + b.wake + b.request
               < 3_600_000_000_000
  {
  }

  /** How late a PortMapping's reconcile may move on from its phase. */
  ghost predicate InTime(phase: Phase, now: Time, b: Bounds) {
    match phase
    case Waiting(wakeAt) => now <= wakeAt + b.wake
    case Sent(_, sentAt) => now <= sentAt + b.request
    case Granted(at) => now <= at + b.response
    case Answered(readAt) => now <= readAt + b.query
    case Patched(readAt) => now <= readAt + b.query
    case Gone => true
  }

  /** A step that keeps one PortMapping timely: time does not pass its deadlines, and its adds succeed. */
  ghost predicate Timely(w: World, step: Step, id: nat, b: Bounds) {
    match step
    case Tick(elapsed) => id < |w.pms| ==> InTime(w.pms[id].phase, w.now + elapsed, b)
    case Refuse(other, _) => other != id
    case LoseAnswer(other, _) => other != id
    case PatchStatus(other, false) => other == id ==> b.patchMayFail
    case _ => true
  }

  ghost predicate TimelyRun(w: World, steps: seq<Step>, id: nat, b: Bounds)
    requires CanRun(w, steps)
    decreases steps
  {
    steps != [] ==> Timely(w, steps[0], id, b) && TimelyRun(Exec(w, steps[0]), steps[1..], id, b)
  }

  /**
   From one of its adds on, the PortMapping is kept timely and its key apart. Whatever failed or
   was late before does not matter, except that a prompt add is one that reached the router in time.
   */
  ghost predicate KeptSinceAdd(w: World, steps: seq<Step>, id: nat, b: Bounds, prompt: bool)
    requires CanRun(w, steps)
    decreases steps
  {
    steps != []
    && (|| (&& steps[0] == Add(id) && (prompt ==> InTime(w.pms[id].phase, w.now, b))
            && TimelyRun(Exec(w, steps[0]), steps[1..], id, b) && AlwaysApart(Exec(w, steps[0]), steps[1..], id))
        || KeptSinceAdd(Exec(w, steps[0]), steps[1..], id, b, prompt))
  }

  lemma {:induction false} KeptIsApart(w: World, steps: seq<Step>, id: nat, b: Bounds, prompt: bool)
    requires CanRun(w, steps) && KeptSinceAdd(w, steps, id, b, prompt)
    ensures ApartSinceAdd(w, steps, id)
    decreases steps
  {
    var w1 := Exec(w, steps[0]);
    if KeptSinceAdd(w1, steps[1..], id, b, prompt) {
      KeptIsApart(w1, steps[1..], id, b, prompt);
    }
  }

  /** The phase is in time, and its next add reaches the router before the last one runs out. */
  ghost predicate OnSchedule(pm: Pm, now: Time, b: Bounds) {
    && InTime(pm.phase, now, b)
    && (pm.lastGrant.Some? ==>
          var granted := pm.lastGrant.value.at;
          && (pm.status.Some? && pm.status.value.active && pm.status.value.leaseExpiry.Some? ==>
                pm.status.value.leaseExpiry.value <= granted + b.response + LEASE)
          && match pm.phase
             case Waiting(wakeAt) => wakeAt + b.wake + b.request < granted + LEASE
             case Sent(_, sentAt) => sentAt + b.request < granted + LEASE
             case Granted(at) => true
             case Answered(readAt) => readAt <= granted + b.response
             case Patched(readAt) => readAt <= granted + b.response
             case Gone => true)
    && (pm.status.Some? && pm.status.value.active ==> pm.lastGrant.Some?)
  }

  lemma StepKeepsSchedule(pm: Pm, now: Time, step: Step, b: Bounds)
    requires Admissible(b) && PmOk(pm, now) && OnSchedule(pm, now, b) && Ready(pm, step)
    requires !step.Refuse? && !step.LoseAnswer?
    requires step.PatchStatus? && !step.patched ==> b.patchMayFail
    ensures OnSchedule(ExecPm(pm, now, step), now, b)
  {
    match step {
      case Trigger(_) =>
        if RenewalWait(pm.status, now).Some? {
          WaitedLongEnough(pm.status, now);
        }
      case Requeue(_) => RequeuedLongEnough(pm.phase.readAt, now);
      case _ =>
    }
  }

  /** A superseded generation was added, if at all, within one request latency of being superseded. */
  ghost predicate StaleSince(pm: Pm, b: Bounds) {
    pm.lastGrant.Some? && pm.lastGrant.value.gen + 1 < |pm.edits| ==>
      pm.lastGrant.value.at <= pm.edits[pm.lastGrant.value.gen + 1] + b.request
  }

  ghost predicate Scheduled(w: World, id: nat, b: Bounds, prompt: bool) {
    id < |w.pms| && w.pms[id].lastGrant.Some? && OnSchedule(w.pms[id], w.now, b)
    && (prompt ==> StaleSince(w.pms[id], b))
  }

  lemma StepKeepsStaleSince(pm: Pm, now: Time, step: Step, b: Bounds)
    requires PmOk(pm, now) && InTime(pm.phase, now, b) && StaleSince(pm, b) && Ready(pm, step)
    ensures StaleSince(ExecPm(pm, now, step), b)
  {
  }

  /** An add puts its PortMapping on schedule, whatever came before. */
  lemma AddIsScheduled(w: World, id: nat, b: Bounds, prompt: bool)
    requires Ok(w) && Enabled(w, Add(id)) && (prompt ==> InTime(w.pms[id].phase, w.now, b))
    ensures Scheduled(Exec(w, Add(id)), id, b, prompt)
  {
    assert PmOk(w.pms[id], w.now);
  }

  lemma StepKeepsScheduled(w: World, step: Step, id: nat, b: Bounds, prompt: bool)
    requires Admissible(b) && Ok(w) && Scheduled(w, id, b, prompt)
    requires Enabled(w, step) && Timely(w, step, id, b)
    ensures Scheduled(Exec(w, step), id, b, prompt)
  {
    var pm := w.pms[id];
    assert PmOk(pm, w.now);
    if !step.Tick? && !step.Create? && step.id == id {
      StepKeepsSchedule(pm, w.now, step, b);
      if prompt {
        StepKeepsStaleSince(pm, w.now, step, b);
      }
    }
  }

  lemma {:induction false} RunKeepsScheduled(w: World, steps: seq<Step>, id: nat, b: Bounds, prompt: bool)
    requires Admissible(b) && Ok(w) && Scheduled(w, id, b, prompt) && CanRun(w, steps) && TimelyRun(w, steps, id, b)
    ensures Ok(Run(w, steps)) && Scheduled(Run(w, steps), id, b, prompt)
    decreases steps
  {
    if steps != [] {
      StepKeepsOk(w, steps[0]);
      StepKeepsScheduled(w, steps[0], id, b, prompt);
      RunKeepsScheduled(Exec(w, steps[0]), steps[1..], id, b, prompt);
    }
  }

  lemma {:induction false} ScheduledSinceAdd(w: World, steps: seq<Step>, id: nat, b: Bounds, prompt: bool)
    requires Admissible(b) && Ok(w) && CanRun(w, steps) && KeptSinceAdd(w, steps, id, b, prompt)
    ensures Ok(Run(w, steps)) && Scheduled(Run(w, steps), id, b, prompt)
    decreases steps
  {
    var w1 := Exec(w, steps[0]);
    StepKeepsOk(w, steps[0]);
    if KeptSinceAdd(w1, steps[1..], id, b, prompt) {
      ScheduledSinceAdd(w1, steps[1..], id, b, prompt);
    } else {
      AddIsScheduled(w, id, b, prompt);
      RunKeepsScheduled(w1, steps[1..], id, b, prompt);
    }
  }

  /**
   Lease continuity. Once a PortMapping has been added, and from then on is kept timely and its
   key is claimed by no other, the router holds its last added generation and the lease of
   that add is running, at every moment; whatever happened before that add.
   */
  lemma LeaseNeverLapses(steps: seq<Step>, id: nat, b: Bounds)
    requires Admissible(b) && CanRun(INITIAL, steps) && KeptSinceAdd(INITIAL, steps, id, b, false)
    ensures
      var w := Run(INITIAL, steps);
      && id < |w.pms| && w.pms[id].lastGrant.Some?
      && var pm := w.pms[id];
      var grant := pm.lastGrant.value;
      && grant.gen < |pm.specs|
      && (!pm.phase.Gone? ==>
            && w.now < grant.at + LEASE
            && KeyOf(pm.specs[grant.gen]) in w.router
            && w.router[KeyOf(pm.specs[grant.gen])] == EntryOf(pm, id, grant.gen, grant.at))
  {
    ScheduledSinceAdd(INITIAL, steps, id, b, false);
    KeptIsApart(INITIAL, steps, id, b, false);
    HeldSinceAdd(INITIAL, steps, id);
    var w := Run(INITIAL, steps);
    assert PmOk(w.pms[id], w.now);
  }

  /** What the current spec of a PortMapping asks for is in the router, from its last add. */
  ghost predicate UpToDate(w: World, id: nat)
    requires id < |w.pms| && w.pms[id].lastGrant.Some? && |w.pms[id].specs| > 0
  {
    var pm := w.pms[id];
    var current := |pm.specs| - 1;
    && KeyOf(pm.specs[current]) in w.router
    && w.router[KeyOf(pm.specs[current])] == EntryOf(pm, id, current, pm.lastGrant.value.at)
  }

  /**
   Bounded staleness. In the same runs, with a prompt add, the router's entry for the PortMapping
   matches its current spec, except for at most one lease and one request latency after the edit
   that superseded the entry's generation; and that entry's own lease is then still running.
   */
  lemma StalenessIsBounded(steps: seq<Step>, id: nat, b: Bounds)
    requires Admissible(b) && CanRun(INITIAL, steps) && KeptSinceAdd(INITIAL, steps, id, b, true)
    ensures
      var w := Run(INITIAL, steps);
      && id < |w.pms| && w.pms[id].lastGrant.Some?
      && var pm := w.pms[id];
      var grant := pm.lastGrant.value;
      && |pm.edits| == |pm.specs| > grant.gen
      && (!pm.phase.Gone? && !UpToDate(w, id) ==>
            && grant.gen + 1 < |pm.specs|
            && w.now < grant.at + LEASE && w.now < pm.edits[grant.gen + 1] + b.request + LEASE)
  {
    ScheduledSinceAdd(INITIAL, steps, id, b, true);
    KeptIsApart(INITIAL, steps, id, b, true);
    HeldSinceAdd(INITIAL, steps, id);
    var w := Run(INITIAL, steps);
    assert PmOk(w.pms[id], w.now);
  }

  // ----- The bounds are exact -----

  lemma TimelyCons(w: World, step: Step, steps: seq<Step>, b: Bounds)
    requires |w.pms| <= 1 && Enabled(w, step) && Timely(w, step, 0, b)
    requires CanRun(Exec(w, step), steps) && TimelyRun(Exec(w, step), steps, 0, b)
    requires AlwaysApart(Exec(w, step), steps, 0)
    ensures CanRun(w, [step] + steps) && TimelyRun(w, [step] + steps, 0, b) && AlwaysApart(w, [step] + steps, 0)
    ensures Run(w, [step] + steps) == Run(Exec(w, step), steps)
  {
    assert ([step] + steps)[1..] == steps;
  }

  /** A run that is timely and apart from the start is so from its first add on. */
  lemma {:induction false} TimelyRunIsKept(w: World, steps: seq<Step>, id: nat, b: Bounds)
    requires CanRun(w, steps) && TimelyRun(w, steps, id, b) && AlwaysApart(w, steps, id) && Add(id) in steps
    ensures KeptSinceAdd(w, steps, id, b, false)
    decreases steps
  {
    if steps[0] != Add(id) {
      assert Add(id) in steps[1..];
      TimelyRunIsKept(Exec(w, steps[0]), steps[1..], id, b);
    }
  }

  /** The pause after an add whose answer and query take as long as given. */
  function PauseAfter(b: Bounds, query: nat): nat {
    RequeueAfterAdd(ActiveStatus(b.response).leaseExpiry, b.response + query) * SECOND
  }

  /** The run that makes the most of every latency, up to the moment the renewed add would arrive. */
  function SlowestRun(b: Bounds, query: nat, spec: PortMappingSpec): (steps: seq<Step>)
    ensures |steps| == 11
  {
    [Create("m", spec), Trigger(0), Add(0), Tick(b.response), ReadAnswer(0), Tick(query), PatchStatus(0, true),
     Requeue(0), Tick(PauseAfter(b, query) + b.wake), Trigger(0), Tick(b.request)]
  }

  function OneMapping(now: Time, spec: PortMappingSpec, phase: Phase, status: Option<PortMappingStatus>,
                      added: bool): World
  {
    var pm := Pm("m", [spec], [0], status, phase, if added then Some(Grant(0, 0)) else None, false);
    World(now, [pm], if added && now < LEASE then map[KeyOf(spec) := EntryOf(pm, 0, 0, 0)] else map[])
  }

  /** The world after `k` steps of that run. */
  function SlowestAt(b: Bounds, query: nat, spec: PortMappingSpec, k: nat): World {
    var status := Some(ActiveStatus(b.response));
    var wakeAt := b.response + query + PauseAfter(b, query);
    match k
    case 0 => INITIAL
    case 1 => OneMapping(0, spec, Waiting(0), None, false)
    case 2 => OneMapping(0, spec, Sent(0, 0), None, false)
    case 3 => OneMapping(0, spec, Granted(0), None, true)
    case 4 => OneMapping(b.response, spec, Granted(0), None, true)
    case 5 => OneMapping(b.response, spec, Answered(b.response), None, true)
    case 6 => OneMapping(b.response + query, spec, Answered(b.response), None, true)
    case 7 => OneMapping(b.response + query, spec, Patched(b.response), status, true)
    case 8 => OneMapping(b.response + query, spec, Waiting(wakeAt), status, true)
    case 9 => OneMapping(wakeAt + b.wake, spec, Waiting(wakeAt), status, true)
    case 10 => OneMapping(wakeAt + b.wake, spec, Sent(0, wakeAt + b.wake), status, true)
    case _ => OneMapping(wakeAt + b.wake + b.request, spec, Sent(0, wakeAt + b.wake), status, true)
  }

  lemma OneMappingTicks(now: Time, spec: PortMappingSpec, phase: Phase, status: Option<PortMappingStatus>,
                        added: bool, elapsed: nat)
    ensures Exec(OneMapping(now, spec, phase, status, added), Tick(elapsed))
         == OneMapping(now + elapsed, spec, phase, status, added)
  {
  }

  ghost predicate LeadsTo(w: World, step: Step, w': World, b: Bounds) {
    |w.pms| <= 1 && Enabled(w, step) && Timely(w, step, 0, b) && Exec(w, step) == w'
  }

  /** The first add of that run, up to the reading of its answer. */
  lemma SlowestAdd(b: Bounds, query: nat, spec: PortMappingSpec, k: nat)
    requires k < 5
    ensures LeadsTo(SlowestAt(b, query, spec, k), SlowestRun(b, query, spec)[k], SlowestAt(b, query, spec, k + 1), b)
  {
    if k == 3 {
      OneMappingTicks(0, spec, Granted(0), None, true, b.response);
    }
  }

  lemma SlowestRecord(b: Bounds, query: nat, spec: PortMappingSpec, k: nat)
    requires 5 <= k < 8 && query <= b.query
    ensures LeadsTo(SlowestAt(b, query, spec, k), SlowestRun(b, query, spec)[k], SlowestAt(b, query, spec, k + 1), b)
  {
    if k == 5 {
      OneMappingTicks(b.response, spec, Answered(b.response), None, true, query);
    }
  }

  /** The wake-up comes as late as it may. */
  lemma SlowestWake(b: Bounds, query: nat, spec: PortMappingSpec)
    ensures LeadsTo(SlowestAt(b, query, spec, 8), SlowestRun(b, query, spec)[8], SlowestAt(b, query, spec, 9), b)
  {
    var wakeAt := b.response + query + PauseAfter(b, query);
    OneMappingTicks(b.response + query, spec, Waiting(wakeAt), Some(ActiveStatus(b.response)), true,
                    PauseAfter(b, query) + b.wake);
  }

  lemma SlowestRenewal(b: Bounds, query: nat, spec: PortMappingSpec)
    ensures LeadsTo(SlowestAt(b, query, spec, 9), SlowestRun(b, query, spec)[9], SlowestAt(b, query, spec, 10), b)
  {
    var status := Some(ActiveStatus(b.response));
    var wakeAt := b.response + query + PauseAfter(b, query);
    RequeuedLongEnough(b.response, b.response + query);
    DueIsLasting(status, wakeAt, wakeAt + b.wake);
  }

  lemma SlowestRequest(b: Bounds, query: nat, spec: PortMappingSpec)
    ensures LeadsTo(SlowestAt(b, query, spec, 10), SlowestRun(b, query, spec)[10], SlowestAt(b, query, spec, 11), b)
  {
    var wakeAt := b.response + query + PauseAfter(b, query);
    OneMappingTicks(wakeAt + b.wake, spec, Sent(0, wakeAt + b.wake), Some(ActiveStatus(b.response)), true, b.request);
  }

  /** A chain of timely steps through worlds of at most one PortMapping is a timely run. */
  lemma {:induction false} ChainIsTimely(worlds: seq<World>, steps: seq<Step>, b: Bounds)
    requires |worlds| == |steps| + 1 && |worlds[|steps|].pms| <= 1
    requires forall k | 0 <= k < |steps| :: LeadsTo(worlds[k], steps[k], worlds[k + 1], b)
    ensures CanRun(worlds[0], steps) && TimelyRun(worlds[0], steps, 0, b) && AlwaysApart(worlds[0], steps, 0)
    ensures Run(worlds[0], steps) == worlds[|steps|]
    decreases steps
  {
    if steps != [] {
      assert LeadsTo(worlds[0], steps[0], worlds[1], b);
      forall k | 0 <= k < |steps[1..]|
        ensures LeadsTo(worlds[1..][k], steps[1..][k], worlds[1..][k + 1], b)
      {
        assert LeadsTo(worlds[k + 1], steps[k + 1], worlds[k + 2], b);
      }
      ChainIsTimely(worlds[1..], steps[1..], b);
      TimelyCons(worlds[0], steps[0], steps[1..], b);
      assert steps == [steps[0]] + steps[1..];
    }
  }

  lemma SlowestRunIsTimely(b: Bounds, query: nat, spec: PortMappingSpec)
    requires query <= b.query
    ensures
      var steps := SlowestRun(b, query, spec);
      && CanRun(INITIAL, steps) && KeptSinceAdd(INITIAL, steps, 0, b, false)
      && Run(INITIAL, steps) == SlowestAt(b, query, spec, 11)
  {
    var steps := SlowestRun(b, query, spec);
    var worlds := seq(12, k requires 0 <= k < 12 => SlowestAt(b, query, spec, k));
    forall k | 0 <= k < |steps|
      ensures LeadsTo(worlds[k], steps[k], worlds[k + 1], b)
    {
      if k < 5 {
        SlowestAdd(b, query, spec, k);
      } else if k < 8 {
        SlowestRecord(b, query, spec, k);
      } else if k == 8 {
        SlowestWake(b, query, spec);
      } else if k == 9 {
        SlowestRenewal(b, query, spec);
      } else {
        SlowestRequest(b, query, spec);
      }
    }
    ChainIsTimely(worlds, steps, b);
    assert steps[2] == Add(0);
    TimelyRunIsKept(INITIAL, steps, 0, b);
  }

  // ----- A refusal just before the retry would come too late -----

  const EARLY: nat := 3569 * SECOND + SECOND / 2

  /** A run in which some event triggers the renewal half a second before its timer. */
  function EarlyRun(spec: PortMappingSpec): (steps: seq<Step>)
    ensures |steps| == 8
  {
    [Create("m", spec), Trigger(0), Add(0), ReadAnswer(0), PatchStatus(0, true), Requeue(0), Tick(EARLY), Trigger(0)]
  }

  function EarlyAt(spec: PortMappingSpec, k: nat): World {
    var status := Some(ActiveStatus(0));
    match k
    case 0 => INITIAL
    case 1 => OneMapping(0, spec, Waiting(0), None, false)
    case 2 => OneMapping(0, spec, Sent(0, 0), None, false)
    case 3 => OneMapping(0, spec, Granted(0), None, true)
    case 4 => OneMapping(0, spec, Answered(0), None, true)
    case 5 => OneMapping(0, spec, Patched(0), status, true)
    case 6 => OneMapping(0, spec, Waiting(3570 * SECOND), status, true)
    case 7 => OneMapping(EARLY, spec, Waiting(3570 * SECOND), status, true)
    case _ => OneMapping(EARLY, spec, Sent(0, EARLY), status, true)
  }

  lemma EarlyAdd(spec: PortMappingSpec, k: nat)
    requires k < 5
    ensures LeadsTo(EarlyAt(spec, k), EarlyRun(spec)[k], EarlyAt(spec, k + 1), Bounds(0, 0, 0, 0, false))
  {
  }

  lemma EarlyRenewal(spec: PortMappingSpec, k: nat)
    requires 5 <= k < 8
    ensures LeadsTo(EarlyAt(spec, k), EarlyRun(spec)[k], EarlyAt(spec, k + 1), Bounds(0, 0, 0, 0, false))
  {
    assert NumSeconds(LEASE) == 3600;
    if k == 6 {
      OneMappingTicks(0, spec, Waiting(3570 * SECOND), Some(ActiveStatus(0)), true, EARLY);
    } else if k == 7 {
      DueExactlyWhenBufferReached(0, EARLY);
    }
  }

  /** The exception of `RetryTimerInsideLeaseIff` is reachable: a refusal whose retry is still in time. */
  lemma RetryTimerCanBeInsideLease(spec: PortMappingSpec)
    ensures CanRun(INITIAL, EarlyRun(spec))
    ensures
      var w := Run(INITIAL, EarlyRun(spec));
      && RefusesRenewal(w, 0, false)
      && w.pms[0].lastGrant.value.at <= w.now < w.pms[0].lastGrant.value.at + 3570 * SECOND
      && Exec(w, Refuse(0, false)).pms[0].phase.wakeAt < w.pms[0].lastGrant.value.at + LEASE
  {
    var steps := EarlyRun(spec);
    var worlds := seq(9, k requires 0 <= k < 9 => EarlyAt(spec, k));
    forall k | 0 <= k < |steps|
      ensures LeadsTo(worlds[k], steps[k], worlds[k + 1], Bounds(0, 0, 0, 0, false))
    {
      if k < 5 {
        EarlyAdd(spec, k);
      } else {
        EarlyRenewal(spec, k);
      }
    }
    ChainIsTimely(worlds, steps, Bounds(0, 0, 0, 0, false));
    RetryTimerInsideLeaseIff(steps, 0, false);
  }

  // ----- A failed status patch that comes as late as it may -----

  function FailedRun(b: Bounds, spec: PortMappingSpec): (steps: seq<Step>)
    ensures |steps| == 10
  {
    [Create("m", spec), Trigger(0), Add(0), Tick(b.response), ReadAnswer(0), Tick(b.query), PatchStatus(0, false),
     Tick(ERROR_REQUEUE_SECS * SECOND + b.wake), Trigger(0), Tick(b.request)]
  }

  function FailedAt(b: Bounds, spec: PortMappingSpec, k: nat): World {
    var wakeAt := b.response + b.query + ERROR_REQUEUE_SECS * SECOND;
    if k <= 6 then SlowestAt(b, b.query, spec, k)
    else match k
      case 7 => OneMapping(b.response + b.query, spec, Waiting(wakeAt), None, true)
      case 8 => OneMapping(wakeAt + b.wake, spec, Waiting(wakeAt), None, true)
      case 9 => OneMapping(wakeAt + b.wake, spec, Sent(0, wakeAt + b.wake), None, true)
      case _ => OneMapping(wakeAt + b.wake + b.request, spec, Sent(0, wakeAt + b.wake), None, true)
  }

  lemma FailedRetry(b: Bounds, spec: PortMappingSpec, k: nat)
    requires 6 <= k < 10 && b.patchMayFail
    ensures LeadsTo(FailedAt(b, spec, k), FailedRun(b, spec)[k], FailedAt(b, spec, k + 1), b)
  {
    var wakeAt := b.response + b.query + ERROR_REQUEUE_SECS * SECOND;
    if k == 7 {
      OneMappingTicks(b.response + b.query, spec, Waiting(wakeAt), None, true, ERROR_REQUEUE_SECS * SECOND + b.wake);
    } else if k == 9 {
      OneMappingTicks(wakeAt + b.wake, spec, Sent(0, wakeAt + b.wake), None, true, b.request);
    }
  }

  lemma FailedRunIsTimely(b: Bounds, spec: PortMappingSpec)
    requires b.patchMayFail
    ensures
      var steps := FailedRun(b, spec);
      && CanRun(INITIAL, steps) && KeptSinceAdd(INITIAL, steps, 0, b, false)
      && Run(INITIAL, steps) == FailedAt(b, spec, 10)
  {
    var steps := FailedRun(b, spec);
    var worlds := seq(11, k requires 0 <= k < 11 => FailedAt(b, spec, k));
    forall k | 0 <= k < |steps|
      ensures LeadsTo(worlds[k], steps[k], worlds[k + 1], b)
    {
      if k < 5 {
        SlowestAdd(b, b.query, spec, k);
      } else if k == 5 {
        SlowestRecord(b, b.query, spec, k);
      } else {
        FailedRetry(b, spec, k);
      }
    }
    ChainIsTimely(worlds, steps, b);
    assert steps[2] == Add(0);
    TimelyRunIsKept(INITIAL, steps, 0, b);
  }

  // ----- Timely runs lapse exactly beyond the bounds -----

  /** Some run that keeps a PortMapping since an add nevertheless lets the lease of its last add run out. */
  ghost predicate CanLapse(b: Bounds) {
    exists steps, id :: LapsesIn(steps, id, b)
  }

  ghost predicate LapsesIn(steps: seq<Step>, id: nat, b: Bounds) {
    CanRun(INITIAL, steps) && KeptSinceAdd(INITIAL, steps, id, b, false)
    && var w := Run(INITIAL, steps);
    id < |w.pms| && !w.pms[id].phase.Gone? && w.pms[id].lastGrant.Some? && w.now >= w.pms[id].lastGrant.value.at + LEASE
  }

  /** The buffer arithmetic is exact: kept leases can lapse if and only if the bounds are not admissible. */
  lemma LapsesExactlyBeyondBounds(b: Bounds)
    ensures CanLapse(b) <==> !Admissible(b)
  {
    var spec := PortMappingSpec(80, "192.168.0.2", 8080, Tcp, None);
    if Admissible(b) {
      forall steps, id | CanRun(INITIAL, steps) && KeptSinceAdd(INITIAL, steps, id, b, false)
        ensures !LapsesIn(steps, id, b)
      {
        LeaseNeverLapses(steps, id, b);
      }
    } else if b.patchMayFail && b.response + b.wake + b.request < RENEWAL_BUFFER_SECS * SECOND {
      FailedRunIsTimely(b, spec);
      assert LapsesIn(FailedRun(b, spec), 0, b);
    } else {
      var query := if b.response + b.wake + b.request < RENEWAL_BUFFER_SECS * SECOND then b.query else 0;
      SlowestRunPauses(b, query);
      SlowestRunIsTimely(b, query, spec);
      assert LapsesIn(SlowestRun(b, query, spec), 0, b);
    }
  }

  lemma SlowestRunPauses(b: Bounds, query: nat)
    requires query == 0 || query == b.query
    requires b.response + b.wake + b.request >= RENEWAL_BUFFER_SECS * SECOND
      || b.response + query + MIN_REQUEUE_SECS * SECOND + b.wake + b.request >= LEASE
    requires b.response + b.wake + b.request >= RENEWAL_BUFFER_SECS * SECOND ==> query == 0
    ensures b.response + query + PauseAfter(b, query) + b.wake + b.request >= LEASE
  {
    RequeuedLongEnough(b.response, b.response + query);
    if query == 0 {
      assert NumSeconds(LEASE) == 3600;
    }
  }
}
