/**
 The PortMapping controller against a router that leases its NAT entries. Reconciling one
 PortMapping is an asynchronous function, so it is split at its awaits; runs interleave these
 steps over any number of PortMappings with the passing of time, spec edits and deletions.

 The router's actions are AddPortMapping and DeletePortMapping (sections 2.4.16 and 2.4.17 of
 UPnP WANIPConnection:1): an entry is keyed by external port and protocol, an add overwrites,
 and an entry is dropped when its lease has run out.
 */
module Lease {
  import opened Wrappers
  import opened Text
  import opened PortMappings

  const SECOND: Time := 1_000_000_000
  const DEFAULT_LEASE_SECS: u32 := 3600
  const RENEWAL_BUFFER_SECS: int := 30
  const MIN_REQUEUE_SECS: int := 10
  const FAILURE_REQUEUE_SECS: nat := 60
  const ERROR_REQUEUE_SECS: nat := 30
  const LEASE: Time := DEFAULT_LEASE_SECS * SECOND

  function Max(a: int, b: int): int {
    if a < b then b else a
  }

  /** `Duration::num_seconds`, which truncates toward zero. */
  function NumSeconds(d: Time): (secs: int)
    ensures d >= 0 ==> 0 <= d - secs * 1_000_000_000 < 1_000_000_000
    ensures d < 0 ==> -1_000_000_000 < d - secs * 1_000_000_000 <= 0
  {
    if d >= 0 then d / SECOND else -(-d / SECOND)
  }

  // ----- The decisions of one reconcile -----

  /** The early return: how many seconds to wait, or nothing when the mapping has to be added now. */
  function RenewalWait(status: Option<PortMappingStatus>, now: Time): Option<nat> {
    if status.Some? && status.value.active && status.value.leaseExpiry.Some?
       && NumSeconds(status.value.leaseExpiry.value - now) > RENEWAL_BUFFER_SECS
    then Some(Max(NumSeconds(status.value.leaseExpiry.value - now) - RENEWAL_BUFFER_SECS, 1))
    else None
  }

  /** The expiry recorded when the answer to an add is read; a zero lease is permanent. */
  function RecordedExpiry(readAt: Time, leaseSecs: u32): Option<Time> {
    if leaseSecs > 0 then Some(readAt + leaseSecs * SECOND) else None
  }

  function ActiveStatus(readAt: Time): PortMappingStatus {
    PortMappingStatus(true, RecordedExpiry(readAt, DEFAULT_LEASE_SECS), Some(readAt))
  }

  const INACTIVE := PortMappingStatus(false, None, None)

  function RequeueAfterAdd(expiry: Option<Time>, now: Time): nat {
    match expiry
    case Some(e) => Max(NumSeconds(e - now) - RENEWAL_BUFFER_SECS, MIN_REQUEUE_SECS)
    case None => 3600
  }

  /** An active mapping is due exactly when more than 3569 seconds have passed since its recorded renewal. */
  lemma DueExactlyWhenBufferReached(renewedAt: Time, now: Time)
    ensures RenewalWait(Some(ActiveStatus(renewedAt)), now).None? <==> now > renewedAt + 3569 * SECOND
  {
    var left := renewedAt + LEASE - now;
    assert left >= 31 * SECOND <==> NumSeconds(left) >= 31;
  }

  /** What is not active, or has no expiry, is due at any time. */
  lemma InactiveIsDue(status: Option<PortMappingStatus>, now: Time)
    requires status.None? || !status.value.active || status.value.leaseExpiry.None?
    ensures RenewalWait(status, now).None?
  {
  }

  /** A zero lease has no expiry and is looked at again after an hour; any other ends that many seconds later. */
  lemma ZeroLeaseIsPermanent(readAt: Time, leaseSecs: u32, now: Time)
    ensures RecordedExpiry(readAt, leaseSecs)
         == if leaseSecs == 0 then None else Some(readAt + leaseSecs * 1_000_000_000)
    ensures RequeueAfterAdd(RecordedExpiry(readAt, 0), now) == 3600
  {
  }

  /** Once due, a mapping stays due. */
  lemma DueIsLasting(status: Option<PortMappingStatus>, now: Time, later: Time)
    requires RenewalWait(status, now).None? && now <= later
    ensures RenewalWait(status, later).None?
  {
  }

  /** Waiting as long as the early return says makes the mapping due. */
  lemma WaitedLongEnough(status: Option<PortMappingStatus>, now: Time)
    requires RenewalWait(status, now).Some?
    ensures RenewalWait(status, now + RenewalWait(status, now).value * SECOND).None?
    ensures now + RenewalWait(status, now).value * SECOND
         <= status.value.leaseExpiry.value - RENEWAL_BUFFER_SECS * SECOND
  {
    var left := status.value.leaseExpiry.value - now;
    var wait := RenewalWait(status, now).value;
    assert wait == NumSeconds(left) - RENEWAL_BUFFER_SECS;
    assert NumSeconds(left) * SECOND <= left < (NumSeconds(left) + 1) * SECOND;
  }

  /** So does waiting as long as the requeue after an add says; it keeps the buffer or is the ten-second clamp. */
  lemma RequeuedLongEnough(readAt: Time, now: Time)
    ensures
      var wakeAt := now + RequeueAfterAdd(ActiveStatus(readAt).leaseExpiry, now) * SECOND;
      && RenewalWait(Some(ActiveStatus(readAt)), wakeAt).None?
      && now + MIN_REQUEUE_SECS * SECOND <= wakeAt
      && wakeAt <= Max(readAt + LEASE - RENEWAL_BUFFER_SECS * SECOND, now + MIN_REQUEUE_SECS * SECOND)
  {
    var left := readAt + LEASE - now;
    var secs := NumSeconds(left);
    if left >= 0 {
      assert secs * SECOND <= left < (secs + 1) * SECOND;
    } else {
      assert secs <= 0;
    }
  }

  // ----- PortMappings, the router, and runs -----

  datatype RouterKey = RouterKey(port: u16, protocol: Protocol)

  /** A NAT entry, with the PortMapping, spec generation and time of the add that made it. */
  datatype Entry = Entry(client: string, port: u16, description: string, owner: nat, gen: nat, grantedAt: Time)

  datatype Phase =
    | Waiting(wakeAt: Time)
    | Sent(gen: nat, sentAt: Time)
    | Granted(at: Time)
    | Answered(readAt: Time)
    | Patched(readAt: Time)
    | Gone

  datatype Grant = Grant(at: Time, gen: nat)

  /**
   A PortMapping with its history: `specs` holds every generation of its spec and `edits` the
   time each was written; `lastGrant` is the last add the router performed for it.
   */
  datatype Pm = Pm(
    name: string,
    specs: seq<PortMappingSpec>,
    edits: seq<Time>,
    status: Option<PortMappingStatus>,
    phase: Phase,
    lastGrant: Option<Grant>,
    deleting: bool)

  /** PortMappings are numbered in creation order, and keep their number when they are gone. */
  datatype World = World(now: Time, pms: seq<Pm>, router: map<RouterKey, Entry>)

  const INITIAL := World(0, [], map[])

  function KeyOf(spec: PortMappingSpec): RouterKey {
    RouterKey(spec.externalPort, spec.protocol)
  }

  function EntryOf(pm: Pm, owner: nat, gen: nat, at: Time): Entry
    requires gen < |pm.specs|
  {
    var spec := pm.specs[gen];
    Entry(spec.internalHost, spec.internalPort, Description(spec, pm.name), owner, gen, at)
  }

  datatype Step =
    | Tick(elapsed: nat)
    | Create(name: string, spec: PortMappingSpec)
    | Edit(id: nat, spec: PortMappingSpec)
    | Delete(id: nat)
    | Trigger(id: nat)
    | Add(id: nat)
    | Refuse(id: nat, patched: bool)
    | LoseAnswer(id: nat, patched: bool)
    | ReadAnswer(id: nat)
    | PatchStatus(id: nat, patched: bool)
    | Requeue(id: nat)
    | Cleanup(id: nat, applied: bool)

  /** When a PortMapping can take a step that is about it. */
  predicate Ready(pm: Pm, step: Step) {
    && |pm.specs| > 0
    && match step
       case Edit(_, _) => !pm.phase.Gone?
       case Delete(_) => !pm.phase.Gone?
       case Trigger(_) => pm.phase.Waiting? && !pm.deleting
       case Add(_) => pm.phase.Sent? && pm.phase.gen < |pm.specs|
       case Refuse(_, _) => pm.phase.Sent?
       case LoseAnswer(_, _) => pm.phase.Granted?
       case ReadAnswer(_) => pm.phase.Granted?
       case PatchStatus(_, _) => pm.phase.Answered?
       case Requeue(_) => pm.phase.Patched?
       case Cleanup(_, _) => pm.phase.Waiting? && pm.deleting
       case _ => false
  }

  predicate Enabled(w: World, step: Step) {
    step.Tick? || step.Create? || (step.id < |w.pms| && Ready(w.pms[step.id], step))
  }

  /** The error path of an add: an inactive status and a retry, or an error when that patch fails too. */
  function AfterFailedAdd(pm: Pm, now: Time, patched: bool): Pm {
    if patched then pm.(status := Some(INACTIVE), phase := Waiting(now + FAILURE_REQUEUE_SECS * SECOND))
    else pm.(phase := Waiting(now + ERROR_REQUEUE_SECS * SECOND))
  }

  /** What a step does to the PortMapping it is about. */
  function ExecPm(pm: Pm, now: Time, step: Step): Pm
    requires Ready(pm, step)
  {
    match step
    case Edit(_, spec) => pm.(specs := pm.specs + [spec], edits := pm.edits + [now])
    case Delete(_) => pm.(deleting := true)
    case Trigger(_) =>
      (match RenewalWait(pm.status, now)
       case Some(secs) => pm.(phase := Waiting(now + secs * SECOND))
       case None => pm.(phase := Sent(|pm.specs| - 1, now)))
    case Add(_) => pm.(phase := Granted(now), lastGrant := Some(Grant(now, pm.phase.gen)))
    case Refuse(_, patched) => AfterFailedAdd(pm, now, patched)
    case LoseAnswer(_, patched) => AfterFailedAdd(pm, now, patched)
    case ReadAnswer(_) => pm.(phase := Answered(now))
    case PatchStatus(_, true) =>
      pm.(status := Some(ActiveStatus(pm.phase.readAt)), phase := Patched(pm.phase.readAt))
    case PatchStatus(_, false) => pm.(phase := Waiting(now + ERROR_REQUEUE_SECS * SECOND))
    case Requeue(_) =>
      pm.(phase := Waiting(now + RequeueAfterAdd(ActiveStatus(pm.phase.readAt).leaseExpiry, now) * SECOND))
    case Cleanup(_, _) => pm.(phase := Gone)
  }

  function ExecRouter(w: World, step: Step): map<RouterKey, Entry>
    requires Enabled(w, step)
  {
    match step
    case Tick(elapsed) => map key | key in w.router && w.now + elapsed < w.router[key].grantedAt + LEASE ::
      w.router[key]
    case Add(id) =>
      var pm := w.pms[id];
      w.router[KeyOf(pm.specs[pm.phase.gen]) := EntryOf(pm, id, pm.phase.gen, w.now)]
    case Cleanup(id, true) =>
      var pm := w.pms[id];
      w.router - {KeyOf(pm.specs[|pm.specs| - 1])}
    case _ => w.router
  }

  function Exec(w: World, step: Step): World
    requires Enabled(w, step)
  {
    match step
    case Tick(elapsed) => World(w.now + elapsed, w.pms, ExecRouter(w, step))
    case Create(name, spec) =>
      w.(pms := w.pms + [Pm(name, [spec], [w.now], None, Waiting(w.now), None, false)])
    case _ => World(w.now, w.pms[step.id := ExecPm(w.pms[step.id], w.now, step)], ExecRouter(w, step))
  }

  ghost predicate CanRun(w: World, steps: seq<Step>)
    decreases steps
  {
    steps == [] || (Enabled(w, steps[0]) && CanRun(Exec(w, steps[0]), steps[1..]))
  }

  ghost function Run(w: World, steps: seq<Step>): World
    requires CanRun(w, steps)
    decreases steps
  {
    if steps == [] then w else Run(Exec(w, steps[0]), steps[1..])
  }

  // ----- What holds in every run, whatever fails and however late -----

  ghost predicate HistoryOk(pm: Pm, now: Time) {
    && |pm.specs| == |pm.edits| > 0
    && (forall i | 0 <= i < |pm.edits| :: pm.edits[i] <= now)
    && (pm.lastGrant.Some? ==> pm.lastGrant.value.gen < |pm.specs| && pm.lastGrant.value.at <= now)
    && (pm.status.Some? && pm.status.value.lastRenewal.Some? ==> pm.status.value.lastRenewal.value <= now)
  }

  ghost predicate StatusOk(pm: Pm) {
    pm.status.Some? && pm.status.value.active ==>
      pm.status.value.lastRenewal.Some? && pm.status.value == ActiveStatus(pm.status.value.lastRenewal.value)
  }

  /** While it waits it will be due when it wakes, and what it has sent it sent when due. */
  ghost predicate PhaseOk(pm: Pm, now: Time) {
    match pm.phase
    case Waiting(wakeAt) => RenewalWait(pm.status, wakeAt).None?
    case Sent(gen, sentAt) =>
      && gen < |pm.specs| && sentAt <= now && RenewalWait(pm.status, sentAt).None?
      && (gen + 1 < |pm.edits| ==> sentAt <= pm.edits[gen + 1])
    case Granted(at) => pm.lastGrant.Some? && at == pm.lastGrant.value.at && RenewalWait(pm.status, at).None?
    case Answered(readAt) => pm.lastGrant.Some? && pm.lastGrant.value.at <= readAt <= now
      && RenewalWait(pm.status, readAt).None?
    case Patched(readAt) =>
      pm.lastGrant.Some? && pm.lastGrant.value.at <= readAt <= now && pm.status == Some(ActiveStatus(readAt))
    case Gone => true
  }

  /** One PortMapping: its history is coherent, and so are its status and its phase. */
  ghost predicate PmOk(pm: Pm, now: Time) {
    HistoryOk(pm, now) && StatusOk(pm) && PhaseOk(pm, now)
  }

  /** One router entry: an unexpired snapshot of some generation of some PortMapping's spec. */
  ghost predicate EntryOk(w: World, key: RouterKey)
    requires key in w.router
  {
    var e := w.router[key];
    && e.owner < |w.pms| && e.gen < |w.pms[e.owner].specs|
    && key == KeyOf(w.pms[e.owner].specs[e.gen])
    && e == EntryOf(w.pms[e.owner], e.owner, e.gen, e.grantedAt)
    && e.grantedAt <= w.now < e.grantedAt + LEASE
  }

  ghost predicate Ok(w: World) {
    && (forall id | 0 <= id < |w.pms| :: PmOk(w.pms[id], w.now))
    && (forall key | key in w.router :: EntryOk(w, key))
  }

  lemma StepKeepsHistoryOk(pm: Pm, now: Time, step: Step)
    requires PmOk(pm, now) && Ready(pm, step)
    ensures HistoryOk(ExecPm(pm, now, step), now)
  {
  }

  lemma StepKeepsStatusOk(pm: Pm, now: Time, step: Step)
    requires StatusOk(pm) && Ready(pm, step)
    ensures StatusOk(ExecPm(pm, now, step))
  {
  }

  /** After a failed add, or a failed status patch, the retry finds the mapping due. */
  lemma RetryKeepsPhaseOk(pm: Pm, now: Time, dueAt: Time, patched: bool)
    requires RenewalWait(pm.status, dueAt).None? && dueAt <= now
    ensures PhaseOk(AfterFailedAdd(pm, now, patched), now)
    ensures PhaseOk(pm.(phase := Waiting(now + ERROR_REQUEUE_SECS * SECOND)), now)
  {
    DueIsLasting(pm.status, dueAt, now + ERROR_REQUEUE_SECS * SECOND);
  }

  lemma StepKeepsPhaseOk(pm: Pm, now: Time, step: Step)
    requires PmOk(pm, now) && Ready(pm, step)
    ensures PhaseOk(ExecPm(pm, now, step), now)
  {
    match step {
      case Trigger(_) =>
        if RenewalWait(pm.status, now).Some? {
          WaitedLongEnough(pm.status, now);
        }
      case Add(_) => DueIsLasting(pm.status, pm.phase.sentAt, now);
      case Refuse(_, patched) => RetryKeepsPhaseOk(pm, now, pm.phase.sentAt, patched);
      case LoseAnswer(_, patched) => RetryKeepsPhaseOk(pm, now, pm.phase.at, patched);
      case ReadAnswer(_) => DueIsLasting(pm.status, pm.phase.at, now);
      case PatchStatus(_, false) => RetryKeepsPhaseOk(pm, now, pm.phase.readAt, false);
      case Requeue(_) => RequeuedLongEnough(pm.phase.readAt, now);
      case _ =>
    }
  }

  lemma StepKeepsPmOk(pm: Pm, now: Time, step: Step)
    requires PmOk(pm, now) && Ready(pm, step)
    ensures PmOk(ExecPm(pm, now, step), now)
  {
    StepKeepsHistoryOk(pm, now, step);
    StepKeepsStatusOk(pm, now, step);
    StepKeepsPhaseOk(pm, now, step);
  }
}
