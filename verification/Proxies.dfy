/**
 The proxy manager: a table of proxy handles by key, and the accept loops spawned for them.

 Every bound socket is a fresh loop, numbered in spawning order. A handle holds the sending
 end of its loop's shutdown channel, so a loop is told to stop either by an explicit signal
 or when its handle is overwritten and dropped.
 */
module Proxies {
  import opened Wrappers
  import opened Text
  import opened PortMappings

  datatype Loop = Loop(port: u16, target: string, protocol: Protocol)

  datatype Handle = Handle(port: u16, target: string, protocol: Protocol, loop: nat)

  datatype ProxyState = ProxyState(table: map<string, Handle>, loops: seq<Loop>, told: set<nat>)

  datatype ProxyError = BindFailed

  predicate Serves(handle: Handle, target: string, protocol: Protocol) {
    handle.target == target && handle.protocol == protocol
  }

  // ----- What happens under each lock, and at the bind -----

  /** Under the read lock: the port of a proxy that already serves the request. */
  function Running(ps: ProxyState, key: string, target: string, protocol: Protocol): Option<u16> {
    if key in ps.table && Serves(ps.table[key], target, protocol) then Some(ps.table[key].port) else None
  }

  /** Under the write lock of `stop_proxy`: remove the entry and signal its loop. */
  function Stop(ps: ProxyState, key: string): ProxyState {
    if key in ps.table then
      ps.(table := ps.table - {key}, told := ps.told + {ps.table[key].loop})
    else ps
  }

  /** A successful bind: a fresh accept loop. */
  function Spawn(ps: ProxyState, port: u16, target: string, protocol: Protocol): ProxyState {
    ps.(loops := ps.loops + [Loop(port, target, protocol)])
  }

  /** Under the write lock of the final insert; an overwritten handle takes its loop with it. */
  function Install(ps: ProxyState, key: string, handle: Handle): ProxyState {
    ps.(table := ps.table[key := handle],
        told := if key in ps.table then ps.told + {ps.table[key].loop} else ps.told)
  }

  /** What a successful bind and insert make of a table without the key. */
  function Restart(ps: ProxyState, key: string, port: u16, target: string, protocol: Protocol): ProxyState {
    Install(Spawn(ps, port, target, protocol), key, Handle(port, target, protocol, |ps.loops|))
  }

  /** `ensure_proxy` run without interference; `bind` is the port the operating system would give. */
  function Ensure(ps: ProxyState, key: string, target: string, protocol: Protocol, bind: Option<u16>)
    : (ProxyState, Result<u16, ProxyError>)
  {
    match Running(ps, key, target, protocol)
    case Some(port) => (ps, Success(port))
    case None =>
      var stopped := Stop(ps, key);
      match bind
      case None => (stopped, Failure(BindFailed))
      case Some(port) =>
        (Restart(stopped, key, port, target, protocol), Success(port))
  }

  function PortOf(ps: ProxyState, key: string): Option<u16> {
    if key in ps.table then Some(ps.table[key].port) else None
  }

  // ----- The manager object -----

  class ProxyManager {
    var table: map<string, Handle>
    var loops: seq<Loop>
    var told: set<nat>
    const lanIp: string

    function State(): ProxyState
      reads this
    {
      ProxyState(table, loops, told)
    }

    constructor (lanIp: string)
      ensures State() == ProxyState(map[], [], {}) && this.lanIp == lanIp
    {
      table, loops, told := map[], [], {};
      this.lanIp := lanIp;
    }

    method EnsureProxy(key: string, target: string, protocol: Protocol, bind: Option<u16>)
      returns (r: Result<u16, ProxyError>)
      modifies this
      ensures (State(), r) == Ensure(old(State()), key, target, protocol, bind)
    {
      if key in table {
        var handle := table[key];
        if handle.target == target && handle.protocol == protocol {
          return Success(handle.port);
        }
      }
      StopProxy(key);
      if bind.None? {
        return Failure(BindFailed);
      }
      var loop := |loops|;
      loops := loops + [Loop(bind.value, target, protocol)];
      table := table[key := Handle(bind.value, target, protocol, loop)];
      return Success(bind.value);
    }

    method StopProxy(key: string)
      modifies this`table, this`told
      ensures State() == Stop(old(State()), key)
    {
      if key in table {
        told := told + {table[key].loop};
        table := table - {key};
      }
    }

    method GetPort(key: string) returns (port: Option<u16>)
      ensures port == PortOf(State(), key)
    {
      port := if key in table then Some(table[key].port) else None;
    }

    method ActiveKeys() returns (keys: set<string>)
      ensures forall key :: key in keys <==> PortOf(State(), key).Some?
    {
      keys := table.Keys;
    }
  }

  // ----- Between calls: entries and running loops are in bijection -----

  ghost predicate Holds(ps: ProxyState, key: string, loop: nat) {
    key in ps.table && ps.table[key].loop == loop
  }

  /** Every entry describes a running loop, and no two entries the same one. */
  ghost predicate EntriesRun(ps: ProxyState) {
    && (forall key | key in ps.table ::
          var h := ps.table[key];
          h.loop < |ps.loops| && h.loop !in ps.told && ps.loops[h.loop] == Loop(h.port, h.target, h.protocol))
    && (forall key, key' | key in ps.table && key' in ps.table ::
          ps.table[key].loop == ps.table[key'].loop ==> key == key')
  }

  /** Every running loop has an entry. */
  ghost predicate LoopsHeld(ps: ProxyState) {
    && (forall loop: nat | loop < |ps.loops| && loop !in ps.told :: exists key :: Holds(ps, key, loop))
    && (forall loop | loop in ps.told :: loop < |ps.loops|)
  }

  ghost predicate Tidy(ps: ProxyState) {
    EntriesRun(ps) && LoopsHeld(ps)
  }

  lemma StopKeepsEntries(ps: ProxyState, key: string)
    requires EntriesRun(ps)
    ensures EntriesRun(Stop(ps, key))
  {
  }

  lemma StopKeepsTidy(ps: ProxyState, key: string)
    requires Tidy(ps)
    ensures Tidy(Stop(ps, key))
  {
    var ps' := Stop(ps, key);
    StopKeepsEntries(ps, key);
    forall loop: nat | loop < |ps'.loops| && loop !in ps'.told
      ensures exists k :: Holds(ps', k, loop)
    {
      var k :| Holds(ps, k, loop);
      assert Holds(ps', k, loop);
    }
  }

  lemma RestartKeepsEntries(ps: ProxyState, key: string, port: u16, target: string, protocol: Protocol)
    requires Tidy(ps) && key !in ps.table
    ensures EntriesRun(Restart(ps, key, port, target, protocol))
  {
    var ps' := Restart(ps, key, port, target, protocol);
    assert |ps.loops| !in ps.told;
    forall k | k in ps'.table
      ensures
        var h := ps'.table[k];
        && h.loop < |ps'.loops| && h.loop !in ps'.told && ps'.loops[h.loop] == Loop(h.port, h.target, h.protocol)
        && (k != key ==> h.loop < |ps.loops| && ps'.table[k] == ps.table[k])
    {
    }
  }

  lemma RestartKeepsTidy(ps: ProxyState, key: string, port: u16, target: string, protocol: Protocol)
    requires Tidy(ps) && key !in ps.table
    ensures Tidy(Restart(ps, key, port, target, protocol))
  {
    var ps' := Restart(ps, key, port, target, protocol);
    RestartKeepsEntries(ps, key, port, target, protocol);
    assert Holds(ps', key, |ps.loops|);
    forall loop: nat | loop < |ps'.loops| && loop !in ps'.told
      ensures exists k :: Holds(ps', k, loop)
    {
      if loop < |ps.loops| {
        var k :| Holds(ps, k, loop);
        assert Holds(ps', k, loop);
      }
    }
  }

  /** Without interference, `ensure_proxy` starts at most one loop, leaks none, and returns its port. */
  lemma EnsureKeepsTidy(ps: ProxyState, key: string, target: string, protocol: Protocol, bind: Option<u16>)
    requires Tidy(ps)
    ensures
      var (ps', r) := Ensure(ps, key, target, protocol, bind);
      && Tidy(ps')
      && (r.Success? ==> Running(ps', key, target, protocol) == Some(r.value) == PortOf(ps', key))
      && (r.Failure? ==> PortOf(ps', key).None? && bind.None?)
      && (forall other | other != key :: PortOf(ps', other) == PortOf(ps, other))
      && |ps'.loops| <= |ps.loops| + 1
  {
    var (ps', r) := Ensure(ps, key, target, protocol, bind);
    assert Tidy(ps') by {
      StopKeepsTidy(ps, key);
      if bind.Some? {
        RestartKeepsTidy(Stop(ps, key), key, bind.value, target, protocol);
      }
    }
  }
}
