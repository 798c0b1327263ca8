/**
 The session table of one UDP proxy. The receive loop and one relay task per upstream socket
 share the map from client address to socket. The loop holds the lock from its lookup to its
 insert, so each step below is what one task does under the lock or between two awaits.
 Upstream sockets, and so relay tasks, are numbered in the order they were bound.
 */
module UdpSessions {
  type Addr = string

  datatype Progress = Relaying | Leaving | Finished

  datatype Relay = Relay(client: Addr, progress: Progress)

  datatype MainLoop = Listening | Forwarding(client: Addr, sock: nat) | Stopped

  /** `forwarded` and `returned` log the datagrams sent upstream and those sent back, by socket and client. */
  datatype Sessions = Sessions(
    clients: map<Addr, nat>,
    relays: seq<Relay>,
    main: MainLoop,
    forwarded: set<(nat, Addr)>,
    returned: set<(nat, Addr)>)

  const INITIAL := Sessions(map[], [], Listening, {}, {})

  datatype Step =
    | Arrive(client: Addr, targetValid: bool, bound: bool)
    | Forward(sent: bool)
    | EndMain
    | Respond(sock: nat, sent: bool)
    | GiveUp(sock: nat)
    | Remove(sock: nat)

  predicate Enabled(s: Sessions, step: Step) {
    match step
    case Arrive(_, _, _) => s.main.Listening?
    case Forward(_) => s.main.Forwarding?
    case EndMain => s.main.Listening?
    case Respond(sock, _) => sock < |s.relays| && s.relays[sock].progress.Relaying?
    case GiveUp(sock) => sock < |s.relays| && s.relays[sock].progress.Relaying?
    case Remove(sock) => sock < |s.relays| && s.relays[sock].progress.Leaving?
  }

  function Exec(s: Sessions, step: Step): Sessions
    requires Enabled(s, step)
  {
    match step
    case Arrive(client, targetValid, bound) =>
      if !targetValid then s
      else if client in s.clients then s.(main := Forwarding(client, s.clients[client]))
      else if !bound then s
      else s.(
        clients := s.clients[client := |s.relays|],
        relays := s.relays + [Relay(client, Relaying)],
        main := Forwarding(client, |s.relays|))
    case Forward(sent) =>
      s.(main := Listening, forwarded := if sent then s.forwarded + {(s.main.sock, s.main.client)} else s.forwarded)
    case EndMain => s.(main := Stopped)
    case Respond(sock, true) => s.(returned := s.returned + {(sock, s.relays[sock].client)})
    case Respond(sock, false) => s.(relays := s.relays[sock := s.relays[sock].(progress := Leaving)])
    case GiveUp(sock) => s.(relays := s.relays[sock := s.relays[sock].(progress := Leaving)])
    case Remove(sock) =>
      s.(clients := s.clients - {s.relays[sock].client},
         relays := s.relays[sock := s.relays[sock].(progress := Finished)])
  }

  ghost predicate CanRun(s: Sessions, steps: seq<Step>)
    decreases steps
  {
    steps == [] || (Enabled(s, steps[0]) && CanRun(Exec(s, steps[0]), steps[1..]))
  }

  ghost function Run(s: Sessions, steps: seq<Step>): Sessions
    requires CanRun(s, steps)
    decreases steps
  {
    if steps == [] then s else Run(Exec(s, steps[0]), steps[1..])
  }

  // ----- The proxy object: the same steps, on fields that are updated -----

  class UdpProxy {
    var clients: map<Addr, nat>
    var relays: seq<Relay>
    var main: MainLoop
    ghost var forwarded: set<(nat, Addr)>
    ghost var returned: set<(nat, Addr)>

    ghost function State(): Sessions
      reads this
    {
      Sessions(clients, relays, main, forwarded, returned)
    }

    constructor ()
      ensures State() == INITIAL
    {
      clients, relays, main := map[], [], Listening;
      forwarded, returned := {}, {};
    }

    /** The receive arm: find the client's socket or bind one and spawn its relay, then forward. */
    method OnDatagram(client: Addr, targetValid: bool, bound: bool, sent: bool)
      requires main.Listening?
      modifies this
      ensures
        var arrived := Exec(old(State()), Arrive(client, targetValid, bound));
        State() == if arrived.main.Forwarding? then Exec(arrived, Forward(sent)) else arrived
    {
      if !targetValid {
        return;
      }
      var upstream: nat;
      if client in clients {
        upstream := clients[client];
      } else {
        if !bound {
          return;
        }
        upstream := |relays|;
        clients := clients[client := upstream];
        relays := relays + [Relay(client, Relaying)];
      }
      if sent {
        forwarded := forwarded + {(upstream, client)};
      }
    }

    /** The last line of a relay task, which removes by client address. */
    method OnRelayExit(sock: nat)
      requires Enabled(State(), Remove(sock))
      modifies this
      ensures State() == Exec(old(State()), Remove(sock))
    {
      clients := clients - {relays[sock].client};
      relays := relays[sock := relays[sock].(progress := Finished)];
    }
  }

  // ----- Sessions and relays are in bijection -----

  predicate Unfinished(s: Sessions, sock: nat) {
    sock < |s.relays| && !s.relays[sock].progress.Finished?
  }

  /** Every entry names an unfinished relay of its client, and every unfinished relay has its entry. */
  ghost predicate Bijective(s: Sessions) {
    && (forall c | c in s.clients :: Unfinished(s, s.clients[c]) && s.relays[s.clients[c]].client == c)
    && (forall sock: nat | Unfinished(s, sock) ::
          var c := s.relays[sock].client;
          c in s.clients && s.clients[c] == sock)
  }

  /** What is being forwarded, and what was forwarded or returned, went by a socket of that client. */
  ghost predicate TrafficKept(s: Sessions) {
    && (s.main.Forwarding? ==> s.main.sock < |s.relays| && s.relays[s.main.sock].client == s.main.client)
    && (forall e | e in s.forwarded || e in s.returned :: e.0 < |s.relays| && s.relays[e.0].client == e.1)
  }

  ghost predicate Valid(s: Sessions) {
    Bijective(s) && TrafficKept(s)
  }

  /** Relays keep their clients for good. */
  lemma StepKeepsClients(s: Sessions, step: Step, sock: nat)
    requires Enabled(s, step) && sock < |s.relays|
    ensures sock < |Exec(s, step).relays| && Exec(s, step).relays[sock].client == s.relays[sock].client
  {
  }

  /** A relay is unfinished after a step if it was before and did not just finish, or was just bound. */
  lemma UnfinishedAfter(s: Sessions, step: Step, sock: nat)
    requires Enabled(s, step) && Unfinished(Exec(s, step), sock)
    ensures Unfinished(s, sock) || (step.Arrive? && sock == |s.relays|)
    ensures !(step.Remove? && step.sock == sock)
  {
  }

  lemma EntryAfter(s: Sessions, step: Step, c: Addr)
    requires Bijective(s) && Enabled(s, step) && c in Exec(s, step).clients
    ensures
      var s' := Exec(s, step);
      Unfinished(s', s'.clients[c]) && s'.relays[s'.clients[c]].client == c
  {
  }

  lemma RelayAfter(s: Sessions, step: Step, sock: nat)
    requires Bijective(s) && Enabled(s, step) && Unfinished(Exec(s, step), sock)
    ensures
      var s' := Exec(s, step);
      var c := s'.relays[sock].client;
      c in s'.clients && s'.clients[c] == sock
  {
    UnfinishedAfter(s, step, sock);
  }

  lemma StepKeepsBijective(s: Sessions, step: Step)
    requires Bijective(s) && Enabled(s, step)
    ensures Bijective(Exec(s, step))
  {
    var s' := Exec(s, step);
    forall c | c in s'.clients
      ensures Unfinished(s', s'.clients[c]) && s'.relays[s'.clients[c]].client == c
    {
      EntryAfter(s, step, c);
    }
    forall sock: nat | Unfinished(s', sock)
      ensures s'.relays[sock].client in s'.clients && s'.clients[s'.relays[sock].client] == sock
    {
      RelayAfter(s, step, sock);
    }
  }

  lemma StepKeepsTraffic(s: Sessions, step: Step)
    requires Valid(s) && Enabled(s, step)
    ensures TrafficKept(Exec(s, step))
  {
    forall sock: nat | sock < |s.relays|
      ensures sock < |Exec(s, step).relays| && Exec(s, step).relays[sock].client == s.relays[sock].client
    {
      StepKeepsClients(s, step, sock);
    }
  }

  lemma StepKeepsValid(s: Sessions, step: Step)
    requires Valid(s) && Enabled(s, step)
    ensures Valid(Exec(s, step))
  {
    StepKeepsBijective(s, step);
    StepKeepsTraffic(s, step);
  }

  lemma {:induction false} RunKeepsValid(s: Sessions, steps: seq<Step>)
    requires Valid(s) && CanRun(s, steps)
    ensures Valid(Run(s, steps))
    decreases steps
  {
    if steps != [] {
      StepKeepsValid(s, steps[0]);
      RunKeepsValid(Exec(s, steps[0]), steps[1..]);
    }
  }

  /** In every interleaving, a client is mapped to a socket iff that socket's relay is its one unfinished relay. */
  lemma SessionsMatchRelays(steps: seq<Step>, client: Addr, sock: nat)
    requires CanRun(INITIAL, steps)
    ensures
      var s := Run(INITIAL, steps);
      (client in s.clients && s.clients[client] == sock)
      <==> (Unfinished(s, sock) && s.relays[sock].client == client
            && forall other: nat | Unfinished(s, other) && s.relays[other].client == client :: other == sock)
  {
    RunKeepsValid(INITIAL, steps);
  }

  /** A relay that exits, however late, removes its own session and no other. */
  lemma LateRelayRemovesItsOwnEntry(steps: seq<Step>, sock: nat)
    requires CanRun(INITIAL, steps) && Enabled(Run(INITIAL, steps), Remove(sock))
    ensures
      var s := Run(INITIAL, steps);
      var s' := Exec(s, Remove(sock));
      && s.relays[sock].client in s.clients && s.clients[s.relays[sock].client] == sock
      && s'.clients == map c | c in s.clients && s.clients[c] != sock :: s.clients[c]
  {
    RunKeepsValid(INITIAL, steps);
  }

  /** What is sent back to a client came in on a socket that forwarded only that client's datagrams. */
  lemma ResponsesStayWithTheirClient(steps: seq<Step>, sock: nat, client: Addr, other: Addr)
    requires CanRun(INITIAL, steps)
    requires (sock, client) in Run(INITIAL, steps).returned
    requires (sock, other) in Run(INITIAL, steps).forwarded
    ensures other == client
  {
    RunKeepsValid(INITIAL, steps);
  }

  /** Two clients never share an upstream socket, even across expired sessions. */
  lemma SocketsAreNotReused(steps: seq<Step>, sock: nat, client: Addr, other: Addr)
    requires CanRun(INITIAL, steps)
    requires (sock, client) in Run(INITIAL, steps).forwarded && (sock, other) in Run(INITIAL, steps).forwarded
    ensures client == other
  {
    RunKeepsValid(INITIAL, steps);
  }

  // ----- How long a relay runs -----

  /** Sending back fails, or receiving fails or times out: what ends a relay's receive loop. */
  predicate Leaves(step: Step, sock: nat) {
    step == Respond(sock, false) || step == GiveUp(sock)
  }

  ghost predicate LeftDuring(steps: seq<Step>, sock: nat) {
    exists i :: 0 <= i < |steps| && Leaves(steps[i], sock)
  }

  lemma LeftDuringCons(steps: seq<Step>, sock: nat)
    requires steps != []
    ensures LeftDuring(steps, sock) <==> Leaves(steps[0], sock) || LeftDuring(steps[1..], sock)
  {
    if i :| 0 < i < |steps| && Leaves(steps[i], sock) {
      assert Leaves(steps[1..][i - 1], sock);
    }
    if i :| 0 <= i < |steps[1..]| && Leaves(steps[1..][i], sock) {
      assert Leaves(steps[i + 1], sock);
    }
  }

  /** A socket that is not bound yet, or whose relay receives, ends receiving exactly if no step ends its loop. */
  lemma {:induction false} RunLeavesIff(s: Sessions, steps: seq<Step>, sock: nat)
    requires CanRun(s, steps) && (sock < |s.relays| ==> s.relays[sock].progress.Relaying?)
    requires sock < |Run(s, steps).relays|
    ensures Run(s, steps).relays[sock].progress.Relaying? <==> !LeftDuring(steps, sock)
    decreases steps
  {
    if steps != [] {
      var s1 := Exec(s, steps[0]);
      LeftDuringCons(steps, sock);
      if Leaves(steps[0], sock) {
        StaysLeft(s1, steps[1..], sock);
      } else {
        RunLeavesIff(s1, steps[1..], sock);
      }
    }
  }

  lemma {:induction false} StaysLeft(s: Sessions, steps: seq<Step>, sock: nat)
    requires CanRun(s, steps) && sock < |s.relays| && !s.relays[sock].progress.Relaying?
    ensures sock < |Run(s, steps).relays| && !Run(s, steps).relays[sock].progress.Relaying?
    decreases steps
  {
    if steps != [] {
      StaysLeft(Exec(s, steps[0]), steps[1..], sock);
    }
  }

  /**
   In every run the relay of a bound socket is in its receive loop exactly if sending back has not
   failed and receiving has neither failed nor timed out; and as long as it is, its client keeps
   the socket.
   */
  lemma RelayRunsUntilItLeaves(steps: seq<Step>, sock: nat)
    requires CanRun(INITIAL, steps) && sock < |Run(INITIAL, steps).relays|
    ensures
      var s := Run(INITIAL, steps);
      var relay := s.relays[sock];
      && (relay.progress.Relaying? <==> !LeftDuring(steps, sock))
      && (relay.progress.Relaying? ==> relay.client in s.clients && s.clients[relay.client] == sock)
  {
    RunKeepsValid(INITIAL, steps);
    RunLeavesIff(INITIAL, steps, sock);
  }

  function Answers(sock: nat, n: nat): seq<Step> {
    seq(n, i => Respond(sock, true))
  }

  /** Any number of answers go back one after the other, and leave the session as it is. */
  lemma {:induction false} AnyNumberOfAnswers(s: Sessions, sock: nat, n: nat)
    requires sock < |s.relays| && s.relays[sock].progress.Relaying?
    ensures CanRun(s, Answers(sock, n))
    ensures
      var s' := Run(s, Answers(sock, n));
      && s'.clients == s.clients && s'.relays == s.relays && s'.main == s.main && s'.forwarded == s.forwarded
      && s'.returned == s.returned + if n > 0 then {(sock, s.relays[sock].client)} else {}
    decreases n
  {
    if n > 0 {
      var s1 := Exec(s, Respond(sock, true));
      AnyNumberOfAnswers(s1, sock, n - 1);
      RunCons(s, Respond(sock, true), Answers(sock, n - 1));
      assert Answers(sock, n) == [Respond(sock, true)] + Answers(sock, n - 1);
    }
  }

  /** After the receive loop has ended nothing more is forwarded and no socket is bound; relays go on. */
  lemma {:induction false} StoppedIsFinal(s: Sessions, steps: seq<Step>)
    requires CanRun(s, [EndMain] + steps)
    ensures
      var s' := Run(s, [EndMain] + steps);
      s'.main.Stopped? && s'.forwarded == s.forwarded && |s'.relays| == |s.relays|
  {
    assert ([EndMain] + steps)[1..] == steps;
    StoppedStays(Exec(s, EndMain), steps);
  }

  lemma {:induction false} StoppedStays(s: Sessions, steps: seq<Step>)
    requires s.main.Stopped? && CanRun(s, steps)
    ensures
      var s' := Run(s, steps);
      s'.main.Stopped? && s'.forwarded == s.forwarded && |s'.relays| == |s.relays|
    decreases steps
  {
    if steps != [] {
      StoppedStays(Exec(s, steps[0]), steps[1..]);
    }
  }

  // ----- When a forwarded datagram can still be answered -----

  /** In some later run an answer that came in on the socket is sent back to its client. */
  ghost predicate Answerable(s: Sessions, sock: nat) {
    exists steps :: CanRun(s, steps) && Respond(sock, true) in steps
  }

  /** A relay that has left its receive loop, finished or not, sends nothing back any more. */
  lemma {:induction false} LeftIsFinal(s: Sessions, steps: seq<Step>, sock: nat, client: Addr)
    requires CanRun(s, steps) && sock < |s.relays| && !s.relays[sock].progress.Relaying?
    ensures Respond(sock, true) !in steps
    ensures (sock, client) in Run(s, steps).returned <==> (sock, client) in s.returned
    decreases steps
  {
    if steps != [] {
      LeftIsFinal(Exec(s, steps[0]), steps[1..], sock, client);
      assert steps == [steps[0]] + steps[1..];
    }
  }

  /** From any state an answer on a bound socket can still come exactly while its relay is in its receive loop. */
  lemma AnswerableIffRelaying(s: Sessions, sock: nat)
    requires sock < |s.relays|
    ensures Answerable(s, sock) <==> s.relays[sock].progress.Relaying?
  {
    if s.relays[sock].progress.Relaying? {
      RunCons(s, Respond(sock, true), []);
      assert [Respond(sock, true)] + [] == [Respond(sock, true)];
      assert CanRun(s, [Respond(sock, true)]) && Respond(sock, true) in [Respond(sock, true)];
    } else {
      forall steps | CanRun(s, steps)
        ensures Respond(sock, true) !in steps
      {
        LeftIsFinal(s, steps, sock, s.relays[sock].client);
      }
    }
  }

  /**
   In every run, a datagram on its way can be answered exactly if the relay of the socket taken
   for it is still in its receive loop. The map is no witness of that: it gives the socket
   exactly until the relay has removed it, which is later.
   */
  lemma ForwardIsAnswerableIff(steps: seq<Step>)
    requires CanRun(INITIAL, steps) && Run(INITIAL, steps).main.Forwarding?
    ensures
      var s := Run(INITIAL, steps);
      var sock := s.main.sock;
      && sock < |s.relays| && s.relays[sock].client == s.main.client
      && (Answerable(Exec(s, Forward(true)), sock) <==> s.relays[sock].progress.Relaying?)
      && (Unfinished(s, sock) <==> s.main.client in s.clients && s.clients[s.main.client] == sock)
      && (Answerable(Exec(s, Forward(true)), sock) ==> Unfinished(s, sock))
  {
    RunKeepsValid(INITIAL, steps);
    var s := Run(INITIAL, steps);
    AnswerableIffRelaying(Exec(s, Forward(true)), s.main.sock);
  }

  lemma RunCons(s: Sessions, step: Step, steps: seq<Step>)
    requires Enabled(s, step) && CanRun(Exec(s, step), steps)
    ensures CanRun(s, [step] + steps) && Run(s, [step] + steps) == Run(Exec(s, step), steps)
  {
    assert ([step] + steps)[1..] == steps;
  }

  /** A session whose relay has just given up, when its client's next datagram takes the socket from the map. */
  lemma LeavingSessionIsTaken(client: Addr)
    ensures
      var race := [Arrive(client, true, true), Forward(true), GiveUp(0), Arrive(client, true, true)];
      && CanRun(INITIAL, race)
      && Run(INITIAL, race)
        == Sessions(map[client := 0], [Relay(client, Leaving)], Forwarding(client, 0), {(0, client)}, {})
  {
    var s1 := Sessions(map[client := 0], [Relay(client, Relaying)], Forwarding(client, 0), {}, {});
    var s2 := s1.(main := Listening, forwarded := {(0, client)});
    var s3 := s2.(relays := [Relay(client, Leaving)]);
    RunCons(s3, Arrive(client, true, true), []);
    assert Exec(s2, GiveUp(0)) == s3;
    RunCons(s2, GiveUp(0), [Arrive(client, true, true)]);
    assert Exec(s1, Forward(true)) == s2;
    RunCons(s1, Forward(true), [GiveUp(0), Arrive(client, true, true)]);
    assert Exec(INITIAL, Arrive(client, true, true)) == s1;
    RunCons(INITIAL, Arrive(client, true, true), [Forward(true), GiveUp(0), Arrive(client, true, true)]);
  }

  /**
   The loop sends outside the lock, and the map outlives the relay's receive loop, so two runs
   lose a datagram: with the session still in the map, or removed after the lookup. Either way
   the datagram goes out on a socket nobody reads, and no answer to it ever reaches its client.
   */
  lemma LateForwardGetsNoAnswer(client: Addr, removed: bool, later: seq<Step>)
    ensures
      var race := [Arrive(client, true, true), Forward(true), GiveUp(0), Arrive(client, true, true)];
      && CanRun(INITIAL, race)
      && var taken := Run(INITIAL, race);
      && Enabled(taken, Remove(0))
      && var s := if removed then Exec(taken, Remove(0)) else taken;
      && s.main == Forwarding(client, 0)
      && (client in s.clients <==> !removed)
      && !Answerable(Exec(s, Forward(true)), 0)
      && (CanRun(Exec(s, Forward(true)), later) ==> (0, client) !in Run(Exec(s, Forward(true)), later).returned)
  {
    LeavingSessionIsTaken(client);
    var taken := Sessions(map[client := 0], [Relay(client, Leaving)], Forwarding(client, 0), {(0, client)}, {});
    var s := if removed then Exec(taken, Remove(0)) else taken;
    var sent := Exec(s, Forward(true));
    AnswerableIffRelaying(sent, 0);
    if CanRun(sent, later) {
      LeftIsFinal(sent, later, 0, client);
    }
  }
}
