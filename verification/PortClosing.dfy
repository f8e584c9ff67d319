/** ClosePort closes a port and every port that is left in its unread messages. */
module PortClosing {
  import opened PortState
  import opened PortSteps
  import opened PortInvariant
  import opened PortErasing
  import opened PortSettled

  // ----- What is attached to a queue -----

  /** Port b is attached to one of the messages. */
  predicate AttachedTo(pending: map<nat, Message>, b: Addr) {
    exists k :: k in pending && b in pending[k].ports
  }

  lemma {:induction false} ReferencedAreAttached(pending: map<nat, Message>, b: Addr)
    ensures b in ReferencedPorts(pending) <==> AttachedTo(pending, b)
    decreases |pending|
  {
    if pending != map[] {
      HasLeast(pending.Keys);
      var k :| IsLeast(pending.Keys, k);
      assert ReferencedPorts(pending) == pending[k].ports + ReferencedPorts(pending - {k});
      var rest := pending - {k};
      assert rest.Keys == pending.Keys - {k};
      ReferencedAreAttached(rest, b);
      if AttachedTo(rest, b) {
        var j :| j in rest && b in rest[j].ports;
        assert j in pending && pending[j] == rest[j];
      }
      if AttachedTo(pending, b) && b !in pending[k].ports {
        var j :| j in pending && b in pending[j].ports;
        assert j in rest && rest[j] == pending[j];
      }
    }
  }

  // ----- One port -----

  function SetOf(bs: seq<Addr>): set<Addr> { set b | b in bs }

  /** The ports still to be closed are in no message. */
  ghost predicate Unloaded(ports: Ports, transit: Transits, cargo: Cargos, work: seq<Addr>) {
    forall i :: 0 <= i < |work| ==>
                  work[i] !in transit && (work[i] in ports ==> ports[work[i]].mode.Receiving? && work[i] !in cargo)
  }

  lemma AttachedUnloads(ports: Ports, chain: Chains, sent: Logs, place: Places, closed: set<LaneId>, pos: Positions,
      transit: Transits, cargo: Cargos, token: Tokens, a: Addr, m: LaneId, i: nat, b: Addr)
    requires Closes(ports, pos, chain, cargo, closed, a, m, i) && Here(ports, {}) &&
        QueuedCargo(ports, pos, transit, cargo, sent) && Pending(ports, pos, place) && Known(ports, transit, cargo,
        token, pos)
    requires AttachedTo(ports[a].queue.pending, b)
    ensures b !in transit && b in ports && ports[b].mode.Receiving? && b !in Ashore(cargo, place, m, i) && b != a
  {
    var k :| k in ports[a].queue.pending && b in ports[a].queue.pending[k].ports;
    var msg := ports[a].queue.pending[k];
    assert AllHere(ports, msg.ports);
    assert Attached(ports, pos, transit, cargo, sent, m, k, i, msg);
  }

  lemma AshoreIsAttached(ports: Ports, net: Net, chain: Chains, place: Places, closed: set<LaneId>, pos: Positions,
      cargo: Cargos, a: Addr, m: LaneId, i: nat, b: Addr)
    requires Closes(ports, pos, chain, cargo, closed, a, m, i) && Manifest(net, ports, chain, cargo, place) &&
        b in cargo && b !in Ashore(cargo, place, m, i)
    ensures AttachedTo(ports[a].queue.pending, b)
  {
    assert Listed(net, ports, chain, place, b, cargo[b]);
    assert cargo[b].num in ports[a].queue.pending && b in ports[a].queue.pending[cargo[b].num].ports;
  }

  lemma EraseUnloads(ports: Ports, chain: Chains, sent: Logs, place: Places, closed: set<LaneId>, pos: Positions,
      transit: Transits, cargo: Cargos, token: Tokens, a: Addr, m: LaneId, i: nat, work: seq<Addr>)
    requires Closes(ports, pos, chain, cargo, closed, a, m, i) && Here(ports, {}) &&
        QueuedCargo(ports, pos, transit, cargo, sent) && Pending(ports, pos, place) && Known(ports, transit, cargo,
        token, pos)
    requires Unloaded(ports, transit, cargo, work)
    ensures Unloaded(ports - {a}, transit, Ashore(cargo, place, m, i), ReferencedPorts(ports[a].queue.pending) + work)
  {
    forall b
      ensures b in ReferencedPorts(ports[a].queue.pending) <==> AttachedTo(ports[a].queue.pending, b)
      ensures AttachedTo(ports[a].queue.pending, b) ==> b !in transit && b !in Ashore(cargo, place, m, i)
      ensures AttachedTo(ports[a].queue.pending, b) ==> b in ports && ports[b].mode.Receiving?
    {
      ReferencedAreAttached(ports[a].queue.pending, b);
      if AttachedTo(ports[a].queue.pending, b) { AttachedUnloads(ports, chain, sent, place, closed, pos, transit,
          cargo, token, a, m, i, b); }
    }
  }

  lemma EraseClaims(ports: Ports, net: Net, chain: Chains, place: Places, closed: set<LaneId>, pos: Positions,
      transit: Transits, cargo: Cargos, a: Addr, m: LaneId, i: nat, work: seq<Addr>)
    requires Closes(ports, pos, chain, cargo, closed, a, m, i) && Manifest(net, ports, chain, cargo, place) &&
        Loaded(transit, cargo, SetOf(work)) && Claimed(ports, cargo, SetOf(work))
    requires |work| > 0 && work[0] == a && a !in transit
    ensures var todo := SetOf(ReferencedPorts(ports[a].queue.pending) + work[1..]);
            Loaded(transit, Ashore(cargo, place, m, i), todo) && Claimed(ports - {a}, Ashore(cargo, place, m, i),
            todo)
  {
    var more, todo := ReferencedPorts(ports[a].queue.pending),
        SetOf(ReferencedPorts(ports[a].queue.pending) + work[1..]);
    forall b | b in cargo && b !in Ashore(cargo, place, m, i)
      ensures b in todo
    {
      AshoreIsAttached(ports, net, chain, place, closed, pos, cargo, a, m, i, b);
      ReferencedAreAttached(ports[a].queue.pending, b);
    }
    forall b | b in SetOf(work) && b != a
      ensures b in todo
    {
      assert work == [a] + work[1..];
    }
  }

  lemma EraseSettles(s: State, work: seq<Addr>)
    requires Core(s) && Settling(s, {}, {}, {}, SetOf(work)) && Unloaded(s.ports, s.h.transit, s.h.cargo, work)
    requires |work| > 0 && SendablePort(s, work[0])
    ensures var t, rest := ErasePort(s, work[0]), ReferencedPorts(s.ports[work[0]].queue.pending) + work[1..];
            Settling(t, {}, {}, {}, SetOf(rest)) && Unloaded(t.ports, t.h.transit, t.h.cargo, rest)
  {
    hide Lanes, Chained, Named, Known, Ids, Receivers, Senders, Nexts, Ends, Travellers, Waiting, Targets, Numbers,
        Placement, Reading, Gone, Lasts, TravelLasts, Closures, Flights, Mail, Queues, Pending, FlyingCargo,
        QueuedCargo, Manifest, Unheld, AcceptTokens, Announcements, Acks, ParkedAcks, ProxyTokens, Heralds, Loaded,
        Claimed, Here, Drained;
    var a, t := work[0], ErasePort(s, work[0]);
    var m, i := s.h.pos[a].lane, s.h.pos[a].idx;
    EndCloses(s.ports, s.h.chain, s.h.nexts, s.h.routed, s.h.sent, s.h.place, s.h.read, s.h.closed, s.h.pos,
        s.h.cargo, s.nextName, a);
    EraseUnloads(s.ports, s.h.chain, s.h.sent, s.h.place, s.h.closed, s.h.pos, s.h.transit, s.h.cargo, s.h.token, a,
        m, i, work[1..]);
    EraseClaims(s.ports, s.net, s.h.chain, s.h.place, s.h.closed, s.h.pos, s.h.transit, s.h.cargo, a, m, i, work);
    GoneSettles(s.ports, s.h.sent, s.h.pos, s.h.transit, s.h.cargo, {}, a, {}, SetOf(work));
  }

  lemma EraseKeeps(s: State, work: seq<Addr>)
    requires Core(s) && Heralding(s, {}) && Settling(s, {}, {}, {}, SetOf(work))
    requires Unloaded(s.ports, s.h.transit, s.h.cargo, work) && |work| > 0 && SendablePort(s, work[0])
    ensures var t, rest := ErasePort(s, work[0]), ReferencedPorts(s.ports[work[0]].queue.pending) + work[1..];
            Core(t) && Heralding(t, {}) && Settling(t, {}, {}, {}, SetOf(rest)) &&
            Unloaded(t.ports, t.h.transit, t.h.cargo, rest)
  {
    hide Lanes, Chained, Named, Known, Ids, Receivers, Senders, Nexts, Ends, Travellers, Waiting, Targets, Numbers,
        Placement, Reading, Gone, Lasts, TravelLasts, Closures, Flights, Mail, Queues, Pending, FlyingCargo,
        QueuedCargo, Manifest, Unheld, AcceptTokens, Announcements, Acks, ParkedAcks, ProxyTokens, Heralds, Settling;
    EraseTrunk(s, work[0]);
    EraseRest(s, work[0]);
    EraseSettles(s, work);
  }

  // ----- All of them -----

  lemma SkipWork(s: State, work: seq<Addr>)
    requires Settling(s, {}, {}, {}, SetOf(work)) && Unloaded(s.ports, s.h.transit, s.h.cargo, work)
    requires |work| > 0 && work[0] !in s.ports
    ensures Settling(s, {}, {}, {}, SetOf(work[1..])) && Unloaded(s.ports, s.h.transit, s.h.cargo, work[1..])
  {
    assert work == [work[0]] + work[1..];
  }

  lemma {:induction false} ClosePortsKeep(s: State, work: seq<Addr>)
    requires Core(s) && Heralding(s, {}) && Settling(s, {}, {}, {}, SetOf(work))
    requires Unloaded(s.ports, s.h.transit, s.h.cargo, work)
    ensures var t := ClosePorts(s, work);
            Inv(t)
    decreases |s.ports|, |work|
  {
    hide Lanes, Chained, Named, Known, Ids, Receivers, Senders, Nexts, Ends, Travellers, Waiting, Targets, Numbers,
        Placement, Reading, Gone, Lasts, TravelLasts, Closures, Flights, Mail, Queues, Pending, FlyingCargo,
        QueuedCargo, Manifest, Unheld, AcceptTokens, Announcements, Acks, ParkedAcks, ProxyTokens, Heralds,
        Settling, Heralding;
    if work == [] {
      assert SetOf(work) == {};
    } else if work[0] !in s.ports {
      SkipWork(s, work);
      ClosePortsKeep(s, work[1..]);
    } else {
      assert s.ports[work[0]].mode.Receiving?;
      KnownPos(s.ports, s.h.pos, s.h.transit, s.h.cargo, s.h.token, work[0]);
      IsTracked(s, work[0]);
      EraseKeeps(s, work);
      EraseShrinks(s, work[0]);
      ClosePortsKeep(ErasePort(s, work[0]), ReferencedPorts(s.ports[work[0]].queue.pending) + work[1..]);
    }
  }

  lemma KnownPos(ports: Ports, pos: Positions, transit: Transits, cargo: Cargos, token: Tokens, a: Addr)
    requires Known(ports, transit, cargo, token, pos) && a in ports
    ensures a in pos && a !in transit
  {
  }

  lemma EraseShrinks(s: State, a: Addr)
    requires SendablePort(s, a)
    ensures |ErasePort(s, a).ports| < |s.ports|
  {
    assert ErasePort(s, a).ports.Keys == s.ports.Keys - {a};
    assert |s.ports.Keys - {a}| == |s.ports.Keys| - 1;
  }
}
