/** Which ports one ClosePort closes, and what it announces. */
module PortSweep {
  import opened PortState
  import opened PortSteps
  import opened PortInvariant
  import opened PortSettled
  import opened PortClosing
  import opened PortUsing

  /** The ports that ClosePorts erases, in order. */
  ghost function Swept(s: State, work: seq<Addr>): seq<Addr>
    decreases |s.ports|, |work|
  {
    if work == [] then []
    else if work[0] !in s.ports || !s.ports[work[0]].mode.Receiving? then Swept(s, work[1..])
    else if !SendablePort(s, work[0]) then []
    else
      assert |ErasePort(s, work[0]).ports| < |s.ports| by { EraseShrinks(s, work[0]); }
      [work[0]] + Swept(ErasePort(s, work[0]), ReferencedPorts(s.ports[work[0]].queue.pending) + work[1..])
  }

  /** The number of the last message a port has sent. */
  function LastSent(p: Port): nat { if p.nextSend == 0 then 0 else p.nextSend - 1 }

  predicate Open(ports: Ports, b: Addr) { b in ports && ports[b].mode.Receiving? }

  /** Exactly the listed ports are erased, each once. */
  ghost predicate Erases(ports: Ports, ports': Ports, order: seq<Addr>) {
    Distinct(order) && (forall e :: e in order ==> Open(ports, e)) && ports' == ports - SetOf(order)
  }

  /** The listed ports are all that can be reached from the given ones through unread messages. */
  ghost predicate Reaches(ports: Ports, work: seq<Addr>, order: seq<Addr>) {
    (forall w :: w in work && Open(ports, w) ==> w in order) &&
    (forall e, b ::
       e in order && e in ports && Open(ports, b) && AttachedTo(ports[e].queue.pending, b) ==> b in order) &&
    (forall i :: 0 <= i < |order| ==> order[i] in work || FromEarlier(ports, order, i))
  }

  ghost predicate FromEarlier(ports: Ports, order: seq<Addr>, i: nat)
    requires i < |order|
  {
    exists j :: 0 <= j < i && order[j] in ports && AttachedTo(ports[order[j]].queue.pending, order[i])
  }

  /** One closure event for each, and nothing else, is sent. */
  ghost predicate Announces(ports: Ports, net: Net, nextId: nat, net': Net, nextId': nat, order: seq<Addr>) {
    nextId' == nextId + |order| && (forall id :: id in net' <==> id in net || nextId <= id < nextId') &&
    (forall id :: id in net && id < nextId ==> net'[id] == net[id]) &&
    (forall i :: 0 <= i < |order| ==>
                   order[i] in ports && nextId + i in net' &&
                   net'[nextId + i] == ObserveClosure(ports[order[i]].peer, LastSent(ports[order[i]])))
  }

  lemma {:induction false} SweepErases(s: State, work: seq<Addr>)
    requires !ClosePorts(s, work).crashed
    ensures Erases(s.ports, ClosePorts(s, work).ports, Swept(s, work))
    decreases |s.ports|, |work|
  {
    if work == [] {
      assert s.ports - {} == s.ports;
    } else if work[0] !in s.ports || !s.ports[work[0]].mode.Receiving? {
      SweepErases(s, work[1..]);
    } else {
      var t, rest := ErasePort(s, work[0]), ReferencedPorts(s.ports[work[0]].queue.pending) + work[1..];
      EraseShrinks(s, work[0]);
      SweepErases(t, rest);
      ErasesFirst(s.ports, ClosePorts(t, rest).ports, work[0], Swept(t, rest));
    }
  }

  lemma ErasesFirst(ports: Ports, ports': Ports, a: Addr, order: seq<Addr>)
    requires Open(ports, a) && Erases(ports - {a}, ports', order)
    ensures Erases(ports, ports', [a] + order)
  {
    assert SetOf([a] + order) == {a} + SetOf(order);
    assert a !in order;
  }

  lemma {:induction false} SweepReaches(s: State, work: seq<Addr>)
    requires !ClosePorts(s, work).crashed
    ensures Reaches(s.ports, work, Swept(s, work))
    decreases |s.ports|, |work|
  {
    if work == [] {
    } else if work[0] !in s.ports || !s.ports[work[0]].mode.Receiving? {
      SweepReaches(s, work[1..]);
      assert work == [work[0]] + work[1..];
    } else {
      var a, rest := work[0], ReferencedPorts(s.ports[work[0]].queue.pending) + work[1..];
      EraseShrinks(s, a);
      SweepReaches(ErasePort(s, a), rest);
      ReachesFirst(s.ports, work, Swept(ErasePort(s, a), rest));
    }
  }

  lemma ReachesFirst(ports: Ports, work: seq<Addr>, order: seq<Addr>)
    requires work != [] && Open(ports, work[0])
    requires Reaches(ports - {work[0]}, ReferencedPorts(ports[work[0]].queue.pending) + work[1..], order)
    ensures Reaches(ports, work, [work[0]] + order)
  {
    var a := work[0];
    var pending, all := ports[a].queue.pending, [a] + order;
    var rest := ReferencedPorts(pending) + work[1..];
    assert work == [a] + work[1..];
    forall b
      ensures b in ReferencedPorts(pending) <==> AttachedTo(pending, b)
    {
      ReferencedAreAttached(pending, b);
    }
    forall w | w in work && Open(ports, w)
      ensures w in all
    {
      assert w == a || (w in rest && Open(ports - {a}, w));
    }
    forall e, b | e in all && e in ports && AttachedTo(ports[e].queue.pending, b) && Open(ports, b)
      ensures b in all
    {
      if b != a {
        assert Open(ports - {a}, b);
        if e == a { assert b in rest; } else { assert e in order && e in ports - {a}; }
      }
    }
    forall i: nat | i < |all|
      ensures all[i] in work || FromEarlier(ports, all, i)
    {
      if i > 0 { LaterReached(ports, work, order, i - 1); }
    }
  }

  lemma LaterReached(ports: Ports, work: seq<Addr>, order: seq<Addr>, i: nat)
    requires work != [] && Open(ports, work[0]) && i < |order|
    requires order[i] in ReferencedPorts(ports[work[0]].queue.pending) + work[1..] || FromEarlier(ports - {work[0]},
        order, i)
    ensures order[i] in work || FromEarlier(ports, [work[0]] + order, i + 1)
  {
    var a, all := work[0], [work[0]] + order;
    ReferencedAreAttached(ports[a].queue.pending, order[i]);
    if order[i] in ReferencedPorts(ports[a].queue.pending) {
      assert all[0] == a && AttachedTo(ports[all[0]].queue.pending, all[i + 1]);
    } else if order[i] !in work[1..] {
      var j :| 0 <= j < i && order[j] in ports - {a} && AttachedTo((ports - {a})[order[j]].queue.pending, order[i]);
      assert all[j + 1] == order[j];
    }
  }

  lemma ErasePosts(s: State, a: Addr)
    requires SendablePort(s, a)
    ensures var t := ErasePort(s, a);
            t.ports == s.ports - {a} && t.nextId == s.nextId + 1 &&
            t.net == s.net[s.nextId := ObserveClosure(s.ports[a].peer, LastSent(s.ports[a]))]
  {
  }

  lemma {:induction false} SweepAnnounces(s: State, work: seq<Addr>)
    requires !ClosePorts(s, work).crashed
    ensures var t := ClosePorts(s, work);
            Announces(s.ports, s.net, s.nextId, t.net, t.nextId, Swept(s, work))
    decreases |s.ports|, |work|
  {
    hide ErasePort, ReferencedPorts, LastSent;
    if work == [] {
    } else if work[0] !in s.ports || !s.ports[work[0]].mode.Receiving? {
      SweepAnnounces(s, work[1..]);
    } else {
      var a, t, rest := work[0], ErasePort(s, work[0]), ReferencedPorts(s.ports[work[0]].queue.pending) + work[1..];
      EraseShrinks(s, a);
      ErasePosts(s, a);
      SweepAnnounces(t, rest);
      var u := ClosePorts(t, rest);
      AnnouncesFirst(s.ports, s.net, s.nextId, a, u.net, u.nextId, Swept(t, rest));
    }
  }

  lemma AnnouncesFirst(ports: Ports, net: Net, nextId: nat, a: Addr, net': Net, nextId': nat, order: seq<Addr>)
    requires a in ports
    requires Announces(ports - {a}, net[nextId := ObserveClosure(ports[a].peer, LastSent(ports[a]))], nextId + 1,
        net', nextId', order)
    ensures Announces(ports, net, nextId, net', nextId', [a] + order)
  {
    var all := [a] + order;
    forall i | 0 < i < |all|
      ensures all[i] in ports && nextId + i in net' &&
              net'[nextId + i] == ObserveClosure(ports[all[i]].peer, LastSent(ports[all[i]]))
    {
      assert all[i] == order[i - 1] && nextId + i == nextId + 1 + (i - 1);
    }
  }

  /** ClosePort erases the port and everything that can be reached from it through unread
      messages, and announces each closure once. */
  lemma ClosePortSweeps(cs: seq<Command>, a: Addr)
    requires Held(Run(cs), a) && Run(cs).ports[a].mode.Receiving?
    ensures var s := Run(cs);
            var t, order := ClosePort(s, a), Swept(s, [a]);
            a in order && Erases(s.ports, t.ports, order) && Reaches(s.ports, [a], order) &&
            Announces(s.ports, s.net, s.nextId, t.net, t.nextId, order)
  {
    hide Lanes, Chained, Named, Known, Ids, Receivers, Senders, Nexts, Ends, Travellers, Waiting, Targets, Numbers,
        Placement, Reading, Gone, Lasts, TravelLasts, Closures, Flights, Mail, Queues, Pending, FlyingCargo,
        QueuedCargo, Manifest, Unheld, AcceptTokens, Announcements, Acks, ParkedAcks, ProxyTokens, Heralds, Run,
        Heralding, Settled, Erases, Announces;
    var s := Run(cs);
    EveryRun(cs);
    ClosePortKeeps(s, a);
    assert ClosePort(s, a) == ClosePorts(s, [a]);
    SweepErases(s, [a]);
    SweepReaches(s, [a]);
    SweepAnnounces(s, [a]);
  }
}
