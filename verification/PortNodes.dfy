/**
 The nodes as objects whose fields the operations update in place.  Each method is the program's
 method of the same name and leads to the state that the function of that name describes; it
 is called only where that state is not a failed check, and `Execute` shows that this is always
 so.
 */
module PortNodes {
  import opened PortState
  import opened PortSteps
  import PortClosing
  import PortDraining
  import opened PortTheorems

  // ----- What the loops rest on -----

  lemma {:induction false} ClosePortsInTurn(s: State, xs: seq<Addr>, ys: seq<Addr>)
    requires !ClosePorts(s, xs + ys).crashed
    ensures !ClosePorts(s, xs).crashed
    ensures ClosePorts(s, xs + ys) == ClosePorts(ClosePorts(s, xs), ys)
    decreases |s.ports|, |xs|
  {
    if xs == [] {
      assert xs + ys == ys;
      CrashStays(s, ys);
    } else {
      assert (xs + ys)[1..] == xs[1..] + ys;
      var a := xs[0];
      if a !in s.ports || !s.ports[a].mode.Receiving? {
        ClosePortsInTurn(s, xs[1..], ys);
      } else {
        var refs := ReferencedPorts(s.ports[a].queue.pending);
        PortClosing.EraseShrinks(s, a);
        assert refs + (xs + ys)[1..] == (refs + xs[1..]) + ys;
        ClosePortsInTurn(ErasePort(s, a), refs + xs[1..], ys);
      }
    }
  }

  lemma {:induction false} CrashStays(s: State, work: seq<Addr>)
    ensures s.crashed ==> ClosePorts(s, work).crashed
    ensures |ClosePorts(s, work).ports| <= |s.ports|
    decreases |s.ports|, |work|
  {
    if work != [] {
      if work[0] !in s.ports || !s.ports[work[0]].mode.Receiving? {
        CrashStays(s, work[1..]);
      } else if SendablePort(s, work[0]) {
        PortClosing.EraseShrinks(s, work[0]);
        CrashStays(ErasePort(s, work[0]), ReferencedPorts(s.ports[work[0]].queue.pending) + work[1..]);
      }
    }
  }

  class Nodes {
    var ports: Ports
    var net: Net
    var nextId: nat
    var nextName: nat
    ghost var h: History
    /** All that has been done. */
    ghost var log: seq<Command>

    ghost function Now(): State
      reads this
    {
      State(ports, net, nextId, nextName, false, h)
    }

    ghost predicate Valid()
      reads this
    {
      Now() == Run(log)
    }

    constructor ()
      ensures Valid() && log == []
    {
      ports, net, nextId, nextName := map[], map[], 0, 0;
      h := INIT.h;
      log := [];
    }

    method ForwardEvent(e: Event)
      modifies this`net, this`nextId
      ensures Now() == Post(old(Now()), e)
    {
      net, nextId := net[nextId := e], nextId + 1;
    }

    method CreatePortPair(node: nat) returns (a: Addr, b: Addr)
      modifies this`ports, this`nextName, this`h
      ensures Now() == PortSteps.CreatePortPair(old(Now()), node)
      ensures a == Addr(node, old(nextName)) && b == Addr(node, old(nextName) + 1)
    {
      ghost var t := PortSteps.CreatePortPair(Now(), node);
      a, b := Addr(node, nextName), Addr(node, nextName + 1);
      nextName := nextName + 2;
      ports := ports[a := NewPort(b)][b := NewPort(a)];
      h := t.h;
    }

    // ----- Sending ports -----

    method WillSendPort(a: Addr, node: nat) returns (b: Addr, d: Descriptor)
      requires SendablePort(Now(), a)
      modifies this`ports, this`nextName, this`h
      ensures Now() == PortSteps.WillSendPort(old(Now()), a, node)
      ensures b == Addr(node, old(nextName)) && d == DescriptorOf(a, old(ports[a]))
    {
      ghost var t := PortSteps.WillSendPort(Now(), a, node);
      b := Addr(node, nextName);
      nextName := nextName + 1;
      var p := ports[a].(mode := Buffering);
      if p.peerClosed { p := p.(removeOnLast := true); }
      d := Descriptor(p.peer, a, p.nextSend, p.queue.next, p.lastRecv, p.peerClosed);
      ports := ports[a := p.(peer := b)];
      h := t.h;
    }

    method AcceptPort(b: Addr, d: Descriptor)
      requires b !in ports
      modifies this`ports, this`net, this`nextId, this`h
      ensures Now() == PortSteps.AcceptPort(old(Now()), b, d)
    {
      ghost var t := PortSteps.AcceptPort(Now(), b, d);
      ports := ports[b := AcceptedPort(d)];
      ForwardEvent(PortAccepted(d.referring));
      h := t.h;
    }

    // ----- SendMessage -----

    method SendPorts(qs: seq<Addr>, node: nat) returns (bs: seq<Addr>, ds: seq<Descriptor>)
      requires Distinct(qs) && (forall q :: q in qs ==> q in ports) && !PortSteps.SendPorts(Now(), qs, node).crashed
      modifies this`ports, this`nextName, this`h
      ensures Now() == PortSteps.SendPorts(old(Now()), qs, node)
      ensures bs == NewAddrs(node, old(nextName), |qs|) && ds == Descriptors(old(ports), qs)
    {
      hide PortSteps.WillSendPort, PortSteps.SendPorts;
      bs, ds := [], [];
      NoneToSend(Now(), node);
      for i := 0 to |qs|
        invariant !PortSteps.SendPorts(Now(), qs[i..], node).crashed
        invariant PortSteps.SendPorts(Now(), qs[i..], node) == PortSteps.SendPorts(old(Now()), qs, node)
        invariant nextName == old(nextName) + i && bs == NewAddrs(node, old(nextName), i)
        invariant |ds| == i && forall j :: 0 <= j < i ==> ds[j] == DescriptorOf(qs[j], old(ports)[qs[j]])
        invariant forall j :: i <= j < |qs| ==> qs[j] in ports && ports[qs[j]] == old(ports)[qs[j]]
      {
        SendNext(Now(), qs[i..], node);
        assert qs[i..][1..] == qs[i + 1..];
        var b, d := WillSendPort(qs[i], node);
        bs, ds := bs + [b], ds + [d];
      }
      NoneToSend(Now(), node);
    }

    static lemma NoneToSend(s: State, node: nat)
      ensures PortSteps.SendPorts(s, [], node) == s
    {
    }

    static lemma SendNext(s: State, qs: seq<Addr>, node: nat)
      requires qs != [] && !PortSteps.SendPorts(s, qs, node).crashed
      ensures SendablePort(s, qs[0])
      ensures var t := PortSteps.WillSendPort(s, qs[0], node);
              PortSteps.SendPorts(s, qs, node) == PortSteps.SendPorts(t, qs[1..], node) &&
                  t.nextName == s.nextName + 1 &&
              forall c :: c in s.ports && c != qs[0] ==> c in t.ports && t.ports[c] == s.ports[c]
    {
    }

    method SendMessage(a: Addr, payload: Payload, qs: seq<Addr>) returns (r: Outcome)
      requires MaySend(Now(), a, qs) && !PortSteps.SendMessage(Now(), a, payload, qs).crashed
      modifies this`ports, this`net, this`nextId, this`nextName, this`h
      ensures r == SendOutcome(old(Now()), a, qs)
      ensures Now() == PortSteps.SendMessage(old(Now()), a, payload, qs)
    {
      for i := 0 to |qs|
        invariant a !in qs[..i]
      {
        if qs[i] == a { return CannotSendSelf; }
      }
      assert qs[..|qs|] == qs;
      var p := ports[a];
      if !p.mode.Receiving? { return StateUnexpected; }
      if p.peerClosed { return PortSteps.PeerClosed; }
      r := CheckPorts(p.peer.name, qs);
      if r != Ok { return; }
      var bs, ds := SendPorts(qs, p.peer.node);
      Emit(a, payload, bs, ds);
    }

    /** The ports must be ours to send before any of them is touched. */
    method CheckPorts(peer: nat, qs: seq<Addr>) returns (r: Outcome)
      requires forall q :: q in qs ==> q in ports
      ensures r == PortsOutcome(ports, peer, qs)
    {
      for i := 0 to |qs|
        invariant PortsOutcome(ports, peer, qs) == PortsOutcome(ports, peer, qs[i..])
      {
        assert qs[i..][1..] == qs[i + 1..];
        if !ports[qs[i]].mode.Receiving? { return StateUnexpected; }
        if qs[i].name == peer { return CannotSendPeer; }
      }
      return Ok;
    }

    method Emit(a: Addr, payload: Payload, bs: seq<Addr>, ds: seq<Descriptor>)
      requires SendablePort(Now(), a)
      modifies this`ports, this`net, this`nextId, this`h
      ensures Now() == PortSteps.Emit(old(Now()), a, payload, bs, ds)
    {
      ghost var t := PortSteps.Emit(Now(), a, payload, bs, ds);
      var p := ports[a];
      ports := ports[a := p.(nextSend := p.nextSend + 1)];
      ForwardEvent(User(p.peer, Message(p.nextSend, payload, bs, ds)));
      h := t.h;
    }

    // ----- Forwarding -----

    method ForwardPort(x: Addr, k: nat, slot: nat)
      requires ForwardableSlot(Now(), x, k, slot)
      modifies this`ports, this`nextName, this`h
      ensures Now() == PortSteps.ForwardPort(old(Now()), x, k, slot)
    {
      ghost var t := PortSteps.ForwardPort(Now(), x, k, slot);
      var msg := ports[x].queue.pending[k];
      var b, d := WillSendPort(msg.ports[slot], ports[x].peer.node);
      var q := ports[x].queue;
      ports := ports[x := ports[x].(queue := q.(pending := q.pending[k := WithSlot(msg, slot, b, d)]))];
      h := t.h;
    }

    method ForwardPorts(x: Addr, k: nat)
      requires x in ports && k in ports[x].queue.pending && !PortSteps.ForwardPorts(Now(), x, k, 0).crashed
      modifies this`ports, this`nextName, this`h
      ensures x in ports && Now() == PortSteps.ForwardPorts(old(Now()), x, k, 0)
    {
      var slot := 0;
      while slot < |ports[x].queue.pending[k].ports|
        invariant x in ports && k in ports[x].queue.pending
        invariant PortSteps.ForwardPorts(Now(), x, k, slot) == PortSteps.ForwardPorts(old(Now()), x, k, 0)
        invariant net == old(net) && nextId == old(nextId)
        decreases |ports[x].queue.pending[k].ports| - slot
      {
        assert ForwardableSlot(Now(), x, k, slot) && ports[x].queue.pending[k].ports[slot].name != ports[x].peer.name;
        ForwardPort(x, k, slot);
        slot := slot + 1;
      }
    }

    method ForwardMessages(x: Addr)
      requires x in ports && !PortSteps.ForwardMessages(Now(), x).crashed
      modifies this`ports, this`net, this`nextId, this`nextName, this`h
      ensures Now() == PortSteps.ForwardMessages(old(Now()), x)
      ensures x in ports
    {
      while HasNext(ports[x])
        invariant x in ports && PortSteps.ForwardMessages(Now(), x) == PortSteps.ForwardMessages(old(Now()), x)
        decreases |ports[x].queue.pending|
      {
        ghost var s := Now();
        ForwardPorts(x, ports[x].queue.next);
        ghost var t := Now();
        assert t == PortSteps.ForwardPorts(s, x, s.ports[x].queue.next, 0) && Hoppable(t, x);
        Hop(x);
        PortDraining.HopShrinks(s, t, x);
      }
    }

    method Hop(x: Addr)
      requires Hoppable(Now(), x)
      modifies this`ports, this`net, this`nextId, this`h
      ensures Now() == PortSteps.Hop(old(Now()), x)
    {
      ghost var t := PortSteps.Hop(Now(), x);
      var p := ports[x];
      ports := ports[x := Popped(p)];
      ForwardEvent(User(p.peer, p.queue.pending[p.queue.next]));
      h := t.h;
    }

    // ----- Removing proxies -----

    method MaybeRemoveProxy(x: Addr)
      requires !PortSteps.MaybeRemoveProxy(Now(), x).crashed
      modifies this`ports, this`net, this`nextId, this`h
      ensures Now() == PortSteps.MaybeRemoveProxy(old(Now()), x)
    {
      ghost var t := PortSteps.MaybeRemoveProxy(Now(), x);
      assert ports[x].mode.Proxying?;
      if ports[x].removeOnLast && !CanAcceptMoreMessages(ports[x]) {
        var p := ports[x];
        ports := ports - {x};
        if p.parked.Some? { ForwardEvent(ObserveProxyAck(p.parked.value, INVALID_SEQUENCE_NUM)); }
      }
      h := t.h;
    }

    static lemma RemovingIsSafe(s: State, x: Addr)
      requires !s.crashed && x in s.ports && s.ports[x].mode.Proxying?
      ensures !PortSteps.MaybeRemoveProxy(s, x).crashed
    {
    }

    method InitiateProxyRemoval(x: Addr)
      requires x in ports
      modifies this`net, this`nextId, this`h
      ensures Now() == PortSteps.InitiateProxyRemoval(old(Now()), x)
    {
      ghost var t := PortSteps.InitiateProxyRemoval(Now(), x);
      ForwardEvent(ObserveProxy(ports[x].peer, x, ports[x].peer));
      h := t.h;
    }

    // ----- ClosePort -----

    static method GetReferencedPorts(pending: map<nat, Message>) returns (refs: seq<Addr>)
      ensures refs == ReferencedPorts(pending)
    {
      refs := [];
      var rest := pending;
      while rest != map[]
        invariant refs + ReferencedPorts(rest) == ReferencedPorts(pending)
        decreases |rest|
      {
        HasLeast(rest.Keys);
        var k :| IsLeast(rest.Keys, k);
        refs := refs + rest[k].ports;
        assert (rest - {k}).Keys == rest.Keys - {k};
        rest := rest - {k};
      }
    }

    method ErasePort(a: Addr)
      requires SendablePort(Now(), a)
      modifies this`ports, this`net, this`nextId, this`h
      ensures Now() == PortSteps.ErasePort(old(Now()), a)
    {
      ghost var t := PortSteps.ErasePort(Now(), a);
      var p := ports[a];
      ports := ports - {a};
      ForwardEvent(ObserveClosure(p.peer, if p.nextSend == 0 then 0 else p.nextSend - 1));
      h := t.h;
    }

    method ClosePort(a: Addr)
      requires !ClosePorts(Now(), [a]).crashed
      modifies this`ports, this`net, this`nextId, this`h
      ensures Now() == ClosePorts(old(Now()), [a])
      decreases |ports|, 0
    {
      ghost var s := Now();
      if a !in ports || !ports[a].mode.Receiving? {
        assert ClosePorts(s, [a]) == ClosePorts(s, []);
        return;
      }
      var refs := GetReferencedPorts(ports[a].queue.pending);
      assert [a][1..] == [] && refs + [] == refs;
      PortClosing.EraseShrinks(s, a);
      ErasePort(a);
      CloseAll(refs);
    }

    method CloseAll(work: seq<Addr>)
      requires !ClosePorts(Now(), work).crashed
      modifies this`ports, this`net, this`nextId, this`h
      ensures Now() == ClosePorts(old(Now()), work)
      decreases |ports|, 1
    {
      for i := 0 to |work|
        invariant ClosePorts(Now(), work[i..]) == ClosePorts(old(Now()), work)
        invariant |ports| <= |old(ports)| && nextName == old(nextName)
      {
        ghost var s := Now();
        assert work[i..] == [work[i]] + work[i + 1..];
        ClosePortsInTurn(s, [work[i]], work[i + 1..]);
        CrashStays(s, [work[i]]);
        ClosePort(work[i]);
      }
    }

    // ----- Events -----

    method AcceptAll(bs: seq<Addr>, ds: seq<Descriptor>)
      requires !AcceptPorts(Now(), bs, ds).crashed
      modifies this`ports, this`net, this`nextId, this`h
      ensures Now() == AcceptPorts(old(Now()), bs, ds)
    {
      hide PortSteps.AcceptPort;
      var i := 0;
      while i < |bs| && i < |ds|
        invariant 0 <= i <= |bs| && i <= |ds| && nextName == old(nextName)
        invariant AcceptPorts(Now(), bs[i..], ds[i..]) == AcceptPorts(old(Now()), bs, ds)
      {
        AcceptNextPort(Now(), bs[i..], ds[i..]);
        assert bs[i..][1..] == bs[i + 1..] && ds[i..][1..] == ds[i + 1..];
        AcceptPort(bs[i], ds[i]);
        i := i + 1;
      }
    }

    static lemma AcceptNextPort(s: State, bs: seq<Addr>, ds: seq<Descriptor>)
      requires !s.crashed && !AcceptPorts(s, bs, ds).crashed && bs != [] && ds != []
      ensures bs[0] !in s.ports
      ensures AcceptPorts(s, bs, ds) == AcceptPorts(PortSteps.AcceptPort(s, bs[0], ds[0]), bs[1..], ds[1..])
    {
    }

    static lemma {:induction false} AcceptingKeeps(s: State, bs: seq<Addr>, ds: seq<Descriptor>, id: nat)
      requires id in s.net && id < s.nextId
      ensures var t := AcceptPorts(s, bs, ds);
              id in t.net && t.net[id] == s.net[id] && s.ports.Keys <= t.ports.Keys
      decreases |bs|
    {
      if bs != [] && ds != [] && !s.crashed {
        AcceptingKeeps(PortSteps.AcceptPort(s, bs[0], ds[0]), bs[1..], ds[1..], id);
      }
    }

    method OnUserMessage(id: nat)
      requires id in net && net[id].User? && id < nextId && !PortSteps.OnUserMessage(Now(), id).crashed
      modifies this`ports, this`net, this`nextId, this`nextName, this`h
      ensures Now() == PortSteps.OnUserMessage(old(Now()), id)
    {
      hide AcceptPorts, PortSteps.ForwardMessages, PortSteps.MaybeRemoveProxy, ClosePorts;
      var x, msg, found := net[id].to, net[id].msg, net[id].to in ports;
      AcceptingKeeps(Now(), msg.ports, msg.descs, id);
      AcceptAll(msg.ports, msg.descs);
      if found && CanAcceptMoreMessages(ports[x]) {
        Enqueue(id);
        if ports[x].mode.Proxying? {
          ForwardMessages(x);
          MaybeRemoveProxy(x);
        }
      } else {
        Discard(id);
        CloseAll(msg.ports);
      }
    }

    method Enqueue(id: nat)
      requires Arriving(Now(), id) && net[id].to in ports
      modifies this`ports, this`net, this`h
      ensures Now() == PortSteps.Enqueue(old(Now()), id)
    {
      ghost var t := PortSteps.Enqueue(Now(), id);
      var x, msg := net[id].to, net[id].msg;
      net := net - {id};
      var q := ports[x].queue;
      ports := ports[x := ports[x].(queue := q.(pending := q.pending[msg.num := msg]))];
      h := t.h;
    }

    method Discard(id: nat)
      requires Arriving(Now(), id)
      modifies this`net, this`h
      ensures Now() == PortSteps.Discard(old(Now()), id)
    {
      ghost var t := PortSteps.Discard(Now(), id);
      net := net - {id};
      h := t.h;
    }

    method BecomeProxy(id: nat)
      requires id in net && net[id].to in ports
      modifies this`ports, this`net, this`h
      ensures Now() == PortSteps.BecomeProxy(old(Now()), id)
    {
      ghost var t := PortSteps.BecomeProxy(Now(), id);
      var x := net[id].to;
      net := net - {id};
      ports := ports[x := ports[x].(mode := Proxying)];
      h := t.h;
    }

    method OnPortAccepted(id: nat)
      requires id in net && net[id].PortAccepted? && !PortSteps.OnPortAccepted(Now(), id).crashed
      modifies this`ports, this`net, this`nextId, this`nextName, this`h
      ensures Now() == PortSteps.OnPortAccepted(old(Now()), id)
    {
      hide PortSteps.ForwardMessages, PortSteps.MaybeRemoveProxy, PortSteps.InitiateProxyRemoval;
      var x := net[id].to;
      assert x in ports && ports[x].mode.Buffering?;
      BecomeProxy(id);
      ForwardMessages(x);
      var p := ports[x];
      if p.removeOnLast {
        MaybeRemoveProxy(x);
        ForwardEvent(ObserveClosure(p.peer, p.lastRecv));
      } else {
        InitiateProxyRemoval(x);
      }
    }

    method OnObserveProxy(id: nat)
      requires id in net && net[id].ObserveProxy? && !PortSteps.OnObserveProxy(Now(), id).crashed
      modifies this`ports, this`net, this`nextId, this`h
      ensures Now() == PortSteps.OnObserveProxy(old(Now()), id)
    {
      ghost var t := PortSteps.OnObserveProxy(Now(), id);
      var e := net[id];
      net := net - {id};
      if e.to in ports {
        var p := ports[e.to];
        if p.peer != e.proxy {
          ForwardEvent(ObserveProxy(p.peer, e.proxy, e.proxyTo));
        } else if p.mode.Receiving? {
          ports := ports[e.to := p.(peer := e.proxyTo)];
          ForwardEvent(ObserveProxyAck(e.proxy, if p.nextSend == 0 then 0 else p.nextSend - 1));
        } else {
          ports := ports[e.to := p.(parked := Some(e.proxy))];
        }
      }
      h := t.h;
    }

    method OnObserveProxyAck(id: nat)
      requires id in net && net[id].ObserveProxyAck? && !PortSteps.OnObserveProxyAck(Now(), id).crashed
      modifies this`ports, this`net, this`nextId, this`h
      ensures Now() == PortSteps.OnObserveProxyAck(old(Now()), id)
    {
      hide PortSteps.MaybeRemoveProxy;
      var e := net[id];
      ghost var t := DropToken(Now(), id, e.to);
      net := net - {id};
      h := t.h;
      if e.to in ports {
        assert ports[e.to].mode.Proxying?;
        if e.last == INVALID_SEQUENCE_NUM {
          InitiateProxyRemoval(e.to);
        } else {
          ports := ports[e.to := ports[e.to].(removeOnLast := true, lastRecv := e.last)];
          MaybeRemoveProxy(e.to);
        }
      }
    }

    method OnObserveClosure(id: nat)
      requires id in net && net[id].ObserveClosure?
      modifies this`ports, this`net, this`nextId, this`h
      ensures Now() == PortSteps.OnObserveClosure(old(Now()), id)
    {
      hide PortSteps.MaybeRemoveProxy;
      var e := net[id];
      net := net - {id};
      if e.to in ports {
        var p := ports[e.to].(peerClosed := true, lastRecv := e.last);
        var last := e.last;
        if p.mode.Receiving? {
          last := if p.nextSend == 0 then 0 else p.nextSend - 1;
        } else {
          p := p.(removeOnLast := true);
        }
        ports := ports[e.to := p];
        if p.mode.Proxying? {
          RemovingIsSafe(Now(), e.to);
          MaybeRemoveProxy(e.to);
        }
        ForwardEvent(ObserveClosure(p.peer, last));
      }
    }

    // ----- GetMessage -----

    method TakeMessage(a: Addr) returns (msg: Message)
      requires Readable(Now(), a)
      modifies this`ports, this`h
      ensures Now() == PortSteps.TakeMessage(old(Now()), a)
      ensures msg == old(ports[a].queue.pending[ports[a].queue.next])
    {
      ghost var t := PortSteps.TakeMessage(Now(), a);
      msg := ports[a].queue.pending[ports[a].queue.next];
      ports := ports[a := Popped(ports[a])];
      h := t.h;
    }

    method ClaimPorts(bs: seq<Addr>)
      requires !PortSteps.ClaimPorts(Now(), bs).crashed
      modifies this`ports
      ensures Now() == PortSteps.ClaimPorts(old(Now()), bs)
    {
      for i := 0 to |bs|
        invariant PortSteps.ClaimPorts(Now(), bs[i..]) == PortSteps.ClaimPorts(old(Now()), bs)
      {
        assert bs[i..][1..] == bs[i + 1..];
        assert bs[i] in ports && ports[bs[i]].mode.Receiving?;
        ports := ports[bs[i] := ports[bs[i]].(signalable := true)];
      }
    }

    method GetMessage(a: Addr) returns (r: GetOutcome)
      requires Held(Now(), a) && !PortSteps.GetMessage(Now(), a).crashed
      modifies this`ports, this`h
      ensures r == GetMessageOutcome(old(Now()), a)
      ensures Now() == PortSteps.GetMessage(old(Now()), a)
    {
      hide PortSteps.TakeMessage, PortSteps.ClaimPorts;
      var p := ports[a];
      if !p.mode.Receiving? { return GetStateUnexpected; }
      if !CanAcceptMoreMessages(p) { return GetPeerClosed; }
      if !HasNext(p) { return NoMessage; }
      assert Readable(Now(), a);
      var msg := TakeMessage(a);
      ClaimPorts(msg.ports);
      return GotMessage(msg);
    }

    // ----- Every run -----

    method AcceptMessage(id: nat)
      requires id in net && id < nextId && !Handle(Now(), id).crashed
      modifies this`ports, this`net, this`nextId, this`nextName, this`h
      ensures Now() == Handle(old(Now()), id)
    {
      match net[id] {
        case User(_, _) => OnUserMessage(id);
        case PortAccepted(_) => OnPortAccepted(id);
        case ObserveProxy(_, _, _) => OnObserveProxy(id);
        case ObserveProxyAck(_, _) => OnObserveProxyAck(id);
        case ObserveClosure(_, _) => OnObserveClosure(id);
      }
    }

    /** Does what a command says, and no check fails on the way. */
    method Execute(c: Command)
      requires Valid()
      modifies this
      ensures Valid() && log == old(log) + [c]
    {
      hide Run, PortSteps.CreatePortPair, PortSteps.SendMessage, PortSteps.GetMessage, PortSteps.ClosePort, Handle;
      StepsAreSafe(log, c);
      match c {
        case Create(node) => var a, b := CreatePortPair(node);
        case Send(a, payload, qs) =>
          if MaySendIn(ports, a, qs) && ports[a].nextSend < INVALID_SEQUENCE_NUM { var r := SendMessage(a, payload,
              qs); }
        case Get(a) => if HeldIn(ports, a) { var r := GetMessage(a); }
        case Close(a) =>
          ClosesOne(Now(), a);
          if HeldIn(ports, a) { ClosePort(a); }
        case Deliver(id) => if id in net { AcceptMessage(id); }
      }
      log := log + [c];
    }

    static lemma ClosesOne(s: State, a: Addr)
      ensures PortSteps.ClosePort(s, a) == ClosePorts(s, [a])
    {
    }

    static lemma StepsAreSafe(cs: seq<Command>, c: Command)
      ensures Run(cs + [c]) == Step(Run(cs), c) && !Step(Run(cs), c).crashed
      ensures forall id :: id in Run(cs).net ==> id < Run(cs).nextId
    {
      assert (cs + [c])[..|cs|] == cs;
      NeverCrashes(cs + [c]);
      IdsAreOld(cs);
    }
  }
}
