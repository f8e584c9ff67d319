/**
 The operations of Node on the whole system.  Each handler runs at one node and is atomic.
 Every function is total: a failed check of the program sets `crashed`.
 */
module PortSteps {
  import opened PortState

  // ----- Elementary updates -----

  function Crash(s: State): State { s.(crashed := true) }

  function Post(s: State, e: Event): State {
    s.(net := s.net[s.nextId := e], nextId := s.nextId + 1)
  }

  function Take(s: State, id: nat): State { s.(net := s.net - {id}) }

  /** The port is known to the history variables. */
  predicate Tracked(h: History, a: Addr) {
    a in h.pos && TrackedLane(h, h.pos[a].lane) && TrackedLane(h, h.pos[a].lane.Other()) &&
    h.pos[a].idx < |h.chain[h.pos[a].lane]|
  }

  predicate TrackedLane(h: History, l: LaneId) {
    l in h.chain && l in h.nexts && l in h.routed && l in h.sent && l in h.place && l in h.read &&
    |h.nexts[l]| == |h.chain[l]| && |h.place[l]| == |h.sent[l]|
  }

  // ----- CreatePortPair -----

  function NewPort(peer: Addr): Port {
    Port(Receiving, peer, INITIAL_SEQUENCE_NUM, 0, Queue(INITIAL_SEQUENCE_NUM, map[]), true, None, false, false)
  }

  function CreatePortPair(s: State, node: nat): State {
    var a, b := Addr(node, s.nextName), Addr(node, s.nextName + 1);
    var l, m := LaneId(s.nextName, false), LaneId(s.nextName, true);
    var h := s.h;
    s.(ports := s.ports[a := NewPort(b)][b := NewPort(a)],
       nextName := s.nextName + 2,
       h := h.(chain := h.chain[l := [a]][m := [b]],
               nexts := h.nexts[l := [1]][m := [1]],
               routed := h.routed[l := []][m := []],
               sent := h.sent[l := [NOTHING]][m := [NOTHING]],
               place := h.place[l := [Read]][m := [Read]],
               read := h.read[l := [NOTHING]][m := [NOTHING]],
               pos := h.pos[a := Pos(l, 0)][b := Pos(m, 0)]))
  }

  // ----- WillSendPort_Locked, AcceptPort -----

  predicate SendablePort(s: State, a: Addr) {
    a in s.ports && s.ports[a].mode.Receiving? && Tracked(s.h, a)
  }

  function WillSendPort(s: State, a: Addr, node: nat): State
    requires SendablePort(s, a)
  {
    var p, b, l, h := s.ports[a], Addr(node, s.nextName), s.h.pos[a].lane, s.h;
    s.(ports := s.ports[a := p.(mode := Buffering, peer := b, removeOnLast := p.removeOnLast || p.peerClosed)],
       nextName := s.nextName + 1,
       h := h.(chain := h.chain[l := h.chain[l] + [b]],
               nexts := h.nexts[l := h.nexts[l] + [p.queue.next]],
               pos := h.pos[b := Pos(l, |h.chain[l]|)],
               transit := h.transit[b := DescriptorOf(a, p)]))
  }

  function AcceptedPort(d: Descriptor): Port {
    Port(Receiving, d.peer, d.nextSend, d.lastRecv, Queue(d.nextRecv, map[]), false, None, false, d.peerClosed)
  }

  function AcceptPort(s: State, b: Addr, d: Descriptor): State {
    if b in s.ports then Crash(s) else
    Post(s.(ports := s.ports[b := AcceptedPort(d)],
            h := s.h.(transit := s.h.transit - {b}, token := s.h.token[d.referring := Accepting(s.nextId)])),
         PortAccepted(d.referring))
  }

  // ----- SendMessage -----

  /** Moves the ports a user attached to a message, in order. */
  function SendPorts(s: State, qs: seq<Addr>, node: nat): State
    decreases |qs|
  {
    if qs == [] then s
    else if !SendablePort(s, qs[0]) then Crash(s)
    else SendPorts(WillSendPort(s, qs[0], node), qs[1..], node)
  }

  function NewAddrs(node: nat, name: nat, n: nat): seq<Addr> {
    seq(n, i requires 0 <= i < n => Addr(node, name + i))
  }

  function Descriptors(ports: Ports, qs: seq<Addr>): seq<Descriptor>
    requires forall q :: q in qs ==> q in ports
  {
    seq(|qs|, i requires 0 <= i < |qs| => DescriptorOf(qs[i], ports[qs[i]]))
  }

  function LanesOf(h: History, bs: seq<Addr>): seq<LaneId> {
    seq(|bs|, i requires 0 <= i < |bs| => if bs[i] in h.pos then h.pos[bs[i]].lane else LaneId(0, false))
  }

  function Load(cargo: Cargos, bs: seq<Addr>, l: LaneId, num: nat): Cargos
    decreases |bs|
  {
    if bs == [] then cargo
    else Load(cargo, bs[..|bs| - 1], l, num)[bs[|bs| - 1] := Cargo(l, num, |bs| - 1)]
  }

  function Unload(cargo: Cargos, bs: seq<Addr>): Cargos { cargo - (set b | b in bs) }

  /** Numbers the message and hands it to the transport. */
  function Emit(s: State, a: Addr, payload: Payload, bs: seq<Addr>, ds: seq<Descriptor>): State
    requires SendablePort(s, a)
  {
    var p, m, h := s.ports[a], s.h.pos[a].lane.Other(), s.h;
    Post(s.(ports := s.ports[a := p.(nextSend := p.nextSend + 1)],
            h := h.(sent := h.sent[m := h.sent[m] + [Entry(payload, LanesOf(h, bs))]],
                    place := h.place[m := h.place[m] + [Flying(s.nextId, |h.routed[m]|)]],
                    cargo := Load(h.cargo, bs, m, p.nextSend))),
         User(p.peer, Message(p.nextSend, payload, bs, ds)))
  }

  datatype Outcome = Ok | StateUnexpected | CannotSendSelf | PeerClosed | CannotSendPeer

  /** A port the embedder has: it created it, or took it out of a message. */
  predicate HeldIn(ports: Ports, a: Addr) {
    a in ports && ports[a].signalable
  }

  predicate Held(s: State, a: Addr) { HeldIn(s.ports, a) }

  predicate Distinct(qs: seq<Addr>) {
    forall i, j :: 0 <= i < j < |qs| ==> qs[i] != qs[j]
  }

  /** What a caller must provide: its own ports, on one node, each listed once. */
  predicate MaySendIn(ports: Ports, a: Addr, qs: seq<Addr>) {
    HeldIn(ports, a) && Distinct(qs) && forall q :: q in qs ==> HeldIn(ports, q) && q.node == a.node
  }

  predicate MaySend(s: State, a: Addr, qs: seq<Addr>) { MaySendIn(s.ports, a, qs) }

  /** The first port that cannot be sent decides. */
  function PortsOutcome(ports: Ports, peer: nat, qs: seq<Addr>): (r: Outcome)
    requires forall q :: q in qs ==> q in ports
    ensures r == Ok <==> forall q :: q in qs ==> ports[q].mode.Receiving? && q.name != peer
    decreases |qs|
  {
    if qs == [] then Ok
    else
      assert qs == [qs[0]] + qs[1..];
      if !ports[qs[0]].mode.Receiving? then StateUnexpected
      else if qs[0].name == peer then CannotSendPeer
      else PortsOutcome(ports, peer, qs[1..])
  }

  function SendOutcome(s: State, a: Addr, qs: seq<Addr>): Outcome
    requires MaySend(s, a, qs)
  {
    var p := s.ports[a];
    if a in qs then CannotSendSelf
    else if !p.mode.Receiving? then StateUnexpected
    else if p.peerClosed then PeerClosed
    else PortsOutcome(s.ports, p.peer.name, qs)
  }

  function SendMessage(s: State, a: Addr, payload: Payload, qs: seq<Addr>): State
    requires MaySend(s, a, qs)
  {
    if SendOutcome(s, a, qs) != Ok then s else
    var node := s.ports[a].peer.node;
    var t := SendPorts(s, qs, node);
    if t.crashed || !SendablePort(t, a) then Crash(t)
    else Emit(t, a, payload, NewAddrs(node, s.nextName, |qs|), Descriptors(s.ports, qs))
  }

  // ----- ForwardMessages_Locked -----

  predicate ForwardableSlot(s: State, x: Addr, k: nat, slot: nat) {
    x in s.ports && k in s.ports[x].queue.pending &&
    slot < |s.ports[x].queue.pending[k].ports| == |s.ports[x].queue.pending[k].descs| &&
    SendablePort(s, s.ports[x].queue.pending[k].ports[slot])
  }

  function WithSlot(msg: Message, slot: nat, b: Addr, d: Descriptor): Message
    requires slot < |msg.ports| == |msg.descs|
  {
    msg.(ports := msg.ports[slot := b], descs := msg.descs[slot := d])
  }

  function SetMessage(s: State, x: Addr, k: nat, msg: Message): State
    requires x in s.ports
  {
    s.(ports := s.ports[x := s.ports[x].(queue := s.ports[x].queue.(pending := s.ports[x].queue.pending[k := msg]))])
  }

  /** Sends on the port in one slot of a queued message, and rewrites the slot. */
  function ForwardPort(s: State, x: Addr, k: nat, slot: nat): State
    requires ForwardableSlot(s, x, k, slot)
  {
    var msg := s.ports[x].queue.pending[k];
    var q, b := msg.ports[slot], Addr(s.ports[x].peer.node, s.nextName);
    var t := WillSendPort(s, q, b.node);
    var u := SetMessage(t, x, k, WithSlot(msg, slot, b, DescriptorOf(q, s.ports[q])));
    if q in s.h.cargo then u.(h := u.h.(cargo := (u.h.cargo - {q})[b := s.h.cargo[q]])) else u
  }

  function ForwardPorts(s: State, x: Addr, k: nat, slot: nat): (t: State)
    requires x in s.ports && k in s.ports[x].queue.pending
    ensures x in t.ports && t.ports[x].queue.pending.Keys == s.ports[x].queue.pending.Keys
    ensures t.ports[x].queue.next == s.ports[x].queue.next
    decreases |s.ports[x].queue.pending[k].ports| - slot
  {
    if slot >= |s.ports[x].queue.pending[k].ports| then s
    else if !ForwardableSlot(s, x, k, slot) || s.ports[x].queue.pending[k].ports[slot].name == s.ports[x].peer.name
    then Crash(s)
    else ForwardPorts(ForwardPort(s, x, k, slot), x, k, slot + 1)
  }

  predicate HasNext(p: Port) { p.queue.next in p.queue.pending }

  predicate Hoppable(s: State, x: Addr) {
    x in s.ports && HasNext(s.ports[x]) && Tracked(s.h, x) &&
    s.ports[x].queue.next < |s.h.place[s.h.pos[x].lane]|
  }

  function Popped(p: Port): Port
  {
    p.(queue := Queue(p.queue.next + 1, p.queue.pending - {p.queue.next}))
  }

  function Set(nums: seq<nat>, i: nat, n: nat): seq<nat>
    requires i < |nums|
  {
    nums[i := n]
  }

  /** Takes the next message from a proxy's queue and hands it to the transport. */
  function Hop(s: State, x: Addr): State
    requires Hoppable(s, x)
  {
    var p, m, i, h := s.ports[x], s.h.pos[x].lane, s.h.pos[x].idx, s.h;
    var k: nat := p.queue.next;
    Post(s.(ports := s.ports[x := Popped(p)],
            h := h.(nexts := h.nexts[m := Set(h.nexts[m], i, k + 1)],
                    place := h.place[m := h.place[m][k := Flying(s.nextId, i + 1)]])),
         User(p.peer, p.queue.pending[k]))
  }

  function ForwardMessages(s: State, x: Addr): State
    decreases if x in s.ports then |s.ports[x].queue.pending| else 0
  {
    if x !in s.ports || !HasNext(s.ports[x]) then s else
    var t := ForwardPorts(s, x, s.ports[x].queue.next, 0);
    if t.crashed || !Hoppable(t, x) then Crash(t) else
    assert |Hop(t, x).ports[x].queue.pending| < |s.ports[x].queue.pending| by {
      var k := s.ports[x].queue.next;
      assert Hop(t, x).ports[x].queue.pending.Keys == s.ports[x].queue.pending.Keys - {k};
      assert |s.ports[x].queue.pending.Keys - {k}| == |s.ports[x].queue.pending.Keys| - 1;
    }
    ForwardMessages(Hop(t, x), x)
  }

  // ----- MaybeRemoveProxy_Locked, InitiateProxyRemoval_Locked -----

  function MaybeRemoveProxy(s: State, x: Addr): State {
    if x !in s.ports || !s.ports[x].mode.Proxying? then Crash(s) else
    if !s.ports[x].removeOnLast || CanAcceptMoreMessages(s.ports[x]) then s else
    var p, t := s.ports[x], s.(ports := s.ports - {x});
    if p.parked.None? then t else
    Post(t.(h := t.h.(token := t.h.token[p.parked.value := Acking(t.nextId)])),
         ObserveProxyAck(p.parked.value, INVALID_SEQUENCE_NUM))
  }

  function InitiateProxyRemoval(s: State, x: Addr): State
    requires x in s.ports
  {
    var y := s.ports[x].peer;
    Post(s.(h := s.h.(token := s.h.token[x := Observing(s.nextId)])), ObserveProxy(y, x, y))
  }

  // ----- ClosePort -----

  /** The ports attached to the messages of a queue, in the order of their numbers. */
  ghost function ReferencedPorts(pending: map<nat, Message>): seq<Addr>
    decreases |pending|
  {
    if pending == map[] then [] else
    HasLeast(pending.Keys);
    var k :| IsLeast(pending.Keys, k);
    assert |(pending - {k}).Keys| == |pending.Keys - {k}| by { assert (pending - {k}).Keys == pending.Keys - {k}; }
    pending[k].ports + ReferencedPorts(pending - {k})
  }

  predicate IsLeast(ks: set<nat>, k: nat) {
    k in ks && forall j :: j in ks ==> k <= j
  }

  lemma HasLeast(ks: set<nat>)
    requires ks != {}
    ensures exists k :: IsLeast(ks, k)
    decreases |ks|
  {
    var j :| j in ks;
    if ks == {j} {
      assert IsLeast(ks, j);
    } else {
      var rest := ks - {j};
      assert ks == rest + {j};
      HasLeast(rest);
      var k :| IsLeast(rest, k);
      var least := if k < j then k else j;
      assert forall i :: i in ks ==> i == j || i in rest;
      assert IsLeast(ks, least);
    }
  }

  /** The messages queued at index i of lane m are lost, and what they carry is in no message. */
  function Abandoned(place: Places, m: LaneId, i: nat): Places
    requires m in place
  {
    place[m := seq(|place[m]|,
        k requires 0 <= k < |place[m]| => if place[m][k] == Queued(i) then Lost else place[m][k])]
  }

  predicate Aboard(place: Places, c: Cargo, m: LaneId, i: nat) {
    c.lane == m && m in place && c.num < |place[m]| && place[m][c.num] == Queued(i)
  }

  function Ashore(cargo: Cargos, place: Places, m: LaneId, i: nat): Cargos {
    map b | b in cargo && !Aboard(place, cargo[b], m, i) :: cargo[b]
  }

  /** Erases a receiving port and tells its peer the last number that was sent. */
  function ErasePort(s: State, a: Addr): State
    requires SendablePort(s, a)
  {
    var p, m, i, h := s.ports[a], s.h.pos[a].lane, s.h.pos[a].idx, s.h;
    Post(s.(ports := s.ports - {a},
            h := h.(closed := h.closed + {m}, place := Abandoned(h.place, m, i), cargo := Ashore(h.cargo, h.place,
                m, i))),
         ObserveClosure(p.peer, if p.nextSend == 0 then 0 else p.nextSend - 1))
  }

  /** Closes the listed ports, and for each of them the ports in its unread messages. */
  ghost function ClosePorts(s: State, work: seq<Addr>): State
    decreases |s.ports|, |work|
  {
    if work == [] then s
    else if work[0] !in s.ports || !s.ports[work[0]].mode.Receiving? then ClosePorts(s, work[1..])
    else if !SendablePort(s, work[0]) then Crash(s)
    else
      assert |ErasePort(s, work[0]).ports| < |s.ports| by {
        assert ErasePort(s, work[0]).ports.Keys == s.ports.Keys - {work[0]};
        assert |s.ports.Keys - {work[0]}| == |s.ports.Keys| - 1;
      }
      ClosePorts(ErasePort(s, work[0]), ReferencedPorts(s.ports[work[0]].queue.pending) + work[1..])
  }

  ghost function ClosePort(s: State, a: Addr): State { ClosePorts(s, [a]) }

  // ----- OnUserMessage -----

  predicate Arriving(s: State, id: nat) {
    id in s.net && s.net[id].User? && Tracked(s.h, s.net[id].to) &&
    s.net[id].msg.num < |s.h.place[s.h.pos[s.net[id].to].lane]|
  }

  function AcceptPorts(s: State, bs: seq<Addr>, ds: seq<Descriptor>): State
    decreases |bs|
  {
    if bs == [] || ds == [] || s.crashed then s
    else AcceptPorts(AcceptPort(s, bs[0], ds[0]), bs[1..], ds[1..])
  }

  /** Puts an arrived message in the queue of its port. */
  function Enqueue(s: State, id: nat): State
    requires Arriving(s, id) && s.net[id].to in s.ports
  {
    var x, msg, h := s.net[id].to, s.net[id].msg, s.h;
    var m := h.pos[x].lane;
    var t := Take(s, id);
    SetMessage(t, x, msg.num, msg).(h := h.(place := h.place[m := h.place[m][msg.num := Queued(h.pos[x].idx)]]))
  }

  /** Forgets a message that no port takes. */
  function Discard(s: State, id: nat): State
    requires Arriving(s, id)
  {
    var msg, h := s.net[id].msg, s.h;
    var m := h.pos[s.net[id].to].lane;
    Take(s, id).(h := h.(place := h.place[m := h.place[m][msg.num := Lost]], cargo := Unload(h.cargo, msg.ports)))
  }

  ghost function OnUserMessage(s: State, id: nat): State
    requires id in s.net && s.net[id].User?
  {
    var x, msg := s.net[id].to, s.net[id].msg;
    var t := AcceptPorts(s, msg.ports, msg.descs);
    if t.crashed || !Arriving(t, id) then Crash(t)
    else if x in t.ports && x in s.ports && t.net[id].to == x && CanAcceptMoreMessages(t.ports[x]) then
      var u := Enqueue(t, id);
      if !u.ports[x].mode.Proxying? then u else
      var v := ForwardMessages(u, x);
      if v.crashed then v else MaybeRemoveProxy(v, x)
    else
      ClosePorts(Discard(t, id), msg.ports)
  }

  // ----- OnPortAccepted -----

  /** The port that was sent away learns that its successor exists. */
  function BecomeProxy(s: State, id: nat): State
    requires id in s.net && s.net[id].to in s.ports
  {
    var x := s.net[id].to;
    var t := Take(s, id);
    t.(ports := t.ports[x := t.ports[x].(mode := Proxying)], h := t.h.(token := t.h.token - {x}))
  }

  function OnPortAccepted(s: State, id: nat): State
    requires id in s.net && s.net[id].PortAccepted?
  {
    var x := s.net[id].to;
    if x !in s.ports || !s.ports[x].mode.Buffering? then Crash(s) else
    var t := ForwardMessages(BecomeProxy(s, id), x);
    if t.crashed || x !in t.ports then Crash(t) else
    var p := t.ports[x];
    if p.removeOnLast then Post(MaybeRemoveProxy(t, x), ObserveClosure(p.peer, p.lastRecv))
    else InitiateProxyRemoval(t, x)
  }

  // ----- OnObserveProxy -----

  /** A receiving port that addresses the proxy addresses its successor from now on. */
  function SkipProxy(s: State, id: nat): State
    requires id in s.net && s.net[id].ObserveProxy? && s.net[id].to in s.ports && Tracked(s.h, s.net[id].to)
  {
    var e, h := s.net[id], s.h;
    var p, m := s.ports[e.to], h.pos[e.to].lane.Other();
    var t := Take(s, id);
    Post(t.(ports := t.ports[e.to := p.(peer := e.proxyTo)],
            h := h.(routed := h.routed[m := h.routed[m] + [p.nextSend]],
                    token := h.token[e.proxy := Acking(s.nextId)])),
         ObserveProxyAck(e.proxy, if p.nextSend == 0 then 0 else p.nextSend - 1))
  }

  /** A port that was itself sent away answers only when it is removed. */
  function ParkAck(s: State, id: nat): State
    requires id in s.net && s.net[id].ObserveProxy? && s.net[id].to in s.ports
  {
    var e, t := s.net[id], Take(s, id);
    t.(ports := t.ports[e.to := t.ports[e.to].(parked := Some(e.proxy))],
       h := t.h.(token := t.h.token[e.proxy := Parked]))
  }

  function RelayObserveProxy(s: State, id: nat): State
    requires id in s.net && s.net[id].ObserveProxy? && s.net[id].to in s.ports
  {
    var e, t := s.net[id], Take(s, id);
    Post(t.(h := t.h.(token := t.h.token[e.proxy := Observing(t.nextId)])),
         ObserveProxy(s.ports[e.to].peer, e.proxy, e.proxyTo))
  }

  function DropToken(s: State, id: nat, x: Addr): State {
    Take(s, id).(h := s.h.(token := s.h.token - {x}))
  }

  function OnObserveProxy(s: State, id: nat): State
    requires id in s.net && s.net[id].ObserveProxy?
  {
    var e := s.net[id];
    if e.to !in s.ports then DropToken(s, id, e.proxy)
    else if s.ports[e.to].peer != e.proxy then RelayObserveProxy(s, id)
    else if !s.ports[e.to].mode.Receiving? then ParkAck(s, id)
    else if !Tracked(s.h, e.to) then Crash(s)
    else SkipProxy(s, id)
  }

  // ----- OnObserveProxyAck -----

  function ExpectLast(s: State, x: Addr, last: nat): State
    requires x in s.ports
  {
    s.(ports := s.ports[x := s.ports[x].(removeOnLast := true, lastRecv := last)])
  }

  function OnObserveProxyAck(s: State, id: nat): State
    requires id in s.net && s.net[id].ObserveProxyAck?
  {
    var e := s.net[id];
    var t := DropToken(s, id, e.to);
    if e.to !in s.ports then t
    else if !s.ports[e.to].mode.Proxying? then Crash(s)
    else if e.last == INVALID_SEQUENCE_NUM then InitiateProxyRemoval(t, e.to)
    else MaybeRemoveProxy(ExpectLast(t, e.to, e.last), e.to)
  }

  // ----- OnObserveClosure -----

  function NoteClosure(s: State, x: Addr, last: nat): State
    requires x in s.ports
  {
    var p := s.ports[x];
    s.(ports := s.ports[x := p.(peerClosed := true, lastRecv := last,
                                removeOnLast := p.removeOnLast || !p.mode.Receiving?)])
  }

  function OnObserveClosure(s: State, id: nat): State
    requires id in s.net && s.net[id].ObserveClosure?
  {
    var e := s.net[id];
    if e.to !in s.ports then Take(s, id) else
    var p, t := s.ports[e.to], NoteClosure(Take(s, id), e.to, e.last);
    var last := if !p.mode.Receiving? then e.last else if p.nextSend == 0 then 0 else p.nextSend - 1;
    Post(if p.mode.Proxying? then MaybeRemoveProxy(t, e.to) else t, ObserveClosure(p.peer, last))
  }

  // ----- GetMessage -----

  predicate Readable(s: State, a: Addr) {
    Hoppable(s, a) && s.ports[a].mode.Receiving?
  }

  /** Takes the next message out of the queue of a receiving port. */
  function TakeMessage(s: State, a: Addr): State
    requires Readable(s, a)
  {
    var p, m, i, h := s.ports[a], s.h.pos[a].lane, s.h.pos[a].idx, s.h;
    var k, msg := p.queue.next, p.queue.pending[p.queue.next];
    s.(ports := s.ports[a := Popped(p)],
       h := h.(nexts := h.nexts[m := Set(h.nexts[m], i, k + 1)],
               place := h.place[m := h.place[m][k := Read]],
               read := h.read[m := h.read[m] + [Entry(msg.payload, LanesOf(h, msg.ports))]],
               cargo := Unload(h.cargo, msg.ports)))
  }

  /** Hands the ports of a message that was read to the embedder. */
  function ClaimPorts(s: State, bs: seq<Addr>): State
    decreases |bs|
  {
    if bs == [] then s
    else if bs[0] !in s.ports || !s.ports[bs[0]].mode.Receiving? then Crash(s)
    else ClaimPorts(s.(ports := s.ports[bs[0] := s.ports[bs[0]].(signalable := true)]), bs[1..])
  }

  datatype GetOutcome = GotMessage(msg: Message) | NoMessage | GetPeerClosed | GetStateUnexpected

  function GetMessageOutcome(s: State, a: Addr): GetOutcome
    requires Held(s, a)
  {
    var p := s.ports[a];
    if !p.mode.Receiving? then GetStateUnexpected
    else if !CanAcceptMoreMessages(p) then GetPeerClosed
    else if HasNext(p) then GotMessage(p.queue.pending[p.queue.next])
    else NoMessage
  }

  function GetMessage(s: State, a: Addr): State
    requires Held(s, a)
  {
    var r := GetMessageOutcome(s, a);
    if !r.GotMessage? then s
    else if !Readable(s, a) then Crash(s)
    else ClaimPorts(TakeMessage(s, a), r.msg.ports)
  }

  // ----- Runs -----

  datatype Command =
    | Create(node: nat)
    | Send(a: Addr, payload: Payload, qs: seq<Addr>)
    | Get(a: Addr)
    | Close(a: Addr)
    | Deliver(id: nat)

  /** A command that its caller is in no position to give changes nothing. */
  ghost function Step(s: State, c: Command): State {
    match c
    case Create(node) => CreatePortPair(s, node)
    case Send(a, payload, qs) =>
      if MaySend(s, a, qs) && s.ports[a].nextSend < INVALID_SEQUENCE_NUM then SendMessage(s, a, payload, qs) else s
    case Get(a) => if Held(s, a) then GetMessage(s, a) else s
    case Close(a) => if Held(s, a) then ClosePort(s, a) else s
    case Deliver(id) => if id in s.net then Handle(s, id) else s
  }

  /** AcceptMessage. */
  ghost function Handle(s: State, id: nat): State
    requires id in s.net
  {
    match s.net[id]
    case User(_, _) => OnUserMessage(s, id)
    case PortAccepted(_) => OnPortAccepted(s, id)
    case ObserveProxy(_, _, _) => OnObserveProxy(s, id)
    case ObserveProxyAck(_, _) => OnObserveProxyAck(s, id)
    case ObserveClosure(_, _) => OnObserveClosure(s, id)
  }

  ghost function Run(cs: seq<Command>): State {
    if cs == [] then INIT else Step(Run(cs[..|cs| - 1]), cs[|cs| - 1])
  }
}
