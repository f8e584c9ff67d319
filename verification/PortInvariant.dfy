/**
 The invariant of the ports protocol.  Each part is a predicate over exactly the components of
 the state it speaks of, so a step that leaves those alone keeps it without further argument.
 */
module PortInvariant {
  import opened PortState

  // ----- Lanes, chains and names -----

  ghost predicate Lanes(
    chain: Chains, nexts: Nums, routed: Nums, sent: Logs, place: Places, read: Logs, closed: set<LaneId>, name: nat)
  {
    && nexts.Keys == chain.Keys && routed.Keys == chain.Keys && sent.Keys == chain.Keys
    && place.Keys == chain.Keys && read.Keys == chain.Keys && closed <= chain.Keys
    && forall m :: m in chain ==>
                     m.Other() in chain && m.pipe < name && |chain[m]| >= 1 && |nexts[m]| == |chain[m]| &&
                     |routed[m]| < |chain[m]| && 1 <= |sent[m]| <= INVALID_SEQUENCE_NUM &&
                     |place[m]| == |sent[m]| && |read[m]| >= 1
  }

  /** Chains and positions are two views of the same thing. */
  ghost predicate Chained(chain: Chains, pos: Positions) {
    && (forall m, i :: m in chain && 0 <= i < |chain[m]| ==> chain[m][i] in pos && pos[chain[m][i]] == Pos(m, i))
    && (forall a :: a in pos ==>
                      pos[a].lane in chain && pos[a].idx < |chain[pos[a].lane]| &&
                      chain[pos[a].lane][pos[a].idx] == a)
  }

  /** A name belongs to one port. */
  ghost predicate Named(pos: Positions, name: nat) {
    && (forall a :: a in pos ==> a.name < name)
    && (forall a, b :: a in pos && b in pos && a.name == b.name ==> a == b)
  }

  ghost predicate Known(ports: Ports, transit: Transits, cargo: Cargos, token: Tokens, pos: Positions) {
    ports.Keys <= pos.Keys && transit.Keys <= pos.Keys && cargo.Keys <= pos.Keys && token.Keys <= pos.Keys &&
    ports.Keys !! transit.Keys
  }

  ghost predicate Ids(net: Net, nextId: nat) {
    forall id :: id in net ==> id < nextId
  }

  // ----- Ports by mode -----

  /** The receiving port is the last of its chain and addresses the sender's current target. */
  ghost predicate Receives(
    pos: Positions, chain: Chains, routed: Nums, sent: Logs, closed: set<LaneId>, a: Addr, p: Port)
  {
    a in pos && var l := pos[a].lane; var m := l.Other();
                l in chain && m in chain && m in routed && m in sent &&
                pos[a].idx + 1 == |chain[l]| && l !in closed &&
                |routed[m]| < |chain[m]| && p.peer == chain[m][|routed[m]|] &&
                p.nextSend == |sent[m]| && !p.removeOnLast && p.parked.None?
  }

  ghost predicate Receivers(
    ports: Ports, pos: Positions, chain: Chains, routed: Nums, sent: Logs, closed: set<LaneId>)
  {
    forall a :: a in ports && ports[a].mode.Receiving? ==> Receives(pos, chain, routed, sent, closed, a, ports[a])
  }

  /** A port that was sent away points at its successor, for good. */
  ghost predicate Senders(ports: Ports, pos: Positions, chain: Chains) {
    forall a :: a in ports && !ports[a].mode.Receiving? ==>
                  a in pos && pos[a].lane in chain && pos[a].idx + 1 < |chain[pos[a].lane]| &&
                  ports[a].peer == chain[pos[a].lane][pos[a].idx + 1]
  }

  ghost predicate Nexts(ports: Ports, pos: Positions, nexts: Nums) {
    forall a :: a in ports ==>
                  a in pos && pos[a].lane in nexts && pos[a].idx < |nexts[pos[a].lane]| &&
                  ports[a].queue.next == nexts[pos[a].lane][pos[a].idx]
  }

  function EndOf(chain: Chains, m: LaneId): Addr
    requires m in chain && |chain[m]| >= 1
  {
    chain[m][|chain[m]| - 1]
  }

  /** A lane that is open has its end: a receiving port, or a port on its way in a message. */
  ghost predicate Ends(ports: Ports, transit: Transits, chain: Chains, closed: set<LaneId>) {
    forall m :: m in chain ==>
                  |chain[m]| >= 1 &&
                  (m in closed ==> EndOf(chain, m) !in ports && EndOf(chain, m) !in transit) &&
                  (m !in closed ==> EndOf(chain, m) in transit ||
                                    (EndOf(chain, m) in ports && ports[EndOf(chain, m)].mode.Receiving?))
  }

  /** A port on its way will be the end of its lane, exactly as the port it replaces was. */
  ghost predicate Travels(
    ports: Ports, pos: Positions, chain: Chains, nexts: Nums, routed: Nums, sent: Logs, closed: set<LaneId>,
    token: Tokens, b: Addr, d: Descriptor)
  {
    b in pos && var l, i := pos[b].lane, pos[b].idx; var m := l.Other();
                l in chain && m in chain && m in routed && m in sent && l in nexts &&
                i + 1 == |chain[l]| == |nexts[l]| && i > 0 && l !in closed &&
                |routed[m]| < |chain[m]| && d.peer == chain[m][|routed[m]|] &&
                d.nextSend == |sent[m]| && d.nextRecv == nexts[l][i] &&
                d.referring == chain[l][i - 1] && d.referring in ports &&
                ports[d.referring].mode.Buffering? && d.referring !in token
  }

  ghost predicate Travellers(
    ports: Ports, transit: Transits, pos: Positions, chain: Chains, nexts: Nums, routed: Nums, sent: Logs,
    closed: set<LaneId>, token: Tokens)
  {
    forall b :: b in transit ==> Travels(ports, pos, chain, nexts, routed, sent, closed, token, b, transit[b])
  }

  /** A buffering port waits for word from its successor; a proxying one has had it. */
  ghost predicate Waiting(ports: Ports, pos: Positions, chain: Chains, transit: Transits, token: Tokens) {
    forall a :: a in ports && !ports[a].mode.Receiving? ==>
                  a in pos && pos[a].lane in chain && pos[a].idx + 1 < |chain[pos[a].lane]| &&
                  var b := chain[pos[a].lane][pos[a].idx + 1];
                  (ports[a].mode.Buffering? ==> b in transit || (a in token && token[a].Accepting?)) &&
                  (ports[a].mode.Proxying? ==> b !in transit)
  }

  // ----- Sequence numbers -----

  /** A port wants no number beyond its limit, and an older port that still has numbers to
      come is ahead of every younger one. */
  ghost predicate Numbers(chain: Chains, nexts: Nums, routed: Nums, sent: Logs) {
    forall m :: m in chain ==>
                  m in nexts && m in routed && m in sent && LaneNumbers(|chain[m]|, nexts[m], routed[m], |sent[m]|)
  }

  ghost predicate LaneNumbers(n: nat, nexts: seq<nat>, routed: seq<nat>, total: nat) {
    && |nexts| == n && |routed| < n
    && (forall i :: 0 <= i < |routed| ==> 1 <= routed[i] <= total)
    && (forall i, j :: 0 <= i < j < |routed| ==> routed[i] <= routed[j])
    && (forall i :: 0 <= i < n ==> 1 <= nexts[i] <= Limit(routed, total, i))
    && (forall i, j :: 0 <= i < j < n && nexts[i] < Limit(routed, total, i) ==> nexts[j] <= nexts[i])
  }

  /** A message in flight to, or queued at, a port is one that port still has to come; every
      older port on whose route it lay has passed it on. */
  ghost predicate Placement(chain: Chains, nexts: Nums, routed: Nums, sent: Logs, place: Places, transit: Transits) {
    forall m, k :: m in place && 0 <= k < |place[m]| && place[m][k].Placed() ==>
                     m in chain && m in nexts && m in routed && m in sent && |nexts[m]| == |chain[m]| &&
                     place[m][k].at < |chain[m]| && chain[m][place[m][k].at] !in transit &&
                     PlacedWell(nexts[m], routed[m], |sent[m]|, k, place[m][k].at)
  }

  ghost predicate PlacedWell(nexts: seq<nat>, routed: seq<nat>, total: nat, k: nat, at: nat) {
    at < |nexts| && nexts[at] <= k < Limit(routed, total, at) &&
    forall j :: 0 <= j < at && k < Limit(routed, total, j) ==> k < nexts[j]
  }

  /** What was read is what was sent, in order, without gaps. */
  ghost predicate Reading(chain: Chains, nexts: Nums, sent: Logs, place: Places, read: Logs, closed: set<LaneId>) {
    forall m :: m in chain ==>
                  m in nexts && m in sent && m in place && m in read && |chain[m]| >= 1 &&
                  |nexts[m]| == |chain[m]| && |place[m]| == |sent[m]| &&
                  |read[m]| == nexts[m][|chain[m]| - 1] && |read[m]| <= |sent[m]| &&
                  read[m] == sent[m][..|read[m]|] &&
                  (forall k :: 0 <= k < |place[m]| ==> (place[m][k].Read? <==> k < |read[m]|)) &&
                  (m !in closed ==> forall k :: 0 <= k < |place[m]| ==> !place[m][k].Lost?)
  }

  // ----- Silence -----

  /** The end of lane l has been told that the other side closed. */
  ghost predicate EndKnows(ports: Ports, transit: Transits, chain: Chains, l: LaneId) {
    l in chain && |chain[l]| >= 1 &&
    ((EndOf(chain, l) in ports && ports[EndOf(chain, l)].peerClosed) ||
     (EndOf(chain, l) in transit && transit[EndOf(chain, l)].peerClosed))
  }

  /** Nothing more will be sent towards lane m: its sender is closed, or was told that m is. */
  ghost predicate Silent(ports: Ports, transit: Transits, chain: Chains, closed: set<LaneId>, m: LaneId) {
    m.Other() in closed || (m in closed && EndKnows(ports, transit, chain, m.Other()))
  }

  ghost predicate Final(
    ports: Ports, transit: Transits, chain: Chains, closed: set<LaneId>, routed: Nums, m: LaneId, i: nat)
    requires m in routed
  {
    i < |routed[m]| || Silent(ports, transit, chain, closed, m)
  }

  /** An erased proxy has forwarded everything that was or will be addressed to it. */
  ghost predicate Gone(
    ports: Ports, transit: Transits, chain: Chains, nexts: Nums, routed: Nums, sent: Logs, closed: set<LaneId>)
  {
    forall m, i :: m in chain && 0 <= i < |chain[m]| - 1 && chain[m][i] !in ports ==>
                     m in nexts && m in routed && m in sent && |nexts[m]| == |chain[m]| &&
                     nexts[m][i] == Limit(routed[m], |sent[m]|, i) &&
                     Final(ports, transit, chain, closed, routed, m, i)
  }

  /** The last number a port was told to expect is the last one that is ever routed to it. */
  ghost predicate LastFits(
    ports: Ports, transit: Transits, pos: Positions, chain: Chains, routed: Nums, sent: Logs, closed: set<LaneId>,
    a: Addr, p: Port)
  {
    a in pos && var m, i := pos[a].lane, pos[a].idx;
                m in routed && m in sent && p.lastRecv + 1 == Limit(routed[m], |sent[m]|, i) &&
                Final(ports, transit, chain, closed, routed, m, i) &&
                (p.peerClosed ==> Limit(routed[m], |sent[m]|, i) == |sent[m]| &&
                                  Silent(ports, transit, chain, closed, m)) &&
                (p.peerClosed && !p.mode.Receiving? ==> p.removeOnLast) &&
                (p.removeOnLast && p.mode.Buffering? ==> p.peerClosed)
  }

  ghost predicate Lasts(
    ports: Ports, transit: Transits, pos: Positions, chain: Chains, routed: Nums, sent: Logs, closed: set<LaneId>)
  {
    forall a :: a in ports && (ports[a].peerClosed || ports[a].removeOnLast) ==>
                  LastFits(ports, transit, pos, chain, routed, sent, closed, a, ports[a])
  }

  ghost predicate TravelLasts(
    ports: Ports, transit: Transits, pos: Positions, chain: Chains, sent: Logs, closed: set<LaneId>)
  {
    forall b :: b in transit && transit[b].peerClosed ==>
                  b in pos && pos[b].lane in sent && transit[b].lastRecv + 1 == |sent[pos[b].lane]| &&
                  Silent(ports, transit, chain, closed, pos[b].lane)
  }

  /** A closure event may reach port a: it carries the number of the last message ever sent. */
  ghost predicate ClosureFits(
    ports: Ports, transit: Transits, pos: Positions, chain: Chains, routed: Nums, sent: Logs, closed: set<LaneId>,
    a: Addr, last: nat)
  {
    a in pos && var m, i := pos[a].lane, pos[a].idx;
                m in routed && m in sent && Silent(ports, transit, chain, closed, m) &&
                last + 1 == |sent[m]| == Limit(routed[m], |sent[m]|, i)
  }

  ghost predicate Closures(
    net: Net, ports: Ports, transit: Transits, pos: Positions, chain: Chains, routed: Nums, sent: Logs,
    closed: set<LaneId>)
  {
    forall id :: id in net && net[id].ObserveClosure? ==>
                   ClosureFits(ports, transit, pos, chain, routed, sent, closed, net[id].to, net[id].last)
  }

  // ----- Messages -----

  ghost predicate Carries(msg: Message, k: nat, e: Entry) {
    msg.num == k && msg.payload == e.payload && |msg.ports| == |e.ends| == |msg.descs|
  }

  ghost predicate Flights(net: Net, chain: Chains, sent: Logs, place: Places) {
    forall m, k :: m in place && 0 <= k < |place[m]| && place[m][k].Flying? ==>
                     m in chain && m in sent && k < |sent[m]| && place[m][k].at < |chain[m]| &&
                     var e := place[m][k].id;
                     e in net && net[e].User? && net[e].to == chain[m][place[m][k].at] &&
                     Carries(net[e].msg, k, sent[m][k])
  }

  ghost predicate Mail(net: Net, pos: Positions, place: Places) {
    forall id :: id in net && net[id].User? ==>
                   net[id].to in pos && var m := pos[net[id].to].lane;
                                        m in place && net[id].msg.num < |place[m]| &&
                                        place[m][net[id].msg.num] == Flying(id, pos[net[id].to].idx)
  }

  ghost predicate Queues(ports: Ports, chain: Chains, sent: Logs, place: Places) {
    forall m, k :: m in place && 0 <= k < |place[m]| && place[m][k].Queued? ==>
                     m in chain && m in sent && k < |sent[m]| && place[m][k].at < |chain[m]| &&
                     var x := chain[m][place[m][k].at];
                     x in ports && k in ports[x].queue.pending && Carries(ports[x].queue.pending[k], k, sent[m][k])
  }

  ghost predicate Pending(ports: Ports, pos: Positions, place: Places) {
    forall a, k :: a in ports && k in ports[a].queue.pending ==>
                     a in pos && pos[a].lane in place && k < |place[pos[a].lane]| &&
                     place[pos[a].lane][k] == Queued(pos[a].idx)
  }

  // ----- Attached ports -----

  /** An attached port is on its way or has landed unclaimed; it is the end that was sent, and
      it is not the successor of the port its message is at. */
  ghost predicate Attached(ports: Ports, pos: Positions, transit: Transits, cargo: Cargos, sent: Logs,
                           m: LaneId, k: nat, at: nat, msg: Message)
  {
    m in sent && k < |sent[m]| && |msg.ports| == |sent[m][k].ends| &&
    forall x :: 0 <= x < |msg.ports| ==>
                  var b := msg.ports[x];
                  b in cargo && cargo[b] == Cargo(m, k, x) && b in pos && pos[b].lane == sent[m][k].ends[x] &&
                  pos[b] != Pos(m, at + 1) &&
                  (b in transit || (b in ports && ports[b].mode.Receiving? && !ports[b].signalable))
  }

  ghost predicate FlyingCargo(
    net: Net, ports: Ports, pos: Positions, transit: Transits, cargo: Cargos, sent: Logs)
  {
    forall id :: id in net && net[id].User? ==>
                   net[id].to in pos && FlyingPorts(net[id].to.node, transit, net[id].msg) &&
                   Attached(ports, pos, transit, cargo, sent, pos[net[id].to].lane, net[id].msg.num,
                       pos[net[id].to].idx,
                            net[id].msg)
  }

  /** A message in flight names ports of the node it is going to, and describes them. */
  ghost predicate FlyingPorts(node: nat, transit: Transits, msg: Message) {
    |msg.ports| == |msg.descs| &&
    forall x :: 0 <= x < |msg.ports| ==>
                  msg.ports[x].node == node && (msg.ports[x] in transit ==> transit[msg.ports[x]] == msg.descs[x])
  }

  ghost predicate QueuedCargo(ports: Ports, pos: Positions, transit: Transits, cargo: Cargos, sent: Logs) {
    forall a, k :: a in ports && k in ports[a].queue.pending ==>
                     a in pos && LandedPorts(a.node, ports, ports[a].queue.pending[k]) &&
                     Attached(ports, pos, transit, cargo, sent, pos[a].lane, k, pos[a].idx, ports[a].queue.pending[k])
  }

  /** The landed ports of a queued message are at the node of the queue. */
  ghost predicate LandedPorts(node: nat, ports: Ports, msg: Message) {
    |msg.ports| == |msg.descs| &&
    forall x :: 0 <= x < |msg.ports| && msg.ports[x] in ports ==> msg.ports[x].node == node
  }

  /** A cargo entry names the slot of an unread message that port b is in. */
  ghost predicate Listed(net: Net, ports: Ports, chain: Chains, place: Places, b: Addr, c: Cargo) {
    c.lane in place && c.num < |place[c.lane]| &&
    match place[c.lane][c.num]
    case Flying(id, at) =>
      id in net && net[id].User? && c.slot < |net[id].msg.ports| && net[id].msg.ports[c.slot] == b
    case Queued(at) =>
      c.lane in chain && at < |chain[c.lane]| && chain[c.lane][at] in ports &&
      var q := ports[chain[c.lane][at]].queue.pending;
      c.num in q && c.slot < |q[c.num].ports| && q[c.num].ports[c.slot] == b
    case _ => false
  }

  ghost predicate Manifest(net: Net, ports: Ports, chain: Chains, cargo: Cargos, place: Places) {
    forall b :: b in cargo ==> Listed(net, ports, chain, place, b, cargo[b])
  }

  /** The embedder holds no port that is inside a message. */
  ghost predicate Unheld(ports: Ports, cargo: Cargos) {
    forall a :: a in ports && a in cargo ==> ports[a].mode.Receiving? && !ports[a].signalable
  }

  // ----- Tokens -----

  ghost predicate AcceptTokens(net: Net, ports: Ports, transit: Transits, pos: Positions, chain: Chains,
      token: Tokens) {
    && (forall id :: id in net && net[id].PortAccepted? ==>
                       var a := net[id].to;
                       a in ports && ports[a].mode.Buffering? && a in token && token[a] == Accepting(id) &&
                       a in pos && pos[a].lane in chain && pos[a].idx + 1 < |chain[pos[a].lane]| &&
                       chain[pos[a].lane][pos[a].idx + 1] !in transit)
    && (forall a :: a in token && token[a].Accepting? ==> token[a].id in net && net[token[a].id] == PortAccepted(a))
  }

  /** Every announcement, acknowledgement and parked acknowledgement is the only one of its proxy. */
  ghost predicate Announcements(net: Net, pos: Positions, chain: Chains, token: Tokens) {
    forall id :: id in net && net[id].ObserveProxy? ==>
                   var a := net[id].proxy;
                   a in token && token[a] == Observing(id) && net[id].to in pos && a in pos &&
                   pos[a].lane in chain && pos[a].idx + 1 < |chain[pos[a].lane]| &&
                   net[id].proxyTo == chain[pos[a].lane][pos[a].idx + 1]
  }

  /** A valid acknowledgement carries the last number ever routed to its proxy. */
  ghost predicate Acks(net: Net, pos: Positions, routed: Nums, token: Tokens) {
    forall id :: id in net && net[id].ObserveProxyAck? ==>
                   var a := net[id].to;
                   a in token && token[a] == Acking(id) && a in pos && pos[a].lane in routed &&
                   (net[id].last == INVALID_SEQUENCE_NUM ||
                    (pos[a].idx < |routed[pos[a].lane]| && net[id].last + 1 == routed[pos[a].lane][pos[a].idx]))
  }

  ghost predicate ParkedAcks(ports: Ports, token: Tokens) {
    forall a :: a in ports && ports[a].parked.Some? ==>
                  ports[a].parked.value in token && token[ports[a].parked.value] == Parked &&
                  ports[a].parked.value == ports[a].peer
  }

  /** Only a port whose successor exists has anything to announce. */
  ghost predicate ProxyTokens(ports: Ports, transit: Transits, pos: Positions, chain: Chains, token: Tokens) {
    forall a :: a in token && !token[a].Accepting? ==>
                  (a in ports ==> ports[a].mode.Proxying?) &&
                  a in pos && pos[a].lane in chain && pos[a].idx + 1 < |chain[pos[a].lane]| &&
                  chain[pos[a].lane][pos[a].idx + 1] !in transit
  }

  // ----- Closure is never lost -----

  ghost predicate ClosureInFlight(net: Net, a: Addr) {
    exists id :: id in net && net[id].ObserveClosure? && net[id].to == a
  }

  /** The port at index i has learned of the closure, or has been erased. */
  ghost predicate Told(ports: Ports, transit: Transits, chain: Chains, m: LaneId, i: nat)
    requires m in chain && i < |chain[m]|
  {
    if i + 1 == |chain[m]| then EndKnows(ports, transit, chain, m)
    else chain[m][i] in ports ==> ports[chain[m][i]].removeOnLast
  }

  /** When the sender has closed, the news is at, or on its way to, the port it addressed, and
      wherever it stops short of the end it is about to be passed on.  The ports in `busy` are
      in the middle of a handler that will pass it on. */
  ghost predicate Heralds(
    net: Net, ports: Ports, transit: Transits, chain: Chains, routed: Nums, closed: set<LaneId>, busy: set<Addr>)
  {
    forall m :: m in chain && m !in closed && m.Other() in closed ==>
                  m in routed && |routed[m]| < |chain[m]| && chain[m][|routed[m]|] !in transit &&
                  HeraldLane(net, ports, transit, chain, busy, m, |routed[m]|)
  }

  ghost predicate HeraldLane(
    net: Net, ports: Ports, transit: Transits, chain: Chains, busy: set<Addr>, m: LaneId, target: nat)
    requires m in chain && target < |chain[m]|
  {
    (Told(ports, transit, chain, m, target) || ClosureInFlight(net, chain[m][target])) &&
    forall i :: target <= i < |chain[m]| - 1 && Told(ports, transit, chain, m, i) ==>
                  (chain[m][i] in ports && ports[chain[m][i]].mode.Buffering?) ||
                  Told(ports, transit, chain, m, i + 1) || ClosureInFlight(net, chain[m][i + 1]) ||
                  chain[m][i] in busy
  }

  /** The port a sender addresses, and any port a message is at, exists already. */
  ghost predicate Targets(transit: Transits, chain: Chains, routed: Nums) {
    forall m :: m in chain ==> m in routed && |routed[m]| < |chain[m]| && chain[m][|routed[m]|] !in transit
  }

  // ----- The invariant -----

  ghost predicate Base(s: State) {
    var h := s.h;
    !s.crashed &&
    Lanes(h.chain, h.nexts, h.routed, h.sent, h.place, h.read, h.closed, s.nextName) &&
    Chained(h.chain, h.pos) && Named(h.pos, s.nextName) && Known(s.ports, h.transit, h.cargo, h.token, h.pos) &&
    Ids(s.net, s.nextId)
  }

  ghost predicate Shape(s: State) {
    var h := s.h;
    Receivers(s.ports, h.pos, h.chain, h.routed, h.sent, h.closed) && Senders(s.ports, h.pos, h.chain) &&
    Nexts(s.ports, h.pos, h.nexts) && Ends(s.ports, h.transit, h.chain, h.closed) &&
    Travellers(s.ports, h.transit, h.pos, h.chain, h.nexts, h.routed, h.sent, h.closed, h.token) &&
    Waiting(s.ports, h.pos, h.chain, h.transit, h.token) && Targets(h.transit, h.chain, h.routed)
  }

  ghost predicate Counting(s: State) {
    var h := s.h;
    Numbers(h.chain, h.nexts, h.routed, h.sent) &&
    Placement(h.chain, h.nexts, h.routed, h.sent, h.place, h.transit) &&
    Reading(h.chain, h.nexts, h.sent, h.place, h.read, h.closed)
  }

  ghost predicate Ending(s: State) {
    var h := s.h;
    Gone(s.ports, h.transit, h.chain, h.nexts, h.routed, h.sent, h.closed) &&
    Lasts(s.ports, h.transit, h.pos, h.chain, h.routed, h.sent, h.closed) &&
    TravelLasts(s.ports, h.transit, h.pos, h.chain, h.sent, h.closed) &&
    Closures(s.net, s.ports, h.transit, h.pos, h.chain, h.routed, h.sent, h.closed)
  }

  ghost predicate Posting(s: State) {
    var h := s.h;
    Flights(s.net, h.chain, h.sent, h.place) && Mail(s.net, h.pos, h.place) &&
    Queues(s.ports, h.chain, h.sent, h.place) && Pending(s.ports, h.pos, h.place)
  }

  ghost predicate Carrying(s: State) {
    var h := s.h;
    FlyingCargo(s.net, s.ports, h.pos, h.transit, h.cargo, h.sent) &&
    QueuedCargo(s.ports, h.pos, h.transit, h.cargo, h.sent) &&
    Manifest(s.net, s.ports, h.chain, h.cargo, h.place) && Unheld(s.ports, h.cargo)
  }

  ghost predicate Tokening(s: State) {
    var h := s.h;
    AcceptTokens(s.net, s.ports, h.transit, h.pos, h.chain, h.token) &&
    Announcements(s.net, h.pos, h.chain, h.token) && Acks(s.net, h.pos, h.routed, h.token) &&
    ParkedAcks(s.ports, h.token) && ProxyTokens(s.ports, h.transit, h.pos, h.chain, h.token)
  }

  ghost predicate Heralding(s: State, busy: set<Addr>) {
    Heralds(s.net, s.ports, s.h.transit, s.h.chain, s.h.routed, s.h.closed, busy)
  }

  /** All that holds even in the middle of a handler. */
  ghost predicate Core(s: State) {
    Base(s) && Shape(s) && Counting(s) && Ending(s) && Posting(s) && Carrying(s) && Tokening(s)
  }
}
