/** While ports travel only over pipe sides that have not been transferred themselves, delivery comes
 to an end, also with closures in flight. */
module PortProgress {
  import opened PortState
  import opened PortSteps
  import opened PortInvariant
  import opened PortFrames
  import opened PortProxy
  import opened PortClosure
  import opened PortSettled
  import opened PortHandlers
  import opened PortClosing
  import opened PortSteady

  /** Every port that is inside a message travels over a pipe side that was never transferred. */
  ghost predicate Direct(chain: Chains, cargo: Cargos) {
    forall b :: b in cargo ==> cargo[b].lane in chain && |chain[cargo[b].lane]| == 1
  }

  // ----- What is left to do -----

  function Minus(x: nat, y: nat): nat { if x < y then 0 else x - y }

  function Length(chain: Chains, m: LaneId): nat { if m in chain then |chain[m]| else 0 }

  /** How far the announcement of x, now going to y, still has to go in an open pipe: along the rest
      of its own lane, along the other lane, and along its own lane up to x. */
  function Distance(chain: Chains, pos: Positions, x: Addr, y: Addr): nat {
    if x !in pos || y !in pos then 0 else
    var m, i, own := pos[x].lane, pos[x].idx, Length(chain, pos[x].lane);
    var other := Length(chain, m.Other());
    if pos[y].lane != m then Minus(other, pos[y].idx) + own
    else if pos[y].idx > i then Minus(own, pos[y].idx) + other + own
    else Minus(i, pos[y].idx)
  }

  /** How far an event that goes to y can still go in a pipe with a closed side: to the end of its
      lane, and from there, if that end is open, along the other lane to the closed end. */
  function ToTheGap(chain: Chains, closed: set<LaneId>, pos: Positions, y: Addr): nat {
    if y !in pos then 0 else
    Minus(Length(chain, pos[y].lane), pos[y].idx) +
    if pos[y].lane in closed then 0 else Length(chain, pos[y].lane.Other())
  }

  function Farthest(chain: Chains, pos: Positions, x: Addr): nat {
    if x !in pos then 0 else 2 * Length(chain, pos[x].lane) + Length(chain, pos[x].lane.Other())
  }

  function Way(chain: Chains, closed: set<LaneId>, pos: Positions, x: Addr, y: Addr): nat {
    if BothOpen(closed, pos, x) then Distance(chain, pos, x, y) else ToTheGap(chain, closed, pos, y)
  }

  /** What an event may still cost. */
  function Cost(chain: Chains, closed: set<LaneId>, pos: Positions, e: Event): nat {
    match e
    case User(_, _) => 0
    case PortAccepted(_) => 0
    case ObserveProxy(y, x, _) => 2 + Way(chain, closed, pos, x, y)
    case ObserveProxyAck(x, last) => if last != INVALID_SEQUENCE_NUM then 1 else 3 + Farthest(chain, pos, x)
    case ObserveClosure(y, _) => 1 + ToTheGap(chain, closed, pos, y)
  }

  function BufferingPorts(ports: Ports): set<Addr> { set a | a in ports && ports[a].mode.Buffering? }

  function AwayPorts(ports: Ports): set<Addr> { set a | a in ports && !ports[a].mode.Receiving? }

  /** For every message on its way, the ports it has yet to come to. */
  function HopsLeft(chain: Chains, place: Places): set<(LaneId, nat, nat)> {
    set m, k, i | m in place && m in chain && 0 <= k < |place[m]| && place[m][k].Placed() &&
                  0 <= i < |chain[m]| && place[m][k].at < i :: (m, k, i)
  }

  function UserIds(net: Net): set<nat> { set id | id in net && net[id].User? }

  ghost function Chores(net: Net, chain: Chains, closed: set<LaneId>, pos: Positions): set<(nat, nat)> {
    set id, r | id in net && 0 <= r < Cost(chain, closed, pos, net[id]) :: (id, r)
  }

  /** Ports that have yet to land, to become proxies, to be removed; hops; messages in flight; and
      what the other events may cost. */
  datatype Measure = Measure(travelling: nat, buffering: nat, away: nat, hops: nat, flying: nat, chores: nat)

  ghost function MeasureOf(s: State): Measure {
    Measure(|s.h.transit|, |BufferingPorts(s.ports)|, |AwayPorts(s.ports)|, |HopsLeft(s.h.chain, s.h.place)|,
        |UserIds(s.net)|,
            |Chores(s.net, s.h.chain, s.h.closed, s.h.pos)|)
  }

  predicate Below(a: Measure, b: Measure) {
    a.travelling < b.travelling || (a.travelling == b.travelling &&
    (a.buffering < b.buffering || (a.buffering == b.buffering &&
    (a.away < b.away || (a.away == b.away &&
    (a.hops < b.hops || (a.hops == b.hops &&
    (a.flying < b.flying || (a.flying == b.flying && a.chores < b.chores)))))))))
  }

  lemma SubsetSize<T>(xs: set<T>, ys: set<T>)
    requires xs <= ys
    ensures |xs| <= |ys| && (xs < ys ==> |xs| < |ys|)
  {
    assert ys == xs + (ys - xs);
    if xs < ys { assert ys - xs != {}; }
  }

  // ----- Chores -----

  function Units(id: nat, n: nat): set<(nat, nat)> { set r | 0 <= r < n :: (id, r) }

  lemma {:induction false} UnitsCount(id: nat, n: nat)
    ensures |Units(id, n)| == n
    decreases n
  {
    if n == 0 {
      assert Units(id, 0) == {};
    } else {
      UnitsCount(id, n - 1);
      assert Units(id, n) == Units(id, n - 1) + {(id, n - 1)};
    }
  }

  lemma CostAdds(net: Net, chain: Chains, closed: set<LaneId>, pos: Positions, id: nat, e: Event)
    requires id !in net
    ensures |Chores(net[id := e], chain, closed, pos)| == |Chores(net, chain, closed, pos)| + Cost(chain, closed,
        pos, e)
  {
    var before, after, more := Chores(net, chain, closed, pos), Chores(net[id := e], chain, closed, pos),
        Units(id, Cost(chain, closed, pos, e));
    hide Cost;
    assert after == before + more && before !! more;
    UnitsCount(id, Cost(chain, closed, pos, e));
  }

  /** An event that is done with costs nothing any more; one that takes its place costs less. */
  lemma ChoresLess(net: Net, chain: Chains, closed: set<LaneId>, pos: Positions, id: nat, id': nat, e: Event)
    requires id in net && id' !in net && Cost(chain, closed, pos, net[id]) > 0
    ensures |Chores(net - {id}, chain, closed, pos)| < |Chores(net, chain, closed, pos)|
    ensures Cost(chain, closed, pos, e) < Cost(chain, closed, pos, net[id]) ==>
              |Chores((net - {id})[id' := e], chain, closed, pos)| < |Chores(net, chain, closed, pos)|
  {
    hide Cost, Chores;
    assert (net - {id})[id := net[id]] == net;
    CostAdds(net - {id}, chain, closed, pos, id, net[id]);
    CostAdds(net - {id}, chain, closed, pos, id', e);
  }

  /** In a pipe with a closed side, each port passes an event on towards the gap. */
  lemma GapCloser(ports: Ports, chain: Chains, nexts: Nums, routed: Nums, sent: Logs, place: Places, read: Logs,
      closed: set<LaneId>, pos: Positions, name: nat, a: Addr)
    requires a in ports && a in pos && !BothOpen(closed, pos, a) && Chained(chain, pos) &&
        Receivers(ports, pos, chain, routed, sent, closed) && Senders(ports, pos, chain) &&
        Lanes(chain, nexts, routed, sent, place, read, closed, name)
    ensures ToTheGap(chain, closed, pos, ports[a].peer) < ToTheGap(chain, closed, pos, a)
  {
    var l, o := pos[a].lane, pos[a].lane.Other();
    assert o.Other() == l && l in chain && o in chain;
    if ports[a].mode.Receiving? {
      assert l !in closed && o in closed;
      assert pos[ports[a].peer] == Pos(o, |routed[o]|);
    } else {
      SuccessorIs(ports, chain, pos, a);
      SuccessorOf(ports, chain, routed, sent, closed, pos, a);
    }
  }

  lemma RelayCloser(ports: Ports, chain: Chains, nexts: Nums, routed: Nums, sent: Logs, place: Places, read: Logs,
      closed: set<LaneId>, pos: Positions, name: nat, a: Addr, x: Addr)
    requires a in ports && ports[a].peer != x && a in pos && x in pos && a != x &&
        pos[a].lane.pipe == pos[x].lane.pipe
    requires Chained(chain, pos) && Receivers(ports, pos, chain, routed, sent, closed) &&
        Senders(ports, pos, chain) && Lanes(chain, nexts, routed, sent, place, read, closed, name) &&
        !Left(routed, pos, x)
    ensures Distance(chain, pos, x, ports[a].peer) < Distance(chain, pos, x, a)
  {
    var m := pos[x].lane;
    assert pos[a].lane == m || pos[a].lane == m.Other();
    assert m.Other().Other() == m && m in chain && m.Other() in chain;
    if ports[a].mode.Receiving? {
      EndCloser(ports, chain, nexts, routed, sent, place, read, closed, pos, name, a, x);
    } else {
      SuccessorIs(ports, chain, pos, a);
      SuccessorOf(ports, chain, routed, sent, closed, pos, a);
      assert chain[m][pos[x].idx] == x;
    }
  }

  /** From the end of a lane the announcement goes to where the end sends. */
  lemma EndCloser(ports: Ports, chain: Chains, nexts: Nums, routed: Nums, sent: Logs, place: Places, read: Logs,
      closed: set<LaneId>, pos: Positions, name: nat, a: Addr, x: Addr)
    requires a in ports && ports[a].mode.Receiving? && ports[a].peer != x && a in pos && x in pos && a != x
    requires pos[a].lane == pos[x].lane || pos[a].lane == pos[x].lane.Other()
    requires Chained(chain, pos) && Receivers(ports, pos, chain, routed, sent, closed) &&
        Lanes(chain, nexts, routed, sent, place, read, closed, name) && !Left(routed, pos, x)
    ensures Distance(chain, pos, x, ports[a].peer) < Distance(chain, pos, x, a)
  {
    var m, l := pos[x].lane, pos[a].lane;
    assert m.Other().Other() == m && m in chain && m.Other() in chain;
    var y := ports[a].peer;
    assert pos[y] == Pos(l.Other(), |routed[l.Other()]|) && pos[a].idx + 1 == |chain[l]|;
    assert chain[m][pos[x].idx] == x;
    if l == m { assert pos[a].idx > pos[x].idx; } else { assert pos[y].lane == m && pos[y].idx != pos[x].idx; }
  }

  lemma DistanceBound(chain: Chains, pos: Positions, x: Addr, y: Addr)
    requires x in pos && y in pos && Chained(chain, pos) && pos[y] == Pos(pos[x].lane, pos[x].idx + 1)
    ensures Distance(chain, pos, x, y) < Farthest(chain, pos, x)
  {
  }

  lemma GapBound(chain: Chains, closed: set<LaneId>, pos: Positions, x: Addr, y: Addr)
    requires x in pos && y in pos && Chained(chain, pos) && pos[y] == Pos(pos[x].lane, pos[x].idx + 1)
    ensures ToTheGap(chain, closed, pos, y) < Farthest(chain, pos, x)
  {
  }

  // ----- One delivery does something -----

  /** The sides whose ends are inside messages. */
  function CarriedLanes(h: History): set<LaneId> { set b | b in h.cargo && b in h.pos :: h.pos[b].lane }

  /** No message with ports is for a side that has been closed. */
  ghost predicate NoneDoomed(h: History) {
    forall b :: b in h.cargo ==> h.cargo[b].lane !in h.closed
  }

  /** No port has changed its place or been put in a message, and no side has been closed but one whose
      end was in a message; none at all, if every message with ports can still be taken. */
  ghost predicate FewerCarried(h: History, h': History) {
    h'.chain == h.chain && h'.pos == h.pos && h.closed <= h'.closed && h'.closed <= h.closed + CarriedLanes(h) &&
    (NoneDoomed(h) ==> h'.closed == h.closed) &&
    (forall b :: b in h'.cargo ==> b in h.cargo && h'.cargo[b] == h.cargo[b])
  }

  lemma SameCarried(h: History, h': History)
    requires h'.chain == h.chain && h'.pos == h.pos && h'.closed == h.closed && h'.cargo == h.cargo
    ensures FewerCarried(h, h')
  {
  }

  /** The same ports wait, are away, and travel; nothing has moved. */
  ghost predicate NothingMoved(s: State, t: State) {
    t.h.transit == s.h.transit && t.h.chain == s.h.chain && t.h.place == s.h.place && t.h.pos == s.h.pos &&
    t.h.cargo == s.h.cargo && t.h.closed == s.h.closed && t.ports.Keys == s.ports.Keys &&
    (forall a :: a in s.ports ==> t.ports[a].mode == s.ports[a].mode) && UserIds(t.net) == UserIds(s.net)
  }

  ghost predicate Progresses(s: State, t: State) {
    Below(MeasureOf(t), MeasureOf(s)) && FewerCarried(s.h, t.h)
  }

  lemma ChoreDone(s: State, t: State)
    requires NothingMoved(s, t)
    requires |Chores(t.net, s.h.chain, s.h.closed, s.h.pos)| < |Chores(s.net, s.h.chain, s.h.closed, s.h.pos)|
    ensures Progresses(s, t)
  {
    hide Chores;
    assert BufferingPorts(t.ports) == BufferingPorts(s.ports);
    assert AwayPorts(t.ports) == AwayPorts(s.ports);
  }

  /** An event was taken, and at most one that costs less was posted in its place. */
  lemma EventDone(s: State, t: State, id: nat, e: Event)
    requires NothingMoved(s, t) && id in s.net && Ids(s.net, s.nextId) && !s.net[id].User? && !s.net[id].PortAccepted?
    requires t.net == s.net - {id} || (t.net == (s.net - {id})[s.nextId := e] &&
                                       Cost(s.h.chain, s.h.closed, s.h.pos, e) < Cost(s.h.chain, s.h.closed,
                                       s.h.pos, s.net[id]))
    ensures Progresses(s, t)
  {
    hide NothingMoved, Chores, Progresses;
    PostId(s.net, s.nextId, e);
    ChoresLess(s.net, s.h.chain, s.h.closed, s.h.pos, id, s.nextId, e);
    ChoreDone(s, t);
  }

  lemma SameUsers(net: Net, id: nat, id': nat, e: Event)
    requires id in net && !net[id].User? && id' !in net && !e.User?
    ensures UserIds(net - {id}) == UserIds(net) && UserIds((net - {id})[id' := e]) == UserIds(net)
  {
    assert forall i :: i in UserIds((net - {id})[id' := e]) <==> i in UserIds(net);
  }

  // ----- Announcements -----

  lemma ObserveProgress(s: State, id: nat)
    requires Inv(s) && Steady(s, {}, {}) && id in s.net && s.net[id].ObserveProxy?
    ensures Progresses(s, OnObserveProxy(s, id))
  {
    hide Lanes, Chained, Named, Known, Ids, Receivers, Senders, Nexts, Ends, Travellers, Waiting, Targets, Numbers,
        Placement, Reading, Gone, Lasts, TravelLasts, Closures, Flights, Mail, Queues, Pending, FlyingCargo,
        QueuedCargo, Manifest, Unheld, AcceptTokens, Announcements, Acks, ParkedAcks, ProxyTokens, Heralds, Settled,
        Heralding, Steady, Progresses, Way;
    var e := s.net[id];
    PostId(s.net, s.nextId, e);
    IsTrackedTo(s, id);
    ObserveMoves(s, id);
    hide NothingMoved;
    if e.to in s.ports && s.ports[e.to].peer != e.proxy {
      RelayCost(s, id);
      EventDone(s, OnObserveProxy(s, id), id, ObserveProxy(s.ports[e.to].peer, e.proxy, e.proxyTo));
    } else if e.to in s.ports && s.ports[e.to].mode.Receiving? {
      SkipCost(s, id);
      EventDone(s, OnObserveProxy(s, id), id, SkipProxy(s, id).net[s.nextId]);
    } else {
      EventDone(s, OnObserveProxy(s, id), id, e);
    }
  }

  lemma ObserveMoves(s: State, id: nat)
    requires id in s.net && s.net[id].ObserveProxy? && Tracked(s.h, s.net[id].to) && s.nextId !in s.net
    ensures NothingMoved(s, OnObserveProxy(s, id))
  {
    hide UserIds;
    var e := s.net[id];
    SameUsers(s.net, id, s.nextId, e);
    if e.to in s.ports {
      var y := s.ports[e.to].peer;
      if y != e.proxy {
        SameUsers(s.net, id, s.nextId, ObserveProxy(y, e.proxy, e.proxyTo));
      } else if s.ports[e.to].mode.Receiving? {
        SameUsers(s.net, id, s.nextId, SkipProxy(s, id).net[s.nextId]);
      }
    }
  }

  lemma IsTrackedTo(s: State, id: nat)
    requires Inv(s) && id in s.net && s.net[id].ObserveProxy?
    ensures Tracked(s.h, s.net[id].to)
  {
    hide Lanes, Chained, Named, Known, Ids, Receivers, Senders, Nexts, Ends, Travellers, Waiting, Targets, Numbers,
        Placement, Reading, Gone, Lasts, TravelLasts, Closures, Flights, Mail, Queues, Pending, FlyingCargo,
        QueuedCargo, Manifest, Unheld, AcceptTokens, Announcements, Acks, ParkedAcks, ProxyTokens, Heralds, Settled,
        Heralding;
    AnnouncedFacts(s.ports, s.net, s.h.chain, s.h.routed, s.h.sent, s.h.closed, s.h.pos, s.h.transit, s.h.cargo,
        s.h.token, id);
    IsTracked(s, s.net[id].to);
  }

  /** An announcement that is passed on comes nearer. */
  lemma RelayCost(s: State, id: nat)
    requires Core(s) && Steady(s, {}, {}) && id in s.net && s.net[id].ObserveProxy? && s.net[id].to in s.ports
    requires s.ports[s.net[id].to].peer != s.net[id].proxy
    ensures var e := s.net[id];
            Way(s.h.chain, s.h.closed, s.h.pos, e.proxy, s.ports[e.to].peer) < Way(s.h.chain, s.h.closed, s.h.pos,
            e.proxy, e.to)
  {
    hide Lanes, Chained, Named, Known, Ids, Receivers, Senders, Nexts, Ends, Travellers, Waiting, Targets, Numbers,
        Placement, Reading, Gone, Lasts, TravelLasts, Closures, Flights, Mail, Queues, Pending, FlyingCargo,
        QueuedCargo, Manifest, Unheld, AcceptTokens, Announcements, Acks, ParkedAcks, ProxyTokens, Heralds,
        Bypassed, Obliged, Persists, Tidy, Recorded, Left;
    var x := s.net[id].proxy;
    TokenIsProxys(s.net, s.h.chain, s.h.routed, s.h.pos, s.h.token, id);
    SamePipe(s.net, s.h.closed, s.h.pos, id);
    if BothOpen(s.h.closed, s.h.pos, x) {
      hide BothOpen;
      TokenAway(s.ports, s.h.chain, s.h.pos, s.h.transit, s.h.token, x);
      NotLeftYet(s.ports, s.net, s.h.routed, s.h.closed, s.h.pos, s.h.token, x);
      RelayCloser(s.ports, s.h.chain, s.h.nexts, s.h.routed, s.h.sent, s.h.place, s.h.read, s.h.closed, s.h.pos,
          s.nextName, s.net[id].to, x);
    } else {
      GapCloser(s.ports, s.h.chain, s.h.nexts, s.h.routed, s.h.sent, s.h.place, s.h.read, s.h.closed, s.h.pos,
          s.nextName, s.net[id].to);
    }
  }

  lemma SamePipe(net: Net, closed: set<LaneId>, pos: Positions, id: nat)
    requires id in net && net[id].ObserveProxy? && Rounds(net, pos)
    ensures var x, y := net[id].proxy, net[id].to;
            x in pos && y in pos && x != y && pos[x].lane.pipe == pos[y].lane.pipe &&
            BothOpen(closed, pos, x) == BothOpen(closed, pos, y)
  {
    var m, l := pos[net[id].proxy].lane, pos[net[id].to].lane;
    assert l == m || (l == m.Other() && l.Other() == m);
  }

  lemma SkipCost(s: State, id: nat)
    requires Core(s) && id in s.net && s.net[id].ObserveProxy? && s.net[id].to in s.ports
    requires Tracked(s.h, s.net[id].to) && s.ports[s.net[id].to].mode.Receiving?
    ensures var t := SkipProxy(s, id);
            t.net == (s.net - {id})[s.nextId := t.net[s.nextId]] &&
            Cost(s.h.chain, s.h.closed, s.h.pos, t.net[s.nextId]) == 1
  {
    hide Lanes, Chained, Named, Known, Ids, Receivers, Senders, Nexts, Ends, Travellers, Waiting, Targets, Numbers,
        Placement, Reading, Gone, Lasts, TravelLasts, Closures, Flights, Mail, Queues, Pending, FlyingCargo,
        QueuedCargo, Manifest, Unheld, AcceptTokens, Announcements, Acks, ParkedAcks, ProxyTokens, Heralds;
    var m := s.h.pos[s.net[id].to].lane.Other();
    NextSendIsLength(s.ports, s.h.chain, s.h.routed, s.h.sent, s.h.closed, s.h.pos, s.net[id].to);
    SentIsPositive(s.h.chain, s.h.nexts, s.h.routed, s.h.sent, s.h.place, s.h.read, s.h.closed, s.nextName, m);
    SentFits(s.h.chain, s.h.nexts, s.h.routed, s.h.sent, s.h.place, s.h.read, s.h.closed, s.nextName, m);
  }

  // ----- Acknowledgements -----

  lemma AckProgress(s: State, id: nat)
    requires Inv(s) && Steady(s, {}, {}) && id in s.net && s.net[id].ObserveProxyAck?
    ensures Progresses(s, OnObserveProxyAck(s, id))
  {
    hide Lanes, Chained, Named, Known, Ids, Receivers, Senders, Nexts, Ends, Travellers, Waiting, Targets, Numbers,
        Placement, Reading, Gone, Lasts, TravelLasts, Closures, Flights, Mail, Queues, Pending, FlyingCargo,
        QueuedCargo, Manifest, Unheld, AcceptTokens, Announcements, Acks, ParkedAcks, ProxyTokens, Heralds, Settled,
        Heralding, Bypassed, Obliged, Rounds, Persists, Tidy, Recorded, MeasureOf, Below, Progresses, Farthest;
    var x, e := s.net[id].to, s.net[id];
    var t := DropToken(s, id, x);
    TokenIsProxys(s.net, s.h.chain, s.h.routed, s.h.pos, s.h.token, id);
    AckedFacts(s.ports, s.net, s.h.chain, s.h.routed, s.h.pos, s.h.transit, s.h.token, id);
    PostId(s.net, s.nextId, e);
    SameUsers(s.net, id, s.nextId, e);
    if x !in s.ports {
      EventDone(s, t, id, e);
    } else if e.last == INVALID_SEQUENCE_NUM {
      var y := s.ports[x].peer;
      SameUsers(s.net, id, s.nextId, ObserveProxy(y, x, y));
      AgainCost(s, x);
      EventDone(s, InitiateProxyRemoval(t, x), id, ObserveProxy(y, x, y));
    } else {
      var u := ExpectLast(t, x, e.last);
      EventDone(s, u, id, e);
      MaybeRemoveProgress(s, u, x);
    }
  }

  lemma AgainCost(s: State, x: Addr)
    requires Core(s) && x in s.ports && s.ports[x].mode.Proxying?
    ensures Way(s.h.chain, s.h.closed, s.h.pos, x, s.ports[x].peer) < Farthest(s.h.chain, s.h.pos, x)
  {
    hide Lanes, Chained, Named, Known, Ids, Receivers, Senders, Nexts, Ends, Travellers, Waiting, Targets, Numbers,
        Placement, Reading, Gone, Lasts, TravelLasts, Closures, Flights, Mail, Queues, Pending, FlyingCargo,
        QueuedCargo, Manifest, Unheld, AcceptTokens, Announcements, Acks, ParkedAcks, ProxyTokens, Heralds;
    SuccessorIs(s.ports, s.h.chain, s.h.pos, x);
    DistanceBound(s.h.chain, s.h.pos, x, s.ports[x].peer);
    GapBound(s.h.chain, s.h.closed, s.h.pos, x, s.ports[x].peer);
  }

  /** Removing a proxy counts for more than anything it sets off. */
  lemma MaybeRemoveProgress(s: State, u: State, x: Addr)
    requires Progresses(s, u) && x in u.ports && u.ports[x].mode.Proxying?
    ensures Progresses(s, MaybeRemoveProxy(u, x))
  {
    hide Below, MeasureOf, FewerCarried, CanAcceptMoreMessages;
    if x !in MaybeRemoveProxy(u, x).ports {
      RemoveMeasure(u, MaybeRemoveProxy(u, x), x);
      BelowMore(MeasureOf(MaybeRemoveProxy(u, x)), MeasureOf(u), MeasureOf(s));
      SameCarriedOn(s.h, u.h, MaybeRemoveProxy(u, x).h);
    }
  }

  lemma SameCarriedOn(h: History, h': History, h'': History)
    requires FewerCarried(h, h') && h'' == h'.(token := h''.token)
    ensures FewerCarried(h, h'')
  {
  }

  lemma RemoveMeasure(u: State, t: State, x: Addr)
    requires x in u.ports && u.ports[x].mode.Proxying? && t.ports == u.ports - {x} && t.h.transit == u.h.transit
    ensures var a, b := MeasureOf(t), MeasureOf(u);
            a.travelling == b.travelling && a.buffering == b.buffering && a.away < b.away
  {
    assert BufferingPorts(u.ports - {x}) == BufferingPorts(u.ports);
    assert AwayPorts(u.ports - {x}) == AwayPorts(u.ports) - {x};
    SubsetSize(AwayPorts(u.ports - {x}), AwayPorts(u.ports));
  }

  lemma BelowMore(a: Measure, b: Measure, c: Measure)
    requires Below(b, c) && a.travelling == b.travelling && a.buffering == b.buffering && a.away < b.away
    ensures Below(a, c)
  {
  }

  // ----- Closures -----

  lemma ClosureProgress(s: State, id: nat)
    requires Inv(s) && id in s.net && s.net[id].ObserveClosure?
    ensures Progresses(s, OnObserveClosure(s, id))
  {
    hide Lanes, Chained, Named, Known, Ids, Receivers, Senders, Nexts, Ends, Travellers, Waiting, Targets, Numbers,
        Placement, Reading, Gone, Lasts, TravelLasts, Closures, Flights, Mail, Queues, Pending, FlyingCargo,
        QueuedCargo, Manifest, Unheld, AcceptTokens, Announcements, Acks, ParkedAcks, ProxyTokens, Heralds, Settled,
        Heralding, MeasureOf, Progresses, ToTheGap, BothOpen;
    var e, x, v := s.net[id], s.net[id].to, OnObserveClosure(s, id);
    PostId(s.net, s.nextId, e);
    if x !in s.ports {
      SameUsers(s.net, id, s.nextId, e);
      EventDone(s, v, id, e);
    } else if x in v.ports {
      KnownPos(s.ports, s.h.pos, s.h.transit, s.h.cargo, s.h.token, x);
      NewsIsOfClosure(s.ports, s.net, s.h.chain, s.h.routed, s.h.sent, s.h.closed, s.h.pos, s.h.transit, id);
      GapCloser(s.ports, s.h.chain, s.h.nexts, s.h.routed, s.h.sent, s.h.place, s.h.read, s.h.closed, s.h.pos,
          s.nextName, x);
      NewsMoves(s, id);
      hide NothingMoved;
      EventDone(s, v, id, v.net[s.nextId]);
    } else {
      NewsRemoves(s, id);
    }
  }

  /** The port stays, and passes the news on. */
  lemma NewsMoves(s: State, id: nat)
    requires id in s.net && s.net[id].ObserveClosure? && s.net[id].to in s.ports && s.nextId !in s.net
    requires s.net[id].to in OnObserveClosure(s, id).ports
    ensures var v, x := OnObserveClosure(s, id), s.net[id].to;
            NothingMoved(s, v) && s.nextId in v.net && v.net == (s.net - {id})[s.nextId := v.net[s.nextId]] &&
            v.net[s.nextId].ObserveClosure? && v.net[s.nextId].to == s.ports[x].peer
  {
    hide UserIds, CanAcceptMoreMessages;
    SameUsers(s.net, id, s.nextId, OnObserveClosure(s, id).net[s.nextId]);
  }

  lemma NewsRemoves(s: State, id: nat)
    requires id in s.net && s.net[id].ObserveClosure? && s.net[id].to in s.ports
    requires s.net[id].to !in OnObserveClosure(s, id).ports
    ensures Progresses(s, OnObserveClosure(s, id))
  {
    hide MeasureOf, FewerCarried, CanAcceptMoreMessages;
    var x, v := s.net[id].to, OnObserveClosure(s, id);
    assert v.ports == s.ports - {x};
    RemoveMeasure(s, v, x);
    SameCarried(s.h, v.h);
  }
}
