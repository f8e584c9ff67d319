/**
 The state of a system of port nodes: the port tables of every node, the events in flight
 between nodes, and history variables that name what the protocol promises.

 A port is known by the node it is bound to and by its name.  Names are drawn from a counter,
 which stands for the random 128-bit names of the program: no name is ever used twice.

 A pipe has two sides.  A lane is one side of one pipe, and owns the chain of ports that have
 held that side: a transfer appends one port.  Everything about the direction "towards lane m"
 is kept under the key m.
 */
module PortState {
  const INITIAL_SEQUENCE_NUM: nat := 1
  const INVALID_SEQUENCE_NUM: nat := 0xFFFFFFFF

  newtype Byte = b: int | 0 <= b < 256
  type Payload = seq<Byte>

  datatype Option<+T> = None | Some(value: T)

  datatype Addr = Addr(node: nat, name: nat)

  /** One side of one pipe. */
  datatype LaneId = LaneId(pipe: nat, side: bool) {
    function Other(): LaneId { LaneId(pipe, !side) }
  }

  // ----- What the program stores -----

  datatype Descriptor = Descriptor(
    peer: Addr, referring: Addr, nextSend: nat, nextRecv: nat, lastRecv: nat, peerClosed: bool)

  datatype Message = Message(num: nat, payload: Payload, ports: seq<Addr>, descs: seq<Descriptor>)

  /** The incoming queue: the next number wanted and the messages that have arrived. */
  datatype Queue = Queue(next: nat, pending: map<nat, Message>)

  datatype PortMode = Receiving | Buffering | Proxying

  /** `parked` is the proxy to be told to announce itself again once this port is removed. */
  datatype Port = Port(
    mode: PortMode, peer: Addr, nextSend: nat, lastRecv: nat, queue: Queue, signalable: bool,
    parked: Option<Addr>, removeOnLast: bool, peerClosed: bool)

  datatype Event =
    | User(to: Addr, msg: Message)
    | PortAccepted(to: Addr)
    | ObserveProxy(to: Addr, proxy: Addr, proxyTo: Addr)
    | ObserveProxyAck(to: Addr, last: nat)
    | ObserveClosure(to: Addr, last: nat)

  // ----- History variables -----

  /** The index of a port in its lane's chain. */
  datatype Pos = Pos(lane: LaneId, idx: nat)

  /** What was sent: the bytes, and the pipe ends that travel with them. */
  datatype Entry = Entry(payload: Payload, ends: seq<LaneId>)

  /** Where one sent message is now; `at` indexes the chain of the receiving lane. */
  datatype Place = Flying(id: nat, at: nat) | Queued(at: nat) | Read | Lost {
    predicate Placed() { Flying? || Queued? }
  }

  /** The message that carries an unclaimed port. */
  datatype Cargo = Cargo(lane: LaneId, num: nat, slot: nat)

  /** The one outstanding obligation of a port that has been sent away. */
  datatype Token = Accepting(id: nat) | Observing(id: nat) | Acking(id: nat) | Parked

  type Ports = map<Addr, Port>
  type Net = map<nat, Event>
  type Chains = map<LaneId, seq<Addr>>
  type Nums = map<LaneId, seq<nat>>
  type Logs = map<LaneId, seq<Entry>>
  type Places = map<LaneId, seq<Place>>
  type Positions = map<Addr, Pos>
  type Transits = map<Addr, Descriptor>
  type Cargos = map<Addr, Cargo>
  type Tokens = map<Addr, Token>

  /**
   chain[m]   the ports that have held lane m, oldest first
   nexts[m]   for each of them, the next number it wants (kept after it is erased)
   routed[m]  for each port of chain[m] that the sender has stopped addressing, the first number
              not sent to it; so chain[m][|routed[m]|] is the port the sender addresses
   sent[m]    all that was sent towards lane m, by number (entry 0 is unused)
   place[m]   where each of these is
   read[m]    all that was read at lane m (entry 0 is unused)
   closed     the lanes that have been closed
   transit    the descriptors of the ports that are on their way inside a message
   */
  datatype History = History(
    chain: Chains, nexts: Nums, routed: Nums, sent: Logs, place: Places, read: Logs,
    closed: set<LaneId>, pos: Positions, transit: Transits, cargo: Cargos, token: Tokens)

  /** `crashed` records a failed CHECK or DCHECK, or a null port being dereferenced. */
  datatype State = State(
    ports: Ports, net: Net, nextId: nat, nextName: nat, crashed: bool, h: History)

  const NOTHING := Entry([], [])

  const INIT := State(map[], map[], 0, 0, false,
                      History(map[], map[], map[], map[], map[], map[], {}, map[], map[], map[], map[]))

  // ----- Common functions -----

  /** The first number never routed to the port at index i, as far as has been decided. */
  function Limit(routed: seq<nat>, total: nat, i: nat): nat {
    if i < |routed| then routed[i] else total
  }

  function CanAcceptMoreMessages(p: Port): bool {
    !((p.peerClosed || p.removeOnLast) && p.lastRecv == p.queue.next - 1)
  }

  function DescriptorOf(a: Addr, p: Port): Descriptor {
    Descriptor(p.peer, a, p.nextSend, p.queue.next, p.lastRecv, p.peerClosed)
  }
}
