/**
 The incoming queue of a port: a vector kept as a binary heap with the lowest sequence number in
 front.  It refines the map from numbers to messages that the protocol is stated over.
 */
module MessageQueues {
  import opened PortState

  function Parent(i: nat): nat
    requires i > 0
  {
    (i - 1) / 2
  }

  /** Every message but the one at `hole` has a number no lower than its parent's. */
  predicate HeapBut(heap: seq<Message>, hole: nat) {
    forall i :: 0 < i < |heap| && i != hole ==> heap[Parent(i)].num <= heap[i].num
  }

  predicate IsHeap(heap: seq<Message>) {
    forall i :: 0 < i < |heap| ==> heap[Parent(i)].num <= heap[i].num
  }

  /** The children of i are no lower than the parent of i. */
  predicate Bridged(heap: seq<Message>, i: nat) {
    forall j :: 0 < j < |heap| && Parent(j) == i && 0 < i < |heap| ==> heap[Parent(i)].num <= heap[j].num
  }

  /** Below i, the messages are in heap order. */
  predicate HeapBelow(heap: seq<Message>, hole: nat) {
    forall i :: 0 < i < |heap| && Parent(i) != hole ==> heap[Parent(i)].num <= heap[i].num
  }

  function Swap(heap: seq<Message>, i: nat, j: nat): (r: seq<Message>)
    requires i < |heap| && j < |heap|
    ensures |r| == |heap|
  {
    heap[i := heap[j]][j := heap[i]]
  }

  lemma SwapKeeps(heap: seq<Message>, i: nat, j: nat)
    requires i < |heap| && j < |heap|
    ensures multiset(Swap(heap, i, j)) == multiset(heap)
  {
  }

  /** The front of a heap has the lowest number. */
  lemma {:induction false} FrontIsLeast(heap: seq<Message>, i: nat)
    requires IsHeap(heap) && i < |heap|
    ensures heap[0].num <= heap[i].num
  {
    if i > 0 { FrontIsLeast(heap, Parent(i)); }
  }

  lemma SiftUpStep(heap: seq<Message>, i: nat)
    requires 0 < i < |heap| && HeapBut(heap, i) && Bridged(heap, i) && heap[Parent(i)].num > heap[i].num
    ensures var t := Swap(heap, i, Parent(i));
            HeapBut(t, Parent(i)) && Bridged(t, Parent(i))
  {
    var p, t := Parent(i), Swap(heap, i, Parent(i));
    forall j | 0 < j < |t| && j != p
      ensures t[Parent(j)].num <= t[j].num
    {
      if Parent(j) == p && j != i { assert heap[p].num <= heap[j].num; }
    }
    forall j | 0 < j < |t| && Parent(j) == p && p > 0
      ensures t[Parent(p)].num <= t[j].num
    {
      assert heap[Parent(p)].num <= heap[p].num;
      if j != i { assert heap[p].num <= heap[j].num; }
    }
  }

  lemma SiftDownStep(heap: seq<Message>, i: nat, c: nat)
    requires 0 < c < |heap| && Parent(c) == i && HeapBelow(heap, i) && Bridged(heap, i) && heap[c].num < heap[i].num
    requires forall j :: 0 < j < |heap| && Parent(j) == i ==> heap[c].num <= heap[j].num
    ensures var t := Swap(heap, i, c);
            HeapBelow(t, c) && Bridged(t, c)
  {
    var t := Swap(heap, i, c);
    forall j | 0 < j < |t| && Parent(j) != c
      ensures t[Parent(j)].num <= t[j].num
    {
      if j == i { assert heap[Parent(i)].num <= heap[c].num; }
    }
    forall j | 0 < j < |t| && Parent(j) == c
      ensures t[Parent(c)].num <= t[j].num
    {
      assert heap[Parent(j)].num <= heap[j].num;
    }
  }

  /** The lower of the children of i, if it has any. */
  function LowerChild(heap: seq<Message>, i: nat): (c: nat)
    requires 2 * i + 1 < |heap|
    ensures 0 < c < |heap| && Parent(c) == i
    ensures forall j :: 0 < j < |heap| && Parent(j) == i ==> heap[c].num <= heap[j].num
  {
    if 2 * i + 2 < |heap| && heap[2 * i + 2].num < heap[2 * i + 1].num then 2 * i + 2 else 2 * i + 1
  }

  /** Numbers are distinct and not below the next one wanted: what the protocol provides. */
  ghost predicate Orderly(heap: seq<Message>, next: nat) {
    (forall m :: m in heap ==> m.num >= next && multiset(heap)[m] == 1) &&
    forall m, m' :: m in heap && m' in heap && m.num == m'.num ==> m == m'
  }

  /** The message's number has not been seen and is still wanted. */
  ghost predicate Fresh(heap: seq<Message>, next: nat, message: Message) {
    message.num >= next && forall m :: m in heap ==> m.num != message.num
  }

  /** The messages by number. */
  ghost function ByNumber(heap: seq<Message>): map<nat, Message> {
    map m | m in heap :: m.num := Numbered(heap, m.num)
  }

  ghost function Numbered(heap: seq<Message>, k: nat): (r: Message)
    requires exists m :: m in heap && m.num == k
    ensures r in heap && r.num == k
  {
    var m :| m in heap && m.num == k;
    m
  }

  ghost predicate Lists(pending: map<nat, Message>, heap: seq<Message>) {
    (forall m :: m in heap ==> m.num in pending && pending[m.num] == m) &&
    forall k :: k in pending ==> pending[k] in heap && pending[k].num == k
  }

  lemma ByNumberLists(heap: seq<Message>, next: nat, pending: map<nat, Message>)
    requires Orderly(heap, next)
    ensures Lists(ByNumber(heap), heap)
    ensures Lists(pending, heap) ==> pending == ByNumber(heap)
  {
    forall m | m in heap
      ensures m.num in ByNumber(heap) && ByNumber(heap)[m.num] == m
    {
    }
    if Lists(pending, heap) {
      forall k
        ensures k in pending <==> k in ByNumber(heap)
      {
      }
    }
  }

  lemma PopMembers(was: seq<Message>, heap: seq<Message>, front: Message)
    requires Orderly(was, front.num) && front in was && multiset(heap) == multiset(was) - multiset{front}
    ensures Orderly(heap, front.num + 1) && forall m :: m in heap <==> m in was && m != front
  {
    forall m
      ensures m in heap <==> m in was && m != front
      ensures m in heap ==> multiset(heap)[m] == 1
    {
      assert m in heap <==> multiset(heap)[m] > 0;
      assert m in was <==> multiset(was)[m] > 0;
    }
  }

  lemma PopLists(was: seq<Message>, heap: seq<Message>, front: Message, pending: map<nat, Message>)
    requires Lists(pending, was) && front in was && forall m :: m in heap <==> m in was && m != front
    ensures Lists(pending - {front.num}, heap) && front.num in pending && pending[front.num] == front
  {
  }

  lemma PopView(was: seq<Message>, heap: seq<Message>, front: Message)
    requires Orderly(was, front.num) && front in was && multiset(heap) == multiset(was) - multiset{front}
    ensures Orderly(heap, front.num + 1)
    ensures ByNumber(heap) == ByNumber(was) - {front.num}
    ensures front.num in ByNumber(was) && ByNumber(was)[front.num] == front
  {
    PopMembers(was, heap, front);
    hide Orderly, Lists, ByNumber;
    ByNumberLists(was, front.num, map[]);
    PopLists(was, heap, front, ByNumber(was));
    ByNumberLists(heap, front.num + 1, ByNumber(was) - {front.num});
  }

  lemma PushMembers(was: seq<Message>, heap: seq<Message>, message: Message, next: nat)
    requires Orderly(was, next) && Fresh(was, next, message) && multiset(heap) == multiset(was) + multiset{message}
    ensures Orderly(heap, next) && message !in was && forall m :: m in heap <==> m in was || m == message
  {
    forall m
      ensures m in heap <==> m in was || m == message
      ensures m in heap ==> multiset(heap)[m] == 1
    {
      assert m in heap <==> multiset(heap)[m] > 0;
      assert m in was <==> multiset(was)[m] > 0;
    }
  }

  lemma PushLists(was: seq<Message>, heap: seq<Message>, message: Message, next: nat, pending: map<nat, Message>)
    requires Lists(pending, was) && Fresh(was, next, message) && forall m :: m in heap <==> m in was || m == message
    ensures Lists(pending[message.num := message], heap)
  {
  }

  lemma PushView(was: seq<Message>, heap: seq<Message>, message: Message, next: nat)
    requires Orderly(was, next) && Fresh(was, next, message) && multiset(heap) == multiset(was) + multiset{message}
    ensures Orderly(heap, next) && ByNumber(heap) == ByNumber(was)[message.num := message]
  {
    PushMembers(was, heap, message, next);
    hide Orderly, Fresh, Lists, ByNumber;
    ByNumberLists(was, next, map[]);
    PushLists(was, heap, message, next, ByNumber(was));
    ByNumberLists(heap, next, ByNumber(was)[message.num := message]);
  }

  class MessageQueue {
    var heap: seq<Message>
    var nextSequenceNum: nat
    var signalable: bool

    predicate Valid()
      reads this
    {
      IsHeap(heap)
    }

    /** What the queue holds, as the protocol sees it. */
    ghost function View(): Queue
      reads this
    {
      Queue(nextSequenceNum, ByNumber(heap))
    }

    constructor (next: nat)
      ensures Valid() && heap == [] && nextSequenceNum == next && signalable
    {
      heap, nextSequenceNum, signalable := [], next, true;
    }

    predicate HasNextMessage()
      reads this
    {
      heap != [] && heap[0].num == nextSequenceNum
    }

    /** std::push_heap: the last element moves up to its place. */
    method PushHeap()
      requires heap != [] && HeapBut(heap, |heap| - 1)
      modifies this`heap
      ensures IsHeap(heap) && multiset(heap) == old(multiset(heap)) && |heap| == old(|heap|)
    {
      var i := |heap| - 1;
      while i > 0 && heap[i].num < heap[Parent(i)].num
        invariant 0 <= i < |heap| == old(|heap|) && HeapBut(heap, i) && Bridged(heap, i)
        invariant multiset(heap) == old(multiset(heap))
      {
        SiftUpStep(heap, i);
        SwapKeeps(heap, i, Parent(i));
        heap := Swap(heap, i, Parent(i));
        i := Parent(i);
      }
    }

    /** std::pop_heap and pop_back: the front is taken out, the last element moves down to its place. */
    method PopHeap() returns (front: Message)
      requires heap != [] && IsHeap(heap)
      modifies this`heap
      ensures front == old(heap[0]) && IsHeap(heap)
      ensures multiset(heap) == old(multiset(heap)) - multiset{front} && |heap| == old(|heap|) - 1
    {
      front := heap[0];
      var n := |heap| - 1;
      SwapKeeps(heap, 0, n);
      var moved := Swap(heap, 0, n);
      assert moved == moved[..n] + [front];
      heap := moved[..n];
      ghost var rest := heap;
      var i := 0;
      while 2 * i + 1 < |heap| && heap[LowerChild(heap, i)].num < heap[i].num
        invariant 0 <= i <= n == |heap| && HeapBelow(heap, i) && Bridged(heap, i) && multiset(heap) == multiset(rest)
        decreases |heap| - i
      {
        var c := LowerChild(heap, i);
        SiftDownStep(heap, i, c);
        SwapKeeps(heap, i, c);
        heap := Swap(heap, i, c);
        i := c;
      }
      Settles(heap, i);
    }

    static lemma Settles(heap: seq<Message>, i: nat)
      requires HeapBelow(heap, i) && (2 * i + 1 < |heap| ==> heap[i].num <= heap[LowerChild(heap, i)].num)
      ensures IsHeap(heap)
    {
    }

    /** A message is taken only if it is the next one and the selector wants it. */
    method GetNextMessageIf(selector: Message -> bool) returns (message: Option<Message>)
      requires Valid()
      modifies this`heap, this`nextSequenceNum
      ensures Valid()
      ensures message.Some? <==> old(HasNextMessage()) && selector(old(heap[0]))
      ensures message.None? ==> heap == old(heap) && nextSequenceNum == old(nextSequenceNum)
      ensures message.Some? ==>
                  message.value.num == old(nextSequenceNum) && nextSequenceNum == old(nextSequenceNum) + 1 &&
                                message.value in old(heap) &&
                                    multiset(heap) == old(multiset(heap)) - multiset{message.value}
      ensures old(Orderly(heap, nextSequenceNum)) ==> Orderly(heap, nextSequenceNum)
      ensures old(Orderly(heap, nextSequenceNum)) && message.Some? ==>
                View().pending == old(View()).pending - {old(nextSequenceNum)} &&
                old(nextSequenceNum) in old(View()).pending &&
                    old(View()).pending[old(nextSequenceNum)] == message.value
    {
      if !HasNextMessage() || !selector(heap[0]) { return None; }
      ghost var was := heap;
      var front := PopHeap();
      nextSequenceNum := nextSequenceNum + 1;
      message := Some(front);
      if Orderly(was, front.num) { PopView(was, heap, front); }
    }

    method AcceptMessage(message: Message) returns (hasNextMessage: bool)
      requires Valid()
      modifies this`heap
      ensures Valid() && multiset(heap) == old(multiset(heap)) + multiset{message}
      ensures hasNextMessage <==> signalable && HasNextMessage()
      ensures old(Orderly(heap, nextSequenceNum)) && old(Fresh(heap, nextSequenceNum, message)) ==>
                Orderly(heap, nextSequenceNum) && View().pending == old(View()).pending[message.num := message]
    {
      ghost var was := heap;
      heap := heap + [message];
      assert multiset(heap) == multiset(was) + multiset{message};
      PushHeap();
      hasNextMessage := signalable && heap[0].num == nextSequenceNum;
      if Orderly(was, nextSequenceNum) && Fresh(was, nextSequenceNum, message) {
        PushView(was, heap, message, nextSequenceNum);
      }
    }

    /** With the numbers the protocol provides, there is a next message exactly when it has arrived. */
    lemma NextIsPresent()
      requires Valid() && Orderly(heap, nextSequenceNum)
      ensures HasNextMessage() <==> nextSequenceNum in View().pending
    {
      if nextSequenceNum in View().pending {
        ByNumberLists(heap, nextSequenceNum, map[]);
        var m := View().pending[nextSequenceNum];
        var i :| 0 <= i < |heap| && heap[i] == m;
        FrontIsLeast(heap, i);
      }
      if HasNextMessage() { ByNumberLists(heap, nextSequenceNum, map[]); }
    }

    method GetReferencedPorts() returns (names: seq<Addr>)
      ensures forall b :: b in names <==> exists m :: m in heap && b in m.ports
      ensures |names| == PortCount(heap)
    {
      names := [];
      for i := 0 to |heap|
        invariant forall b :: b in names <==> exists m :: m in heap[..i] && b in m.ports
        invariant |names| == PortCount(heap[..i])
      {
        assert heap[..i + 1] == heap[..i] + [heap[i]];
        names := names + heap[i].ports;
      }
      assert heap[..|heap|] == heap;
    }
  }

  function PortCount(heap: seq<Message>): nat {
    if heap == [] then 0 else PortCount(heap[..|heap| - 1]) + |heap[|heap| - 1].ports|
  }

  // ----- Any arrival order -----

  datatype Op = Accept(message: Message) | GetNext

  function Apply(q: Queue, op: Op): (Queue, seq<Message>) {
    match op
    case Accept(m) => (q.(pending := q.pending[m.num := m]), [])
    case GetNext =>
      if q.next in q.pending then (Queue(q.next + 1, q.pending - {q.next}), [q.pending[q.next]]) else (q, [])
  }

  /** The queue after a run of operations, and what it has given out. */
  function After(start: nat, ops: seq<Op>): (Queue, seq<Message>) {
    if ops == [] then (Queue(start, map[]), []) else
    var (q, out) := After(start, ops[..|ops| - 1]);
    var (q', more) := Apply(q, ops[|ops| - 1]);
    (q', out + more)
  }

  /** The accepted numbers are distinct and start no lower than the first one wanted. */
  predicate Arrivals(start: nat, ops: seq<Op>) {
    (forall i :: 0 <= i < |ops| && ops[i].Accept? ==> ops[i].message.num >= start) &&
    forall i, j :: 0 <= i < j < |ops| && ops[i].Accept? && ops[j].Accept? ==> ops[i].message.num != ops[j].message.num
  }

  predicate Accepted(ops: seq<Op>, m: Message) { Accept(m) in ops }

  /** What comes out has consecutive numbers, and what arrived has come out or is still there. */
  ghost predicate InOrder(start: nat, ops: seq<Op>, q: Queue, out: seq<Message>) {
    q.next == start + |out| &&
    (forall i :: 0 <= i < |out| ==> out[i].num == start + i && Accepted(ops, out[i])) &&
    (forall k :: k in q.pending ==> k >= q.next && q.pending[k].num == k && Accepted(ops, q.pending[k])) &&
    (forall m :: Accepted(ops, m) ==> m in out || (m.num in q.pending && q.pending[m.num] == m))
  }

  lemma AcceptInOrder(start: nat, ops: seq<Op>, q: Queue, out: seq<Message>, m: Message)
    requires InOrder(start, ops, q, out) && m.num >= start
    requires forall m' :: Accepted(ops, m') ==> m'.num != m.num
    ensures InOrder(start, ops + [Accept(m)], q.(pending := q.pending[m.num := m]), out)
  {
    var ops', q' := ops + [Accept(m)], q.(pending := q.pending[m.num := m]);
    assert m.num - start < |out| ==> out[m.num - start].num == m.num;
    forall m' | Accepted(ops', m')
      ensures m' in out || (m'.num in q'.pending && q'.pending[m'.num] == m')
    {
      assert m' == m || Accepted(ops, m');
    }
  }

  lemma GetInOrder(start: nat, ops: seq<Op>, q: Queue, out: seq<Message>)
    requires InOrder(start, ops, q, out)
    ensures var (q', more) := Apply(q, GetNext);
            InOrder(start, ops + [GetNext], q', out + more)
  {
    var ops' := ops + [GetNext];
    var (q', more) := Apply(q, GetNext);
    forall m | Accepted(ops', m)
      ensures m in out + more || (m.num in q'.pending && q'.pending[m.num] == m)
    {
      assert Accepted(ops, m);
    }
  }

  /** In whatever order messages arrive, they come out with consecutive numbers, and every one
      that arrived has come out or is still there. */
  lemma {:induction false} ComesOutInOrder(start: nat, ops: seq<Op>)
    requires Arrivals(start, ops)
    ensures var (q, out) := After(start, ops);
            InOrder(start, ops, q, out)
    decreases |ops|
  {
    if ops != [] {
      var init, op := ops[..|ops| - 1], ops[|ops| - 1];
      assert ops == init + [op];
      ComesOutInOrder(start, init);
      var (q, out) := After(start, init);
      match op {
        case Accept(m) =>
          forall m' | Accepted(init, m')
            ensures m'.num != m.num
          {
            var j :| 0 <= j < |init| && init[j] == Accept(m');
            assert ops[j] == Accept(m');
          }
          AcceptInOrder(start, init, q, out, m);
          assert out + [] == out;
        case GetNext => GetInOrder(start, init, q, out);
      }
    }
  }

  lemma AfterNext(start: nat, ops: seq<Op>, op: Op)
    ensures var (q, out) := After(start, ops);
            var (q', more) := Apply(q, op);
            After(start, ops + [op]) == (q', out + more)
  {
    assert (ops + [op])[..|ops|] == ops;
  }

  /** A message that has not arrived before is wanted and not queued. */
  lemma NewIsFresh(start: nat, ops: seq<Op>, heap: seq<Message>, q: Queue, out: seq<Message>, m: Message)
    requires InOrder(start, ops, q, out) && q.pending == ByNumber(heap) && Orderly(heap, q.next) && m.num >= start
    requires forall m' :: Accepted(ops, m') ==> m'.num != m.num
    ensures Fresh(heap, q.next, m)
  {
    assert m.num - start < |out| ==> out[m.num - start].num == m.num;
    ByNumberLists(heap, q.next, map[]);
  }

  lemma DifferentNumbers(start: nat, ops: seq<Op>, k: nat)
    requires Arrivals(start, ops) && k < |ops| && ops[k].Accept?
    ensures forall m :: Accepted(ops[..k], m) ==> m.num != ops[k].message.num
  {
    forall m | Accepted(ops[..k], m)
      ensures m.num != ops[k].message.num
    {
      var j :| 0 <= j < k && ops[..k][j] == Accept(m);
      assert ops[j] == Accept(m);
    }
  }

  lemma EmptyView(start: nat)
    ensures ByNumber([]) == map[] && Orderly([], start)
  {
  }

  /** The heap does what the map does, for every order of arrivals and extractions. */
  method Perform(start: nat, ops: seq<Op>) returns (queue: MessageQueue, out: seq<Message>)
    requires Arrivals(start, ops)
    ensures queue.Valid() && Orderly(queue.heap, queue.nextSequenceNum)
    ensures (queue.View(), out) == After(start, ops) && InOrder(start, ops, queue.View(), out)
  {
    hide After, Orderly, Fresh, InOrder, ByNumber, IsHeap;
    queue := new MessageQueue(start);
    out := [];
    EmptyView(start);
    assert (queue.View(), out) == After(start, ops[..0]) by { NothingYet(start); }
    for k := 0 to |ops|
      invariant queue.Valid() && Orderly(queue.heap, queue.nextSequenceNum) && fresh(queue)
      invariant (queue.View(), out) == After(start, ops[..k])
    {
      var before := ops[..k];
      ComesOutInOrder(start, before) by { Fewer(start, ops, k); }
      AfterNext(start, before, ops[k]);
      assert ops[..k + 1] == before + [ops[k]];
      match ops[k] {
        case Accept(m) =>
          DifferentNumbers(start, ops, k);
          NewIsFresh(start, before, queue.heap, queue.View(), out, m);
          var has := queue.AcceptMessage(m);
          assert out + [] == out;
        case GetNext =>
          queue.NextIsPresent();
          var message := queue.GetNextMessageIf(_ => true);
          out := out + if message.Some? then [message.value] else [];
      }
    }
    assert ops[..|ops|] == ops;
    ComesOutInOrder(start, ops);
  }

  lemma NothingYet(start: nat)
    ensures After(start, []) == (Queue(start, map[]), [])
  {
  }

  lemma Fewer(start: nat, ops: seq<Op>, k: nat)
    requires Arrivals(start, ops) && k <= |ops|
    ensures Arrivals(start, ops[..k])
  {
  }
}
