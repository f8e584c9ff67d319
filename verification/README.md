# Mojo EDK: message pipes, data pipes, channels, wait sets, handle tables

A Dafny model of the core of `mojo/edk/system`, with proofs of what its protocols promise.

**Ports** (`Port*.dfy`). A message pipe is a ring of ports spread over nodes. Moving a port to
another node leaves a proxy behind, and proxies take themselves out of the ring with the
ObserveProxy, ObserveProxyAck and ObserveClosure events, over a transport that may deliver in any
order.

- `PortState.dfy` is the state of the whole system: the port tables of all nodes, the events in
  flight, and history variables (what was sent and read on each side of each pipe, which ports
  have held each side, and where each message now is).
- `PortSteps.dfy` gives each public call and each handler as one total step on that state. A
  failed CHECK or DCHECK, or a missing port being used, sets a flag, `crashed`.
- `PortNodes.dfy` is the same code as it is written: a class whose methods update the port table
  in place, with the loops and the recursion of the original. Every method is proved to lead to
  the state its step describes, and `Execute` shows that no check fails on the way.
- `PortInvariant.dfy` and `PortSettled.dfy` hold the invariant, as three dozen predicates over
  exactly the components they speak of. The files from `PortFrames.dfy` to `PortDelivery.dfy`
  show what each kind of step does to each of them, and `PortUsing.dfy` puts this together:
  `EveryRun` says the invariant holds after every sequence of calls and deliveries.
- `PortRuns.dfy`, `PortDelivered.dfy` and `PortTheorems.dfy` state what follows for the users of a
  pipe. All of it is about `Run(cs)`, where `cs` is any sequence of `Create`, `Send`, `Get`,
  `Close` and `Deliver` commands; a command that its caller is in no position to give (a port the
  caller does not hold, an event that is not in flight) changes nothing, so no run is excluded.
- `PortAnswers.dfy` says what the calls answer, over the same runs and without reference to how they
  compute it: when a message is given out and which one, when one is accepted and which refusal
  means what, and what creating and closing a pipe end lead to.
- `PortSweep.dfy` is about closing a port with ports in its unread messages; `PortSteady*.dfy`,
  `PortProgress.dfy`, `PortArrivals.dfy` and `PortCollapse.dfy` about the end of delivery and the
  collapse of a pipe that was transferred once; `PortDangling.dfy` about a proxy that outlives its
  successor.

**Message queue** (`MessageQueue.dfy`): the binary heap in a vector, refined to the map from
numbers to messages over which the ports protocol is stated.

**Data pipe** (`DataPipe.dfy`): a producer and a consumer over a shared ring buffer, each with its
own offset and count, and two first-in first-out queues of control messages between them.

**Channel** (`Channel.dfy`, `ChannelPosix.dfy`): the reading buffer, the parsing loop, and the
queue of partly written messages.

**Wait set** (`WaitSet.dfy`) and **handle transit** (`HandleTable.dfy`): two state machines over
shared tables whose callers are interleaved.

Main results, in short: what is read at one side of a pipe is, over all transfers, a prefix of what
was sent at the other; a message is given out exactly when the next one has arrived, and accepted
exactly when nothing named stands against it; no check of the ports code fails; with nothing in
flight nothing is stranded; delivery ends, and a pipe that was transferred once collapses to its
two ends; closure is reported exactly when all has been read; an erased proxy has passed on all
that was or will be addressed to it; a close reaches exactly the ports that hang on the closed one;
the bytes read from a data pipe are a prefix of those written, for every mix of operations and
moves of either end, lent bytes stay as they are, and a moved end knows what it knew; payloads read
from a channel are a prefix of those written, however the stream is cut on either side, and a
channel stops writing exactly when the system has failed; nobody in a wait set is lost or starves,
and each is handed out with its own result and context; every busy handle belongs to exactly one
call.

One promise turned out not to hold. It is not the case that every proxy that the sender has
stopped addressing still leads along the peer pointers into the ring: `ProxyMayDangle` is a run of
two overlapping transfers after which the pointer of such a proxy names a port that is gone.
`BypassedLeadsInExactly` and `BypassedLeadsInWhen` say when it does lead in (exactly when none of the
ports in between has both been told its last number and reached it), and `BypassedProxyLeadsIn`
that it always does as long as a message is still to come through it, so nothing is lost by it.

## Model

| member | source | states |
|---|---|---|
| PortUsing.EveryRun | mojo/edk/system/ports/node.cc:130-928 | the whole invariant holds after every sequence of calls and deliveries, in any order |
| PortTheorems.NeverCrashes | mojo/edk/system/ports/node.cc:499-513 | in no run does a CHECK, DCHECK or OOPS of the handlers fail (the check of MaybeRemoveProxy that the port is a proxy included), and no handler uses a missing port |
| PortTheorems.ReadIsPrefixOfSent | mojo/edk/system/ports/node.cc:760-928 | what was read at a side, joined over all the ports that held it, is a prefix of what was sent from the other side, payloads and attached pipe ends alike |
| PortRuns.LogsAreHistory | mojo/edk/system/ports/node.cc:251-336 | the logs of a run, defined from the calls alone, are what the history variables record |
| PortRuns.StepLogs | mojo/edk/system/ports/node.cc:251-336 | one command adds to the logs of each lane exactly what that call sends or reads there, and nothing is ever taken out of chains or logs |
| PortRuns.RunGrows | mojo/edk/system/ports/node.cc:760-798 | along a run, chains only grow at their end, positions never change and closed sides stay closed |
| PortTheorems.NothingIsStranded | mojo/edk/system/ports/node.cc:414-495 | when nothing is in flight, an open side has a receiving port whose queue holds exactly the messages sent and not read, and which knows if the other side closed |
| PortTheorems.InFlightIsExpected | mojo/edk/system/ports/node.cc:414-451 | a user message in flight names a port that exists, or belongs to a side that was closed: no erased proxy is named while the side is open |
| PortTheorems.ErasedProxyIsDone | mojo/edk/system/ports/node.cc:950-964 | with both sides open, a proxy that is gone was told its last number, has passed on every number up to it, and no message is at it or on its way to it |
| PortTheorems.GoneIsDone | mojo/edk/system/ports/node.cc:562-575 | the same for one lane, from the invariant: the acknowledged number is the last ever routed there |
| PortTheorems.ProxyPeerIsFixed | mojo/edk/system/ports/node.cc:576-599 | once a port has been sent away its peer never changes again, for the rest of any run |
| PortTheorems.OneRemovalToken | mojo/edk/system/ports/node.cc:576-599 | at most one announcement or acknowledgement exists for a proxy, counting those in flight and those parked at any port, so a parked one is never overwritten |
| PortTheorems.PeersFormRing | mojo/edk/system/ports/node.cc:784-810 | with both sides open, peer pointers (for a travelling port, those of its descriptor) form one cycle of distinct ports with exactly two receiving or travelling ends |
| PortTheorems.BypassedProxyLeadsIn | mojo/edk/system/ports/node.cc:560-608 | a bypassed proxy with messages still to come leads along the peer pointers into the ring |
| PortTheorems.BypassedLeadsInExactly | mojo/edk/system/ports/node.cc:560-608 | any bypassed port leads in if and only if no port between it and the ring has been removed |
| PortSteadyRuns.BypassedIsHere | mojo/edk/system/ports/node.cc:950-964 | in an open pipe, a bypassed port is there if and only if a message is still to come through it or the acknowledgement with its last number is on its way |
| PortSteadyRuns.BypassedLeadsInWhen | mojo/edk/system/ports/node.cc:560-608 | so it leads into the ring if and only if that holds of every port in between: none of them has both been told its last number and reached it |
| PortDangling.ProxyMayDangle | mojo/edk/system/ports/node.cc:562-599 | a run without any close after which the sender addresses another port, and the bypassed proxy points at a port that no longer exists |
| PortTheorems.PeerClosedIsExact | mojo/edk/system/ports/node.cc:27-36 | GetMessage reports a closed peer if and only if the port was told and all that was ever sent has been read; and it is only told when the other side did close |
| PortAnswers.GetAnswers | mojo/edk/system/ports/node.cc:251-292 | over every run, a held receiving port gives a message out if and only if the one after the last read has arrived, and it is the next one sent; it reports closure if and only if it was told and all was read; and it refuses if and only if it does not receive |
| PortAnswers.GetReads | mojo/edk/system/ports/node.cc:251-292 | GetMessage adds the next message sent to what was read at its side when that message has arrived there, and nothing otherwise or elsewhere |
| PortAnswers.QuietGetReads | mojo/edk/system/ports/node.cc:251-292 | with nothing in flight, a held port whose side has something left to read gives the next message out |
| PortAnswers.GetGivesPorts | mojo/edk/system/ports/node.cc:272-291 | the ports of a message that was read are held by the reader and receive |
| PortAnswers.SendAnswers | mojo/edk/system/ports/node.cc:294-312 | each outcome has its exact condition: a message is accepted if and only if the port is not attached to it, receives and was not told of a closure, and every attached port receives and is not the peer; the refusals come in the order of the program, and the first attached port that cannot go decides |
| PortAnswers.SendAdds | mojo/edk/system/ports/node.cc:294-336 | over every run, a message that can be sent is added, with its payload and ends, to the log of the other side and to no other, and is on its way to the peer under the next number |
| PortAnswers.SendRefused | mojo/edk/system/ports/node.cc:294-336 | a message that cannot be sent changes nothing |
| PortAnswers.CreateMakesPipe | mojo/edk/system/ports/node.cc:130-150 | the two new ports are held, address each other, and belong to a new pipe that is open and over which nothing was sent |
| PortAnswers.CloseShuts | mojo/edk/system/ports/node.cc:178-231 | closing a held port that receives closes its side for good, and the port is gone |
| PortTheorems.LastNumbersAgree | mojo/edk/system/ports/node.cc:649-716 | all acknowledgements and closures on their way to a port, and what it already expects, carry the same last number |
| PortTheorems.AttachedPortsAreHere | mojo/edk/system/ports/node.cc:276-288 | every port attached to a queued message exists on that node, receives, is held by nobody, and is in no other slot of any queued message |
| PortTheorems.NoPortIsForgotten | mojo/edk/system/ports/node.cc:863-882 | a receiving port that no user holds is attached to a message in flight or in a queue |
| PortTheorems.ArrivalsAreFresh | mojo/edk/system/ports/message_queue.cc:62-76 | a user message on its way to a port that exists has a number that its queue still wants and does not hold |
| PortDelivered.RestIsQueued | mojo/edk/system/ports/message_queue.cc:47-76 | with nothing in flight, the end's queue is the sent log without the read log |
| PortDelivered.NewsArrives | mojo/edk/system/ports/node.cc:649-716 | with nothing in flight, news of a closure has reached every port from the addressed one to the end |
| PortDelivered.AllDrained | mojo/edk/system/ports/node.cc:911-928 | with nothing in flight, no port before the end holds a message |
| PortSweep.ClosePortSweeps | mojo/edk/system/ports/node.cc:178-231 | closing a port erases exactly the ports reachable from it through unread messages, each once, and posts one closure event for each, with its last sent number, and nothing else |
| PortSweep.SweepErases | mojo/edk/system/ports/node.cc:178-231 | the swept ports are distinct, were receiving, and are all that disappears from the table |
| PortSweep.SweepReaches | mojo/edk/system/ports/node.cc:225-229 | the swept ports are closed under attachment, and each was asked for or is attached to an earlier one |
| PortSweep.SweepAnnounces | mojo/edk/system/ports/node.cc:203-223 | one ObserveClosure per swept port, in order, and no other change to what is in flight |
| PortClosing.ReferencedAreAttached | mojo/edk/system/ports/message_queue.cc:78-83 | the listed ports are exactly those attached to some queued message |
| PortSteps.PortsOutcome | mojo/edk/system/ports/node.cc:863-883 | a message may be sent exactly when every attached port receives and none is the peer |
| PortUsing.CreateKeeps | mojo/edk/system/ports/node.cc:130-150 | CreatePortPair keeps the invariant |
| PortUsing.SendMessageKeeps | mojo/edk/system/ports/node.cc:294-336 | SendMessage, with any attached ports, keeps the invariant and never fails half-way |
| PortUsing.SendPortsKeep | mojo/edk/system/ports/node.cc:885-896 | moving the attached ports one by one keeps the core invariant, and each becomes a buffering port with a travelling successor |
| PortUsing.GetMessageKeeps | mojo/edk/system/ports/node.cc:251-292 | GetMessage keeps the invariant and finds every port it enables |
| PortClosing.ClosePortsKeep | mojo/edk/system/ports/node.cc:178-231 | the recursion of ClosePort keeps the invariant for any list of ports |
| PortUsing.ClosePortKeeps | mojo/edk/system/ports/node.cc:178-231 | ClosePort keeps the invariant |
| PortDelivery.OnUserMessageKeeps | mojo/edk/system/ports/node.cc:414-495 | delivering a user message keeps the invariant: landed ports, queueing, forwarding, and closing the ports of a message nobody takes |
| PortDelivery.AcceptPortsKeep | mojo/edk/system/ports/node.cc:439-443 | accepting the described ports turns each travelling port into a receiving one and owes its predecessor one PortAccepted |
| PortHandlers.OnPortAcceptedKeeps | mojo/edk/system/ports/node.cc:497-540 | OnPortAccepted keeps the invariant: what was buffered is forwarded, and the proxy announces itself or passes the closure on |
| PortHandlers.OnObserveProxyKeeps | mojo/edk/system/ports/node.cc:542-611 | OnObserveProxy keeps the invariant in all its branches |
| PortHandlers.OnObserveProxyAckKeeps | mojo/edk/system/ports/node.cc:613-647 | OnObserveProxyAck keeps the invariant, for a valid number and for "announce again" |
| PortHandlers.OnObserveClosureInv | mojo/edk/system/ports/node.cc:649-722 | OnObserveClosure keeps the invariant |
| PortDraining.ForwardPortsKeep | mojo/edk/system/ports/node.cc:832-909 | forwarding the ports of a queued message never meets a missing port or the error branch, and keeps the invariant |
| PortDraining.ForwardMessagesKeep | mojo/edk/system/ports/node.cc:911-928 | draining a proxy's queue keeps the invariant and leaves no message that could go on |
| PortTransfer.WillSendKeeps | mojo/edk/system/ports/node.cc:760-798 | sending one port away keeps the core invariant |
| PortProxy.SkipProxyKeeps | mojo/edk/system/ports/node.cc:560-575 | bypassing a proxy records the last number routed to it and keeps the core invariant |
| PortRemoval.ParkKeeps | mojo/edk/system/ports/node.cc:576-599 | keeping an acknowledgement back until the port is removed keeps the core invariant |
| PortRemoval.RelayKeeps | mojo/edk/system/ports/node.cc:600-607 | passing an announcement on along the ring keeps the core invariant |
| PortRemoval.MaybeRemoveKeeps | mojo/edk/system/ports/node.cc:950-976 | removing a proxy that expects no more messages keeps the core invariant |
| PortClosure.OnObserveClosureKeeps | mojo/edk/system/ports/node.cc:660-716 | noting a closure and passing it on keeps the core invariant, with the right last number in each direction |
| PortUsing.HandleKeeps | mojo/edk/system/ports/node.cc:338-359 | every event, delivered at any time, keeps the invariant |
| PortUsing.StepKeeps | mojo/edk/system/ports/node.cc:130-359 | every command keeps the invariant |
| PortUsing.InitIsInv | mojo/edk/system/ports/node.cc:40-43 | the invariant holds of a system without ports |
| PortSteadyRuns.EveryRunSteady | mojo/edk/system/ports/node.cc:613-647 | in every run, whatever is closed elsewhere: in a pipe whose two sides are open, every proxy's obligation is an event in flight or parked, a bypassed proxy has been told or is about to be, and a finished proxy is gone |
| PortArrivals.HandleProgress | mojo/edk/system/ports/node.cc:338-359 | over direct carriers each delivery lowers a well-founded measure, closures in flight included, and closes no side but one whose end is inside a message |
| PortArrivals.UserProgress | mojo/edk/system/ports/node.cc:414-495 | so does delivering a user message, however much it lets a proxy forward, or however many ports it closes because no port takes it |
| PortArrivals.AcceptedProgress | mojo/edk/system/ports/node.cc:497-540 | so does a PortAccepted, whether the proxy then announces itself or passes a closure on |
| PortProgress.ObserveProgress | mojo/edk/system/ports/node.cc:542-611 | so does each hop of an announcement, round the ring of an open pipe or towards the gap in a closed one |
| PortProgress.AckProgress | mojo/edk/system/ports/node.cc:613-647 | so does an acknowledgement, also one that makes the proxy announce itself again |
| PortProgress.ClosureProgress | mojo/edk/system/ports/node.cc:649-722 | so does each hop of a closure, which only goes towards the gap at the closed end |
| PortCollapse.DeliveryEnds | mojo/edk/system/ports/node.cc:338-359 | whatever is delivered first and whatever is closed, delivery ends with nothing in flight |
| PortCollapse.SideStaysOpen | mojo/edk/system/ports/node.cc:414-495 | delivery leaves an open side open if its end is in no message, or if no message with ports is for a closed side |
| PortCollapse.OpenPipeCollapses | mojo/edk/system/ports/node.cc:497-647 | when delivery has ended, a pipe transferred at most once whose sides are both open has no proxy left, its ends address each other, and all that was sent has been read or is queued |
| PortCollapse.SingleTransferCollapses | mojo/edk/system/ports/node.cc:497-647 | the same from what holds before delivery: two open sides that stay open, with any other pipe, the carrier included, open or closed |
| PortNodes.Nodes.constructor | mojo/edk/system/ports/node.cc:40-43 | the nodes start in the initial state |
| PortNodes.Nodes.Execute | mojo/edk/system/ports/node.cc:130-359 | the code, run on any command after any run, leads to the state of the longer run and meets no failed check |
| PortNodes.Nodes.AcceptMessage | mojo/edk/system/ports/node.cc:338-359 | dispatches to the handler of the event and does what that step says |
| PortNodes.Nodes.CreatePortPair | mojo/edk/system/ports/node.cc:130-150 | the creation of two ports that address each other is the step of that name |
| PortNodes.Nodes.SendMessage | mojo/edk/system/ports/node.cc:294-336 | outcome and new state are those of the step, for every kind of refusal |
| PortNodes.Nodes.CheckPorts | mojo/edk/system/ports/node.cc:863-883 | the loop over the attached ports finds the first refusal |
| PortNodes.Nodes.SendPorts | mojo/edk/system/ports/node.cc:885-896 | the loop that sends the ports away yields their new names and the descriptors of what they were |
| PortNodes.Nodes.WillSendPort | mojo/edk/system/ports/node.cc:760-798 | the port starts buffering, points at its successor, and is described as it was |
| PortNodes.Nodes.AcceptPort | mojo/edk/system/ports/node.cc:800-830 | the described port appears and its predecessor is told |
| PortNodes.Nodes.ForwardPorts | mojo/edk/system/ports/node.cc:863-909 | the loop over the slots of a queued message rewrites each slot |
| PortNodes.Nodes.ForwardMessages | mojo/edk/system/ports/node.cc:911-928 | the draining loop ends, in the state of the step |
| PortNodes.Nodes.MaybeRemoveProxy | mojo/edk/system/ports/node.cc:950-976 | the proxy goes exactly when it expects no more, and what it kept back is sent |
| PortNodes.Nodes.InitiateProxyRemoval | mojo/edk/system/ports/node.cc:930-948 | the proxy announces itself and its successor to its peer |
| PortNodes.Nodes.ClosePort | mojo/edk/system/ports/node.cc:178-231 | the recursion ends, because the table shrinks, in the state of the step |
| PortNodes.Nodes.CloseAll | mojo/edk/system/ports/node.cc:225-229 | closing the referenced ports one after the other |
| PortNodes.Nodes.GetReferencedPorts | mojo/edk/system/ports/message_queue.cc:78-83 | collects the ports of all queued messages |
| PortNodes.Nodes.OnUserMessage | mojo/edk/system/ports/node.cc:414-495 | accept the ports, then queue and perhaps forward, or discard and close |
| PortNodes.Nodes.OnPortAccepted | mojo/edk/system/ports/node.cc:497-540 | the handler's new state is that of the step |
| PortNodes.Nodes.OnObserveProxy | mojo/edk/system/ports/node.cc:542-611 | the handler's new state is that of the step, in all branches |
| PortNodes.Nodes.OnObserveProxyAck | mojo/edk/system/ports/node.cc:613-647 | the handler's new state is that of the step, in all branches |
| PortNodes.Nodes.OnObserveClosure | mojo/edk/system/ports/node.cc:649-722 | the handler's new state is that of the step, in all branches |
| PortNodes.Nodes.GetMessage | mojo/edk/system/ports/node.cc:251-292 | outcome and new state are those of the step |
| MessageQueues.FrontIsLeast | mojo/edk/system/ports/message_queue.cc:20-23 | the front of a heap has the lowest number of all |
| MessageQueues.SiftUpStep | mojo/edk/system/ports/message_queue.cc:68-69 | one exchange with the parent moves the only disorder one level up |
| MessageQueues.SiftDownStep | mojo/edk/system/ports/message_queue.cc:55-57 | one exchange with the lower child moves the only disorder one level down |
| MessageQueues.MessageQueue.PushHeap | mojo/edk/system/ports/message_queue.cc:68-69 | restores the heap with the same messages |
| MessageQueues.MessageQueue.PopHeap | mojo/edk/system/ports/message_queue.cc:55-57 | takes out the front and nothing else, and what is left is a heap |
| MessageQueues.MessageQueue.constructor | mojo/edk/system/ports/message_queue.cc:27-31 | an empty queue that wants the given number |
| MessageQueues.MessageQueue.GetNextMessageIf | mojo/edk/system/ports/message_queue.cc:47-60 | a message comes out exactly when the next number is in front and the selector wants it; the queue then wants the following number, and as a map it lost exactly that entry |
| MessageQueues.MessageQueue.AcceptMessage | mojo/edk/system/ports/message_queue.cc:62-76 | the message is added, and the result says whether a next message is there; as a map the queue gained exactly that entry |
| MessageQueues.MessageQueue.NextIsPresent | mojo/edk/system/ports/message_queue.cc:43-45 | HasNextMessage holds if and only if the next number is among those that arrived |
| MessageQueues.MessageQueue.GetReferencedPorts | mojo/edk/system/ports/message_queue.cc:78-83 | names the ports of all queued messages, with their number |
| MessageQueues.PopView | mojo/edk/system/ports/message_queue.cc:47-60 | taking out the front of the heap removes the next number from the map |
| MessageQueues.PushView | mojo/edk/system/ports/message_queue.cc:62-76 | adding a message to the heap adds it to the map |
| MessageQueues.ComesOutInOrder | mojo/edk/system/ports/message_queue.cc:43-76 | for every arrival order mixed with any extractions, what comes out has consecutive numbers and every message that arrived has come out or is still there |
| MessageQueues.Perform | mojo/edk/system/ports/message_queue.cc:43-76 | the heap, run on any such mix, gives out exactly what the map does, and holds what the map holds |
| DataPipes.OffsetsFit | mojo/edk/system/data_pipe_producer_dispatcher.cc:142-145 | no 32-bit sum of an offset and a count wraps if and only if the capacity is at most 2^31 |
| DataPipes.LaidHolds | mojo/edk/system/data_pipe_producer_dispatcher.cc:126-145 | laying bytes round the end of the ring behind what is held keeps that and adds them |
| DataPipes.LiftedHolds | mojo/edk/system/data_pipe_consumer_dispatcher.cc:139-165 | lifting bytes round the end of the ring gives the next bytes of the stream in order |
| DataPipes.InOnePiece | mojo/edk/system/data_pipe_consumer_dispatcher.cc:188-203 | the piece up to the end of the ring is the next part of the stream |
| DataPipes.Conservation | mojo/edk/system/data_pipe_producer_dispatcher.cc:490-500 | room, bytes announced to either end and not yet taken in, and bytes available always make up the capacity, and the offsets are that far apart |
| DataPipes.ClosureComesLast | mojo/edk/system/data_pipe_consumer_dispatcher.cc:477-525 | a consumer that has recorded the closure has or has had every byte the producer ever wrote |
| DataPipes.Interleave | mojo/edk/system/data_pipe_consumer_dispatcher.cc:90-242 | for every sequence of operations of both ends, among them closing, sending an end away, writing it down, giving the move up and arriving, the ends agree and what was read or discarded is a prefix of what was written |
| DataPipes.InterleaveWhileLent | mojo/edk/system/data_pipe_consumer_dispatcher.cc:191-228 | from BeginReadData until EndReadData, over every such sequence, the lent bytes, where they lie and how many they are stay the same |
| DataPipes.Perform | mojo/edk/system/data_pipe_producer_dispatcher.cc:83-224 | one operation of either end keeps the agreement, adds exactly the bytes that it is to add and takes exactly those it is to take; a step of a move does what it is to do; and while bytes are lent, the consumer stays, and so do its offset and what it lent |
| DataPipes.MoveProducer | mojo/edk/system/data_pipe_producer_dispatcher.cc:280-374 | each step of a move of the producer keeps the agreement; what is written down is what the producer knows, and what arrives is what was written down, the recorded closure included |
| DataPipes.MoveConsumer | mojo/edk/system/data_pipe_consumer_dispatcher.cc:298-392 | the same for the consumer; while it lends bytes it does not move |
| DataPipes.MoveConsumerAcross | mojo/edk/system/data_pipe_consumer_dispatcher.cc:298-392 | a consumer that is sent away, written down and arrives has recorded the closure if and only if it had, with the same offset, bytes and element size, whatever the producer does in between, moves included |
| DataPipes.MoveProducerAcross | mojo/edk/system/data_pipe_producer_dispatcher.cc:280-374 | a producer that is sent away, written down and arrives has recorded the closure if and only if it had, with the same offset, room and element size, whatever the consumer does in between, moves included |
| DataPipes.Producer.constructor | mojo/edk/system/data_pipe_producer_dispatcher.cc:60-77 | a new producer has the whole capacity and the element size given |
| DataPipes.Producer.WriteData | mojo/edk/system/data_pipe_producer_dispatcher.cc:89-155 | the result for every case, and exactly the bytes that fit are appended and announced |
| DataPipes.Producer.CopyIn | mojo/edk/system/data_pipe_producer_dispatcher.cc:126-140 | the two copies lay the bytes round the end of the ring |
| DataPipes.Producer.Commit | mojo/edk/system/data_pipe_producer_dispatcher.cc:142-152 | bytes that lie in the ring become part of the stream; offset and room follow, and no sum wraps |
| DataPipes.Producer.BeginWriteData | mojo/edk/system/data_pipe_producer_dispatcher.cc:157-184 | the result for every case, and what is lent is the free piece at the offset |
| DataPipes.Producer.WriteLent | mojo/edk/system/data_pipe_producer_dispatcher.cc:174-184 | writing into lent memory changes no unread byte |
| DataPipes.Producer.EndWriteData | mojo/edk/system/data_pipe_producer_dispatcher.cc:186-224 | commits exactly the first bytes of what was lent, or nothing |
| DataPipes.Producer.UpdateSignalsState | mojo/edk/system/data_pipe_producer_dispatcher.cc:455-509 | the loop takes in exactly the messages that arrived, the "too many bytes" branch is unreachable, and closure is recorded only after the last |
| DataPipes.Producer.BeginTransit | mojo/edk/system/data_pipe_producer_dispatcher.cc:302-308 | a producer may go unless it is going or lends memory |
| DataPipes.Producer.Close | mojo/edk/system/data_pipe_producer_dispatcher.cc:399-414 | closes once, and not in transit |
| DataPipes.Consumer.constructor | mojo/edk/system/data_pipe_consumer_dispatcher.cc:62-78 | a new consumer has nothing to read and the element size given |
| DataPipes.Consumer.ReadData | mojo/edk/system/data_pipe_consumer_dispatcher.cc:90-168 | the result for every case; the caller gets the next unread bytes at the front of its buffer, the rest of which stays, and they count as taken unless it only peeked or asked |
| DataPipes.Consumer.CopyOut | mojo/edk/system/data_pipe_consumer_dispatcher.cc:139-155 | the two copies lift the bytes round the end of the ring |
| DataPipes.Consumer.Consume | mojo/edk/system/data_pipe_consumer_dispatcher.cc:158-165 | moves past bytes and tells the producer; no sum wraps |
| DataPipes.Consumer.BeginReadData | mojo/edk/system/data_pipe_consumer_dispatcher.cc:170-205 | the result for every case, and what is lent is the first unread piece |
| DataPipes.Consumer.LentStays | mojo/edk/system/data_pipe_consumer_dispatcher.cc:191-205 | while bytes are lent, they are the next unread ones |
| DataPipes.Consumer.EndReadData | mojo/edk/system/data_pipe_consumer_dispatcher.cc:207-242 | moves past exactly the bytes named, or none; the check fails exactly for a consumer that was closed while it lent bytes |
| DataPipes.Consumer.UpdateSignalsState | mojo/edk/system/data_pipe_consumer_dispatcher.cc:477-531 | the loop takes in exactly the messages that arrived, the "too many bytes" branch is unreachable, and closure is recorded only after the last |
| DataPipes.Consumer.BeginTransit | mojo/edk/system/data_pipe_consumer_dispatcher.cc:320-326 | a consumer may go unless it is going or lent memory |
| DataPipes.Consumer.CancelTransit | mojo/edk/system/data_pipe_consumer_dispatcher.cc:339-346 | a consumer that stays catches up with what arrived meanwhile |
| DataPipes.Consumer.Close | mojo/edk/system/data_pipe_consumer_dispatcher.cc:418-433 | closes once, and not in transit |
| DataPipes.Create | mojo/edk/system/core.cc:434-486 | the two new ends agree, with the capacity and the element size given |
| DataPipes.LandProducer | mojo/edk/system/data_pipe_producer_dispatcher.cc:310-374 | a producer rebuilt from what was written down, with the old one closed, agrees with the consumer; offset, room, element size and recorded closure are those written down |
| DataPipes.LandConsumer | mojo/edk/system/data_pipe_consumer_dispatcher.cc:328-392 | the same for a consumer, with its offset and count |
| Channels.LittleRoundTrip | mojo/edk/system/channel.h:31-40 | a header field is read back as it was written |
| Channels.ParseStops | mojo/edk/system/channel.cc:288-318 | parsing stops at less than a header, at a size below 8 bytes or above 256 MB (then, and only then, with an error), or at a message that lacks bytes or handles, and nowhere else |
| Channels.HeaderLayout | mojo/edk/system/channel.h:31-40 | where the size and the number of handles are in a header, low bytes first |
| Channels.ParseGoesOn | mojo/edk/system/channel.cc:285-331 | when more arrives, what was parsed stays parsed and parsing goes on with exactly what was left |
| Channels.AnyCutting | mojo/edk/system/channel.cc:285-331 | for every cutting of a stream into reads, messages, rest, handles and verdict are those of one parse of the whole |
| Channels.HintCompletes | mojo/edk/system/channel.cc:298-304 | the hint after a partial message is exactly what is missing of it |
| Channels.ReadBuffer.constructor | mojo/edk/system/channel.cc:180-184 | an empty buffer of the standard size |
| Channels.ReadBuffer.Reserve | mojo/edk/system/channel.cc:199-209 | there is room, what is occupied stays, and the buffer moves only when it must |
| Channels.ReadBuffer.Claim | mojo/edk/system/channel.cc:212-215 | the next bytes become occupied |
| Channels.ReadBuffer.Discard | mojo/edk/system/channel.cc:220-246 | exactly the first bytes go, through reset and shrinking |
| Channels.Reader.constructor | mojo/edk/system/channel.cc:263-265 | nothing read, nothing dispatched |
| Channels.Reader.GetReadBuffer | mojo/edk/system/channel.cc:275-283 | room for as much as the hint says |
| Channels.Reader.GetReadPlatformHandles | mojo/edk/system/channel_posix.cc:126-139 | the next handles in arrival order, or none at all |
| Channels.Reader.OnReadComplete | mojo/edk/system/channel.cc:285-331 | the loop dispatches what one parse gives, the buffer holds exactly the rest, and the verdict and the hint are those of the parse |
| Channels.Reader.Receive | mojo/edk/system/channel_posix.cc:208-233 | after each read, all that was ever dispatched is one parse of all that ever arrived |
| ChannelWriters.ChannelPosix.Write | mojo/edk/system/channel_posix.cc:105-124 | the wire and the queue together are all that was written, in order; writes are turned away if and only if the system has failed; if it goes on taking bytes, a message that meets no queue is sent whole |
| ChannelWriters.ChannelPosix.WriteNoLock | mojo/edk/system/channel_posix.cc:257-289 | for every pattern of short writes, each byte goes out once, in order; the last answer of the system decides: it fails if and only if that is a failure, and if that is to block, the message is queued from its first unsent byte on |
| ChannelWriters.ChannelPosix.FlushOutgoingMessagesNoLock | mojo/edk/system/channel_posix.cc:291-313 | the queue goes out in order and what is left is queued in order, while the system would block; it fails if and only if the system does, and then the wire is a prefix |
| ChannelWriters.ChannelPosix.OnFileCanWriteWithoutBlocking | mojo/edk/system/channel_posix.cc:242-252 | the same; after an error the wire stays as it is; and if the system goes on taking bytes, everything written is on the wire |
| ChannelWriters.ChannelPosix.constructor | mojo/edk/system/channel_posix.cc:81-88 | nothing written, nothing queued |
| ChannelWriters.Use | mojo/edk/system/channel_posix.cc:105-313 | over every sequence of writes and wake-ups, writes are turned away if and only if the system has failed; until then every message is written in order; and if the system goes on taking bytes, all of them are on the wire |
| ChannelWriters.RoundTrip | mojo/edk/system/channel.cc:30-58 | parsing all that was written, with all handles, gives back the messages |
| ChannelWriters.PrefixRoundTrip | mojo/edk/system/channel.cc:285-331 | parsing any prefix of what was written, with any handles, gives a prefix of the payloads and no bad header |
| ChannelWriters.EndToEnd | mojo/edk/system/channel_posix.cc:105-117 | from Write to dispatch: payloads dispatched are a prefix of those written, whatever the short writes, errors and cuttings |
| ChannelWriters.AllArrives | mojo/edk/system/channel.cc:285-331 | when everything went out and came in, the messages are those written and the buffer is empty |
| WaitSets.ExactlyOnePlace | mojo/edk/system/wait_set_dispatcher.cc:73-144 | a dispatcher of the set is armed, or once in the queue, or once among those handed out, and nothing else is anywhere |
| WaitSets.ApplyKeeps | mojo/edk/system/wait_set_dispatcher.cc:73-223 | every operation keeps that |
| WaitSets.EveryRun | mojo/edk/system/wait_set_dispatcher.cc:73-282 | so does every sequence of operations and wake-ups |
| WaitSets.GetReadyKeeps | mojo/edk/system/wait_set_dispatcher.cc:146-223 | so does a call that first waits again for what the last one handed out |
| WaitSets.RemovedKeeps | mojo/edk/system/wait_set_dispatcher.cc:111-144 | a dispatcher that was removed is in no place |
| WaitSets.MovesForward | mojo/edk/system/wait_set_dispatcher.cc:146-223 | each operation reports what is due for a queued dispatcher (its result and its context), or reports nothing of it and brings it forward, each call by at least one place |
| WaitSets.NobodyStarves | mojo/edk/system/wait_set_dispatcher.cc:146-223 | a dispatcher at position k that is not removed is handed out within k + 1 calls, even at count 1, whatever happens in between; and what is handed out of it next is the result it was woken with and the context it was added with |
| WaitSets.TakeReaches | mojo/edk/system/wait_set_dispatcher.cc:190-216 | one call hands out the first `count` of the queue in order, each with its result and its context, and moves the others up by that many |
| WaitSets.GetGives | mojo/edk/system/wait_set_dispatcher.cc:146-223 | what one call hands out, in order, with results and contexts, and what is left of the queue, the set, those waited for and those to be asked again |
| WaitSets.HandedOutStays | mojo/edk/system/wait_set_dispatcher.cc:207-214 | one reported as cancelled has left the set; any other is in it, among those that the next call asks again |
| WaitSets.AskedAgain | mojo/edk/system/wait_set_dispatcher.cc:169-188 | a dispatcher that was handed out is asked again by the next call: it is reported or queued with what it says, waited for, or out of the set if it was closed |
| WaitSets.WokenIsHandedOut | mojo/edk/system/wait_set_dispatcher.cc:274-282 | over every run, one that calls back is next handed out with the result it was called with and its context |
| WaitSets.AddedIsHandedOut | mojo/edk/system/wait_set_dispatcher.cc:90-96 | over every run, one that already satisfies its signals when it is added is next handed out with success, one that never can with failure, each with its context |
| WaitSets.HandedOutAsAdded | mojo/edk/system/wait_set_dispatcher.cc:97-106 | whenever a dispatcher is handed out, it is with the context it was added with, over every run in which it has not left the set since |
| WaitSets.OthersStay | mojo/edk/system/wait_set_dispatcher.cc:73-144 | adding, removing or waking one dispatcher leaves every other where and as it is |
| WaitSets.WaitSetDispatcher.constructor | mojo/edk/system/wait_set_dispatcher.cc:39-40 | an empty set, which is a dispatcher itself |
| WaitSets.WaitSetDispatcher.AddWaitingDispatcher | mojo/edk/system/wait_set_dispatcher.cc:73-109 | result and new state for every answer of the dispatcher; a set never waits for itself |
| WaitSets.WaitSetDispatcher.RemoveWaitingDispatcher | mojo/edk/system/wait_set_dispatcher.cc:111-144 | the dispatcher is taken out of every place |
| WaitSets.WaitSetDispatcher.GetReadyDispatchers | mojo/edk/system/wait_set_dispatcher.cc:146-223 | what is handed out and what stays, for every count and every answer |
| WaitSets.WaitSetDispatcher.Requeue | mojo/edk/system/wait_set_dispatcher.cc:161-188 | the loop that waits again for what was handed out |
| WaitSets.WaitSetDispatcher.TakeWoken | mojo/edk/system/wait_set_dispatcher.cc:190-216 | the loop that hands out from the front of the queue |
| WaitSets.WaitSetDispatcher.Awake | mojo/edk/system/wait_set_dispatcher.cc:274-282 | a woken dispatcher leaves the armed ones and joins the queue at its end |
| WaitSets.WaitSetDispatcher.Close | mojo/edk/system/wait_set_dispatcher.cc:46-71 | a closed set waits for nothing |
| HandleTables.CallEnds | mojo/edk/system/core.cc:404-417 | a successful call removes exactly its handles; a failed one leaves them present and not busy and touches no other |
| HandleTables.CancelUndoes | mojo/edk/system/handle_table.cc:108-116 | cancelling undoes the marking |
| HandleTables.BeginHolds | mojo/edk/system/handle_table.cc:74-96 | a call that starts holds its handles alone |
| HandleTables.EndHolds | mojo/edk/system/handle_table.cc:98-116 | a call that ends leaves the other calls what they hold |
| HandleTables.HandleTable.constructor | mojo/edk/system/handle_table.cc:14-14 | an empty table |
| HandleTables.HandleTable.AddDispatcher | mojo/edk/system/handle_table.cc:18-28 | the handle is new, valid and the next number in turn, or the numbers have run out |
| HandleTables.HandleTable.GetAndRemoveDispatcher | mojo/edk/system/handle_table.cc:60-72 | a busy handle is not removed |
| HandleTables.HandleTable.BeginTransit | mojo/edk/system/handle_table.cc:74-96 | succeeds if and only if all handles are present, free, distinct and willing; else says why and has marked exactly those before the first that cannot go |
| HandleTables.HandleTable.OneMoreMayGo | mojo/edk/system/handle_table.cc:79-94 | after the first handles were taken, the next one decides whether all may go |
| HandleTables.HandleTable.CompleteTransitAndClose | mojo/edk/system/handle_table.cc:98-106 | its assertion holds for each handle, and exactly the listed handles go |
| HandleTables.HandleTable.CancelTransit | mojo/edk/system/handle_table.cc:108-116 | its assertion holds for each handle, and exactly the listed handles are free again |
| HandleTables.Core.constructor | mojo/edk/system/core.cc:63-63 | no handles, no calls |
| HandleTables.Core.AddDispatcher | mojo/edk/system/core.cc:103-106 | the next handle in turn; keeps every busy handle with its one call |
| HandleTables.Core.Close | mojo/edk/system/core.cc:217-227 | removes a handle that is present and not busy, also between the steps of other calls |
| HandleTables.Core.BeginWriteMessage | mojo/edk/system/core.cc:371-404 | the call starts exactly when it may; otherwise the result names the reason, for handles that of the first one that cannot go, and the table is as it was, partial marking undone |
| HandleTables.Core.EndWriteMessage | mojo/edk/system/core.cc:404-417 | the call ends with its handles gone or free, and the others' calls as they were |

## Left out

Ports:

- LostConnectionToNode (mojo/edk/system/ports/node.cc:361-412) cuts streams short by design, and
  is not a step of the model.
- Uninitialized ports, user data, GetStatus, CanShutdownCleanly and the selector of GetMessageIf
  are not in the ports model; the selector is in the message queue.
- A message to a port on the same node is sent and then delivered as its own step; the program may
  deliver it at once. Delivery at once is one of the orders the model allows.
- Port names are drawn from a counter instead of 128 random bits.
- Fewer than 0xFFFFFFFF messages are sent in each direction of a pipe: a Send beyond that changes
  nothing, because the program uses that number to mean "announce again".
- After a failed SendMessage the program leaves the sequence number written in the caller's
  message; messages that were not sent are not part of the state.
- PortNodes.Nodes.GetReferencedPorts: lists ports in the order of message numbers, where the
  program lists them in the order of its heap; the heap order is in MessageQueue.
- The error branch of ForwardMessages that drops out of the loop is a failed check in the model;
  NeverCrashes shows that it is never reached.
- Removal of every proxy when several transfers overlap is not claimed: OnObserveProxy drops an
  announcement whose target is gone (mojo/edk/system/ports/node.cc:548-551).
- PortCollapse.DeliveryEnds: is stated for ports that travel over pipe sides that were never
  transferred themselves; nothing is claimed of ends that travel over a pipe that is itself moved.
- Locks, threads and reference counts: each call and each handler is one step.

Message queue:

- The exact comparison order of std::push_heap and std::pop_heap: PushHeap and PopHeap exchange
  elements along the same path.

Data pipe:

- Taking in control messages and being notified of them is one step; a notification that races
  with a transfer is not modelled.
- DataPipes.Producer.constructor: takes a capacity of at most 2^31, which the program does not check;
  OffsetsFit shows that beyond it some 32-bit sum wraps.
- DataPipes.Create: takes such a capacity, and an element size that is not 0, by which the program
  would divide.
- DataPipes.LandProducer: closing the old producer and rebuilding it elsewhere are one step; in
  between nobody can operate it. The same holds of LandConsumer.
- DataPipes.Producer.WriteData: all-or-none is only compared with the capacity, as in the program,
  so a smaller write may still be partial.
- Signals and awakables, mapping failures, element alignment when the capacity is not a multiple
  of the element size, and control messages of a wrong kind.
- EndReadData and EndWriteData drop their lock while they notify the other end; here that is one
  step.

Channel:

- Handles on the writing side, which the program clears before it queues a message again; only
  bytes are followed there.
- The loop of OnFileCanReadWithoutBlocking: it repeats Receive, whose contract holds after each
  read, with any hint.
- A delegate that goes away, shutdown, and channel_win.cc.

Wait set:

- Each operation is one step; the awakable list of the set itself, and signals.
- Whether a dispatcher calls back, already satisfies the signals, or can never do so is an answer
  given from outside.

Handle table:

- HandleTables.HandleTable.AddDispatcher: takes a dispatcher that is not in the table yet, which the
  program does not check.
- HandleTables.Core.AddDispatcher: the same.
- AddDispatchersFromTransit, numbers near the 32-bit limit of the counter apart from AddDispatcher
  itself, and the dispatchers' own work in transit; a dispatcher that refuses to go is an input.

NodeController, NodeChannel, bootstrap, shared buffers, platform handles, waiters and mapping
tables are not part of this model.
