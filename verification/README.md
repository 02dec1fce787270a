# Verified model of the mesh stack

A model of the mesh protocol stack this repository runs on a board and in the simulator, from the radio
channel up to `rhmesh::Node`, with proofs that hold for every network, every run and every pattern of loss.

The model has two halves that are proved against each other.

**The protocol, as a state machine over a network.** `Protocol.dfy` is one node: its routing table, its
duplicate filter, the hop send, the discovery and the application call under way, and what each radio event
makes of them. `Network.dfy` puts any number of nodes on a lossy channel with one receive queue per node; a run
is any sequence of node steps and losses from the moment all nodes are switched on. History that no decision
reads (an unbounded number behind every 8-bit id, a ledger of hop sends with the reason for each) makes
statements such as "this very send was accepted" expressible although ids wrap. On top of it:

| file | what is proved of every reachable state |
|---|---|
| `HopSafety.dfy` | a hop send is accepted once at most; what a hop ACK proves |
| `Reach.dfy`, `HopExact.dfy` | how runs are built; when a hop ACK can be trusted, exactly |
| `Learning.dfy`, `Ledger.dfy`, `EndToEnd.dfy` | the invariants: where routes come from, why each message was sent, that it descends from one its source sent |
| `Descent.dfy` | at most one handler call per `Node::send`; hop counts are exact and bounded |
| `Results.dfy`, `DeliveredTrust.dfy` | what `Delivered` and `NoRoute` mean, and when `Delivered` can be trusted |
| `Aliasing.dfy` | a run in which neither ACK can |
| `Flood.dfy`, `TwoWays.dfy` | discovery requests carry the path they came; floods die out; who forwards one twice, exactly |
| `Paths.dfy`, `Tree.dfy` | on a network without cycles all routes are right and nothing loops |
| `SmallWorld.dfy` | with ten addresses nothing is evicted; when a full table keeps a route, and the node sought answers, exactly |
| `Scenes.dfy` | runs in which discovery goes wrong: on a cycle, and with a late reply on a tree |
| `Scraping.dfy` | what passing messages teach: routes gained from requests and responses, lost by failure notices, exactly |
| `Guarantees.dfy` | next hops are neighbours, lengths never wrap, forwarding and failure repair |
| `Delivery.dfy` | and that a send can be delivered at all: a run over three nodes from switching on to Delivered |

**The code, in its own blocking form.** `RoutingTable.dfy` is the table as the array the code keeps,
`RoutingTableLaws.dfy` what that array means. `Radio.dfy` is the driver and the clock as one node sees them: the
future arrivals and delays are an arbitrary script, and time passes in nothing but polls, frames and handler calls,
so that code which reports that nothing came must have listened. `MeshStack.dfy` is RHMesh with its base classes RHRouter
and RHReliableDatagram as one object: the retry loop, the discovery loop, the routing with its nested failure
send, the shared message buffers, all edited in place. `Node.dfy` is `rhmesh::Node`. Every call is proved to
take exactly steps of the state machine: the frames it sends and takes are those of the events it enters, its
fields are those of the machine's state, and it returns within a closed bound. `StackSteps.dfy` holds the
lemmas that cut the calls into steps. `Ether.dfy` is the simulator's channel and driver, `Wire.dfy` the byte
formats and lengths, `Clock.dfy` the 32-bit millisecond clock.

Everything outside a node (arrivals, delays, random numbers, loss, which handler runs and for how long) is an
input or a free choice.

## Where the code differs from its documentation

- README.md:119 says every node forwards a route request once. A router forwards it once per path it comes
  along (`Flood.OncePerPath`), so once on a network without cycles (`Flood.ForestForwardsOnce`); in general a
  node may forward it twice exactly when two ways lead to it (`TwoWays.ForwardsTwiceExactly`). In
  `Scenes.CyclesMayLoop` two nodes do, and end up with routes through each other.
- RHMesh.cpp:216 says the node sought is certain to have a route back. That holds while at most ten addresses
  are in use (`SmallWorld.ResponseIsSent`). In general a router has it exactly when learning the listed nodes
  evicts no more routes than stand before the requester's (`SmallWorld.AnswersExactly`); one listed node can be
  enough to lose it (`SmallWorld.OneListedNodeIsEnough`).
- A discovery takes any route response for its own. On a network without cycles that is the only thing that
  can go wrong: routing is right in a run exactly if no discovery took a reply from the wrong side
  (`Tree.TreeRoutingExact`), and `Scenes.LateReplyMisroutes` is a run in which one does.
- `deleteRouteTo` answers "found" for a stale entry too: `RoutingTableLaws.DeleteAnswer` says when its answer
  is right.
- A hop ACK and an end-to-end ACK name an 8-bit number only. `HopExact.TrustExactly` says when a true result
  means that this very send was accepted, as a condition on the state in which it is handed over, and
  `DeliveredTrust.DeliveredIsTrusted` when Delivered means that this very send was handled. In
  `Aliasing.DeliveredInVain` both are false.
- The retry loop never ends with a retry limit of 255 (`StackSteps.RetryLoopRounds`), and the hop timeout
  overflows its 16 bits above 32832 ms (`StackSteps.JitterExact`): the objects here are built below both limits.

## Model

| member | source | states |
|---|---|---|
| HopSafety.AtMostOncePerHop | extras/sim-radiohead/RHReliableDatagram.cpp:128-177 | in any run, with any loss and although ids wrap, a node accepts a given hop send in one step at most, and only if it was addressed to it |
| HopSafety.HopInvAlways | extras/sim-radiohead/RHReliableDatagram.cpp:48-177 | every reachable state keeps the hop layer's invariant: what waits in a queue was sent, in the order of the sends, and is no older than what was accepted; every ACK is founded on an accepted send with the same id |
| HopSafety.HandedMeansAlias | extras/sim-radiohead/RHReliableDatagram.cpp:93-102 | a true result of a unicast hop send proves that the next hop had accepted a send with the same id, no later than this one |
| HopSafety.HandedMeansAccepted | extras/sim-radiohead/RHReliableDatagram.cpp:93-102 | for the first 255 hop sends of a node it proves that this very send was accepted |
| HopExact.TrustExactly | extras/sim-radiohead/RHReliableDatagram.cpp:48-125 | a true result of a send under way will mean that this very send was accepted, however the run goes on, if and only if it has been already or nothing older with the same id is left between the two nodes: not in the filter, not on the way there, not on an ACK on its way back |
| HopExact.UnaliasedIsTrusted | extras/sim-radiohead/RHReliableDatagram.cpp:48-177 | the same condition can be checked in any reachable state for a send yet to come, up to 255 ahead, and is enough |
| Aliasing.DeliveredInVain | extras/sim-radiohead/RHReliableDatagram.cpp:93-102 | a run in which both ACKs lie: a node is told that hop send 258 was accepted and that its 257th Node::send was delivered, and neither ever reached the other node, whose handler has not been called |
| Descent.EndToEndAtMostOnce | src/rhmesh/Node.cpp:26-102 | in any state of any run, whatever the routing tables say, two handler calls anywhere in the network never come from the same send |
| Descent.DataIsOurs | src/rhmesh/Node.cpp:26-52 | DATA that reaches a node is that of one send of its source, unchanged but for the hop count |
| Descent.HandsOverOnce | src/rhmesh/Node.cpp:54-70 | one send gives its DATA to the hop layer at most once, however often discovery is retried |
| Descent.OneRelayEach | extras/sim-radiohead/RHRouter.cpp:326-335 | a node passes a given hop send on at most once |
| Descent.HopsCountForwards | extras/sim-radiohead/RHRouter.cpp:326-335 | the hops field of a unicast message is the number of its forwards and never exceeds the limit, and each hand-over went to the node that made the next |
| Descent.HandOversAreBounded | extras/sim-radiohead/RHRouter.cpp:311-335 | with any routing tables, cyclic ones too, one message is handed to the hop layer at most 31 times in the whole network |
| Descent.HandlerHopsExact | src/rhmesh/Node.cpp:97-100 | the hop count given to the handler is the number of nodes that forwarded the message |
| EndToEnd.CustodyAlways | extras/sim-radiohead/RHMesh.cpp:122-232 | every reachable state keeps the invariant that every message descends from the one its cause names, every route leads to a neighbour, and every handled message was sent |
| Results.DeliveredWasHandled | src/rhmesh/Node.cpp:46-51 | Delivered proves that the destination handled the bytes of a send to it with the same number, this one or an earlier one, and of this very send for the first 256 sends of a node |
| DeliveredTrust.DeliveredIsTrusted | src/rhmesh/Node.cpp:26-52 | Delivered proves it for any send, if at some time before no message still travelling was about an older send with the same number |
| DeliveredTrust.AnyAckMayConfirm | src/rhmesh/Node.cpp:46-51 | whatever ACK in its queue a waiting send would take for its own, old or not, the run can go on so that the send returns Delivered because of it |
| Delivery.DeliveryHappens | src/rhmesh/Node.cpp:26-102 | on a line of any three nodes, whatever their memory held, there is a run in which a first send to the far end discovers its route, is forwarded, is handled once with its bytes and one hop, and returns Delivered |
| Results.NoRouteNeverSent | src/rhmesh/Node.cpp:35-44 | when a send returns NoRoute its DATA has not been handed to the hop layer and never will be |
| Results.EndAckShape | src/rhmesh/Node.cpp:91-95 | an end-to-end ACK descends from the destination of a DATA with that number, which has passed it to its handler or is about to |
| Flood.RequestCarriesItsPath | extras/sim-radiohead/RHMesh.cpp:183-228 | the list in a discovery request is, after the source, a duplicate-free link path ending at the transmitter, at most 30 long, without the node sought |
| Flood.OncePerPath | extras/sim-radiohead/RHMesh.cpp:220-227 | a flood is rebroadcast at most once per path: two requests of one discovery with the same list are the same send |
| Flood.ForwardsOnce | extras/sim-radiohead/RHMesh.cpp:220-227 | a node to which at most one simple path leads from the source forwards a discovery once |
| Flood.ForestForwardsOnce | extras/sim-radiohead/RHMesh.cpp:196-227 | so does every node of a network without cycles, in every run |
| TwoWays.ForwardsTwiceExactly | extras/sim-radiohead/RHMesh.cpp:196-227 | for any links: there is a run in which a node sends one discovery on twice if and only if two different simple paths of at most 30 links lead to it from the source without passing the node sought |
| Flood.FloodsDieOut | extras/sim-radiohead/RHMesh.cpp:191-228 | in every run the requests one discovery causes are at most as many as there are duplicate-free lists of at most 30 nodes |
| Flood.ListsBound | extras/sim-radiohead/RHMesh.cpp:220-227 | and how many those are |
| Tree.TreeRoutingExact | extras/sim-radiohead/RHMesh.cpp:58-110 | on a network without cycles, with any loss and eviction, every table entry of every state of a run is the first step of the one path to its destination, and every unicast message is on its path, if and only if no discovery took a reply that came from the wrong side |
| Tree.TreeRouting | extras/sim-radiohead/RHMesh.cpp:58-110 | in particular in every run whose replies match |
| Tree.RouteNears | extras/sim-radiohead/RHRouter.cpp:224-240 | following such a route brings a message exactly one hop nearer |
| Tree.NoNodeTwice | extras/sim-radiohead/RHRouter.cpp:311-335 | then a unicast message never visits a node twice |
| Tree.ResponsePath | extras/sim-radiohead/RHMesh.cpp:212-218 | a route response lists exactly the nodes between its destination and its source, in order |
| Tree.ResponseTeaches | extras/sim-radiohead/RHMesh.cpp:97-110 | what a node scrapes from a passing response, the nodes listed beyond itself, are right routes through the node it came from |
| Tree.RequestTeaches | extras/sim-radiohead/RHMesh.cpp:202-210 | a request teaches right routes back to its source and to every listed node |
| Scenes.LateReplyMisroutes | extras/sim-radiohead/RHMesh.cpp:74-80 | a run on the tree 3-2-1-5 that needs the condition: 1 seeks 3, stops waiting, seeks 5, takes the late reply of 3 for it, and routes messages for 5 to 2 |
| SmallWorld.SmallWorldAlways | extras/sim-radiohead/RHRouter.cpp:77-88 | while at most ten addresses are in use, every table of every reachable state holds only those |
| SmallWorld.NothingEvicted | extras/sim-radiohead/RHRouter.cpp:49-89 | such a table takes in any of them without losing another route |
| SmallWorld.RoutesAreKept | extras/sim-radiohead/RHRouter.cpp:49-89 | so in every step of every run a route disappears only by a failure notice or a failed hand-over for its destination |
| SmallWorld.ResponseIsSent | extras/sim-radiohead/RHMesh.cpp:212-218 | in such a network the node sought always has the route to the requester when it answers, and does answer |
| SmallWorld.AnswersExactly | extras/sim-radiohead/RHMesh.cpp:202-218 | in a network of any size, in every run, the node sought answers a request if and only if it is no router or learning the listed nodes evicts no more routes than stand before the requester's |
| SmallWorld.SurvivesExactly | extras/sim-radiohead/RHMesh.cpp:202-210 | for every table and every list that does not name it, the route in slot p is kept if and only if learning the list evicts at most p routes |
| SmallWorld.OneListedNodeIsEnough | extras/sim-radiohead/RHMesh.cpp:202-218 | one new listed node loses the route back when the table is full and the requester has its oldest slot |
| Scenes.CyclesMayLoop | extras/sim-radiohead/RHMesh.cpp:196-210 | a run on the cycle 1-2-3-4 in which later copies of a request overwrite the first routes: 2 and 3 point at each other for 1, and each has rebroadcast the request twice |
| Guarantees.NextHopsAreNeighbours | extras/sim-radiohead/RHMesh.cpp:202-210 | in any topology every next hop in every table is a node this one has a link from |
| Guarantees.RequestsOnTheAir | extras/sim-radiohead/RHMesh.cpp:50-58 | every request in any receive queue carries its path |
| Guarantees.LengthsAreSound | src/rhmesh/Node.cpp:26-33 | in every run whose payloads were let through, every message fits an 8-bit length and is long enough for all header subtractions |
| Guarantees.GivingUpRepairs | extras/sim-radiohead/RHMesh.cpp:122-143 | a node that gives up a message keeps no route to where it was going; if it was forwarding, its next message is exactly the route failure for the source, back over the hop it came from; of its own messages and of a failing notice nobody is told |
| Guarantees.RefusingRepairs | extras/sim-radiohead/RHMesh.cpp:122-143 | the same when a node is to forward a message and has no route: nothing is handed over, and the source is told |
| Guarantees.ForwardsExactly | extras/sim-radiohead/RHRouter.cpp:311-335 | in every run an application message for another node is passed on along the route with one hop more exactly by a router with hops left and a route; without a route its source is told; otherwise it ends there |
| RoutingTableLaws.TableIsMap | extras/sim-radiohead/RHRouter.cpp:49-99 | from any memory contents, through any operations, an entry behind another for the same destination is Invalid: one live route per destination, ten at most |
| RoutingTableLaws.FindAfterAdd | extras/sim-radiohead/RHRouter.cpp:49-99 | addRouteTo then getRouteTo agree, and another destination changes only by losing slot 0 of a full table |
| RoutingTableLaws.FindAfterDelete | extras/sim-radiohead/RHRouter.cpp:143-182 | deleteRouteTo leaves no route to the destination and every other as it was |
| RoutingTableLaws.DeleteAnswer | extras/sim-radiohead/RHRouter.cpp:170-182 | deleteRouteTo's answer means that a live route was deleted if and only if the first slot naming the destination is live |
| RoutingTableLaws.DeleteAnswerCounterexample | extras/sim-radiohead/RHRouter.cpp:170-182 | a zeroed table answers "found" for address 0 |
| RoutingTableLaws.FifoOrder | extras/sim-radiohead/RHRouter.cpp:53-88 | from a zeroed table, adding live routes and never clearing, the live slots are a prefix in insertion order: updates keep their place, eviction and retiring take the oldest |
| RoutingTableLaws.FifoNeedsNoClear | extras/sim-radiohead/RHRouter.cpp:192-197 | after clearRoutingTable the order is lost |
| RoutingTableLaws.SmallWorldNeverEvicts | extras/sim-radiohead/RHRouter.cpp:77-88 | with at most ten addresses in use addRouteTo evicts nothing |
| RoutingTable.Table.constructor | extras/sim-radiohead/RHRouter.cpp:39-47 | a new table has no live route, whatever the memory held |
| RoutingTable.Table.AddRouteTo | extras/sim-radiohead/RHRouter.cpp:49-89 | the three loops over the slots: update, first Invalid slot, or evict slot 0 |
| RoutingTable.Table.GetRouteTo | extras/sim-radiohead/RHRouter.cpp:92-99 | the first live slot for the destination |
| RoutingTable.Table.DeleteRoute | extras/sim-radiohead/RHRouter.cpp:143-149 | the shift in place, with the last slot left behind as Invalid |
| RoutingTable.Table.DeleteRouteTo | extras/sim-radiohead/RHRouter.cpp:170-182 | deletes the first slot naming the destination, and answers whether one, live or stale, did |
| RoutingTable.Table.RetireOldestRoute | extras/sim-radiohead/RHRouter.cpp:185-189 | deletes slot 0 |
| RoutingTable.Table.ClearRoutingTable | extras/sim-radiohead/RHRouter.cpp:192-197 | makes every slot Invalid and keeps its address |
| MeshStack.Mesh.HopSendtoWait | extras/sim-radiohead/RHReliableDatagram.cpp:48-125 | takes exactly machine steps; true once the fitting ACK is read, false only after retries + 1 full timeouts of listening in which everything that arrived was read and nothing was that ACK; each retransmission goes out a full timeout after the one before, with identical bytes and id and marked as a retry, and is counted; returns within a closed bound |
| MeshStack.Mesh.AwaitAck | extras/sim-radiohead/RHReliableDatagram.cpp:77-117 | the wait for one try's ACK: answers repeats, ignores the rest, true exactly if the last packet read is the fitting ACK; false only after the whole timeout, with everything that arrived read and no fitting ACK among it; ends within twice the timeout and one poll |
| MeshStack.Mesh.WhileWaiting | extras/sim-radiohead/RHReliableDatagram.cpp:88-111 | recognises our ACK if and only if sender, addressee, flag and id fit; acknowledges a repeat and nothing else |
| MeshStack.Mesh.HopRecvfromAck | extras/sim-radiohead/RHReliableDatagram.cpp:128-177 | acknowledges a message if and only if it is addressed to this node, never an ACK, and hands out what arrived exactly if it is new |
| MeshStack.Mesh.Acknowledge | extras/sim-radiohead/RHReliableDatagram.cpp:205-217 | one ACK frame with the id it answers |
| MeshStack.Mesh.RouterRoute | extras/sim-radiohead/RHRouter.cpp:224-240 | NO_ROUTE if and only if there is no route, and then nothing is transmitted; otherwise the hop send's result |
| MeshStack.Mesh.RouterSendtoWait | extras/sim-radiohead/RHRouter.cpp:207-221 | a new message with no hops in the source's name, and a table without the destination if it could not be handed over |
| MeshStack.Mesh.RouterRecvfromAck | extras/sim-radiohead/RHRouter.cpp:252-340 | hands out what arrived exactly if it is new and for this node; forwards the rest within the hop limit, in place, or drops it |
| MeshStack.Mesh.Route | extras/sim-radiohead/RHMesh.cpp:122-143 | the table afterwards: unchanged, or without the destination and with a route to the source of a proxied message; the nested failure send ends, and the whole returns within two hop sends |
| MeshStack.Mesh.PeekAtMessage | extras/sim-radiohead/RHMesh.cpp:91-118 | in place: forgets the lost destination of a failure notice and no other route; with room in the table, a response leaves routes through the node it came from to exactly its responder and the nodes listed beyond this one |
| Scraping.HeedsFailure | extras/sim-radiohead/RHMesh.cpp:112-117 | a failure notice takes away the route to the lost node and no other |
| Scraping.FailureIsHeeded | extras/sim-radiohead/RHMesh.cpp:112-117 | in every run, whoever takes a failure notice, passing it on or not, has no route to the lost node afterwards, and the node it is for keeps all its other routes |
| Scraping.ScrapesResponse | extras/sim-radiohead/RHMesh.cpp:97-110 | with room in the table, exactly the responder and all nodes listed after this one are reached through the node the response came from, and every other route is as before |
| Scraping.ResponseIsScraped | extras/sim-radiohead/RHMesh.cpp:97-110 | the same for every such step of every run |
| Scraping.ReplyIsUsed | extras/sim-radiohead/RHMesh.cpp:74-80 | in every run the reply that ends a discovery leaves a route through its transmitter, and the pending message goes out along it |
| Scraping.RequestIsScraped | extras/sim-radiohead/RHMesh.cpp:202-210 | in every run, with room in the table, a request teaches its source, and a router all listed nodes too, through the node it came from, and changes no other route |
| Scraping.AlwaysRoom | extras/sim-radiohead/RHRouter.cpp:77-88 | while at most ten addresses are in use there is always that room |
| Scraping.LearnsExactly | extras/sim-radiohead/RHMesh.cpp:108-110 | for every table and list, a listed node is known afterwards if and only if what follows its last mention evicts no more routes than stand before its own |
| MeshStack.LearnBeyond | extras/sim-radiohead/RHMesh.cpp:103-110 | the two loops: find this node in the list, learn what follows |
| MeshStack.Mentions | extras/sim-radiohead/RHMesh.cpp:196-199 | the loop that recognises a request that has been here |
| MeshStack.Mesh.DoArp | extras/sim-radiohead/RHMesh.cpp:50-87 | broadcasts one request; success means that a reply came and leaves the route through the node it came from; failure only after listening for 4000 ms, with everything that arrived read and no new reply to this node among it; bounded in time |
| MeshStack.Mesh.SendtoWait | extras/sim-radiohead/RHMesh.cpp:30-47 | INVALID_LENGTH exactly for what is too long, with nothing done; after a successful discovery the router always finds the route; NO_ROUTE means that there was none, a request went out and no reply came while this node listened; UNABLE_TO_DELIVER leaves no route and comes only after all tries of a hop send |
| MeshStack.Mesh.RecvfromAck | extras/sim-radiohead/RHMesh.cpp:154-232 | hands out what arrived exactly if it is a new application message for this node, and answers or rebroadcasts route requests as the machine does |
| MeshStack.Mesh.AnswerRequest | extras/sim-radiohead/RHMesh.cpp:183-229 | the discovery request branch |
| MeshStack.Mesh.RecvfromAckTimeout | extras/sim-radiohead/RHMesh.cpp:235-249 | returns the first new application message, or nothing only after listening all the time, with everything that arrived read and none among it; within the timeout, a poll and one receive |
| StackSteps.NoRouteLeft | extras/sim-radiohead/RHMesh.cpp:126-141 | whatever becomes of the notice, no route is left to a destination that could not be reached |
| StackSteps.JitterBound | extras/sim-radiohead/RHReliableDatagram.cpp:80-86 | a try waits between once and twice the hop timeout |
| StackSteps.JitterExact | extras/sim-radiohead/RHReliableDatagram.cpp:80-86 | the 16-bit timeout overflows for no random number if and only if the hop timeout is at most 32832 |
| StackSteps.RetryLoopRounds | extras/sim-radiohead/RHReliableDatagram.cpp:52-53 | the retry loop with its 8-bit counter makes exactly one round more than the retry limit, and endlessly many with a limit of 255 |
| NodeStack.Node.Send | src/rhmesh/Node.cpp:26-52 | BadAddress and TooLong exactly when the arguments are bad, with nothing transmitted; Delivered means a matching end-to-end ACK came in, every other result that none did; HopFailed leaves no route and comes only after all tries; NoRoute only after discoveries as often as they should be; bounded in time |
| NodeStack.Node.SendRouted | src/rhmesh/Node.cpp:54-70 | NO_ROUTE only after the route timeout and with the send untouched; until then a discovery at least once a cycle, at most one every 8000 ms, and only one without a route timeout; ACKs that come meanwhile confirm nothing; bounded in time across clock rollover |
| NodeStack.Node.Listen | src/rhmesh/Node.cpp:61-66 | listens until there is a route or one of the two times is over, and no shorter; ends by the route timeout and one slice, whatever arrives |
| NodeStack.Node.HandleIncoming | src/rhmesh/Node.cpp:74-102 | one handler call per DATA, with its source, its bytes and its hop count, although the ACK sent before may discover, forward and report failures; nothing only if no new application message for this node arrived until the timeout; bounded in time |
| NodeStack.Node.AwaitEndAck | src/rhmesh/Node.cpp:46-51 | true if and only if the awaited ACK came in, false only after the ACK timeout |
| NodeStack.Node.Poll | src/rhmesh/Node.cpp:72 | true exactly if a new application message came, and DATA is handed to the handler once; false only when none came until the timeout, bounded in time |
| NodeStack.Node.NextHopTo | src/rhmesh/Node.cpp:110-115 | the next hop of the Valid route to the destination, if there is one |
| Radio.Driver.WaitAvailableTimeout | extras/sim-radiohead/RHGenericDriver.cpp:43-57 | true exactly if a packet is there; false only once the timeout has passed in polls none of which brought a packet, and at most one poll later, across clock rollover |
| Clock.SinceIsElapsed | extras/sim-radiohead/RHGenericDriver.cpp:45-46 | the unsigned difference is the elapsed time for anything below one rollover |
| Clock.TimeLeftIsRight | extras/sim-radiohead/RHMesh.cpp:66-68 | the signed time left is right and positive exactly before the deadline |
| Clock.ALongStallHidesTheDeadline | extras/sim-radiohead/RHMesh.cpp:66-68 | a stall of one whole rollover makes a passed deadline look untouched |
| Wire.Layout | extras/sim-radiohead/RHRouter.h:139-146 | every field of every message stands at its octet of the nested headers |
| Wire.RoundTrip | extras/sim-radiohead/RHRouter.cpp:207-221 | decoding inverts encoding through the three headers, and what decodes has one encoding |
| Wire.ForwardsChangeHopsOnly | extras/sim-radiohead/RHRouter.cpp:326-335 | any number of forwards within the limit changes the hops field and nothing else |
| Wire.LengthsDoNotWrap | extras/sim-radiohead/RHMesh.cpp:102 | no 8-bit length subtraction wraps, and both places that read a route list read the one encoded |
| Wire.MakeResponse | extras/sim-radiohead/RHMesh.cpp:217 | changing the type byte in place turns a request into its response |
| Wire.AddSelf | extras/sim-radiohead/RHMesh.cpp:223-224 | writing behind the list in place yields the request with this node added |
| Wire.PayloadLimitExact | src/rhmesh/Node.cpp:104-108 | for every driver limit from 8 up, a payload is within maxPayload() if and only if it passes every later check without wrapping and fits every buffer |
| Wire.PayloadLimitWraps | src/rhmesh/Node.cpp:104-108 | for a smaller driver limit the 8-bit result wraps and lets too much through |
| Ether.LinksAre | src/rhmesh/sim/SimEther.cpp:31-50 | link() joins two nodes, unlink() parts them, in both directions and for no other pair |
| Ether.LinkQuality | src/rhmesh/sim/SimEther.cpp:31-39 | a link just made drops nothing, relinking changes the signal strength and keeps the drop rate, and other links stay as they are |
| Ether.SimEther.Transmit | src/rhmesh/sim/SimEther.cpp:65-92 | every powered node in reach gets the frame behind what it had queued, unless its queue is full or a lossy link drops it, and nobody else gets anything; that is the network's transmission step |
| Ether.SimEther.Pop | src/rhmesh/sim/SimEther.cpp:94-109 | the first queued frame that passes the header filter; the ones before it are gone |
| Ether.PoppingLoses | src/rhmesh/sim/SimEther.cpp:98-107 | discarding them is that many loss steps of the network |
| Ether.SimEther.SetPowered | src/rhmesh/sim/SimEther.cpp:57-63 | switching off empties the queue of that node, and touches no other |
| Ether.SimEther.Detach | src/rhmesh/sim/SimEther.cpp:21-29 | that driver is gone and every other is still there |
| Ether.SimDriver.Available | src/rhmesh/sim/SimEther.cpp:130-145 | keeps the frame in hand, or takes the next one for this node |
| Ether.SimDriver.Recv | src/rhmesh/sim/SimEther.cpp:147-155 | hands out the frame in hand once |
| Ether.SimDriver.Send | src/rhmesh/sim/SimEther.cpp:157-167 | a frame beyond 251 octets goes nowhere |

## Left out

- Threads, jobs, mutexes and condition variables of `SimNode`: a node is a process of atomic steps. A frame
  taken and the ACK it provokes are one step, as no other frame of that node can come between them.
- Random numbers, drop probabilities and signal strength: jitter and loss are free choices, a link with a
  drop rate of zero loses nothing.
- Trace printing, `printRoutingTable`, `resultName`, `getNextValidRoutingTableEntry`: output only, or unused.
- Channel activity detection and radio modes, board pins, reset, watchdog, sketches and build scripts.
- The compile-time variants `RH_TEST_NETWORK`, `RH_ACK_DELAY` and explicit retry deduplication.
- Reboots and handlers that call `send`: both reset or overwrite the state the proofs rest on.
- A hop limit other than 30, a retry limit of 255, frames made by hand, nodes with address 255.
- The id and flags of the router header: no decision reads them. `Wire.dfy` carries them through; the
  variable the id comes from is never initialised in the code.
- The length doArp hands to the router shrinks with every message it receives and is never reset, so that a
  later message may be cut short in its buffer; only its type byte is read there.
- The length checks of RHRouter and of the driver below `RHMesh::sendtoWait`: the blocking objects pass
  messages as values, and Wire.PayloadLimitExact shows that a payload `send` accepts meets no failing check.
- DeliveredTrust.DeliveredIsTrusted: one direction only. An old DATA or ACK that no node can bring any further
  does no harm, and whether one can depends on all tables and links on its way. That an old ACK does harm once
  it has come as far as the sender is DeliveredTrust.AnyAckMayConfirm.
- Route timeouts within one listening slice and one send of 2^32 ms: the elapsed time could wrap unseen.
- The order and number of timeouts in `Protocol.dfy` is free: a node may give up, or a discovery expire, at
  any time. The blocking objects fix when; what is proved of all runs holds for theirs.
- `RHReliableDatagram`, `RHRouter` and `RHMesh` are one object in `MeshStack.dfy`: the code only ever builds
  the most derived class, and its virtual calls go to that.
