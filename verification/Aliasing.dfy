/**
  A run in which both acknowledgements lie. Ids of hop sends and numbers of Node::send have 8 bits: after 256
  sends an old end-to-end ACK, still being retransmitted, confirms a DATA that its destination has taken for a
  repeat and thrown away.
*/
module Aliasing {
  import opened Types
  import opened Protocol
  import opened Network
  import opened Learning
  import opened Reach
  import opened HopExact
  import RT = RoutingTable
  import EndToEnd

  /** Nodes 1 and 2 hear each other; 3 is an address nobody has. */
  ghost const PAIR: Links := {(1, 2), (2, 1)}

  ghost function New(me: byte, memory: Slots): NodeState { Fresh(me, true, RT.Cleared(memory)) }

  ghost function Pair(memory: Slots): Net {
    Net(map[1 := New(1, memory), 2 := New(2, memory)], map[1 := [], 2 := []])
  }

  ghost predicate IsPair(n: Net, s1: NodeState, s2: NodeState, q1: seq<Packet>, q2: seq<Packet>)
  {
    n.nodes.Keys == n.rx.Keys == {1, 2} && n.nodes[1] == s1 && n.nodes[2] == s2 && n.rx[1] == q1 && n.rx[2] == q2
  }

  // What 1 and 2 send each other in the beginning, and the end-to-end ACK that stays under way.
  ghost function Wanted(): Packet { FrameOf(1, AskOf(1, 2), 1) }
  ghost function Found(): Sent { Sent(Routed(1, 2, 0, Response(2, [])), 1, Answer(1, 1)) }
  ghost function First(text: seq<byte>): Sent { Sent(Routed(2, 1, 0, Data(0, text)), 2, Own(1)) }
  ghost function Ack(): Sent { Sent(Routed(1, 2, 0, EndAck(0)), 1, Answer(1, 2)) }

  ghost function Seeking1(memory: Slots, text: seq<byte>): NodeState { Sought(New(1, memory), 2, text) }
  ghost function Finding2(memory: Slots): NodeState { Receive(New(2, memory), Wanted()) }
  ghost function Sending1(memory: Slots, text: seq<byte>): NodeState { Receive(Seeking1(memory, text), FrameOf(2, Found(), 1)) }
  ghost function Found2(memory: Slots): NodeState { Finding2(memory).(hop := NoHop, handed := [Handed(1, 1, 1, 1)]) }
  ghost function Waiting1(memory: Slots, text: seq<byte>): NodeState {
    Sending1(memory, text).(hop := NoHop, handed := [Handed(2, 2, 2, 2)], out := Waiting(2, 0))
  }
  ghost function Busy2(memory: Slots, text: seq<byte>): NodeState { Receive(Found2(memory), FrameOf(1, First(text), 2)) }
  ghost function Acking2(memory: Slots, text: seq<byte>): NodeState {
    Busy2(memory, text).(lastSeq := 2, hop := Sending(Ack(), 1), ledger := Busy2(memory, text).ledger + [Ack()])
  }

  lemma PairStarts(memory: Slots)
    ensures Init(Pair(memory)) && Follows(PAIR, Pair(memory), Pair(memory))
    ensures IsPair(Pair(memory), New(1, memory), New(2, memory), [], [])
    ensures forall d: byte :: NextHop(RT.Cleared(memory), d).None?
  {
    hide Follows, NextHop, RT.StaleBehind, RT.Cleared;
    Stays(PAIR, Pair(memory));
    EndToEnd.FreshIsOk(1, true, memory);
  }

  // ---- The first send ------------------------------------------------------------------------------

  lemma Finding2Is(memory: Slots)
    ensures Step(New(2, memory), Take(Wanted(), None), Finding2(memory))
    ensures var s := Finding2(memory);
            && s.hop == Sending(Found(), 0) && s.me == 2 && s.ledger == [Found()] && s.lastSeq == 1
            && s.arp.None? && s.job.None? && s.out.Quiet? && s.seen[1] == 1 && s.taken == {(1, 1)} && s.inbox == [] && s.handed == []
            && s.table == AddRoute(RT.Cleared(memory), 1, 1) && NextHop(s.table, 1) == Some(1)
  {
    hide RT.Cleared, RT.Add, NextHop, RT.StaleBehind;
    EmptyIs(memory);
    AddWithin(RT.Cleared(memory), RT.Cleared(memory), {}, 1, 1);
    assert {} + {(1, 1)} == {(1, 1)};
  }

  lemma EmptyIs(memory: Slots)
    ensures RT.StaleBehind(RT.Cleared(memory)) && Within(RT.Cleared(memory), RT.Cleared(memory), {}, 1)
    ensures Within(RT.Cleared(memory), RT.Cleared(memory), {}, 2)
    ensures forall d: byte :: NextHop(RT.Cleared(memory), d).None?
  {
    EndToEnd.FreshIsOk(1, true, memory);
  }

  lemma Seeking1Is(memory: Slots, text: seq<byte>)
    ensures var s := Seeking1(memory, text);
            && s.hop.NoHop? && s.arp == Some(2) && s.job.None? && s.out == Seeking(2, 0, text) && s.me == 1
            && s.ledger == [AskOf(1, 2)] && s.lastSeq == 1 && s.asked == [Asked(2, text)] && s.nextSeq == 1
            && s.table == RT.Cleared(memory) && s.seen[2] == 0 && s.confirmed == [] && s.handed == []
  {
    hide RT.Cleared;
  }

  lemma Sending1Is(memory: Slots, text: seq<byte>)
    ensures var s := Sending1(memory, text);
            && s.hop == Sending(First(text), 0) && s.arp.None? && s.job.None? && s.out == Seeking(2, 0, text) && s.me == 1
            && |s.ledger| == 2 && s.lastSeq == 2 && s.asked == [Asked(2, text)] && s.nextSeq == 1
            && s.seen[2] == 1 && s.confirmed == [] && s.handed == []
            && NextHop(s.table, 2) == Some(2) && NextHop(s.table, 3).None?
  {
    hide RT.Cleared, RT.Add, NextHop, RT.StaleBehind, Seeking1;
    Seeking1Is(memory, text);
    EmptyIs(memory);
    var t := RT.Cleared(memory);
    AddWithin(t, t, {}, 2, 2);
    var u := AddRoute(t, 2, 2);
    assert {} + {2} == {2};
    AddWithin(u, t, {2}, 2, 2);
    assert NextHop(AddRoute(u, 2, 2), 3).None?;
  }

  lemma Busy2Is(memory: Slots, text: seq<byte>)
    ensures HandedOver(Finding2(memory)) == Found2(memory) && Listening(Found2(memory))
    ensures var s := Busy2(memory, text);
            && s.hop.NoHop? && s.arp.None? && s.out.Quiet? && s.job == Some(Got(First(text).m, 1, 2)) && s.me == 2
            && s.seen[1] == 2 && s.lastNum[1] == 2 && s.taken == {(1, 1), (1, 2)} && s.inbox == [] && s.ledger == [Found()] && s.lastSeq == 1
            && NextHop(s.table, 1) == Some(1)
  {
    hide RT.Cleared, RT.Add, NextHop, Finding2;
    Finding2Is(memory);
    assert {(1, 1)} + {(1, 2)} == {(1, 1), (1, 2)};
  }

  lemma Found2Is(memory: Slots)
    ensures var s := Found2(memory); s.hop.NoHop? && s.me == 2 && s.seen[1] == 1 && Listening(s)
  {
    hide Finding2, NextHop;
    Finding2Is(memory);
  }

  lemma Waiting1Is(memory: Slots, text: seq<byte>)
    ensures HandedOver(Sending1(memory, text)) == Waiting1(memory, text)
  {
    hide NextHop, Sending1;
    Sending1Is(memory, text);
  }

  /** Discovery and hand-over of the first DATA. */
  lemma Meets(memory: Slots, text: seq<byte>) returns (n: Net)
    ensures Follows(PAIR, Pair(memory), n)
    ensures IsPair(n, Seeking1(memory, text), Finding2(memory), [], [])
  {
    hide Follows, NextHop, Finding2, Init, RT.Cleared, Pair;
    PairStarts(memory);
    n := Seeks(PAIR, Pair(memory), Pair(memory), 1, 2, text, {2});
    Finding2Is(memory);
    assert n.rx[2] == [Wanted()] && [Wanted()][1..] == [];
    Takes(PAIR, Pair(memory), n, 2, Wanted(), Finding2(memory));
    n := Net(n.nodes[2 := Finding2(memory)], n.rx[2 := n.rx[2][1..]]);
  }

  lemma Delivers(memory: Slots, text: seq<byte>) returns (n: Net)
    ensures Follows(PAIR, Pair(memory), n)
    ensures IsPair(n, Waiting1(memory, text), Busy2(memory, text), [], [])
  {
    hide Follows, NextHop, Found2, Waiting1, Pair, Receive, HandedOver, New, Sought;
    n := Meets(memory, text);
    Finding2Is(memory);
    Seeking1Is(memory, text);
    Sending1Is(memory, text);
    Found2Is(memory);
    Busy2Is(memory, text);
    Waiting1Is(memory, text);
    n := HandsOver(PAIR, Pair(memory), n, 2, 1);
    n := HandsOver(PAIR, Pair(memory), n, 1, 2);
  }

  // ---- Two hundred and fifty-five sends to nobody --------------------------------------------------

  ghost function Left1(memory: Slots, text: seq<byte>): NodeState { Waiting1(memory, text).(out := Quiet) }

  lemma AckSteps(memory: Slots, text: seq<byte>)
    ensures var s := Busy2(memory, text);
            var s1 := s.(lastSeq := 2, hop := Sending(Ack(), 0), ledger := s.ledger + [Ack()]);
            && Step(s, Try, s1) && Step(s1, Transmit(NextFrame(s1)), Acking2(memory, text))
            && Acking2(memory, text) == s1.(hop := Sending(Ack(), 1))
  {
    hide NextHop, Busy2;
    Busy2Is(memory, text);
  }

  /** Node 2 sends its end-to-end ACK and is not heard; node 1 stops waiting for it. */
  lemma AcksUnheard(memory: Slots, text: seq<byte>) returns (n: Net)
    ensures Follows(PAIR, Pair(memory), n) && IsPair(n, Left1(memory, text), Acking2(memory, text), [], [])
  {
    hide Follows, Step, Pair, Busy2, Waiting1, Acking2;
    n := Delivers(memory, text);
    AckSteps(memory, text);
    var s := n.nodes[2];
    var s1 := s.(lastSeq := 2, hop := Sending(Ack(), 0), ledger := s.ledger + [Ack()]);
    Acts(PAIR, Pair(memory), n, 2, Try, s1);
    n := n.(nodes := n.nodes[2 := s1]);
    NobodyHears(n, NextFrame(s1));
    Sends(PAIR, Pair(memory), n, 2, NextFrame(s1), Acking2(memory, text), {});
    n := n.(nodes := n.nodes[2 := Acking2(memory, text)]);
    LeftStep(memory, text);
    Acts(PAIR, Pair(memory), n, 1, Abandon, Left1(memory, text));
    n := n.(nodes := n.nodes[1 := Left1(memory, text)]);
  }

  lemma LeftStep(memory: Slots, text: seq<byte>)
    ensures Step(Waiting1(memory, text), Abandon, Left1(memory, text))
    ensures Tried(Left1(memory, text), Left1(memory, text), 0)
    ensures var s := Left1(memory, text);
            && s.me == 1 && |s.ledger| == 2 && |s.asked| == 1 && s.seen[2] == 1 && s.confirmed == []
            && NextHop(s.table, 2) == Some(2) && NextHop(s.table, 3).None?
  {
    hide NextHop, Sending1;
    Sending1Is(memory, text);
  }

  /** s is s0 after j sends that found no route. */
  ghost predicate Tried(s0: NodeState, s: NodeState, j: nat)
  {
    && Idle(s) && s.me == s0.me && s.table == s0.table && s.seen == s0.seen && s.confirmed == s0.confirmed && s.handed == s0.handed
    && |s.ledger| == |s0.ledger| + j && s.lastSeq == Low8(|s.ledger|)
    && |s.asked| == |s0.asked| + j && s.nextSeq == Low8(|s.asked|)
  }

  lemma TriedAgain(s0: NodeState, s: NodeState, j: nat, d: byte, text: seq<byte>)
    requires Tried(s0, s, j)
    ensures Tried(s0, Sought(s, d, text).(arp := None, out := Quiet), j + 1)
  {
  }

  lemma {:induction false} Vainly(n0: Net, n: Net, j: nat) returns (n': Net)
    requires Follows(PAIR, n0, n) && n.nodes.Keys == n.rx.Keys == {1, 2} && n.nodes[1].me == 1
    requires Tried(n.nodes[1], n.nodes[1], 0) && NextHop(n.nodes[1].table, 3).None?
    ensures Follows(PAIR, n0, n') && OnlyMoved(n, n', {1}) && n'.rx[1] == n.rx[1] && n'.rx[2] == n.rx[2]
    ensures Tried(n.nodes[1], n'.nodes[1], j)
    decreases j
  {
    hide Follows, NextHop, Sought;
    n' := n;
    if j > 0 {
      n' := Vainly(n0, n, j - 1);
      var s := n'.nodes[1];
      var m := Seeks(PAIR, n0, n', 1, 3, [], {});
      SoughtIs(s, 3, []);
      TriedAgain(n.nodes[1], s, j - 1, 3, []);
      n' := Desists(PAIR, n0, m, 1);
    }
  }

  lemma SoughtIs(s: NodeState, d: byte, text: seq<byte>)
    requires Idle(s)
    ensures var s' := Sought(s, d, text); s'.hop.NoHop? && s'.arp.Some? && s'.job.None? && s'.out.Seeking?
  {
  }

  // ---- The false confirmation ----------------------------------------------------------------------

  /** The 257-th send, number 0 again, in hop send 258, id 2 again. */
  ghost function Again(text: seq<byte>): Sent { Sent(Routed(2, 1, 0, Data(0, text)), 2, Own(257)) }

  ghost predicate Fed(s: NodeState) {
    && Idle(s) && s.me == 1 && s.seen[2] == 1 && s.confirmed == [] && NextHop(s.table, 2) == Some(2)
    && |s.ledger| == 257 && s.lastSeq == 1 && |s.asked| == 256 && s.nextSeq == 0
  }

  /** Node 1 in its last send: called, handed to the hop layer, transmitted, acknowledged. */
  ghost function Called1(s: NodeState, text: seq<byte>): NodeState {
    s.(out := Seeking(2, 0, text), nextSeq := 1, asked := s.asked + [Asked(2, text)])
  }
  ghost function Started1(s: NodeState, text: seq<byte>): NodeState {
    Called1(s, text).(lastSeq := 2, hop := Sending(Again(text), 0), ledger := s.ledger + [Again(text)])
  }
  ghost function Sent1(s: NodeState, text: seq<byte>): NodeState { Started1(s, text).(hop := Sending(Again(text), 1)) }
  ghost function Told1(s: NodeState, text: seq<byte>): NodeState {
    Sent1(s, text).(hop := NoHop, handed := s.handed + [Handed(258, 2, 258, 2)], out := Waiting(2, 0))
  }

  lemma LastSend(s: NodeState, text: seq<byte>)
    requires Fed(s)
    ensures Step(s, Call(2, text), Called1(s, text)) && Step(Called1(s, text), Try, Started1(s, text))
    ensures Step(Started1(s, text), Transmit(FrameOf(1, Again(text), 258)), Sent1(s, text))
    ensures Step(Sent1(s, text), Take(Packet(HopAck(1, 2, 2, false), 258, 2), None), Told1(s, text))
  {
    hide NextHop;
  }

  /** The end-to-end ACK of the first send, transmitted again. */
  ghost function AckFrame(): Packet { Packet(Message(1, 2, 2, true, Ack().m), 2, 0) }

  lemma OldAckConfirms(s: NodeState, text: seq<byte>)
    requires Fed(s)
    ensures var s' := Receive(Told1(s, text), AckFrame());
            && Step(Told1(s, text), Take(AckFrame(), Some(Packet(HopAck(2, 1, 2, false), 2, 2))), s')
            && s'.confirmed == [Confirmed(257, Got(Ack().m, 2, 2))] && s'.asked == s.asked + [Asked(2, text)]
            && s'.handed == s.handed + [Handed(258, 2, 258, 2)] && s'.out.Quiet?
  {
    hide NextHop;
  }

  lemma Acking2Is(memory: Slots, text: seq<byte>)
    ensures var s := Acking2(memory, text);
            && Listening(s) && s.me == 2 && s.hop == Sending(Ack(), 1) && |s.ledger| == 2 && s.lastSeq == 2
            && s.seen[1] == 2 && s.lastNum[1] == 2 && s.taken == {(1, 1), (1, 2)} && s.inbox == []
            && s.job == Some(Got(First(text).m, 1, 2))
            && Step(s, Transmit(AckFrame()), s.(hop := Sending(Ack(), 2)))
  {
    hide NextHop, Busy2;
    Busy2Is(memory, text);
  }

  /** 255 sends to nobody later, the counters of node 1 show what they showed in its first send. */
  lemma ComesRound(memory: Slots, text: seq<byte>) returns (n: Net)
    ensures Follows(PAIR, Pair(memory), n) && n.nodes.Keys == n.rx.Keys == {1, 2}
    ensures Fed(n.nodes[1]) && n.nodes[2] == Acking2(memory, text) && n.rx[1] == n.rx[2] == []
  {
    hide Follows, Step, Pair, Acking2, NextHop, Left1, Tried, Fed;
    n := AcksUnheard(memory, text);
    LeftStep(memory, text);
    n := Vainly(Pair(memory), n, 255);
    AllRound(Left1(memory, text), n.nodes[1]);
  }

  lemma AllRound(s0: NodeState, s: NodeState)
    requires Tried(s0, s, 255) && |s0.ledger| == 2 && |s0.asked| == 1 && s0.me == 1 && s0.seen[2] == 1 && s0.confirmed == []
    requires NextHop(s0.table, 2) == Some(2)
    ensures Fed(s)
  {
    hide NextHop;
  }

  lemma Transmits(memory: Slots, n: Net, text: seq<byte>, again: seq<byte>) returns (n': Net)
    requires Follows(PAIR, Pair(memory), n) && n.nodes.Keys == n.rx.Keys == {1, 2} && Fed(n.nodes[1]) && n.rx[1] == n.rx[2] == []
    ensures Follows(PAIR, Pair(memory), n')
    ensures IsPair(n', Sent1(n.nodes[1], again), n.nodes[2], [], [FrameOf(1, Again(again), 258)])
  {
    hide Follows, Step, Pair, Sent1, Started1, Called1, Fed;
    var s := n.nodes[1];
    LastSend(s, again);
    Acts(PAIR, Pair(memory), n, 1, Call(2, again), Called1(s, again));
    var n1 := n.(nodes := n.nodes[1 := Called1(s, again)]);
    Acts(PAIR, Pair(memory), n1, 1, Try, Started1(s, again));
    var n2 := n1.(nodes := n1.nodes[1 := Started1(s, again)]);
    var p := FrameOf(1, Again(again), 258);
    Sends(PAIR, Pair(memory), n2, 1, p, Sent1(s, again), {2});
    HeardByOne(n2.rx, 2, p);
    assert [] + [p] == [p];
    n' := Net(n2.nodes[1 := Sent1(s, again)], Hear(n2.rx, {2}, p));
  }

  /** The last send goes out, is taken for a repeat, and acknowledged. */
  lemma Repeats(memory: Slots, text: seq<byte>, again: seq<byte>) returns (n: Net, s: NodeState)
    ensures Follows(PAIR, Pair(memory), n) && Fed(s) && IsPair(n, Told1(s, again), Acking2(memory, text), [], [])
  {
    hide Follows, Step, Pair, Acking2, Listening, Told1, Sent1, Fed;
    n := ComesRound(memory, text);
    s := n.nodes[1];
    LastSend(s, again);
    Acking2Is(memory, text);
    n := Transmits(memory, n, text, again);
    n := TakenForRepeat(memory, n, s, text, again);
  }

  lemma TakenForRepeat(memory: Slots, n: Net, s: NodeState, text: seq<byte>, again: seq<byte>) returns (n': Net)
    requires Follows(PAIR, Pair(memory), n) && Fed(s)
    requires IsPair(n, Sent1(s, again), Acking2(memory, text), [], [FrameOf(1, Again(again), 258)])
    ensures Follows(PAIR, Pair(memory), n') && IsPair(n', Told1(s, again), Acking2(memory, text), [], [])
  {
    hide Follows, Step, Pair, Acking2, Told1, Sent1, Started1, Called1, Fed, Listening;
    LastSend(s, again);
    Acking2Is(memory, text);
    var p, q := FrameOf(1, Again(again), 258), Packet(HopAck(1, 2, 2, false), 258, 2);
    RepeatIsAcked(n.nodes[2], p);
    assert [p][1..] == [] && [] + [q] == [q] && [q][1..] == [];
    Replies(PAIR, Pair(memory), n, 2, p, q, n.nodes[2], {1});
    HeardByOne(n.rx[2 := []], 1, q);
    var n1 := Net(n.nodes[2 := n.nodes[2]], Hear(n.rx[2 := n.rx[2][1..]], {1}, q));
    Takes(PAIR, Pair(memory), n1, 1, q, Told1(s, again));
    n' := Net(n1.nodes[1 := Told1(s, again)], n1.rx[1 := n1.rx[1][1..]]);
  }

  /**
    Both acknowledgements can lie. In this run node 1 is told that node 2 has accepted its hop send 258, and
    that its 257-th send was delivered; node 2 has accepted neither, and has seen only the first DATA.
  */
  lemma DeliveredInVain(memory: Slots, text: seq<byte>, again: seq<byte>) returns (trace: seq<Net>, acts: seq<Action>)
    ensures Run(PAIR, trace, acts)
    ensures var ns := trace[|trace| - 1].nodes;
            && ns.Keys == {1, 2}
            && |ns[1].asked| == 257 && ns[1].asked[256] == Asked(2, again)
            && ns[1].confirmed == [Confirmed(257, Got(Routed(1, 2, 0, EndAck(0)), 2, 2))]
            && Handed(258, 2, 258, 2) in ns[1].handed && (1, 258) !in ns[2].taken
            && ns[2].inbox == [] && ns[2].job == Some(Got(Routed(2, 1, 0, Data(0, text)), 1, 2))
  {
    hide Follows, Step, Pair, Acking2, Told1, Receive, Init, Next, Listening;
    var n, s := Repeats(memory, text, again);
    Acking2Is(memory, text);
    OldAckConfirms(s, again);
    PairStarts(memory);
    var p, q := AckFrame(), Packet(HopAck(2, 1, 2, false), 2, 2);
    var s2 := Acking2(memory, text).(hop := Sending(Ack(), 2));
    Sends(PAIR, Pair(memory), n, 2, p, s2, {1});
    HeardByOne(n.rx, 1, p);
    assert [] + [p] == [p];
    var n1 := Net(n.nodes[2 := s2], Hear(n.rx, {1}, p));
    Replies(PAIR, Pair(memory), n1, 1, p, q, Receive(Told1(s, again), p), {});
    var n2 := Net(n1.nodes[1 := Receive(Told1(s, again), p)], Hear(n1.rx[1 := n1.rx[1][1..]], {}, q));
    trace, acts := AsRun(PAIR, Pair(memory), n2);
  }
}
