/**
  One mesh node as a reactive machine: what it knows, and what each radio event makes of it.

  The C++ code is a stack of blocking calls. Here every call is cut at the points where it waits for the
  radio: a step is one frame taken from the air (with the acknowledgement it provokes), one frame put on
  the air, a timeout, or a call by the application. MeshStack.dfy shows that the blocking code takes only these
  steps.

  Frames travel as Packets. The `num` and `last` of a packet and the history fields of NodeState only
  record what happened: no decision reads them.
*/
module Protocol {
  import opened Types
  import RT = RoutingTable

  // ---- Messages ----------------------------------------------------------------------------------

  /** The payload of a routed message: RHMesh's message types, with Node's DATA and ACK inside APPLICATION. */
  datatype Body =
    | Data(seq8: byte, text: seq<byte>)
    | EndAck(seq8: byte)
    | Request(sought: byte, path: seq<byte>)
    | Response(target: byte, path: seq<byte>)
    | Failure(lost: byte)

  datatype Routed = Routed(dest: byte, source: byte, hops: byte, body: Body)

  /** A frame on the air: a routed message or a hop acknowledgement (flag RH_FLAGS_ACK). */
  datatype Frame =
    | Message(to: byte, from: byte, id: byte, retry: bool, m: Routed)
    | HopAck(to: byte, from: byte, id: byte, retry: bool)

  /**
    A frame with its history: num counts the hop sends of its sender up to and including the one this
    frame belongs to (for an acknowledgement: the one it answers), last is the hop send the acknowledging
    node had accepted last from that sender (0 for none).
  */
  datatype Packet = Packet(f: Frame, num: nat, last: nat)

  // ---- State -------------------------------------------------------------------------------------

  type Slots = t: seq<RT.Entry> | |t| == RT.SLOTS witness seq(RT.SLOTS, i => RT.Entry(0, 0, RT.Invalid))
  type Ids = s: seq<byte> | |s| == 256 witness seq(256, i => 0)
  type Nums = s: seq<nat> | |s| == 256 witness seq(256, i => 0)

  /** Why a message was handed to the hop layer. from and num name the frame that provoked it. */
  datatype Cause =
    | Own(k: nat)                     // DATA of the k-th Node::send
    | Ask                             // the route request of doArp
    | Relay(from: byte, num: nat)     // forwarded message or rebroadcast request
    | Answer(from: byte, num: nat)    // route response, end-to-end ACK
    | Notice(from: byte, num: nat)    // route failure for a message that could not be forwarded

  datatype Sent = Sent(m: Routed, to: byte, why: Cause)

  datatype Hop = NoHop | Sending(x: Sent, tries: nat)

  /** Node::send: nothing under way, looking for a route or handing DATA over, waiting for the end-to-end ACK. */
  datatype Out = Quiet | Seeking(dest: byte, seq8: byte, text: seq<byte>) | Waiting(dest: byte, seq8: byte)

  /** A message that reached this node in hop send num of node from. */
  datatype Got = Got(m: Routed, from: byte, num: nat)

  datatype Handed = Handed(num: nat, to: byte, ackNum: nat, last: nat)
  datatype Confirmed = Confirmed(k: nat, ack: Got)
  datatype Asked = Asked(dest: byte, text: seq<byte>)

  datatype NodeState = NodeState(
    me: byte,
    router: bool,           // _isa_router
    table: Slots,           // _routes
    seen: Ids,              // _seenIds
    lastSeq: byte,          // _lastSequenceNumber
    hop: Hop,               // RHReliableDatagram::sendtoWait under way
    arp: Option<byte>,      // RHMesh::doArp under way
    nextSeq: byte,          // Node::nextSeq_
    out: Out,               // Node::send under way
    job: Option<Got>,       // DATA received, its end-to-end ACK not yet dealt with
    // history
    ledger: seq<Sent>,      // all hop sends so far; the n-th is ledger[n - 1]
    lastNum: Nums,          // per sender, the hop send accepted last
    taken: set<(byte, nat)>, // (sender, hop send) pairs accepted
    handed: seq<Handed>,    // unicast hop sends that returned true
    asked: seq<Asked>,      // Node::send calls
    inbox: seq<Got>,        // handler calls
    confirmed: seq<Confirmed> // Node::send calls that returned Delivered
  )

  function Fresh(me: byte, router: bool, table: Slots): NodeState {
    NodeState(me, router, table, seq(256, i => 0), 0, NoHop, None, 0, Quiet, None,
              [], seq(256, i => 0), {}, [], [], [], [])
  }

  // ---- Routing table as the mesh uses it ---------------------------------------------------------

  function NextHop(t: Slots, d: byte): Option<byte> {
    match RT.Find(t, d)
    case Some(e) => Some(e.nextHop)
    case None => None
  }

  function AddRoute(t: Slots, d: byte, n: byte): Slots {
    RT.Add(t, d, n, RT.Valid)
  }

  function Learn(t: Slots, ds: seq<byte>, n: byte): Slots
    decreases ds
  {
    if ds == [] then t else Learn(AddRoute(t, ds[0], n), ds[1..], n)
  }

  /** The nodes after `me` in a visited list; none when me is not listed. */
  function Beyond(path: seq<byte>, me: byte): (r: seq<byte>)
    ensures |r| <= |path| && r == path[|path| - |r|..]
    ensures |r| < |path| ==> path[|path| - |r| - 1] == me || r == []
  {
    if path == [] then [] else if path[0] == me then path[1..] else Beyond(path[1..], me)
  }

  // ---- Sending -----------------------------------------------------------------------------------

  /**
    What every reaction above the hop layer leaves alone, and all it may do below: free the hop layer,
    or hand it one new message, on top of the ledger.
  */
  ghost predicate Reacts(s: NodeState, s': NodeState)
  {
    && s'.me == s.me && s'.router == s.router
    && s'.seen == s.seen && s'.lastNum == s.lastNum && s'.taken == s.taken && s'.handed == s.handed
    && s'.nextSeq == s.nextSeq && s'.asked == s.asked
    && (Started(s, s') || (s'.ledger == s.ledger && s'.lastSeq == s.lastSeq && s'.hop in {s.hop, NoHop}))
  }

  /** doArp and the application layer do not notice. */
  ghost predicate Beneath(s: NodeState, s': NodeState)
  {
    && s'.arp == s.arp && s'.out == s.out && s'.job == s.job
    && s'.inbox == s.inbox && s'.confirmed == s.confirmed
  }

  ghost predicate Started(s: NodeState, s': NodeState)
  {
    && |s'.ledger| == |s.ledger| + 1
    && s'.ledger[..|s.ledger|] == s.ledger
    && s'.lastSeq == Next8(s.lastSeq)
    && s'.hop == Sending(s'.ledger[|s.ledger|], 0)
  }

  /** Hands m to the hop layer. */
  function Start(s: NodeState, m: Routed, to: byte, why: Cause): (s': NodeState)
    ensures Reacts(s, s')
    ensures Beneath(s, s')
  {
    s.(lastSeq := Next8(s.lastSeq), hop := Sending(Sent(m, to, why), 0), ledger := s.ledger + [Sent(m, to, why)])
  }

  /** RHMesh::route for a unicast message of this node: without a route, forget the destination. */
  function RouteOwn(s: NodeState, m: Routed, why: Cause): (s': NodeState)
    ensures Reacts(s, s')
    ensures Beneath(s, s')
  {
    match NextHop(s.table, m.dest)
    case Some(n) => Start(s, m, n, why)
    case None => s.(table := RT.DeleteTo(s.table, m.dest))
  }

  /** The failure branch of RHMesh::route: forget the destination, and tell the source of a proxied message. */
  function Undeliverable(s: NodeState, m: Routed, why: Cause): (s': NodeState)
    ensures Reacts(s, s')
    ensures Beneath(s, s')
  {
    var s1 := s.(table := RT.DeleteTo(s.table, m.dest));
    if m.source == s.me || !why.Relay? then s1
    else
      var s2 := s1.(table := AddRoute(s1.table, m.source, why.from));
      RouteOwn(s2, Routed(m.source, s.me, 0, Failure(m.dest)), Notice(why.from, why.num))
  }

  /** RHMesh::route for a unicast message being forwarded. */
  function Forward(s: NodeState, m: Routed, why: Cause): (s': NodeState)
    ensures Reacts(s, s')
    ensures Beneath(s, s')
  {
    match NextHop(s.table, m.dest)
    case Some(n) => Start(s, m, n, why)
    case None => Undeliverable(s, m, why)
  }

  /** RHReliableDatagram::sendtoWait returns, and its callers go on to where they next wait. */
  function Complete(s: NodeState, ok: bool): (s': NodeState)
    requires s.hop.Sending?
    ensures Reacts(s, s')
    ensures Started(s, s') || s'.hop.NoHop?
    ensures ok ==> s'.hop.NoHop? && s'.ledger == s.ledger && s'.table == s.table
  {
    var x := s.hop.x;
    var s0 := s.(hop := NoHop);
    var s1 := if ok then s0 else Undeliverable(s0, x.m, x.why);
    if x.why.Own? && s.out.Seeking? then
      s1.(out := if ok then Waiting(s.out.dest, s.out.seq8) else Quiet)
    else if x.why.Answer? && x.m.body.EndAck? then FinishJob(s1)
    else s1
  }

  /** The end-to-end ACK is dealt with, well or badly: now the handler is called. */
  function FinishJob(s: NodeState): (s': NodeState)
    ensures Reacts(s, s')
  {
    match s.job
    case Some(g) => s.(inbox := s.inbox + [g], job := None)
    case None => s
  }

  predicate HasPending(s: NodeState) {
    s.job.Some? || s.out.Seeking?
  }

  /** The application message RHMesh::sendtoWait is called with: an end-to-end ACK goes before our own DATA. */
  function Pending(s: NodeState): Sent
    requires HasPending(s)
  {
    match s.job
    case Some(g) => Sent(Routed(g.m.source, s.me, 0, EndAck(if g.m.body.Data? then g.m.body.seq8 else 0)), 0, Answer(g.from, g.num))
    case None => Sent(Routed(s.out.dest, s.me, 0, Data(s.out.seq8, s.out.text)), 0, Own(|s.asked|))
  }

  /** RHMesh::sendtoWait: use the route, or start discovering one. */
  function Launch(s: NodeState): (s': NodeState)
    requires HasPending(s)
    ensures Reacts(s, s')
  {
    var p := Pending(s);
    match NextHop(s.table, p.m.dest)
    case Some(n) => Start(s, p.m, n, p.why)
    case None =>
      Start(s.(arp := Some(p.m.dest)), Routed(BROADCAST, s.me, 0, Request(p.m.dest, [])), BROADCAST, Ask)
  }

  // ---- Receiving ---------------------------------------------------------------------------------

  /** RHMesh::peekAtMessage. */
  function Peek(s: NodeState, m: Routed, from: byte): (s': NodeState)
    ensures Reacts(s, s')
    ensures Beneath(s, s')
  {
    match m.body
    case Response(target, path) => s.(table := Learn(AddRoute(s.table, target, from), Beyond(path, s.me), from))
    case Failure(lost) => s.(table := RT.DeleteTo(s.table, lost))
    case _ => s
  }

  /** The discovery request branch of RHMesh::recvfromAck. */
  function OnRequest(s: NodeState, m: Routed, from: byte, num: nat): (s': NodeState)
    requires m.body.Request?
    ensures Reacts(s, s')
    ensures Beneath(s, s')
  {
    var path := m.body.path;
    if m.source == s.me || s.me in path then s
    else
      var t1 := AddRoute(s.table, m.source, from);
      var s1 := s.(table := if s.router then Learn(t1, path, from) else t1);
      if m.body.sought == s.me then
        RouteOwn(s1, Routed(m.source, s.me, 0, Response(s.me, path)), Answer(from, num))
      else if |path| < MAX_HOPS && s.router then
        Start(s1, Routed(BROADCAST, m.source, 0, Request(m.body.sought, path + [s.me])), BROADCAST, Relay(from, num))
      else s1
  }

  /** A message for this node, received by RHMesh::recvfromAck and handled by Node::handleIncoming. */
  function Deliver(s: NodeState, m: Routed, from: byte, num: nat): (s': NodeState)
    ensures Reacts(s, s')
  {
    match m.body
    case Data(_, _) =>
      if m.dest == s.me then s.(job := Some(Got(m, from, num))) else s.(inbox := s.inbox + [Got(m, from, num)])
    case EndAck(seq8) =>
      if s.out.Waiting? && m.source == s.out.dest && seq8 == s.out.seq8 then
        s.(out := Quiet, confirmed := s.confirmed + [Confirmed(|s.asked|, Got(m, from, num))])
      else s
    case Request(_, _) => if m.dest == BROADCAST then OnRequest(s, m, from, num) else s
    case _ => s
  }

  /** A message for this node, received inside doArp: only a route response counts, whatever it is about. */
  function DeliverInArp(s: NodeState, m: Routed, from: byte): (s': NodeState)
    requires s.arp.Some?
    ensures Reacts(s, s')
  {
    if !m.body.Response? then s
    else
      var s1 := s.(table := AddRoute(s.table, s.arp.value, from), arp := None);
      if HasPending(s1) then RouteOwn(s1, Pending(s1).m, Pending(s1).why) else s1
  }

  /** RHRouter::recvfromAck for a new message, and what its caller does with it. */
  function Accept(s: NodeState, m: Routed, from: byte, num: nat): (s': NodeState)
    ensures Reacts(s, s')
  {
    var s1 := Peek(s, m, from);
    if m.dest == s.me || m.dest == BROADCAST then
      if s.arp.Some? then DeliverInArp(s1, m, from) else Deliver(s1, m, from, num)
    else if m.hops < MAX_HOPS && s.router then
      Forward(s1, m.(hops := m.hops + 1), Relay(from, num))
    else s1
  }

  predicate IsOurAck(s: NodeState, f: Frame) {
    s.hop.Sending? && f.HopAck? && f.from == s.hop.x.to && f.to == s.me && f.id == s.lastSeq
  }

  /** The hop acknowledgement a frame provokes, if any. */
  predicate Acknowledges(s: NodeState, f: Frame) {
    f.Message? && if s.hop.Sending? then f.id == s.seen[f.from] else f.to == s.me
  }

  /** The duplicate filter remembers a new message. */
  function Noted(s: NodeState, p: Packet): NodeState {
    s.(seen := s.seen[p.f.from := p.f.id], lastNum := s.lastNum[p.f.from := p.num], taken := s.taken + {(p.f.from, p.num)})
  }

  /** Takes the frame in: as the awaited hop ACK, as a new message, or not at all. */
  function Receive(s: NodeState, p: Packet): NodeState {
    var f := p.f;
    if s.hop.Sending? then
      if IsOurAck(s, f) then
        Complete(s.(handed := s.handed + [Handed(|s.ledger|, s.hop.x.to, p.num, p.last)]), true)
      else s
    else if f.HopAck? || f.id == s.seen[f.from] then s
    else
      Accept(Noted(s, p), f.m, f.from, p.num)
  }

  /** The code polls the radio: waiting for a hop ACK, in doArp, or in a receive loop of Node. */
  predicate Listening(s: NodeState) {
    match s.hop
    case Sending(_, tries) => tries > 0
    case NoHop => s.arp.Some? || s.job.None?
  }

  // ---- Steps -------------------------------------------------------------------------------------

  datatype Event =
    | Call(dest: byte, text: seq<byte>)      // Node::send passes its checks
    | Try                                    // RHMesh::sendtoWait is called
    | Transmit(p: Packet)                    // the hop layer transmits or retransmits
    | Take(p: Packet, reply: Option<Packet>) // a frame is taken from the radio
    | GiveUp                                 // retries exhausted
    | ArpExpired                             // doArp times out
    | Abandon                                // Node::send returns NoRoute or NoAck

  ghost predicate Step(s: NodeState, e: Event, s': NodeState)
  {
    match e
    case Call(dest, text) =>
      && s.out.Quiet? && s.job.None? && s.arp.None? && s.hop.NoHop?
      && dest != BROADCAST && dest != s.me
      && s' == s.(out := Seeking(dest, s.nextSeq, text), nextSeq := Next8(s.nextSeq), asked := s.asked + [Asked(dest, text)])
    case Try =>
      && s.hop.NoHop? && s.arp.None? && HasPending(s)
      && s' == Launch(s)
    case Transmit(p) =>
      && s.hop.Sending?
      && p == Packet(Message(s.hop.x.to, s.me, s.lastSeq, s.hop.tries % 256 != 0, s.hop.x.m), |s.ledger|, 0)
      && s' == (if s.hop.x.to == BROADCAST then Complete(s, true) else s.(hop := Sending(s.hop.x, s.hop.tries + 1)))
    case Take(p, reply) =>
      && Listening(s) && p.f.to in {s.me, BROADCAST} && p.f.from != s.me
      && s' == Receive(s, p)
      && reply.Some? == Acknowledges(s, p.f)
      && (reply.Some? ==> exists retry ::
            reply.value == Packet(HopAck(p.f.from, s.me, p.f.id, retry), p.num, s'.lastNum[p.f.from]))
    case GiveUp =>
      && s.hop.Sending? && s.hop.tries > 0
      && s' == Complete(s, false)
    case ArpExpired =>
      && s.hop.NoHop? && s.arp.Some?
      && s' == FinishJob(s.(arp := None))
    case Abandon =>
      && s.hop.NoHop? && s.arp.None? && s.job.None? && !s.out.Quiet?
      && s' == s.(out := Quiet)
  }
}
