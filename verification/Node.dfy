/**
  rhmesh::Node: the application layer on top of RHMesh, with end-to-end ACKs and bounded sends and receives.
*/
module NodeStack {
  import opened Types
  import opened Protocol
  import opened Clock
  import opened Radio
  import opened StackSteps
  import opened MeshStack
  import RT = RoutingTable
  import Wire

  datatype SendResult = Delivered | NoAck | NoRoute | HopFailed | TooLong | BadAddress

  /** What a handler is given. */
  datatype Message = Message(from: byte, data: seq<byte>, hops: byte)

  /** What handleIncoming says it received: nothing, the sequence number of an awaited ACK, something else. */
  datatype Incoming = Nothing | Ack(seq8: byte) | Other

  /** kRouteListenSliceMs */
  const LISTEN_SLICE: nat := 100

  /** The handler has been called for every DATA in the inbox, in order, with its source, its bytes and its hops. */
  ghost predicate Told(handled: seq<Message>, inbox: seq<Got>)
  {
    && |handled| == |inbox|
    && forall i :: 0 <= i < |inbox| ==>
         var m := inbox[i].m;
         m.body.Data? && handled[i].from == m.source && handled[i].data == m.body.text && handled[i].hops == m.hops
  }

  lemma OneMoreTold(handled: seq<Message>, inbox: seq<Got>, g: Got)
    requires Told(handled, inbox) && g.m.body.Data?
    ensures Told(handled + [Message.Message(g.m.source, g.m.body.text, g.m.hops)], inbox + [g])
  {
  }

  /** What passes the check of send passes that of the mesh. */
  lemma LimitFits(limit: byte)
    requires limit >= 8
    ensures Wire.MaxPayload(limit) <= Wire.MESH_MAX - Wire.NODE_HEADER
  {
  }

  /** What g means to the application. */
  ghost function Digested(s: NodeState, g: Got): NodeState {
    if g.m.body.Data? then s.(inbox := s.inbox + [g]) else Deliver(s, g.m, g.from, g.num)
  }

  lemma DigestedKeeps(s: NodeState, g: Got)
    requires g.m.body.Data? || g.m.body.EndAck?
    ensures var s' := Digested(s, g);
            && s'.nextSeq == s.nextSeq && s'.asked == s.asked && s'.arp == s.arp
            && (s'.inbox == if g.m.body.Data? then s.inbox + [g] else s.inbox)
            && ((g.m.body.Data? || g.m.body.EndAck?) && s.job.None? ==> s'.job.None?)
            && (g.m.body.Data? ==> s'.out == s.out && s'.confirmed == s.confirmed)
  {
  }

  /** DATA to this node becomes the pending job, and its end-to-end ACK the pending message. */
  lemma DataDelivered(s: NodeState, t: NodeState, g: Got)
    requires g.m.body.Data? && g.m.dest in {s.me, BROADCAST} && s.job.None? && Unaware(Deliver(s, g.m, g.from, g.num), t)
    ensures g.m.dest != s.me ==> Unaware(Digested(s, g), t)
    ensures g.m.dest == s.me ==>
              && HasPending(t) && t.job.Some? && Pending(t).m == Routed(g.m.source, s.me, 0, EndAck(g.m.body.seq8))
              && forall ret, u :: Unaware(Concluded(t, ret), u) ==> Unaware(Digested(s, g), u)
  {
  }

  /** An end-to-end ACK ends the wait of the send it answers, and means nothing otherwise. */
  lemma AckDigested(s: NodeState, g: Got)
    requires g.m.body.EndAck?
    ensures Digested(s, g) == Deliver(s, g.m, g.from, g.num)
    ensures var s' := Digested(s, g);
            if s.out.Waiting? && g.m.source == s.out.dest && g.m.body.seq8 == s.out.seq8
            then s' == s.(out := Quiet, confirmed := s.confirmed + [Confirmed(|s.asked|, g)])
            else s' == s
  {
  }

  class Node {
    const mesh: Mesh
    const limit: byte          // maxMessageLength() of the driver
    const ackTimeout: nat      // ackTimeoutMs_
    const routeTimeout: nat    // routeTimeoutMs_
    const handlerCost: nat     // the longest the handler takes

    var nextSeq: byte
    var txBuf: Body
    var rxBuf: Body
    var handled: seq<Message>  // the handler's calls so far

    /** No send under way in the layers below. */
    ghost predicate Valid()
      reads this, mesh, mesh.radio, mesh.radio.handler, mesh.routes.slots, mesh.seenIds
    {
      && mesh.Valid() && mesh.Mirrors(mesh.st) && mesh.UpToDate()
      && mesh.st.hop.NoHop? && mesh.st.arp.None? && mesh.st.job.None?
      && mesh.st.nextSeq == nextSeq && Told(handled, mesh.st.inbox) && CallsTimed()
      && 8 <= limit && ackTimeout < 0x1_0000 && handlerCost < 0x100_0000
      && routeTimeout + Slice() + mesh.SendBound() < ROLLOVER
    }

    /** The handler has taken time in its calls alone, and in each no more than it may. */
    ghost predicate CallsTimed()
      reads `handled, mesh.radio.handler
    {
      |mesh.radio.handler.calls| == |handled| && forall i :: 0 <= i < |handled| ==> mesh.radio.handler.calls[i] <= handlerCost
    }

    ghost predicate Out(o: Out)
      reads mesh
    {
      mesh.st.out == o
    }

    constructor (mesh: Mesh, limit: byte, ackTimeout: nat, routeTimeout: nat, handlerCost: nat)
      requires mesh.Valid() && mesh.Mirrors(mesh.st) && mesh.UpToDate() && mesh.events == []
      requires mesh.st == Fresh(mesh.me, mesh.isRouter, mesh.st.table) && mesh.radio.handler.calls == []
      requires 8 <= limit && ackTimeout < 0x1_0000 && handlerCost < 0x100_0000
      requires routeTimeout + IncomingBoundOf(mesh, LISTEN_SLICE, handlerCost) + mesh.SendBound() < ROLLOVER
      ensures Valid() && Out(Quiet) && this.mesh == mesh && handled == []
      ensures this.limit == limit && this.ackTimeout == ackTimeout && this.routeTimeout == routeTimeout
    {
      this.mesh, this.limit, this.ackTimeout, this.routeTimeout := mesh, limit, ackTimeout, routeTimeout;
      this.handlerCost := handlerCost;
      nextSeq, txBuf, rxBuf, handled := 0, EndAck(0), EndAck(0), [];
    }

    static function IncomingBoundOf(mesh: Mesh, timeout: nat, handlerCost: nat): nat {
      timeout + mesh.radio.tick + mesh.RecvBound() + mesh.SendBound() + handlerCost
    }

    /** The longest handleIncoming and poll can take: a message may come last, be acknowledged and handled. */
    function IncomingBound(timeout: nat): nat {
      IncomingBoundOf(mesh, timeout, handlerCost)
    }

    function Slice(): nat {
      IncomingBound(LISTEN_SLICE)
    }

    /**
      Node::handleIncoming. What arrived, if anything, is g: an ACK from ackFrom is reported, DATA is
      acknowledged end to end and then handled: one call, with the source, the bytes and the hops received,
      whatever discovery and forwarding the acknowledgement led to. Nothing means that no new application
      message for this node was among all that arrived until the timeout.
    */
    method HandleIncoming(timeout: nat, ackFrom: byte) returns (r: Incoming, ghost g: Got)
      requires Valid() && timeout < 0x1_0000
      modifies this, mesh, mesh.seenIds, mesh.routes.slots, mesh.radio, mesh.radio.handler
      ensures Valid() && txBuf == old(txBuf) && nextSeq == old(nextSeq)
      ensures r.Nothing? ==> Unaware(old(mesh.st), mesh.st) && handled == old(handled)
                             && mesh.radio.clock >= old(mesh.radio.clock) + timeout
                             && NoneForApplication(old(mesh.News()), mesh.News())
                             && (timeout > 0 ==> mesh.radio.Heard() == mesh.radio.taken)
      ensures !r.Nothing? ==> exists news, p ::
                && NoneForApplication(old(mesh.News()), news) && news + [New(p)] <= mesh.News()
                && ForApplication(p) && g == Got(p.f.m, p.f.from, p.num)
      ensures !r.Nothing? ==> Unaware(Digested(old(mesh.st), g), mesh.st) && (g.m.body.Data? || g.m.body.EndAck?)
                              && mesh.radio.Remaining() < old(mesh.radio.Remaining())
      ensures !r.Nothing? && g.m.body.Data? ==>
                && r.Other? && |handled| == |old(handled)| + 1 && old(handled) <= handled
                && var call := handled[|old(handled)|];
                   call.from == g.m.source && call.data == g.m.body.text && call.hops == g.m.hops
      ensures Attempts(mesh.News()) == Attempts(old(mesh.News())) && old(mesh.radio.sent) <= mesh.radio.sent
      ensures !r.Nothing? && g.m.body.EndAck? ==> handled == old(handled)
                                                  && r == if g.m.source == ackFrom then Ack(g.m.body.seq8) else Other
      ensures old(mesh.radio.clock) <= mesh.radio.clock <= old(mesh.radio.clock) + IncomingBound(timeout)
      ensures mesh.radio.Remaining() <= old(mesh.radio.Remaining())
    {
      hide IsRun, Mesh.Owes, Deliver, Concluded, Digested, Pending, Driver.Accounts, Driver.Valid, Mesh.News, Attempts, NoneForApplication;
      ghost var was := mesh.st;
      var got, m;
      got, m, g := mesh.RecvfromAckTimeout(timeout);
      if !got {
        OnlyMessages(old(mesh.News()), mesh.News());
        r := Nothing;
        return;
      }
      ghost var news, p :| NoneForApplication(old(mesh.News()), news) && mesh.News() == news + [New(p)]
                           && ForApplication(p) && p.f.m == m && g == Got(m, p.f.from, p.num);
      OnlyMessages(old(mesh.News()), news);
      OneMoreNote(news, New(p));
      rxBuf := m.body;
      DigestedKeeps(was, g);
      if rxBuf.EndAck? {
        r := if m.source == ackFrom then Ack(rxBuf.seq8) else Other;
        AckDigested(was, g);
        return;
      }
      HandleData(m.source, m.dest, m.hops, was, g);
      r := Other;
    }

    /** The DATA branch of handleIncoming: the ACK first, then the handler. The received bytes are in rxBuf. */
    method HandleData(from: byte, dest: byte, hops: byte, ghost was: NodeState, ghost g: Got)
      requires mesh.Valid() && mesh.Mirrors(mesh.st) && mesh.UpToDate() && mesh.st.hop.NoHop? && mesh.st.arp.None?
      requires g.m.body.Data? && g.m.body == rxBuf && g.m.source == from != BROADCAST && g.m.dest == dest && g.m.hops == hops
      requires dest in {mesh.me, BROADCAST} && was.me == mesh.me && was.job.None? && Unaware(Deliver(was, g.m, g.from, g.num), mesh.st)
      requires Told(handled, was.inbox) && CallsTimed()
      modifies `handled, mesh, mesh.seenIds, mesh.routes.slots, mesh.radio, mesh.radio.handler
      ensures mesh.Valid() && mesh.Mirrors(mesh.st) && mesh.UpToDate() && mesh.st.hop.NoHop?
      ensures Unaware(Digested(was, g), mesh.st)
      ensures |handled| == |old(handled)| + 1 && old(handled) <= handled && Told(handled, was.inbox + [g]) && CallsTimed()
      ensures var call := handled[|old(handled)|];
              call.from == g.m.source && call.data == g.m.body.text && call.hops == g.m.hops
      ensures Attempts(mesh.News()) == Attempts(old(mesh.News())) && old(mesh.News()) <= mesh.News()
      ensures old(mesh.radio.sent) <= mesh.radio.sent
      ensures old(mesh.radio.clock) <= mesh.radio.clock <= old(mesh.radio.clock) + mesh.SendBound() + handlerCost
      ensures mesh.radio.Remaining() <= old(mesh.radio.Remaining())
    {
      hide IsRun, Mesh.Owes, Deliver, Concluded, Digested, Pending, Driver.Accounts, Driver.Valid, Mesh.News, Attempts, Told;
      DataDelivered(was, mesh.st, g);
      if dest == mesh.me {
        AppLengths(EndAck(rxBuf.seq8));
        var ret := mesh.SendtoWait(EndAck(rxBuf.seq8), from);
      }
      CallHandler(Message.Message(from, rxBuf.text, hops), was.inbox, g);
    }

    method CallHandler(msg: Message, ghost inbox: seq<Got>, ghost g: Got)
      requires mesh.Valid() && mesh.Mirrors(mesh.st) && mesh.UpToDate() && Told(handled, inbox) && CallsTimed()
      requires g.m.body.Data? && msg == Message.Message(g.m.source, g.m.body.text, g.m.hops)
      modifies `handled, mesh.radio`clock, mesh.radio.handler
      ensures mesh.Valid() && mesh.Mirrors(mesh.st) && mesh.UpToDate()
      ensures handled == old(handled) + [msg] && Told(handled, inbox + [g]) && CallsTimed()
      ensures old(mesh.radio.clock) <= mesh.radio.clock <= old(mesh.radio.clock) + handlerCost
    {
      hide IsRun, Mesh.Owes, Driver.Accounts, Told;
      OneMoreTold(handled, inbox, g);
      handled := handled + [msg];
      var cost: nat :| cost <= handlerCost;
      mesh.radio.Spend(cost);
    }

    /** Node::nextHopTo */
    method NextHopTo(dest: byte) returns (nextHop: Option<byte>)
      requires Valid()
      ensures nextHop == match RT.Find(mesh.routes.slots[..], dest)
                         case Some(e) => if e.state.Valid? then Some(e.nextHop) else None
                         case None => None
    {
      var route := mesh.routes.GetRouteTo(dest);
      nextHop := if route.Some? && route.value.state.Valid? then Some(route.value.nextHop) else None;
    }

    /** Node::poll: handles one message, and says whether one came: DATA is given to the handler, once. */
    method Poll(timeout: nat) returns (arrived: bool)
      requires Valid() && Out(Quiet) && timeout < 0x1_0000
      modifies this, mesh, mesh.seenIds, mesh.routes.slots, mesh.radio, mesh.radio.handler
      ensures Valid() && Out(Quiet) && mesh.st.confirmed == old(mesh.st.confirmed) && mesh.st.asked == old(mesh.st.asked)
      ensures arrived ==> mesh.radio.Remaining() < old(mesh.radio.Remaining()) && exists g: Got, news, p ::
                && NoneForApplication(old(mesh.News()), news) && news + [New(p)] <= mesh.News()
                && ForApplication(p) && g == Got(p.f.m, p.f.from, p.num) && Unaware(Digested(old(mesh.st), g), mesh.st)
                && (if g.m.body.Data? then handled == old(handled) + [Message.Message(g.m.source, g.m.body.text, g.m.hops)]
                    else handled == old(handled))
      ensures !arrived ==>
                && handled == old(handled) && mesh.radio.clock >= old(mesh.radio.clock) + timeout
                && NoneForApplication(old(mesh.News()), mesh.News())
                && (timeout > 0 ==> mesh.radio.Heard() == mesh.radio.taken)
      ensures old(mesh.radio.clock) <= mesh.radio.clock <= old(mesh.radio.clock) + IncomingBound(timeout)
    {
      hide IsRun, Mesh.Owes, Deliver, Digested, Told, Driver.Accounts, Driver.Valid, Mesh.News, Attempts, NoneForApplication;
      ghost var was := mesh.st;
      var r;
      ghost var g;
      r, g := HandleIncoming(timeout, BROADCAST);
      arrived := r != Nothing;
      if arrived {
        DigestedKeeps(was, g);
        if g.m.body.EndAck? {
          AckDigested(was, g);
        }
      }
    }

    /**
      Node::sendRouted: hands the DATA in txBuf over, and tries again to find a route while there is time. In
      between it listens, in slices, for a late reply. However often it tries, the DATA is handed over once at
      most: NO_ROUTE leaves the send where it was. Until then it has tried at least once every Cycle(), and no
      more often than every two discovery timeouts: after a discovery it has listened as long again. Without a
      route timeout it tries once.
    */
    method SendRouted(dest: byte, ghost seq8: byte, ghost text: seq<byte>) returns (ret: Result)
      requires Valid() && Out(Seeking(dest, seq8, text)) && txBuf == Data(seq8, text) && dest !in {mesh.me, BROADCAST}
      requires |text| <= Wire.MESH_MAX - Wire.NODE_HEADER
      modifies this, mesh, mesh.seenIds, mesh.routes.slots, mesh.radio, mesh.radio.handler
      ensures Valid() && !ret.INVALID_LENGTH? && nextSeq == old(nextSeq)
      ensures Out(if ret.NONE? then Waiting(dest, seq8) else if ret.NO_ROUTE? then Seeking(dest, seq8, text) else Quiet)
      ensures mesh.st.asked == old(mesh.st.asked) && mesh.st.confirmed == old(mesh.st.confirmed)
      ensures ret.UNABLE_TO_DELIVER? ==> NextHop(mesh.st.table, dest).None?
      ensures ret.UNABLE_TO_DELIVER? ==> mesh.radio.clock >= old(mesh.radio.clock) + mesh.Waits(mesh.retries + 1)
      ensures ret.NO_ROUTE? ==> mesh.radio.clock >= old(mesh.radio.clock) + routeTimeout
      ensures ret.NO_ROUTE? ==>
                Paced(Attempts(mesh.News()) - Attempts(old(mesh.News())), mesh.radio.clock - old(mesh.radio.clock))
      ensures routeTimeout == 0 ==> Attempts(mesh.News()) == Attempts(old(mesh.News())) + 1
      ensures old(handled) <= handled
      ensures old(mesh.radio.clock) <= mesh.radio.clock <= old(mesh.radio.clock) + RoutedBound()
      ensures mesh.radio.Remaining() <= old(mesh.radio.Remaining())
    {
      hide IsRun, Mesh.Owes, Told, Driver.Accounts, Driver.Valid, Mesh.News, Attempts, NextHop;
      ghost var from, before := mesh.radio.clock, Attempts(mesh.News());
      var start := Millis(mesh.radio.clock);
      ret := TryRouted(dest, seq8, text);
      SinceIsElapsed(from, mesh.radio.clock);
      OneTryPaced(mesh.radio.clock - from);
      while ret.NO_ROUTE? && Since(Millis(mesh.radio.clock), start) < routeTimeout
        invariant Valid() && !ret.INVALID_LENGTH? && nextSeq == old(nextSeq) && txBuf == Data(seq8, text)
        invariant Out(if ret.NONE? then Waiting(dest, seq8) else if ret.NO_ROUTE? then Seeking(dest, seq8, text) else Quiet)
        invariant mesh.st.asked == old(mesh.st.asked) && mesh.st.confirmed == old(mesh.st.confirmed)
        invariant ret.UNABLE_TO_DELIVER? ==> NextHop(mesh.st.table, dest).None?
        invariant ret.UNABLE_TO_DELIVER? ==> mesh.radio.clock >= from + mesh.Waits(mesh.retries + 1)
        invariant old(handled) <= handled
        invariant from <= mesh.radio.clock <= from + RoutedBound()
        invariant Since(Millis(mesh.radio.clock), start) == mesh.radio.clock - from
        invariant ret.NO_ROUTE? ==> Pacing(Attempts(mesh.News()) - before, mesh.radio.clock - from)
        invariant routeTimeout == 0 ==> Attempts(mesh.News()) == before + 1
        invariant mesh.radio.Remaining() <= old(mesh.radio.Remaining())
        decreases ret.NO_ROUTE?, from + routeTimeout - mesh.radio.clock
      {
        ret := ListenAndTry(dest, start, from, before, seq8, text);
        SinceIsElapsed(from, mesh.radio.clock);
      }
    }

    /** One round of sendRouted's loop. */
    method ListenAndTry(dest: byte, start: nat, ghost from: nat, ghost before: nat, ghost seq8: byte, ghost text: seq<byte>) returns (ret: Result)
      requires Valid() && Out(Seeking(dest, seq8, text)) && txBuf == Data(seq8, text) && dest !in {mesh.me, BROADCAST}
      requires |text| <= Wire.MESH_MAX - Wire.NODE_HEADER
      requires start == Millis(from) && from <= mesh.radio.clock < from + routeTimeout
      requires Pacing(Attempts(mesh.News()) - before, mesh.radio.clock - from)
      modifies this, mesh, mesh.seenIds, mesh.routes.slots, mesh.radio, mesh.radio.handler
      ensures Valid() && !ret.INVALID_LENGTH? && nextSeq == old(nextSeq) && txBuf == old(txBuf)
      ensures Out(if ret.NONE? then Waiting(dest, seq8) else if ret.NO_ROUTE? then Seeking(dest, seq8, text) else Quiet)
      ensures mesh.st.asked == old(mesh.st.asked) && mesh.st.confirmed == old(mesh.st.confirmed)
      ensures ret.UNABLE_TO_DELIVER? ==> NextHop(mesh.st.table, dest).None?
      ensures ret.UNABLE_TO_DELIVER? ==> mesh.radio.clock >= from + mesh.Waits(mesh.retries + 1)
      ensures ret.NO_ROUTE? ==> Pacing(Attempts(mesh.News()) - before, mesh.radio.clock - from)
      ensures old(handled) <= handled
      ensures old(mesh.radio.clock) <= mesh.radio.clock <= from + RoutedBound()
      ensures ret.NO_ROUTE? ==> mesh.radio.clock > old(mesh.radio.clock)
      ensures mesh.radio.Remaining() <= old(mesh.radio.Remaining())
    {
      hide IsRun, Mesh.Owes, Told, Driver.Accounts, Driver.Valid, Mesh.News, Attempts, Pacing, NextHop;
      ghost var n, sofar := Attempts(mesh.News()) - before, mesh.radio.clock - from;
      Listen(dest, start, from, seq8, text);
      ghost var listened := mesh.radio.clock - from;
      ret := TryRouted(dest, seq8, text);
      if ret.NO_ROUTE? {
        PacedOn(n, sofar, listened, mesh.radio.clock - from);
      }
    }

    /** From one attempt to the next, at most. */
    function Cycle(): nat {
      mesh.SendBound() + ARP_TIMEOUT + Slice()
    }

    /** n attempts in that time are as many as there should be. */
    ghost predicate Paced(n: int, elapsed: int) {
      n >= 1 && (n - 1) * (2 * ARP_TIMEOUT) <= elapsed <= n * Cycle()
    }

    /** And while there is time left, the next may only come after another wait. */
    ghost predicate Pacing(n: int, elapsed: int) {
      Paced(n, elapsed) && (elapsed < routeTimeout ==> (n - 1) * (2 * ARP_TIMEOUT) + ARP_TIMEOUT <= elapsed)
    }

    lemma OneTryPaced(elapsed: int)
      ensures ARP_TIMEOUT <= elapsed <= mesh.SendBound() ==> Pacing(1, elapsed)
    {
    }

    lemma PacedOn(n: int, sofar: int, listened: int, elapsed: int)
      requires Pacing(n, sofar) && sofar < routeTimeout
      requires sofar <= listened <= sofar + ARP_TIMEOUT + Slice() && (listened >= sofar + ARP_TIMEOUT || listened >= routeTimeout)
      requires listened + ARP_TIMEOUT <= elapsed <= listened + mesh.SendBound()
      ensures Pacing(n + 1, elapsed)
    {
      OneMoreFrame(n, Cycle());
    }

    /** The longest sendRouted can take. */
    function RoutedBound(): nat {
      routeTimeout + Slice() + mesh.SendBound()
    }

    /** One attempt to hand over the DATA in txBuf. */
    method TryRouted(dest: byte, ghost seq8: byte, ghost text: seq<byte>) returns (ret: Result)
      requires Valid() && Out(Seeking(dest, seq8, text)) && txBuf == Data(seq8, text) && dest !in {mesh.me, BROADCAST}
      requires |text| <= Wire.MESH_MAX - Wire.NODE_HEADER
      modifies mesh, mesh.seenIds, mesh.routes.slots, mesh.radio
      ensures Valid() && !ret.INVALID_LENGTH?
      ensures Out(if ret.NONE? then Waiting(dest, seq8) else if ret.NO_ROUTE? then Seeking(dest, seq8, text) else Quiet)
      ensures mesh.st.asked == old(mesh.st.asked) && mesh.st.confirmed == old(mesh.st.confirmed)
      ensures mesh.st.inbox == old(mesh.st.inbox)
      ensures ret.UNABLE_TO_DELIVER? ==> NextHop(mesh.st.table, dest).None?
      ensures ret.UNABLE_TO_DELIVER? ==> mesh.radio.clock >= old(mesh.radio.clock) + mesh.Waits(mesh.retries + 1)
      ensures ret.NO_ROUTE? ==>
                && mesh.radio.clock >= old(mesh.radio.clock) + ARP_TIMEOUT && old(NextHop(mesh.st.table, dest)).None?
                && GoesOut(old(mesh.radio.sent), mesh.radio.sent,
                           mesh.FrameFor(BROADCAST, old(Next8(mesh.lastSequenceNumber)), mesh.RequestFor(dest)))
      ensures Attempts(mesh.News()) == Attempts(old(mesh.News())) + 1
      ensures old(mesh.radio.clock) <= mesh.radio.clock <= old(mesh.radio.clock) + mesh.SendBound()
      ensures mesh.radio.Remaining() <= old(mesh.radio.Remaining())
    {
      hide IsRun, Mesh.Owes, Told, Driver.Accounts, Driver.Valid, Mesh.News, Attempts, GoesOut;
      AppLengths(txBuf);
      ret := mesh.SendtoWait(txBuf, dest);
    }

    /** The inner loop of sendRouted: handle what comes until there is a route, or either time is over, and no shorter. */
    method Listen(dest: byte, start: nat, ghost from: nat, ghost seq8: byte, ghost text: seq<byte>)
      requires Valid() && Out(Seeking(dest, seq8, text))
      requires start == Millis(from) && from <= mesh.radio.clock < from + routeTimeout
      modifies this, mesh, mesh.seenIds, mesh.routes.slots, mesh.radio, mesh.radio.handler
      ensures Valid() && Out(Seeking(dest, seq8, text)) && nextSeq == old(nextSeq) && txBuf == old(txBuf)
      ensures mesh.st.asked == old(mesh.st.asked) && mesh.st.confirmed == old(mesh.st.confirmed)
      ensures old(handled) <= handled
      ensures old(mesh.radio.clock) <= mesh.radio.clock < from + routeTimeout + Slice()
      ensures mesh.radio.clock <= old(mesh.radio.clock) + ARP_TIMEOUT + Slice()
      ensures || NextHop(mesh.st.table, dest).Some? || mesh.radio.clock >= old(mesh.radio.clock) + ARP_TIMEOUT
              || mesh.radio.clock >= from + routeTimeout
      ensures Attempts(mesh.News()) == Attempts(old(mesh.News()))
      ensures mesh.radio.Remaining() <= old(mesh.radio.Remaining())
    {
      hide IsRun, Mesh.Owes, Deliver, Digested, Told, Driver.Accounts, Driver.Valid, Mesh.News, Attempts;
      ghost var listenFrom := mesh.radio.clock;
      var listenStart := Millis(mesh.radio.clock);
      SinceIsElapsed(from, mesh.radio.clock);
      SinceIsElapsed(listenFrom, mesh.radio.clock);
      var next := NextHopTo(dest);
      while next.None? && Since(Millis(mesh.radio.clock), listenStart) < ARP_TIMEOUT && Since(Millis(mesh.radio.clock), start) < routeTimeout
        invariant Valid() && Out(Seeking(dest, seq8, text)) && nextSeq == old(nextSeq) && txBuf == old(txBuf)
        invariant mesh.st.asked == old(mesh.st.asked) && mesh.st.confirmed == old(mesh.st.confirmed)
        invariant old(handled) <= handled
        invariant listenFrom <= mesh.radio.clock < from + routeTimeout + Slice()
        invariant mesh.radio.clock <= listenFrom + ARP_TIMEOUT + Slice() && Attempts(mesh.News()) == Attempts(old(mesh.News()))
        invariant Since(Millis(mesh.radio.clock), listenStart) == mesh.radio.clock - listenFrom
        invariant next.Some? ==> NextHop(mesh.st.table, dest).Some?
        invariant Since(Millis(mesh.radio.clock), start) == mesh.radio.clock - from
        invariant mesh.radio.Remaining() <= old(mesh.radio.Remaining())
        decreases mesh.radio.Remaining(), from + routeTimeout - mesh.radio.clock
      {
        HandleSlice(dest, seq8, text);
        SinceIsElapsed(from, mesh.radio.clock);
        SinceIsElapsed(listenFrom, mesh.radio.clock);
        next := NextHopTo(dest);
      }
    }

    /** One slice: an end-to-end ACK means nothing while the DATA has not been handed over. */
    method HandleSlice(dest: byte, ghost seq8: byte, ghost text: seq<byte>)
      requires Valid() && Out(Seeking(dest, seq8, text))
      modifies this, mesh, mesh.seenIds, mesh.routes.slots, mesh.radio, mesh.radio.handler
      ensures Valid() && Out(Seeking(dest, seq8, text)) && nextSeq == old(nextSeq) && txBuf == old(txBuf)
      ensures mesh.st.asked == old(mesh.st.asked) && mesh.st.confirmed == old(mesh.st.confirmed)
      ensures old(handled) <= handled
      ensures old(mesh.radio.clock) <= mesh.radio.clock <= old(mesh.radio.clock) + Slice()
      ensures mesh.radio.Remaining() <= old(mesh.radio.Remaining())
      ensures mesh.radio.Remaining() == old(mesh.radio.Remaining()) ==> mesh.radio.clock > old(mesh.radio.clock)
      ensures Attempts(mesh.News()) == Attempts(old(mesh.News()))
    {
      hide IsRun, Mesh.Owes, Deliver, Digested, Told, Driver.Accounts, Driver.Valid, Mesh.News, Attempts;
      ghost var was := mesh.st;
      var r;
      ghost var g;
      r, g := HandleIncoming(LISTEN_SLICE, BROADCAST);
      if r != Nothing {
        DigestedKeeps(was, g);
        if g.m.body.EndAck? {
          AckDigested(was, g);
        }
      }
    }

    /** The longest send can take. */
    function SendBound(): nat {
      RoutedBound() + IncomingBound(ackTimeout)
    }

    /**
      Node::send. A bad address or a payload beyond maxPayload() is refused before anything is transmitted.
      Otherwise Delivered means that an end-to-end ACK of the destination with this send's number came in,
      and any other result that none did; HopFailed leaves no route behind, so that the next send looks for one.
    */
    method Send(dest: byte, text: seq<byte>) returns (r: SendResult)
      requires Valid() && Out(Quiet)
      modifies this, mesh, mesh.seenIds, mesh.routes.slots, mesh.radio, mesh.radio.handler
      ensures Valid() && Out(Quiet)
      ensures r.BadAddress? <==> dest in {BROADCAST, mesh.me}
      ensures r.TooLong? <==> dest !in {BROADCAST, mesh.me} && |text| > Wire.MaxPayload(limit)
      ensures r.BadAddress? || r.TooLong? ==>
                && mesh.st == old(mesh.st) && nextSeq == old(nextSeq) && handled == old(handled)
                && mesh.radio.sent == old(mesh.radio.sent) && mesh.radio.clock == old(mesh.radio.clock)
      ensures !r.BadAddress? && !r.TooLong? ==>
                nextSeq == Next8(old(nextSeq)) && mesh.st.asked == old(mesh.st.asked) + [Asked(dest, text)]
      ensures r.Delivered? ==> exists g: Got ::
                && g.m.source == dest && g.m.body == EndAck(old(nextSeq))
                && mesh.st.confirmed == old(mesh.st.confirmed) + [Confirmed(|mesh.st.asked|, g)]
      ensures !r.Delivered? ==> mesh.st.confirmed == old(mesh.st.confirmed)
      ensures r.HopFailed? ==>
                NextHop(mesh.st.table, dest).None? && mesh.radio.clock >= old(mesh.radio.clock) + mesh.Waits(mesh.retries + 1)
      ensures r.NoRoute? ==>
                && mesh.radio.clock >= old(mesh.radio.clock) + routeTimeout
                && Paced(Attempts(mesh.News()) - Attempts(old(mesh.News())), mesh.radio.clock - old(mesh.radio.clock))
      ensures r.NoAck? ==> mesh.radio.clock >= old(mesh.radio.clock) + ackTimeout
      ensures old(handled) <= handled
      ensures old(mesh.radio.clock) <= mesh.radio.clock <= old(mesh.radio.clock) + SendBound()
    {
      hide IsRun, Mesh.Owes, Told, Driver.Accounts, Driver.Valid, Mesh.News, Attempts, Wire.MaxPayload;
      if dest == BROADCAST || dest == mesh.me {
        return BadAddress;
      }
      if |text| > Wire.MaxPayload(limit) {
        return TooLong;
      }
      var seq8 := nextSeq;
      nextSeq := Next8(nextSeq);
      txBuf := Data(seq8, text);
      BeginSend(dest, text, seq8);
      LimitFits(limit);
      var ret := SendRouted(dest, seq8, text);
      match ret {
        case NONE =>
          var acked := AwaitEndAck(dest, seq8);
          r := if acked then Delivered else NoAck;
        case NO_ROUTE =>
          GiveUpSend();
          r := NoRoute;
        case _ =>
          r := HopFailed;
      }
    }

    /** Node::send has passed its checks and taken number seq8. */
    ghost method BeginSend(dest: byte, text: seq<byte>, seq8: byte)
      requires mesh.Valid() && mesh.Mirrors(mesh.st) && mesh.UpToDate() && mesh.st.out.Quiet?
      requires mesh.st.hop.NoHop? && mesh.st.arp.None? && mesh.st.job.None? && mesh.st.nextSeq == seq8 && dest !in {BROADCAST, mesh.me}
      modifies mesh`st, mesh`trail, mesh`events
      ensures mesh.Valid() && mesh.Mirrors(mesh.st) && mesh.UpToDate() && mesh.News() == old(mesh.News())
      ensures mesh.st == old(mesh.st).(out := Seeking(dest, seq8, text), nextSeq := Next8(seq8),
                                       asked := old(mesh.st).asked + [Asked(dest, text)])
    {
      hide IsRun, Mesh.Owes, Driver.Accounts, Driver.Valid, Mesh.News;
      mesh.Log(Call(dest, text), mesh.st.(out := Seeking(dest, seq8, text), nextSeq := Next8(seq8), asked := mesh.st.asked + [Asked(dest, text)]));
    }

    ghost method GiveUpSend()
      requires Valid() && !mesh.st.out.Quiet?
      modifies mesh`st, mesh`trail, mesh`events
      ensures Valid() && mesh.st == old(mesh.st).(out := Quiet) && mesh.News() == old(mesh.News())
    {
      hide IsRun, Mesh.Owes, Told, Driver.Accounts, Driver.Valid;
      mesh.Log(Abandon, mesh.st.(out := Quiet));
    }

    /** The last loop of send: handle what comes until the end-to-end ACK does, or the time is over. */
    method AwaitEndAck(dest: byte, seq8: byte) returns (acked: bool)
      requires Valid() && Out(Waiting(dest, seq8)) && dest != BROADCAST
      modifies this, mesh, mesh.seenIds, mesh.routes.slots, mesh.radio, mesh.radio.handler
      ensures Valid() && Out(Quiet) && nextSeq == old(nextSeq) && mesh.st.asked == old(mesh.st.asked)
      ensures acked ==> exists g: Got ::
                && g.m.source == dest && g.m.body == EndAck(seq8)
                && mesh.st.confirmed == old(mesh.st.confirmed) + [Confirmed(|mesh.st.asked|, g)]
      ensures !acked ==> mesh.st.confirmed == old(mesh.st.confirmed) && mesh.radio.clock >= old(mesh.radio.clock) + ackTimeout
      ensures old(handled) <= handled
      ensures old(mesh.radio.clock) <= mesh.radio.clock <= old(mesh.radio.clock) + IncomingBound(ackTimeout)
    {
      hide IsRun, Mesh.Owes, Told, Deliver, Digested, Driver.Accounts, Driver.Valid, Mesh.News, Attempts, NoneForApplication;
      ghost var from := mesh.radio.clock;
      var start := Millis(mesh.radio.clock);
      SinceIsElapsed(from, mesh.radio.clock);
      mesh.BoundsAreShort();
      var elapsed := Since(Millis(mesh.radio.clock), start);
      while elapsed < ackTimeout
        invariant Valid() && Out(Waiting(dest, seq8)) && nextSeq == old(nextSeq) && mesh.st.asked == old(mesh.st.asked)
        invariant mesh.st.confirmed == old(mesh.st.confirmed) && old(handled) <= handled
        invariant from <= mesh.radio.clock <= from + IncomingBound(ackTimeout)
        invariant elapsed == mesh.radio.clock - from
        decreases mesh.radio.Remaining(), ackTimeout - elapsed
      {
        ghost var was := mesh.st;
        var r;
        ghost var g;
        r, g := HandleIncoming(ackTimeout - elapsed, dest);
        if r != Nothing {
          DigestedKeeps(was, g);
          if g.m.body.EndAck? {
            AckDigested(was, g);
          }
        }
        if r == Ack(seq8) {
          return true;
        }
        SinceIsElapsed(from, mesh.radio.clock);
        elapsed := Since(Millis(mesh.radio.clock), start);
      }
      acked := false;
      GiveUpSend();
    }
  }
}
