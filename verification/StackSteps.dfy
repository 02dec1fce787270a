/**
  Where the blocking calls of RHReliableDatagram, RHRouter and RHMesh are cut into steps of the reactive
  machine: what each piece of a call amounts to there.
*/
module StackSteps {
  import opened Types
  import opened Protocol
  import RT = RoutingTable
  import Learning

  /** RH_MESH_ARP_TIMEOUT in milliseconds. */
  const ARP_TIMEOUT: nat := 4000

  /** Result codes of the router. */
  datatype Result = NONE | INVALID_LENGTH | NO_ROUTE | UNABLE_TO_DELIVER

  /** trail runs through the states the events lead to from `first`. */
  ghost predicate IsRun(first: NodeState, trail: seq<NodeState>, events: seq<Event>)
  {
    && |trail| == |events| + 1 && trail[0] == first
    && forall i :: 0 <= i < |events| ==> Step(trail[i], events[i], trail[i + 1])
  }

  lemma RunGrows(first: NodeState, trail: seq<NodeState>, events: seq<Event>, e: Event, s: NodeState)
    requires IsRun(first, trail, events) && Step(trail[|trail| - 1], e, s)
    ensures IsRun(first, trail + [s], events + [e])
  {
    hide Step;
    forall i | 0 <= i < |events + [e]|
      ensures Step((trail + [s])[i], (events + [e])[i], (trail + [s])[i + 1])
    {
    }
  }

  /** What an event puts on the air. */
  ghost function Frames(e: Event): seq<Frame> {
    match e
    case Transmit(p) => [p.f]
    case Take(_, reply) => if reply.Some? then [reply.value.f] else []
    case _ => []
  }

  /** What it takes from the air. */
  ghost function Packets(e: Event): seq<Packet> {
    if e.Take? then [e.p] else []
  }

  ghost function AllFrames(events: seq<Event>): seq<Frame> {
    if events == [] then [] else AllFrames(events[..|events| - 1]) + Frames(events[|events| - 1])
  }

  ghost function AllPackets(events: seq<Event>): seq<Packet> {
    if events == [] then [] else AllPackets(events[..|events| - 1]) + Packets(events[|events| - 1])
  }

  /** What is worth noting of a run: a new message for this node, or a call of RHMesh::sendtoWait, by send or for an answer. */
  datatype Note = New(p: Packet) | Tried(bySend: bool)

  ghost function NewsOf(s: NodeState, e: Event): seq<Note> {
    if e.Take? && Learning.Accepts(s, e.p) && e.p.f.m.dest in {s.me, BROADCAST} then [New(e.p)]
    else if e.Try? then [Tried(s.job.None?)]
    else []
  }

  ghost function AllNews(trail: seq<NodeState>, events: seq<Event>): seq<Note> {
    if events == [] || |trail| != |events| + 1 then []
    else AllNews(trail[..|events|], events[..|events| - 1]) + NewsOf(trail[|events| - 1], events[|events| - 1])
  }

  lemma NewsGrow(trail: seq<NodeState>, events: seq<Event>, e: Event, s: NodeState)
    requires |trail| == |events| + 1
    ensures AllNews(trail + [s], events + [e]) == AllNews(trail, events) + NewsOf(trail[|events|], e)
  {
    assert (trail + [s])[..|events| + 1] == trail && (events + [e])[..|events|] == events;
  }

  lemma NoNews(s: NodeState, p: Packet, reply: Option<Packet>)
    requires !Learning.Accepts(s, p) || p.f.m.dest !in {s.me, BROADCAST}
    ensures NewsOf(s, Take(p, reply)) == []
  {
  }

  lemma NewForUs(s: NodeState, p: Packet, reply: Option<Packet>)
    requires Learning.Accepts(s, p) && p.f.m.dest in {s.me, BROADCAST}
    ensures NewsOf(s, Take(p, reply)) == [New(p)]
  {
  }

  lemma TryIsNoted(s: NodeState)
    ensures NewsOf(s, Try) == [Tried(s.job.None?)] && NewsOf(s, ArpExpired) == []
  {
  }

  /** An application message. */
  predicate ForApplication(p: Packet) {
    p.f.Message? && (p.f.m.body.Data? || p.f.m.body.EndAck?)
  }

  /** A reply to a discovery. */
  predicate IsReply(p: Packet) {
    p.f.Message? && p.f.m.body.Response?
  }

  /** From news to news' there were only new messages, and none for the application. */
  ghost predicate NoneForApplication(news: seq<Note>, news': seq<Note>)
  {
    news <= news' && forall i :: |news| <= i < |news'| ==> news'[i].New? && !ForApplication(news'[i].p)
  }

  /** Only new messages, and no reply among them. */
  ghost predicate NoReply(news: seq<Note>, news': seq<Note>)
  {
    news <= news' && forall i :: |news| <= i < |news'| ==> news'[i].New? && !IsReply(news'[i].p)
  }

  lemma NoNewsYet(news: seq<Note>)
    ensures NoReply(news, news) && NoneForApplication(news, news) && news + [] == news
  {
  }

  lemma StillNoReply(before: seq<Note>, news: seq<Note>, news': seq<Note>)
    requires NoReply(before, news) && NoReply(news, news')
    ensures NoReply(before, news')
  {
  }

  lemma StillNone(before: seq<Note>, news: seq<Note>, news': seq<Note>)
    requires NoneForApplication(before, news) && NoneForApplication(news, news')
    ensures NoneForApplication(before, news')
  {
  }

  lemma OneMoreNews(news: seq<Note>, s: NodeState, p: Packet, reply: Option<Packet>)
    ensures !IsReply(p) ==> NoReply(news, news + NewsOf(s, Take(p, reply)))
    ensures !ForApplication(p) ==> NoneForApplication(news, news + NewsOf(s, Take(p, reply)))
  {
  }

  /** How often Node::send has called RHMesh::sendtoWait. */
  ghost function Attempts(news: seq<Note>): nat {
    if news == [] then 0 else Attempts(news[..|news| - 1]) + if news[|news| - 1] == Tried(true) then 1 else 0
  }

  lemma {:induction false} AttemptsSplit(news: seq<Note>, more: seq<Note>)
    ensures Attempts(news + more) == Attempts(news) + Attempts(more)
    decreases |more|
  {
    if more == [] {
      assert news + more == news;
    } else {
      var rest := more[..|more| - 1];
      AttemptsSplit(news, rest);
      assert (news + more)[..|news + more| - 1] == news + rest;
    }
  }

  lemma {:induction false} NoAttempts(more: seq<Note>)
    requires forall i :: 0 <= i < |more| ==> more[i] != Tried(true)
    ensures Attempts(more) == 0
    decreases |more|
  {
    if more != [] { NoAttempts(more[..|more| - 1]); }
  }

  /** Messages are no attempts. */
  lemma OnlyMessages(news: seq<Note>, news': seq<Note>)
    requires NoReply(news, news') || NoneForApplication(news, news')
    ensures Attempts(news') == Attempts(news)
  {
    var more := news'[|news|..];
    assert news' == news + more;
    AttemptsSplit(news, more);
    NoAttempts(more);
  }

  lemma OneMoreNote(news: seq<Note>, x: Note)
    ensures Attempts(news + [x]) == Attempts(news) + if x == Tried(true) then 1 else 0
  {
    assert (news + [x])[..|news|] == news;
  }

  /** A call of sendtoWait is noted once, whether or not it has to discover a route first. */
  lemma NotedOnce(before: seq<Note>, bySend: bool, news: seq<Note>, at: NodeState, lead: Event)
    requires (news == before && lead.Try? && at.job.None? == bySend) || (lead.Take? && NoReply(before + [Tried(bySend)], news))
    ensures before <= news + NewsOf(at, lead)
    ensures Attempts(news + NewsOf(at, lead)) == Attempts(before) + if bySend then 1 else 0
  {
    OneMoreNote(before, Tried(bySend));
    if lead.Take? {
      OnlyMessages(before + [Tried(bySend)], news);
      assert before == (before + [Tried(bySend)])[..|before|];
      assert forall p :: Attempts(news + [New(p)]) == Attempts(news) by {
        forall p ensures Attempts(news + [New(p)]) == Attempts(news) { OneMoreNote(news, New(p)); }
      }
      assert news + [] == news;
    }
  }

  lemma SoughtInVain(before: seq<Note>, bySend: bool, news: seq<Note>)
    requires NoReply(before + [Tried(bySend)], news)
    ensures before <= news && Attempts(news) == Attempts(before) + if bySend then 1 else 0
  {
    OneMoreNote(before, Tried(bySend));
    OnlyMessages(before + [Tried(bySend)], news);
    assert before == (before + [Tried(bySend)])[..|before|];
  }

  /** The hop acknowledgement a send to `to` under this id waits for. */
  predicate FitsAck(f: Frame, to: byte, me: byte, id: byte) {
    f.HopAck? && f.from == to && f.to == me && f.id == id
  }

  /** From `before` on, packets have been read, and none was that. */
  ghost predicate Unanswered(before: seq<Packet>, taken: seq<Packet>, to: byte, me: byte, id: byte)
  {
    before <= taken && forall i :: |before| <= i < |taken| ==> !FitsAck(taken[i].f, to, me, id)
  }

  /** From `before` on, packets have been read, and the last, but none before it, was that. */
  ghost predicate Answered(before: seq<Packet>, taken: seq<Packet>, to: byte, me: byte, id: byte)
  {
    && |before| < |taken| && FitsAck(taken[|taken| - 1].f, to, me, id)
    && Unanswered(before, taken[..|taken| - 1], to, me, id)
  }

  lemma NothingRead(taken: seq<Packet>, to: byte, me: byte, id: byte)
    ensures Unanswered(taken, taken, to, me, id)
  {
  }

  lemma OneMoreRead(before: seq<Packet>, taken: seq<Packet>, p: Packet, to: byte, me: byte, id: byte)
    requires Unanswered(before, taken, to, me, id)
    ensures if FitsAck(p.f, to, me, id) then Answered(before, taken + [p], to, me, id) else Unanswered(before, taken + [p], to, me, id)
  {
    assert (taken + [p])[..|taken|] == taken;
  }

  lemma ReadOn(before: seq<Packet>, taken: seq<Packet>, taken': seq<Packet>, to: byte, me: byte, id: byte)
    requires Unanswered(before, taken, to, me, id)
    ensures Unanswered(taken, taken', to, me, id) ==> Unanswered(before, taken', to, me, id)
    ensures Answered(taken, taken', to, me, id) ==> Answered(before, taken', to, me, id)
  {
  }

  /** Each message in sent[mark..] went out a full timeout after the one before it. */
  ghost predicate Spaced(sent: seq<Frame>, sentAt: seq<nat>, mark: nat, timeout: nat)
  {
    && |sentAt| == |sent|
    && forall i, j :: mark <= i < j < |sent| && sent[i].Message? && sent[j].Message? ==> sentAt[j] >= sentAt[i] + timeout
  }

  /** And that long ago is the last. */
  ghost predicate Waited(sent: seq<Frame>, sentAt: seq<nat>, mark: nat, timeout: nat, now: nat)
  {
    |sentAt| == |sent| && forall i :: mark <= i < |sent| && sent[i].Message? ==> now >= sentAt[i] + timeout
  }

  /** The next frame sent is f, and no frame is taken back. */
  ghost predicate GoesOut(before: seq<Frame>, sent: seq<Frame>, f: Frame)
  {
    before + [f] <= sent
  }

  lemma OutStays(before: seq<Frame>, sent: seq<Frame>, sent': seq<Frame>, f: Frame)
    requires GoesOut(before, sent, f) && sent <= sent'
    ensures GoesOut(before, sent', f)
  {
  }

  lemma OutGrows(before: seq<Frame>, sent: seq<Frame>, f: Frame)
    requires GoesOut(before, sent, f)
    ensures before <= sent && |before| < |sent|
  {
    assert before == (before + [f])[..|before|];
  }

  /** f goes out after sofar; then either it is the first, or the first stays that. */
  lemma FirstOut(before: seq<Frame>, sofar: seq<Frame>, f: Frame, sent: seq<Frame>, first: Frame)
    requires sofar + [f] <= sent && ((sofar == before && f == first) || GoesOut(before, sofar, first))
    ensures GoesOut(before, sent, first)
  {
    assert sofar == (sofar + [f])[..|sofar|];
  }

  lemma WaitedOn(sent: seq<Frame>, sentAt: seq<nat>, mark: nat, timeout: nat, now: nat, later: nat)
    requires Waited(sent, sentAt, mark, timeout, now) && now <= later
    ensures Waited(sent, sentAt, mark, timeout, later)
  {
  }

  /** One more try, sent at `at`, and the acknowledgements sent while waiting for its own. */
  lemma SpacedTry(sent: seq<Frame>, sentAt: seq<nat>, f: Frame, at: nat, sent': seq<Frame>, sentAt': seq<nat>, mark: nat, timeout: nat, now: nat)
    requires Spaced(sent, sentAt, mark, timeout) && Waited(sent, sentAt, mark, timeout, at)
    requires |sentAt'| == |sent'| && sent + [f] <= sent' && sentAt + [at] <= sentAt'
    requires forall i :: |sent| < i < |sent'| ==> sent'[i].HopAck?
    ensures Spaced(sent', sentAt', mark, timeout)
    ensures now >= at + timeout ==> Waited(sent', sentAt', mark, timeout, now)
  {
    assert sent'[|sent|] == (sent + [f])[|sent|] && sentAt'[|sent|] == (sentAt + [at])[|sent|];
    assert forall i :: 0 <= i < |sent| ==> sent'[i] == (sent + [f])[i] == sent[i] && sentAt'[i] == (sentAt + [at])[i] == sentAt[i];
  }

  lemma FramesGrow(events: seq<Event>, e: Event)
    ensures AllFrames(events + [e]) == AllFrames(events) + Frames(e) && AllPackets(events + [e]) == AllPackets(events) + Packets(e)
    ensures AllFrames(events) + Frames(e) + [] == AllFrames(events) + Frames(e)
    ensures AllPackets(events) + Packets(e) + [] == AllPackets(events) + Packets(e)
  {
    assert (events + [e])[..|events|] == events;
  }

  /** How a hop send ended: the state after the event that ended it. */
  ghost function After(s: NodeState, fin: Event): NodeState
    requires s.hop.Sending?
  {
    match fin
    case Take(p, _) => Complete(s.(handed := s.handed + [Handed(|s.ledger|, s.hop.x.to, p.num, p.last)]), true)
    case Transmit(_) => Complete(s, true)
    case _ => Complete(s, false)
  }

  ghost predicate Ends(s: NodeState, fin: Event, ok: bool)
  {
    && s.hop.Sending?
    && Step(s, fin, After(s, fin))
    && ok == !fin.GiveUp?
    && (fin.Transmit? || fin.Take? || fin.GiveUp?)
  }

  lemma TransmitSteps(s: NodeState, p: Packet)
    requires s.hop.Sending? && s.hop.tries < 255
    requires p == Packet(Message(s.hop.x.to, s.me, s.lastSeq, s.hop.tries != 0, s.hop.x.m), |s.ledger|, 0)
    ensures s.hop.x.to == BROADCAST ==> Ends(s, Transmit(p), true)
    ensures s.hop.x.to != BROADCAST ==> Step(s, Transmit(p), s.(hop := Sending(s.hop.x, s.hop.tries + 1)))
  {
  }

  /** Where RHRouter::route would send m. */
  ghost function RouteFor(s: NodeState, m: Routed): Option<byte> {
    if m.dest == BROADCAST then Some(BROADCAST) else NextHop(s.table, m.dest)
  }

  /** The messages in sent[mark..] are copies of one message, under one id; all but the first are marked as retries. */
  ghost predicate Copies(sent: seq<Frame>, mark: nat, me: byte, id: byte, to: byte, m: Routed)
  {
    && mark <= |sent|
    && forall i :: mark <= i < |sent| && sent[i].Message? ==>
         sent[i].m == m && sent[i].to == to && sent[i].from == me && sent[i].id == id && sent[i].retry == (i > mark)
  }

  lemma NoCopies(sent: seq<Frame>, me: byte, id: byte, to: byte, m: Routed)
    ensures Copies(sent, |sent|, me, id, to, m)
  {
  }

  lemma OneMoreCopy(sent: seq<Frame>, f: Frame, mark: nat, me: byte, id: byte, to: byte, m: Routed)
    requires Copies(sent, mark, me, id, to, m)
    requires f.Message? && f.m == m && f.to == to && f.from == me && f.id == id && f.retry == (|sent| > mark)
    ensures Copies(sent + [f], mark, me, id, to, m)
  {
  }

  lemma AcksKeepCopies(sent: seq<Frame>, sent': seq<Frame>, mark: nat, me: byte, id: byte, to: byte, m: Routed)
    requires Copies(sent, mark, me, id, to, m) && |sent| <= |sent'| && sent'[..|sent|] == sent
    requires forall i :: |sent| <= i < |sent'| ==> sent'[i].HopAck?
    ensures Copies(sent', mark, me, id, to, m)
  {
    forall i | mark <= i < |sent'| && sent'[i].Message?
      ensures sent'[i] == sent[i]
    {
      assert sent'[i] == sent'[..|sent|][i];
    }
  }

  lemma GivingUpEnds(s: NodeState)
    requires s.hop.Sending? && s.hop.tries > 0
    ensures Ends(s, GiveUp, false) && Frames(GiveUp) == [] && Packets(GiveUp) == []
  {
  }

  // ---- RHMesh::route --------------------------------------------------------------------------------

  /** RHMesh::route up to where it first waits: m is handed over, or found undeliverable. */
  ghost function Launching(s: NodeState, m: Routed, why: Cause): NodeState {
    if m.dest == BROADCAST then Start(s, m, BROADCAST, why) else Forward(s, m, why)
  }

  /** What the end of m's hop send means above the router. */
  ghost function Settled(s: NodeState, m: Routed, why: Cause, ok: bool): NodeState {
    if why.Own? && s.out.Seeking? then s.(out := if ok then Waiting(s.out.dest, s.out.seq8) else Quiet)
    else if why.Answer? && m.body.EndAck? then FinishJob(s)
    else s
  }

  /** What no call below Node touches, and the ledger, which only grows. */
  ghost predicate Kept(s: NodeState, s': NodeState) {
    && s'.me == s.me && s'.router == s.router && s'.seen == s.seen && s'.lastNum == s.lastNum && s'.taken == s.taken
    && s'.nextSeq == s.nextSeq && s'.asked == s.asked
    && s.ledger <= s'.ledger
  }

  /** The table RHMesh::route leaves behind: as it was, or without the destination it could not reach. */
  ghost predicate TableAfter(t: Slots, m: Routed, me: byte, from: byte, ok: bool, t': Slots) {
    if ok then t' == t
    else if m.source == me then t' == RT.DeleteTo(t, m.dest)
    else
      var u := AddRoute(RT.DeleteTo(t, m.dest), m.source, from);
      t' == u || t' == RT.DeleteTo(u, m.source)
  }

  /** Failure repair: a message that could not be handed over leaves no route to where it was going. */
  lemma NoRouteLeft(t: Slots, m: Routed, me: byte, from: byte, t': Slots)
    requires RT.StaleBehind(t) && TableAfter(t, m, me, from, false, t') && (m.source == me || m.source != m.dest)
    ensures NextHop(t', m.dest) == None
  {
    Learning.DeleteWithin(t, t, {}, from, m.dest);
    if m.source != me {
      var v := RT.DeleteTo(t, m.dest);
      var u := AddRoute(v, m.source, from);
      Learning.AddWithin(v, v, {}, from, m.source);
      Learning.DeleteWithin(u, u, {}, from, m.source);
      assert NextHop(u, m.dest) == None;
    }
  }

  /** A message of the node's own is forwarded as it is routed: nobody else has to be told. */
  lemma OwnIsForwarded(s: NodeState, m: Routed, why: Cause)
    requires m.source == s.me
    ensures Forward(s, m, why) == RouteOwn(s, m, why)
  {
  }

  lemma LaunchingStarts(s: NodeState, m: Routed, why: Cause)
    ensures RouteFor(s, m).Some? ==> Launching(s, m, why) == Start(s, m, RouteFor(s, m).value, why)
    ensures RouteFor(s, m).None? ==> Launching(s, m, why) == Undeliverable(s, m, why)
    ensures m.source == s.me ==> Undeliverable(s, m, why) == s.(table := RT.DeleteTo(s.table, m.dest))
  {
  }

  /** A hop send that ended well: s is the state it ran in, base the one it was started in. */
  lemma EndsWell(base: NodeState, s: NodeState, m: Routed, to: byte, why: Cause, fin: Event)
    requires base.hop.NoHop? && s.hop.Sending? && s == Start(base, m, to, why).(hop := s.hop) && s.hop.x == Sent(m, to, why)
    requires Ends(s, fin, true)
    ensures NewsOf(s, fin) == []
    ensures var s' := After(s, fin);
            && Step(s, fin, s') && s'.hop.NoHop? && Kept(base, s') && s'.table == base.table
            && s'.lastSeq == s.lastSeq && Beneath(Settled(base, m, why, true), s')
            && s'.ledger == base.ledger + [Sent(m, to, why)]
  {
    hide Step;
  }

  /** A hop send that failed: the failure branch goes on from s without the route. */
  lemma EndsBadly(base: NodeState, s: NodeState, m: Routed, to: byte, why: Cause, fin: Event)
    requires base.hop.NoHop? && s.hop.Sending? && s == Start(base, m, to, why).(hop := s.hop) && s.hop.x == Sent(m, to, why)
    requires Ends(s, fin, false)
    ensures NewsOf(s, fin) == []
    ensures fin == GiveUp && Step(s, fin, Complete(s, false))
    ensures m.source == s.me ==>
              var s' := Complete(s, false);
              && s'.hop.NoHop? && Kept(base, s') && s'.table == RT.DeleteTo(base.table, m.dest)
              && s'.lastSeq == s.lastSeq && Beneath(Settled(base, m, why, false), s')
    ensures why.Relay? ==> Complete(s, false) == Undeliverable(s.(hop := NoHop), m, why) && Settled(base, m, why, false) == base
  {
    hide Step;
  }

  /** The failure branch for a message of another node: a route back to it, and a notice along that route. */
  lemma NoticeFollows(s: NodeState, m: Routed, why: Cause)
    requires why.Relay? && m.source != s.me && m.source != BROADCAST
    ensures Undeliverable(s, m, why) ==
            Launching(s.(table := AddRoute(RT.DeleteTo(s.table, m.dest), m.source, why.from)),
                      Routed(m.source, s.me, 0, Failure(m.dest)), Notice(why.from, why.num))
  {
    hide NextHop, AddRoute;
  }

  // ---- What a received message leads to --------------------------------------------------------------

  /** The application layer and doArp have seen nothing between s and s'. */
  ghost predicate Unaware(s: NodeState, s': NodeState) {
    && Beneath(s, s') && s'.me == s.me && s'.router == s.router && s'.nextSeq == s.nextSeq && s'.asked == s.asked
  }

  /** A new message, once RHMesh has peeked at it. */
  ghost function Peeked(s: NodeState, p: Packet): NodeState
    requires Learning.Accepts(s, p)
  {
    Peek(Noted(s, p), p.f.m, p.f.from)
  }

  lemma PeekedKeeps(s: NodeState, p: Packet)
    requires Learning.Accepts(s, p)
    ensures Unaware(s, Peeked(s, p)) && Peeked(s, p).hop.NoHop? && Peeked(s, p).ledger == s.ledger
  {
  }

  /** A message for another node: passed on, or dropped. */
  lemma PassingBy(s: NodeState, p: Packet)
    requires Learning.Accepts(s, p) && p.f.m.dest !in {s.me, BROADCAST}
    ensures Receive(s, p) == if p.f.m.hops < MAX_HOPS && s.router
                             then Launching(Peeked(s, p), p.f.m.(hops := p.f.m.hops + 1), Relay(p.f.from, p.num))
                             else Peeked(s, p)
  {
    hide Forward, Peek;
  }

  /** A message for this node while it waits for a route. */
  lemma ReceivedInArp(s: NodeState, p: Packet)
    requires Learning.Accepts(s, p) && p.f.m.dest in {s.me, BROADCAST} && s.arp.Some? && HasPending(s)
    requires Pending(s).m.dest != BROADCAST
    ensures p.f.m.body.Response? ==>
              var s1 := Peeked(s, p).(table := AddRoute(Peeked(s, p).table, s.arp.value, p.f.from), arp := None);
              && Pending(s1) == Pending(s) && Receive(s, p) == Launching(s1, Pending(s).m, Pending(s).why)
    ensures !p.f.m.body.Response? ==> Receive(s, p) == Peeked(s, p)
  {
    hide Forward, Peek, AddRoute, NextHop;
    PeekedKeeps(s, p);
    if p.f.m.body.Response? {
      var s1 := Peeked(s, p).(table := AddRoute(Peeked(s, p).table, s.arp.value, p.f.from), arp := None);
      assert Pending(s1) == Pending(s);
      OwnIsForwarded(s1, Pending(s).m, Pending(s).why);
    }
  }

  /** A message for this node otherwise. */
  lemma ReceivedIdle(s: NodeState, p: Packet)
    requires Learning.Accepts(s, p) && p.f.m.dest in {s.me, BROADCAST} && s.arp.None?
    ensures Receive(s, p) == Deliver(Peeked(s, p), p.f.m, p.f.from, p.num)
    ensures p.f.m.body.Response? || p.f.m.body.Failure? ==> Receive(s, p) == Peeked(s, p)
    ensures p.f.m.body.Data? || p.f.m.body.EndAck? ==>
              && Peeked(s, p) == Noted(s, p)
              && Unaware(Deliver(s, p.f.m, p.f.from, p.num), Receive(s, p))
              && Receive(s, p).hop.NoHop? && Receive(s, p).arp.None? && Receive(s, p).table == s.table
              && Receive(s, p).seen == Noted(s, p).seen && Receive(s, p).lastSeq == s.lastSeq
    ensures p.f.m.body.Request? ==>
              && Peeked(s, p) == Noted(s, p)
              && Receive(s, p) == if p.f.m.dest == BROADCAST then OnRequest(Noted(s, p), p.f.m, p.f.from, p.num) else Noted(s, p)
  {
    hide OnRequest, Learn, NextHop, AddRoute;
  }

  /** The node after a request has taught it the ways back. */
  ghost function Taught(s: NodeState, m: Routed, from: byte): NodeState
    requires m.body.Request?
  {
    var t1 := AddRoute(s.table, m.source, from);
    s.(table := if s.router then Learn(t1, m.body.path, from) else t1)
  }

  lemma RequestLaunches(s: NodeState, m: Routed, from: byte, num: nat)
    requires m.body.Request? && m.source != BROADCAST
    ensures var s' := OnRequest(s, m, from, num);
            if m.source == s.me || s.me in m.body.path then s' == s
            else if m.body.sought == s.me then
              s' == Launching(Taught(s, m, from), Routed(m.source, s.me, 0, Response(s.me, m.body.path)), Answer(from, num))
            else if |m.body.path| < MAX_HOPS && s.router then
              s' == Launching(Taught(s, m, from), Routed(BROADCAST, m.source, 0, Request(m.body.sought, m.body.path + [s.me])), Relay(from, num))
            else s' == Taught(s, m, from)
  {
    hide Forward, RouteOwn, Learn, AddRoute;
    OwnIsForwarded(Taught(s, m, from), Routed(m.source, s.me, 0, Response(s.me, m.body.path)), Answer(from, num));
  }

  /** What RHMesh::sendtoWait for the pending message means to the application when it returns ret. */
  ghost function Concluded(s: NodeState, ret: Result): NodeState {
    if s.job.Some? then FinishJob(s)
    else if s.out.Seeking? && ret.NONE? then s.(out := Waiting(s.out.dest, s.out.seq8))
    else if s.out.Seeking? && ret.UNABLE_TO_DELIVER? then s.(out := Quiet)
    else s
  }

  /** What an application message does to the application does not depend on the rest of the node. */
  lemma DeliverUnaware(s: NodeState, t: NodeState, m: Routed, from: byte, num: nat)
    requires Unaware(s, t) && (m.body.Data? || m.body.EndAck?)
    ensures Unaware(Deliver(s, m, from, num), Deliver(t, m, from, num))
  {
  }

  lemma NoRouteConcludes(s: NodeState)
    ensures Concluded(s, NO_ROUTE) == FinishJob(s)
  {
  }

  /** With a route, Try hands the pending message over. */
  lemma TryLaunches(s: NodeState)
    requires s.hop.NoHop? && s.arp.None? && HasPending(s) && Pending(s).m.dest != BROADCAST
    requires NextHop(s.table, Pending(s).m.dest).Some?
    ensures Step(s, Try, Launching(s, Pending(s).m, Pending(s).why))
  {
    hide NextHop, Pending;
  }

  /** Without one, it broadcasts a request. */
  lemma TryAsks(s: NodeState)
    requires s.hop.NoHop? && s.arp.None? && HasPending(s) && NextHop(s.table, Pending(s).m.dest).None?
    ensures var d := Pending(s).m.dest;
            Step(s, Try, Launching(s.(arp := Some(d)), Routed(BROADCAST, s.me, 0, Request(d, [])), Ask))
  {
    hide NextHop, Pending;
  }

  /** Only DATA and end-to-end ACKs of the node's own mean something above the router. */
  lemma OthersSettle(s: NodeState, m: Routed, why: Cause, ok: bool)
    requires !why.Own? && (why.Answer? ==> !m.body.EndAck?)
    ensures Settled(s, m, why, ok) == s
  {
  }

  lemma ArpExpires(was: NodeState, s: NodeState, address: byte)
    requires s.hop.NoHop? && was.arp.None? && Unaware(was.(arp := Some(address)), s)
    ensures Step(s, ArpExpired, FinishJob(s.(arp := None)))
    ensures var s' := FinishJob(s.(arp := None));
            Unaware(FinishJob(was), s') && s'.hop.NoHop? && s'.arp.None?
            && s'.table == s.table && s'.seen == s.seen && s'.lastSeq == s.lastSeq
  {
  }

  lemma SettledConcludes(s: NodeState, base: NodeState, s': NodeState, ok: bool)
    requires HasPending(s) && Unaware(s, base) && Kept(base, s') && Beneath(Settled(base, Pending(s).m, Pending(s).why, ok), s')
    ensures Unaware(Concluded(s, if ok then NONE else UNABLE_TO_DELIVER), s') && s'.arp == s.arp
  {
  }

  /** The hop acknowledgement an idle node answers p with, if p is addressed to it alone. */
  ghost function ReplyTo(s: NodeState, p: Packet, retry: bool): Option<Packet>
    requires p.f.Message?
  {
    if p.f.to == s.me then Some(Packet(HopAck(p.f.from, s.me, p.f.id, retry), p.num, Receive(s, p).lastNum[p.f.from])) else None
  }

  /** Acknowledgements and repeats leave an idle node as it is. */
  lemma TakeIgnored(s: NodeState, p: Packet, retry: bool)
    requires s.hop.NoHop? && Listening(s) && p.f.to in {s.me, BROADCAST} && p.f.from != s.me
    requires p.f.HopAck? || p.f.id == s.seen[p.f.from]
    ensures Step(s, Take(p, if p.f.HopAck? then None else ReplyTo(s, p, retry)), s)
  {
  }

  lemma TakeNew(s: NodeState, p: Packet, retry: bool)
    requires s.hop.NoHop? && Listening(s) && p.f.to in {s.me, BROADCAST} && p.f.from != s.me
    requires Learning.Accepts(s, p)
    ensures Step(s, Take(p, ReplyTo(s, p, retry)), Receive(s, p))
    ensures Noted(s, p) == s.(seen := s.seen[p.f.from := p.f.id], lastNum := Noted(s, p).lastNum, taken := Noted(s, p).taken)
  {
    hide Accept;
  }

  // ---- Arithmetic of the timeouts --------------------------------------------------------------------

  /** The longest configured hop timeout for which the computed one does not overflow 16 bits. */
  const MAX_TIMEOUT: nat := 32832

  /** The timeout a try waits for its ACK, before it is cast to 16 bits: random is below 256. */
  function Jittered(timeout: nat, random: byte): nat {
    timeout + timeout * random / 256
  }

  /** Within the limit a try waits between once and twice the configured timeout. */
  lemma JitterBound(timeout: nat, random: byte)
    requires timeout <= MAX_TIMEOUT
    ensures timeout <= Jittered(timeout, random) % 0x1_0000 <= 2 * timeout
    ensures Jittered(timeout, random) < 0x1_0000
  {
    ProductBound(timeout, random);
    ShareBound(timeout, timeout * random);
  }

  /** And beyond it, some tries wait next to nothing: the limit is exact. */
  lemma JitterExact(timeout: nat)
    requires timeout < 0x1_0000
    ensures (forall random: byte :: Jittered(timeout, random) < 0x1_0000) <==> timeout <= MAX_TIMEOUT
  {
    forall random: byte | timeout <= MAX_TIMEOUT
      ensures Jittered(timeout, random) < 0x1_0000
    {
      JitterBound(timeout, random);
    }
    assert timeout > MAX_TIMEOUT ==> Jittered(timeout, 255) >= 0x1_0000;
  }

  /** What `retries` holds when the test of the retry loop is evaluated for the n-th time: it is incremented there. */
  function Counted(n: nat): byte {
    if n == 0 then 0 else Next8(Counted(n - 1))
  }

  /** The body of the retry loop is entered n times at least: as often its test has passed. */
  ghost predicate Rounds(retries: byte, n: nat)
  {
    forall i :: 0 <= i < n ==> Counted(i) <= retries
  }

  lemma NoWrapBelow(b: byte)
    requires b < 255
    ensures Next8(b) == b + 1
  {
  }

  lemma {:induction false} CountsUp(n: nat)
    requires n < 256
    ensures Counted(n) == n
  {
    hide Next8;
    if n > 0 {
      CountsUp(n - 1);
      NoWrapBelow(n - 1);
    }
  }

  /** The loop makes retries + 1 rounds, the first try and the retries; with a limit of 255 it never ends. */
  lemma RetryLoopRounds(retries: byte, n: nat)
    ensures Rounds(retries, n) <==> retries == 255 || n <= retries + 1
  {
    hide Counted;
    if retries < 255 {
      CountsUp(retries + 1);
      if n <= retries + 1 {
        forall i | 0 <= i < n
          ensures Counted(i) <= retries
        {
          CountsUp(i);
        }
      }
    }
  }

  lemma TimesBound(n: nat, t: nat)
    requires n <= 255 && t <= 0x5_0000
    ensures n * t <= 255 * 0x5_0000
  {
    assert n * t <= n * 0x5_0000;
  }

  lemma ProductBound(timeout: nat, random: byte)
    ensures 0 <= timeout * random <= 255 * timeout
  {
    assert timeout * (255 - random) >= 0;
  }

  lemma ShareBound(timeout: nat, product: nat)
    requires timeout <= MAX_TIMEOUT && product <= 255 * timeout
    ensures timeout <= timeout + product / 256 <= 2 * timeout && timeout + product / 256 < 0x1_0000
  {
    var q := product / 256;
    assert 256 * q <= product;
  }
}
