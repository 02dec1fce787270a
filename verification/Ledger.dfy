/**
  Why a node hands a message to the hop layer: every entry of its ledger is its own message, or the one
  and only relay of a message it has accepted, or its answer to one.
*/
module Ledger {
  import opened Types
  import opened Protocol
  import opened Learning
  import opened HopSafety
  import RT = RoutingTable

  /** x is what node `me` makes of message y when it passes it on: a forward, or a rebroadcast request. */
  ghost predicate Relayed(me: byte, y: Routed, x: Sent)
  {
    if y.dest != BROADCAST then
      && y.dest != me && y.hops < MAX_HOPS
      && x.m == y.(hops := y.hops + 1)
    else
      && y.body.Request? && y.source != me && me !in y.body.path && y.body.sought != me && |y.body.path| < MAX_HOPS
      && x.m == Routed(BROADCAST, y.source, 0, Request(y.body.sought, y.body.path + [me])) && x.to == BROADCAST
  }

  ghost function EndAckOf(me: byte, y: Routed): Routed
  {
    Routed(y.source, me, 0, EndAck(if y.body.Data? then y.body.seq8 else 0))
  }

  /** x is the response of node `me` to the discovery request y. */
  ghost predicate Responds(me: byte, y: Routed, x: Sent)
  {
    && y.body.Request? && y.dest == BROADCAST && y.source != me && me !in y.body.path && y.body.sought == me
    && x.m == Routed(y.source, me, 0, Response(me, y.body.path))
  }

  /** The DATA of the k-th Node::send. */
  ghost function DataOf(s: NodeState, k: nat): Routed
    requires 1 <= k <= |s.asked|
  {
    Routed(s.asked[k - 1].dest, s.me, 0, Data(Low8(k - 1), s.asked[k - 1].text))
  }

  /** An application call under way, its message, and the discovery made for it fit together. */
  ghost predicate AppOk(s: NodeState)
  {
    && s.nextSeq == Low8(|s.asked|)
    && (forall i :: 0 <= i < |s.asked| ==> s.asked[i].dest !in {s.me, BROADCAST})
    && (s.out.Seeking? ==> s.asked != [] && var a := s.asked[|s.asked| - 1];
          s.out == Seeking(a.dest, Low8(|s.asked| - 1), a.text))
    && (s.out.Waiting? ==> s.asked != [] && s.out == Waiting(s.asked[|s.asked| - 1].dest, Low8(|s.asked| - 1)))
    && (s.arp.Some? ==> HasPending(s) && s.arp.value == Pending(s).m.dest)
    && (s.job.Some? ==> s.job.value.m.body.Data? && s.job.value.m.dest == s.me
                        && (s.job.value.from, s.job.value.num) in s.taken)
    && (s.hop.Sending? && s.hop.x.why.Own? ==>
          s.out.Seeking? && s.job.None? && s.arp.None? && s.hop.x.why.k == |s.asked|)
    && (s.hop.Sending? && s.hop.x.why.Answer? && s.hop.x.m.body.EndAck? ==>
          s.job.Some? && s.arp.None? && s.hop.x.why == Answer(s.job.value.from, s.job.value.num))
  }

  /** The entries a node makes on its own account, and when it may make them. */
  ghost predicate OwnOk(s: NodeState)
  {
    && (forall i :: 0 <= i < |s.ledger| && s.ledger[i].why.Own? ==>
          && 1 <= s.ledger[i].why.k <= |s.asked| && s.ledger[i].m == DataOf(s, s.ledger[i].why.k)
          && (s.ledger[i].why.k == |s.asked| && s.out.Seeking? ==> s.hop.Sending? && s.hop.x == s.ledger[i]))
    && (forall i, j :: 0 <= i < j < |s.ledger| && s.ledger[i].why.Own? && s.ledger[j].why.Own? ==>
          s.ledger[i].why.k != s.ledger[j].why.k)
  }

  /** The entries that react to an accepted message. */
  ghost predicate RelayOk(s: NodeState)
  {
    && (forall i :: 0 <= i < |s.ledger| && !s.ledger[i].why.Own? && !s.ledger[i].why.Ask? ==>
          (s.ledger[i].why.from, s.ledger[i].why.num) in s.taken)
    && (forall i, j :: 0 <= i < j < |s.ledger| && s.ledger[i].why.Relay? && s.ledger[j].why.Relay? ==>
          s.ledger[i].why != s.ledger[j].why)
  }

  ghost predicate Same(g: Got, h: Got) {
    g.from == h.from && g.num == h.num
  }

  /** The handler is called once per accepted DATA frame, and never for the one whose ACK is still under way. */
  ghost predicate InboxOk(s: NodeState)
  {
    && (forall i :: 0 <= i < |s.inbox| ==>
          s.inbox[i].m.body.Data? && s.inbox[i].m.dest in {s.me, BROADCAST} && (s.inbox[i].from, s.inbox[i].num) in s.taken)
    && (forall i, j :: 0 <= i < j < |s.inbox| ==> !Same(s.inbox[i], s.inbox[j]))
    && (s.job.Some? ==> forall i :: 0 <= i < |s.inbox| ==> !Same(s.inbox[i], s.job.value))
  }

  /** g was handed to Node and its handler has been called, or will be when its end-to-end ACK is dealt with. */
  ghost predicate Handled(s: NodeState, g: Got) {
    g in s.inbox || s.job == Some(g)
  }

  /** What justifies the entry x that step e makes. */
  ghost predicate Entered(s: NodeState, e: Event, x: Sent)
  {
    match x.why
    case Own(k) =>
      s.hop.NoHop? && s.out.Seeking? && s.job.None? && k == |s.asked| && k > 0 && x.m == DataOf(s, k)
    case Ask =>
      x.m.body.Request? && x.m == Routed(BROADCAST, s.me, 0, Request(x.m.body.sought, []))
    case Relay(f, k) =>
      e.Take? && Accepts(s, e.p) && e.p.f.from == f && e.p.num == k && Relayed(s.me, e.p.f.m, x)
    case Answer(f, k) =>
      || (s.job.Some? && s.job.value.from == f && s.job.value.num == k && x.m == EndAckOf(s.me, s.job.value.m))
      || (e.Take? && Accepts(s, e.p) && e.p.f.from == f && e.p.num == k && Responds(s.me, e.p.f.m, x))
    case Notice(f, k) =>
      && x.m.source == s.me && x.m.hops == 0 && x.m.body.Failure? && x.m.dest != s.me
      && (|| (e.Take? && Accepts(s, e.p) && e.p.f.from == f && e.p.num == k
              && x.m.dest == e.p.f.m.source && x.m.body == Failure(e.p.f.m.dest) && e.p.f.m.dest != s.me)
          || (e.GiveUp? && s.hop.Sending? && s.hop.x.why == Relay(f, k)
              && x.m.dest == s.hop.x.m.source && x.m.body == Failure(s.hop.x.m.dest)))
  }

  /** A broadcast goes to everybody, anything else along the route in the table. */
  ghost predicate Routed?(s': NodeState, x: Sent)
  {
    if x.m.dest == BROADCAST && x.m.body.Request? then x.to == BROADCAST else NextHop(s'.table, x.m.dest) == Some(x.to)
  }

  ghost predicate Grows(s: NodeState, s': NodeState) {
    |s'.ledger| > |s.ledger|
  }

  ghost predicate EnteredBy(s: NodeState, e: Event, s': NodeState)
  {
    Grows(s, s') ==>
      && Entered(s, e, s'.ledger[|s'.ledger| - 1]) && Routed?(s', s'.ledger[|s'.ledger| - 1])
      && s'.hop == Sending(s'.ledger[|s'.ledger| - 1], 0)
  }

  // ---- Steps -------------------------------------------------------------------------------------

  lemma UndeliverableEnters(s: NodeState, m: Routed, why: Cause)
    ensures var s' := Undeliverable(s, m, why);
            Grows(s, s') ==>
              && why.Relay? && m.source != s.me
              && s'.ledger[|s.ledger|].m == Routed(m.source, s.me, 0, Failure(m.dest))
              && s'.ledger[|s.ledger|].why == Notice(why.from, why.num) && Routed?(s', s'.ledger[|s.ledger|])
  {
  }

  lemma OnRequestEnters(s: NodeState, m: Routed, from: byte, num: nat)
    requires m.body.Request? && m.dest == BROADCAST
    ensures var s' := OnRequest(s, m, from, num);
            Grows(s, s') ==>
              var x := s'.ledger[|s.ledger|];
              && Routed?(s', x)
              && (if m.body.sought == s.me then x.why == Answer(from, num) && Responds(s.me, m, x)
                  else x.why == Relay(from, num) && Relayed(s.me, m, x))
  {
  }

  lemma DeliverInArpEnters(s: NodeState, m: Routed, from: byte)
    requires s.arp.Some? && AppOk(s)
    ensures var s' := DeliverInArp(s, m, from);
            Grows(s, s') ==>
              var x := s'.ledger[|s.ledger|];
              x.m == Pending(s).m && x.why == Pending(s).why && Routed?(s', x)
  {
  }

  lemma PeekKeeps(s: NodeState, m: Routed, from: byte)
    ensures Peek(s, m, from) == s.(table := Peek(s, m, from).table)
  {
  }

  lemma AcceptEnters(s: NodeState, m: Routed, from: byte, num: nat)
    requires AppOk(s) && s.hop.NoHop? && RT.StaleBehind(s.table)
    ensures var s' := Accept(s, m, from, num);
            Grows(s, s') ==>
              var x := s'.ledger[|s.ledger|];
              && Routed?(s', x)
              && (|| (x.why == Relay(from, num) && Relayed(s.me, m, x))
                  || (x.why == Answer(from, num) && Responds(s.me, m, x))
                  || (x.why == Notice(from, num) && s.me !in {m.source, m.dest} && x.m == Routed(m.source, s.me, 0, Failure(m.dest)))
                  || (HasPending(s) && x.m == Pending(s).m && x.why == Pending(s).why))
  {
    PeekKeeps(s, m, from);
    var s1 := Peek(s, m, from);
    if m.dest in {s.me, BROADCAST} {
      if s.arp.Some? {
        DeliverInArpEnters(s1, m, from);
      } else if m.body.Request? && m.dest == BROADCAST {
        OnRequestEnters(s1, m, from, num);
      }
    } else if m.hops < MAX_HOPS && s.router {
      UndeliverableEnters(s1, m.(hops := m.hops + 1), Relay(from, num));
    }
  }

  lemma PendingIs(s: NodeState)
    requires AppOk(s) && HasPending(s)
    ensures s.job.Some? ==> Pending(s).m == EndAckOf(s.me, s.job.value.m) && Pending(s).why == Answer(s.job.value.from, s.job.value.num)
    ensures s.job.None? ==> Pending(s).m == DataOf(s, |s.asked|) && Pending(s).why == Own(|s.asked|) && s.asked != []
    ensures s.job.None? ==> Pending(s).m.dest !in {s.me, BROADCAST}
  {
  }

  /** A new message for the node, one it has not accepted before. */
  ghost predicate TakesNew(s: NodeState, e: Event) {
    e.Take? && Accepts(s, e.p) ==> (e.p.f.from, e.p.num) !in s.taken
  }

  ghost predicate LedgerOk(s: NodeState)
  {
    NodeOk(s) && RT.StaleBehind(s.table) && AppOk(s) && OwnOk(s) && RelayOk(s) && InboxOk(s)
  }

  lemma StepEnters(s: NodeState, e: Event, s': NodeState)
    requires Step(s, e, s') && LedgerOk(s)
    ensures EnteredBy(s, e, s')
  {
    hide Accept, Undeliverable, OwnOk, RelayOk, InboxOk;
    match e
    case Try => PendingIs(s);
    case Take(p, _) =>
      if Accepts(s, p) {
        hide EnteredBy, NodeOk, AppOk;
        AcceptedEnters(s, e, s');
      }
    case GiveUp =>
      UndeliverableEnters(s.(hop := NoHop), s.hop.x.m, s.hop.x.why);
    case _ =>
  }

  lemma AcceptedEnters(s: NodeState, e: Event, s': NodeState)
    requires RT.StaleBehind(s.table) && AppOk(s) && e.Take? && Accepts(s, e.p)
    requires s' == Accept(Noted(s, e.p), e.p.f.m, e.p.f.from, e.p.num)
    ensures EnteredBy(s, e, s')
  {
    hide Accept, Relayed, Responds, Routed?;
    AcceptEnters(Noted(s, e.p), e.p.f.m, e.p.f.from, e.p.num);
    if HasPending(s) {
      PendingIs(s);
    }
  }

  /** What the application layer of the node may see change when a message is accepted. */
  ghost predicate AppAccepts(s: NodeState, m: Routed, from: byte, num: nat, s': NodeState)
  {
    && (s'.out == s.out || (s.out.Waiting? && s'.out.Quiet?))
    && (s'.inbox == s.inbox || (m.body.Data? && m.dest == BROADCAST
                                && s'.inbox == s.inbox + [Got(m, from, num)] && s'.job == s.job && s.job.None?))
    && (s'.job == s.job || (s.job.None? && m.body.Data? && m.dest == s.me && s'.job == Some(Got(m, from, num)) && s'.inbox == s.inbox))
    && (s'.hop.Sending? && s'.hop.x.why.Own? ==> s.out.Seeking? && s'.out == s.out)
    && (s'.confirmed == s.confirmed
        || (s.asked != [] && Confirms(s, m) && s'.confirmed == s.confirmed + [Confirmed(|s.asked|, Got(m, from, num))]))
  }

  lemma AcceptApp(s: NodeState, m: Routed, from: byte, num: nat)
    requires s.hop.NoHop? && RT.StaleBehind(s.table) && AppOk(s) && (from, num) in s.taken && (s.arp.Some? || s.job.None?)
    ensures AppOk(Accept(s, m, from, num)) && AppAccepts(s, m, from, num, Accept(s, m, from, num))
  {
    hide AppOk, AppAccepts, Peek, Forward, OnRequest, Deliver, DeliverInArp, Relayed, Responds, RT.StaleBehind;
    var s1 := Peek(s, m, from);
    PeekKeeps(s, m, from);
    TableIsNotApp(s, s1, m, from, num);
    if m.dest in {s.me, BROADCAST} {
      if s.arp.Some? {
        ArpApp(s1, m, from, num);
      } else if m.body.Request? && m.dest == BROADCAST {
        RequestApp(s1, m, from, num);
      } else {
        DeliverApp(s1, m, from, num);
      }
    } else if m.hops < MAX_HOPS && s.router {
      ForwardApp(s1, m, from, num);
    } else {
      NothingAccepted(s1, m, from, num);
    }
  }

  lemma TableIsNotApp(s: NodeState, s1: NodeState, m: Routed, from: byte, num: nat)
    requires AppOk(s) && s1 == s.(table := s1.table)
    ensures AppOk(s1) && forall s' {:trigger AppAccepts(s, m, from, num, s')} ::
              AppAccepts(s1, m, from, num, s') ==> AppAccepts(s, m, from, num, s')
  {
  }

  lemma NothingAccepted(s: NodeState, m: Routed, from: byte, num: nat)
    requires s.hop.NoHop?
    ensures AppAccepts(s, m, from, num, s)
  {
  }

  /** A reaction beneath the application, on nobody's behalf there. */
  lemma BeneathApp(s: NodeState, m: Routed, from: byte, num: nat, s': NodeState)
    requires s.hop.NoHop? && AppOk(s) && Reacts(s, s') && Beneath(s, s')
    requires s'.hop.Sending? ==> !s'.hop.x.why.Own? && (s'.hop.x.why.Answer? ==> !s'.hop.x.m.body.EndAck?)
    ensures AppOk(s') && AppAccepts(s, m, from, num, s')
  {
  }

  lemma RequestApp(s: NodeState, m: Routed, from: byte, num: nat)
    requires s.hop.NoHop? && s.arp.None? && AppOk(s) && m.body.Request? && m.dest == BROADCAST
    ensures AppOk(Deliver(s, m, from, num)) && AppAccepts(s, m, from, num, Deliver(s, m, from, num))
  {
    hide OnRequest, AppOk, AppAccepts;
    OnRequestEnters(s, m, from, num);
    BeneathApp(s, m, from, num, OnRequest(s, m, from, num));
  }

  lemma ForwardApp(s: NodeState, m: Routed, from: byte, num: nat)
    requires s.hop.NoHop? && AppOk(s) && m.hops < MAX_HOPS
    ensures var s' := Forward(s, m.(hops := m.hops + 1), Relay(from, num)); AppOk(s') && AppAccepts(s, m, from, num, s')
  {
    hide Undeliverable, AppOk, AppAccepts, NextHop;
    var m1 := m.(hops := m.hops + 1);
    UndeliverableEnters(s, m1, Relay(from, num));
    BeneathApp(s, m, from, num, Forward(s, m1, Relay(from, num)));
  }

  lemma ArpApp(s: NodeState, m: Routed, from: byte, num: nat)
    requires s.hop.NoHop? && s.arp.Some? && AppOk(s)
    ensures var s' := DeliverInArp(s, m, from); AppOk(s') && AppAccepts(s, m, from, num, s')
  {
    hide NextHop, AddRoute;
    PendingIs(s);
  }

  lemma DeliverApp(s: NodeState, m: Routed, from: byte, num: nat)
    requires s.hop.NoHop? && s.arp.None? && s.job.None? && AppOk(s) && (from, num) in s.taken
    requires m.dest in {s.me, BROADCAST} && !(m.body.Request? && m.dest == BROADCAST)
    ensures AppOk(Deliver(s, m, from, num)) && AppAccepts(s, m, from, num, Deliver(s, m, from, num))
  {
    hide OnRequest;
  }

  lemma CompleteApp(s: NodeState, ok: bool)
    requires s.hop.Sending? && AppOk(s)
    ensures var s' := Complete(s, ok);
            && AppOk(s')
            && (s'.hop.Sending? ==> s'.hop.x.why.Notice?)
            && (s.hop.x.why.Own? ==> !s'.out.Seeking?)
            && (s.hop.x.why.Own? || s'.out == s.out)
            && (|| (s'.job == s.job && s'.inbox == s.inbox)
                || (s.job.Some? && s'.job.None? && s'.inbox == s.inbox + [s.job.value]))
            && s'.confirmed == s.confirmed
  {
    UndeliverableEnters(s.(hop := NoHop), s.hop.x.m, s.hop.x.why);
    hide Undeliverable;
  }

  /** What the node may find changed in its application fields after a step. */
  ghost predicate AppStep(s: NodeState, e: Event, s': NodeState)
  {
    && (if e.Call? then s'.asked == s.asked + [Asked(e.dest, e.text)] && s.hop.NoHop? && s'.ledger == s.ledger else s'.asked == s.asked)
    && (s'.out.Seeking? && !e.Call? ==> s'.out == s.out && (s.hop.Sending? && s.hop.x.why.Own? ==> s'.hop.Sending? && s'.hop.x == s.hop.x))
    && (s'.job == s.job || s'.job.None?
        || (e.Take? && Accepts(s, e.p) && s.job.None? && s'.inbox == s.inbox && s'.job == Some(Got(e.p.f.m, e.p.f.from, e.p.num))
            && e.p.f.m.body.Data? && e.p.f.m.dest == s.me))
    && (|| s'.inbox == s.inbox
        || (s.job.Some? && s'.job.None? && s'.inbox == s.inbox + [s.job.value])
        || (e.Take? && Accepts(s, e.p) && s'.job == s.job && s.job.None? && s'.inbox == s.inbox + [Got(e.p.f.m, e.p.f.from, e.p.num)]
            && e.p.f.m.body.Data? && e.p.f.m.dest == BROADCAST))
    && (s.job.Some? && s'.job.None? ==> s'.inbox == s.inbox + [s.job.value])
    && (|| s'.confirmed == s.confirmed
        || (e.Take? && Accepts(s, e.p) && s'.asked == s.asked && s.asked != []
            && Confirms(s, e.p.f.m)
            && s'.confirmed == s.confirmed + [Confirmed(|s.asked|, Got(e.p.f.m, e.p.f.from, e.p.num))]))
  }

  /** m is an end-to-end ACK for the send under way, as far as its 8-bit number tells. */
  ghost predicate Confirms(s: NodeState, m: Routed)
    requires s.asked != []
  {
    && m.body.EndAck? && m.dest in {s.me, BROADCAST}
    && m.source == s.asked[|s.asked| - 1].dest && m.body.seq8 == Low8(|s.asked| - 1)
  }

  lemma StepApp(s: NodeState, e: Event, s': NodeState)
    requires Step(s, e, s') && NodeOk(s) && RT.StaleBehind(s.table) && AppOk(s)
    ensures AppOk(s') && AppStep(s, e, s')
  {
    match e
    case Take(p, _) =>
      hide Accept, Complete, NodeOk, AppOk, AppStep;
      if Accepts(s, p) {
        AcceptedApp(s, e, s');
      } else if IsOurAck(s, p.f) {
        HandedMatters(s, Handed(|s.ledger|, s.hop.x.to, p.num, p.last), e, s');
        CompletedApp(s.(handed := s.handed + [Handed(|s.ledger|, s.hop.x.to, p.num, p.last)]), e, s', true);
      } else {
        NothingChanges(s, e);
      }
    case Transmit(_) =>
      hide Complete, NodeOk;
      if s.hop.x.to == BROADCAST { CompletedApp(s, e, s', true); }
    case GiveUp =>
      hide Complete, NodeOk, AppStep;
      CompletedApp(s, e, s', false);
    case Try =>
      hide NodeOk, NextHop;
      PendingIs(s);
    case _ =>
      hide NodeOk;
  }

  lemma CompletedApp(s: NodeState, e: Event, s': NodeState, ok: bool)
    requires s.hop.Sending? && AppOk(s) && s' == Complete(s, ok) && !e.Call?
    ensures AppOk(s') && AppStep(s, e, s')
  {
    hide Complete;
    CompleteApp(s, ok);
  }

  /** The record of hop sends does not concern the application. */
  lemma HandedMatters(s: NodeState, h: Handed, e: Event, s': NodeState)
    requires e.Take? && s.hop.Sending?
    ensures var s0 := s.(handed := s.handed + [h]);
            && (AppOk(s) ==> AppOk(s0)) && (AppStep(s0, e, s') ==> AppStep(s, e, s'))
  {
  }

  lemma NothingChanges(s: NodeState, e: Event)
    requires !e.Call?
    ensures AppStep(s, e, s)
  {
  }

  lemma AcceptedApp(s: NodeState, e: Event, s': NodeState)
    requires RT.StaleBehind(s.table) && AppOk(s) && e.Take? && Accepts(s, e.p) && (s.arp.Some? || s.job.None?)
    requires s' == Accept(Noted(s, e.p), e.p.f.m, e.p.f.from, e.p.num)
    ensures AppOk(s') && AppStep(s, e, s')
  {
    hide Accept;
    AcceptApp(Noted(s, e.p), e.p.f.m, e.p.f.from, e.p.num);
  }

  lemma StepOwn(s: NodeState, e: Event, s': NodeState)
    requires HopStep(s, e, s') && NodeOk(s) && NodeOk(s') && OwnOk(s) && AppOk(s)
    requires AppStep(s, e, s') && EnteredBy(s, e, s')
    ensures OwnOk(s')
  {
    forall i | 0 <= i < |s'.ledger| && s'.ledger[i].why.Own?
      ensures 1 <= s'.ledger[i].why.k <= |s'.asked| && s'.ledger[i].m == DataOf(s', s'.ledger[i].why.k)
      ensures s'.ledger[i].why.k == |s'.asked| && s'.out.Seeking? ==> s'.hop.Sending? && s'.hop.x == s'.ledger[i]
    {
      if i < |s.ledger| {
        assert s'.ledger[i] == s.ledger[i];
      }
    }
    forall i, j | 0 <= i < j < |s'.ledger| && s'.ledger[i].why.Own? && s'.ledger[j].why.Own?
      ensures s'.ledger[i].why.k != s'.ledger[j].why.k
    {
      assert s'.ledger[i] == s.ledger[i];
      if j < |s.ledger| {
        assert s'.ledger[j] == s.ledger[j];
      }
    }
  }

  lemma StepRelay(s: NodeState, e: Event, s': NodeState)
    requires HopStep(s, e, s') && LedgerOk(s) && TakesNew(s, e) && EnteredBy(s, e, s')
    ensures RelayOk(s')
  {
  }

  lemma StepInbox(s: NodeState, e: Event, s': NodeState)
    requires HopStep(s, e, s') && AppOk(s) && InboxOk(s) && TakesNew(s, e) && AppStep(s, e, s')
    ensures InboxOk(s')
  {
  }

  lemma StepLedger(s: NodeState, e: Event, s': NodeState)
    requires Step(s, e, s') && LedgerOk(s) && TakesNew(s, e)
    requires e.Take? && e.p.f.Message? ==> e.p.f.id == Low8(e.p.num)
    ensures LedgerOk(s') && AppStep(s, e, s') && EnteredBy(s, e, s') && HopStep(s, e, s')
  {
    StepIsHopStep(s, e, s');
    StepWithin(s, e, s');
    StepEnters(s, e, s');
    StepApp(s, e, s');
    hide Step, NodeOk, AppOk, OwnOk, RelayOk, InboxOk;
    StepOwn(s, e, s');
    StepRelay(s, e, s');
    StepInbox(s, e, s');
  }
}
