/**
  RHMesh with its base classes RHRouter and RHReliableDatagram, in the blocking form the code has: one object
  whose calls wait for the radio in timed loops.

  The ghost fields st, trail and events show that whatever such an object does is a run of the reactive
  machine of module Protocol: each event is entered at the latest when the object next waits, and st is the
  machine's state. Every method also says within which time it returns.
*/
module MeshStack {
  import opened Types
  import opened Protocol
  import opened Clock
  import opened Radio
  import opened StackSteps
  import RT = RoutingTable
  import Learning
  import Scraping
  import Wire

  /** The length RHMesh::sendtoWait is called with. */
  function AppLength(body: Body): nat {
    |Wire.EncodeBody(body)| - Wire.MESH_HEADER
  }

  lemma AppLengths(body: Body)
    ensures body.Data? ==> AppLength(body) == Wire.NODE_HEADER + |body.text|
    ensures body.EndAck? ==> AppLength(body) == Wire.NODE_HEADER
  {
  }

  /** Has a request been here before? */
  method Mentions(path: seq<byte>, me: byte) returns (found: bool)
    ensures found <==> me in path
  {
    var i := 0;
    while i < |path|
      invariant i <= |path| && me !in path[..i]
    {
      if path[i] == me {
        return true;
      }
      assert path[..i + 1] == path[..i] + [path[i]];
      i := i + 1;
    }
    assert path[..i] == path;
    found := false;
  }

  /** The loops of peekAtMessage: find this node in the list, then learn what comes after it. */
  method LearnBeyond(routes: RT.Table, path: seq<byte>, me: byte, via: byte)
    requires routes.Valid()
    modifies routes.slots
    ensures routes.Valid() && routes.slots[..] == Learn(old(routes.slots[..]), Beyond(path, me), via)
  {
    var i := 0;
    while i < |path| && path[i] != me
      invariant i <= |path| && Beyond(path[i..], me) == Beyond(path, me)
    {
      assert path[i..][1..] == path[i + 1..];
      i := i + 1;
    }
    if i < |path| {
      assert path[i..][1..] == path[i + 1..];
    }
    i := i + 1;
    assert Beyond(path, me) == if i <= |path| then path[i..] else [];
    LearnAll(routes, path, i, via);
  }

  /** addRouteTo for path[i], path[i + 1] and so on. */
  method LearnAll(routes: RT.Table, path: seq<byte>, start: nat, via: byte)
    requires routes.Valid()
    modifies routes.slots
    ensures routes.Valid() && routes.slots[..] == Learn(old(routes.slots[..]), if start <= |path| then path[start..] else [], via)
  {
    var i := start;
    while i < |path|
      invariant routes.Valid()
      invariant Learn(routes.slots[..], if i <= |path| then path[i..] else [], via)
                == Learn(old(routes.slots[..]), if start <= |path| then path[start..] else [], via)
    {
      assert path[i..][0] == path[i] && path[i..][1..] == path[i + 1..];
      routes.AddRouteTo(path[i], via, RT.Valid);
      i := i + 1;
    }
  }

  class Mesh {
    const radio: Driver
    const routes: RT.Table
    const seenIds: array<byte>
    const me: byte
    const isRouter: bool
    const timeout: nat   // _timeout, the hop timeout in milliseconds
    const retries: byte  // _retries

    var lastSequenceNumber: byte
    var retransmissions: nat
    var tmpMessage: Routed  // RHRouter::_tmpMessage
    var meshTmp: Body       // RHMesh::_tmpMessage

    ghost const memory: Slots
    ghost var st: NodeState
    ghost var trail: seq<NodeState>
    ghost var events: seq<Event>

    ghost predicate Valid()
      reads this, radio, radio.handler, routes.slots, seenIds
    {
      && radio.Valid() && radio.me == me && me != BROADCAST
      && routes.Valid()
      && seenIds.Length == 256 && (seenIds as object) != (routes.slots as object)
      && timeout <= MAX_TIMEOUT && retries <= 254
      && IsRun(Fresh(me, isRouter, RT.Cleared(memory)), trail, events) && trail[|trail| - 1] == st
    }

    /** A node as it is switched on, whatever its memory held. */
    constructor (radio: Driver, me: byte, isRouter: bool, timeout: nat, retries: byte, memory: Slots)
      requires radio.Valid() && radio.me == me && me != BROADCAST && timeout <= MAX_TIMEOUT && retries <= 254
      requires radio.sent == [] && radio.taken == []
      ensures Valid() && Mirrors(st) && UpToDate() && this.radio == radio && this.me == me && this.isRouter == isRouter
      ensures this.timeout == timeout && this.retries == retries
      ensures st == Fresh(me, isRouter, RT.Cleared(memory)) && events == []
      ensures fresh(routes) && fresh(routes.slots) && fresh(seenIds)
    {
      this.radio, this.me, this.isRouter, this.timeout, this.retries := radio, me, isRouter, timeout, retries;
      this.memory := memory;
      routes := new RT.Table(memory);
      seenIds := new byte[256](i => 0);
      lastSequenceNumber, retransmissions := 0, 0;
      tmpMessage, meshTmp := Routed(0, 0, 0, EndAck(0)), EndAck(0);
      st, events := Fresh(me, isRouter, RT.Cleared(memory)), [];
      new;
      trail := [st];
      assert seenIds[..] == st.seen;
    }

    /** The fields hold what s says. */
    ghost predicate Mirrors(s: NodeState)
      reads this, routes.slots, seenIds
    {
      && s.me == me && s.router == isRouter
      && s.table == routes.slots[..] && s.seen == seenIds[..]
      && s.lastSeq == lastSequenceNumber
    }

    /** The radio has sent and delivered what the events say, and then fs and ps, which are not entered yet. */
    ghost predicate Owes(fs: seq<Frame>, ps: seq<Packet>)
      reads `events, radio`sent, radio`taken
    {
      radio.sent == AllFrames(events) + fs && radio.taken == AllPackets(events) + ps
    }

    ghost predicate UpToDate()
      reads `events, radio`sent, radio`taken
    {
      Owes([], [])
    }

    /** All is entered but e. */
    ghost predicate Owing(e: Event)
      reads `events, radio`sent, radio`taken
    {
      Owes(Frames(e), Packets(e))
    }

    /** The new messages for this node so far, and the calls of sendtoWait. */
    ghost function News(): seq<Note>
      reads `events, `trail
    {
      AllNews(trail, events)
    }

    ghost method Log(e: Event, s: NodeState)
      requires Valid() && Step(st, e, s) && Owing(e)
      modifies `st, `trail, `events
      ensures Valid() && st == s && UpToDate()
      ensures News() == old(News()) + NewsOf(old(st), e)
    {
      hide Driver.Valid, Step, AllNews, AllFrames, AllPackets, Frames, Packets, NewsOf, RT.Cleared;
      NewsGrow(trail, events, e, s);
      FramesGrow(events, e);
      RunGrows(Fresh(me, isRouter, RT.Cleared(memory)), trail, events, e, s);
      st, trail, events := s, trail + [s], events + [e];
    }

    // ---- RHReliableDatagram ----------------------------------------------------------------------

    /** The longest one try of a hop send can take: its frame, up to twice the timeout, one late frame answered. */
    function PerTry(): nat {
      radio.air + 2 * timeout + radio.tick + radio.air
    }

    function Tries(n: nat): nat {
      if n == 0 then 0 else Tries(n - 1) + PerTry()
    }

    lemma {:induction false} TriesAre(n: nat)
      ensures Tries(n) == n * PerTry()
    {
      if n > 0 { TriesAre(n - 1); }
    }

    lemma {:induction false} MoreTries(n: nat, m: nat)
      requires n <= m
      ensures Tries(n) <= Tries(m)
      decreases m
    {
      if n < m { MoreTries(n, m - 1); }
    }

    /** The shortest n tries take when none is answered. */
    function Waits(n: nat): nat {
      if n == 0 then 0 else Waits(n - 1) + radio.air + timeout
    }

    /** m as it first goes out to `to`. */
    function FrameFor(to: byte, id: byte, m: Routed): Frame {
      Message(to, me, id, false, m)
    }

    /** The longest a hop send can take. */
    function HopBound(): nat {
      Tries(retries + 1)
    }

    method Acknowledge(id: byte, from: byte, ghost p: Packet)
      requires radio.Valid() && radio.me == me && Owes([], [p])
      modifies radio`txId, radio`txAck, radio`sent, radio`sentAt, radio`clock
      ensures radio.Valid() && radio.clock == old(radio.clock) + radio.air
      ensures radio.sent == old(radio.sent) + [HopAck(from, me, id, radio.txRetry)] && old(radio.sentAt) <= radio.sentAt
      ensures Owes([HopAck(from, me, id, radio.txRetry)], [p])
    {
      hide Driver.Accounts;
      radio.txId := id;
      radio.txAck := true;
      radio.Send(from, None);
    }

    /** One transmission of the message in hand, first try or retry. */
    method TransmitOnce(to: byte, id: byte, tries: byte)
      requires radio.Valid() && radio.me == me && UpToDate()
      modifies radio`txId, radio`txAck, radio`txRetry, radio`sent, radio`sentAt, radio`clock
      ensures radio.Valid() && radio.clock == old(radio.clock) + radio.air
      ensures radio.sent == old(radio.sent) + [Message(to, me, id, tries != 1, tmpMessage)]
      ensures Owes([Message(to, me, id, tries != 1, tmpMessage)], []) && radio.sentAt == old(radio.sentAt) + [radio.clock]
    {
      hide Driver.Accounts;
      radio.txId := id;
      radio.txAck := false;
      radio.txRetry := tries != 1;
      radio.Send(to, Some(tmpMessage));
    }

    /** RHDatagram::recvfrom: reads the waiting packet. */
    method Recvfrom() returns (p: Packet)
      requires radio.Valid() && radio.hasCurrent && UpToDate()
      modifies radio`hasCurrent, radio`taken
      ensures radio.Valid() && p == old(radio.current) && radio.Audible(p.f) && radio.rxFrom == p.f.from
      ensures radio.Remaining() + 1 == old(radio.Remaining())
      ensures Owes([], [p]) && radio.taken == old(radio.taken) + [p] && !radio.hasCurrent
    {
      hide Driver.Accounts;
      p := radio.Recv();
    }

    /**
      The retry loop so far: since `before` and `read` nothing has gone out but the message in hand, the first time
      as a new one, each time a full timeout after the last, and the acknowledgements of others; the last timeout
      has passed too, and no packet read was the ACK.
    */
    ghost predicate Trying(before: seq<Frame>, read: seq<Packet>, to: byte, tries: nat)
      reads `lastSequenceNumber, `tmpMessage, radio`sent, radio`sentAt, radio`taken, radio`clock
    {
      && Copies(radio.sent, |before|, me, lastSequenceNumber, to, tmpMessage)
      && Spaced(radio.sent, radio.sentAt, |before|, timeout)
      && Waited(radio.sent, radio.sentAt, |before|, timeout, radio.clock)
      && Unanswered(read, radio.taken, to, me, lastSequenceNumber)
      && (if tries == 0 then radio.sent == before && radio.taken == read
          else GoesOut(before, radio.sent, Message(to, me, lastSequenceNumber, false, tmpMessage)))
    }

    /** The message was handed over, or is out when nobody was to answer. */
    ghost predicate HandedOver(before: seq<Frame>, read: seq<Packet>, to: byte)
      reads `lastSequenceNumber, `tmpMessage, radio`sent, radio`sentAt, radio`taken
    {
      && Copies(radio.sent, |before|, me, lastSequenceNumber, to, tmpMessage)
      && Spaced(radio.sent, radio.sentAt, |before|, timeout)
      && GoesOut(before, radio.sent, Message(to, me, lastSequenceNumber, false, tmpMessage))
      && (if to == BROADCAST then radio.taken == read else Answered(read, radio.taken, to, me, lastSequenceNumber))
    }

    lemma NotTried(to: byte)
      requires radio.Valid()
      ensures Trying(radio.sent, radio.taken, to, 0)
    {
      hide Driver.Accounts;
    }

    /**
      RHReliableDatagram::sendtoWait for the message in _tmpMessage. The step `lead` is what makes the node
      start this hop send (to state s1). The step fin, which ends it, is left to the caller to enter.

      It returns true once the fitting hop ACK is read (a broadcast: once it is out), and false only after
      retries + 1 tries, each with a full timeout of listening, in which everything that arrived was read and
      no packet was that ACK.
    */
    method HopSendtoWait(to: byte, ghost lead: Event, ghost s1: NodeState) returns (ok: bool, ghost fin: Event)
      requires Valid() && Step(st, lead, s1)
      requires s1.hop.Sending? && s1.hop.tries == 0 && s1.hop.x.m == tmpMessage && s1.hop.x.to == to
      requires s1.lastSeq == Next8(lastSequenceNumber) && Mirrors(s1.(lastSeq := lastSequenceNumber))
      requires Owing(lead)
      modifies `lastSequenceNumber, `retransmissions, `st, `trail, `events, radio
      ensures Owing(fin)
      ensures Valid() && Mirrors(st)
      ensures st == s1.(hop := st.hop) && st.hop.Sending? && st.hop.x == s1.hop.x
      ensures Ends(st, fin, ok)
      ensures to == BROADCAST ==> ok
      ensures if to == BROADCAST then retransmissions == old(retransmissions)
              else st.hop.tries >= 1 && retransmissions == old(retransmissions) + (st.hop.tries - 1)
      ensures !ok ==> st.hop.tries == retries + 1 && radio.clock >= old(radio.clock) + Waits(retries + 1)
      ensures if ok then HandedOver(old(radio.sent), old(radio.taken), to)
              else Trying(old(radio.sent), old(radio.taken), to, retries + 1)
      ensures !ok && timeout > 0 ==> radio.Heard() == radio.taken
      ensures News() == old(News()) + NewsOf(old(st), lead)
      ensures !old(radio.hasCurrent) ==> !radio.hasCurrent
      ensures lastSequenceNumber == Next8(old(lastSequenceNumber))
      ensures old(radio.clock) <= radio.clock <= old(radio.clock) + if to == BROADCAST then radio.air else HopBound()
      ensures to == BROADCAST ==> radio.clock == old(radio.clock) + radio.air
      ensures radio.Remaining() <= old(radio.Remaining())
    {
      hide Step, Complete, IsRun, Owes, Ends, Frames, Packets, Driver.Valid, Driver.Accounts, News, NewsOf, Trying, HandedOver;
      lastSequenceNumber := Next8(lastSequenceNumber);
      NotTried(to);
      Log(lead, s1);
      var tries: byte := 0;
      while tries <= retries
        invariant Valid() && UpToDate() && Mirrors(st) && tries <= retries + 1
        invariant st == s1.(hop := st.hop) && st.hop == Sending(s1.hop.x, tries)
        invariant tries > 0 ==> to != BROADCAST
        invariant retransmissions == old(retransmissions) + if tries > 0 then tries - 1 else 0
        invariant Trying(old(radio.sent), old(radio.taken), to, tries)
        invariant News() == old(News()) + NewsOf(old(st), lead)
        invariant !old(radio.hasCurrent) || (tries > 0 && timeout > 0) ==> !radio.hasCurrent
        invariant old(radio.clock) + Waits(tries) <= radio.clock <= old(radio.clock) + Tries(tries)
        invariant radio.Remaining() <= old(radio.Remaining())
      {
        tries := Next8(tries);
        ok, fin := OneTry(to, tries, old(radio.sent), old(radio.taken));
        MoreTries(tries, retries + 1);
        if ok {
          return;
        }
      }
      GivingUpEnds(st);
      radio.AllRead();
      ok, fin := false, GiveUp;
    }

    /** One round of the retry loop; a broadcast is done once it is out. */
    method OneTry(to: byte, tries: byte, ghost before: seq<Frame>, ghost read: seq<Packet>) returns (ok: bool, ghost fin: Event)
      requires Valid() && Mirrors(st) && st.hop.Sending? && st.hop.tries + 1 == tries
      requires st.hop.x.to == to && st.hop.x.m == tmpMessage
      requires Trying(before, read, to, tries - 1) && (to == BROADCAST ==> tries == 1)
      requires UpToDate()
      modifies `retransmissions, `st, `trail, `events, radio
      ensures if ok then Owing(fin) else UpToDate()
      ensures Valid() && Mirrors(st) && st == old(st).(hop := st.hop)
      ensures st.hop.Sending? && st.hop.x == old(st).hop.x
      ensures to != BROADCAST ==> st.hop.tries == tries
      ensures retransmissions == old(retransmissions) + if tries > 1 then 1 else 0
      ensures ok ==> Ends(st, fin, true)
      ensures to == BROADCAST ==> ok
      ensures if ok then HandedOver(before, read, to) else Trying(before, read, to, tries)
      ensures !ok ==> radio.clock >= old(radio.clock) + radio.air + timeout
      ensures News() == old(News()) && (!old(radio.hasCurrent) || (!ok && timeout > 0) ==> !radio.hasCurrent)
      ensures old(radio.clock) <= radio.clock <= old(radio.clock) + if to == BROADCAST then radio.air else PerTry()
      ensures to == BROADCAST ==> radio.clock == old(radio.clock) + radio.air
      ensures radio.Remaining() <= old(radio.Remaining())
    {
      hide Step, Complete, IsRun, Owes, Copies, Ends, Driver.Accounts, News, Spaced, Waited, Unanswered, Answered, GoesOut;
      ghost var sofar, sofarAt, sofarRead, mark := radio.sent, radio.sentAt, radio.taken, |before|;
      TransmitOnce(to, lastSequenceNumber, tries);
      ghost var p := Packet(Message(to, me, lastSequenceNumber, tries != 1, tmpMessage), |st.ledger|, 0);
      ghost var out, at := radio.sent, radio.clock;
      if tries > 1 {
        OutGrows(before, sofar, Message(to, me, lastSequenceNumber, false, tmpMessage));
      }
      OneMoreCopy(sofar, p.f, mark, me, lastSequenceNumber, to, tmpMessage);
      TransmitSteps(st, p);
      WaitedOn(sofar, sofarAt, mark, timeout, old(radio.clock), at);
      if to == BROADCAST {
        ok, fin := true, Transmit(p);
      } else {
        ok, fin := AfterTransmission(to, tries, p);
        AcksKeepCopies(out, radio.sent, mark, me, lastSequenceNumber, to, tmpMessage);
        ReadOn(read, sofarRead, radio.taken, to, me, lastSequenceNumber);
      }
      SpacedTry(sofar, sofarAt, p.f, at, radio.sent, radio.sentAt, mark, timeout, radio.clock);
      FirstOut(before, sofar, p.f, radio.sent, Message(to, me, lastSequenceNumber, false, tmpMessage));
    }

    /** The rest of a try, once the message p is out: count a retransmission, then wait for the ACK. */
    method AfterTransmission(to: byte, tries: byte, ghost p: Packet) returns (ok: bool, ghost fin: Event)
      requires Valid() && Mirrors(st) && to != BROADCAST && tries > 0
      requires st.hop.Sending? && st.hop.tries + 1 == tries && st.hop.x.to == to
      requires Step(st, Transmit(p), st.(hop := Sending(st.hop.x, tries)))
      requires Owing(Transmit(p))
      modifies `retransmissions, `st, `trail, `events, radio
      ensures if ok then Owing(fin) else UpToDate()
      ensures Valid() && Mirrors(st) && st == old(st).(hop := Sending(old(st).hop.x, tries))
      ensures retransmissions == old(retransmissions) + if tries > 1 then 1 else 0
      ensures ok ==> Ends(st, fin, true)
      ensures forall i :: |old(radio.sent)| <= i < |radio.sent| ==> radio.sent[i].HopAck?
      ensures |old(radio.sent)| <= |radio.sent| && radio.sent[..|old(radio.sent)|] == old(radio.sent) && old(radio.sentAt) <= radio.sentAt
      ensures if ok then Answered(old(radio.taken), radio.taken, to, me, lastSequenceNumber)
              else Unanswered(old(radio.taken), radio.taken, to, me, lastSequenceNumber)
      ensures News() == old(News()) && (!old(radio.hasCurrent) || (!ok && timeout > 0) ==> !radio.hasCurrent)
      ensures !ok ==> radio.clock >= old(radio.clock) + timeout
      ensures old(radio.clock) <= radio.clock <= old(radio.clock) + 2 * timeout + radio.tick + radio.air
      ensures radio.Remaining() <= old(radio.Remaining())
    {
      hide Step, Complete, IsRun, Owes, Driver.Accounts, News;
      Log(Transmit(p), st.(hop := Sending(st.hop.x, tries)));
      if tries > 1 {
        retransmissions := retransmissions + 1;
      }
      ok, fin := AwaitAck(to, tries);
    }

    /**
      The inner loop of sendtoWait: wait for our ACK, answer repeats, discard the rest. False means that the whole
      timeout has passed, that everything that arrived was read, and that none of it was our ACK.
    */
    method AwaitAck(to: byte, ghost tries: nat) returns (ok: bool, ghost fin: Event)
      requires Valid() && Mirrors(st) && to != BROADCAST
      requires st.hop.Sending? && st.hop.tries == tries > 0 && st.hop.x.to == to
      requires UpToDate()
      modifies `st, `trail, `events, radio
      ensures if ok then Owing(fin) else UpToDate()
      ensures Valid() && Mirrors(st) && st == old(st)
      ensures ok ==> Ends(st, fin, true)
      ensures !ok && timeout > 0 ==> radio.Heard() == radio.taken
      ensures forall i :: |old(radio.sent)| <= i < |radio.sent| ==> radio.sent[i].HopAck?
      ensures |old(radio.sent)| <= |radio.sent| && radio.sent[..|old(radio.sent)|] == old(radio.sent) && old(radio.sentAt) <= radio.sentAt
      ensures if ok then Answered(old(radio.taken), radio.taken, to, me, lastSequenceNumber)
              else Unanswered(old(radio.taken), radio.taken, to, me, lastSequenceNumber)
      ensures News() == old(News()) && (!old(radio.hasCurrent) || (!ok && timeout > 0) ==> !radio.hasCurrent)
      ensures !ok ==> radio.clock >= old(radio.clock) + timeout
      ensures old(radio.clock) <= radio.clock <= old(radio.clock) + 2 * timeout + radio.tick + radio.air
      ensures radio.Remaining() <= old(radio.Remaining())
    {
      hide Step, IsRun, Owes, Ends, TimeLeft, Driver.Accounts, Frames, Packets, News, FitsAck, Unanswered, Answered;
      fin := GiveUp;
      NothingRead(radio.taken, to, me, lastSequenceNumber);
      ghost var from := radio.clock;
      var thisSendTime := Millis(radio.clock);
      var random: byte := *;
      var limit := Jittered(timeout, random) % 0x1_0000;
      JitterBound(timeout, random);
      TimeLeftIsRight(limit, from, radio.clock);
      var timeLeft := TimeLeft(limit, Millis(radio.clock), thisSendTime);
      while timeLeft > 0
        invariant Valid() && UpToDate() && Mirrors(st) && st == old(st)
        invariant from <= radio.clock <= from + limit + radio.tick + radio.air
        invariant timeLeft == limit - (radio.clock - from)
        invariant |old(radio.sent)| <= |radio.sent| && radio.sent[..|old(radio.sent)|] == old(radio.sent)
        invariant forall i :: |old(radio.sent)| <= i < |radio.sent| ==> radio.sent[i].HopAck?
        invariant old(radio.sentAt) <= radio.sentAt && News() == old(News())
        invariant Unanswered(old(radio.taken), radio.taken, to, me, lastSequenceNumber)
        invariant !old(radio.hasCurrent) || timeLeft != limit ==> !radio.hasCurrent
        invariant radio.Remaining() <= old(radio.Remaining())
        decreases radio.Remaining(), timeLeft
      {
        var arrived := radio.WaitAvailableTimeout(timeLeft);
        if arrived {
          ghost var read := radio.taken;
          var p := Recvfrom();
          OneMoreRead(old(radio.taken), read, p, to, me, lastSequenceNumber);
          ok, fin := WhileWaiting(p, to);
          if ok {
            return;
          }
        }
        TimeLeftIsRight(limit, from, radio.clock);
        timeLeft := TimeLeft(limit, Millis(radio.clock), thisSendTime);
      }
      radio.AllRead();
      ok := false;
    }

    /** A packet that arrives while a hop ACK is awaited. */
    method WhileWaiting(p: Packet, to: byte) returns (ok: bool, ghost fin: Event)
      requires Valid() && Mirrors(st) && radio.Audible(p.f) && to != BROADCAST
      requires st.hop.Sending? && st.hop.tries > 0 && st.hop.x.to == to
      requires Owes([], [p])
      modifies `st, `trail, `events, radio`txId, radio`txAck, radio`sent, radio`sentAt, radio`clock
      ensures if ok then Owing(fin) else UpToDate()
      ensures Valid() && Mirrors(st) && st == old(st)
      ensures ok <==> FitsAck(p.f, to, me, lastSequenceNumber)
      ensures News() == old(News()) && old(radio.sentAt) <= radio.sentAt
      ensures ok ==> Ends(st, fin, true) && radio.sent == old(radio.sent)
      ensures if p.f.Message? && p.f.id == seenIds[p.f.from]
              then exists retry :: radio.sent == old(radio.sent) + [HopAck(p.f.from, me, p.f.id, retry)]
              else radio.sent == old(radio.sent)
      ensures old(radio.clock) <= radio.clock <= old(radio.clock) + radio.air
    {
      hide IsRun, Owes, Driver.Accounts, News;
      fin := Take(p, None);
      if p.f.from == to && p.f.to == me && p.f.HopAck? && p.f.id == lastSequenceNumber {
        ok := true;
      } else if p.f.Message? && p.f.id == seenIds[p.f.from] {
        Acknowledge(p.f.id, p.f.from, p);
        ghost var reply := Packet(HopAck(p.f.from, me, p.f.id, radio.txRetry), p.num, st.lastNum[p.f.from]);
        ok := false;
        Log(Take(p, Some(reply)), st);
      } else {
        ok := false;
        Log(Take(p, None), st);
      }
    }

    /**
      RHReliableDatagram::recvfromAck: takes one packet, acknowledges it if it is addressed to this node, and
      hands it out exactly if it is new. The step of a packet handed out is left to the caller to enter.
    */
    method HopRecvfromAck() returns (got: bool, p: Packet, ghost reply: Option<Packet>)
      requires Valid() && Mirrors(st) && st.hop.NoHop? && Listening(st)
      requires UpToDate()
      modifies seenIds, `st, `trail, `events, radio
      ensures if got then Owing(Take(p, reply)) else UpToDate()
      ensures Valid() && st == old(st)
      ensures !got ==> Mirrors(st)
      ensures got ==> Mirrors(Noted(st, p)) && Learning.Accepts(st, p) && Step(st, Take(p, reply), Receive(st, p))
      ensures got ==> radio.Audible(p.f) && radio.rxFrom == p.f.from
      ensures old(radio.hasCurrent) ==> p == old(radio.current) && (got <==> Learning.Accepts(old(st), p))
      ensures old(radio.hasCurrent) ==>
                if p.f.Message? && p.f.to == me
                then exists retry :: radio.sent == old(radio.sent) + [HopAck(p.f.from, me, p.f.id, retry)]
                else radio.sent == old(radio.sent)
      ensures News() == old(News()) && old(radio.sent) <= radio.sent && !radio.hasCurrent
      ensures old(radio.clock) <= radio.clock <= old(radio.clock) + radio.tick + radio.air
      ensures radio.Remaining() <= old(radio.Remaining())
      ensures old(radio.hasCurrent) ==> radio.Remaining() < old(radio.Remaining())
    {
      hide IsRun, Owes, Step, Receive, Noted, Listening, ReplyTo, Driver.Accounts, News, NewsOf;
      got := radio.Available();
      p := radio.current;
      reply := None;
      if got {
        p := Recvfrom();
        if p.f.HopAck? {
          got := false;
          TakeIgnored(st, p, false);
          NoNews(st, p, None);
          Log(Take(p, None), st);
        } else {
          got, reply := FilterRepeats(p);
        }
      }
    }

    /** The duplicate filter: acknowledge a message to this node, and let it through once. */
    method FilterRepeats(p: Packet) returns (isNew: bool, ghost reply: Option<Packet>)
      requires Valid() && Mirrors(st) && st.hop.NoHop? && Listening(st) && radio.Audible(p.f) && p.f.Message?
      requires Owes([], [p])
      modifies seenIds, `st, `trail, `events, radio`txId, radio`txAck, radio`sent, radio`sentAt, radio`clock
      ensures if isNew then Owing(Take(p, reply)) else UpToDate()
      ensures Valid() && st == old(st)
      ensures !isNew ==> Mirrors(st)
      ensures isNew ==> Mirrors(Noted(st, p)) && Step(st, Take(p, reply), Receive(st, p))
      ensures if p.f.to == me then exists retry :: radio.sent == old(radio.sent) + [HopAck(p.f.from, me, p.f.id, retry)]
              else radio.sent == old(radio.sent)
      ensures (isNew <==> Learning.Accepts(st, p)) && News() == old(News()) && old(radio.sent) <= radio.sent
      ensures old(radio.clock) <= radio.clock <= old(radio.clock) + radio.air
    {
      hide IsRun, Owes, Step, Receive, Noted, Listening, Driver.Accounts, News, NewsOf;
      if p.f.to == me {
        Acknowledge(p.f.id, p.f.from, p);
      }
      reply := ReplyTo(st, p, radio.txRetry);
      isNew := p.f.id != seenIds[p.f.from];
      if isNew {
        TakeNew(st, p, radio.txRetry);
        seenIds[p.f.from] := p.f.id;
      } else {
        TakeIgnored(st, p, radio.txRetry);
        NoNews(st, p, reply);
        Log(Take(p, reply), st);
      }
    }

    // ---- RHRouter --------------------------------------------------------------------------------

    /** RHRouter::route for the message in _tmpMessage; what follows a hop send is left to the caller. */
    method RouterRoute(ghost lead: Event, ghost base: NodeState, ghost why: Cause) returns (ret: Result, ghost fin: Event)
      requires Valid() && Mirrors(base) && base.hop.NoHop?
      requires var n := RouteFor(base, tmpMessage); n.Some? ==> Step(st, lead, Start(base, tmpMessage, n.value, why))
      requires Owing(lead)
      modifies `lastSequenceNumber, `retransmissions, `st, `trail, `events, radio
      ensures Owing(if ret.NO_ROUTE? then lead else fin)
      ensures Valid()
      ensures ret in {NONE, NO_ROUTE, UNABLE_TO_DELIVER} && (ret.NO_ROUTE? <==> RouteFor(base, tmpMessage).None?)
      ensures ret.NO_ROUTE? ==> st == old(st) && Mirrors(base) && News() == old(News()) && radio.clock == old(radio.clock)
      ensures ret.NO_ROUTE? ==> radio.sent == old(radio.sent)
      ensures !ret.NO_ROUTE? ==>
                && News() == old(News()) + NewsOf(old(st), lead)
                && GoesOut(old(radio.sent), radio.sent,
                           Message(RouteFor(base, tmpMessage).value, me, old(Next8(lastSequenceNumber)), false, tmpMessage))
      ensures ret.UNABLE_TO_DELIVER? ==>
                && radio.clock >= old(radio.clock) + Waits(retries + 1)
                && Unanswered(old(radio.taken), radio.taken, RouteFor(base, tmpMessage).value, me, lastSequenceNumber)
      ensures !old(radio.hasCurrent) ==> !radio.hasCurrent
      ensures !ret.NO_ROUTE? ==>
                && st.hop.Sending? && st == Start(base, tmpMessage, RouteFor(base, tmpMessage).value, why).(hop := st.hop)
                && st.hop.x == Sent(tmpMessage, RouteFor(base, tmpMessage).value, why)
                && Ends(st, fin, ret.NONE?) && Mirrors(st)
      ensures tmpMessage.dest == BROADCAST ==> ret.NONE?
      ensures Copies(radio.sent, |old(radio.sent)|, me, lastSequenceNumber, RouteFor(base, tmpMessage).GetOr(0), tmpMessage)
      ensures old(radio.clock) <= radio.clock <= old(radio.clock) + if tmpMessage.dest == BROADCAST then radio.air else HopBound()
      ensures tmpMessage.dest == BROADCAST ==> radio.clock == old(radio.clock) + radio.air
      ensures radio.Remaining() <= old(radio.Remaining())
    {
      hide Step, IsRun, Owes, Ends, Driver.Accounts, Driver.Valid, News, NewsOf, Copies, Spaced, Waited, Unanswered, Answered, GoesOut;
      fin := GiveUp;
      var nextHop := BROADCAST;
      if tmpMessage.dest != BROADCAST {
        var route := routes.GetRouteTo(tmpMessage.dest);
        if route.None? {
          NoCopies(radio.sent, me, lastSequenceNumber, 0, tmpMessage);
          ret := NO_ROUTE;
          return;
        }
        nextHop := route.value.nextHop;
      }
      var delivered;
      delivered, fin := HopSendtoWait(nextHop, lead, Start(base, tmpMessage, nextHop, why));
      ret := if delivered then NONE else UNABLE_TO_DELIVER;
    }

    // ---- RHMesh ------------------------------------------------------------------------------------

    /**
      RHMesh::route for the message in _tmpMessage: hands it over, or forgets the destination and tells the
      source of a proxied message. The notice is routed by this method again, but as a message of this node:
      it provokes no further notice, which is what the termination measure says.
    */
    method Route(ghost lead: Event, ghost base: NodeState, ghost why: Cause) returns (ret: Result, ghost ok: bool)
      requires Valid() && Mirrors(base) && base.hop.NoHop?
      requires Step(st, lead, Launching(base, tmpMessage, why))
      requires tmpMessage.source != me && tmpMessage.dest != BROADCAST ==>
                 why.Relay? && why.from == radio.rxFrom && tmpMessage.source != BROADCAST
      requires Owing(lead)
      modifies this, routes.slots, radio
      ensures UpToDate()
      ensures Valid() && Mirrors(st) && st.hop.NoHop? && Kept(base, st)
      ensures TableAfter(base.table, old(tmpMessage), me, old(radio.rxFrom), ok, st.table)
      ensures Beneath(if RouteFor(base, old(tmpMessage)).None? then base else Settled(base, old(tmpMessage), why, ok), st)
      ensures ok ==> ret.NONE? && st.ledger == base.ledger + [Sent(old(tmpMessage), RouteFor(base, old(tmpMessage)).GetOr(0), why)]
      ensures RouteFor(base, old(tmpMessage)).None? ==> !ok
      ensures old(tmpMessage).dest == BROADCAST ==> ok
      ensures old(tmpMessage).source == me ==>
                && (ret.NONE? <==> ok) && (ret.NO_ROUTE? <==> RouteFor(base, old(tmpMessage)).None?) && !ret.INVALID_LENGTH?
      ensures News() == old(News()) + NewsOf(old(st), lead) && (!old(radio.hasCurrent) ==> !radio.hasCurrent)
      ensures if RouteFor(base, old(tmpMessage)).None? then old(radio.sent) <= radio.sent
              else GoesOut(old(radio.sent), radio.sent,
                           FrameFor(RouteFor(base, old(tmpMessage)).value, old(Next8(lastSequenceNumber)), old(tmpMessage)))
      ensures old(tmpMessage).source == me && ret.UNABLE_TO_DELIVER? ==> radio.clock >= old(radio.clock) + Waits(retries + 1)
      ensures old(radio.clock) <= radio.clock
      ensures radio.clock <= old(radio.clock) + (if old(tmpMessage).dest == BROADCAST then radio.air
                                                 else if old(tmpMessage).source == me then HopBound() else 2 * HopBound())
      ensures old(tmpMessage).dest == BROADCAST ==> radio.clock == old(radio.clock) + radio.air
      ensures radio.Remaining() <= old(radio.Remaining())
      decreases if tmpMessage.source != me && tmpMessage.dest != BROADCAST then 2 else 0, 1
    {
      hide Step, IsRun, Owes, Ends, Launching, Undeliverable, Complete, Settled, Copies, Frames, Packets, RT.DeleteTo, RT.Find, AddRoute,
        Driver.Valid, Driver.Accounts, News, NewsOf, Unanswered, GoesOut;
      var m := tmpMessage;
      var from := radio.rxFrom;
      LaunchingStarts(base, m, why);
      ghost var fin;
      ret, fin := RouterRoute(lead, base, why);
      ok := ret.NONE?;
      ghost var out := radio.sent;
      if ret.NONE? {
        EndsWell(base, st, m, RouteFor(base, m).value, why, fin);
        Log(fin, After(st, fin));
      } else {
        ghost var base1, after := base, Launching(base, m, why);
        if ret.NO_ROUTE? {
          fin := lead;
        } else {
          EndsBadly(base, st, m, RouteFor(base, m).value, why, fin);
            base1, after := st.(hop := NoHop), Complete(st, false);
        }
        if m.source != me {
          NoticeFollows(base1, m, why);
        }
        var found := ret;
        ret := Undelivered(found, m, from, fin, base1, after, why);
        if !found.NO_ROUTE? {
          OutStays(old(radio.sent), out, radio.sent, FrameFor(RouteFor(base, m).value, old(Next8(lastSequenceNumber)), m));
        }
      }
    }

    /** The failure branch of RHMesh::route. The step ev has yet to be entered; it leads to state after. */
    method Undelivered(found: Result, m: Routed, from: byte, ghost ev: Event, ghost base: NodeState, ghost after: NodeState,
                       ghost why: Cause) returns (ret: Result)
      requires Valid() && Mirrors(base) && base.hop.NoHop? && Step(st, ev, after)
      requires m.source == me ==>
                 && after.hop.NoHop? && after.table == RT.DeleteTo(base.table, m.dest)
                 && Mirrors(after.(table := base.table))
      requires m.source != me ==>
                 && m.source != BROADCAST && why.Relay? && from == why.from
                 && after == Launching(base.(table := AddRoute(RT.DeleteTo(base.table, m.dest), m.source, from)),
                                       Routed(m.source, me, 0, Failure(m.dest)), Notice(why.from, why.num))
      requires Owing(ev)
      modifies this, routes.slots, radio
      ensures UpToDate()
      ensures Valid() && Mirrors(st) && st.hop.NoHop?
      ensures TableAfter(base.table, m, me, from, false, st.table)
      ensures m.source == me ==> st == after && ret == found && radio.clock == old(radio.clock)
      ensures m.source != me ==> Kept(base, st) && Beneath(base, st)
      ensures News() == old(News()) + NewsOf(old(st), ev) && (!old(radio.hasCurrent) ==> !radio.hasCurrent)
      ensures old(radio.sent) <= radio.sent
      ensures old(radio.clock) <= radio.clock <= old(radio.clock) + HopBound()
      ensures radio.Remaining() <= old(radio.Remaining())
      decreases if m.source != me then 1 else 0, if m.source != me then 1 else 0
    {
      hide Step, IsRun, Owes, Ends, Launching, Complete, Copies, Frames, Packets, RT.DeleteTo, RT.Find, RT.Add, Settled,
        Driver.Accounts, News, NewsOf, GoesOut;
      ret := found;
      var known := routes.DeleteRouteTo(m.dest);
      if m.source == me {
        Log(ev, after);
      } else {
        meshTmp := Failure(m.dest);
        routes.AddRouteTo(m.source, from, RT.Valid);
        ghost var u := AddRoute(RT.DeleteTo(base.table, m.dest), m.source, from);
        ghost var ok;
        ret, ok := RouterSendtoWait(meshTmp, m.source, me, ev, base.(table := u), Notice(why.from, why.num));
        OthersSettle(base.(table := u), Routed(m.source, me, 0, Failure(m.dest)), Notice(why.from, why.num), ok);
      }
    }

    /** RHRouter::sendtoFromSourceWait: a new message around the given payload, in the name of source. */
    method RouterSendtoWait(body: Body, dest: byte, source: byte, ghost lead: Event, ghost base: NodeState, ghost why: Cause)
      returns (ret: Result, ghost ok: bool)
      requires Valid() && Mirrors(base) && base.hop.NoHop?
      requires source == me || dest == BROADCAST
      requires Step(st, lead, Launching(base, Routed(dest, source, 0, body), why))
      requires Owing(lead)
      modifies this, routes.slots, radio
      ensures UpToDate()
      ensures Valid() && Mirrors(st) && st.hop.NoHop? && Kept(base, st)
      ensures ok ==> st.table == base.table
      ensures !ok ==> st.table == RT.DeleteTo(base.table, dest)
      ensures var m := Routed(dest, source, 0, body);
              && Beneath(if RouteFor(base, m).None? then base else Settled(base, m, why, ok), st)
              && (ok ==> st.ledger == base.ledger + [Sent(m, RouteFor(base, m).GetOr(0), why)])
              && (ret.NONE? <==> ok) && (ret.NO_ROUTE? <==> RouteFor(base, m).None?) && !ret.INVALID_LENGTH?
      ensures dest == BROADCAST ==> ok
      ensures News() == old(News()) + NewsOf(old(st), lead) && (!old(radio.hasCurrent) ==> !radio.hasCurrent)
      ensures old(radio.sent) <= radio.sent
      ensures var m := Routed(dest, source, 0, body);
              RouteFor(base, m).Some? ==>
                GoesOut(old(radio.sent), radio.sent, FrameFor(RouteFor(base, m).value, old(Next8(lastSequenceNumber)), m))
      ensures source == me && ret.UNABLE_TO_DELIVER? ==> radio.clock >= old(radio.clock) + Waits(retries + 1)
      ensures old(radio.clock) <= radio.clock <= old(radio.clock) + if dest == BROADCAST then radio.air else HopBound()
      ensures dest == BROADCAST ==> radio.clock == old(radio.clock) + radio.air
      ensures radio.Remaining() <= old(radio.Remaining())
      decreases 1, 0
    {
      hide Step, IsRun, Owes, Ends, Launching, Complete, Copies, AddRoute, Settled, Driver.Accounts, News, NewsOf, GoesOut;
      tmpMessage := Routed(dest, source, 0, body);
      ghost var m := tmpMessage;
      ret, ok := Route(lead, base, why);
      if RouteFor(base, m).Some? {
        OutGrows(old(radio.sent), radio.sent, FrameFor(RouteFor(base, m).value, old(Next8(lastSequenceNumber)), m));
      }
    }

    /**
      RHMesh::peekAtMessage: forgets the lost destination of a failure and no other, and scrapes routes from a passing
      response: with room in the table, exactly to its target and to the nodes listed after this one.
    */
    method PeekAtMessage(ghost s: NodeState)
      requires Valid() && Mirrors(s)
      modifies routes.slots
      ensures Valid() && Mirrors(Peek(s, tmpMessage, radio.rxFrom))
      ensures tmpMessage.body.Failure? ==> forall d: byte ::
                NextHop(routes.slots[..], d) == if d == tmpMessage.body.lost then None else NextHop(old(routes.slots[..]), d)
      ensures tmpMessage.body.Response? && Scraping.RoomFor(old(routes.slots[..]), me, tmpMessage, radio.rxFrom) ==> forall d: byte ::
                NextHop(routes.slots[..], d) == if d == tmpMessage.body.target || Scraping.ListedAfter(tmpMessage.body.path, me, d)
                                                then Some(radio.rxFrom) else NextHop(old(routes.slots[..]), d)
    {
      hide IsRun, Owes, RT.Add, RT.DeleteTo, RT.Find, Learn, Beyond, Driver.Accounts, Driver.Valid, Scraping.RoomFor, Scraping.ListedAfter;
      match tmpMessage.body {
        case Response(target, path) =>
          routes.AddRouteTo(target, radio.rxFrom, RT.Valid);
          LearnBeyond(routes, path, me, radio.rxFrom);
        case Failure(lost) =>
          var known := routes.DeleteRouteTo(lost);
        case _ =>
      }
      forall d: byte
        ensures tmpMessage.body.Failure? ==>
                  NextHop(routes.slots[..], d) == if d == tmpMessage.body.lost then None else NextHop(s.table, d)
        ensures tmpMessage.body.Response? && Scraping.RoomFor(s.table, me, tmpMessage, radio.rxFrom) ==>
                  NextHop(routes.slots[..], d) == if d == tmpMessage.body.target || Scraping.ListedAfter(tmpMessage.body.path, me, d)
                                                  then Some(radio.rxFrom) else NextHop(s.table, d)
      {
        PeekTeaches(s, d);
      }
    }

    lemma PeekTeaches(s: NodeState, d: byte)
      requires s.me == me && RT.StaleBehind(s.table)
      ensures var t := Peek(s, tmpMessage, radio.rxFrom).table;
              && (tmpMessage.body.Failure? ==> NextHop(t, d) == if d == tmpMessage.body.lost then None else NextHop(s.table, d))
              && (tmpMessage.body.Response? && Scraping.RoomFor(s.table, me, tmpMessage, radio.rxFrom) ==>
                    NextHop(t, d) == if d == tmpMessage.body.target || Scraping.ListedAfter(tmpMessage.body.path, me, d)
                                     then Some(radio.rxFrom) else NextHop(s.table, d))
    {
      hide NextHop, Peek, Scraping.RoomFor, Scraping.ListedAfter;
      if tmpMessage.body.Failure? {
        Scraping.HeedsFailure(s, tmpMessage, radio.rxFrom, d);
      }
      if tmpMessage.body.Response? && Scraping.RoomFor(s.table, me, tmpMessage, radio.rxFrom) {
        Scraping.ScrapesResponse(s, tmpMessage, radio.rxFrom, d);
      }
    }

    /** The longest RHRouter::recvfromAck and RHMesh::recvfromAck can take: they may forward, and report that it failed. */
    function RecvBound(): nat {
      radio.tick + radio.air + 2 * HopBound()
    }

    /**
      RHRouter::recvfromAck: hands out exactly a new message for this node (its step is left to the caller to
      enter), forwards or drops one for another.
    */
    method RouterRecvfromAck() returns (got: bool, ghost p: Packet, ghost reply: Option<Packet>)
      requires Valid() && Mirrors(st) && st.hop.NoHop? && Listening(st)
      requires UpToDate()
      modifies this, seenIds, routes.slots, radio
      ensures if got then Owing(Take(p, reply)) else UpToDate()
      ensures Valid() && st.hop.NoHop?
      ensures got ==>
                && st == old(st) && Learning.Accepts(st, p) && Step(st, Take(p, reply), Receive(st, p)) && Mirrors(Peeked(st, p))
                && p.f.m.dest in {me, BROADCAST} && p.f.m.source != BROADCAST && radio.rxFrom == p.f.from
                && tmpMessage == p.f.m && meshTmp == p.f.m.body
                && radio.clock <= old(radio.clock) + radio.tick + radio.air
      ensures !got ==> Mirrors(st) && Unaware(old(st), st)
      ensures old(radio.hasCurrent) ==>
                var q := old(radio.current);
                (got <==> Learning.Accepts(old(st), q) && q.f.m.dest in {me, BROADCAST}) && (got ==> p == q)
      ensures News() == old(News()) && old(radio.sent) <= radio.sent && !radio.hasCurrent
      ensures old(radio.clock) <= radio.clock <= old(radio.clock) + RecvBound()
      ensures radio.Remaining() <= old(radio.Remaining())
      ensures old(radio.hasCurrent) ==> radio.Remaining() < old(radio.Remaining())
    {
      hide IsRun, Owes, Step, Receive, Noted, Peek, Launching, Driver.Accounts, News, NewsOf;
      var q;
      got, q, reply := HopRecvfromAck();
      p := q;
      if got {
        tmpMessage := q.f.m;
        PeekAtMessage(Noted(st, p));
        if tmpMessage.dest == me || tmpMessage.dest == BROADCAST {
          meshTmp := tmpMessage.body;
        } else {
          got := false;
          PassOn(p, reply);
        }
      }
    }

    /** The message in _tmpMessage is not for this node: count the hop, and route it if there are hops left. */
    method PassOn(ghost p: Packet, ghost reply: Option<Packet>)
      requires Valid() && st.hop.NoHop? && Learning.Accepts(st, p) && Step(st, Take(p, reply), Receive(st, p)) && Mirrors(Peeked(st, p))
      requires tmpMessage == p.f.m && p.f.m.dest !in {me, BROADCAST} && p.f.m.source != BROADCAST && radio.rxFrom == p.f.from
      requires Owing(Take(p, reply))
      modifies this, routes.slots, radio
      ensures UpToDate()
      ensures Valid() && st.hop.NoHop? && Mirrors(st) && Unaware(old(st), st)
      ensures News() == old(News()) && old(radio.sent) <= radio.sent && (!old(radio.hasCurrent) ==> !radio.hasCurrent)
      ensures old(radio.clock) <= radio.clock <= old(radio.clock) + 2 * HopBound()
      ensures radio.Remaining() <= old(radio.Remaining())
    {
      hide IsRun, Owes, Step, Receive, Noted, Peek, Launching, Learning.Accepts, Driver.Accounts, News, NewsOf, GoesOut;
      PeekedKeeps(st, p);
      NoNews(st, p, reply);
      PassingBy(st, p);
      var hops := tmpMessage.hops;
      tmpMessage := tmpMessage.(hops := Next8(hops));
      if hops < MAX_HOPS && isRouter {
        var ret;
        ghost var ok;
        ghost var base, m := Peeked(st, p), tmpMessage;
        ret, ok := Route(Take(p, reply), base, Relay(p.f.from, p.num));
        if RouteFor(base, m).Some? {
          OutGrows(old(radio.sent), radio.sent, FrameFor(RouteFor(base, m).value, old(Next8(lastSequenceNumber)), m));
        }
      } else {
        Log(Take(p, reply), Peeked(st, p));
      }
    }

    /** RHMesh's discovery timeout, and the longest doArp can take. */
    function ArpBound(): nat {
      radio.air + ARP_TIMEOUT + radio.tick + RecvBound()
    }

    function RequestFor(address: byte): Routed {
      Routed(BROADCAST, me, 0, Request(address, []))
    }

    /**
      RHMesh::doArp: broadcasts a request for a route to `address` and waits for a response. The step of the
      response that ends it is left to the caller to enter: it leads on to the pending message. It fails only
      after listening for the whole timeout: everything that arrived was read, and no new message for this node
      was a response.
    */
    method DoArp(address: byte) returns (found: bool, ghost lead: Event, ghost base: NodeState)
      requires Valid() && Mirrors(st) && st.hop.NoHop? && st.arp.None? && HasPending(st)
      requires Pending(st).m.dest == address != BROADCAST && NextHop(st.table, address).None?
      requires UpToDate()
      modifies this, seenIds, routes.slots, radio
      ensures if found then Owing(lead) else UpToDate()
      ensures Valid() && st.hop.NoHop?
      ensures found ==>
                && Mirrors(base) && base.hop.NoHop? && Unaware(old(st), base) && Pending(base) == Pending(old(st))
                && lead.Take? && IsReply(lead.p) && NextHop(base.table, address) == Some(lead.p.f.from)
                && Step(st, lead, Launching(base, Pending(base).m, Pending(base).why))
      ensures !found ==>
                && Mirrors(st) && st.arp.None? && Unaware(FinishJob(old(st)), st)
                && radio.clock >= old(radio.clock) + radio.air + ARP_TIMEOUT && radio.Heard() == radio.taken
      ensures NoReply(old(News()) + [Tried(old(st).job.None?)], News())
      ensures GoesOut(old(radio.sent), radio.sent, FrameFor(BROADCAST, old(Next8(lastSequenceNumber)), RequestFor(address)))
      ensures old(radio.clock) <= radio.clock <= old(radio.clock) + ArpBound()
      ensures radio.Remaining() <= old(radio.Remaining())
    {
      hide IsRun, Owes, Step, Receive, Noted, Peek, Launching, FinishJob, RT.Add, RT.Find, Driver.Accounts, News, NewsOf, NoReply, GoesOut;
      lead, base := ArpExpired, st;
      ghost var was, asking := st, st.(arp := Some(address));
      TryAsks(st);
      meshTmp := Request(address, []);
      var error;
      ghost var ok;
      error, ok := RouterSendtoWait(meshTmp, BROADCAST, me, Try, asking, Ask);
      if error != NONE {
        assert false;
      }
      OthersSettle(asking, RequestFor(address), Ask, ok);
      TryIsNoted(was);
      ghost var sofar := radio.sent;
      found, lead, base := AwaitReply(address, was);
      OutStays(old(radio.sent), sofar, radio.sent, FrameFor(BROADCAST, old(Next8(lastSequenceNumber)), RequestFor(address)));
    }

    /** The loop of doArp. */
    method AwaitReply(address: byte, ghost was: NodeState) returns (found: bool, ghost lead: Event, ghost base: NodeState)
      requires Valid() && Mirrors(st) && st.hop.NoHop? && was.arp.None? && HasPending(was)
      requires Pending(was).m.dest == address != BROADCAST && Unaware(was.(arp := Some(address)), st)
      requires UpToDate()
      modifies this, seenIds, routes.slots, radio
      ensures if found then Owing(lead) else UpToDate()
      ensures Valid() && st.hop.NoHop?
      ensures found ==>
                && Mirrors(base) && base.hop.NoHop? && Unaware(was, base) && Pending(base) == Pending(was)
                && lead.Take? && IsReply(lead.p) && NextHop(base.table, address) == Some(lead.p.f.from)
                && Step(st, lead, Launching(base, Pending(base).m, Pending(base).why))
      ensures !found ==>
                && Mirrors(st) && st.arp.None? && Unaware(FinishJob(was), st)
                && radio.clock >= old(radio.clock) + ARP_TIMEOUT && radio.Heard() == radio.taken
      ensures NoReply(old(News()), News()) && old(radio.sent) <= radio.sent
      ensures old(radio.clock) <= radio.clock <= old(radio.clock) + ARP_TIMEOUT + radio.tick + RecvBound()
      ensures radio.Remaining() <= old(radio.Remaining())
    {
      hide IsRun, Owes, Step, Receive, Noted, Peek, Launching, FinishJob, TimeLeft, RT.Add, RT.Find, Driver.Accounts, News, NewsOf, NoReply;
      lead, base := ArpExpired, st;
      NoNewsYet(old(News()));
      ghost var asking := was.(arp := Some(address));
      ghost var from := radio.clock;
      var startTime := Millis(radio.clock);
      BoundsAreShort();
      TimeLeftIsRight(ARP_TIMEOUT, from, radio.clock);
      var timeLeft := TimeLeft(ARP_TIMEOUT, Millis(radio.clock), startTime);
      while timeLeft > 0
        invariant Valid() && UpToDate() && Mirrors(st) && st.hop.NoHop? && Unaware(asking, st)
        invariant NoReply(old(News()), News()) && old(radio.sent) <= radio.sent
        invariant timeLeft != ARP_TIMEOUT ==> !radio.hasCurrent
        invariant from <= radio.clock <= from + ARP_TIMEOUT + radio.tick + RecvBound()
        invariant timeLeft == ARP_TIMEOUT - (radio.clock - from)
        invariant radio.Remaining() <= old(radio.Remaining())
        decreases radio.Remaining(), timeLeft
      {
        var arrived := radio.WaitAvailableTimeout(timeLeft);
        if arrived {
          ghost var news := News();
          found, lead, base := ArpReceive(address);
          StillNoReply(old(News()), news, News());
          if found {
            return;
          }
        }
        TimeLeftIsRight(ARP_TIMEOUT, from, radio.clock);
        timeLeft := TimeLeft(ARP_TIMEOUT, Millis(radio.clock), startTime);
      }
      found := false;
      radio.AllRead();
      NoNewsYet(News());
      TryIsNoted(st);
      ArpExpires(was, st, address);
      Log(ArpExpired, FinishJob(st.(arp := None)));
    }

    /** One round of doArp's loop: any route response ends it. */
    method ArpReceive(address: byte) returns (found: bool, ghost lead: Event, ghost base: NodeState)
      requires Valid() && Mirrors(st) && st.hop.NoHop? && st.arp == Some(address) && HasPending(st)
      requires Pending(st).m.dest == address != BROADCAST && radio.hasCurrent
      requires UpToDate()
      modifies this, seenIds, routes.slots, radio
      ensures if found then Owing(lead) else UpToDate()
      ensures Valid() && st.hop.NoHop?
      ensures found ==>
                && Mirrors(base) && base.hop.NoHop? && base.arp.None? && Unaware(old(st), base.(arp := old(st).arp))
                && Pending(base) == Pending(old(st)) && lead.Take? && NextHop(base.table, address) == Some(lead.p.f.from)
                && Step(st, lead, Launching(base, Pending(base).m, Pending(base).why))
      ensures !found ==> Mirrors(st) && Unaware(old(st), st)
      ensures var q := old(radio.current);
              && (found <==> Learning.Accepts(old(st), q) && q.f.m.dest in {me, BROADCAST} && IsReply(q))
              && (found ==> lead.Take? && lead.p == q)
      ensures NoReply(old(News()), News()) && old(radio.sent) <= radio.sent && !radio.hasCurrent
      ensures old(radio.clock) <= radio.clock <= old(radio.clock) + RecvBound()
      ensures radio.Remaining() < old(radio.Remaining())
    {
      hide IsRun, Owes, Step, Receive, Noted, Peek, Launching, RT.Add, RT.Find, Driver.Accounts, News, NoReply;
      NoNewsYet(old(News()));
      ghost var p, reply;
      found, p, reply := RouterRecvfromAck();
      lead, base := Take(p, reply), st;
      if found {
        PeekedKeeps(st, p);
        ReceivedInArp(st, p);
        found := meshTmp.Response?;
        if found {
          base := Peeked(st, p).(table := AddRoute(Peeked(st, p).table, address, p.f.from), arp := None);
          Learning.AddWithin(Peeked(st, p).table, Peeked(st, p).table, {}, p.f.from, address);
          routes.AddRouteTo(address, radio.rxFrom, RT.Valid);
        } else {
          OneMoreNews(old(News()), st, p, reply);
          Log(Take(p, reply), Peeked(st, p));
        }
      }
    }

    /** No clock difference the code computes comes near a rollover. */
    lemma BoundsAreShort()
      requires Valid()
      ensures ARP_TIMEOUT + radio.tick + RecvBound() < 0x1000_0000
      ensures HopBound() <= 256 * 0x5_0000
    {
      hide IsRun, Owes;
      TriesAre(retries + 1);
      assert PerTry() <= 0x5_0000;
      TimesBound(retries + 1, PerTry());
    }

    /** The longest RHMesh::sendtoWait can take. */
    function SendBound(): nat {
      ArpBound() + HopBound()
    }

    /**
      RHMesh::sendtoWait for the pending message: refuses one that is too long, discovers a route if there is
      none, and hands the message over. After a successful discovery the router always finds the route, so
      NO_ROUTE means that discovery failed: a request went out, nobody replied while this node listened, and the
      message was never given to the hop layer. UNABLE_TO_DELIVER comes only after all the tries of a hop send.
    */
    method SendtoWait(body: Body, address: byte) returns (ret: Result)
      requires Valid() && Mirrors(st) && st.hop.NoHop? && st.arp.None? && HasPending(st)
      requires Pending(st).m == Routed(address, me, 0, body) && address != BROADCAST
      requires UpToDate()
      modifies this, seenIds, routes.slots, radio
      ensures UpToDate()
      ensures Valid() && Mirrors(st) && st.hop.NoHop? && st.arp.None?
      ensures ret.INVALID_LENGTH? <==> AppLength(body) > Wire.MESH_MAX
      ensures if ret.INVALID_LENGTH? then st == old(st) && radio.sent == old(radio.sent) && radio.clock == old(radio.clock)
              else Unaware(Concluded(old(st), ret), st)
      ensures ret.NONE? ==> st.ledger != [] && st.ledger[|st.ledger| - 1].m == Pending(old(st)).m
                            && st.ledger[|st.ledger| - 1].why == Pending(old(st)).why
      ensures ret.UNABLE_TO_DELIVER? ==> NextHop(st.table, address).None?
      ensures ret.NO_ROUTE? ==>
                && radio.clock >= old(radio.clock) + radio.air + ARP_TIMEOUT
                && radio.Heard() == radio.taken && NoReply(old(News()) + [Tried(old(st).job.None?)], News()) && old(NextHop(st.table, address)).None?
                && GoesOut(old(radio.sent), radio.sent, FrameFor(BROADCAST, old(Next8(lastSequenceNumber)), RequestFor(address)))
      ensures ret.UNABLE_TO_DELIVER? ==> radio.clock >= old(radio.clock) + Waits(retries + 1)
      ensures old(radio.sent) <= radio.sent && old(News()) <= News()
      ensures !ret.INVALID_LENGTH? ==> Attempts(News()) == Attempts(old(News())) + if old(st).job.None? then 1 else 0
      ensures old(radio.clock) <= radio.clock <= old(radio.clock) + SendBound()
      ensures radio.Remaining() <= old(radio.Remaining())
    {
      hide IsRun, Owes, Step, Receive, Launching, Settled, Concluded, FinishJob, RT.Find, RT.DeleteTo, AppLength, Driver.Accounts,
        Driver.Valid, News, NewsOf, NoReply, GoesOut, Attempts;
      if AppLength(body) > Wire.MESH_MAX {
        return INVALID_LENGTH;
      }
      ghost var was := st;
      ghost var lead, base := Try, st;
      var route := routes.GetRouteTo(address);
      if route.None? {
        var found;
        found, lead, base := DoArp(address);
        OutGrows(old(radio.sent), radio.sent, FrameFor(BROADCAST, old(Next8(lastSequenceNumber)), RequestFor(address)));
        if !found {
          ret := NO_ROUTE;
          NoRouteConcludes(was);
          SoughtInVain(old(News()), was.job.None?, News());
          return;
        }
      } else {
        TryLaunches(st);
      }
      NotedOnce(old(News()), was.job.None?, News(), st, lead);
      ret := SendAlong(body, address, lead, base, was);
    }

    /** Now there is a route: the application message goes along it. */
    method SendAlong(body: Body, address: byte, ghost lead: Event, ghost base: NodeState, ghost was: NodeState) returns (ret: Result)
      requires Valid() && Mirrors(base) && base.hop.NoHop? && base.arp.None? && NextHop(base.table, address).Some?
      requires HasPending(was) && Pending(was).m == Routed(address, me, 0, body) && address != BROADCAST
      requires Unaware(was, base) && was.arp.None? && Step(st, lead, Launching(base, Pending(was).m, Pending(was).why))
      requires Owing(lead)
      modifies this, routes.slots, radio
      ensures UpToDate()
      ensures Valid() && Mirrors(st) && st.hop.NoHop? && st.arp.None?
      ensures ret in {NONE, UNABLE_TO_DELIVER} && Unaware(Concluded(was, ret), st)
      ensures ret.NONE? ==> st.ledger != [] && st.ledger[|st.ledger| - 1].m == Pending(was).m
                            && st.ledger[|st.ledger| - 1].why == Pending(was).why
      ensures ret.UNABLE_TO_DELIVER? ==> NextHop(st.table, address).None? && radio.clock >= old(radio.clock) + Waits(retries + 1)
      ensures News() == old(News()) + NewsOf(old(st), lead) && old(radio.sent) <= radio.sent
      ensures old(radio.clock) <= radio.clock <= old(radio.clock) + HopBound()
      ensures radio.Remaining() <= old(radio.Remaining())
    {
      hide IsRun, Owes, Step, Launching, Settled, Concluded, RT.Find, RT.DeleteTo, Driver.Accounts, Driver.Valid, News, NewsOf, GoesOut;
      meshTmp := body;
      ghost var ok;
      ret, ok := RouterSendtoWait(meshTmp, address, me, lead, base, Pending(was).why);
      SettledConcludes(was, base, st, ok);
      if !ok {
        Learning.DeleteWithin(base.table, base.table, {}, 0, address);
      }
    }

    /**
      RHMesh::recvfromAck: hands out exactly a new application message for this node, m (g says in which hop send
      it came), answers or rebroadcasts a route request, and otherwise only learns and forwards.
    */
    method RecvfromAck() returns (got: bool, m: Routed, ghost g: Got)
      requires Valid() && Mirrors(st) && st.hop.NoHop? && st.arp.None? && st.job.None?
      requires UpToDate()
      modifies this, seenIds, routes.slots, radio
      ensures UpToDate()
      ensures Valid() && Mirrors(st) && st.hop.NoHop? && st.arp.None?
      ensures got ==>
                && (m.body.Data? || m.body.EndAck?) && m.dest in {me, BROADCAST} && m.source != BROADCAST
                && g.m == m && Unaware(Deliver(old(st), m, g.from, g.num), st)
      ensures !got ==> Unaware(old(st), st) && NoneForApplication(old(News()), News())
      ensures got ==> exists p :: News() == old(News()) + [New(p)] && ForApplication(p) && p.f.m == m && g == Got(m, p.f.from, p.num)
      ensures old(radio.hasCurrent) ==>
                var q := old(radio.current);
                (got <==> Learning.Accepts(old(st), q) && q.f.m.dest in {me, BROADCAST} && ForApplication(q)) && (got ==> m == q.f.m)
      ensures old(radio.sent) <= radio.sent && !radio.hasCurrent
      ensures old(radio.clock) <= radio.clock <= old(radio.clock) + RecvBound()
      ensures radio.Remaining() <= old(radio.Remaining())
      ensures old(radio.hasCurrent) ==> radio.Remaining() < old(radio.Remaining())
    {
      hide IsRun, Owes, Step, Receive, Peek, Launching, Deliver, Driver.Accounts, Driver.Valid, News, NewsOf, NoneForApplication;
      NoNewsYet(old(News()));
      ghost var p, reply;
      got, p, reply := RouterRecvfromAck();
      m := tmpMessage;
      g := Got(m, 0, 0);
      if got {
        ReceivedIdle(st, p);
        PeekedKeeps(st, p);
        g := Got(m, p.f.from, p.num);
        if meshTmp.Data? || meshTmp.EndAck? {
          NewForUs(st, p, reply);
          Log(Take(p, reply), Receive(st, p));
          return;
        }
        OneMoreNews(old(News()), st, p, reply);
        if m.dest == BROADCAST && meshTmp.Request? {
          got := false;
          AnswerRequest(meshTmp.sought, meshTmp.path, m.source, p, reply);
        } else {
          got := false;
          Log(Take(p, reply), Peeked(st, p));
        }
      }
    }

    /** The discovery request branch of RHMesh::recvfromAck. */
    method AnswerRequest(sought: byte, path: seq<byte>, source: byte, ghost p: Packet, ghost reply: Option<Packet>)
      requires Valid() && st.hop.NoHop? && Learning.Accepts(st, p) && p.f.m.body == Request(sought, path) && p.f.m.source == source
      requires source != BROADCAST && radio.rxFrom == p.f.from && Mirrors(Noted(st, p)) && Unaware(st, Noted(st, p))
      requires Step(st, Take(p, reply), OnRequest(Noted(st, p), p.f.m, p.f.from, p.num))
      requires Owing(Take(p, reply))
      modifies this, routes.slots, radio
      ensures UpToDate()
      ensures Valid() && Mirrors(st) && st.hop.NoHop? && Unaware(old(st), st)
      ensures News() == old(News()) + NewsOf(old(st), Take(p, reply))
      ensures old(radio.sent) <= radio.sent && (!old(radio.hasCurrent) ==> !radio.hasCurrent)
      ensures old(radio.clock) <= radio.clock <= old(radio.clock) + 2 * HopBound()
      ensures radio.Remaining() <= old(radio.Remaining())
    {
      hide IsRun, Owes, Step, Receive, Launching, OnRequest, RT.Add, Learn, Settled, RouteFor,
        Driver.Accounts, Driver.Valid, News, NewsOf, GoesOut;
      ghost var s := Noted(st, p);
      ghost var m := p.f.m;
      RequestLaunches(s, m, p.f.from, p.num);
      var been := source == me;
      if !been {
        been := Mentions(path, me);
      }
      if been {
        Log(Take(p, reply), s);
        return;
      }
      LearnWaysBack(source, path, s, m);
      ghost var s1 := Taught(s, m, p.f.from);
      if sought == me {
        SendOn(Response(sought, path), source, me, p, reply, s1, Answer(p.f.from, p.num));
      } else if |path| < MAX_HOPS && isRouter {
        SendOn(Request(sought, path + [me]), BROADCAST, source, p, reply, s1, Relay(p.f.from, p.num));
      } else {
        Log(Take(p, reply), s1);
      }
    }

    /** The request goes on as `body`, a response or a rebroadcast. */
    method SendOn(body: Body, dest: byte, source: byte, ghost p: Packet, ghost reply: Option<Packet>, ghost s1: NodeState, ghost why: Cause)
      requires Valid() && Mirrors(s1) && s1.hop.NoHop? && Unaware(st, s1)
      requires (source == me || dest == BROADCAST) && !why.Own? && !body.EndAck?
      requires Step(st, Take(p, reply), Launching(s1, Routed(dest, source, 0, body), why))
      requires Owing(Take(p, reply))
      modifies this, routes.slots, radio
      ensures UpToDate()
      ensures Valid() && Mirrors(st) && st.hop.NoHop? && Unaware(old(st), st)
      ensures News() == old(News()) + NewsOf(old(st), Take(p, reply))
      ensures old(radio.sent) <= radio.sent && (!old(radio.hasCurrent) ==> !radio.hasCurrent)
      ensures old(radio.clock) <= radio.clock <= old(radio.clock) + 2 * HopBound()
      ensures radio.Remaining() <= old(radio.Remaining())
    {
      hide IsRun, Owes, Step, Launching, Settled, RouteFor, Driver.Accounts, Driver.Valid, News, NewsOf, GoesOut;
      AirFits();
      meshTmp := body;
      var ret;
      ghost var ok;
      ret, ok := RouterSendtoWait(meshTmp, dest, source, Take(p, reply), s1, why);
      OthersSettle(s1, Routed(dest, source, 0, body), why, ok);
    }

    /** The originator is added regardless of node type, the nodes in between by routers only. */
    method LearnWaysBack(source: byte, path: seq<byte>, ghost s: NodeState, ghost m: Routed)
      requires Valid() && Mirrors(s) && m.body.Request? && m.source == source && m.body.path == path
      modifies routes.slots
      ensures Valid() && Mirrors(Taught(s, m, radio.rxFrom))
    {
      hide IsRun, Owes, RT.Add, Learn, Driver.Accounts;
      routes.AddRouteTo(source, radio.rxFrom, RT.Valid);
      if isRouter {
        LearnAll(routes, path, 0, radio.rxFrom);
        assert path[0..] == path;
      }
    }

    lemma AirFits()
      requires Valid()
      ensures radio.air <= HopBound()
    {
      hide IsRun, Owes;
      MoreTries(1, retries + 1);
      assert Tries(1) == Tries(0) + PerTry();
    }

    /**
      RHMesh::recvfromAckTimeout: recvfromAck until an application message comes, or the time is over. It returns
      nothing only after listening all that time: what arrived was read, and no new application message for
      this node was among it.
    */
    method RecvfromAckTimeout(timeout: nat) returns (got: bool, m: Routed, ghost g: Got)
      requires Valid() && Mirrors(st) && st.hop.NoHop? && st.arp.None? && st.job.None? && timeout < 0x1_0000
      requires UpToDate()
      modifies this, seenIds, routes.slots, radio
      ensures UpToDate()
      ensures Valid() && Mirrors(st) && st.hop.NoHop? && st.arp.None?
      ensures got ==>
                && (m.body.Data? || m.body.EndAck?) && m.dest in {me, BROADCAST} && m.source != BROADCAST
                && g.m == m && Unaware(Deliver(old(st), m, g.from, g.num), st)
      ensures got ==> exists news, p ::
                && NoneForApplication(old(News()), news) && News() == news + [New(p)]
                && ForApplication(p) && p.f.m == m && g == Got(m, p.f.from, p.num)
      ensures !got ==>
                && Unaware(old(st), st) && radio.clock >= old(radio.clock) + timeout
                && NoneForApplication(old(News()), News()) && (timeout > 0 ==> radio.Heard() == radio.taken)
      ensures old(radio.sent) <= radio.sent
      ensures old(radio.clock) <= radio.clock <= old(radio.clock) + timeout + radio.tick + RecvBound()
      ensures radio.Remaining() <= old(radio.Remaining())
      ensures got ==> radio.Remaining() < old(radio.Remaining())
    {
      hide IsRun, Owes, Step, Deliver, TimeLeft, Driver.Accounts, News, NoneForApplication;
      NoNewsYet(old(News()));
      ghost var was, from := st, radio.clock;
      m := tmpMessage;
      g := Got(m, 0, 0);
      var startTime := Millis(radio.clock);
      BoundsAreShort();
      TimeLeftIsRight(timeout, from, radio.clock);
      var timeLeft := TimeLeft(timeout, Millis(radio.clock), startTime);
      while timeLeft > 0
        invariant Valid() && UpToDate() && Mirrors(st) && st.hop.NoHop? && st.arp.None? && Unaware(was, st)
        invariant NoneForApplication(old(News()), News()) && old(radio.sent) <= radio.sent
        invariant timeLeft != timeout ==> !radio.hasCurrent
        invariant from <= radio.clock <= from + timeout + radio.tick + RecvBound()
        invariant timeLeft == timeout - (radio.clock - from)
        invariant radio.Remaining() <= old(radio.Remaining())
        decreases radio.Remaining(), timeLeft
      {
        var arrived := radio.WaitAvailableTimeout(timeLeft);
        if arrived {
          ghost var before, news := st, News();
          got, m, g := RecvfromAck();
          if !got {
            StillNone(old(News()), news, News());
          }
          if got {
            DeliverUnaware(was, before, m, g.from, g.num);
            return;
          }
        }
        TimeLeftIsRight(timeout, from, radio.clock);
        timeLeft := TimeLeft(timeout, Millis(radio.clock), startTime);
      }
      radio.AllRead();
      got := false;
    }
  }
}
