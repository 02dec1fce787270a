/**
  The driver a node's stack is written against (RHGenericDriver), as that node sees it.

  What other nodes and the passage of time do is an input: `script` lists, poll by poll, how much time
  passes and which packet, if any, has then arrived; after its end the air stays silent and each poll takes
  a millisecond. Every proof holds for every script.

  Nothing else makes time pass than polls, frames of this node and the application's handler, and what arrives
  is read or waits to be read: Accounts() keeps the books. Code that says it has waited has therefore listened.
*/
module Radio {
  import opened Types
  import opened Protocol
  import opened Clock

  datatype Poll = Poll(gap: nat, got: Option<Packet>)

  /** What a poll finds once the script is over. */
  const SILENCE := Poll(1, None)

  ghost function Elapsed(polls: seq<Poll>): nat {
    if polls == [] then 0 else Elapsed(polls[..|polls| - 1]) + polls[|polls| - 1].gap
  }

  /** The packets that arrived in these polls. */
  ghost function Arrived(polls: seq<Poll>): seq<Packet> {
    if polls == [] then [] else Arrived(polls[..|polls| - 1]) + InPoll(polls[|polls| - 1])
  }

  ghost function InPoll(p: Poll): seq<Packet> {
    if p.got.Some? then [p.got.value] else []
  }

  ghost function Total(costs: seq<nat>): nat {
    if costs == [] then 0 else Total(costs[..|costs| - 1]) + costs[|costs| - 1]
  }

  lemma OneMorePoll(polls: seq<Poll>, p: Poll)
    ensures Elapsed(polls + [p]) == Elapsed(polls) + p.gap && Arrived(polls + [p]) == Arrived(polls) + InPoll(p)
  {
    assert (polls + [p])[..|polls|] == polls;
  }

  lemma OneMoreCall(costs: seq<nat>, cost: nat)
    ensures Total(costs + [cost]) == Total(costs) + cost
  {
    assert (costs + [cost])[..|costs|] == costs;
  }

  lemma OneMoreFrame(n: nat, air: nat)
    ensures (n + 1) * air == n * air + air
  {
  }

  /** The polls made and those to come are the script, with silence after its end. */
  ghost predicate FollowsScript(world: seq<Poll>, polls: seq<Poll>, script: seq<Poll>)
  {
    && (|polls| < |world| ==> polls + script == world)
    && (|polls| >= |world| ==> script == [] && world <= polls && forall i :: |world| <= i < |polls| ==> polls[i] == SILENCE)
  }

  lemma NextPoll(world: seq<Poll>, polls: seq<Poll>, script: seq<Poll>)
    requires FollowsScript(world, polls, script)
    ensures if script == [] then FollowsScript(world, polls + [SILENCE], [])
            else FollowsScript(world, polls + [script[0]], script[1..])
  {
    if script == [] {
      assert polls + [] == polls;
    } else {
      assert (polls + [script[0]]) + script[1..] == polls + script;
    }
  }

  /** The application's message handler, as far as the clock is concerned. */
  class Handler {
    var calls: seq<nat>     // history: how long each call has taken

    constructor ()
      ensures calls == []
    {
      calls := [];
    }
  }

  class Driver {
    const me: byte
    const handler: Handler
    /** Time a frame takes on the air, and the most that passes between two polls. */
    const air: nat
    const tick: nat

    var clock: nat          // milliseconds since power-on
    var script: seq<Poll>
    var hasCurrent: bool
    var current: Packet
    var rxFrom: byte        // _rxHeaderFrom
    var txId: byte          // _txHeaderId
    var txAck: bool         // _txHeaderFlags, bit RH_FLAGS_ACK
    var txRetry: bool       // _txHeaderFlags, bit RH_FLAGS_RETRY
    var sent: seq<Frame>    // history: what this driver has put on the air
    var taken: seq<Packet>  // what has been read from it
    ghost var sentAt: seq<nat>    // when each frame was out
    ghost var polls: seq<Poll>    // the polls made
    ghost const world: seq<Poll>  // and all there were to make

    /** The header filter lets only these through; a node does not hear itself, and none has address 255. */
    predicate Audible(f: Frame) {
      f.to in {me, BROADCAST} && f.from != me && (f.Message? ==> f.m.source != BROADCAST)
    }

    predicate Possible(p: Poll) {
      && p.gap <= tick
      && (p.got.None? ==> p.gap >= 1)
      && (p.got.Some? ==> Audible(p.got.value.f))
    }

    ghost predicate Valid()
      reads this, handler
    {
      && 1 <= tick <= 0x1_0000 && air <= 0x1_0000
      && (forall i :: 0 <= i < |script| ==> Possible(script[i]))
      && (hasCurrent ==> Audible(current.f) && rxFrom == current.f.from)
      && |sentAt| == |sent| && Accounts()
    }

    /** Time has passed in polls, frames and handler calls alone; what has arrived was read, or is in hand. */
    ghost predicate Accounts()
      reads `clock, `script, `hasCurrent, `current, `sent, `taken, `sentAt, `polls, handler
    {
      && FollowsScript(world, polls, script)
      && Arrived(polls) == taken + (if hasCurrent then [current] else [])
      && clock == Elapsed(polls) + |sent| * air + Total(handler.calls)
      && forall i :: 0 <= i < |sentAt| ==> sentAt[i] <= clock
    }

    /** Everything that has arrived so far, read or not. */
    ghost function Heard(): seq<Packet>
      reads `polls
    {
      Arrived(polls)
    }

    lemma AllRead()
      requires Valid()
      ensures !hasCurrent ==> Heard() == taken
    {
      assert taken + [] == taken;
    }

    /** Packets still to come, the one in hand included: the measure of every receive loop. */
    ghost function Remaining(): nat
      reads this
    {
      |script| + if hasCurrent then 1 else 0
    }

    constructor (me: byte, handler: Handler, air: nat, tick: nat, script: seq<Poll>, idle: Packet)
      requires 1 <= tick <= 0x1_0000 && air <= 0x1_0000 && handler.calls == []
      requires forall i :: 0 <= i < |script| ==>
                 && script[i].gap <= tick && (script[i].got.None? ==> script[i].gap >= 1)
                 && (script[i].got.Some? ==>
                       var f := script[i].got.value.f;
                       f.to in {me, BROADCAST} && f.from != me && (f.Message? ==> f.m.source != BROADCAST))
      ensures Valid() && this.me == me && this.handler == handler && this.air == air && this.tick == tick && this.script == script
      ensures world == script && clock == 0 && !hasCurrent && sent == [] && taken == []
    {
      this.me, this.handler, this.air, this.tick, this.script, this.world := me, handler, air, tick, script, script;
      clock, hasCurrent, current, rxFrom := 0, false, idle, 0;
      txId, txAck, txRetry, sent, taken, sentAt, polls := 0, false, false, [], [], [], [];
    }

    /** RHGenericDriver::available: true while a received packet waits to be read. */
    method Available() returns (r: bool)
      requires Valid()
      modifies `clock, `script, `hasCurrent, `current, `rxFrom, `polls
      ensures Valid() && r == hasCurrent
      ensures old(hasCurrent) ==> current == old(current) && clock == old(clock) && polls == old(polls) && rxFrom == old(rxFrom)
      ensures !old(hasCurrent) ==> |polls| == |old(polls)| + 1 && old(polls) <= polls && (r <==> polls[|old(polls)|].got.Some?)
      ensures old(clock) <= clock <= old(clock) + tick && (!r ==> clock > old(clock))
      ensures Remaining() <= old(Remaining())
    {
      if hasCurrent {
        return true;
      }
      NextPoll(world, polls, script);
      var p := if script == [] then SILENCE else script[0];
      OneMorePoll(polls, p);
      polls := polls + [p];
      script := if script == [] then [] else script[1..];
      clock := clock + p.gap;
      if p.got.None? {
        assert taken + [] == taken;
        return false;
      }
      current, hasCurrent, rxFrom := p.got.value, true, p.got.value.f.from;
      r := true;
    }

    /** RHGenericDriver::recv: hands out the waiting packet. Its sender stays readable as headerFrom(). */
    method Recv() returns (p: Packet)
      requires Valid() && hasCurrent
      modifies `hasCurrent, `taken
      ensures taken == old(taken) + [p] && !hasCurrent
      ensures Valid() && p == old(current) && Audible(p.f) && rxFrom == p.f.from
      ensures Remaining() + 1 == old(Remaining())
    {
      p := current;
      taken := taken + [p];
      hasCurrent := false;
      assert taken + [] == taken;
    }

    /** RHDatagram::sendto followed by waitPacketSent: the frame the header fields and the payload make. */
    method Send(to: byte, m: Option<Routed>)
      requires Valid() && m.None? == txAck
      modifies `sent, `clock, `sentAt
      ensures Valid() && clock == old(clock) + air
      ensures sent == old(sent) + [if m.Some? then Message(to, me, txId, txRetry, m.value) else HopAck(to, me, txId, txRetry)]
      ensures sentAt == old(sentAt) + [clock]
    {
      OneMoreFrame(|sent|, air);
      sent := sent + [if m.Some? then Message(to, me, txId, txRetry, m.value) else HopAck(to, me, txId, txRetry)];
      clock := clock + air;
      sentAt := sentAt + [clock];
    }

    /** The handler is called, and takes its time. */
    method Spend(cost: nat)
      requires Valid()
      modifies `clock, handler
      ensures Valid() && clock == old(clock) + cost && handler.calls == old(handler.calls) + [cost]
    {
      OneMoreCall(handler.calls, cost);
      clock := clock + cost;
      handler.calls := handler.calls + [cost];
    }

    /**
      RHGenericDriver::waitAvailableTimeout: polls until a packet is there or the timeout has passed, and returns
      at most a poll later. False means that none of the polls brought a packet.
    */
    method WaitAvailableTimeout(timeout: nat) returns (r: bool)
      requires Valid() && timeout < 0x1_0000
      modifies `clock, `script, `hasCurrent, `current, `rxFrom, `polls
      ensures Valid() && (r ==> hasCurrent) && (timeout > 0 ==> r == hasCurrent)
      ensures old(polls) <= polls && forall i :: |old(polls)| <= i < |polls| && polls[i].got.Some? ==> r && i == |polls| - 1
      ensures old(clock) <= clock <= old(clock) + timeout + tick
      ensures !r ==> clock >= old(clock) + timeout
      ensures !r && !old(hasCurrent) ==> !hasCurrent
      ensures Remaining() <= old(Remaining())
    {
      hide Accounts;
      var start := Millis(clock);
      ghost var from := clock;
      SinceIsElapsed(from, clock);
      while Since(Millis(clock), start) < timeout
        invariant Valid() && from <= clock && Remaining() <= old(Remaining())
        invariant clock <= from + timeout + tick && Since(Millis(clock), start) == clock - from
        invariant clock - from < timeout + tick || timeout == 0
        invariant old(polls) <= polls && forall i :: |old(polls)| <= i < |polls| ==> polls[i].got.None?
        invariant hasCurrent ==> old(hasCurrent) && clock == from
        decreases from + timeout + tick - clock
      {
        var a := Available();
        SinceIsElapsed(from, clock);
        if a {
          return true;
        }
      }
      r := false;
    }
  }
}
