/**
  The bytes of a message: Node's header inside RHMesh's header inside RHRouter's header.

  Offsets are the C structs': RoutedMessageHeader (dest, source, hops, id, flags), MeshMessageHeader
  (msgType), then DATA/ACK (type, sequence, payload), a route discovery (destlen, dest, visited nodes) or a
  route failure (dest). Lengths are 8-bit and their subtraction wraps.
*/
module Wire {
  import opened Types
  import opened Protocol

  const ROUTER_HEADER: nat := 5
  const MESH_HEADER: nat := 1
  const NODE_HEADER: nat := 2
  /** RH_MAX_MESSAGE_LEN and the buffer sizes that follow from it. */
  const MAX_MESSAGE: nat := 255
  const ROUTER_MAX: nat := MAX_MESSAGE - ROUTER_HEADER
  const MESH_MAX: nat := ROUTER_MAX - MESH_HEADER

  const APPLICATION: byte := 0
  const DISCOVERY_REQUEST: byte := 1
  const DISCOVERY_RESPONSE: byte := 2
  const ROUTE_FAILURE: byte := 3

  const NODE_DATA: byte := 1
  const NODE_ACK: byte := 2

  // ---- Encoding ----------------------------------------------------------------------------------

  function EncodeBody(b: Body): seq<byte> {
    match b
    case Data(seq8, text) => [APPLICATION, NODE_DATA, seq8] + text
    case EndAck(seq8) => [APPLICATION, NODE_ACK, seq8]
    case Request(sought, path) => [DISCOVERY_REQUEST, 1, sought] + path
    case Response(target, path) => [DISCOVERY_RESPONSE, 1, target] + path
    case Failure(lost) => [ROUTE_FAILURE, lost]
  }

  function Encode(m: Routed, id: byte, flags: byte): seq<byte> {
    [m.dest, m.source, m.hops, id, flags] + EncodeBody(m.body)
  }

  /** What the receiving code makes of the bytes behind the router header; None for what nothing here sends. */
  function DecodeBody(w: seq<byte>): Option<Body> {
    if |w| >= 3 && w[0] == APPLICATION && w[1] == NODE_DATA then Some(Data(w[2], w[3..]))
    else if |w| == 3 && w[0] == APPLICATION && w[1] == NODE_ACK then Some(EndAck(w[2]))
    else if |w| >= 3 && w[0] == DISCOVERY_REQUEST && w[1] == 1 then Some(Request(w[2], w[3..]))
    else if |w| >= 3 && w[0] == DISCOVERY_RESPONSE && w[1] == 1 then Some(Response(w[2], w[3..]))
    else if |w| == 2 && w[0] == ROUTE_FAILURE then Some(Failure(w[1]))
    else None
  }

  function Decode(w: seq<byte>): Option<Routed> {
    if |w| < ROUTER_HEADER then None
    else match DecodeBody(w[ROUTER_HEADER..])
         case Some(b) => Some(Routed(w[0], w[1], w[2], b))
         case None => None
  }

  /** Where each field stands on the wire, octet by octet. */
  lemma Layout(m: Routed, id: byte, flags: byte)
    ensures var w := Encode(m, id, flags);
            && |w| >= 7 && w[0] == m.dest && w[1] == m.source && w[2] == m.hops && w[3] == id && w[4] == flags
            && (match m.body
                case Data(seq8, text) => |w| == 8 + |text| && w[5] == 0 && w[6] == 1 && w[7] == seq8 && w[8..] == text
                case EndAck(seq8) => |w| == 8 && w[5] == 0 && w[6] == 2 && w[7] == seq8
                case Request(sought, path) => |w| == 8 + |path| && w[5] == 1 && w[6] == 1 && w[7] == sought && w[8..] == path
                case Response(target, path) => |w| == 8 + |path| && w[5] == 2 && w[6] == 1 && w[7] == target && w[8..] == path
                case Failure(lost) => |w| == 7 && w[5] == 3 && w[6] == lost)
  {
    var w := Encode(m, id, flags);
    assert w[5..] == EncodeBody(m.body);
    match m.body {
      case Data(_, text) => assert w[8..] == text;
      case Request(_, path) => assert w[8..] == path;
      case Response(_, path) => assert w[8..] == path;
      case _ =>
    }
  }

  /** Decoding inverts encoding, and what decodes has only one encoding. */
  lemma RoundTrip(m: Routed, id: byte, flags: byte, w: seq<byte>)
    ensures Decode(Encode(m, id, flags)) == Some(m)
    ensures Decode(w).Some? ==> w == Encode(Decode(w).value, w[3], w[4])
  {
    BodyRoundTrip(m.body, if |w| < ROUTER_HEADER then [] else w[ROUTER_HEADER..]);
    assert Encode(m, id, flags)[ROUTER_HEADER..] == EncodeBody(m.body);
  }

  lemma BodyRoundTrip(b: Body, w: seq<byte>)
    ensures DecodeBody(EncodeBody(b)) == Some(b)
    ensures DecodeBody(w).Some? ==> w == EncodeBody(DecodeBody(w).value)
  {
    var v := EncodeBody(b);
    match b {
      case Data(_, text) => assert v[3..] == text;
      case Request(_, path) => assert v[3..] == path;
      case Response(_, path) => assert v[3..] == path;
      case _ =>
    }
  }

  // ---- Editing in place --------------------------------------------------------------------------

  function Bumped(w: seq<byte>): (w': seq<byte>)
    requires |w| >= ROUTER_HEADER
    ensures |w'| == |w|
  {
    w[2 := Next8(w[2])]
  }

  function BumpedTimes(w: seq<byte>, n: nat): (w': seq<byte>)
    requires |w| >= ROUTER_HEADER
    ensures |w'| == |w|
  {
    if n == 0 then w else Bumped(BumpedTimes(w, n - 1))
  }

  /** Any number of forwards within the limit changes the hop count and nothing else. */
  lemma {:induction false} ForwardsChangeHopsOnly(m: Routed, id: byte, flags: byte, n: nat)
    requires m.hops + n < 256
    ensures BumpedTimes(Encode(m, id, flags), n) == Encode(m.(hops := m.hops + n), id, flags)
    ensures Decode(BumpedTimes(Encode(m, id, flags), n)) == Some(m.(hops := m.hops + n))
  {
    if n > 0 {
      ForwardsChangeHopsOnly(m, id, flags, n - 1);
    }
    RoundTrip(m.(hops := m.hops + n), id, flags, []);
  }

  /** RHMesh::recvfromAck turns the request it holds into its response by changing the type byte. */
  method MakeResponse(d: array<byte>, len: nat, ghost path: seq<byte>, ghost me: byte)
    requires len <= d.Length && d[..len] == EncodeBody(Request(me, path))
    modifies d
    ensures d[..len] == EncodeBody(Response(me, path))
    ensures d[len..] == old(d[len..])
  {
    d[0] := DISCOVERY_RESPONSE;
  }

  /** It adds itself behind the visited nodes; `slot` is the code's numRoutes. */
  method AddSelf(d: array<byte>, len: byte, me: byte, ghost sought: byte, ghost path: seq<byte>) returns (len': byte)
    requires 3 <= len < d.Length && d.Length <= ROUTER_MAX && d[..len] == EncodeBody(Request(sought, path))
    modifies d
    ensures len' == len + 1 && d[..len'] == EncodeBody(Request(sought, path + [me]))
    ensures d[len'..] == old(d[len'..])
  {
    ghost var w := d[..len];
    assert w[3..] == path;
    var slot := VisitedInBody(len);
    assert slot == len - 3;
    d[3 + slot] := me;
    len' := Next8(len);
    assert d[..len'] == w + [me] == [DISCOVERY_REQUEST, 1, sought] + (path + [me]);
  }

  // ---- Lengths -----------------------------------------------------------------------------------

  /** 8-bit subtraction. */
  function Minus8(x: byte, y: nat): byte {
    (x - y) % 256
  }

  /** The number of visited nodes as RHMesh::recvfromAck computes it from the length behind the router header. */
  function VisitedInBody(len: byte): byte {
    Minus8(len, MESH_HEADER + 2)
  }

  /** The same as peekAtMessage computes it from the length of the whole message. */
  function VisitedInMessage(len: byte): byte {
    Minus8(len, ROUTER_HEADER + MESH_HEADER + 2)
  }

  /** The length of a message once a node has received it: what the subtractions start from. */
  function Length(m: Routed): nat {
    ROUTER_HEADER + |EncodeBody(m.body)|
  }

  /**
    No subtraction of a message length wraps, and both places that read the visited nodes read the same
    list, the one encoded.
  */
  lemma LengthsDoNotWrap(m: Routed, id: byte, flags: byte)
    requires Length(m) <= MAX_MESSAGE
    ensures var w := Encode(m, id, flags);
            && |w| == Length(m) >= ROUTER_HEADER + MESH_HEADER + 1
            && Minus8(|w|, ROUTER_HEADER) == |EncodeBody(m.body)| >= 2
            && (m.body.Data? || m.body.EndAck? ==> Minus8(Minus8(|w|, ROUTER_HEADER), MESH_HEADER) >= NODE_HEADER)
    ensures m.body.Request? || m.body.Response? ==>
              var w, b := Encode(m, id, flags), EncodeBody(m.body);
              && VisitedInMessage(|w|) == VisitedInBody(|b|) == |m.body.path|
              && w[ROUTER_HEADER + 3..][..VisitedInMessage(|w|)] == m.body.path == b[3..][..VisitedInBody(|b|)]
  {
    var w, b := Encode(m, id, flags), EncodeBody(m.body);
    assert w[ROUTER_HEADER..] == b;
    if m.body.Request? || m.body.Response? {
      assert w[ROUTER_HEADER + 3..] == b[3..] == m.body.path;
      assert m.body.path[..|m.body.path|] == m.body.path;
    }
  }

  // ---- Payload limit -----------------------------------------------------------------------------

  /** Node::maxPayload for a driver that carries at most `limit` octets; the result is cast to 8 bits. */
  function MaxPayload(limit: byte): byte {
    var fromDriver: int := limit - (ROUTER_HEADER + MESH_HEADER + NODE_HEADER);
    var most := MESH_MAX - NODE_HEADER;
    if fromDriver < most then fromDriver % 256 else most
  }

  /** The checks a payload of len octets meets below Node::send, in order, with their 8-bit sums. */
  predicate PassesBelow(limit: byte, len: byte) {
    var meshLen := (len + NODE_HEADER) % 256;
    var routerLen := (meshLen + MESH_HEADER) % 256;
    var frameLen := (routerLen + ROUTER_HEADER) % 256;
    && meshLen <= MESH_MAX                       // RHMesh::sendtoWait
    && routerLen + ROUTER_HEADER <= limit        // RHRouter::sendtoFromSourceWait
    && frameLen <= limit                         // SimDriver::send
  }

  /** No sum wraps, and the buffers hold what is copied into them. */
  predicate FitsBuffers(len: byte) {
    && len + NODE_HEADER <= MESH_MAX                              // Node::txBuf_, Node::rxBuf_
    && len + NODE_HEADER + MESH_HEADER <= ROUTER_MAX              // RHMesh::_tmpMessage
    && len + NODE_HEADER + MESH_HEADER + ROUTER_HEADER <= MAX_MESSAGE // RHRouter::_tmpMessage
  }

  /**
    The limit is exact for every driver that can carry the headers at all: a payload within it passes every
    later check without wrapping and fits every buffer, and a longer one would have failed.
  */
  lemma PayloadLimitExact(limit: byte, len: byte)
    requires limit >= 8
    ensures len <= MaxPayload(limit) <==> PassesBelow(limit, len) && FitsBuffers(len)
    ensures len <= MaxPayload(limit) ==>
              forall seq8: byte, text: seq<byte>, d: byte, s: byte :: |text| == len ==> Length(Routed(d, s, 0, Data(seq8, text))) <= limit
  {
  }

  /** A driver too small for the headers turns the limit into its opposite: everything short is let through. */
  lemma PayloadLimitWraps(limit: byte)
    ensures limit < 8 <==> MaxPayload(limit) > 247
    ensures limit < 8 ==> MaxPayload(limit) == 248 + limit && !PassesBelow(limit, 0)
  {
  }
}
