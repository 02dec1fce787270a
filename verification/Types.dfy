/** Octets, addresses and the options shared by every layer of the mesh stack. */
module Types {

  type byte = x: int | 0 <= x < 256

  /** The address every node listens to (RH_BROADCAST_ADDRESS). */
  const BROADCAST: byte := 255

  /** RH_DEFAULT_MAX_HOPS: how often a message may be forwarded, how long a visited list may grow. */
  const MAX_HOPS: byte := 30

  datatype Option<+T> = None | Some(value: T) {
    function GetOr(default: T): T {
      if Some? then value else default
    }
  }

  /** The unsigned 8-bit successor: 255 wraps to 0. */
  function Next8(b: byte): byte {
    (b + 1) % 256
  }

  /** What an 8-bit counter that started at 0 shows after n increments. */
  function Low8(n: nat): byte {
    n % 256
  }
}
