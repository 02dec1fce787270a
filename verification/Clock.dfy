/** The millisecond clock of the board: 32 bits, and it rolls over. */
module Clock {

  const ROLLOVER: nat := 0x1_0000_0000

  /** What millis() shows t milliseconds after power-on. */
  function Millis(t: nat): (m: nat)
    ensures m < ROLLOVER
  {
    t % ROLLOVER
  }

  /** millis() - start in unsigned 32-bit arithmetic. */
  function Since(now: nat, start: nat): (m: nat)
    ensures m < ROLLOVER
  {
    (now - start) % ROLLOVER
  }

  /** A 32-bit pattern read as int32_t. */
  function Signed(x: int): int
  {
    var u := x % ROLLOVER;
    if u < ROLLOVER / 2 then u else u - ROLLOVER
  }

  /** The code's timeLeft: timeout - (millis() - start), computed unsigned and stored signed. */
  function TimeLeft(timeout: nat, now: nat, start: nat): int
  {
    Signed(timeout - Since(now, start))
  }

  /** Elapsed time is right across a rollover, as long as less than one rollover has passed. */
  lemma SinceIsElapsed(from: nat, t: nat)
    requires from <= t < from + ROLLOVER
    ensures Since(Millis(t), Millis(from)) == t - from
  {
    var d := t - from;
    assert (Millis(t) - Millis(from) - d) % ROLLOVER == 0;
  }

  /** And so is the time left, which is positive exactly before the deadline. */
  lemma TimeLeftIsRight(timeout: nat, from: nat, t: nat)
    requires timeout < 0x1_0000 && from <= t < from + 0x7000_0000
    ensures TimeLeft(timeout, Millis(t), Millis(from)) == timeout - (t - from)
  {
    SinceIsElapsed(from, t);
  }

  /** One rollover too many, and a timeout that has long passed looks as if it had not. */
  lemma ALongStallHidesTheDeadline(timeout: nat, from: nat)
    requires 0 < timeout < 0x1_0000
    ensures TimeLeft(timeout, Millis(from + ROLLOVER), Millis(from)) == timeout
  {
    assert Since(Millis(from + ROLLOVER), Millis(from)) == 0;
  }
}
