/**
 * The reading-speed reveal both chat pages use: every tick of the interval
 * timer moves the characters that are due from the front of the hidden
 * buffer to the end of the visible text, at 50 characters per second.
 *
 * Time is in whole milliseconds, so one character is due every 20 ms; the
 * fractional carry of the pages (`desired - n`, in characters) is the
 * remainder in milliseconds, an exact multiple of 1/20 character.
 */
module Pacer {

  /** Milliseconds per character at 50 characters per second. */
  const UnitMs: nat := 20

  /** `Math.floor(50 * dt + carry)`: the characters due after `dt` ms with `carry` ms left over. */
  function Due(carry: nat, dt: nat): nat {
    (dt + carry) / UnitMs
  }

  /** `desired - n`: the time not yet spent on a character. */
  function Carry(carry: nat, dt: nat): nat {
    (dt + carry) % UnitMs
  }

  /**
   * The carry always stays below one character, and no time is lost: the
   * characters due and the new carry account for all the elapsed time.
   */
  lemma DueCarry(carry: nat, dt: nat)
    ensures Carry(carry, dt) < UnitMs
    ensures Due(carry, dt) * UnitMs + Carry(carry, dt) == dt + carry
    ensures carry < UnitMs && dt < UnitMs - carry ==> Due(carry, dt) == 0 && Carry(carry, dt) == carry + dt
  {
  }

  /** Spread over consecutive ticks, the characters due are those due over the whole span, give or take none. */
  lemma {:induction false} DueSplit(carry: nat, dt1: nat, dt2: nat)
    ensures Due(carry, dt1) + Due(Carry(carry, dt1), dt2) == Due(carry, dt1 + dt2)
    ensures Carry(Carry(carry, dt1), dt2) == Carry(carry, dt1 + dt2)
  {
    var q1, r1 := Due(carry, dt1), Carry(carry, dt1);
    DueCarry(carry, dt1);
    DueCarry(r1, dt2);
    DivMod(q1, r1 + dt2);
  }

  /** Dividing `q * 20 + x` by 20. */
  lemma DivMod(q: nat, x: nat)
    ensures (q * UnitMs + x) / UnitMs == q + x / UnitMs
    ensures (q * UnitMs + x) % UnitMs == x % UnitMs
  {
  }

  /** `Math.min(n, buffer.length)`: how many characters a tick moves. */
  function Taken(n: nat, buffer: string): nat {
    if n < |buffer| then n else |buffer|
  }

  /**
   * Moving the first `Taken` characters keeps the whole text, in order: the
   * visible text grows by at most `n` characters, and the buffer empties
   * exactly when `n` covers it.
   */
  lemma MoveKeepsText(visible: string, buffer: string, n: nat)
    ensures Taken(n, buffer) <= n && Taken(n, buffer) <= |buffer|
    ensures (visible + buffer[..Taken(n, buffer)]) + buffer[Taken(n, buffer)..] == visible + buffer
    ensures |buffer[Taken(n, buffer)..]| == 0 <==> n >= |buffer|
  {
    assert buffer[..Taken(n, buffer)] + buffer[Taken(n, buffer)..] == buffer;
  }
}
