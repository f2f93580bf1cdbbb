/**
 * The source draws every random choice from `Math.random`. Here the draws
 * come from a tape of naturals fixed in advance; each draw consumes one
 * entry, and an exhausted tape keeps answering 0.
 */
module Oracle {

  /** The draw `Below(n)` answers on a given tape. */
  function Peek(tape: seq<nat>, n: nat): nat
    requires n > 0
  {
    if tape == [] then 0 else tape[0] % n
  }

  /** The tape after one draw. */
  function Rest(tape: seq<nat>): seq<nat> {
    if tape == [] then [] else tape[1..]
  }

  class Random {
    var tape: seq<nat>

    constructor (tape: seq<nat>)
      ensures this.tape == tape
    {
      this.tape := tape;
    }

    /** A draw from 0..n-1, the model of `Math.floor(Math.random() * n)`. */
    method Below(n: nat) returns (v: nat)
      requires n > 0
      modifies this
      ensures v < n
      ensures v == Peek(old(tape), n) && tape == Rest(old(tape))
    {
      if tape == [] {
        v := 0;
      } else {
        v := tape[0] % n;
        tape := tape[1..];
      }
    }
  }
}
