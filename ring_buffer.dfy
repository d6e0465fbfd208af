/**
 * The spike ring buffer that synapses and the spike dilutor read from and add to.
 * Only the three operations the core uses are modelled: read the weight stored for
 * a delivery lag, add a weight at a lag, and clear everything. A lag at which
 * nothing was ever added reads as 0.
 */
module RingBuffers {

  datatype RingBuffer = RingBuffer(slots: map<int, real>) {

    /** The weight scheduled `lag` steps after the slice origin (`get_value`). */
    function Value(lag: int): real {
      if lag in slots then slots[lag] else 0.0
    }

    /** `clear`: every lag reads as 0 afterwards. */
    function Clear(): (r: RingBuffer)
      ensures r == Empty
      ensures forall lag :: r.Value(lag) == 0.0
    {
      Empty
    }

    /** `add_value`: accumulate `w` at `lag`, leaving every other lag as it was. */
    function AddValue(lag: int, w: real): (r: RingBuffer)
      ensures r.Value(lag) == Value(lag) + w
      ensures forall other :: other != lag ==> r.Value(other) == Value(other)
      ensures NonNegative() && w >= 0.0 ==> r.NonNegative()
    {
      RingBuffer(slots[lag := Value(lag) + w])
    }

    /** No lag holds a negative weight. */
    predicate NonNegative() {
      forall lag :: lag in slots ==> slots[lag] >= 0.0
    }
  }

  const Empty: RingBuffer := RingBuffer(map[])
}
