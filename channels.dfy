/**
 * The two gating-variable ion channels each compartment owns: the sodium channel
 * (gates m and h) and the potassium channel (gate n). Their integration steps and
 * their dictionary constructors are not part of this model; only the state they
 * hold and the reset that `calibrate` performs are.
 */
module Channels {

  /** Sodium channel: gating states m, h; maximal conductance and reversal potential. */
  datatype Na = Na(m: real, h: real, gbar: real, eNa: real) {

    /** `Na::calibrate`: both gates back to 0, the parameters untouched. */
    function Calibrated(): (c: Na)
      ensures c.m == 0.0 && c.h == 0.0
      ensures c.gbar == gbar && c.eNa == eNa
    {
      this.(m := 0.0, h := 0.0)
    }
  }

  /** Potassium channel: gating state n; maximal conductance and reversal potential. */
  datatype K = K(n: real, gbar: real, eK: real) {

    /** `K::calibrate`: the gate back to 0, the parameters untouched. */
    function Calibrated(): (c: K)
      ensures c.n == 0.0
      ensures c.gbar == gbar && c.eK == eK
    {
      this.(n := 0.0)
    }
  }
}
