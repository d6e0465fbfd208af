/**
 * The four biexponential synapse (receptor) kinds a compartment can hold: AMPA,
 * GABA, NMDA and the combined AMPA_NMDA. Each keeps its global synapse index, its
 * parameters, its rise/decay conductance states and whether its spike-buffer pointer
 * has been set. The integration steps and the dictionary constructors are not part
 * of this model; the member defaults, `calibrate`, `set_buffer_ptr` and the NMDA
 * voltage sigmoid are.
 */
module Receptors {

  datatype Option<T> = None | Some(value: T)

  /** The receptor tags `add_synapse` accepts. */
  datatype Receptor = AMPA | GABA | NMDA | AMPA_NMDA

  function Name(r: Receptor): string {
    match r
    case AMPA => "AMPA"
    case GABA => "GABA"
    case NMDA => "NMDA"
    case AMPA_NMDA => "AMPA_NMDA"
  }

  /** The string comparison chain of `add_synapse`. */
  function Parse(tag: string): (r: Option<Receptor>)
    ensures r.Some? <==> tag == "AMPA" || tag == "GABA" || tag == "NMDA" || tag == "AMPA_NMDA"
    ensures r.Some? ==> Name(r.value) == tag
  {
    if tag == "AMPA" then Some(AMPA)
    else if tag == "GABA" then Some(GABA)
    else if tag == "NMDA" then Some(NMDA)
    else if tag == "AMPA_NMDA" then Some(AMPA_NMDA)
    else None
  }

  /** Every receptor is recognised by its own name. */
  lemma ParseName(r: Receptor)
    ensures Parse(Name(r)) == Some(r)
  {
    match r
    case AMPA =>
    case GABA =>
    case NMDA =>
    case AMPA_NMDA =>
  }

  /**
   * One synapse. Fields follow the member variables: `synIdx` (syn_idx), `eRev`
   * (e_rev_), the time constants, the normalisation `gNorm` (g_norm_), the rise and
   * decay conductances, and `attached`, which is true once `set_buffer_ptr` has
   * pointed `b_spikes_` at the synapse's entry of the buffer collection.
   */
  datatype Synapse =
    | Ampa(synIdx: int, eRev: real, tauR: real, tauD: real, gNorm: real,
           gR: real, gD: real, attached: bool)
    | Gaba(synIdx: int, eRev: real, tauR: real, tauD: real, gNorm: real,
           gR: real, gD: real, attached: bool)
    | Nmda(synIdx: int, eRev: real, tauR: real, tauD: real, gNorm: real,
           gR: real, gD: real, attached: bool)
    | AmpaNmda(synIdx: int, eRev: real,
               tauRAmpa: real, tauDAmpa: real, tauRNmda: real, tauDNmda: real,
               nmdaRatio: real, gNormAmpa: real, gNormNmda: real,
               gRAmpa: real, gDAmpa: real, gRNmda: real, gDNmda: real,
               attached: bool)
  {
    function Kind(): Receptor {
      if Ampa? then AMPA else if Gaba? then GABA else if Nmda? then NMDA else AMPA_NMDA
    }

    /** Every conductance state variable is 0. */
    predicate AtRest() {
      if AmpaNmda? then gRAmpa == 0.0 && gDAmpa == 0.0 && gRNmda == 0.0 && gDNmda == 0.0
      else gR == 0.0 && gD == 0.0
    }

    /** Every normalisation factor is 1. */
    predicate UnitNorm() {
      if AmpaNmda? then gNormAmpa == 1.0 && gNormNmda == 1.0 else gNorm == 1.0
    }

    /** Same kind and same parameters: index, reversal potential, time constants, ratio, normalisation. */
    predicate SameParameters(o: Synapse) {
      Kind() == o.Kind() && synIdx == o.synIdx && eRev == o.eRev &&
      if AmpaNmda? then
        tauRAmpa == o.tauRAmpa && tauDAmpa == o.tauDAmpa &&
        tauRNmda == o.tauRNmda && tauDNmda == o.tauDNmda &&
        nmdaRatio == o.nmdaRatio && gNormAmpa == o.gNormAmpa && gNormNmda == o.gNormNmda
      else
        tauR == o.tauR && tauD == o.tauD && gNorm == o.gNorm
    }

    /**
     * The synapse's `calibrate`, as far as its own fields go: the rise/decay pair
     * (both pairs for AMPA_NMDA) becomes 0 and nothing else changes. Clearing the
     * bound buffer is done on the buffer collection (see Compartment.CalibrateEach).
     */
    function Calibrated(): (c: Synapse)
      ensures c.AtRest()
      ensures c.SameParameters(this) && c.attached == attached
    {
      match this
      case AmpaNmda(_, _, _, _, _, _, _, _, _, _, _, _, _, _) =>
        this.(gRAmpa := 0.0, gDAmpa := 0.0, gRNmda := 0.0, gDNmda := 0.0)
      case Ampa(i, e, tr, td, gn, _, _, a) => Ampa(i, e, tr, td, gn, 0.0, 0.0, a)
      case Gaba(i, e, tr, td, gn, _, _, a) => Gaba(i, e, tr, td, gn, 0.0, 0.0, a)
      case Nmda(i, e, tr, td, gn, _, _, a) => Nmda(i, e, tr, td, gn, 0.0, 0.0, a)
    }

    /** `set_buffer_ptr`: the pointer is set, no numeric state changes. */
    function Attached(): (c: Synapse)
      ensures c.attached
      ensures c.(attached := attached) == this
    {
      this.(attached := true)
    }
  }

  /** Kind, index and buffer binding agree: what a synapse's integration step must keep. */
  predicate SameSlot(a: Synapse, b: Synapse) {
    a.Kind() == b.Kind() && a.synIdx == b.synIdx && a.attached == b.attached
  }

  /**
   * The synapse built by the one-argument constructors: the member initialisers of
   * the class, with `syn_idx` taken from the argument and the buffer pointer not yet
   * set.
   */
  function FreshSynapse(r: Receptor, synIdx: int): (s: Synapse)
    ensures s.Kind() == r && s.synIdx == synIdx && !s.attached
    ensures s.AtRest() && s.UnitNorm() && s.eRev == 0.0
    ensures r == AMPA ==> s.tauR == 0.2 && s.tauD == 3.0
    ensures r == GABA ==> s.tauR == 0.2 && s.tauD == 10.0
    ensures r == NMDA ==> s.tauR == 0.2 && s.tauD == 43.0
    ensures r == AMPA_NMDA ==>
      s.tauRAmpa == 0.2 && s.tauDAmpa == 43.0 && s.tauRNmda == 0.2 && s.tauDNmda == 43.0 &&
      s.nmdaRatio == 2.0
  {
    match r
    case AMPA => Ampa(synIdx, 0.0, 0.2, 3.0, 1.0, 0.0, 0.0, false)
    case GABA => Gaba(synIdx, 0.0, 0.2, 10.0, 1.0, 0.0, 0.0, false)
    case NMDA => Nmda(synIdx, 0.0, 0.2, 43.0, 1.0, 0.0, 0.0, false)
    case AMPA_NMDA =>
      AmpaNmda(synIdx, 0.0, 0.2, 43.0, 0.2, 43.0, 2.0, 1.0, 1.0, 0.0, 0.0, 0.0, 0.0, false)
  }

  /** The exponential function, known only to be positive. */
  type Exp = f: real -> real | forall x :: f(x) > 0.0 witness (x: real) => 1.0

  /**
   * The NMDA voltage dependence 1 / (1 + 0.3 exp(-0.1 v)), identical in NMDA and
   * AMPA_NMDA. It is a probability-like factor strictly between 0 and 1.
   */
  function NmdaSigmoid(exp: Exp, v: real): (s: real)
    ensures 0.0 < s < 1.0
  {
    var e := exp(-0.1 * v);
    assert e > 0.0;
    1.0 / (1.0 + 0.3 * e)
  }

  /**
   * Its derivative with respect to v, 0.03 exp(-0.1 v) / (0.3 exp(-0.1 v) + 1)^2,
   * which is the logistic form 0.1 s (1 - s) of the sigmoid s itself, and positive.
   */
  function NmdaSigmoidDerivative(exp: Exp, v: real): (d: real)
    ensures d == 0.1 * NmdaSigmoid(exp, v) * (1.0 - NmdaSigmoid(exp, v))
    ensures d > 0.0
  {
    var e := exp(-0.1 * v);
    var den := 0.3 * e + 1.0;
    assert den > 1.0;
    var s := NmdaSigmoid(exp, v);
    assert s == 1.0 / den;
    assert 1.0 - s == 0.3 * e / den by {
      assert 1.0 - 1.0 / den == (den - 1.0) / den;
    }
    assert 0.1 * s * (1.0 - s) == 0.03 * e / (den * den) by {
      assert 0.1 * (1.0 / den) * (0.3 * e / den) == 0.03 * e / (den * den);
    }
    0.03 * e / (den * den)
  }
}
