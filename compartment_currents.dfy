/**
 * The compartment-current aggregator (`CompartmentCurrents`): one sodium and one
 * potassium channel plus four append-only collections of synapses. It creates
 * synapses from a receptor tag, binds them to the externally owned spike buffers,
 * resets all of them, and sums what every member returns from one integration step.
 *
 * The members are held by value, as the C++ vectors hold copies; the aggregator is a
 * class whose fields are reassigned. Every synapse whose buffer pointer is set points
 * into the collection last passed to `SetSynBuffers` (that call rebinds them all), so
 * the collection is kept once, in `buffers`, and each synapse keeps an `attached` flag.
 */
module Compartment {
  import opened Linearized
  import opened RingBuffers
  import opened Channels
  import opened Receptors

  /** The externally owned vector of spike buffers, indexed by global synapse index. */
  class SynBuffers {
    var rings: seq<RingBuffer>

    constructor (rings: seq<RingBuffer>)
      ensures this.rings == rings
    {
      this.rings := rings;
    }
  }

  /**
   * The members' integration steps, whose bodies are not part of the model: each
   * takes the member's state, the voltage, the step size (and for a synapse its
   * buffer and the lag) and returns the new state and a linearised pair. A synapse's
   * step keeps its kind, index and binding.
   */
  type NaStep = (Na, real, real) -> (Na, GI)
  type KStep = (K, real, real) -> (K, GI)
  type SynapseStep = f: (Synapse, RingBuffer, real, real, int) -> (Synapse, GI)
    | forall s, b, v, dt, lag :: SameSlot(f(s, b, v, dt, lag).0, s)
    witness Idle

  /** A step that changes nothing and contributes nothing. */
  function Idle(s: Synapse, b: RingBuffer, v: real, dt: real, lag: int): (Synapse, GI) {
    (s, Zero)
  }

  datatype Integrators = Integrators(na: NaStep, k: KStep, syn: SynapseStep)

  /**
   * The receptors' dictionary constructors, applied to one parameter dictionary: they
   * build a synapse of the requested kind carrying the given index, pointer unset.
   */
  type ReceptorFactory = f: (Receptor, int) -> Synapse
    | forall r, i :: f(r, i).Kind() == r && f(r, i).synIdx == i && !f(r, i).attached
    witness FreshSynapse

  predicate OfKind(syns: seq<Synapse>, r: Receptor) {
    forall j :: 0 <= j < |syns| ==> syns[j].Kind() == r
  }

  /** Every synapse's index selects an entry of a collection of `n` buffers. */
  predicate IndicesBelow(syns: seq<Synapse>, n: int) {
    forall j :: 0 <= j < |syns| ==> 0 <= syns[j].synIdx < n
  }

  /** Every synapse is attached to an existing entry of a collection of `n` buffers. */
  predicate Bound(syns: seq<Synapse>, n: int) {
    IndicesBelow(syns, n) && forall j :: 0 <= j < |syns| ==> syns[j].attached
  }

  function Indices(syns: seq<Synapse>): set<int> {
    set j | 0 <= j < |syns| :: syns[j].synIdx
  }

  function CalibratedAll(syns: seq<Synapse>): (r: seq<Synapse>)
    ensures |r| == |syns|
    ensures forall j :: 0 <= j < |syns| ==> r[j] == syns[j].Calibrated()
  {
    seq(|syns|, j requires 0 <= j < |syns| => syns[j].Calibrated())
  }

  function AttachedAll(syns: seq<Synapse>): (r: seq<Synapse>)
    ensures |r| == |syns|
    ensures forall j :: 0 <= j < |syns| ==> r[j] == syns[j].Attached()
  {
    seq(|syns|, j requires 0 <= j < |syns| => syns[j].Attached())
  }

  /** The buffers at the indices in `idx` cleared, every other buffer as it was. */
  function ClearedAt(rings: seq<RingBuffer>, idx: set<int>): (r: seq<RingBuffer>)
    ensures |r| == |rings|
    ensures forall j :: 0 <= j < |rings| ==> r[j] == if j in idx then Empty else rings[j]
  {
    seq(|rings|, j requires 0 <= j < |rings| => if j in idx then rings[j].Clear() else rings[j])
  }

  /** Each synapse stepped once, reading its own buffer. */
  function Advanced(syns: seq<Synapse>, rings: seq<RingBuffer>, step: SynapseStep,
                    v: real, dt: real, lag: int): (r: seq<Synapse>)
    requires IndicesBelow(syns, |rings|)
    ensures |r| == |syns|
    ensures forall j :: 0 <= j < |syns| ==> SameSlot(r[j], syns[j])
  {
    seq(|syns|, j requires 0 <= j < |syns| => step(syns[j], rings[syns[j].synIdx], v, dt, lag).0)
  }

  /** The pair each synapse returns from that step, in collection order. */
  function Contributions(syns: seq<Synapse>, rings: seq<RingBuffer>, step: SynapseStep,
                         v: real, dt: real, lag: int): (r: seq<GI>)
    requires IndicesBelow(syns, |rings|)
    ensures |r| == |syns|
  {
    seq(|syns|, j requires 0 <= j < |syns| => step(syns[j], rings[syns[j].synIdx], v, dt, lag).1)
  }

  lemma IndicesSnoc(syns: seq<Synapse>, j: nat)
    requires j < |syns|
    ensures Indices(syns[..j + 1]) == Indices(syns[..j]) + {syns[j].synIdx}
  {
  }

  /** Clearing one set of buffers and then another clears their union. */
  lemma ClearedAtUnion(rings: seq<RingBuffer>, a: set<int>, b: set<int>)
    ensures ClearedAt(ClearedAt(rings, a), b) == ClearedAt(rings, a + b)
  {
  }

  /** Resetting a compartment twice leaves it as resetting it once does. */
  lemma CalibrationIdempotent(na: Na, k: K, syns: seq<Synapse>, rings: seq<RingBuffer>, idx: set<int>)
    ensures na.Calibrated().Calibrated() == na.Calibrated()
    ensures k.Calibrated().Calibrated() == k.Calibrated()
    ensures CalibratedAll(CalibratedAll(syns)) == CalibratedAll(syns)
    ensures ClearedAt(ClearedAt(rings, idx), idx) == ClearedAt(rings, idx)
  {
    var twice := CalibratedAll(CalibratedAll(syns));
    forall j | 0 <= j < |syns| ensures twice[j] == CalibratedAll(syns)[j] {
      var s := syns[j];
      match s
      case Ampa(_, _, _, _, _, _, _, _) =>
      case Gaba(_, _, _, _, _, _, _, _) =>
      case Nmda(_, _, _, _, _, _, _, _) =>
      case AmpaNmda(_, _, _, _, _, _, _, _, _, _, _, _, _, _) =>
    }
    ClearedAtUnion(rings, idx, idx);
    assert idx + idx == idx;
  }

  /** Steps that keep every synapse's slot keep the collection's kind and binding. */
  lemma SlotsKept(before: seq<Synapse>, after: seq<Synapse>, r: Receptor, n: int)
    requires |after| == |before|
    requires forall j :: 0 <= j < |before| ==> SameSlot(after[j], before[j])
    ensures OfKind(before, r) ==> OfKind(after, r)
    ensures Bound(before, n) ==> Bound(after, n)
  {
  }

  /**
   * Adding the four collections' pairs one collection after the other onto the two
   * channels' sum is the sum of the whole sequence; with no synapses it is the
   * channels' sum.
   */
  lemma AccumulateInOrder(channels: seq<GI>, a: seq<GI>, g: seq<GI>, n: seq<GI>, an: seq<GI>)
    ensures Fold(Fold(Fold(Fold(Fold(Zero, channels), a), g), n), an)
         == Fold(Zero, channels + a + g + n + an)
    ensures a == [] && g == [] && n == [] && an == [] ==>
              Fold(Zero, channels + a + g + n + an) == Fold(Zero, channels)
  {
    FoldAppend(Zero, channels, a);
    FoldAppend(Zero, channels + a, g);
    FoldAppend(Zero, channels + a + g, n);
    FoldAppend(Zero, channels + a + g + n, an);
    if a == [] && g == [] && n == [] && an == [] {
      assert channels + a + g + n + an == channels;
    }
  }

  /**
   * One of the `calibrate` loops: every synapse of the collection in turn zeroes its
   * conductances and clears the buffer it points to.
   */
  method CalibrateEach(syns: seq<Synapse>, bufs: SynBuffers) returns (r: seq<Synapse>)
    requires Bound(syns, |bufs.rings|)
    modifies bufs
    ensures r == CalibratedAll(syns)
    ensures bufs.rings == ClearedAt(old(bufs.rings), Indices(syns))
  {
    r := syns;
    for j := 0 to |syns|
      invariant |r| == |syns| && |bufs.rings| == |old(bufs.rings)|
      invariant forall t :: 0 <= t < j ==> r[t] == syns[t].Calibrated()
      invariant forall t :: j <= t < |syns| ==> r[t] == syns[t]
      invariant bufs.rings == ClearedAt(old(bufs.rings), Indices(syns[..j]))
    {
      var idx := r[j].synIdx;
      ghost var before := bufs.rings;
      r := r[j := r[j].Calibrated()];
      bufs.rings := bufs.rings[idx := bufs.rings[idx].Clear()];
      IndicesSnoc(syns, j);
      ClearedAtUnion(old(bufs.rings), Indices(syns[..j]), {idx});
      assert bufs.rings == ClearedAt(before, {idx});
    }
    assert syns[..|syns|] == syns;
  }

  /** One of the `set_syn_buffers` loops: every synapse of the collection gets its pointer. */
  method AttachEach(syns: seq<Synapse>) returns (r: seq<Synapse>)
    ensures r == AttachedAll(syns)
  {
    r := syns;
    for j := 0 to |syns|
      invariant |r| == |syns|
      invariant forall t :: 0 <= t < j ==> r[t] == syns[t].Attached()
      invariant forall t :: j <= t < |syns| ==> r[t] == syns[t]
    {
      r := r[j := r[j].Attached()];
    }
  }

  /**
   * One of the `f_numstep` loops: every synapse of the collection is stepped once,
   * in order, and its pair is added to the running sum.
   */
  method StepEach(syns: seq<Synapse>, rings: seq<RingBuffer>, step: SynapseStep,
                  v: real, dt: real, lag: int, acc0: GI) returns (r: seq<Synapse>, acc: GI)
    requires IndicesBelow(syns, |rings|)
    ensures r == Advanced(syns, rings, step, v, dt, lag)
    ensures acc == Fold(acc0, Contributions(syns, rings, step, v, dt, lag))
  {
    ghost var stepped := Advanced(syns, rings, step, v, dt, lag);
    ghost var pairs := Contributions(syns, rings, step, v, dt, lag);
    r, acc := syns, acc0;
    for j := 0 to |syns|
      invariant |r| == |syns|
      invariant forall t :: 0 <= t < j ==> r[t] == stepped[t]
      invariant forall t :: j <= t < |syns| ==> r[t] == syns[t]
      invariant acc == Fold(acc0, pairs[..j])
    {
      var out := step(r[j], rings[r[j].synIdx], v, dt, lag);
      r := r[j := out.0];
      acc := acc.Plus(out.1);
      assert pairs[..j + 1][..j] == pairs[..j];
    }
    assert pairs[..|syns|] == pairs;
  }

  /**
   * The four synapse loops of `f_numstep`, one collection after the other, continuing
   * the sum `acc0` of the pairs `done` already added.
   */
  method StepSynapses(a: seq<Synapse>, g: seq<Synapse>, n: seq<Synapse>, an: seq<Synapse>,
                      rings: seq<RingBuffer>, step: SynapseStep, v: real, dt: real, lag: int,
                      ghost done: seq<GI>, acc0: GI)
    returns (a': seq<Synapse>, g': seq<Synapse>, n': seq<Synapse>, an': seq<Synapse>, acc: GI)
    requires Bound(a, |rings|) && Bound(g, |rings|) && Bound(n, |rings|) && Bound(an, |rings|)
    requires OfKind(a, AMPA) && OfKind(g, GABA) && OfKind(n, NMDA) && OfKind(an, AMPA_NMDA)
    requires acc0 == Fold(Zero, done)
    ensures Bound(a', |rings|) && Bound(g', |rings|) && Bound(n', |rings|) && Bound(an', |rings|)
    ensures OfKind(a', AMPA) && OfKind(g', GABA) && OfKind(n', NMDA) && OfKind(an', AMPA_NMDA)
    ensures a' == Advanced(a, rings, step, v, dt, lag) && g' == Advanced(g, rings, step, v, dt, lag)
    ensures n' == Advanced(n, rings, step, v, dt, lag) && an' == Advanced(an, rings, step, v, dt, lag)
    ensures acc == Fold(Zero, done + Contributions(a, rings, step, v, dt, lag)
                                   + Contributions(g, rings, step, v, dt, lag)
                                   + Contributions(n, rings, step, v, dt, lag)
                                   + Contributions(an, rings, step, v, dt, lag))
    ensures a == [] && g == [] && n == [] && an == [] ==> acc == acc0
  {
    a', acc := StepEach(a, rings, step, v, dt, lag, acc0);
    g', acc := StepEach(g, rings, step, v, dt, lag, acc);
    n', acc := StepEach(n, rings, step, v, dt, lag, acc);
    an', acc := StepEach(an, rings, step, v, dt, lag, acc);
    SlotsKept(a, a', AMPA, |rings|);
    SlotsKept(g, g', GABA, |rings|);
    SlotsKept(n, n', NMDA, |rings|);
    SlotsKept(an, an', AMPA_NMDA, |rings|);
    AccumulateInOrder(done, Contributions(a, rings, step, v, dt, lag), Contributions(g, rings, step, v, dt, lag),
                      Contributions(n, rings, step, v, dt, lag), Contributions(an, rings, step, v, dt, lag));
  }

  /**
   * The four synapse loops of `calibrate`, one collection after the other, on the
   * buffer collection they are bound to.
   */
  method CalibrateSynapses(a: seq<Synapse>, g: seq<Synapse>, n: seq<Synapse>, an: seq<Synapse>,
                           bufs: SynBuffers)
    returns (a': seq<Synapse>, g': seq<Synapse>, n': seq<Synapse>, an': seq<Synapse>)
    requires Bound(a, |bufs.rings|) && Bound(g, |bufs.rings|) && Bound(n, |bufs.rings|) && Bound(an, |bufs.rings|)
    modifies bufs
    ensures a' == CalibratedAll(a) && g' == CalibratedAll(g) && n' == CalibratedAll(n) && an' == CalibratedAll(an)
    ensures bufs.rings == ClearedAt(old(bufs.rings), Indices(a) + Indices(g) + Indices(n) + Indices(an))
  {
    ghost var rings0 := bufs.rings;
    a' := CalibrateEach(a, bufs);
    g' := CalibrateEach(g, bufs);
    n' := CalibrateEach(n, bufs);
    an' := CalibrateEach(an, bufs);
    ClearedAtUnion(rings0, Indices(a), Indices(g));
    ClearedAtUnion(rings0, Indices(a) + Indices(g), Indices(n));
    ClearedAtUnion(rings0, Indices(a) + Indices(g) + Indices(n), Indices(an));
  }

  /** Calibrating keeps a collection of one kind and fully bound. */
  lemma CalibratedKept(syns: seq<Synapse>, r: Receptor, size: int)
    ensures OfKind(syns, r) ==> OfKind(CalibratedAll(syns), r)
    ensures Bound(syns, size) ==> Bound(CalibratedAll(syns), size)
    ensures syns == [] ==> CalibratedAll(syns) == []
  {
  }

  class CompartmentCurrents {
    var na: Na
    var k: K
    var ampaSyns: seq<Synapse>
    var gabaSyns: seq<Synapse>
    var nmdaSyns: seq<Synapse>
    var ampaNmdaSyns: seq<Synapse>
    /** The buffer collection last bound by `SetSynBuffers`; null before the first call. */
    var buffers: SynBuffers?

    /** Each collection holds synapses of its own kind only. */
    ghost predicate Valid()
      reads this
    {
      OfKind(ampaSyns, AMPA) && OfKind(gabaSyns, GABA) &&
      OfKind(nmdaSyns, NMDA) && OfKind(ampaNmdaSyns, AMPA_NMDA)
    }

    /** All four collections are empty. */
    predicate NoSynapses()
      reads this
    {
      ampaSyns == [] && gabaSyns == [] && nmdaSyns == [] && ampaNmdaSyns == []
    }

    /**
     * Every synapse's buffer pointer is set and points at an existing buffer. A
     * compartment without synapses dereferences no pointer and needs no binding.
     */
    ghost predicate Ready()
      reads this, buffers
    {
      NoSynapses() ||
      (buffers != null &&
       Bound(ampaSyns, |buffers.rings|) && Bound(gabaSyns, |buffers.rings|) &&
       Bound(nmdaSyns, |buffers.rings|) && Bound(ampaNmdaSyns, |buffers.rings|))
    }

    /** The bound buffer collection's contents; none before the first binding. */
    function Rings(): seq<RingBuffer>
      reads this, buffers
    {
      if buffers == null then [] else buffers.rings
    }

    /** The global indices of all synapses of the compartment. */
    function SynIndices(): set<int>
      reads this
    {
      Indices(ampaSyns) + Indices(gabaSyns) + Indices(nmdaSyns) + Indices(ampaNmdaSyns)
    }

    /** A compartment with the given channels and no synapses. */
    constructor (na: Na, k: K)
      ensures Valid()
      ensures this.na == na && this.k == k
      ensures ampaSyns == [] && gabaSyns == [] && nmdaSyns == [] && ampaNmdaSyns == []
      ensures buffers == null
    {
      this.na, this.k := na, k;
      ampaSyns, gabaSyns, nmdaSyns, ampaNmdaSyns := [], [], [], [];
      buffers := null;
    }

    /** `push_back` onto the collection of the synapse's kind. */
    method Push(s: Synapse)
      requires Valid()
      modifies this
      ensures Valid()
      ensures na == old(na) && k == old(k) && buffers == old(buffers)
      ensures ampaSyns == old(ampaSyns) + (if s.Kind() == AMPA then [s] else [])
      ensures gabaSyns == old(gabaSyns) + (if s.Kind() == GABA then [s] else [])
      ensures nmdaSyns == old(nmdaSyns) + (if s.Kind() == NMDA then [s] else [])
      ensures ampaNmdaSyns == old(ampaNmdaSyns) + (if s.Kind() == AMPA_NMDA then [s] else [])
    {
      match s.Kind()
      case AMPA => ampaSyns := ampaSyns + [s];
      case GABA => gabaSyns := gabaSyns + [s];
      case NMDA => nmdaSyns := nmdaSyns + [s];
      case AMPA_NMDA => ampaNmdaSyns := ampaNmdaSyns + [s];
    }

    /**
     * `add_synapse(type, syn_idx)`: a default synapse of the named kind is appended to
     * that kind's collection. Any other tag is the source's failed assertion: `ok` is
     * false and nothing changes.
     */
    method AddSynapse(tag: string, synIdx: int) returns (ok: bool)
      requires Valid()
      modifies this
      ensures Valid()
      ensures ok <==> tag == "AMPA" || tag == "GABA" || tag == "NMDA" || tag == "AMPA_NMDA"
      ensures na == old(na) && k == old(k) && buffers == old(buffers)
      ensures ampaSyns == old(ampaSyns) + (if tag == "AMPA" then [FreshSynapse(AMPA, synIdx)] else [])
      ensures gabaSyns == old(gabaSyns) + (if tag == "GABA" then [FreshSynapse(GABA, synIdx)] else [])
      ensures nmdaSyns == old(nmdaSyns) + (if tag == "NMDA" then [FreshSynapse(NMDA, synIdx)] else [])
      ensures ampaNmdaSyns == old(ampaNmdaSyns) +
        (if tag == "AMPA_NMDA" then [FreshSynapse(AMPA_NMDA, synIdx)] else [])
    {
      var r := Parse(tag);
      ok := r.Some?;
      if ok {
        Push(FreshSynapse(r.value, synIdx));
      }
    }

    /**
     * `add_synapse(type, syn_idx, receptor_params)`: as AddSynapse, with the synapse
     * built by the kind's dictionary constructor.
     */
    method AddSynapseWithParams(tag: string, synIdx: int, fromParams: ReceptorFactory) returns (ok: bool)
      requires Valid()
      modifies this
      ensures Valid()
      ensures ok <==> tag == "AMPA" || tag == "GABA" || tag == "NMDA" || tag == "AMPA_NMDA"
      ensures na == old(na) && k == old(k) && buffers == old(buffers)
      ensures ampaSyns == old(ampaSyns) + (if tag == "AMPA" then [fromParams(AMPA, synIdx)] else [])
      ensures gabaSyns == old(gabaSyns) + (if tag == "GABA" then [fromParams(GABA, synIdx)] else [])
      ensures nmdaSyns == old(nmdaSyns) + (if tag == "NMDA" then [fromParams(NMDA, synIdx)] else [])
      ensures ampaNmdaSyns == old(ampaNmdaSyns) +
        (if tag == "AMPA_NMDA" then [fromParams(AMPA_NMDA, synIdx)] else [])
    {
      var r := Parse(tag);
      ok := r.Some?;
      if ok {
        Push(fromParams(r.value, synIdx));
      }
    }

    /**
     * `set_syn_buffers`: every synapse of every collection points at entry `syn_idx`
     * of `bufs`; no numeric state changes.
     */
    method SetSynBuffers(bufs: SynBuffers)
      requires Valid()
      requires IndicesBelow(ampaSyns, |bufs.rings|) && IndicesBelow(gabaSyns, |bufs.rings|)
      requires IndicesBelow(nmdaSyns, |bufs.rings|) && IndicesBelow(ampaNmdaSyns, |bufs.rings|)
      modifies this
      ensures Valid() && Ready() && buffers == bufs
      ensures na == old(na) && k == old(k)
      ensures ampaSyns == AttachedAll(old(ampaSyns)) && gabaSyns == AttachedAll(old(gabaSyns))
      ensures nmdaSyns == AttachedAll(old(nmdaSyns)) && ampaNmdaSyns == AttachedAll(old(ampaNmdaSyns))
    {
      ampaSyns := AttachEach(ampaSyns);
      gabaSyns := AttachEach(gabaSyns);
      nmdaSyns := AttachEach(nmdaSyns);
      ampaNmdaSyns := AttachEach(ampaNmdaSyns);
      buffers := bufs;
    }

    /**
     * `calibrate`: both channels' gates and every synapse's conductances become 0, and
     * the buffer of every synapse is cleared. Collection lengths, indices, parameters
     * and all other buffers are untouched.
     */
    method Calibrate()
      requires Valid() && Ready()
      modifies this, buffers
      ensures Valid() && Ready() && buffers == old(buffers)
      ensures na == old(na).Calibrated() && k == old(k).Calibrated()
      ensures ampaSyns == CalibratedAll(old(ampaSyns)) && gabaSyns == CalibratedAll(old(gabaSyns))
      ensures nmdaSyns == CalibratedAll(old(nmdaSyns)) && ampaNmdaSyns == CalibratedAll(old(ampaNmdaSyns))
      ensures Rings() == ClearedAt(old(Rings()), old(SynIndices()))
    {
      na := na.Calibrated();
      k := k.Calibrated();
      CalibratedKept(ampaSyns, AMPA, |Rings()|);
      CalibratedKept(gabaSyns, GABA, |Rings()|);
      CalibratedKept(nmdaSyns, NMDA, |Rings()|);
      CalibratedKept(ampaNmdaSyns, AMPA_NMDA, |Rings()|);
      if buffers == null {
        assert Indices([]) == {} && ClearedAt([], {}) == [];
      } else {
        ampaSyns, gabaSyns, nmdaSyns, ampaNmdaSyns :=
          CalibrateSynapses(ampaSyns, gabaSyns, nmdaSyns, ampaNmdaSyns, buffers);
      }
    }

    /**
     * `f_numstep`: the sodium channel, the potassium channel and then every AMPA, GABA,
     * NMDA and AMPA_NMDA synapse, in insertion order, are stepped exactly once, and the
     * result is the element-wise sum of their pairs in that order. With no synapses it
     * is the sum of the two channels' pairs.
     */
    method FNumstep(f: Integrators, v: real, dt: real, lag: int) returns (gi: GI)
      requires Valid() && Ready()
      modifies this
      ensures Valid() && Ready() && buffers == old(buffers)
      ensures na == f.na(old(na), v, dt).0 && k == f.k(old(k), v, dt).0
      ensures ampaSyns == Advanced(old(ampaSyns), Rings(), f.syn, v, dt, lag)
      ensures gabaSyns == Advanced(old(gabaSyns), Rings(), f.syn, v, dt, lag)
      ensures nmdaSyns == Advanced(old(nmdaSyns), Rings(), f.syn, v, dt, lag)
      ensures ampaNmdaSyns == Advanced(old(ampaNmdaSyns), Rings(), f.syn, v, dt, lag)
      ensures gi == Fold(Zero, [f.na(old(na), v, dt).1, f.k(old(k), v, dt).1]
                               + Contributions(old(ampaSyns), Rings(), f.syn, v, dt, lag)
                               + Contributions(old(gabaSyns), Rings(), f.syn, v, dt, lag)
                               + Contributions(old(nmdaSyns), Rings(), f.syn, v, dt, lag)
                               + Contributions(old(ampaNmdaSyns), Rings(), f.syn, v, dt, lag))
      ensures old(ampaSyns) == [] && old(gabaSyns) == [] && old(nmdaSyns) == [] && old(ampaNmdaSyns) == []
              ==> gi == f.na(old(na), v, dt).1.Plus(f.k(old(k), v, dt).1)
    {
      var rings := Rings();
      assert NoSynapses() ==> Bound([], |rings|);
      ghost var channels := [f.na(na, v, dt).1, f.k(k, v, dt).1];
      var naOut := f.na(na, v, dt);
      na := naOut.0;
      gi := Zero.Plus(naOut.1);
      var kOut := f.k(k, v, dt);
      k := kOut.0;
      gi := gi.Plus(kOut.1);
      assert channels[..1] == [naOut.1] && channels[..1][..0] == [];
      assert Fold(Zero, channels[..1]) == Zero.Plus(naOut.1);
      ampaSyns, gabaSyns, nmdaSyns, ampaNmdaSyns, gi :=
        StepSynapses(ampaSyns, gabaSyns, nmdaSyns, ampaNmdaSyns, rings, f.syn, v, dt, lag, channels, gi);
    }
  }

  /**
   * A compartment that never had synapses or buffers can be calibrated and stepped:
   * the result is the sum of the two calibrated channels' pairs.
   */
  method CalibrateAndStepUnbound(na: Na, k: K, f: Integrators, v: real, dt: real, lag: int)
    returns (gi: GI)
    ensures gi == f.na(na.Calibrated(), v, dt).1.Plus(f.k(k.Calibrated(), v, dt).1)
  {
    var c := new CompartmentCurrents(na, k);
    c.Calibrate();
    gi := c.FNumstep(f, v, dt, lag);
  }
}
