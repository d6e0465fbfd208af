/**
 * The spike dilutor: a device that repeats the spikes it receives from a mother
 * process, copying each mother spike independently with probability `p_copy` for
 * every target. `update` re-emits one event per lag whose buffered mother-spike count
 * is non-zero; the event hook, called once per receiver, draws which spikes that
 * receiver gets.
 *
 * The random draws are an input sequence; events passed to the kernel for sending and
 * events passed to a receiver's `handle` are returned as logs. Whether the device is
 * active at the slice time, the delivery step of an incoming event and the parameter
 * dictionaries are inputs.
 */
module Dilutor {
  import opened RingBuffers

  datatype Error = BadProperty(message: string)

  datatype Outcome = Pass | Fail(error: Error)

  /** The key of the copy probability in a status dictionary. */
  const PCopyKey: string := "p_copy"

  /** The device's parameters (`Parameters_`). */
  class Parameters {
    var pCopy: real

    /** The default copy probability is 1. */
    constructor ()
      ensures pCopy == 1.0
    {
      pCopy := 1.0;
    }

    /** The copy constructor keeps the copy probability. */
    constructor Copy(p: Parameters)
      ensures pCopy == p.pCopy
    {
      pCopy := p.pCopy;
    }

    /** `get`: the dictionary with `p_copy` set to the stored value, every other entry kept. */
    function Get(d: map<string, real>): (r: map<string, real>)
      reads this
      ensures PCopyKey in r && r[PCopyKey] == pCopy
      ensures r.Keys == d.Keys + {PCopyKey}
      ensures forall key :: key in d && key != PCopyKey ==> r[key] == d[key]
    {
      d[PCopyKey := pCopy]
    }

    /**
     * `set`: a `p_copy` in the dictionary is stored first, then checked. A value
     * outside [0, 1] raises BadProperty, and the field already holds that value.
     */
    method Set(d: map<string, real>) returns (result: Outcome)
      modifies this
      ensures pCopy == if PCopyKey in d then d[PCopyKey] else old(pCopy)
      ensures result == if pCopy < 0.0 || pCopy > 1.0
                        then Fail(BadProperty("Copy probability must be in [0, 1]."))
                        else Pass
    {
      if PCopyKey in d {
        pCopy := d[PCopyKey];
      }
      if pCopy < 0.0 || pCopy > 1.0 {
        return Fail(BadProperty("Copy probability must be in [0, 1]."));
      }
      return Pass;
    }
  }

  /** A successful `set` followed by `get` reports the value that was set. */
  method SetThenGet(p: Parameters, d: map<string, real>) returns (result: Outcome, out: map<string, real>)
    modifies p
    ensures result.Pass? ==> 0.0 <= p.pCopy <= 1.0
    ensures PCopyKey in out
    ensures PCopyKey in d ==> out[PCopyKey] == d[PCopyKey]
    ensures PCopyKey !in d ==> out[PCopyKey] == old(p.pCopy)
  {
    result := p.Set(d);
    out := p.Get(map[]);
  }

  /** An event handed to the kernel by `update`: its lag and its multiplicity. */
  datatype Sent = Sent(lag: int, multiplicity: nat)

  /** A spike event whose multiplicity the event hook rewrites in place. */
  class SpikeEvent {
    var multiplicity: nat

    constructor (multiplicity: nat)
      ensures this.multiplicity == multiplicity
    {
      this.multiplicity := multiplicity;
    }
  }

  /** The `static_cast< ulong_t >` of a buffered (non-negative) count. */
  function Truncate(x: real): (n: nat)
    requires x >= 0.0
    ensures n as real <= x < n as real + 1.0
  {
    x.Floor
  }

  /** The number of mother spikes buffered for `lag`. */
  function MotherSpikes(buf: RingBuffer, lag: int): (n: nat)
    requires buf.NonNegative()
    ensures n as real <= buf.Value(lag) < n as real + 1.0
  {
    assert buf.Value(lag) >= 0.0;
    Truncate(buf.Value(lag))
  }

  /** The events an active device sends for the `n` lags `from`, ..., `from + n - 1`. */
  function Emitted(buf: RingBuffer, from: int, n: nat): (r: seq<Sent>)
    requires buf.NonNegative()
    ensures |r| <= n
  {
    if n == 0 then []
    else
      var lag := from + n - 1;
      Emitted(buf, from, n - 1) + (if MotherSpikes(buf, lag) > 0 then [Sent(lag, MotherSpikes(buf, lag))] else [])
  }

  /** The positions of the draws that fall below `p`. */
  function Below(draws: seq<real>, p: real): set<int> {
    set k | 0 <= k < |draws| && draws[k] < p
  }

  /** The number of draws below `p`, counted in draw order: the mother spikes that are copied. */
  function Copied(draws: seq<real>, p: real): (r: nat)
    ensures r == |Below(draws, p)|
    decreases |draws|
  {
    if draws == [] then
      assert Below(draws, p) == {};
      0
    else
      var last := |draws| - 1;
      var prefix := draws[..last];
      var c := Copied(prefix, p);
      assert Below(draws, p) == Below(prefix, p) + (if draws[last] < p then {last} else {}) by {
        forall k | k in Below(draws, p) ensures k in Below(prefix, p) || k == last {
          if k < last { assert prefix[k] == draws[k]; }
        }
        forall k | k in Below(prefix, p) ensures k in Below(draws, p) {
          assert prefix[k] == draws[k];
        }
      }
      assert last !in Below(prefix, p);
      c + (if draws[last] < p then 1 else 0)
  }

  /**
   * Every event sent for the lags `[from, from + n)` is for one of those lags, has a
   * non-zero count and carries that count as multiplicity.
   */
  lemma {:induction false} EmittedSound(buf: RingBuffer, from: int, n: nat)
    requires buf.NonNegative()
    ensures forall k :: 0 <= k < |Emitted(buf, from, n)| ==>
      var e := Emitted(buf, from, n)[k];
      from <= e.lag < from + n && e.multiplicity == MotherSpikes(buf, e.lag) && e.multiplicity > 0
    decreases n
  {
    if n > 0 {
      EmittedSound(buf, from, n - 1);
    }
  }

  /** The events are sent in strictly increasing lag order, so at most once per lag. */
  lemma {:induction false} EmittedOrdered(buf: RingBuffer, from: int, n: nat)
    requires buf.NonNegative()
    ensures forall k, l :: 0 <= k < l < |Emitted(buf, from, n)| ==>
      Emitted(buf, from, n)[k].lag < Emitted(buf, from, n)[l].lag
    decreases n
  {
    if n > 0 {
      EmittedOrdered(buf, from, n - 1);
      EmittedSound(buf, from, n - 1);
      var prev := Emitted(buf, from, n - 1);
      assert forall k :: 0 <= k < |prev| ==> prev[k].lag < from + n - 1;
    }
  }

  /** The lags the events of `sent` are for. */
  function Lags(sent: seq<Sent>): set<int> {
    set k | 0 <= k < |sent| :: sent[k].lag
  }

  /** Every lag of `[from, from + n)` with a non-zero count is sent. */
  lemma {:induction false} EmittedComplete(buf: RingBuffer, from: int, n: nat)
    requires buf.NonNegative()
    ensures forall lag :: from <= lag < from + n && MotherSpikes(buf, lag) > 0 ==>
      lag in Lags(Emitted(buf, from, n))
    decreases n
  {
    if n > 0 {
      EmittedComplete(buf, from, n - 1);
      var prev := Emitted(buf, from, n - 1);
      var e := Emitted(buf, from, n);
      assert forall k :: 0 <= k < |prev| ==> e[k] == prev[k];
      forall lag | from <= lag < from + n && MotherSpikes(buf, lag) > 0
        ensures lag in Lags(e)
      {
        if lag == from + n - 1 {
          assert e == prev + [Sent(lag, MotherSpikes(buf, lag))];
          assert e[|e| - 1].lag == lag;
        } else {
          var k :| 0 <= k < |prev| && prev[k].lag == lag;
          assert e[k].lag == lag;
        }
      }
    }
  }

  /**
   * A multiplicity `m` handled into a cleared buffer at `lag` is sent again, once and
   * with multiplicity `m`, by an active update whose lags include `lag`.
   */
  lemma {:induction false} HandledThenEmitted(lag: int, m: nat, from: int, n: nat)
    ensures Empty.AddValue(lag, m as real).NonNegative()
    ensures Emitted(Empty.AddValue(lag, m as real), from, n) ==
            if from <= lag < from + n && m > 0 then [Sent(lag, m)] else []
    decreases n
  {
    var buf := Empty.AddValue(lag, m as real);
    assert Empty.NonNegative();
    if n > 0 {
      HandledThenEmitted(lag, m, from, n - 1);
      var last := from + n - 1;
      if last == lag {
        assert buf.Value(last) == m as real;
        assert MotherSpikes(buf, last) == m;
      } else {
        assert buf.Value(last) == 0.0;
        assert MotherSpikes(buf, last) == 0;
      }
    }
  }

  /** No more spikes are copied than there are mother spikes. */
  lemma {:induction false} CopiedAtMost(draws: seq<real>, p: real)
    ensures Copied(draws, p) <= |draws|
    decreases |draws|
  {
    if draws != [] {
      CopiedAtMost(draws[..|draws| - 1], p);
    }
  }

  /** With `p_copy` 0 and draws in [0, 1), nothing is copied. */
  lemma NothingCopiedAtZero(draws: seq<real>)
    requires forall k :: 0 <= k < |draws| ==> 0.0 <= draws[k]
    ensures Copied(draws, 0.0) == 0
  {
  }

  /** With `p_copy` 1 and draws in [0, 1), everything is copied. */
  lemma {:induction false} EverythingCopiedAtOne(draws: seq<real>)
    requires forall k :: 0 <= k < |draws| ==> draws[k] < 1.0
    ensures Copied(draws, 1.0) == |draws|
    decreases |draws|
  {
    if draws != [] {
      EverythingCopiedAtOne(draws[..|draws| - 1]);
    }
  }

  /** A larger copy probability copies at least as many spikes from the same draws. */
  lemma {:induction false} CopiedMonotone(draws: seq<real>, p: real, q: real)
    requires p <= q
    ensures Copied(draws, p) <= Copied(draws, q)
    decreases |draws|
  {
    if draws != [] {
      CopiedMonotone(draws[..|draws| - 1], p, q);
    }
  }

  class SpikeDilutor {
    const params: Parameters
    /** `B_.n_spikes_`: the mother spikes received, by relative delivery step. */
    var nSpikes: RingBuffer

    /** Only non-negative spike counts are ever added to the buffer. */
    ghost predicate Valid()
      reads this
    {
      nSpikes.NonNegative()
    }

    /** A device with default parameters and an empty buffer. */
    constructor ()
      ensures Valid() && fresh(params) && params.pCopy == 1.0 && nSpikes == Empty
    {
      params := new Parameters();
      nSpikes := Empty;
    }

    /** `init_buffers_`: the spike buffer is cleared. */
    method InitBuffers()
      modifies this
      ensures Valid()
      ensures nSpikes == Empty
      ensures forall lag :: nSpikes.Value(lag) == 0.0
    {
      nSpikes := nSpikes.Clear();
    }

    /**
     * `update` for the lags `[from, to)`: an inactive device returns at the first lag
     * and sends nothing; an active one sends one event per lag whose buffered count is
     * non-zero, with that count as multiplicity, in lag order.
     */
    method Update(active: bool, from: int, to: int) returns (sent: seq<Sent>)
      requires Valid()
      requires 0 <= to && from < to
      ensures sent == if active then Emitted(nSpikes, from, to - from) else []
    {
      sent := [];
      var lag := from;
      while lag < to
        invariant from <= lag <= to
        invariant !active ==> lag == from
        invariant sent == Emitted(nSpikes, from, lag - from)
      {
        if !active {
          return;
        }
        var nMother := MotherSpikes(nSpikes, lag);
        if nMother > 0 {
          sent := sent + [Sent(lag, nMother)];
        }
        lag := lag + 1;
      }
    }

    /**
     * `event_hook`: of the event's `n_mother` spikes, those whose draw falls below
     * `p_copy` are copied; a positive count is handed to the receiver's `handle` once,
     * as the event's multiplicity, and the multiplicity is then restored.
     */
    method EventHook(e: SpikeEvent, draws: seq<real>) returns (handled: seq<nat>)
      requires e.multiplicity <= |draws|
      modifies e
      ensures e.multiplicity == old(e.multiplicity)
      ensures var c := Copied(draws[..old(e.multiplicity)], params.pCopy);
              c <= old(e.multiplicity) && handled == if c > 0 then [c] else []
    {
      var nMother := e.multiplicity;
      var n := 0;
      var copied := 0;
      while n < nMother
        invariant 0 <= n <= nMother
        invariant copied == Copied(draws[..n], params.pCopy)
      {
        assert draws[..n + 1][..n] == draws[..n];
        if draws[n] < params.pCopy {
          copied := copied + 1;
        }
        n := n + 1;
      }
      CopiedAtMost(draws[..nMother], params.pCopy);
      handled := [];
      if copied > 0 {
        e.multiplicity := copied;
        handled := [e.multiplicity];
      }
      e.multiplicity := nMother;
    }

    /** `handle`: the event's multiplicity is added at its relative delivery step. */
    method Handle(relSteps: int, multiplicity: nat)
      requires Valid()
      modifies this
      ensures Valid()
      ensures nSpikes == old(nSpikes).AddValue(relSteps, multiplicity as real)
    {
      nSpikes := nSpikes.AddValue(relSteps, multiplicity as real);
    }
  }

  /**
   * `init_buffers_`, then `handle` of one event, then an active `update`: the event is
   * sent again, once and with its multiplicity, exactly when it is positive and its
   * delivery step lies in `[from, to)`.
   */
  method InitHandleUpdate(d: SpikeDilutor, relSteps: int, m: nat, from: int, to: int)
    returns (sent: seq<Sent>)
    requires 0 <= to && from < to
    modifies d
    ensures sent == if from <= relSteps < to && m > 0 then [Sent(relSteps, m)] else []
  {
    d.InitBuffers();
    d.Handle(relSteps, m);
    sent := d.Update(true, from, to);
    HandledThenEmitted(relSteps, m, from, to - from);
  }
}
