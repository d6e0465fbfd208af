# Compartment currents and spike dilutor

This project models two sequential pieces of the NEST simulator's neuron and device
code, and proves properties of them in Dafny.

**The compartment-current aggregator** (`CompartmentCurrents`, in
`models/cm_compartmentcurrents.h`) belongs to the compartmental neuron model. Each
compartment owns:

- one sodium channel (`Na`, gates m and h);
- one potassium channel (`K`, gate n);
- four append-only collections of biexponential synapses: AMPA, GABA, NMDA and the
  combined AMPA_NMDA.

Its operations are:

- `add_synapse` picks the collection from a string tag and appends a new synapse.
- `set_syn_buffers` points every synapse at entry `syn_idx` of the externally owned
  vector of spike ring buffers.
- `calibrate` zeroes every gating and conductance state and clears every bound buffer.
- `f_numstep` steps every member once and returns the sum of their linearised
  (conductance, current) pairs.

The NMDA voltage sigmoid and its derivative are modelled over the reals, with `exp`
known only to be positive.

**The spike dilutor** (`models/spike_dilutor.cpp`) is a device that repeats mother
spikes and copies each one independently, with probability `p_copy`, for every target.
Its operations are:

- `Parameters_` holds and validates `p_copy`.
- `update` re-emits one event per lag whose buffered mother-spike count is non-zero.
- `event_hook` draws, per receiver, how many of the mother spikes are copied.
- `handle` accumulates incoming multiplicities into the buffer.

Modules:

- `RingBuffers` (`ring_buffer.dfy`): the spike buffer as a map from lag to weight.
- `Linearized` (`linearized.dfy`): the (g, i) pair and in-order accumulation.
- `Channels` (`channels.dfy`): `Na` and `K`.
- `Receptors` (`receptors.dfy`): the four synapse kinds, their defaults, `calibrate`,
  `set_buffer_ptr` and the NMDA sigmoid.
- `Compartment` (`compartment_currents.dfy`): the aggregator class, with its methods
  and loops.
- `Dilutor` (`spike_dilutor.dfy`): the parameters class and the device class.

How the source's structures appear in the model:

- Members are stored by value in C++ vectors, so synapses and channels are datatypes.
  The aggregator is a class whose sequence fields its methods reassign.
- A synapse's `b_spikes_` pointer becomes an `attached` flag. `set_syn_buffers` rebinds
  every synapse, so every attached synapse points into the collection last passed to
  it. The aggregator keeps that collection in its `buffers` field.
- Each member's `f_numstep` body is not part of this model, so it is a function
  parameter (`Integrators`). A synapse step must keep its kind, index and binding, and
  may change everything else.
- The dictionary constructors of the synapses are also not modelled. They appear as a
  parameter (`ReceptorFactory`) that builds a synapse of the requested kind and index.
- The random draws of `event_hook` are an input sequence.
- The kernel's `send` and a receiver's `handle` become returned logs.
- `is_active(T)` is a boolean parameter of `Update`.

Behaviours worth knowing:

- An unknown tag in `add_synapse` hits the source's `assert(false)`. The model reports
  it as `ok == false` and changes nothing.
- Each synapse's `calibrate` clears its buffer through `b_spikes_`, and each synapse's
  step presumably reads through it. So `Calibrate` and `FNumstep` require `Ready`: a
  compartment with no synapses needs no binding; otherwise `set_syn_buffers` must have
  bound a collection, and every synapse must be bound to an existing entry of it. A
  compartment that never had synapses can be calibrated and stepped without any
  binding (`CalibrateAndStepUnbound`).
- In this header the AMPA_NMDA synapse's AMPA decay constant `tau_d_AMPA_` defaults to
  43, while the standalone AMPA synapse's `tau_d_` defaults to 3. The model keeps
  these defaults exactly as written.

## Model

| member | source | states |
|---|---|---|
| Channels.Na.Calibrated | models/cm_compartmentcurrents.h:47 | `Na::calibrate` sets m and h to 0 and keeps gbar and e_Na |
| Channels.K.Calibrated | models/cm_compartmentcurrents.h:70 | `K::calibrate` sets n to 0 and keeps gbar and e_K |
| Receptors.Parse | models/cm_compartmentcurrents.h:319-345 | the tag selects a receptor exactly when it is one of "AMPA", "GABA", "NMDA", "AMPA_NMDA", and the receptor selected has that name |
| Receptors.ParseName | models/cm_compartmentcurrents.h:319-345 | every receptor's own name selects that receptor |
| Receptors.Synapse.Calibrated | models/cm_compartmentcurrents.h:103-107 | a synapse's `calibrate` zeroes all its conductance states (both pairs for AMPA_NMDA) and keeps kind, index, reversal potential, time constants, ratio, normalisation and binding |
| Receptors.Synapse.Attached | models/cm_compartmentcurrents.h:109-112 | `set_buffer_ptr` marks the synapse bound and changes no other field |
| Receptors.FreshSynapse | models/cm_compartmentcurrents.h:79-231 | the one-argument constructors give the requested kind and index, unbound, zero states, the in-class `g_norm` initialiser 1 and e_rev 0; tau_r/tau_d are 0.2/3 (AMPA), 0.2/10 (GABA), 0.2/43 (NMDA), and AMPA_NMDA has 0.2/43 for both pairs and ratio 2 |
| Receptors.NmdaSigmoid | models/cm_compartmentcurrents.h:197-200 | 1/(1 + 0.3 exp(-0.1 v)) lies strictly between 0 and 1 for every v |
| Receptors.NmdaSigmoidDerivative | models/cm_compartmentcurrents.h:201-204 | 0.03 exp(-0.1 v)/(0.3 exp(-0.1 v) + 1)^2 equals 0.1 s (1 - s) for the sigmoid s, and is positive |
| RingBuffers.RingBuffer.Value | models/spike_dilutor.cpp:132 | `get_value`: the weight stored at a lag, 0 where nothing was added; reading does not erase |
| RingBuffers.RingBuffer.Clear | models/cm_compartmentcurrents.h:106 | after `clear` the buffer is the empty buffer: every lag reads 0 |
| RingBuffers.RingBuffer.AddValue | models/spike_dilutor.cpp:180-182 | `add_value` adds the weight to what the lag held, leaves every other lag alone, and keeps a non-negative buffer non-negative when the weight is non-negative |
| Linearized.Fold | models/cm_compartmentcurrents.h:436-493 | the pairs added into (g_val, i_val) first to last |
| Linearized.FoldElementwise | models/cm_compartmentcurrents.h:436-493 | accumulating pairs into g_val/i_val gives the sum of the conductances and the sum of the currents |
| Linearized.FoldAppend | models/cm_compartmentcurrents.h:436-493 | accumulating a concatenation means accumulating one part and then continuing with the other |
| Compartment.SynBuffers.constructor | models/cm_compartmentcurrents.h:375 | the buffer collection holds the given buffers |
| Compartment.CalibratedAll | models/cm_compartmentcurrents.h:289-316 | a calibrated collection has the same length, and each synapse at its position is calibrated |
| Compartment.AttachedAll | models/cm_compartmentcurrents.h:379-405 | a bound collection has the same length, and each synapse at its position is bound |
| Compartment.ClearedAt | models/cm_compartmentcurrents.h:106 | exactly the buffers at the given indices are cleared; the others and the length are unchanged |
| Compartment.Advanced | models/cm_compartmentcurrents.h:453-491 | stepping a collection keeps its length and each synapse's kind, index and binding |
| Compartment.ClearedAtUnion | models/cm_compartmentcurrents.h:289-316 | clearing one set of buffers and then another clears their union |
| Compartment.CalibrationIdempotent | models/cm_compartmentcurrents.h:283-317 | calibrating the channels, the synapses and the buffers twice gives the same result as calibrating once |
| Compartment.SlotsKept | models/cm_compartmentcurrents.h:453-491 | stepping keeps a collection of one kind and fully bound |
| Compartment.AccumulateInOrder | models/cm_compartmentcurrents.h:436-493 | summing collection after collection onto the channels' sum is the sum of the whole sequence; with no synapses it is the channels' sum |
| Compartment.CalibrateEach | models/cm_compartmentcurrents.h:289-295 | one `calibrate` loop returns the calibrated collection and clears exactly the buffers at that collection's indices |
| Compartment.AttachEach | models/cm_compartmentcurrents.h:379-384 | one `set_syn_buffers` loop binds every synapse of the collection |
| Compartment.StepEach | models/cm_compartmentcurrents.h:453-461 | one `f_numstep` loop steps each synapse once, reading its own buffer, and adds the pairs to the running sum in order |
| Compartment.StepSynapses | models/cm_compartmentcurrents.h:452-491 | the four synapse loops step each collection, keep kinds and bindings, and continue the sum in AMPA, GABA, NMDA, AMPA_NMDA order |
| Compartment.CalibrateSynapses | models/cm_compartmentcurrents.h:288-316 | the four `calibrate` loops calibrate every collection and clear exactly the buffers at all their synapses' indices |
| Compartment.CalibratedKept | models/cm_compartmentcurrents.h:288-316 | calibrating keeps a collection of one kind and fully bound, and an empty collection empty |
| Compartment.CompartmentCurrents.constructor | models/cm_compartmentcurrents.h:276-280 | a compartment starts with the given channels, four empty collections and no bound buffers |
| Compartment.CompartmentCurrents.Push | models/cm_compartmentcurrents.h:324 | `push_back` appends the synapse to its kind's collection only |
| Compartment.CompartmentCurrents.AddSynapse | models/cm_compartmentcurrents.h:319-345 | a known tag appends exactly one default synapse with the given index to the end of the matching collection; the other collections, channels and buffers are unchanged; any other tag is reported and changes nothing |
| Compartment.CompartmentCurrents.AddSynapseWithParams | models/cm_compartmentcurrents.h:347-373 | the same, with the synapse built by the dictionary constructor of that kind |
| Compartment.CompartmentCurrents.SetSynBuffers | models/cm_compartmentcurrents.h:375-406 | given indices below the number of buffers, every synapse of all four collections becomes bound to the collection, and no numeric state changes |
| Compartment.CompartmentCurrents.Calibrate | models/cm_compartmentcurrents.h:283-317 | channel gates and all synapse states become 0; the buffer of every synapse is cleared and every other buffer is kept; lengths, indices and parameters are unchanged; a compartment without synapses needs no bound buffers |
| Compartment.CompartmentCurrents.FNumstep | models/cm_compartmentcurrents.h:434-494 | Na, then K, then every AMPA, GABA, NMDA, AMPA_NMDA synapse in insertion order is stepped exactly once; the result is the sum of their pairs in that order; with no synapses it is Na + K, bound buffers or not |
| Compartment.CalibrateAndStepUnbound | models/cm_compartmentcurrents.h:275-494 | a new compartment with no synapses and no bound buffers can be calibrated and then stepped, giving the sum of the calibrated channels' pairs |
| Dilutor.Parameters.constructor | models/spike_dilutor.cpp:42-45 | the default copy probability is 1 |
| Dilutor.Parameters.Copy | models/spike_dilutor.cpp:47-50 | the copy constructor keeps the copy probability |
| Dilutor.Parameters.Get | models/spike_dilutor.cpp:57-60 | `get` sets `p_copy` in the dictionary to the stored value and keeps every other entry |
| Dilutor.Parameters.Set | models/spike_dilutor.cpp:63-69 | a `p_copy` entry is stored before the check; BadProperty is raised exactly when the stored value is below 0 or above 1, so 0 and 1 are accepted |
| Dilutor.SetThenGet | models/spike_dilutor.cpp:57-69 | after a successful `set` the stored value lies in [0, 1], and `get` reports the value that was set, or the old one if the dictionary had none |
| Dilutor.SpikeEvent.constructor | models/spike_dilutor.cpp:138 | an event carries the given multiplicity |
| Dilutor.Truncate | models/spike_dilutor.cpp:131-132 | the cast of a non-negative buffered count to an unsigned integer is its floor |
| Dilutor.MotherSpikes | models/spike_dilutor.cpp:131-132 | the number of mother spikes at a lag is the floor of the buffered count there |
| Dilutor.Emitted | models/spike_dilutor.cpp:125-141 | the events for n lags, built lag by lag as the send loop does: at most one per lag |
| Dilutor.Copied | models/spike_dilutor.cpp:162-166 | the count kept by the draw loop equals the number of positions whose draw is below `p_copy` |
| Dilutor.EmittedSound | models/spike_dilutor.cpp:125-141 | every event an active device sends is for a lag of `[from, to)` whose count is non-zero, and carries that count as multiplicity |
| Dilutor.EmittedOrdered | models/spike_dilutor.cpp:125-141 | the events are sent in strictly increasing lag order, so at most one per lag |
| Dilutor.EmittedComplete | models/spike_dilutor.cpp:125-141 | every lag of `[from, to)` with a non-zero count gets an event |
| Dilutor.HandledThenEmitted | models/spike_dilutor.cpp:178-183 | a positive multiplicity handled into a cleared buffer is sent once, with the same multiplicity, by an update whose lags include its step; otherwise nothing is sent |
| Dilutor.CopiedAtMost | models/spike_dilutor.cpp:159-166 | no more spikes are copied than there are mother spikes |
| Dilutor.NothingCopiedAtZero | models/spike_dilutor.cpp:162-166 | with `p_copy` 0 and non-negative draws, nothing is copied |
| Dilutor.EverythingCopiedAtOne | models/spike_dilutor.cpp:162-166 | with `p_copy` 1 and draws below 1, every mother spike is copied |
| Dilutor.CopiedMonotone | models/spike_dilutor.cpp:162-166 | a larger copy probability copies at least as many spikes from the same draws |
| Dilutor.SpikeDilutor.constructor | models/spike_dilutor.cpp:75-80 | a new device has default parameters and an empty buffer |
| Dilutor.SpikeDilutor.InitBuffers | models/spike_dilutor.cpp:101-106 | `init_buffers_` leaves the spike buffer empty: every lag reads 0 |
| Dilutor.SpikeDilutor.Update | models/spike_dilutor.cpp:119-142 | an inactive device returns at the first lag and sends nothing; an active one sends exactly the events described by EmittedSound, EmittedOrdered and EmittedComplete |
| Dilutor.SpikeDilutor.EventHook | models/spike_dilutor.cpp:144-175 | the copied count is the number of the first n_mother draws below `p_copy`, and at most n_mother; the receiver is handled once with that count when it is positive and never otherwise; the event's multiplicity is n_mother again on exit |
| Dilutor.SpikeDilutor.Handle | models/spike_dilutor.cpp:177-183 | `handle` adds the event's multiplicity to the buffer at its relative delivery step and keeps the buffer non-negative |
| Dilutor.InitHandleUpdate | models/spike_dilutor.cpp:101-183 | `init_buffers_`, `handle` of one event, then an active `update` send that event again, once and with its multiplicity, exactly when it is positive and its step lies in `[from, to)` |

## Left out

- The integration steps (`f_numstep`) of Na, K and the four synapse kinds: their
  bodies are not part of this model. They are parameters. A synapse step must keep kind,
  index and binding, and may change everything else.
- Receptors.FreshSynapse: the bodies of the one-argument synapse constructors
  `AMPA(syn_index)`, `GABA(syn_index)`, `NMDA(syn_index)` and `AMPA_NMDA(syn_index)` are
  not part of this model. The model takes the in-class initialisers, with `syn_idx`
  from the argument. `UnitNorm()` (`g_norm_` = 1) holds only if those bodies leave
  `g_norm_` at its initialiser; if they compute it from the time constants, the
  normalisation of a fresh synapse differs.
- The dictionary constructors of Na, K and the synapses, and the default constructors
  `Na()` and `K()`. Their bodies are not part of this model. The aggregator takes its
  channels as values, and the parameter overload of `add_synapse` takes the
  constructors as a `ReceptorFactory`.
- `append_recordables` and `get_recordables`: the recordable names come from code that
  is not part of this model.
- `ring_buffer.h` is not part of this model. The buffer is a map from lag to weight
  with read, add and clear. `get_value` is taken as non-erasing, and lags are not
  reduced modulo the buffer size.
- Floating point: weights, conductances and voltages are reals, and `exp` is an
  arbitrary positive function.
- Integer widths (`long`, `ulong_t`, the event's multiplicity) are unbounded ints, and
  `p_copy` is a real, so a NaN that passes the check of `Parameters_::set` is not
  modelled.
- Dilutor.SpikeDilutor.Update: does not model the assertion `from < min_delay`, because
  the minimum delay lives in the kernel. Sending is a returned log, not a call into the
  event delivery manager.
- Dilutor.SpikeDilutor.EventHook: the random generator is replaced by the input
  sequence of draws. The receiver's `handle` is a returned log of multiplicities.
- Dilutor.SpikeDilutor.Handle: the relative delivery step is an input, because it is
  computed by the kernel from the slice origin.
- Dilutor.Parameters.Set: every dictionary value is a real. The type errors that
  `updateValue` raises for a non-numeric `p_copy` are not modelled.
- The dilutor's copy constructor: it copies the parameters (what
  `Dilutor.Parameters.Copy` models), copy-constructs the `Node` base and the `device_`
  member, and gives the copy a fresh buffer. `Node` and the device class are not part
  of this model, so the device copy as a whole is not modelled.
- `init_state_`, `calibrate` and the `device_.init_buffers()` call in `init_buffers_`:
  they only forward to the `device_` member, whose class is not part of this model.
- Threading, and the choice of the thread's random generator.
