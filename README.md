# DDAS hit record — a verified Dafny model

This project models `DAQ::DDAS::DDASHit` from the FRIBDAQ DDAS format library. A `DDASHit` holds one decoded hit from a multichannel waveform digitizer:

- where it came from (crate, slot, channel);
- the record's lengths and finish code;
- the raw 48-bit timestamp as a high and a low word, plus the reconstructed coarse time and the corrected time;
- the raw CFD word with its trigger-source and fail bits;
- the module type (sampling rate, ADC resolution, hardware revision);
- the energy and the ADC overflow/underflow flag;
- three growable sequences: energy sums, QDC sums and 16-bit trace samples.

Files:

- `ddas_types.dfy`, module `DDASTypes`: the fixed-width integer types, taken from the widths of the setter parameters. It also holds `Float64`, an opaque stand-in for `double`, and bitwise AND on unsigned numbers. It proves that `d & LOWER_16_BIT_MASK` is `d mod 2^16`.
- `ddas_hit.dfy`, module `DDAS`:
  - `HitRecord` holds the value of all 23 fields at one moment.
  - The class `DDASHit` has the same 23 mutable fields.
  - `Record()` reads an object's current `HitRecord`.
  - Every method states its whole new state as an update of the old record, so each contract says which fields change and that nothing else does.
  - The class invariant `Valid()` says that the stored high timestamp word is below 2^16.
- `ddas_hit_properties.dfy`, module `DDASHitProperties`: properties that span several calls. These cover runs of appends (order kept, sequences independent), Reset being idempotent, CopyIn being a deep copy, and the high-time setter applied to a whole 32-bit word.

Modelling assumptions:

- C++ `int` is 32 bits wide.
- `LOWER_16_BIT_MASK` is `0xFFFF`.
- `m_finishCode` is a `bool`, because its setter takes a `bool`. The constructor's and `Reset`'s `0` is `false`.
- The declarations of these fields and constants are in headers that are not part of this model.

## Model

| member | source | states |
|---|---|---|
| `DDASTypes.Lower16` | DDASHit.cpp:168 | `d & LOWER_16_BIT_MASK` is below 2^16, equals `d mod 2^16`, and leaves a value that already fits unchanged |
| `DDASTypes.MaskIsModulo` | DDASHit.cpp:168 | bitwise AND with a mask of the k low bits equals reduction modulo 2^k, for every unsigned value and every k |
| `DDAS.ZeroRecord` | DDASHit.cpp:16-29 | the all-zero state (every number 0, time 0.0, both flags false, all sequences empty) satisfies the class invariant |
| `DDAS.DDASHit.constructor` | DDASHit.cpp:20-29 | a new hit has every field zero or false and all three sequences empty, and it is valid |
| `DDAS.DDASHit.Reset` | DDASHit.cpp:36-62 | from any state, every scalar is zeroed and every sequence emptied, giving exactly the constructor's state, and the invariant holds |
| `DDAS.DDASHit.SetChannel` | DDASHit.cpp:70-74 | only the channel id changes, to the argument; validity is unchanged |
| `DDAS.DDASHit.SetSlot` | DDASHit.cpp:76-80 | only the slot id changes, to the argument; validity is unchanged |
| `DDAS.DDASHit.SetCrate` | DDASHit.cpp:82-86 | only the crate id changes, to the argument; validity is unchanged |
| `DDAS.DDASHit.SetChannelHeaderLength` | DDASHit.cpp:88-92 | only the header length changes, to the argument; validity is unchanged |
| `DDAS.DDASHit.SetChannelLength` | DDASHit.cpp:94-98 | only the channel length changes, to the argument; validity is unchanged |
| `DDAS.DDASHit.SetFinishCode` | DDASHit.cpp:100-104 | only the finish code changes, to the argument; validity is unchanged |
| `DDAS.DDASHit.SetCoarseTime` | DDASHit.cpp:119-123 | only the coarse time changes, to the argument; validity is unchanged |
| `DDAS.DDASHit.SetRawCFDTime` | DDASHit.cpp:125-129 | only the raw CFD word changes, to the argument; validity is unchanged |
| `DDAS.DDASHit.SetCFDTrigSourceBit` | DDASHit.cpp:140-144 | only the CFD trigger-source value changes, to the argument; validity is unchanged |
| `DDAS.DDASHit.SetCFDFailBit` | DDASHit.cpp:153-157 | only the CFD fail bit changes, to the argument; validity is unchanged |
| `DDAS.DDASHit.SetTimeLow` | DDASHit.cpp:159-163 | only the low timestamp word changes, to the argument; validity is unchanged |
| `DDAS.DDASHit.SetTimeHigh` | DDASHit.cpp:165-169 | only the high timestamp word changes, to the argument modulo 2^16; the invariant holds afterwards whatever the state before |
| `DDAS.DDASHit.SetTime` | DDASHit.cpp:171-175 | only the stored `double` changes, to the argument (bit for bit); validity is unchanged |
| `DDAS.DDASHit.SetEnergy` | DDASHit.cpp:177-181 | only the energy changes, to the argument; validity is unchanged |
| `DDAS.DDASHit.SetTraceLength` | DDASHit.cpp:183-187 | only the trace length changes, to the argument; validity is unchanged |
| `DDAS.DDASHit.SetADCFrequency` | DDASHit.cpp:189-193 | only the module sampling rate changes, to the argument; validity is unchanged |
| `DDAS.DDASHit.SetADCResolution` | DDASHit.cpp:195-199 | only the ADC resolution changes, to the argument; validity is unchanged |
| `DDAS.DDASHit.SetHardwareRevision` | DDASHit.cpp:201-205 | only the hardware revision changes, to the argument; validity is unchanged |
| `DDAS.DDASHit.AppendEnergySum` | DDASHit.cpp:207-211 | energy sums become the old sums followed by the value (length grows by one, earlier sums kept in order); nothing else changes |
| `DDAS.DDASHit.AppendQDCSum` | DDASHit.cpp:213-217 | QDC sums become the old sums followed by the value; nothing else changes |
| `DDAS.DDASHit.AppendTraceSample` | DDASHit.cpp:219-223 | the trace becomes the old trace followed by the sample; nothing else changes |
| `DDAS.DDASHit.SetExternalTimestamp` | DDASHit.cpp:225-229 | only the external timestamp changes, to the argument; validity is unchanged |
| `DDAS.DDASHit.SetADCOverflowUnderflow` | DDASHit.cpp:231-235 | only the overflow/underflow flag changes, to the argument; validity is unchanged |
| `DDAS.DDASHit.SetModuleType` | DDASHit.cpp:237-243 | exactly sampling rate, resolution and revision take the three arguments; nothing else changes |
| `DDAS.DDASHit.SetModuleLocation` | DDASHit.cpp:245-253 | exactly crate, slot and channel take the three arguments; nothing else changes |
| `DDAS.DDASHit.SetModuleInfo` | DDASHit.cpp:255-263 | exactly the six location and module-type fields take the arguments; nothing else changes |
| `DDAS.DDASHit.CopyIn` | DDASHit.cpp:270-296 | all 23 fields become those of `rhs` before the call; `rhs` is unchanged, also when it is the same object; the copy is valid exactly when `rhs` was |
| `DDASHitProperties.AppendEnergySumsInOrder` | DDASHit.cpp:207-211 | appending each of `vs` in turn leaves the energy sums as the old sums followed by `vs`, with every other field as before |
| `DDASHitProperties.AppendQdcSumsInOrder` | DDASHit.cpp:213-217 | appending each of `vs` in turn leaves the QDC sums as the old sums followed by `vs`, with every other field as before |
| `DDASHitProperties.AppendTraceSamplesInOrder` | DDASHit.cpp:219-223 | appending each of `vs` in turn leaves the trace as the old trace followed by `vs`, with every other field as before |
| `DDASHitProperties.SectionsAreIndependent` | DDASHit.cpp:207-223 | the three sequences grow independently: whole runs of energy sums, QDC sums and trace samples give the same record in either order, namely the three concatenations |
| `DDASHitProperties.ResetTwice` | DDASHit.cpp:36-62 | a second Reset leaves the hit as the first one did (Reset is idempotent) |
| `DDASHitProperties.CopyThenAppend` | DDASHit.cpp:270-296 | after copying from another hit and appending to the copy, the source is unchanged and the copy is the source plus one sample: the copy is deep |
| `DDASHitProperties.SetTimeHighFromWord` | DDASHit.cpp:165-169 | from any state, setting the high time from the whole word 0x947f000a stores 10 and makes the hit valid, matching UnpackerTests.cpp:220-226 |

`Reset` and `CopyIn` both assign all 23 fields from one record. They do so through four helper methods: `LoadTiming`, `LoadHeader`, `LoadModule` and `LoadSequences`. Each helper calls the single-field setters for its group. The raw `timeHigh` is assigned directly, because `CopyIn` copies it without the mask. The order of these assignments cannot be observed, so the end state is the one the source's straight-line assignments produce.

## Left out

- The destructor (DDASHit.cpp:67-68): it does nothing that a model of values could observe.
- The getters, the copy constructor and the copy assignment operator are declared in DDASHit.h, which is not part of this model. The latter two call `copyIn`, which is modelled.
- The decoder `DDASHitUnpacker`, whose output the tests check, is not part of this model. Its bit-level decoding rules (header fields, module-identity word, CFD trigger-source and fail rules, coarse-time scaling, optional sections) are therefore not modelled.
- UnpackerTests.cpp: test fixtures, assertion macros and the stream printers hold no logic of the hit record.
- Floating point: the corrected time `m_time` is a `double`. The model keeps it as an opaque 64-bit pattern that is stored and copied and never computed with, and takes 0.0 to be the all-zero pattern.
- Memory layout and allocation: the three `std::vector` members are modelled as sequence values. Capacity, reallocation and `clear()` keeping capacity are not observable through the class and are not modelled.
