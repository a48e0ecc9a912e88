/**
 * The DDAS hit record: one decoded digitizer hit, held in a class whose
 * methods update its fields in place.
 *
 * HitRecord is the value of all 23 fields at one moment; DDASHit.Record()
 * reads it off an object, and every method states its whole new state as
 * an update of the old record, so "nothing else changes" is part of each
 * contract. The one class invariant is that the high word of the raw
 * timestamp fits in 16 bits.
 */
module DDAS {
  import opened DDASTypes

  /** The 23 fields of a hit, as a value. */
  datatype HitRecord = HitRecord(
    time: Float64,
    externalTimestamp: u64,
    coarseTime: u64,
    energy: u32,
    timeHigh: u32,
    timeLow: u32,
    timeCFD: u32,
    finishCode: bool,
    channelLength: u32,
    channelHeaderLength: u32,
    chanID: u32,
    slotID: u32,
    crateID: u32,
    cfdTrigSourceBit: u32,
    cfdFailBit: u32,
    traceLength: u32,
    modMSPS: u32,
    adcResolution: i32,
    hdwrRevision: i32,
    adcOverflowUnderflow: bool,
    energySums: seq<u32>,
    qdcSums: seq<u32>,
    trace: seq<u16>)
  {
    /** The high timestamp word holds only the upper 16 of the 48 bits. */
    predicate Valid() {
      timeHigh < 0x1_0000
    }

    /** The record after one more energy sum has been read. */
    function WithEnergySum(v: u32): HitRecord {
      this.(energySums := energySums + [v])
    }

    /** The record after one more QDC sum has been read. */
    function WithQdcSum(v: u32): HitRecord {
      this.(qdcSums := qdcSums + [v])
    }

    /** The record after one more trace sample has been read. */
    function WithTraceSample(v: u16): HitRecord {
      this.(trace := trace + [v])
    }
  }

  /**
   * The state of a freshly constructed or reset hit: every number 0, the
   * time 0.0, both flags false and all three sequences empty.
   */
  function ZeroRecord(): (r: HitRecord)
    ensures r.Valid()
  {
    HitRecord(PositiveZero, 0, 0, 0, 0, 0, 0, false, 0, 0, 0, 0, 0,
              0, 0, 0, 0, 0, 0, false, [], [], [])
  }

  class DDASHit {
    var time: Float64
    var coarseTime: u64
    var externalTimestamp: u64
    var energy: u32
    var timeHigh: u32
    var timeLow: u32
    var timeCFD: u32
    var finishCode: bool
    var channelLength: u32
    var channelHeaderLength: u32
    var chanID: u32
    var slotID: u32
    var crateID: u32
    var cfdTrigSourceBit: u32
    var cfdFailBit: u32
    var traceLength: u32
    var modMSPS: u32
    var adcResolution: i32
    var hdwrRevision: i32
    var adcOverflowUnderflow: bool
    var energySums: seq<u32>
    var qdcSums: seq<u32>
    var trace: seq<u16>

    /** The current value of every field. */
    function Record(): HitRecord
      reads this
    {
      HitRecord(time, externalTimestamp, coarseTime, energy, timeHigh, timeLow,
                timeCFD, finishCode, channelLength, channelHeaderLength,
                chanID, slotID, crateID, cfdTrigSourceBit, cfdFailBit,
                traceLength, modMSPS, adcResolution, hdwrRevision,
                adcOverflowUnderflow, energySums, qdcSums, trace)
    }

    /** The class invariant: the stored high timestamp word fits in 16 bits. */
    predicate Valid()
      reads this
      ensures Valid() <==> Record().Valid()
    {
      timeHigh < 0x1_0000
    }

    /** A hit whose every member is zero-initialised. */
    constructor ()
      ensures Record() == ZeroRecord()
      ensures Valid()
    {
      time, coarseTime, externalTimestamp, energy := PositiveZero, 0, 0, 0;
      timeHigh, timeLow, timeCFD, finishCode := 0, 0, 0, false;
      channelLength, channelHeaderLength := 0, 0;
      chanID, slotID, crateID := 0, 0, 0;
      cfdTrigSourceBit, cfdFailBit, traceLength := 0, 0, 0;
      modMSPS, adcResolution, hdwrRevision := 0, 0, 0;
      adcOverflowUnderflow := false;
      energySums, qdcSums, trace := [], [], [];
    }

    /**
     * Zero every scalar and empty every sequence. The new state does not
     * depend on the old one, so a second Reset changes nothing.
     */
    method Reset()
      modifies this
      ensures Record() == ZeroRecord()
      ensures Valid()
    {
      var zero := ZeroRecord();
      LoadTiming(zero);
      LoadHeader(zero);
      LoadModule(zero);
      LoadSequences(zero);
    }

    method SetChannel(channel: u32)
      modifies this
      ensures Record() == old(Record()).(chanID := channel)
      ensures Valid() == old(Valid())
    {
      chanID := channel;
    }

    method SetSlot(slot: u32)
      modifies this
      ensures Record() == old(Record()).(slotID := slot)
      ensures Valid() == old(Valid())
    {
      slotID := slot;
    }

    method SetCrate(crate: u32)
      modifies this
      ensures Record() == old(Record()).(crateID := crate)
      ensures Valid() == old(Valid())
    {
      crateID := crate;
    }

    method SetChannelHeaderLength(headerLength: u32)
      modifies this
      ensures Record() == old(Record()).(channelHeaderLength := headerLength)
      ensures Valid() == old(Valid())
    {
      channelHeaderLength := headerLength;
    }

    method SetChannelLength(length: u32)
      modifies this
      ensures Record() == old(Record()).(channelLength := length)
      ensures Valid() == old(Valid())
    {
      channelLength := length;
    }

    method SetFinishCode(code: bool)
      modifies this
      ensures Record() == old(Record()).(finishCode := code)
      ensures Valid() == old(Valid())
    {
      finishCode := code;
    }

    method SetCoarseTime(t: u64)
      modifies this
      ensures Record() == old(Record()).(coarseTime := t)
      ensures Valid() == old(Valid())
    {
      coarseTime := t;
    }

    method SetRawCFDTime(data: u32)
      modifies this
      ensures Record() == old(Record()).(timeCFD := data)
      ensures Valid() == old(Valid())
    {
      timeCFD := data;
    }

    method SetCFDTrigSourceBit(bit: u32)
      modifies this
      ensures Record() == old(Record()).(cfdTrigSourceBit := bit)
      ensures Valid() == old(Valid())
    {
      cfdTrigSourceBit := bit;
    }

    method SetCFDFailBit(bit: u32)
      modifies this
      ensures Record() == old(Record()).(cfdFailBit := bit)
      ensures Valid() == old(Valid())
    {
      cfdFailBit := bit;
    }

    method SetTimeLow(datum: u32)
      modifies this
      ensures Record() == old(Record()).(timeLow := datum)
      ensures Valid() == old(Valid())
    {
      timeLow := datum;
    }

    /**
     * Keep only the low 16 bits of the word: the stored value is the word
     * modulo 2^16, which establishes the invariant whatever the old state.
     */
    method SetTimeHigh(datum: u32)
      modifies this
      ensures Record() == old(Record()).(timeHigh := (datum as int % 0x1_0000) as u32)
      ensures Valid()
    {
      timeHigh := Lower16(datum);
    }

    method SetTime(compTime: Float64)
      modifies this
      ensures Record() == old(Record()).(time := compTime)
      ensures Valid() == old(Valid())
    {
      time := compTime;
    }

    method SetEnergy(e: u32)
      modifies this
      ensures Record() == old(Record()).(energy := e)
      ensures Valid() == old(Valid())
    {
      energy := e;
    }

    method SetTraceLength(length: u32)
      modifies this
      ensures Record() == old(Record()).(traceLength := length)
      ensures Valid() == old(Valid())
    {
      traceLength := length;
    }

    method SetADCFrequency(msps: u32)
      modifies this
      ensures Record() == old(Record()).(modMSPS := msps)
      ensures Valid() == old(Valid())
    {
      modMSPS := msps;
    }

    method SetADCResolution(value: i32)
      modifies this
      ensures Record() == old(Record()).(adcResolution := value)
      ensures Valid() == old(Valid())
    {
      adcResolution := value;
    }

    method SetHardwareRevision(value: i32)
      modifies this
      ensures Record() == old(Record()).(hdwrRevision := value)
      ensures Valid() == old(Valid())
    {
      hdwrRevision := value;
    }

    /** Energy sums grow by one at the end; earlier sums keep their places. */
    method AppendEnergySum(value: u32)
      modifies this
      ensures Record() == old(Record()).WithEnergySum(value)
      ensures |energySums| == |old(energySums)| + 1
      ensures Valid() == old(Valid())
    {
      energySums := energySums + [value];
    }

    /** QDC sums grow by one at the end; earlier sums keep their places. */
    method AppendQDCSum(value: u32)
      modifies this
      ensures Record() == old(Record()).WithQdcSum(value)
      ensures |qdcSums| == |old(qdcSums)| + 1
      ensures Valid() == old(Valid())
    {
      qdcSums := qdcSums + [value];
    }

    /** The trace grows by one sample at the end; earlier samples keep their places. */
    method AppendTraceSample(value: u16)
      modifies this
      ensures Record() == old(Record()).WithTraceSample(value)
      ensures |trace| == |old(trace)| + 1
      ensures Valid() == old(Valid())
    {
      trace := trace + [value];
    }

    method SetExternalTimestamp(value: u64)
      modifies this
      ensures Record() == old(Record()).(externalTimestamp := value)
      ensures Valid() == old(Valid())
    {
      externalTimestamp := value;
    }

    method SetADCOverflowUnderflow(state: bool)
      modifies this
      ensures Record() == old(Record()).(adcOverflowUnderflow := state)
      ensures Valid() == old(Valid())
    {
      adcOverflowUnderflow := state;
    }

    /** Frequency, resolution and revision, through the three single setters. */
    method SetModuleType(msps: u32, bits: i32, rev: i32)
      modifies this
      ensures Record() == old(Record()).(modMSPS := msps, adcResolution := bits, hdwrRevision := rev)
      ensures Valid() == old(Valid())
    {
      SetADCFrequency(msps);
      SetADCResolution(bits);
      SetHardwareRevision(rev);
    }

    /** Crate, slot and channel, through the three single setters. */
    method SetModuleLocation(crate: u32, slot: u32, chan: u32)
      modifies this
      ensures Record() == old(Record()).(crateID := crate, slotID := slot, chanID := chan)
      ensures Valid() == old(Valid())
    {
      SetCrate(crate);
      SetSlot(slot);
      SetChannel(chan);
    }

    /** Location first, then module type: six fields and nothing else. */
    method SetModuleInfo(crate: u32, slot: u32, chan: u32, msps: u32, bits: i32, rev: i32)
      modifies this
      ensures Record() == old(Record()).(crateID := crate, slotID := slot, chanID := chan,
                                         modMSPS := msps, adcResolution := bits, hdwrRevision := rev)
      ensures Valid() == old(Valid())
    {
      SetModuleLocation(crate, slot, chan);
      SetModuleType(msps, bits, rev);
    }

    /**
     * Field-by-field copy of rhs. Sequences are values, so the copy shares
     * nothing with rhs, and rhs itself is left as it was (also when it is
     * this very object). The copy is valid exactly when rhs was.
     */
    method CopyIn(rhs: DDASHit)
      modifies this
      ensures Record() == old(rhs.Record())
      ensures rhs.Record() == old(rhs.Record())
      ensures Valid() == old(rhs.Valid())
    {
      var source := rhs.Record();
      LoadTiming(source);
      LoadHeader(source);
      LoadModule(source);
      LoadSequences(source);
    }

    // Reset and CopyIn assign all 23 fields from a record. The assignments
    // are made in four groups, each with its own frame, so that no single
    // proof has to follow all 23 updates of the object at once.

    method LoadTiming(r: HitRecord)
      modifies this
      ensures Record() == old(Record()).(time := r.time, externalTimestamp := r.externalTimestamp,
                                         coarseTime := r.coarseTime, timeHigh := r.timeHigh,
                                         timeLow := r.timeLow, timeCFD := r.timeCFD,
                                         cfdTrigSourceBit := r.cfdTrigSourceBit,
                                         cfdFailBit := r.cfdFailBit)
    {
      SetTime(r.time);
      SetExternalTimestamp(r.externalTimestamp);
      SetCoarseTime(r.coarseTime);
      timeHigh := r.timeHigh;
      SetTimeLow(r.timeLow);
      SetRawCFDTime(r.timeCFD);
      SetCFDTrigSourceBit(r.cfdTrigSourceBit);
      SetCFDFailBit(r.cfdFailBit);
    }

    method LoadHeader(r: HitRecord)
      modifies this
      ensures Record() == old(Record()).(finishCode := r.finishCode, channelLength := r.channelLength,
                                         channelHeaderLength := r.channelHeaderLength,
                                         chanID := r.chanID, slotID := r.slotID, crateID := r.crateID)
    {
      SetFinishCode(r.finishCode);
      SetChannelLength(r.channelLength);
      SetChannelHeaderLength(r.channelHeaderLength);
      SetModuleLocation(r.crateID, r.slotID, r.chanID);
    }

    method LoadModule(r: HitRecord)
      modifies this
      ensures Record() == old(Record()).(energy := r.energy, traceLength := r.traceLength,
                                         modMSPS := r.modMSPS, adcResolution := r.adcResolution,
                                         hdwrRevision := r.hdwrRevision,
                                         adcOverflowUnderflow := r.adcOverflowUnderflow)
    {
      SetEnergy(r.energy);
      SetTraceLength(r.traceLength);
      SetModuleType(r.modMSPS, r.adcResolution, r.hdwrRevision);
      SetADCOverflowUnderflow(r.adcOverflowUnderflow);
    }

    method LoadSequences(r: HitRecord)
      modifies this
      ensures Record() == old(Record()).(energySums := r.energySums, qdcSums := r.qdcSums,
                                         trace := r.trace)
    {
      energySums := r.energySums;
      qdcSums := r.qdcSums;
      trace := r.trace;
    }
  }
}
