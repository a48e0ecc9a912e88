/**
 * Properties of the hit record that relate several calls: what a run of
 * appends builds, that the three sequences grow independently of one
 * another, and what a client can conclude from the contracts of Reset,
 * CopyIn and SetTimeHigh alone.
 */
module DDASHitProperties {
  import opened DDASTypes
  import opened DDAS

  /** The record after AppendEnergySum has been called with each of vs in turn. */
  function AppendEnergySums(h: HitRecord, vs: seq<u32>): HitRecord
    decreases |vs|
  {
    if vs == [] then h else AppendEnergySums(h.WithEnergySum(vs[0]), vs[1..])
  }

  /** The record after AppendQDCSum has been called with each of vs in turn. */
  function AppendQdcSums(h: HitRecord, vs: seq<u32>): HitRecord
    decreases |vs|
  {
    if vs == [] then h else AppendQdcSums(h.WithQdcSum(vs[0]), vs[1..])
  }

  /** The record after AppendTraceSample has been called with each of vs in turn. */
  function AppendTraceSamples(h: HitRecord, vs: seq<u16>): HitRecord
    decreases |vs|
  {
    if vs == [] then h else AppendTraceSamples(h.WithTraceSample(vs[0]), vs[1..])
  }

  /**
   * Repeated appends keep arrival order: the energy sums end with exactly
   * vs after the sums already there, and no other field moves.
   */
  lemma {:induction false} AppendEnergySumsInOrder(h: HitRecord, vs: seq<u32>)
    ensures AppendEnergySums(h, vs) == h.(energySums := h.energySums + vs)
    decreases |vs|
  {
    if vs == [] {
      assert h.energySums + vs == h.energySums;
    } else {
      AppendEnergySumsInOrder(h.WithEnergySum(vs[0]), vs[1..]);
      assert h.energySums + [vs[0]] + vs[1..] == h.energySums + vs;
    }
  }

  /** The same for QDC sums. */
  lemma {:induction false} AppendQdcSumsInOrder(h: HitRecord, vs: seq<u32>)
    ensures AppendQdcSums(h, vs) == h.(qdcSums := h.qdcSums + vs)
    decreases |vs|
  {
    if vs == [] {
      assert h.qdcSums + vs == h.qdcSums;
    } else {
      AppendQdcSumsInOrder(h.WithQdcSum(vs[0]), vs[1..]);
      assert h.qdcSums + [vs[0]] + vs[1..] == h.qdcSums + vs;
    }
  }

  /** The same for trace samples. */
  lemma {:induction false} AppendTraceSamplesInOrder(h: HitRecord, vs: seq<u16>)
    ensures AppendTraceSamples(h, vs) == h.(trace := h.trace + vs)
    decreases |vs|
  {
    if vs == [] {
      assert h.trace + vs == h.trace;
    } else {
      AppendTraceSamplesInOrder(h.WithTraceSample(vs[0]), vs[1..]);
      assert h.trace + [vs[0]] + vs[1..] == h.trace + vs;
    }
  }

  /**
   * The three sequences grow independently: reading energy sums, QDC sums
   * and trace samples in any interleaving of whole sections gives the same
   * record as reading them in the order energy, QDC, trace.
   */
  lemma SectionsAreIndependent(h: HitRecord, es: seq<u32>, qs: seq<u32>, ts: seq<u16>)
    ensures AppendTraceSamples(AppendQdcSums(AppendEnergySums(h, es), qs), ts)
         == AppendEnergySums(AppendQdcSums(AppendTraceSamples(h, ts), qs), es)
    ensures AppendTraceSamples(AppendQdcSums(AppendEnergySums(h, es), qs), ts)
         == h.(energySums := h.energySums + es, qdcSums := h.qdcSums + qs, trace := h.trace + ts)
  {
    AppendEnergySumsInOrder(h, es);
    AppendQdcSumsInOrder(AppendEnergySums(h, es), qs);
    AppendTraceSamplesInOrder(AppendQdcSums(AppendEnergySums(h, es), qs), ts);
    AppendTraceSamplesInOrder(h, ts);
    AppendQdcSumsInOrder(AppendTraceSamples(h, ts), qs);
    AppendEnergySumsInOrder(AppendQdcSums(AppendTraceSamples(h, ts), qs), es);
  }

  /** Resetting twice leaves the hit exactly as resetting once. */
  method ResetTwice(hit: DDASHit)
    modifies hit
    ensures hit.Record() == ZeroRecord()
  {
    hit.Reset();
    var once := hit.Record();
    hit.Reset();
    assert hit.Record() == once;
  }

  /**
   * A copy is deep: after copying from source and appending to the copy,
   * the source still holds what it held before.
   */
  method CopyThenAppend(copy: DDASHit, source: DDASHit, sample: u16)
    requires copy != source
    modifies copy
    ensures source.Record() == old(source.Record())
    ensures copy.Record() == old(source.Record()).WithTraceSample(sample)
  {
    copy.CopyIn(source);
    copy.AppendTraceSample(sample);
  }

  /**
   * Whatever state a hit is in, setting the high time from a whole 32-bit
   * word keeps only its low half-word and re-establishes the invariant.
   */
  method SetTimeHighFromWord(hit: DDASHit)
    modifies hit
    ensures hit.Valid() && hit.timeHigh == 10
  {
    hit.SetTimeHigh(0x947f000a);
  }
}
