/** The reported size from the validated argument to the subscriber's result row. */
module Sizes {
  import opened Samples
  import opened Subscriber
  import opened Protocol
  import SampleType

  ghost predicate AllSized(q: seq<Sample>, size: int) {
    forall i :: 0 <= i < |q| && q[i].IsData() ==> q[i].size == size
  }

  ghost predicate Inv(c: Config, s: State) {
    && (s.pc.Warm? ==> s.sample.kind.Initialization?)
    && (!Warming(s) ==> s.sample.size == c.dataLen)
    && AllSized(s.ping, c.dataLen)
    && (s.sub.total > 0 ==> s.sub.size == c.dataLen)
  }

  lemma InvAlways(c: Config, steps: seq<Step>, s: State)
    requires SizeFits(c.dataLen, c.maxPayload) && Reaches(c, steps, s)
    ensures Inv(c, s)
  {
    forall t, step | Inv(c, t) && Enabled(c, t, step) ensures Inv(c, Apply(c, t, step)) {
      InvStep(c, t, step);
    }
    RunInduction(c, steps, s, t => Inv(c, t));
  }

  lemma InvStep(c: Config, s: State, step: Step)
    requires SizeFits(c.dataLen, c.maxPayload) && Inv(c, s) && Enabled(c, s, step)
    ensures Inv(c, Apply(c, s, step))
  {
  }

  // ---- From the sample object to the step system ------------------------------------------

  /** What the engine sees of a sample object. */
  function Reported(v: SampleType.Value): Sample { Sample(v.kind, v.num, v.ts, v.SampleSize()) }

  /** SetSize is set_sample_size seen from the engine, on a created sample after any use of it. */
  lemma SetSizeIsView(v: SampleType.Value, calls: seq<SampleType.Call>, size: int, maxPayload: nat, lib: SampleType.Library)
    requires SampleType.Created(v, maxPayload) && SampleType.Sourced(calls, maxPayload)
    ensures var w := SampleType.Calls(v, calls, maxPayload);
            Reported(SampleType.Resized(w, size, maxPayload, lib).0)
            == if lib.lengthOk then SetSize(Reported(w), size, maxPayload) else Reported(w)
  {
    SampleType.BoundHolds(v, calls, maxPayload);
  }

  /** The two calls before the burst: the burst size, and where that is refused the test size. */
  function WarmupResized(v: SampleType.Value, c: Config, first: SampleType.Library, second: SampleType.Library): SampleType.Value {
    var (w, ok) := SampleType.Resized(v, c.initSize, c.maxPayload, first);
    if ok then w else SampleType.Resized(w, c.dataLen, c.maxPayload, second).0
  }

  /**
   * After any use of a created sample the warm-up reports the burst size where the type can hold it, else
   * the test size, and setting the test size afterwards restores it, whatever the allocator answers; only
   * a library that refuses to set a length within the maximum leaves the size before.
   */
  lemma WarmupReports(c: Config, v: SampleType.Value, calls: seq<SampleType.Call>,
                      first: SampleType.Library, second: SampleType.Library, third: SampleType.Library)
    requires SizeFits(c.dataLen, c.maxPayload)
    requires SampleType.Created(v, c.maxPayload) && SampleType.Sourced(calls, c.maxPayload)
    ensures var before := Reported(SampleType.Calls(v, calls, c.maxPayload));
            var warm := WarmupResized(SampleType.Calls(v, calls, c.maxPayload), c, first, second);
            && Reported(warm) == before.(size := if SizeFits(c.initSize, c.maxPayload) && first.lengthOk then c.initSize
                                                 else if second.lengthOk then c.dataLen else before.size)
            && Reported(SampleType.Resized(warm, c.dataLen, c.maxPayload, third).0)
               == before.(size := if third.lengthOk then c.dataLen else Reported(warm).size)
  {
    SampleType.BoundHolds(v, calls, c.maxPayload);
  }

  /** The sample as it enters the burst is the one the step system starts with. */
  method WarmupSample(c: Config, createOk: bool, maximumOk: bool, lengthOk: bool,
                      first: SampleType.Library, second: SampleType.Library)
    returns (s: SampleType.PerftestSample?)
    requires SizeFits(c.dataLen, c.maxPayload)
    ensures s != null <==> createOk && maximumOk && lengthOk
    ensures s != null && first.lengthOk && second.lengthOk ==> s.Valid() && Reported(s.View()) == WarmSample(c)
  {
    s := SampleType.Create(c.maxPayload, createOk, maximumOk, lengthOk);
    if s == null {
      return;
    }
    s.Initialize();
    s.kind := Initialization;
    var rc := s.SetSampleSize(c.initSize, c.maxPayload, first);
    if rc != 0 {
      rc := s.SetSampleSize(c.dataLen, c.maxPayload, second);
    }
  }

  // ---- On every run ----------------------------------------------------------------------

  /**
   * For an accepted -datalen, whether or not the warm-up size fits the type: every data sample on the
   * wire reports it, so does a subscriber that has received one, and the throughput it computes stands
   * for exactly total * dataLen * 8 bits.
   */
  lemma SizeAgreement(c: Config, steps: seq<Step>, s: State, elapsed: nat)
    requires SizeFits(c.dataLen, c.maxPayload) && Reaches(c, steps, s)
    ensures AllSized(s.ping, c.dataLen)
    ensures s.sub.total > 0 ==> s.sub.size == c.dataLen
    ensures elapsed > 0 ==> FinalMbps(s.sub, elapsed) * elapsed as real == (s.sub.total * c.dataLen * 8) as real
  {
    InvAlways(c, steps, s);
    MbpsIsBits(s.sub, elapsed);
  }
}
