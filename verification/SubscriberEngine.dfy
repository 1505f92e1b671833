/** SubCtx as the running subscriber updates it: callback, wait-and-print loop, result capture. */
module SubscriberEngine {
  import opened Samples
  import opened Subscriber
  import opened ReaderTake

  /** The ping callback as a value, the form ReaderTake.Deliver folds. */
  function Callback(c: SubState, a: Arrival): SubState { OnSample(c, a.sample, a.at) }

  lemma {:induction false} DeliverIsFeed(c: SubState, arrivals: seq<Arrival>)
    ensures Deliver(Callback, c, arrivals) == Feed(c, arrivals)
  {
    if arrivals != [] {
      DeliverIsFeed(c, arrivals[..|arrivals| - 1]);
    }
  }

  /** Two ways of batching the same valid samples leave the subscriber in the same state. */
  lemma {:induction false} SubscriberIgnoresBatching(c: SubState, xs: seq<TakeReply>, ys: seq<TakeReply>)
    requires ValidOnly(Stream(xs)) == ValidOnly(Stream(ys))
    ensures Takes(Callback, c, xs) == Takes(Callback, c, ys)
    ensures Takes(Callback, c, xs).0 == Feed(c, ValidOnly(Stream(xs)))
  {
    BatchInvariance(Callback, c, xs);
    BatchInvariance(Callback, c, ys);
    DeliverIsFeed(c, ValidOnly(Stream(xs)));
  }

  /** One turn of the wait loop: what arrived during the sleep and the clock read after it. */
  datatype Wake = Wake(arrivals: seq<Arrival>, now: nat)

  /** One printed line. */
  datatype Report = Report(delta: nat, elapsed: nat, size: int, perSecond: real, mbps: real, lost: nat)

  /**
   * Over an interval of at least a second the rate stands for exactly the samples counted, and the
   * throughput for their bits.
   */
  ghost predicate Faithful(r: Report) {
    && r.elapsed >= 1000000
    && r.perSecond * r.elapsed as real == r.delta as real * 1000000.0
    && r.mbps * r.elapsed as real == (r.delta * r.size * 8) as real
  }

  /** The line printed for `delta` samples in `elapsed` microseconds. */
  function Line(c: SubState, delta: nat, elapsed: nat): (r: Report)
    requires elapsed >= 1000000
    ensures Faithful(r) && r.delta == delta && r.elapsed == elapsed && r.size == c.size && r.lost == c.lost
  {
    var perSecond := delta as real * 1000000.0 / elapsed as real;
    LineBits(delta, elapsed, c.size, perSecond);
    Report(delta, elapsed, c.size, perSecond, perSecond * c.size as real * 8.0 / 1000000.0, c.lost)
  }

  lemma LineBits(delta: nat, elapsed: nat, size: int, perSecond: real)
    requires elapsed >= 1000000 && perSecond == delta as real * 1000000.0 / elapsed as real
    ensures perSecond * elapsed as real == delta as real * 1000000.0
    ensures perSecond * size as real * 8.0 / 1000000.0 * elapsed as real == (delta * size * 8) as real
  {
    var s, e, d := size as real, elapsed as real, delta as real;
    assert perSecond * e == d * 1000000.0;
    assert perSecond * s * 8.0 / 1000000.0 * e == (perSecond * e) * s * 8.0 / 1000000.0;
    assert (d * 1000000.0) * s * 8.0 / 1000000.0 == d * s * 8.0;
    assert (delta * size) as real == d * s;
  }

  function DeltaSum(reports: seq<Report>): nat {
    if reports == [] then 0 else DeltaSum(reports[..|reports| - 1]) + reports[|reports| - 1].delta
  }

  function ElapsedSum(reports: seq<Report>): nat {
    if reports == [] then 0 else ElapsedSum(reports[..|reports| - 1]) + reports[|reports| - 1].elapsed
  }

  /** The loop's bookkeeping: lines so far, the count and the time of the last one. */
  datatype PrintLog = PrintLog(reports: seq<Report>, lastCount: nat, tLastPrint: nat)

  ghost predicate Partitions(log: PrintLog, start: nat) {
    && DeltaSum(log.reports) == log.lastCount
    && ElapsedSum(log.reports) == log.tLastPrint - start
    && forall r :: r in log.reports ==> Faithful(r)
  }

  /** The log after a wake at `now` that finds the state c: one more line when a second has passed, if lines are enabled. */
  function Advance(log: PrintLog, c: SubState, enabled: bool, now: nat): PrintLog {
    if enabled && now - log.tLastPrint >= 1000000 && log.lastCount <= c.total
    then PrintLog(log.reports + [Line(c, c.total - log.lastCount, now - log.tLastPrint)], c.total, now)
    else log
  }

  lemma PartitionsExtends(log: PrintLog, start: nat, c: SubState, enabled: bool, now: nat)
    requires Partitions(log, start)
    ensures Partitions(Advance(log, c, enabled, now), start)
  {
    var next := Advance(log, c, enabled, now).reports;
    if next != log.reports {
      assert next[..|next| - 1] == log.reports;
    }
  }

  /** The callback state once the first k wakes' arrivals are handled. */
  ghost function AfterWakes(c: SubState, wakes: seq<Wake>, k: nat): SubState
    requires k <= |wakes|
  {
    if k == 0 then c else Feed(AfterWakes(c, wakes, k - 1), wakes[k - 1].arrivals)
  }

  /** What the first k wakes hand to the pong writer. */
  ghost function EchoesAfter(wakes: seq<Wake>, k: nat): seq<Sample>
    requires k <= |wakes|
  {
    if k == 0 then [] else EchoesAfter(wakes, k - 1) + Echoes(wakes[k - 1].arrivals)
  }

  /** The throughput on the last line. */
  function LastRate(log: PrintLog): real {
    if log.reports == [] then 0.0 else log.reports[|log.reports| - 1].mbps
  }

  /** The log after k wakes of a loop entered at `start`. */
  ghost function LogAfter(c: SubState, enabled: bool, start: nat, wakes: seq<Wake>, k: nat): PrintLog
    requires k <= |wakes|
  {
    if k == 0 then PrintLog([], 0, start)
    else Advance(LogAfter(c, enabled, start, wakes, k - 1), AfterWakes(c, wakes, k), enabled, wakes[k - 1].now)
  }

  /**
   * The printed deltas partition the received count and the printed intervals the time, on lines of at
   * least a second; with lines enabled no wake leaves a whole second unprinted, without them there is none.
   */
  lemma {:induction false} LogPartitions(c: SubState, enabled: bool, start: nat, wakes: seq<Wake>, k: nat)
    requires k <= |wakes| && ClockAdvances(start, wakes)
    ensures var log := LogAfter(c, enabled, start, wakes, k);
            && Partitions(log, start) && log.lastCount <= AfterWakes(c, wakes, k).total
            && log.tLastPrint <= (if k == 0 then start else wakes[k - 1].now)
            && (enabled && k > 0 ==> wakes[k - 1].now - log.tLastPrint < 1000000)
            && (!enabled ==> log.reports == [])
  {
    if k > 0 {
      LogPartitions(c, enabled, start, wakes, k - 1);
      TotalGrows(AfterWakes(c, wakes, k - 1), wakes[k - 1].arrivals);
      PartitionsExtends(LogAfter(c, enabled, start, wakes, k - 1), start, AfterWakes(c, wakes, k), enabled, wakes[k - 1].now);
    }
  }

  ghost predicate ClockAdvances(start: nat, wakes: seq<Wake>) {
    && (forall i :: 0 <= i < |wakes| ==> start <= wakes[i].now)
    && forall i, j :: 0 <= i < j < |wakes| ==> wakes[i].now <= wakes[j].now
  }

  lemma NextWake(c: SubState, enabled: bool, start: nat, wakes: seq<Wake>, k: nat)
    requires k < |wakes| && ClockAdvances(start, wakes)
    ensures LogAfter(c, enabled, start, wakes, k).lastCount <= AfterWakes(c, wakes, k).total
  {
    LogPartitions(c, enabled, start, wakes, k);
  }

  /** The result row the subscriber fills in. */
  datatype SubResult = SubResult(size: int, total: nat, mbps: real, lost: nat, elapsed: nat)

  lemma {:induction false} TotalGrows(c: SubState, arrivals: seq<Arrival>)
    ensures c.total <= Feed(c, arrivals).total
  {
    if arrivals != [] {
      TotalGrows(c, arrivals[..|arrivals| - 1]);
    }
  }

  class SubCtx {
    var totalReceived: nat
    var currentSizeBytes: int
    var lastSeq: int
    var lostSamples: nat
    var testStartUs: nat
    var avgThroughputMbps: real
    var finished: bool
    /** Everything handed to the pong writer. */
    var pongs: seq<Sample>

    ghost function State(): SubState
      reads this
    {
      SubState(totalReceived, currentSizeBytes, lastSeq, lostSamples, testStartUs, finished)
    }

    constructor ()
      ensures State() == ZERO && pongs == []
    {
      totalReceived, currentSizeBytes, lastSeq, lostSamples, testStartUs := 0, 0, 0, 0, 0;
      avgThroughputMbps, finished, pongs := 0.0, false, [];
    }

    method ResetAfterMatch()
      modifies this
      ensures State() == Reset(old(State())) && pongs == old(pongs) && avgThroughputMbps == 0.0
    {
      totalReceived, lastSeq, lostSamples, testStartUs := 0, 0, 0, 0;
      avgThroughputMbps, finished := 0.0, false;
    }

    method OnPingSample(s: Sample, now: nat)
      modifies this
      ensures State() == OnSample(old(State()), s, now)
      ensures pongs == old(pongs) + Echo(s)
      ensures avgThroughputMbps == old(avgThroughputMbps)
    {
      if s.kind == Finalization {
        if !finished {
          var exp := s.num;
          if exp > lastSeq {
            lostSamples := lostSamples + (exp - lastSeq);
          }
          finished := true;
        }
        pongs := pongs + [s];
        return;
      }
      if s.kind == Initialization {
        pongs := pongs + [s];
        return;
      }
      if lastSeq != 0 && s.num > lastSeq + 1 {
        lostSamples := lostSamples + (s.num - lastSeq - 1);
      }
      lastSeq := s.num;
      totalReceived := totalReceived + 1;
      currentSizeBytes := s.size;
      if testStartUs == 0 {
        testStartUs := now;
      }
      if s.kind == DataPing {
        pongs := pongs + [s];
      }
    }

    method HandleArrivals(arrivals: seq<Arrival>)
      modifies this
      ensures State() == Feed(old(State()), arrivals)
      ensures pongs == old(pongs) + Echoes(arrivals) && avgThroughputMbps == old(avgThroughputMbps)
    {
      for i := 0 to |arrivals|
        invariant State() == Feed(old(State()), arrivals[..i])
        invariant pongs == old(pongs) + Echoes(arrivals[..i]) && avgThroughputMbps == old(avgThroughputMbps)
      {
        assert arrivals[..i + 1][..i] == arrivals[..i];
        OnPingSample(arrivals[i].sample, arrivals[i].at);
      }
      assert arrivals[..|arrivals|] == arrivals;
    }

    /** The periodic line, when it is enabled and a second has passed. */
    method PrintWhenDue(printEverySecond: bool, now: nat, log: PrintLog) returns (log': PrintLog)
      requires log.lastCount <= totalReceived
      modifies this`avgThroughputMbps
      ensures log' == Advance(log, State(), printEverySecond, now)
      ensures avgThroughputMbps == if log' == log then old(avgThroughputMbps) else LastRate(log')
    {
      log' := log;
      if printEverySecond && now - log.tLastPrint >= 1000000 {
        var c := SubState(totalReceived, currentSizeBytes, lastSeq, lostSamples, testStartUs, finished);
        var report := Line(c, totalReceived - log.lastCount, now - log.tLastPrint);
        avgThroughputMbps := report.mbps;
        log' := PrintLog(log.reports + [report], totalReceived, now);
      }
    }

    /** One turn of the loop: the arrivals of the sleep, then the periodic line. */
    method WakeUp(printEverySecond: bool, wake: Wake, log: PrintLog) returns (log': PrintLog)
      requires log.lastCount <= totalReceived
      modifies this
      ensures State() == Feed(old(State()), wake.arrivals) && pongs == old(pongs) + Echoes(wake.arrivals)
      ensures log' == Advance(log, State(), printEverySecond, wake.now)
      ensures avgThroughputMbps == if log' == log then old(avgThroughputMbps) else LastRate(log')
    {
      TotalGrows(State(), wake.arrivals);
      HandleArrivals(wake.arrivals);
      log' := PrintWhenDue(printEverySecond, wake.now, log);
    }

    /**
     * The loop that sleeps until finalization. It leaves at the first wake that finds the test finished,
     * with the log of the wakes up to it.
     */
    method WaitAndPrint(printEverySecond: bool, start: nat, wakes: seq<Wake>) returns (woken: nat, log: PrintLog)
      requires ClockAdvances(start, wakes)
      modifies this
      ensures woken <= |wakes| && (finished || woken == |wakes|)
      ensures forall k :: 0 <= k < woken ==> !AfterWakes(old(State()), wakes, k).finished
      ensures State() == AfterWakes(old(State()), wakes, woken)
      ensures log == LogAfter(old(State()), printEverySecond, start, wakes, woken)
      ensures pongs == old(pongs) + EchoesAfter(wakes, woken)
      ensures avgThroughputMbps == if log.reports == [] then old(avgThroughputMbps) else LastRate(log)
      ensures Partitions(log, start) && log.lastCount <= totalReceived
      ensures if !printEverySecond then log.reports == []
              else woken > 0 ==> wakes[woken - 1].now - log.tLastPrint < 1000000
    {
      woken, log := 0, PrintLog([], 0, start);
      ghost var c := State();
      while woken < |wakes| && !finished
        invariant 0 <= woken <= |wakes|
        invariant State() == AfterWakes(c, wakes, woken)
        invariant forall k :: 0 <= k < woken ==> !AfterWakes(c, wakes, k).finished
        invariant log == LogAfter(c, printEverySecond, start, wakes, woken)
        invariant pongs == old(pongs) + EchoesAfter(wakes, woken)
        invariant avgThroughputMbps == if log.reports == [] then old(avgThroughputMbps) else LastRate(log)
      {
        NextWake(c, printEverySecond, start, wakes, woken);
        log := WakeUp(printEverySecond, wakes[woken], log);
        woken := woken + 1;
      }
      LogPartitions(c, printEverySecond, start, wakes, woken);
    }

    /** The result row, at clock reading `now`. */
    method CaptureResult(now: nat) returns (r: SubResult)
      requires testStartUs <= now
      modifies this`avgThroughputMbps
      ensures r.size == currentSizeBytes && r.total == totalReceived && r.lost == lostSamples
      ensures r.elapsed == if testStartUs == 0 then 0 else now - testStartUs
      ensures r.elapsed >= 0 && r.mbps == FinalMbps(State(), r.elapsed)
      ensures if r.elapsed == 0 then r.mbps == 0.0 else r.mbps * r.elapsed as real == (r.total * r.size * 8) as real
      ensures avgThroughputMbps == r.mbps
    {
      var elapsed := if testStartUs != 0 then now - testStartUs else 0;
      var mbps := 0.0;
      if elapsed > 0 && totalReceived > 0 {
        mbps := totalReceived as real * currentSizeBytes as real * 8.0 / elapsed as real;
      }
      avgThroughputMbps := mbps;
      r := SubResult(currentSizeBytes, totalReceived, mbps, lostSamples, elapsed);
      MbpsIsBits(State(), elapsed);
    }
  }
}
