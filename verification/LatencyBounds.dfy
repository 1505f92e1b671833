/** The latency figures over every interleaving of callbacks with the main loop. */
module LatencyBounds {
  import opened Samples
  import opened Publisher
  import opened Protocol

  /** Every ping or echo in the channel was stamped between the start of the test and now. */
  ghost predicate Stamped(q: seq<Sample>, t0: nat, clock: nat) {
    forall i :: 0 <= i < |q| && q[i].IsData() ==> t0 <= q[i].ts <= clock
  }

  ghost predicate AtMost(lats: seq<nat>, bound: int) {
    forall l :: l in lats ==> l <= bound
  }

  ghost predicate Times(s: State) {
    && (s.pc.Warm? ==> s.sample.kind.Initialization?)
    && (Finishing(s) ==> s.sample.kind.Finalization?)
    && (Warming(s) ==> NoData(s.ping) && NoData(s.pong) && s.captured.None? && s.audit.lats == [])
    && (!Warming(s) ==> s.t0 <= s.clock && Stamped(s.ping, s.t0, s.clock) && Stamped(s.pong, s.t0, s.clock))
    && (s.pc.Write? ==> s.t0 <= s.sample.ts <= s.clock)
  }

  ghost predicate Figured(c: Config, s: State) {
    && Figures(c.history, s.ctx, s.audit.lats)
    && (!Warming(s) ==> AtMost(s.audit.lats, (s.clock - s.t0) / 2))
    && (s.captured.Some? ==>
         var p := s.captured.value;
         0 <= p.elapsed && Figures(c.history, p.ctx, p.lats) && AtMost(p.lats, p.elapsed / 2))
  }

  ghost predicate Inv(c: Config, s: State) { Times(s) && Echoed(s) && Figured(c, s) }

  lemma TimesStep(c: Config, s: State, step: Step)
    requires Times(s) && Echoed(s) && Enabled(c, s, step)
    ensures Times(Apply(c, s, step)) && Echoed(Apply(c, s, step))
  {
    if step.Pub? {
      TimesPub(c, s, step.ok);
    } else if step.PingArrives? {
      TimesPing(s);
    } else {
      TimesOther(c, s, step);
    }
  }

  lemma TimesOther(c: Config, s: State, step: Step)
    requires Times(s) && Echoed(s) && Enabled(c, s, step) && !step.Pub? && !step.PingArrives?
    ensures Times(Apply(c, s, step)) && Echoed(Apply(c, s, step))
  {
  }

  lemma TimesQuiet(c: Config, s: State, ok: bool)
    requires Times(s) && Echoed(s) && !s.pc.Settle? && !Sends(s)
    ensures Times(PubStep(c, s, ok)) && Echoed(PubStep(c, s, ok))
  {
    QuietStep(c, s, ok);
  }

  lemma TimesPub(c: Config, s: State, ok: bool)
    requires Times(s) && Echoed(s) && Enabled(c, s, Pub(ok))
    ensures Times(PubStep(c, s, ok)) && Echoed(PubStep(c, s, ok))
  {
    if s.pc.Settle? {
      TimesSettle(c, s);
    } else if s.pc.Warm? {
      TimesWarm(c, s, ok);
    } else if s.pc.Write? {
      TimesWrite(c, s, ok);
    } else if s.pc.Fin? {
      TimesFin(c, s, ok);
    } else {
      TimesQuiet(c, s, ok);
    }
  }

  lemma TimesSettle(c: Config, s: State)
    requires Times(s) && s.pc.Settle?
    ensures Times(SettleStep(c, s))
  {
    NoDataIsStamped(s.ping, s.clock);
    NoDataIsStamped(s.pong, s.clock);
  }

  lemma TimesWarm(c: Config, s: State, ok: bool)
    requires Times(s) && s.pc.Warm?
    ensures Times(WarmStep(c, s, ok))
  {
  }

  lemma TimesWrite(c: Config, s: State, ok: bool)
    requires Times(s) && s.pc.Write?
    ensures Times(WriteStep(c, s, ok))
  {
    AppendStamped(s.ping, s.sample, s.t0, s.clock);
  }

  lemma TimesFin(c: Config, s: State, ok: bool)
    requires Times(s) && s.pc.Fin?
    ensures Times(FinStep(c, s, ok))
  {
    AppendStamped(s.ping, s.sample, s.t0, s.clock);
  }

  lemma AppendStamped(q: seq<Sample>, m: Sample, t0: nat, clock: nat)
    requires Stamped(q, t0, clock) && (m.IsData() ==> t0 <= m.ts <= clock)
    ensures Stamped(q + [m], t0, clock)
  {
  }

  lemma NoDataIsStamped(q: seq<Sample>, clock: nat)
    requires NoData(q)
    ensures Stamped(q, clock, clock)
  {
  }

  lemma TimesPing(s: State)
    requires Times(s) && Echoed(s) && s.ping != []
    ensures Times(PingStep(s)) && Echoed(PingStep(s))
  {
  }

  lemma FiguredPub(c: Config, s: State, ok: bool)
    requires Inv(c, s) && Enabled(c, s, Pub(ok))
    ensures Figured(c, PubStep(c, s, ok))
  {
    if s.pc.Settle? {
      FiguredSettle(c, s);
    } else if s.pc.Wait? {
      FiguredWait(c, s);
    } else if s.pc.Collect? {
      FiguredCollect(c, s);
    } else {
      FiguredRest(c, s, ok);
    }
  }

  lemma FiguredSettle(c: Config, s: State)
    requires Inv(c, s) && s.pc.Settle?
    ensures Figured(c, SettleStep(c, s))
  {
    assert Figures(c.history, ResetStats(s.ctx), []);
  }

  lemma FiguredWait(c: Config, s: State)
    requires Inv(c, s) && s.pc.Wait?
    ensures Figured(c, WaitStep(c, s))
  {
    assert Figures(c.history, s.ctx.(token := false), s.audit.lats);
  }

  lemma FiguredCollect(c: Config, s: State)
    requires Inv(c, s) && s.pc.Collect?
    ensures Figured(c, CollectStep(s))
  {
  }

  lemma FiguredRest(c: Config, s: State, ok: bool)
    requires Inv(c, s) && !s.pc.Settle? && !s.pc.Wait? && !s.pc.Collect?
    ensures Figured(c, PubStep(c, s, ok))
  {
    NoFigureStep(c, s, ok);
    FiguredFrame(c, s, PubStep(c, s, ok));
  }

  lemma FiguredPong(c: Config, s: State)
    requires Inv(c, s) && s.pong != []
    ensures Figured(c, PongStep(c, s))
  {
    var m := s.pong[0];
    if m.IsData() {
      assert !Warming(s) && s.t0 <= m.ts <= s.clock;
      var latency := Latency(s.clock, m.ts);
      HalfTrip(s.t0, m.ts, s.clock);
      RecordKeepsFigures(c.history, s.ctx, s.audit.lats, latency);
      TokenIsNoFigure(c.history, Record(c.history, s.ctx, latency), s.audit.lats + [latency]);
    } else {
      assert PongStep(c, s).audit.lats == s.audit.lats;
    }
  }

  lemma HalfTrip(t0: nat, ts: nat, clock: nat)
    requires t0 <= ts <= clock
    ensures Latency(clock, ts) <= (clock - t0) / 2
  {
  }

  lemma TokenIsNoFigure(capacity: nat, x: Ctx, lats: seq<nat>)
    requires Figures(capacity, x, lats)
    ensures Figures(capacity, x.(token := true), lats)
  {
  }

  lemma FiguredTick(c: Config, s: State, dt: nat)
    requires Inv(c, s)
    ensures Figured(c, s.(clock := s.clock + dt))
  {
    if !Warming(s) {
      assert (s.clock - s.t0) / 2 <= (s.clock + dt - s.t0) / 2;
    }
  }

  lemma InvStep(c: Config, s: State, step: Step)
    requires Inv(c, s) && Enabled(c, s, step)
    ensures Inv(c, Apply(c, s, step))
  {
    TimesStep(c, s, step);
    match step {
      case Pub(ok) => FiguredPub(c, s, ok);
      case PongArrives => FiguredPong(c, s);
      case Tick(dt) => FiguredTick(c, s, dt);
      case _ => FiguredFrame(c, s, Apply(c, s, step));
    }
  }

  lemma FiguredFrame(c: Config, s: State, t: State)
    requires Figured(c, s)
    requires t.ctx == s.ctx && t.audit.lats == s.audit.lats && t.captured == s.captured
    requires t.clock == s.clock && t.t0 == s.t0 && Warming(t) == Warming(s)
    ensures Figured(c, t)
  {
  }

  lemma InvAlways(c: Config, steps: seq<Step>, s: State)
    requires Reaches(c, steps, s)
    ensures Inv(c, s)
  {
    forall t, step | Inv(c, t) && Enabled(c, t, step) ensures Inv(c, Apply(c, t, step)) {
      InvStep(c, t, step);
    }
    RunInduction(c, steps, s, t => Inv(c, t));
  }

  // ---- What every run guarantees ---------------------------------------------------------

  /** The callback's `now > ts` guard never replaces a negative difference by zero. */
  lemma GuardHidesNothing(c: Config, steps: seq<Step>, s: State)
    requires Reaches(c, steps, s) && Enabled(c, s, PongArrives) && s.pong[0].IsData()
    ensures s.t0 <= s.pong[0].ts <= s.clock
    ensures Latency(s.clock, s.pong[0].ts) == (s.clock - s.pong[0].ts) / 2
  {
    InvAlways(c, steps, s);
  }

  /** The context holds the figures of exactly the latencies delivered since the reset, late pongs included. */
  lemma FiguresAreOfDelivered(c: Config, steps: seq<Step>, s: State)
    requires Reaches(c, steps, s)
    ensures Figures(c.history, s.ctx, s.audit.lats)
    ensures !Warming(s) ==> AtMost(s.audit.lats, (s.clock - s.t0) / 2)
  {
    InvAlways(c, steps, s);
  }

  /**
   * The captured row, on every run: min <= max <= elapsed / 2; p50 <= p90 <= p99 <= max for the histories
   * whose indices do not wrap; and min <= avg <= max, the average exact, while the sum fits 64 bits.
   */
  lemma ResultRowIsOrdered(c: Config, steps: seq<Step>, s: State)
    requires c.history < TWO32
    requires Reaches(c, steps, s) && s.captured.Some?
    ensures var p := s.captured.value;
            && |p.ctx.history| < TWO32
            && var r := Capture(p.ctx, c.dataLen, p.total, p.elapsed);
               && RowReads(r, p.ctx, c.dataLen, p.total, p.elapsed) && r.received == |p.lats|
               && r.min <= r.max <= r.elapsed / 2 && (forall l :: l in p.lats ==> r.min <= l <= r.max)
               && (c.history <= 43383508 ==> r.p50 <= r.p90 <= r.p99 <= r.max)
               && (p.lats != [] && p.elapsed / 2 < 0xFFFF_FFFF_FFFF_FFFF ==> r.min in p.lats && r.max in p.lats)
               && (p.lats != [] && Sum(p.lats) < TWO64 ==> r.avg == Sum(p.lats) / |p.lats| && r.min <= r.avg <= r.max)
  {
    InvAlways(c, steps, s);
    var p := s.captured.value;
    CaptureReads(p.ctx, c.dataLen, p.total, p.elapsed);
    CaptureOrdered(c.history, p.ctx, p.lats, c.dataLen, p.total, p.elapsed);
    if p.lats != [] && p.elapsed / 2 < 0xFFFF_FFFF_FFFF_FFFF {
      assert p.lats[0] in p.lats && p.lats[0] < 0xFFFF_FFFF_FFFF_FFFF;
      ExtremesOccurred(c.history, p.ctx, p.lats, c.dataLen, p.total, p.elapsed);
    }
    if p.lats != [] && Sum(p.lats) < TWO64 {
      MeanOrdered(c.history, p.ctx, p.lats, c.dataLen, p.total, p.elapsed);
    }
  }

  /**
   * On every run whose latencies fit 32 bits the history is the first min(count, capacity) of them, the
   * percentiles captured split that prefix, and the median is at least the minimum.
   */
  lemma HistoryIsOfLatencies(c: Config, steps: seq<Step>, s: State)
    requires c.history <= 43383508 && Reaches(c, steps, s)
    ensures s.ctx.max < 0x1_0000_0000 ==> s.ctx.history == First(s.audit.lats, c.history)
    ensures s.captured.Some? && s.captured.value.ctx.max < 0x1_0000_0000 ==>
      var p := s.captured.value;
      && |p.ctx.history| < TWO32 && p.ctx.history == First(p.lats, c.history)
      && var r := Capture(p.ctx, c.dataLen, p.total, p.elapsed);
         Ranked(r, First(p.lats, c.history)) && (c.history > 0 && p.lats != [] ==> r.min <= r.p50)
  {
    InvAlways(c, steps, s);
    if s.ctx.max < 0x1_0000_0000 {
      HistoryIsPrefix(c.history, s.ctx, s.audit.lats);
    }
    if s.captured.Some? && s.captured.value.ctx.max < 0x1_0000_0000 {
      var p := s.captured.value;
      HistoryIsPrefix(c.history, p.ctx, p.lats);
      PercentilesOfLatencies(c.history, p.ctx, p.lats, c.dataLen, p.total, p.elapsed);
    }
  }
}
