/**
 * What happened along a run, read off its steps: samples written, handled and lost on either channel, the
 * warm-up burst, the instants stamps and results were taken at, and the round trips behind the latencies.
 */
module Traces {
  import opened Samples
  import opened Subscriber
  import opened Protocol
  import opened Publisher
  import Tokens
  import LatencyBounds
  import Conservation

  /** The state before step k, or at the end. */
  function Before(c: Config, steps: seq<Step>, k: nat): Option<State>
    requires k <= |steps|
  {
    Exec(c, Init(c), steps[..k])
  }

  datatype Event =
    | BurstTurn              // a turn of the warm-up loop
    | Wrote(kind: Kind)      // a ping-channel write that succeeded
    | Handled(kind: Kind)    // a ping callback
    | LostPing(kind: Kind)
    | Answered(kind: Kind)   // a pong callback
    | LostPong(kind: Kind)

  /** What the main loop is about to hand to the ping writer. */
  function Outgoing(c: Config, s: State): Option<Kind> {
    match s.pc
    case Warm(sent) => if sent < c.initBurst then Some(Initialization) else None
    case Write =>
      if c.latencyTest || (c.latencyCount > 0 && s.number % c.latencyCount == 0) then Some(DataPing) else Some(Data)
    case Fin(k) => if k < 10 && !s.ctx.finishedRemote then Some(Finalization) else None
    case _ => None
  }

  predicate Happens(c: Config, e: Event, s: State, step: Step) {
    match e
    case BurstTurn => step.Pub? && s.pc.Warm? && s.pc.sent < c.initBurst
    case Wrote(kind) => step == Pub(true) && Outgoing(c, s) == Some(kind)
    case Handled(kind) => step.PingArrives? && s.ping != [] && s.ping[0].kind == kind
    case LostPing(kind) => step.DropPing? && step.i < |s.ping| && s.ping[step.i].kind == kind
    case Answered(kind) => step.PongArrives? && s.pong != [] && s.pong[0].kind == kind
    case LostPong(kind) => step.DropPong? && step.i < |s.pong| && s.pong[step.i].kind == kind
  }

  /** How often an event happens along the steps. */
  function Tally(c: Config, steps: seq<Step>, e: Event): nat {
    if steps == [] then 0
    else
      var init, step := steps[..|steps| - 1], steps[|steps| - 1];
      var s := Exec(c, Init(c), init);
      Tally(c, init, e) + (if s.Some? && Happens(c, e, s.value, step) then 1 else 0)
  }

  function One(c: Config, e: Event, s: State, step: Step): nat { if Happens(c, e, s, step) then 1 else 0 }

  lemma TallyNext(c: Config, steps: seq<Step>, s: State, step: Step, e: Event)
    requires Reaches(c, steps, s)
    ensures Tally(c, steps + [step], e) == Tally(c, steps, e) + One(c, e, s, step)
  {
    assert (steps + [step])[..|steps|] == steps;
  }

  lemma BeforeNext(c: Config, steps: seq<Step>, step: Step, k: nat)
    requires k <= |steps|
    ensures Before(c, steps + [step], k) == Before(c, steps, k)
  {
    assert (steps + [step])[..k] == steps[..k];
  }

  // ---- Conservation on both channels ------------------------------------------------------

  /**
   * For each kind of sample, on every run: what is in the ping channel, what the subscriber handled and
   * what was lost add up to the writes of that kind that succeeded.
   */
  lemma {:induction false} PingConserved(c: Config, steps: seq<Step>, s: State, kind: Kind)
    requires Reaches(c, steps, s)
    ensures CountKind(s.ping, kind) + Tally(c, steps, Handled(kind)) + Tally(c, steps, LostPing(kind))
         == Tally(c, steps, Wrote(kind))
  {
    if steps != [] {
      var init, step := steps[..|steps| - 1], steps[|steps| - 1];
      var before := Exec(c, Init(c), init).value;
      PingConserved(c, init, before, kind);
      Tokens.InvAlways(c, init, before);
      PingDelta(c, before, step, kind);
    }
  }

  lemma PingDelta(c: Config, s: State, step: Step, kind: Kind)
    requires Tokens.PhaseCounts(c, s) && Enabled(c, s, step)
    ensures CountKind(Apply(c, s, step).ping, kind) + One(c, Handled(kind), s, step) + One(c, LostPing(kind), s, step)
         == CountKind(s.ping, kind) + One(c, Wrote(kind), s, step)
  {
    if step.Pub? {
      PubDelta(c, s, step.ok, kind);
    } else if step.DropPing? {
      CountWithout(s.ping, step.i, kind);
    }
  }

  lemma PubDelta(c: Config, s: State, ok: bool, kind: Kind)
    requires Tokens.PhaseCounts(c, s)
    ensures CountKind(PubStep(c, s, ok).ping, kind) == CountKind(s.ping, kind) + One(c, Wrote(kind), s, Pub(ok))
  {
    if s.pc.Warm? {
      CountAppend(s.ping, s.sample.(ts := s.clock), kind);
    } else if s.pc.Write? || s.pc.Fin? {
      CountAppend(s.ping, s.sample, kind);
    } else {
      QuietStep(c, s, ok);
    }
  }

  /** And on the pong channel: in flight, handled and lost add up to the samples echoed: all handled but plain DATA. */
  lemma {:induction false} PongConserved(c: Config, steps: seq<Step>, s: State, kind: Kind)
    requires Reaches(c, steps, s)
    ensures CountKind(s.pong, kind) + Tally(c, steps, Answered(kind)) + Tally(c, steps, LostPong(kind))
         == if kind == Data then 0 else Tally(c, steps, Handled(kind))
  {
    if steps != [] {
      var init, step := steps[..|steps| - 1], steps[|steps| - 1];
      var before := Exec(c, Init(c), init).value;
      PongConserved(c, init, before, kind);
      PongDelta(c, before, step, kind);
    }
  }

  lemma PongDelta(c: Config, s: State, step: Step, kind: Kind)
    requires Enabled(c, s, step)
    ensures CountKind(Apply(c, s, step).pong, kind) + One(c, Answered(kind), s, step) + One(c, LostPong(kind), s, step)
         == CountKind(s.pong, kind) + if kind == Data then 0 else One(c, Handled(kind), s, step)
  {
    if step.Pub? {
      PongUntouched(c, s, step.ok);
    } else if step.PingArrives? {
      EchoDelta(s.pong, s.ping[0], kind);
    } else if step.DropPong? {
      CountWithout(s.pong, step.i, kind);
    }
  }

  lemma PongUntouched(c: Config, s: State, ok: bool)
    ensures PubStep(c, s, ok).pong == s.pong
  {
    if !Sends(s) {
      QuietStep(c, s, ok);
    }
  }

  lemma EchoDelta(q: seq<Sample>, m: Sample, kind: Kind)
    ensures CountKind(q + Echo(m), kind) == CountKind(q, kind) + (if m.kind == kind && kind != Data then 1 else 0)
  {
    if m.kind.Data? {
      assert q + Echo(m) == q;
    } else {
      CountAppend(q, m, kind);
    }
  }

  // ---- A reliable channel within its depth loses nothing ----------------------------------

  /** Never more than `depth` samples queued for the subscriber, and the publisher still up. */
  ghost predicate Shallow(c: Config, steps: seq<Step>, depth: nat) {
    forall k :: 0 <= k <= |steps| ==>
      var s := Before(c, steps, k); s.Some? ==> |s.value.ping| <= depth && !s.value.pc.Done?
  }

  /** Reliable, with at most 2 (latency mode) or 8 samples queued at any time: every write is handled or still queued. */
  lemma {:induction false} ReliableLosesNothing(c: Config, steps: seq<Step>, s: State, kind: Kind)
    requires c.reliable && Reaches(c, steps, s) && Shallow(c, steps, if c.latencyTest then 2 else 8)
    ensures Tally(c, steps, LostPing(kind)) == 0
    ensures CountKind(s.ping, kind) + Tally(c, steps, Handled(kind)) == Tally(c, steps, Wrote(kind))
  {
    PingConserved(c, steps, s, kind);
    if steps != [] {
      var init, step := steps[..|steps| - 1], steps[|steps| - 1];
      var before := Exec(c, Init(c), init).value;
      assert init + [step] == steps;
      ShallowBefore(c, init, step, if c.latencyTest then 2 else 8);
      ReliableLosesNothing(c, init, before, kind);
    }
  }

  lemma ShallowBefore(c: Config, init: seq<Step>, step: Step, depth: nat)
    requires Shallow(c, init + [step], depth)
    ensures Shallow(c, init, depth)
    ensures var s := Exec(c, Init(c), init); s.Some? ==> |s.value.ping| <= depth && !s.value.pc.Done?
  {
    forall k | 0 <= k <= |init| ensures Before(c, init, k) == Before(c, init + [step], k) {
      BeforeNext(c, init, step, k);
    }
    assert init[..|init|] == init;
    var s := Before(c, init + [step], |init|);
  }

  /** The burst with every write successful and nothing handled yet: all of it is queued. */
  lemma {:induction false} FullBurst(c: Config, n: nat) returns (steps: seq<Step>, s: State)
    requires n <= c.initBurst
    ensures Reaches(c, steps, s) && s.pc == Warm(n) && |s.ping| == n && s.clock == c.bootClock
    ensures Tally(c, steps, Wrote(Initialization)) == n && CountKind(s.ping, Initialization) == n
    ensures forall kind :: Tally(c, steps, LostPing(kind)) == 0 && Tally(c, steps, Handled(kind)) == 0
  {
    if n == 0 {
      return [], Init(c);
    }
    var before, b := FullBurst(c, n - 1);
    Tokens.InvAlways(c, before, b);
    steps, s := Extend(c, before, b, Pub(true));
    TallyNext(c, before, b, Pub(true), Wrote(Initialization));
    CountAppend(b.ping, b.sample.(ts := b.clock), Initialization);
    forall kind ensures Tally(c, steps, LostPing(kind)) == 0 && Tally(c, steps, Handled(kind)) == 0 {
      TallyNext(c, before, b, Pub(true), LostPing(kind));
      TallyNext(c, before, b, Pub(true), Handled(kind));
    }
  }

  /** One sample deeper the oldest can go: a burst beyond the depth has a reliable run that loses its first sample. */
  lemma OverflowLoses(c: Config) returns (steps: seq<Step>, s: State)
    requires c.initBurst > if c.latencyTest then 2 else 8
    ensures Reaches(c, steps, s) && Tally(c, steps, LostPing(Initialization)) == 1
  {
    var before, b := FullBurst(c, c.initBurst);
    Tokens.InvAlways(c, before, b);
    PingConserved(c, before, b, Initialization);
    AllCounted(b.ping, Initialization);
    steps, s := Extend(c, before, b, DropPing(0));
    TallyNext(c, before, b, DropPing(0), LostPing(Initialization));
  }

  lemma {:induction false} AllCounted(q: seq<Sample>, kind: Kind)
    ensures CountKind(q, kind) <= |q|
    ensures CountKind(q, kind) == |q| ==> forall i :: 0 <= i < |q| ==> q[i].kind == kind
  {
    if q != [] {
      AllCounted(q[1..], kind);
      if CountKind(q, kind) == |q| {
        forall i | 0 <= i < |q| ensures q[i].kind == kind {
          if i > 0 {
            assert q[i] == q[1..][i - 1];
          }
        }
      }
    }
  }

  // ---- The warm-up burst -----------------------------------------------------------------

  /** The size the burst reports: the burst size, else the test size, else what the sample was created with. */
  function BurstSize(c: Config): int {
    if SizeFits(c.initSize, c.maxPayload) then c.initSize
    else if SizeFits(c.dataLen, c.maxPayload) then c.dataLen
    else OVERHEAD + c.maxPayload
  }

  /** Past the warm-up exactly initBurst burst turns have been taken; within it, as many as the loop variable says. */
  lemma {:induction false} BurstTaken(c: Config, steps: seq<Step>, s: State)
    requires Reaches(c, steps, s)
    ensures Tally(c, steps, BurstTurn) == if s.pc.Warm? then s.pc.sent else c.initBurst
    ensures Tally(c, steps, BurstTurn) <= c.initBurst
  {
    if steps != [] {
      var init, step := steps[..|steps| - 1], steps[|steps| - 1];
      var before := Exec(c, Init(c), init).value;
      BurstTaken(c, init, before);
      BurstDelta(c, before, step);
    }
  }

  lemma BurstDelta(c: Config, s: State, step: Step)
    requires Enabled(c, s, step) && (s.pc.Warm? ==> s.pc.sent <= c.initBurst)
    ensures var t := Apply(c, s, step);
            var taken, taken' := if s.pc.Warm? then s.pc.sent else c.initBurst, if t.pc.Warm? then t.pc.sent else c.initBurst;
            taken' == taken + One(c, BurstTurn, s, step) && taken' <= c.initBurst
  {
  }

  /** Every warm-up sample written comes from a burst turn, so at most initBurst of them are. */
  lemma {:induction false} BurstWrites(c: Config, steps: seq<Step>)
    ensures Tally(c, steps, Wrote(Initialization)) <= Tally(c, steps, BurstTurn)
  {
    if steps != [] {
      BurstWrites(c, steps[..|steps| - 1]);
    }
  }

  /**
   * The warm-up traffic of a run: the samples queued, handled and lost are those whose write succeeded, at
   * most initBurst, and each one queued on either channel reports the burst size and a stamp of the past.
   */
  lemma WarmupConserved(c: Config, steps: seq<Step>, s: State)
    requires Reaches(c, steps, s)
    ensures CountKind(s.ping, Initialization) + Tally(c, steps, Handled(Initialization))
            + Tally(c, steps, LostPing(Initialization)) == Tally(c, steps, Wrote(Initialization))
    ensures Tally(c, steps, Wrote(Initialization)) <= Tally(c, steps, BurstTurn) <= c.initBurst
    ensures !s.pc.Warm? ==> Tally(c, steps, BurstTurn) == c.initBurst
    ensures OfBurst(c, s.ping, s.clock) && OfBurst(c, s.pong, s.clock)
  {
    PingConserved(c, steps, s, Initialization);
    BurstTaken(c, steps, s);
    BurstWrites(c, steps);
    forall t, step | WarmSized(c, t) && Enabled(c, t, step) ensures WarmSized(c, Apply(c, t, step)) {
      WarmSizedStep(c, t, step);
    }
    RunInduction(c, steps, s, t => WarmSized(c, t));
  }

  ghost predicate OfBurst(c: Config, q: seq<Sample>, clock: nat) {
    forall i :: 0 <= i < |q| && q[i].kind.Initialization? ==>
      q[i].size == BurstSize(c) && c.bootClock <= q[i].ts <= clock
  }

  ghost predicate WarmSized(c: Config, s: State) {
    && (s.pc.Warm? ==> s.sample.kind.Initialization? && s.sample.size == BurstSize(c))
    && (s.pc.Write? ==> s.sample.IsData())
    && (Finishing(s) ==> s.sample.kind.Finalization?)
    && c.bootClock <= s.clock && OfBurst(c, s.ping, s.clock) && OfBurst(c, s.pong, s.clock)
  }

  lemma WarmSizedStep(c: Config, s: State, step: Step)
    requires WarmSized(c, s) && Enabled(c, s, step)
    ensures WarmSized(c, Apply(c, s, step))
  {
    if step.Pub? {
      WarmSizedPub(c, s, step.ok);
    }
  }

  lemma WarmSizedPub(c: Config, s: State, ok: bool)
    requires WarmSized(c, s)
    ensures WarmSized(c, PubStep(c, s, ok))
  {
    if !Sends(s) {
      QuietStep(c, s, ok);
    }
  }

  /** A run whose whole burst reaches the channel and that stands before the settle: nothing is lost or handled. */
  lemma LossFreeBurst(c: Config) returns (steps: seq<Step>, s: State)
    ensures Reaches(c, steps, s) && s.pc == Settle(c.bootClock + 1000000)
    ensures |s.ping| == CountKind(s.ping, Initialization) == Tally(c, steps, Wrote(Initialization)) == c.initBurst
  {
    var before, b := FullBurst(c, c.initBurst);
    steps, s := Extend(c, before, b, Pub(true));
    TallyNext(c, before, b, Pub(true), Wrote(Initialization));
  }

  // ---- Where stamps come from ------------------------------------------------------------

  /** Step k of the run stamps m: a burst turn a warm-up sample, the numbering step the data sample of that number. */
  ghost predicate StampedBy(c: Config, steps: seq<Step>, k: nat, m: Sample) {
    && k < |steps| && steps[k].Pub? && Before(c, steps, k).Some?
    && var a := Before(c, steps, k).value;
       && m.ts == a.clock
       && if m.kind.Initialization? then a.pc.Warm? && a.pc.sent < c.initBurst
          else a.pc.Stamp? && a.number + 1 == m.num
  }

  ghost predicate Traced(c: Config, steps: seq<Step>, m: Sample) {
    m.kind.Finalization? || exists k :: StampedBy(c, steps, k, m)
  }

  ghost predicate AllTraced(c: Config, steps: seq<Step>, q: seq<Sample>) {
    forall i :: 0 <= i < |q| ==> Traced(c, steps, q[i])
  }

  lemma TracedNext(c: Config, steps: seq<Step>, step: Step, m: Sample)
    requires Traced(c, steps, m)
    ensures Traced(c, steps + [step], m)
  {
    if !m.kind.Finalization? {
      var k :| StampedBy(c, steps, k, m);
      BeforeNext(c, steps, step, k);
      assert StampedBy(c, steps + [step], k, m);
    }
  }

  lemma AllTracedNext(c: Config, steps: seq<Step>, step: Step, q: seq<Sample>)
    requires AllTraced(c, steps, q)
    ensures AllTraced(c, steps + [step], q)
  {
    forall i | 0 <= i < |q| ensures Traced(c, steps + [step], q[i]) {
      TracedNext(c, steps, step, q[i]);
    }
  }

  /** The last step of a run is its own stamping step. */
  lemma StampedNow(c: Config, steps: seq<Step>, s: State, step: Step, m: Sample)
    requires Reaches(c, steps, s) && step.Pub? && m.ts == s.clock
    requires if m.kind.Initialization? then s.pc.Warm? && s.pc.sent < c.initBurst else s.pc.Stamp? && s.number + 1 == m.num
    ensures Traced(c, steps + [step], m)
  {
    BeforeNext(c, steps, step, |steps|);
    assert steps[..|steps|] == steps;
    assert StampedBy(c, steps + [step], |steps|, m);
  }

  /** Every stamp on either channel was read from the clock at the turn that numbered, or burst, the sample. */
  lemma {:induction false} StampsAreClockReadings(c: Config, steps: seq<Step>, s: State)
    requires Reaches(c, steps, s)
    ensures AllTraced(c, steps, s.ping) && AllTraced(c, steps, s.pong)
    ensures s.pc.Write? ==> Traced(c, steps, s.sample)
  {
    if steps != [] {
      var init, step := steps[..|steps| - 1], steps[|steps| - 1];
      var before := Exec(c, Init(c), init).value;
      assert steps == init + [step];
      StampsAreClockReadings(c, init, before);
      Tokens.InvAlways(c, init, before);
      AllTracedNext(c, init, step, before.ping);
      AllTracedNext(c, init, step, before.pong);
      if before.pc.Write? {
        TracedNext(c, init, step, before.sample);
      }
      if step.Pub? {
        TracedPub(c, init, before, step);
      } else {
        TracedElse(c, init, before, step);
      }
    }
  }

  lemma TracedPub(c: Config, init: seq<Step>, s: State, step: Step)
    requires Reaches(c, init, s) && step.Pub? && Enabled(c, s, step) && Tokens.PhaseCounts(c, s)
    requires AllTraced(c, init + [step], s.ping) && AllTraced(c, init + [step], s.pong)
    requires s.pc.Write? ==> Traced(c, init + [step], s.sample)
    ensures var t, steps := Apply(c, s, step), init + [step];
            AllTraced(c, steps, t.ping) && AllTraced(c, steps, t.pong) && (t.pc.Write? ==> Traced(c, steps, t.sample))
  {
    PongUntouched(c, s, step.ok);
    if s.pc.Warm? {
      if s.pc.sent < c.initBurst {
        StampedNow(c, init, s, step, s.sample.(ts := s.clock));
      }
    } else if s.pc.Stamp? {
      StampedNow(c, init, s, step, StampStep(c, s).sample);
    } else if !Sends(s) {
      QuietStep(c, s, step.ok);
    }
  }

  lemma TracedElse(c: Config, init: seq<Step>, s: State, step: Step)
    requires !step.Pub? && Enabled(c, s, step)
    requires AllTraced(c, init + [step], s.ping) && AllTraced(c, init + [step], s.pong)
    requires s.pc.Write? ==> Traced(c, init + [step], s.sample)
    ensures var t, steps := Apply(c, s, step), init + [step];
            AllTraced(c, steps, t.ping) && AllTraced(c, steps, t.pong) && (t.pc.Write? ==> Traced(c, steps, t.sample))
  {
  }

  // ---- Round trips behind the latencies --------------------------------------------------

  /** The k-th pong handled, at step j, answers the ping numbered at step i; l is half the time between. */
  ghost predicate RoundTrip(c: Config, steps: seq<Step>, i: nat, j: nat, k: nat, l: nat) {
    && i < j < |steps| && steps[i].Pub? && steps[j].PongArrives?
    && Before(c, steps, i).Some? && Before(c, steps, j).Some?
    && var a, b := Before(c, steps, i).value, Before(c, steps, j).value;
       && a.pc.Stamp? && b.pong != [] && b.pong[0].kind.DataPing? && b.pong[0].num == a.number + 1
       && Tally(c, steps[..j], Answered(DataPing)) == k
       && a.clock <= b.clock && l == (b.clock - a.clock) / 2
  }

  ghost predicate Measured(c: Config, steps: seq<Step>, k: nat, l: nat) {
    exists i, j :: RoundTrip(c, steps, i, j, k, l)
  }

  lemma MeasuredNext(c: Config, steps: seq<Step>, step: Step, k: nat, l: nat)
    requires Measured(c, steps, k, l)
    ensures Measured(c, steps + [step], k, l)
  {
    var i: nat, j: nat :| RoundTrip(c, steps, i, j, k, l);
    assert i < j < |steps|;
    BeforeNext(c, steps, step, i);
    BeforeNext(c, steps, step, j);
    assert (steps + [step])[..j] == steps[..j];
    assert RoundTrip(c, steps + [step], i, j, k, l);
  }

  /**
   * The latencies of a run are exactly its pongs, in order: the k-th is half the time from the step that
   * numbered and stamped the ping to the step that handled the k-th pong, which carries that number.
   */
  lemma {:induction false} LatencyIsHalfRoundTrip(c: Config, steps: seq<Step>, s: State)
    requires Reaches(c, steps, s)
    ensures |s.audit.lats| == Tally(c, steps, Answered(DataPing)) == s.ctx.count
    ensures AllMeasured(c, steps, s.audit.lats)
  {
    Tokens.InvAlways(c, steps, s);
    if steps != [] {
      var init, step := steps[..|steps| - 1], steps[|steps| - 1];
      var before := Exec(c, Init(c), init).value;
      assert steps == init + [step];
      LatencyIsHalfRoundTrip(c, init, before);
      LatsFacts(c, init, before);
      LatsDelta(c, before, step);
      MeasuredStep(c, init, before, step, s.audit.lats);
    }
  }

  lemma MeasuredStep(c: Config, init: seq<Step>, s: State, step: Step, lats: seq<nat>)
    requires Reaches(c, init, s) && Enabled(c, s, step)
    requires |s.audit.lats| == Tally(c, init, Answered(DataPing)) && AllMeasured(c, init, s.audit.lats)
    requires lats == NextLats(c, s, step)
    ensures |lats| == Tally(c, init + [step], Answered(DataPing)) && AllMeasured(c, init + [step], lats)
  {
    AllMeasuredNext(c, init, step, s.audit.lats);
    TallyNext(c, init, s, step, Answered(DataPing));
    if Happens(c, Answered(DataPing), s, step) {
      MeasuredPong(c, init, s);
    }
  }

  /** The latencies after a step, by its event. */
  function NextLats(c: Config, s: State, step: Step): seq<nat> {
    if Happens(c, Answered(DataPing), s, step) then s.audit.lats + [Latency(s.clock, s.pong[0].ts)] else s.audit.lats
  }

  lemma MeasuredPong(c: Config, init: seq<Step>, s: State)
    requires Reaches(c, init, s) && Enabled(c, s, PongArrives) && s.pong[0].kind.DataPing?
    requires |s.audit.lats| == Tally(c, init, Answered(DataPing)) && AllMeasured(c, init + [PongArrives], s.audit.lats)
    ensures AllMeasured(c, init + [PongArrives], s.audit.lats + [Latency(s.clock, s.pong[0].ts)])
  {
    TripEnds(c, init, s);
    AllMeasuredAppend(c, init + [PongArrives], s.audit.lats, Latency(s.clock, s.pong[0].ts));
  }

  lemma LatsFacts(c: Config, steps: seq<Step>, s: State)
    requires Reaches(c, steps, s)
    ensures Echoed(s) && (s.pc.Settle? ==> s.audit.lats == [])
  {
    LatencyBounds.InvAlways(c, steps, s);
  }

  lemma AllMeasuredAppend(c: Config, steps: seq<Step>, lats: seq<nat>, l: nat)
    requires AllMeasured(c, steps, lats) && Measured(c, steps, |lats|, l)
    ensures AllMeasured(c, steps, lats + [l])
  {
  }

  ghost predicate AllMeasured(c: Config, steps: seq<Step>, lats: seq<nat>) {
    forall k :: 0 <= k < |lats| ==> Measured(c, steps, k, lats[k])
  }

  lemma AllMeasuredNext(c: Config, steps: seq<Step>, step: Step, lats: seq<nat>)
    requires AllMeasured(c, steps, lats)
    ensures AllMeasured(c, steps + [step], lats)
  {
    forall k | 0 <= k < |lats| ensures Measured(c, steps + [step], k, lats[k]) {
      MeasuredNext(c, steps, step, k, lats[k]);
    }
  }

  /** Only a pong adds a latency, and only the reset, before any pong, clears them. */
  lemma LatsDelta(c: Config, s: State, step: Step)
    requires Enabled(c, s, step) && Echoed(s) && (s.pc.Settle? ==> s.audit.lats == [])
    ensures Apply(c, s, step).audit.lats == NextLats(c, s, step)
  {
  }

  lemma TripEnds(c: Config, init: seq<Step>, s: State)
    requires Reaches(c, init, s) && Enabled(c, s, PongArrives) && s.pong[0].kind.DataPing?
    ensures Measured(c, init + [PongArrives], Tally(c, init, Answered(DataPing)), Latency(s.clock, s.pong[0].ts))
  {
    StampsAreClockReadings(c, init, s);
    LatencyBounds.GuardHidesNothing(c, init, s);
    assert Traced(c, init, s.pong[0]);
    var i: nat :| StampedBy(c, init, i, s.pong[0]);
    TripFrom(c, init, s, i);
  }

  lemma TripFrom(c: Config, init: seq<Step>, s: State, i: nat)
    requires Reaches(c, init, s) && s.pong != [] && s.pong[0].kind.DataPing?
    requires StampedBy(c, init, i, s.pong[0]) && s.pong[0].ts <= s.clock
    ensures Measured(c, init + [PongArrives], Tally(c, init, Answered(DataPing)), (s.clock - s.pong[0].ts) / 2)
  {
    var steps := init + [PongArrives];
    assert i < |init|;
    BeforeNext(c, init, PongArrives, i);
    BeforeNext(c, init, PongArrives, |init|);
    assert steps[..|init|] == init && init[..|init|] == init;
    assert RoundTrip(c, steps, i, |init|, Tally(c, init, Answered(DataPing)), (s.clock - s.pong[0].ts) / 2);
  }

  /** Step j of the run handles a pong with the number n. */
  ghost predicate AnsweredAt(c: Config, steps: seq<Step>, j: nat, n: int) {
    && j < |steps| && steps[j].PongArrives? && Before(c, steps, j).Some?
    && var b := Before(c, steps, j).value; b.pong != [] && b.pong[0].kind.DataPing? && b.pong[0].num == n
  }

  /** `given` is the number the last pong carried. */
  lemma {:induction false} GivenByLastPong(c: Config, steps: seq<Step>, s: State) returns (j: nat)
    requires Reaches(c, steps, s) && Tally(c, steps, Answered(DataPing)) > 0
    ensures AnsweredAt(c, steps, j, s.audit.given)
    ensures Tally(c, steps[..j + 1], Answered(DataPing)) == Tally(c, steps, Answered(DataPing))
  {
    var init, step := steps[..|steps| - 1], steps[|steps| - 1];
    var before := Exec(c, Init(c), init).value;
    assert steps == init + [step];
    if Happens(c, Answered(DataPing), before, step) {
      j := |init|;
      BeforeNext(c, init, step, j);
      assert init[..j] == init && steps[..j + 1] == steps;
    } else {
      LatsFacts(c, init, before);
      GivenDelta(c, before, step);
      TallyNext(c, init, before, step, Answered(DataPing));
      j := GivenByLastPong(c, init, before);
      BeforeNext(c, init, step, j);
      assert steps[..j + 1] == init[..j + 1];
    }
  }

  lemma GivenDelta(c: Config, s: State, step: Step)
    requires Enabled(c, s, step) && Echoed(s) && !Happens(c, Answered(DataPing), s, step)
    ensures Apply(c, s, step).audit.given == s.audit.given
  {
  }

  // ---- The instants of start and capture --------------------------------------------------

  /** Step i starts the test: it follows the settle, reads t0 off the clock and comes a second after the burst. */
  ghost predicate StartsAt(c: Config, steps: seq<Step>, i: nat, t0: nat) {
    && i < |steps| && steps[i].Pub? && Before(c, steps, i).Some?
    && Before(c, steps, i).value.pc.Settle? && Before(c, steps, i).value.clock == t0 >= c.bootClock + 1000000
  }

  /** Step j captures the results: what the snapshot holds is what the run had there, the time since t0 included. */
  ghost predicate CapturesAt(c: Config, steps: seq<Step>, j: nat, t0: nat, p: Snapshot) {
    && j < |steps| && steps[j].Pub? && Before(c, steps, j).Some?
    && var b := Before(c, steps, j).value;
       && b.pc.Collect? && p.ctx == b.ctx && p.lats == b.audit.lats && p.elapsed == b.clock - t0
       && p.total == Tally(c, steps[..j], Wrote(Data)) + Tally(c, steps[..j], Wrote(DataPing))
  }

  /** The samples counted as sent are the data writes that succeeded. */
  lemma {:induction false} TotalIsWrites(c: Config, steps: seq<Step>, s: State)
    requires Reaches(c, steps, s)
    ensures s.total == |s.audit.sent| == Tally(c, steps, Wrote(Data)) + Tally(c, steps, Wrote(DataPing))
  {
    if steps != [] {
      var init, step := steps[..|steps| - 1], steps[|steps| - 1];
      var before := Exec(c, Init(c), init).value;
      TotalIsWrites(c, init, before);
      Tokens.InvAlways(c, init, before);
      TotalDelta(c, before, step);
    }
  }

  lemma TotalDelta(c: Config, s: State, step: Step)
    requires Enabled(c, s, step)
    ensures var t := Apply(c, s, step);
            var wrote := One(c, Wrote(Data), s, step) + One(c, Wrote(DataPing), s, step);
            t.total == s.total + wrote && |t.audit.sent| == |s.audit.sent| + wrote
  {
  }

  lemma {:induction false} StartInstant(c: Config, steps: seq<Step>, s: State) returns (i: nat)
    requires Reaches(c, steps, s)
    ensures s.pc.Warm? ==> c.bootClock <= s.clock
    ensures s.pc.Settle? ==> s.pc.wake >= c.bootClock + 1000000
    ensures !Warming(s) ==> StartsAt(c, steps, i, s.t0)
  {
    i := 0;
    if steps != [] {
      var init, step := steps[..|steps| - 1], steps[|steps| - 1];
      var before := Exec(c, Init(c), init).value;
      assert steps == init + [step];
      i := StartInstant(c, init, before);
      StartKept(c, before, step);
      if before.pc.Settle? && step.Pub? {
        i := |init|;
        assert steps[..i] == init;
      } else if !Warming(before) {
        BeforeNext(c, init, step, i);
      }
    }
  }

  lemma StartKept(c: Config, s: State, step: Step)
    requires Enabled(c, s, step)
    ensures var t := Apply(c, s, step);
            && (Warming(t) ==> Warming(s)) && (t.pc.Warm? ==> s.pc.Warm?) && s.clock <= t.clock
            && (t.pc.Settle? && s.pc.Settle? ==> t.pc == s.pc)
            && (t.pc.Settle? && s.pc.Warm? ==> t.pc.wake == s.clock + 1000000)
            && (!Warming(s) ==> t.t0 == s.t0)
            && (Warming(s) && !Warming(t) ==> s.pc.Settle? && step.Pub? && t.t0 == s.clock)
  {
  }

  /**
   * The result row's inputs on every run: taken together at one step, with the data writes that had
   * succeeded, the statistics, and the time since the step that started the test.
   */
  lemma {:induction false} CaptureInstant(c: Config, steps: seq<Step>, s: State) returns (i: nat, j: nat)
    requires Reaches(c, steps, s) && s.captured.Some?
    ensures StartsAt(c, steps, i, s.t0) && CapturesAt(c, steps, j, s.t0, s.captured.value)
  {
    var init, step := steps[..|steps| - 1], steps[|steps| - 1];
    var before := Exec(c, Init(c), init).value;
    assert steps == init + [step];
    LatencyBounds.InvAlways(c, steps, s);
    i := StartInstant(c, steps, s);
    CaptureKept(c, before, step);
    if before.captured.Some? {
      Conservation.InvAlways(c, init, before);
      LatencyBounds.InvAlways(c, init, before);
      StartKept(c, before, step);
      var i', j' := CaptureInstant(c, init, before);
      CapturesNext(c, init, step, j', s.t0, s.captured.value);
      j := j';
    } else {
      j := CapturesNow(c, init, before, step);
    }
  }

  lemma CapturesNext(c: Config, steps: seq<Step>, step: Step, j: nat, t0: nat, p: Snapshot)
    requires CapturesAt(c, steps, j, t0, p)
    ensures CapturesAt(c, steps + [step], j, t0, p)
  {
    BeforeNext(c, steps, step, j);
    assert (steps + [step])[..j] == steps[..j];
  }

  lemma CapturesNow(c: Config, steps: seq<Step>, s: State, step: Step) returns (j: nat)
    requires Reaches(c, steps, s) && step.Pub? && s.pc.Collect?
    ensures CapturesAt(c, steps + [step], j, s.t0, Snapshot(s.ctx, s.total, s.clock - s.t0, s.audit.lats))
  {
    TotalIsWrites(c, steps, s);
    j := |steps|;
    assert (steps + [step])[..j] == steps;
  }

  lemma CaptureKept(c: Config, s: State, step: Step)
    requires Enabled(c, s, step)
    ensures var t := Apply(c, s, step);
            if step.Pub? && s.pc.Collect?
            then t.captured == Some(Snapshot(s.ctx, s.total, s.clock - s.t0, s.audit.lats)) && t.t0 == s.t0
            else t.captured == s.captured
  {
  }

  /**
   * The result row of every run, read off its steps: the size asked for, the data writes that had
   * succeeded, the pongs that had been handled, and the time from the start of the test to the capture;
   * the percentiles are of the history taken there.
   */
  lemma RowOfRun(c: Config, steps: seq<Step>, s: State) returns (i: nat, j: nat)
    requires c.history < TWO32 && Reaches(c, steps, s) && s.captured.Some?
    ensures StartsAt(c, steps, i, s.t0) && CapturesAt(c, steps, j, s.t0, s.captured.value)
    ensures var p := s.captured.value;
            && |p.ctx.history| < TWO32
            && var r := Capture(p.ctx, c.dataLen, p.total, p.elapsed);
               && r.size == c.dataLen
               && r.total == Tally(c, steps[..j], Wrote(Data)) + Tally(c, steps[..j], Wrote(DataPing))
               && r.received == Tally(c, steps[..j], Answered(DataPing))
               && r.elapsed == Before(c, steps, j).value.clock - Before(c, steps, i).value.clock
               && Ranked(r, Before(c, steps, j).value.ctx.history)
  {
    i, j := CaptureInstant(c, steps, s);
    var b, p := Before(c, steps, j).value, s.captured.value;
    LatencyBounds.FiguresAreOfDelivered(c, steps[..j], b);
    LatencyIsHalfRoundTrip(c, steps[..j], b);
    CaptureReads(p.ctx, c.dataLen, p.total, p.elapsed);
  }
}
