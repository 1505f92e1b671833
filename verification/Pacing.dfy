/** The pacing sleep, the test duration, and the bound they put on sequence numbers. */
module Pacing {
  import opened Samples
  import opened Publisher
  import opened Protocol

  /** The time by which n turns cannot have finished. */
  function After(c: Config, n: int): int { n * SleepUs(c) }

  lemma AfterNext(c: Config, n: int)
    ensures After(c, n + 1) == After(c, n) + SleepUs(c)
  {
  }

  ghost predicate Inv(c: Config, s: State) {
    && 0 <= s.number
    && (Warming(s) ==> s.number == 0)
    && (!Warming(s) ==> s.t0 <= s.clock)
    && (s.pc.Write? || s.pc.Wait? ==> s.number >= 1)
    && (s.pc.Guard? || s.pc.Stamp? ==> s.t0 + After(c, s.number) <= s.clock)
    && (s.pc.Stamp? ==> After(c, s.number) < TimeoutUs(c))
    && (s.pc.Write? || s.pc.Wait? ==> s.t0 + After(c, s.number - 1) <= s.clock)
    && (s.pc.Rest? ==> s.t0 + After(c, s.number) <= s.pc.wake)
    && (s.number >= 1 ==> After(c, s.number - 1) < TimeoutUs(c))
    && (s.captured.Some? ==> s.captured.value.elapsed >= TimeoutUs(c))
    && (s.pc.Collect? ==> s.clock - s.t0 >= TimeoutUs(c))
  }

  lemma InvStep(c: Config, s: State, step: Step)
    requires Inv(c, s) && Enabled(c, s, step)
    ensures Inv(c, Apply(c, s, step))
  {
    AfterNext(c, s.number - 1);
    assert After(c, 0) == 0;
    match step {
      case Pub(ok) => InvPub(c, s, ok);
      case _ =>
    }
  }

  lemma InvPub(c: Config, s: State, ok: bool)
    requires Inv(c, s) && Enabled(c, s, Pub(ok))
    requires After(c, s.number) == After(c, s.number - 1) + SleepUs(c) && After(c, 0) == 0
    ensures Inv(c, PubStep(c, s, ok))
  {
    if s.pc.Write? {
      InvWrite(c, s, ok);
    } else if s.pc.Stamp? {
      InvStamp(c, s);
    } else if s.pc.Wait? {
      InvWait(c, s);
    } else if s.pc.Guard? || s.pc.Rest? {
      InvTest(c, s, ok);
    } else {
      InvOutside(c, s, ok);
    }
  }

  lemma InvTest(c: Config, s: State, ok: bool)
    requires Inv(c, s) && (s.pc.Guard? || s.pc.Rest?) && Enabled(c, s, Pub(ok))
    ensures Inv(c, PubStep(c, s, ok))
  {
  }

  /** Before and after the send loop. */
  lemma InvOutside(c: Config, s: State, ok: bool)
    requires Inv(c, s) && (Warming(s) || s.pc.Collect? || Finishing(s)) && After(c, 0) == 0
    ensures Inv(c, PubStep(c, s, ok))
  {
  }

  lemma InvWrite(c: Config, s: State, ok: bool)
    requires Inv(c, s) && s.pc.Write? && After(c, s.number) == After(c, s.number - 1) + SleepUs(c)
    ensures Inv(c, WriteStep(c, s, ok))
  {
  }

  lemma InvStamp(c: Config, s: State)
    requires Inv(c, s) && s.pc.Stamp?
    ensures Inv(c, StampStep(c, s))
  {
  }

  lemma InvWait(c: Config, s: State)
    requires Inv(c, s) && s.pc.Wait? && After(c, s.number) == After(c, s.number - 1) + SleepUs(c)
    ensures Inv(c, WaitStep(c, s))
  {
  }

  lemma InvAlways(c: Config, steps: seq<Step>, s: State)
    requires Reaches(c, steps, s)
    ensures Inv(c, s)
  {
    assert After(c, 0) == 0;
    forall t, step | Inv(c, t) && Enabled(c, t, step) ensures Inv(c, Apply(c, t, step)) {
      InvStep(c, t, step);
    }
    RunInduction(c, steps, s, t => Inv(c, t));
  }

  // ---- The sequence numbers a run can reach ----------------------------------------------

  /** Number n is sent only by a turn that starts before the timeout, n - 1 sleeps after the start. */
  predicate WithinTest(c: Config, n: int) {
    n == 0 || (n >= 1 && (n - 1) * SleepUs(c) < TimeoutUs(c))
  }

  /** A run with no ticks to the Warm(k) state of the burst. */
  lemma {:induction false} WarmRun(c: Config, k: nat) returns (steps: seq<Step>, s: State)
    requires k <= c.initBurst
    ensures Reaches(c, steps, s) && s == Init(c).(pc := Warm(k), sample := s.sample)
  {
    if k == 0 {
      return [], Init(c);
    }
    steps, s := WarmRun(c, k - 1);
    steps, s := Extend(c, steps, s, Pub(false));
  }

  /** A run to the first loop test at the start of the test, with nothing in flight. */
  lemma StartRun(c: Config) returns (steps: seq<Step>, s: State)
    ensures Reaches(c, steps, s) && s.sample.size == SetSize(s.sample, c.dataLen, c.maxPayload).size
    ensures s == Init(c).(pc := Guard, sample := s.sample, ctx := ResetStats(Init(c).ctx), t0 := s.clock, clock := s.clock)
  {
    steps, s := WarmRun(c, c.initBurst);
    steps, s := Extend(c, steps, s, Pub(false));
    steps, s := Extend(c, steps, s, Tick(1000000));
    steps, s := Extend(c, steps, s, Pub(false));
  }

  /** One turn of the send loop that costs exactly its sleep. */
  lemma TurnRun(c: Config, steps: seq<Step>, s: State) returns (steps': seq<Step>, s': State)
    requires Reaches(c, steps, s) && s.pc.Guard? && s.clock - s.t0 < TimeoutUs(c)
    ensures Reaches(c, steps', s') && s'.pc.Guard? && s'.number == s.number + 1
    ensures s'.t0 == s.t0 && s'.clock == s.clock + SleepUs(c)
  {
    var ok := !c.latencyTest;
    steps', s' := Extend(c, steps, s, Pub(ok));
    steps', s' := Extend(c, steps', s', Pub(ok));
    steps', s' := Extend(c, steps', s', Pub(ok));
    steps', s' := Extend(c, steps', s', Tick(SleepUs(c)));
    steps', s' := Extend(c, steps', s', Pub(ok));
  }

  lemma {:induction false} NumberRun(c: Config, n: nat) returns (steps: seq<Step>, s: State)
    requires WithinTest(c, n)
    ensures Reaches(c, steps, s) && s.pc.Guard? && s.number == n && s.clock == s.t0 + After(c, n)
  {
    if n == 0 {
      steps, s := StartRun(c);
      assert After(c, 0) == 0;
    } else {
      EarlierWithinTest(c, n);
      steps, s := NumberRun(c, n - 1);
      steps, s := TurnRun(c, steps, s);
      AfterNext(c, n - 1);
    }
  }

  lemma EarlierWithinTest(c: Config, n: nat)
    requires n >= 1 && WithinTest(c, n)
    ensures WithinTest(c, n - 1) && After(c, n - 1) < TimeoutUs(c)
  {
    if n >= 2 {
      AfterNext(c, n - 2);
    }
  }

  ghost predicate Attains(c: Config, n: int) {
    exists steps, s :: Reaches(c, steps, s) && s.number == n
  }

  /** The sequence numbers runs reach, exactly. */
  lemma NumbersExactly(c: Config, n: int)
    ensures Attains(c, n) <==> WithinTest(c, n)
  {
    if Attains(c, n) {
      var steps, s :| Reaches(c, steps, s) && s.number == n;
      InvAlways(c, steps, s);
    }
    if WithinTest(c, n) {
      var steps, s := NumberRun(c, n);
    }
  }

  /** In numbers: n is reached exactly when n - 1 sleeps, the rate's whole microseconds or the platform's minimum, are within the test. */
  lemma NumbersInMicroseconds(c: Config, n: int)
    ensures Attains(c, n) <==>
      n == 0 || (n >= 1 && (n - 1) * (if c.pubrate > 0 then 1000000 / c.pubrate else c.minSleep) < c.exec * 1000000)
  {
    NumbersExactly(c, n);
  }

  /** No run ever numbers a sample above m. */
  ghost predicate NeverAbove(c: Config, m: int) {
    forall n :: Attains(c, n) ==> n <= m
  }

  /** `seq` stays within m, on every run, exactly when the (m + 1)-th turn would start too late. */
  lemma NeverAboveIff(c: Config, m: nat)
    ensures NeverAbove(c, m) <==> m * SleepUs(c) >= TimeoutUs(c)
  {
    if m * SleepUs(c) >= TimeoutUs(c) {
      forall n | Attains(c, n) ensures n <= m {
        NumbersExactly(c, n);
        if n > m {
          Monotone(m, n - 1, SleepUs(c));
        }
      }
    } else {
      NumbersExactly(c, m + 1);
      assert WithinTest(c, m + 1);
      assert Attains(c, m + 1);
    }
  }

  lemma Monotone(a: int, b: int, k: nat)
    requires a <= b
    ensures a * k <= b * k
  {
  }

  /** `seq++` cannot overflow int32_t, on any run, exactly when INT32_MAX sleeps outlast the test. */
  lemma NumberFitsInt32Iff(c: Config)
    ensures NeverAbove(c, INT32_MAX) <==> INT32_MAX * SleepUs(c) >= TimeoutUs(c)
  {
    NeverAboveIff(c, INT32_MAX);
  }

  /** For a rate up to a million per second a run sends at most twice the requested count. */
  lemma TwiceTheRate(c: Config)
    requires 1 <= c.pubrate <= 1000000
    ensures NeverAbove(c, 2 * c.pubrate * c.exec)
  {
    var p, e, sl := c.pubrate, c.exec, SleepUs(c);
    assert 1000000 == p * sl + 1000000 % p;
    assert p <= p * sl;
    assert 1000000 <= 2 * (p * sl);
    Monotone(1000000, 2 * (p * sl), e);
    assert (2 * p * e) * sl == (2 * (p * sl)) * e;
    NeverAboveIff(c, 2 * p * e);
  }

  /**
   * The requested rate bounds the count on every run exactly when it divides a million; above a
   * million there is no pacing at all, and in between the truncated sleep is too short.
   */
  lemma RateHonouredIff(c: Config)
    requires c.pubrate >= 1 && c.exec >= 1
    ensures NeverAbove(c, c.pubrate * c.exec) <==> 1000000 % c.pubrate == 0
  {
    var p, e, sl := c.pubrate, c.exec, SleepUs(c);
    NeverAboveIff(c, p * e);
    assert 1000000 == p * sl + 1000000 % p;
    assert (p * e) * sl == (p * sl) * e;
    if 1000000 % p == 0 {
      assert (p * sl) * e == TimeoutUs(c);
    } else {
      Monotone(p * sl, 999999, e);
    }
  }

  /** Without pacing there is no bound: every sequence number is reached by some run. */
  lemma UnpacedIsUnbounded(c: Config, n: nat)
    requires SleepUs(c) == 0 && c.exec >= 1
    ensures Attains(c, n)
  {
    NumbersExactly(c, n);
  }

  // ---- Termination -----------------------------------------------------------------------

  /** Turns of at least `sleep` microseconds that can start within `timeout`: its ceiling. */
  function MaxTurns(c: Config): nat
    requires SleepUs(c) > 0
  {
    (TimeoutUs(c) + SleepUs(c) - 1) / SleepUs(c)
  }

  /** A bound on the main-loop steps still ahead. */
  function Ahead(c: Config, s: State): int
    requires SleepUs(c) > 0
  {
    var turns := MaxTurns(c) - s.number;
    match s.pc
    case Warm(sent) => c.initBurst - sent + 25 + 5 * turns
    case Settle(_) => 24 + 5 * turns
    case Guard => 23 + 5 * turns
    case Stamp => 22 + 5 * turns
    case Write => 26 + 5 * turns
    case Wait(_) => 25 + 5 * turns
    case Rest(_) => 24 + 5 * turns
    case Collect => 22
    case Fin(k) => 2 * (10 - k) + 1
    case FinRest(k, _) => 2 * (10 - k)
    case Done(_) => 0
  }

  function PubSteps(steps: seq<Step>): nat {
    if steps == [] then 0 else PubSteps(steps[..|steps| - 1]) + (if steps[|steps| - 1].Pub? then 1 else 0)
  }

  lemma TurnsCover(c: Config, n: nat)
    requires SleepUs(c) > 0 && After(c, n) < TimeoutUs(c)
    ensures n < MaxTurns(c)
  {
    var sl, t := SleepUs(c), TimeoutUs(c);
    var q, r := (t + sl - 1) / sl, (t + sl - 1) % sl;
    assert t + sl - 1 == q * sl + r;
    if q <= n {
      Monotone(q, n, sl);
    }
  }

  ghost predicate Bounded(c: Config, s: State) {
    && (s.pc.Warm? ==> s.pc.sent <= c.initBurst)
    && (s.pc.Fin? ==> s.pc.k <= 10)
    && (s.pc.FinRest? ==> s.pc.k < 10)
  }

  /** On every run there is room for the turns begun, and for one more where a turn is about to begin. */
  lemma TurnsFit(c: Config, steps: seq<Step>, s: State)
    requires SleepUs(c) > 0 && Reaches(c, steps, s)
    ensures 0 <= s.number <= MaxTurns(c)
  {
    InvAlways(c, steps, s);
    if s.number >= 1 {
      TurnsCover(c, s.number - 1);
    }
  }

  /**
   * With any pacing at all, a run takes at most initBurst + 25 + 5 * MaxTurns steps of the main loop:
   * the send loop and the finalization loop both end.
   */
  lemma {:induction false} MainLoopEnds(c: Config, steps: seq<Step>, s: State)
    requires SleepUs(c) > 0 && Reaches(c, steps, s)
    ensures Bounded(c, s)
    ensures PubSteps(steps) + Ahead(c, s) <= c.initBurst + 25 + 5 * MaxTurns(c)
    ensures 0 <= Ahead(c, s)
  {
    TurnsFit(c, steps, s);
    if steps != [] {
      var init := steps[..|steps| - 1];
      var before := Exec(c, Init(c), init).value;
      MainLoopEnds(c, init, before);
      TurnsFit(c, init, before);
      StepsAhead(c, before, steps[|steps| - 1], MaxTurns(c));
    }
  }

  lemma StepsAhead(c: Config, s: State, step: Step, maxTurns: nat)
    requires SleepUs(c) > 0 && maxTurns == MaxTurns(c)
    requires Bounded(c, s) && Enabled(c, s, step) && 0 <= s.number <= maxTurns
    ensures Bounded(c, Apply(c, s, step))
    ensures Ahead(c, Apply(c, s, step)) + (if step.Pub? then 1 else 0) <= Ahead(c, s)
  {
    if step.Pub? {
      if s.pc.Warm? || Finishing(s) {
        BurstAhead(c, s, step.ok, maxTurns);
      } else {
        TurnAhead(c, s, step.ok, maxTurns);
      }
    }
  }

  /** In the warm-up and finalization loops. */
  lemma BurstAhead(c: Config, s: State, ok: bool, maxTurns: nat)
    requires SleepUs(c) > 0 && maxTurns == MaxTurns(c)
    requires Bounded(c, s) && Enabled(c, s, Pub(ok)) && 0 <= s.number <= maxTurns
    requires s.pc.Warm? || Finishing(s)
    ensures Bounded(c, PubStep(c, s, ok)) && Ahead(c, PubStep(c, s, ok)) + 1 <= Ahead(c, s)
  {
  }

  /** From the settle to the capture. */
  lemma TurnAhead(c: Config, s: State, ok: bool, maxTurns: nat)
    requires SleepUs(c) > 0 && maxTurns == MaxTurns(c)
    requires 0 <= s.number <= maxTurns && !s.pc.Warm? && !Finishing(s)
    ensures Bounded(c, PubStep(c, s, ok)) && Ahead(c, PubStep(c, s, ok)) + 1 <= Ahead(c, s)
  {
  }

  /** Outside the semaphore wait only time holds the main loop back. */
  lemma OnlyTimeHolds(c: Config, s: State)
    requires !s.pc.Done? && !s.pc.Wait?
    ensures exists dt: nat :: Enabled(c, s, Tick(dt)) && Enabled(c, Apply(c, s, Tick(dt)), Pub(true))
  {
    var dt := if s.pc.Settle? || s.pc.Rest? || s.pc.FinRest? then s.pc.wake else 0;
    assert Enabled(c, s, Tick(dt)) && Enabled(c, Apply(c, s, Tick(dt)), Pub(true));
  }

  // ---- The finalization loop -------------------------------------------------------------

  ghost predicate FinPaced(s: State) {
    && (s.captured.Some? <==> Finishing(s))
    && (s.captured.Some? ==>
         var since := s.clock - s.t0 - s.captured.value.elapsed;
         match s.pc
         case Fin(k) => since >= 50000 * k
         case FinRest(k, wake) => since + (wake - s.clock) >= 50000 * (k + 1)
         case Done(k) => since >= 50000 * k
         case _ => true)
  }

  lemma FinPacedStep(c: Config, s: State, step: Step)
    requires FinPaced(s) && Enabled(c, s, step)
    ensures FinPaced(Apply(c, s, step))
  {
  }

  /** Each finalization turn takes at least 50 ms, so a publisher gives up, at ten, half a second after its capture at the earliest. */
  lemma RetriesArePaced(c: Config, steps: seq<Step>, s: State)
    requires Reaches(c, steps, s) && s.pc.Done?
    ensures s.captured.Some? && s.clock >= s.t0 + s.captured.value.elapsed + 50000 * s.pc.k
  {
    forall t, step | FinPaced(t) && Enabled(c, t, step) ensures FinPaced(Apply(c, t, step)) {
      FinPacedStep(c, t, step);
    }
    RunInduction(c, steps, s, t => FinPaced(t));
  }
}
