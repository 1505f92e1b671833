/** What best effort costs the ping-pong: a wait can be released by the pong of an earlier ping. */
module StalePongs {
  import opened Samples
  import opened Protocol
  import Lockstep
  import Pacing

  /** Whenever a wait can end in a successful take, the token came from the ping just written. */
  ghost predicate AlwaysOwnPong(c: Config) {
    forall steps, s :: Reaches(c, steps, s) && s.pc.Wait? && s.ctx.token ==> s.audit.given == s.number
  }

  /** The earliest, after the start of the test, that a turn whose wait timed out can be over. */
  function TimedOutTurn(c: Config): nat { TAKE_TIMEOUT_US + SleepUs(c) }

  // ---- Time for a turn behind a timed-out wait: a stale release ---------------------------

  /** From the loop test to the wait behind a written ping. */
  lemma PingRun(c: Config, steps: seq<Step>, s: State) returns (steps': seq<Step>, s': State)
    requires c.latencyTest && Reaches(c, steps, s) && s.pc.Guard? && s.clock - s.t0 < TimeoutUs(c) && !s.subDown
    ensures Reaches(c, steps', s') && s'.pc == Wait(s.clock) && s'.number == s.number + 1 && s'.clock == s.clock
    ensures s'.ping == s.ping + [s'.sample] && s'.sample.kind == DataPing && s'.sample.num == s'.number
    ensures s'.pong == s.pong && s'.ctx == s.ctx && s'.audit.given == s.audit.given && s'.t0 == s.t0 && !s'.subDown
    ensures s'.total == s.total + 1 && s'.sub == s.sub && s'.audit.takes == s.audit.takes
  {
    steps', s' := Extend(c, steps, s, Pub(true));
    steps', s' := Extend(c, steps', s', Pub(true));
    steps', s' := Extend(c, steps', s', Pub(true));
  }

  /** The wait times out, the echo arrives during the pacing sleep, and the loop test is reached with a token. */
  lemma LateEchoRun(c: Config, steps: seq<Step>, s: State) returns (steps': seq<Step>, s': State)
    requires !c.reliable && Reaches(c, steps, s) && s.pc == Wait(s.clock) && !s.ctx.token && !s.subDown
    requires |s.ping| == 1 && s.ping[0].kind == DataPing && s.ping[0].num == s.number && s.pong == []
    ensures Reaches(c, steps', s') && s'.pc.Guard? && s'.number == s.number && s'.t0 == s.t0 && !s'.subDown
    ensures s'.clock == s.clock + TimedOutTurn(c) && s'.ctx.token && s'.audit.given == s.number
  {
    steps', s' := Extend(c, steps, s, PingArrives);
    assert s'.pong == [s.ping[0]];
    steps', s' := Extend(c, steps', s', Tick(TAKE_TIMEOUT_US));
    steps', s' := Extend(c, steps', s', Timeout);
    steps', s' := Extend(c, steps', s', PongArrives);
    steps', s' := Extend(c, steps', s', Tick(SleepUs(c)));
    steps', s' := Extend(c, steps', s', Pub(true));
  }

  /** A run in which the second wait is released by the first ping's pong. */
  lemma StaleRelease(c: Config) returns (steps: seq<Step>, s: State)
    requires c.latencyTest && !c.reliable && TimedOutTurn(c) < TimeoutUs(c)
    ensures Reaches(c, steps, s) && s.pc.Wait? && s.ctx.token && s.number == 2 && s.audit.given == 1
  {
    steps, s := Pacing.StartRun(c);
    steps, s := PingRun(c, steps, s);
    steps, s := LateEchoRun(c, steps, s);
    steps, s := PingRun(c, steps, s);
  }

  /** The wait times out behind a lost pong: the sample was sent and received, and no latency is counted for it. */
  lemma LostPongTimesOut(c: Config) returns (steps: seq<Step>, s: State)
    requires c.latencyTest && !c.reliable && c.exec >= 1
    ensures Reaches(c, steps, s) && s.pc.Guard? && s.number == s.total == s.sub.total == 1
    ensures s.ping == [] && s.pong == [] && s.ctx.count == 0 && !s.ctx.token && s.audit.takes == 0
    ensures s.clock == s.t0 + 200000 + SleepUs(c)
  {
    steps, s := Pacing.StartRun(c);
    steps, s := PingRun(c, steps, s);
    steps, s := PongLostRun(c, steps, s);
  }

  lemma PongLostRun(c: Config, steps: seq<Step>, s: State) returns (steps': seq<Step>, s': State)
    requires !c.reliable && Reaches(c, steps, s) && s.pc == Wait(s.clock) && !s.ctx.token && !s.subDown
    requires |s.ping| == 1 && s.ping[0].kind == DataPing && s.pong == []
    ensures Reaches(c, steps', s') && s'.pc.Guard? && s'.ping == [] && s'.pong == [] && s'.ctx == s.ctx
    ensures s'.clock == s.clock + TimedOutTurn(c) && s'.sub.total == s.sub.total + 1 && s'.audit.takes == s.audit.takes
    ensures s'.number == s.number && s'.total == s.total && s'.t0 == s.t0
  {
    steps', s' := Extend(c, steps, s, PingArrives);
    assert s'.pong == [s.ping[0]];
    steps', s' := Extend(c, steps', s', DropPong(0));
    steps', s' := Extend(c, steps', s', Tick(TAKE_TIMEOUT_US));
    steps', s' := Extend(c, steps', s', Timeout);
    steps', s' := Extend(c, steps', s', Tick(SleepUs(c)));
    steps', s' := Extend(c, steps', s', Pub(true));
  }

  // ---- No time for one: the first timeout ends the test -----------------------------------

  /** The loop is over, or its next test ends it. */
  predicate Over(c: Config, s: State) {
    match s.pc
    case Guard => s.clock - s.t0 >= TimeoutUs(c)
    case Rest(wake) => wake - s.t0 >= TimeoutUs(c)
    case Collect => true
    case _ => Finishing(s)
  }

  ghost predicate Inv(c: Config, s: State) {
    && (!Warming(s) ==> s.t0 <= s.clock)
    && (s.pc.Wait? ==> s.t0 <= s.pc.since)
    && (Over(c, s) || Lockstep.Single(c, s))
  }

  lemma InvStep(c: Config, s: State, step: Step)
    requires c.latencyTest && TimedOutTurn(c) >= TimeoutUs(c) && Inv(c, s) && Enabled(c, s, step)
    ensures Inv(c, Apply(c, s, step))
  {
    if Over(c, s) || step.Timeout? {
      StaysOver(c, s, step);
    } else {
      Lockstep.SingleStep(c, s, step);
    }
  }

  lemma StaysOver(c: Config, s: State, step: Step)
    requires TimedOutTurn(c) >= TimeoutUs(c) && (!Warming(s) ==> s.t0 <= s.clock) && (s.pc.Wait? ==> s.t0 <= s.pc.since)
    requires Enabled(c, s, step) && (Over(c, s) || step.Timeout?)
    ensures Over(c, Apply(c, s, step))
  {
  }

  lemma OnlyOwnPongs(c: Config, steps: seq<Step>, s: State)
    requires c.latencyTest && TimedOutTurn(c) >= TimeoutUs(c) && Reaches(c, steps, s)
    ensures s.pc.Wait? && s.ctx.token ==> s.audit.given == s.number
  {
    forall t, step | Inv(c, t) && Enabled(c, t, step) ensures Inv(c, Apply(c, t, step)) {
      InvStep(c, t, step);
    }
    RunInduction(c, steps, s, t => Inv(c, t));
  }

  /**
   * In a latency test every wait is released by its own pong, on every run, exactly when -rel is given or
   * a wait that times out and the sleep behind it outlast the test.
   */
  lemma OwnPongIff(c: Config)
    requires c.latencyTest
    ensures AlwaysOwnPong(c) <==> c.reliable || 200000 + SleepUs(c) >= c.exec * 1000000
  {
    if c.reliable {
      forall steps, s | Reaches(c, steps, s) && s.pc.Wait? && s.ctx.token ensures s.audit.given == s.number {
        Lockstep.TakeIsOwnPong(c, steps, s);
      }
    } else if TimedOutTurn(c) >= TimeoutUs(c) {
      forall steps, s | Reaches(c, steps, s) && s.pc.Wait? && s.ctx.token ensures s.audit.given == s.number {
        OnlyOwnPongs(c, steps, s);
      }
    } else {
      var steps, s := StaleRelease(c);
    }
  }
}
