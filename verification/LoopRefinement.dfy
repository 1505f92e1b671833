/**
 * The step system's publisher is the imperative send loop: the script observed along any run, fed to
 * SendLoop's specification, gives the variables, the statistics and the samples written that the run has.
 */
module LoopRefinement {
  import opened Samples
  import opened Publisher
  import opened Protocol
  import opened PublisherEngine
  import opened Traces
  import Conservation
  import Tokens
  import Sizes

  /** The loop's variables after the observed turns, from the reset. */
  function Observed(c: Config, script: seq<Turn>): Local {
    AfterTurns(c, Local(0, 0, ZERO_CTX, []), script)
  }

  predicate Looping(s: State) { !Warming(s) }

  predicate Timely(c: Config, t0: nat, turn: Turn) {
    t0 <= turn.guardAt && turn.guardAt - t0 < TimeoutUs(c)
  }

  /** Every observed turn began inside the test. */
  ghost predicate InTest(c: Config, t0: nat, script: seq<Turn>) {
    forall i :: 0 <= i < |script| ==> Timely(c, t0, script[i])
  }

  /**
   * The run stands where the loop stands after a script that gave it the variables l, the statistics of l
   * and of the turn's pongs being x, and after the part of the next turn in `turn`. Pongs handled after a
   * turn's rest count for the next turn.
   */
  predicate StandsAt(c: Config, s: State, l: Local, x: Ctx, turn: Turn) {
    match s.pc
    case Guard | Collect => s.number == l.number && s.total == l.total && s.ctx == x && s.audit.sent == l.written
    case Stamp =>
      && s.number == l.number && s.total == l.total && s.ctx == x && s.audit.sent == l.written
      && Timely(c, s.t0, turn)
    case Write =>
      && s.number == l.number + 1 && s.total == l.total && s.ctx == x && s.audit.sent == l.written
      && Timely(c, s.t0, turn) && s.sample == TurnSample(c, s.number, turn.stampAt)
    case Wait(_) =>
      && s.number == l.number + 1 && s.total == l.total + 1 && s.ctx == x
      && s.audit.sent == l.written + TurnWrote(c, s.number, turn)
      && Timely(c, s.t0, turn) && turn.ok && Waits(c, s.number, true) && turn.late == []
    case Rest(_) =>
      && s.number == l.number + 1 && s.total == l.total + (if turn.ok then 1 else 0)
      && s.audit.sent == l.written + TurnWrote(c, s.number, turn) && Timely(c, s.t0, turn)
      && s.ctx == FeedPongs(c.history, TakeToken(x, Waits(c, s.number, turn.ok)), turn.late)
    case _ =>
      && s.number == l.number && s.total == l.total && s.audit.sent == l.written
      && s.lastSeq == s.number && s.captured.Some? && s.captured.value.total == s.total && s.captured.value.ctx == x
  }

  /** The run stands where the loop stands after `script` and the part of the next turn in `turn`. */
  ghost predicate Matches(c: Config, s: State, script: seq<Turn>, turn: Turn) {
    var l := Observed(c, script);
    && InTest(c, s.t0, script) && s.t0 <= s.clock && l.number == |script|
    && StandsAt(c, s, l, FeedPongs(c.history, l.ctx, turn.pongs), turn)
  }

  const IDLE := Turn(0, 0, false, [], [])

  // ---- How the observation grows with a main-loop step ------------------------------------

  lemma StandGuard(c: Config, s: State, l: Local, x: Ctx, turn: Turn)
    requires s.pc.Guard? && StandsAt(c, s, l, x, turn) && s.t0 <= s.clock
    ensures StandsAt(c, GuardStep(c, s), l, x, turn.(guardAt := s.clock))
  {
  }

  lemma StandStamp(c: Config, s: State, l: Local, x: Ctx, turn: Turn)
    requires s.pc.Stamp? && StandsAt(c, s, l, x, turn) && s.sample.size == c.dataLen
    ensures StandsAt(c, StampStep(c, s), l, x, turn.(stampAt := s.clock))
  {
  }

  lemma StandWrite(c: Config, s: State, ok: bool, l: Local, x: Ctx, turn: Turn)
    requires s.pc.Write? && StandsAt(c, s, l, x, turn)
    ensures StandsAt(c, WriteStep(c, s, ok), l, x, turn.(ok := ok, late := []))
  {
    assert l.written + [] == l.written;
  }

  lemma StandWait(c: Config, s: State, l: Local, x: Ctx, turn: Turn)
    requires s.pc.Wait? && StandsAt(c, s, l, x, turn)
    ensures StandsAt(c, WaitStep(c, s), l, x, turn)
  {
  }

  /** The rest ends: the turn joins the script. */
  lemma StandRest(c: Config, s: State, script: seq<Turn>, turn: Turn)
    requires s.pc.Rest? && Matches(c, s, script, turn)
    ensures Matches(c, s.(pc := Guard), script + [turn], IDLE)
  {
    var l := Observed(c, script);
    assert (script + [turn])[..|script|] == script;
    assert Observed(c, script + [turn]) == AfterTurn(c, l, turn);
  }

  lemma ObservePub(c: Config, s: State, ok: bool, script: seq<Turn>, turn: Turn) returns (script': seq<Turn>, turn': Turn)
    requires Matches(c, s, script, turn) && Enabled(c, s, Pub(ok)) && s.sample.size == c.dataLen
    requires !Warming(s) && !Finishing(s)
    ensures Matches(c, PubStep(c, s, ok), script', turn')
  {
    script', turn' := script, turn;
    var l := Observed(c, script);
    var x := FeedPongs(c.history, l.ctx, turn.pongs);
    if s.pc.Guard? {
      StandGuard(c, s, l, x, turn);
      turn' := turn.(guardAt := s.clock);
    } else if s.pc.Stamp? {
      StandStamp(c, s, l, x, turn);
      turn' := turn.(stampAt := s.clock);
    } else if s.pc.Write? {
      StandWrite(c, s, ok, l, x, turn);
      turn' := turn.(ok := ok, late := []);
    } else if s.pc.Wait? {
      StandWait(c, s, l, x, turn);
    } else if s.pc.Rest? {
      StandRest(c, s, script, turn);
      script', turn' := script + [turn], IDLE;
    }
  }

  // ---- How it grows with a pong callback --------------------------------------------------

  /** Before the turn's rest the pong belongs to the statistics the turn has so far. */
  lemma StandPong(c: Config, s: State, l: Local, x: Ctx, turn: Turn, pongs: seq<Arrival>)
    requires !Finishing(s) && !s.pc.Rest? && Looping(s) && StandsAt(c, s, l, x, turn) && s.pong != []
    ensures StandsAt(c, PongStep(c, s), l, OnPong(c.history, x, s.pong[0], s.clock), turn.(pongs := pongs))
  {
  }

  lemma StandLatePong(c: Config, s: State, l: Local, x: Ctx, turn: Turn)
    requires s.pc.Rest? && StandsAt(c, s, l, x, turn) && s.pong != []
    ensures StandsAt(c, PongStep(c, s), l, x, turn.(late := turn.late + [Arrival(s.pong[0], s.clock)]))
  {
    OneMorePong(c.history, TakeToken(x, Waits(c, s.number, turn.ok)), turn.late, Arrival(s.pong[0], s.clock));
  }

  lemma ObservePong(c: Config, s: State, script: seq<Turn>, turn: Turn) returns (turn': Turn)
    requires Looping(s) && Matches(c, s, script, turn) && Enabled(c, s, PongArrives)
    ensures Matches(c, PongStep(c, s), script, turn')
  {
    var a, l := Arrival(s.pong[0], s.clock), Observed(c, script);
    var x := FeedPongs(c.history, l.ctx, turn.pongs);
    if s.pc.Rest? {
      turn' := turn.(late := turn.late + [a]);
      StandLatePong(c, s, l, x, turn);
    } else if Finishing(s) {
      turn' := turn;
    } else {
      turn' := turn.(pongs := turn.pongs + [a]);
      OneMorePong(c.history, l.ctx, turn.pongs, a);
      StandPong(c, s, l, x, turn, turn'.pongs);
    }
  }

  lemma OneMorePong(capacity: nat, x: Ctx, pongs: seq<Arrival>, a: Arrival)
    ensures FeedPongs(capacity, x, pongs + [a]) == OnPong(capacity, FeedPongs(capacity, x, pongs), a.sample, a.at)
  {
    assert (pongs + [a])[..|pongs|] == pongs;
  }

  /** Along any run past the warm-up there is a script under which the imperative loop agrees with it. */
  lemma {:induction false} RunIsLoop(c: Config, steps: seq<Step>, s: State) returns (script: seq<Turn>, turn: Turn)
    requires SizeFits(c.dataLen, c.maxPayload) && Reaches(c, steps, s)
    ensures Looping(s) ==> Matches(c, s, script, turn)
  {
    script, turn := [], IDLE;
    if !Looping(s) {
      return;
    }
    var init, step := steps[..|steps| - 1], steps[|steps| - 1];
    var before := Exec(c, Init(c), init).value;
    Sizes.InvAlways(c, init, before);
    if !Looping(before) {
      ObserveStart(c, init, before, step);
      return;
    }
    script, turn := RunIsLoop(c, init, before);
    script, turn := ObserveStep(c, before, step, script, turn);
  }

  lemma ObserveStep(c: Config, s: State, step: Step, script: seq<Turn>, turn: Turn)
    returns (script': seq<Turn>, turn': Turn)
    requires Looping(s) && Matches(c, s, script, turn) && Enabled(c, s, step) && s.sample.size == c.dataLen
    ensures Matches(c, Apply(c, s, step), script', turn')
  {
    script', turn' := script, turn;
    if step.PongArrives? {
      turn' := ObservePong(c, s, script, turn);
    } else if step.Timeout? {
      ObserveTimeout(c, s, script, turn);
    } else if !step.Pub? {
      ObserveOther(c, s, step, script, turn);
    } else if Finishing(s) {
      ObserveFinish(c, s, step.ok, script, turn);
    } else {
      script', turn' := ObservePub(c, s, step.ok, script, turn);
    }
  }

  /** The finalization loop and the other node leave the observation as it is. */
  lemma ObserveFinish(c: Config, s: State, ok: bool, script: seq<Turn>, turn: Turn)
    requires Finishing(s) && Matches(c, s, script, turn)
    ensures Matches(c, PubStep(c, s, ok), script, turn)
  {
    FinishStep(c, s, ok);
  }

  lemma ObserveOther(c: Config, s: State, step: Step, script: seq<Turn>, turn: Turn)
    requires Looping(s) && Matches(c, s, script, turn) && Enabled(c, s, step)
    requires !step.Pub? && !step.PongArrives? && !step.Timeout?
    ensures Matches(c, Apply(c, s, step), script, turn)
  {
  }

  /** The reset leaves the observation empty and the statistics at zero. */
  lemma ObserveStart(c: Config, steps: seq<Step>, s: State, step: Step)
    requires Reaches(c, steps, s) && Enabled(c, s, step) && !Looping(s) && Looping(Apply(c, s, step))
    ensures Matches(c, Apply(c, s, step), [], IDLE)
  {
    Conservation.InvAlways(c, steps, s);
    Tokens.InvAlways(c, steps, s);
    assert ResetStats(s.ctx) == ZERO_CTX;
  }

  /** A wait that times out leaves the token as absent as a successful one. */
  lemma ObserveTimeout(c: Config, s: State, script: seq<Turn>, turn: Turn)
    requires s.pc.Wait? && Matches(c, s, script, turn) && Enabled(c, s, Timeout)
    ensures Matches(c, Apply(c, s, Timeout), script, turn)
  {
  }

  /** So on every run the data written is as configured, one sample per success. */
  lemma RunWritesInOrder(c: Config, steps: seq<Step>, s: State)
    requires SizeFits(c.dataLen, c.maxPayload) && Reaches(c, steps, s)
    ensures |s.audit.sent| == s.total && AsConfigured(c, s.audit.sent, s.number)
  {
    if Looping(s) {
      var script, turn := RunIsLoop(c, steps, s);
      var l := Observed(c, script);
      WrittenInOrder(c, ZERO_CTX, script);
      StandWrites(c, s, l, FeedPongs(c.history, l.ctx, turn.pongs), turn);
    } else {
      Tokens.InvAlways(c, steps, s);
    }
  }

  lemma StandWrites(c: Config, s: State, l: Local, x: Ctx, turn: Turn)
    requires Looping(s) && StandsAt(c, s, l, x, turn) && l.number >= 0
    requires |l.written| == l.total && AsConfigured(c, l.written, l.number)
    ensures |s.audit.sent| == s.total && AsConfigured(c, s.audit.sent, s.number)
  {
    WritesNext(c, l.written, l.number + 1, turn);
  }

  // ---- The finalization loop -------------------------------------------------------------

  /** The statistics the finalization loop starts from: those captured, and the pongs handled before its first test. */
  function FinStart(c: Config, s: State, early: seq<Arrival>): Ctx
    requires s.captured.Some?
  {
    FeedPongs(c.history, s.captured.value.ctx, early)
  }

  /** No test before the n-th found the peer finished. */
  ghost predicate Unanswered(capacity: nat, x: Ctx, script: seq<FinTurn>, n: nat)
    requires n <= |script|
  {
    forall j :: 0 <= j < n ==> !FinCtx(capacity, x, script, j).finishedRemote
  }

  /** The run stands where the finalization loop stands after `script` and the part of the next turn in `turn`. */
  ghost predicate FinMatches(c: Config, steps: seq<Step>, s: State, early: seq<Arrival>, script: seq<FinTurn>, turn: FinTurn) {
    && s.captured.Some?
    && var x, n, wrote := FinStart(c, s, early), |script|, Tally(c, steps, Wrote(Finalization));
       && Unanswered(c.history, x, script, n)
       && match s.pc
          case Fin(k) => k == n <= 10 && s.ctx == FinCtx(c.history, x, script, n) && wrote == FinWrites(script, n)
          case FinRest(k, _) =>
            && k == n < 10 && !FinCtx(c.history, x, script, n).finishedRemote
            && s.ctx == FeedPongs(c.history, FinCtx(c.history, x, script, n), turn.pongs)
            && wrote == FinWrites(script, n) + (if turn.ok then 1 else 0)
          case Done(k) =>
            && k == n <= 10 && s.ctx == FinCtx(c.history, x, script, n) && wrote == FinWrites(script, n)
            && (n == 10 || s.ctx.finishedRemote)
          case _ => false
  }

  /**
   * The finalization loop of every run is Finalize's: there is a script of its environment after which the
   * loop has the run's turns, statistics and successful writes, and stops where the run is done.
   */
  lemma {:induction false} RunIsFinalize(c: Config, steps: seq<Step>, s: State)
    returns (early: seq<Arrival>, script: seq<FinTurn>, turn: FinTurn)
    requires Reaches(c, steps, s) && Finishing(s)
    ensures FinMatches(c, steps, s, early, script, turn)
  {
    var init, step := steps[..|steps| - 1], steps[|steps| - 1];
    var before := Exec(c, Init(c), init).value;
    assert steps == init + [step];
    early, script, turn := [], [], FinTurn(false, []);
    if !Finishing(before) {
      FinBegins(c, init, before, step);
    } else {
      early, script, turn := RunIsFinalize(c, init, before);
      TallyNext(c, init, before, step, Wrote(Finalization));
      early, script, turn := FinObserve(c, init, before, step, early, script, turn);
    }
  }

  lemma FinBegins(c: Config, init: seq<Step>, s: State, step: Step)
    requires Reaches(c, init, s) && Enabled(c, s, step) && !Finishing(s) && Finishing(Apply(c, s, step))
    ensures FinMatches(c, init + [step], Apply(c, s, step), [], [], FinTurn(false, []))
  {
    NoFinalYet(c, init, s);
    TallyNext(c, init, s, step, Wrote(Finalization));
    assert s.pc.Collect? && step.Pub?;
  }

  lemma {:induction false} NoFinalYet(c: Config, steps: seq<Step>, s: State)
    requires Reaches(c, steps, s) && !Finishing(s)
    ensures Tally(c, steps, Wrote(Finalization)) == 0
  {
    if steps != [] {
      var init, step := steps[..|steps| - 1], steps[|steps| - 1];
      var before := Exec(c, Init(c), init).value;
      if Finishing(before) {
        StaysFinishing(c, before, step);
      }
      NoFinalYet(c, init, before);
    }
  }

  lemma StaysFinishing(c: Config, s: State, step: Step)
    requires Finishing(s) && Enabled(c, s, step)
    ensures Finishing(Apply(c, s, step)) && Apply(c, s, step).captured == s.captured
  {
  }

  lemma FinObserve(c: Config, init: seq<Step>, s: State, step: Step, early: seq<Arrival>, script: seq<FinTurn>, turn: FinTurn)
    returns (early': seq<Arrival>, script': seq<FinTurn>, turn': FinTurn)
    requires Finishing(s) && Enabled(c, s, step) && FinMatches(c, init, s, early, script, turn)
    requires Tally(c, init + [step], Wrote(Finalization)) == Tally(c, init, Wrote(Finalization)) + One(c, Wrote(Finalization), s, step)
    ensures FinMatches(c, init + [step], Apply(c, s, step), early', script', turn')
  {
    early', script', turn' := early, script, turn;
    var x := FinStart(c, s, early);
    if step.Pub? {
      if s.pc.Fin? {
        turn' := FinTurn(step.ok, []);
      } else if s.pc.FinRest? {
        script' := script + [turn];
        FinExtends(c.history, x, script, turn);
      }
    } else if step.PongArrives? {
      var a := Arrival(s.pong[0], s.clock);
      if s.pc.FinRest? {
        turn' := turn.(pongs := turn.pongs + [a]);
        OneMorePong(c.history, FinCtx(c.history, x, script, |script|), turn.pongs, a);
      } else if script == [] {
        early' := early + [a];
        OneMorePong(c.history, s.captured.value.ctx, early, a);
      } else {
        script' := LastTurnPlus(c.history, x, script, a);
      }
    }
  }

  /** A turn behind the script leaves what is before it alone. */
  lemma {:induction false} FinPrefix(capacity: nat, x: Ctx, xs: seq<FinTurn>, ys: seq<FinTurn>, n: nat)
    requires n <= |xs| && n <= |ys| && xs[..n] == ys[..n]
    ensures FinCtx(capacity, x, xs, n) == FinCtx(capacity, x, ys, n) && FinWrites(xs, n) == FinWrites(ys, n)
  {
    if n > 0 {
      assert xs[..n - 1] == xs[..n][..n - 1] && ys[..n - 1] == ys[..n][..n - 1];
      assert xs[n - 1] == xs[..n][n - 1] && ys[n - 1] == ys[..n][n - 1];
      FinPrefix(capacity, x, xs, ys, n - 1);
    }
  }

  lemma FinExtends(capacity: nat, x: Ctx, script: seq<FinTurn>, turn: FinTurn)
    requires Unanswered(capacity, x, script, |script|) && !FinCtx(capacity, x, script, |script|).finishedRemote
    ensures var more := script + [turn];
            && Unanswered(capacity, x, more, |more|)
            && FinCtx(capacity, x, more, |more|) == FeedPongs(capacity, FinCtx(capacity, x, script, |script|), turn.pongs)
            && FinWrites(more, |more|) == FinWrites(script, |script|) + (if turn.ok then 1 else 0)
  {
    var more := script + [turn];
    forall j | 0 <= j <= |script|
      ensures FinCtx(capacity, x, more, j) == FinCtx(capacity, x, script, j) && FinWrites(more, j) == FinWrites(script, j)
    {
      assert more[..j] == script[..j];
      FinPrefix(capacity, x, more, script, j);
    }
  }

  /** A pong handled between a turn and the next test belongs to that turn. */
  lemma LastTurnPlus(capacity: nat, x: Ctx, script: seq<FinTurn>, a: Arrival) returns (script': seq<FinTurn>)
    requires script != [] && Unanswered(capacity, x, script, |script|)
    ensures |script'| == |script| && Unanswered(capacity, x, script', |script'|)
    ensures FinCtx(capacity, x, script', |script|) == OnPong(capacity, FinCtx(capacity, x, script, |script|), a.sample, a.at)
    ensures FinWrites(script', |script|) == FinWrites(script, |script|)
  {
    var n := |script| - 1;
    var last := script[n];
    script' := script[..n] + [last.(pongs := last.pongs + [a])];
    forall j | 0 <= j <= n
      ensures FinCtx(capacity, x, script', j) == FinCtx(capacity, x, script, j) && FinWrites(script', j) == FinWrites(script, j)
    {
      assert script'[..j] == script[..j];
      FinPrefix(capacity, x, script', script, j);
    }
    OneMorePong(capacity, FinCtx(capacity, x, script, n), last.pongs, a);
  }
}
