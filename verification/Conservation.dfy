/**
 * Sample accounting across both nodes: order on the ping channel, causality of finalization, and the
 * conservation equation, on a channel that keeps order but may lose, with writes that may fail.
 */
module Conservation {
  import opened Samples
  import opened Subscriber
  import opened Protocol
  import Pacing

  /** The largest data number whose write has been attempted. */
  function Attempted(s: State): int { if s.pc.Write? then s.number - 1 else s.number }

  /** What the main loop's position says about its variables. */
  ghost predicate Phases(s: State) {
    && s.number == s.total + s.audit.failed + (if s.pc.Write? then 1 else 0)
    && (s.pc.Warm? ==> s.sample.kind.Initialization?)
    && (Warming(s) ==> s.number == 0)
    && (s.pc.Write? ==> s.sample.IsData() && s.sample.num == s.number)
    && (Finishing(s) ==> s.lastSeq == s.number && s.sample.kind.Finalization? && s.sample.num == s.number)
    && (Finishing(s) <==> s.captured.Some?)
  }

  /** Warm-up traffic, then data in increasing number, then finalizations with the last number. */
  ghost predicate InOrder(q: seq<Sample>, above: int, last: int, finishing: bool) {
    && (forall i :: 0 <= i < |q| && q[i].IsData() ==> above < q[i].num <= last)
    && (forall i :: 0 <= i < |q| && q[i].kind.Finalization? ==> finishing && q[i].num == last)
    && forall i, j :: 0 <= i < j < |q| ==>
         && (q[i].IsData() && q[j].IsData() ==> q[i].num < q[j].num)
         && (q[i].kind.Finalization? ==> q[j].kind.Finalization?)
         && (q[j].kind.Initialization? ==> q[i].kind.Initialization?)
  }

  /** A finalization is handled only after the publisher's loop ended, and nothing follows it but its repeats. */
  ghost predicate Causal(s: State) {
    && InOrder(s.ping, s.sub.lastSeq, Attempted(s), Finishing(s))
    && (s.audit.finSeen.Some? ==> Finishing(s) && s.audit.finSeen == Some(s.number) && NoData(s.ping))
    && (forall i :: 0 <= i < |s.pong| && s.pong[i].kind.Finalization? ==> s.audit.finSeen.Some?)
    && (s.ctx.finishedRemote ==> s.audit.finSeen.Some?)
    && (s.pc.Done? && s.pc.k < 10 ==> s.ctx.finishedRemote)
  }

  /** The subscriber's counters against the numbers handed to it since its reset. */
  ghost predicate Accounts(s: State) {
    && 0 <= s.sub.lastSeq <= Attempted(s)
    && (s.sub.total == 0 <==> s.audit.first == 0)
    && (s.sub.total == 0 <==> s.sub.lastSeq == 0)
    && 0 <= s.audit.first
    && (s.sub.finished <==> s.audit.finSinceReset)
    && (s.audit.finSinceReset ==> s.audit.finSeen.Some?)
    && (s.subDown ==> s.subReset && s.sub.finished)
    && var upTo := if s.sub.finished then s.number else s.sub.lastSeq;
       if s.sub.total == 0 then s.sub.lost == upTo
       else s.sub.total + s.sub.lost + (s.audit.first - 1) == upTo
  }

  ghost predicate Inv(s: State) { Phases(s) && Causal(s) && Accounts(s) }

  /** Appending a sample that no queued one outranks keeps the order. */
  lemma AppendInOrder(q: seq<Sample>, above: int, last: int, last': int, finishing: bool, m: Sample)
    requires InOrder(q, above, last, finishing) && last <= last' && above <= last
    requires finishing ==> last == last'
    requires m.IsData() ==> !finishing && last < m.num <= last'
    requires m.kind.Finalization? ==> finishing && m.num == last
    requires m.kind.Initialization? ==> !finishing && NoData(q)
    ensures InOrder(q + [m], above, last', finishing)
  {
  }

  lemma InvWarm(c: Config, s: State, ok: bool)
    requires Inv(s) && s.pc.Warm?
    ensures Inv(WarmStep(c, s, ok))
  {
    var s' := WarmStep(c, s, ok);
    if s'.ping != s.ping {
      AppendInOrder(s.ping, s.sub.lastSeq, Attempted(s), Attempted(s'), Finishing(s), s'.sample);
    }
  }

  lemma InvWrite(c: Config, s: State, ok: bool)
    requires Inv(s) && s.pc.Write?
    ensures Inv(WriteStep(c, s, ok))
  {
    if ok {
      AppendInOrder(s.ping, s.sub.lastSeq, s.number - 1, s.number, false, s.sample);
    } else {
      LaterInOrder(s.ping, s.sub.lastSeq, s.number - 1, s.number);
    }
  }

  lemma InvFin(c: Config, s: State, ok: bool)
    requires Inv(s) && s.pc.Fin?
    ensures Inv(FinStep(c, s, ok))
  {
    if FinStep(c, s, ok).ping != s.ping {
      AppendInOrder(s.ping, s.sub.lastSeq, s.number, s.number, true, s.sample);
    }
  }

  /** Raising the bound on data numbers keeps the order. */
  lemma LaterInOrder(q: seq<Sample>, above: int, last: int, last': int)
    requires InOrder(q, above, last, false) && last <= last'
    ensures InOrder(q, above, last', false)
  {
  }

  lemma InvCollect(s: State)
    requires Inv(s) && s.pc.Collect?
    ensures Inv(CollectStep(s))
  {
  }

  lemma InvPub(c: Config, s: State, ok: bool)
    requires Inv(s) && Enabled(c, s, Pub(ok))
    ensures Inv(PubStep(c, s, ok))
  {
    if s.pc.Warm? {
      InvWarm(c, s, ok);
    } else if s.pc.Write? {
      InvWrite(c, s, ok);
    } else if s.pc.Fin? {
      InvFin(c, s, ok);
    } else if s.pc.Collect? {
      InvCollect(s);
    } else {
      InvQuiet(c, s, ok);
    }
  }

  /** A main-loop step that neither writes nor captures. */
  lemma InvQuiet(c: Config, s: State, ok: bool)
    requires Inv(s) && !Sends(s) && !s.pc.Collect?
    ensures Inv(PubStep(c, s, ok))
  {
    QuietStep(c, s, ok);
    assert Attempted(PubStep(c, s, ok)) == Attempted(s);
  }

  lemma InvPong(c: Config, s: State)
    requires Inv(s) && s.pong != []
    ensures Inv(PongStep(c, s))
  {
  }

  lemma InvPing(s: State)
    requires Inv(s) && s.ping != []
    ensures Inv(PingStep(s))
  {
  }

  lemma InvStep(c: Config, s: State, step: Step)
    requires Inv(s) && Enabled(c, s, step)
    ensures Inv(Apply(c, s, step))
  {
    match step {
      case Pub(ok) => InvPub(c, s, ok);
      case PongArrives => InvPong(c, s);
      case PingArrives => InvPing(s);
      case DropPing(i) => DropInOrder(s.ping, i, s.sub.lastSeq, Attempted(s), Finishing(s));
      case SubReset => InvReset(c, s);
      case _ =>
    }
  }

  lemma DropInOrder(q: seq<Sample>, i: nat, above: int, last: int, finishing: bool)
    requires i < |q| && InOrder(q, above, last, finishing)
    ensures InOrder(Without(q, i), above, last, finishing)
    ensures NoData(q) ==> NoData(Without(q, i))
  {
  }

  lemma InvReset(c: Config, s: State)
    requires Inv(s) && !s.subReset
    ensures Inv(Apply(c, s, SubReset))
  {
  }

  lemma InvAlways(c: Config, steps: seq<Step>, s: State)
    requires Reaches(c, steps, s)
    ensures Inv(s)
  {
    forall t, step | Inv(t) && Enabled(c, t, step) ensures Inv(Apply(c, t, step)) {
      InvStep(c, t, step);
    }
    RunInduction(c, steps, s, t => Inv(t));
  }

  /** The subscriber shuts down only after a finalization. */
  lemma DownIsFinishing(s: State)
    requires Inv(s)
    ensures s.subDown ==> Finishing(s)
  {
  }

  // ---- What every run guarantees ---------------------------------------------------------

  /** The conservation equation between the subscriber's counters and the publisher's. */
  ghost predicate Conserved(s: State) {
    && s.lastSeq == s.total + s.audit.failed
    && if s.audit.first == 0 then s.sub.total == 0 && s.sub.lost == s.lastSeq
       else s.sub.total + s.sub.lost + (s.audit.first - 1) == s.lastSeq
  }

  /**
   * Once the subscriber has finished, received, reported lost and unseen-leading samples account for
   * every number; so the report is the whole loss exactly when the first sample it saw was number 1, or
   * it saw none.
   */
  lemma Conservation(c: Config, steps: seq<Step>, s: State)
    requires Reaches(c, steps, s) && s.sub.finished
    ensures Conserved(s)
    ensures s.sub.lost == s.lastSeq - s.sub.total <==> s.audit.first <= 1
  {
    InvAlways(c, steps, s);
  }

  /** The publisher sees its peer finished only after the subscriber handled the last sequence number. */
  lemma FinalizationCausality(c: Config, steps: seq<Step>, s: State)
    requires Reaches(c, steps, s) && s.ctx.finishedRemote
    ensures Finishing(s) && s.audit.finSeen == Some(s.lastSeq)
  {
    InvAlways(c, steps, s);
  }

  ghost predicate HoldsFinal(q: seq<Sample>) {
    exists i :: 0 <= i < |q| && q[i].kind.Finalization?
  }

  predicate CallbacksOnly(steps: seq<Step>) {
    forall step :: step in steps ==> step.PingArrives? || step.PongArrives?
  }

  /** Callbacks alone can bring the publisher its answer. */
  ghost predicate Answered(c: Config, s: State) {
    exists more, t :: CallbacksOnly(more) && Exec(c, s, more) == Some(t) && t.ctx.finishedRemote
  }

  /** The flag is set, or an echo is in flight to a publisher still up, or a finalization to a subscriber still up. */
  ghost predicate Answerable(s: State) {
    s.ctx.finishedRemote || (!s.pc.Done? && (HoldsFinal(s.pong) || (!s.subDown && HoldsFinal(s.ping))))
  }

  /**
   * The finalization handshake: what is in flight can still answer the publisher exactly in the
   * answerable states. A finalization that arrives after the subscriber shut down is never echoed.
   */
  lemma AnsweredIff(c: Config, s: State)
    ensures Answered(c, s) <==> Answerable(s)
  {
    if Answerable(s) {
      var more, t := AnswerRun(c, s);
    } else {
      forall more, t | CallbacksOnly(more) && Exec(c, s, more) == Some(t) ensures !t.ctx.finishedRemote {
        StaysUnanswerable(c, s, more, t);
      }
    }
  }

  lemma {:induction false} AnswerRun(c: Config, s: State) returns (more: seq<Step>, t: State)
    requires Answerable(s)
    ensures CallbacksOnly(more) && Exec(c, s, more) == Some(t) && t.ctx.finishedRemote
    decreases 2 * |s.ping| + |s.pong|
  {
    if s.ctx.finishedRemote {
      return [], s;
    }
    var step := if s.ping != [] && !s.subDown then PingArrives else PongArrives;
    FinalTravels(c, s, step);
    assert [step][..0] == [];
    assert Exec(c, s, [step]) == Some(Apply(c, s, step));
    var rest, end := AnswerRun(c, Apply(c, s, step));
    ExecConcat(c, s, [step], rest);
    return [step] + rest, end;
  }

  /** Handling a sample moves a finalization on, or its echo into the flag. */
  lemma FinalTravels(c: Config, s: State, step: Step)
    requires step == if s.ping != [] && !s.subDown then PingArrives else PongArrives
    requires Answerable(s) && !s.ctx.finishedRemote
    ensures Enabled(c, s, step) && Answerable(Apply(c, s, step))
  {
    var t := Apply(c, s, step);
    if step.PingArrives? && HoldsFinal(s.ping) {
      var i :| 0 <= i < |s.ping| && s.ping[i].kind.Finalization?;
      if i == 0 {
        assert t.pong[|s.pong|] == s.ping[0];
      } else {
        assert t.ping[i - 1] == s.ping[i];
      }
    } else {
      var i :| 0 <= i < |s.pong| && s.pong[i].kind.Finalization?;
      if step.PingArrives? {
        assert t.pong[i] == s.pong[i];
      } else if i > 0 {
        assert t.pong[i - 1] == s.pong[i];
      }
    }
  }

  lemma {:induction false} StaysUnanswerable(c: Config, s: State, more: seq<Step>, t: State)
    requires !Answerable(s) && CallbacksOnly(more) && Exec(c, s, more) == Some(t)
    ensures !Answerable(t)
  {
    if more != [] {
      var init, step := more[..|more| - 1], more[|more| - 1];
      var before := Exec(c, s, init).value;
      StaysUnanswerable(c, s, init, before);
      assert step.PingArrives? || step.PongArrives?;
      NoFinalAppears(c, before, step);
    }
  }

  lemma NoFinalAppears(c: Config, s: State, step: Step)
    requires !Answerable(s) && Enabled(c, s, step) && (step.PingArrives? || step.PongArrives?)
    ensures !Answerable(Apply(c, s, step))
  {
    if step.PongArrives? {
      assert s.pong[0] in s.pong && !s.pong[0].kind.Finalization?;
    }
  }

  /** A finished subscriber whose reset is behind it never changes again. */
  lemma {:induction false} FinishedIsFinal(c: Config, steps: seq<Step>, s: State, more: seq<Step>, t: State)
    requires Reaches(c, steps, s) && s.sub.finished && s.subReset
    requires Exec(c, s, more) == Some(t)
    ensures t.sub == s.sub && t.subReset && t.audit.first == s.audit.first
    ensures Reaches(c, steps + more, t)
  {
    ExecConcat(c, Init(c), steps, more);
    if more != [] {
      var init := more[..|more| - 1];
      var before := Exec(c, s, init).value;
      FinishedIsFinal(c, steps, s, init, before);
      InvAlways(c, steps + init, before);
    }
  }

  /** The subscriber's counters are complete, conserved, and no continuation of the run changes them. */
  ghost predicate Settled(c: Config, s: State) {
    && s.sub.finished && Conserved(s)
    && forall more, t :: Exec(c, s, more) == Some(t) ==> t.sub == s.sub
  }

  /** In every reachable state: settled exactly when the reset is past and a finalization was handled since. */
  lemma SettledIff(c: Config, steps: seq<Step>, s: State)
    requires Reaches(c, steps, s)
    ensures Settled(c, s) <==> s.subReset && s.audit.finSinceReset
  {
    InvAlways(c, steps, s);
    if s.subReset && s.audit.finSinceReset {
      Conservation(c, steps, s);
      forall more, t | Exec(c, s, more) == Some(t) ensures t.sub == s.sub {
        FinishedIsFinal(c, steps, s, more, t);
      }
    } else if !s.subReset {
      assert [SubReset][..0] == [];
      assert Exec(c, s, [SubReset]) == Some(Apply(c, s, SubReset));
    }
  }

  /**
   * A publisher that stops before its tenth finalization knows that its last number was handled; the
   * counters are settled exactly when a finalization was handled after the subscriber's reset.
   */
  lemma EarlyStopIsFinal(c: Config, steps: seq<Step>, s: State)
    requires Reaches(c, steps, s) && s.pc.Done? && s.pc.k < 10
    ensures s.audit.finSeen == Some(s.lastSeq)
    ensures Settled(c, s) <==> s.subReset && s.audit.finSinceReset
  {
    InvAlways(c, steps, s);
    SettledIff(c, steps, s);
  }

  /** A one-second test of one sample, without -rel or -latencyTest. */
  const ONE_SAMPLE := Config(false, 10000, false, 1, 1, 0, 100, 1234, 50, 65000, 0, 0)

  /** From the start to the state in which the only sample is being paced, received and counted. */
  lemma OneSampleRun() returns (steps: seq<Step>, s: State)
    ensures Reaches(ONE_SAMPLE, steps, s) && s.pc == Rest(s.clock + 1000000) && s.t0 == s.clock
    ensures s.number == s.total == 1 && s.ping == [] && s.pong == [] && !s.ctx.finishedRemote
    ensures !s.subReset && !s.subDown && s.sub.total == s.sub.lastSeq == 1 && s.sub.lost == 0 && s.audit.first == 1 && s.audit.failed == 0
  {
    var c := ONE_SAMPLE;
    steps, s := Pacing.StartRun(c);
    steps, s := Extend(c, steps, s, Pub(true));
    steps, s := Extend(c, steps, s, Pub(true));
    steps, s := Extend(c, steps, s, Pub(true));
    steps, s := Extend(c, steps, s, PingArrives);
  }

  /** The pacing over, the loop ends and the first finalization is sent. */
  lemma FinalRun(c: Config, steps: seq<Step>, s: State) returns (steps': seq<Step>, s': State)
    requires Reaches(c, steps, s) && s.pc.Rest? && s.pc.wake <= s.clock && s.clock - s.t0 >= TimeoutUs(c)
    requires !s.ctx.finishedRemote
    ensures Reaches(c, steps', s') && s'.pc == FinRest(0, s.clock + 50000) && s'.clock == s.clock
    ensures s'.ping == s.ping + [s'.sample] && s'.sample.kind == Finalization && s'.sample.num == s.number
    ensures s'.pong == s.pong && s'.sub == s.sub && s'.subReset == s.subReset && s'.subDown == s.subDown
    ensures s'.lastSeq == s.number && s'.total == s.total && s'.audit == s.audit
  {
    steps', s' := Extend(c, steps, s, Pub(true));
    steps', s' := Extend(c, steps', s', Pub(true));
    steps', s' := Extend(c, steps', s', Pub(true));
    steps', s' := Extend(c, steps', s', Pub(true));
  }

  /** From there to the finalization handled, with its echo in flight. */
  lemma AllCountedRun() returns (steps: seq<Step>, s: State)
    ensures Reaches(ONE_SAMPLE, steps, s) && s.pc == FinRest(0, s.clock + 50000) && !s.subReset
    ensures s.ping == [] && |s.pong| == 1 && s.pong[0].kind == Finalization
    ensures s.sub.finished && s.sub.total == s.total == s.lastSeq == 1 && Conserved(s)
  {
    var c := ONE_SAMPLE;
    steps, s := OneSampleRun();
    steps, s := Extend(c, steps, s, Tick(1000000));
    steps, s := FinalRun(c, steps, s);
    steps, s := Extend(c, steps, s, PingArrives);
  }

  /**
   * A reset that follows the finalization: a sample was sent, received and counted, and the counters were
   * conserved; the reset erases them and the finished flag, and the publisher, already answered, stops.
   */
  lemma LateResetLosesCounters() returns (c: Config, done: seq<Step>, counted: State, steps: seq<Step>, s: State)
    ensures c.exec == 1 && done <= steps
    ensures Reaches(c, done, counted) && counted.sub.finished && counted.sub.total == 1 && Conserved(counted)
    ensures Reaches(c, steps, s) && s.pc.Done? && s.pc.k < 10 && s.total == 1 && s.subReset
    ensures s.sub.total == 0 && !s.sub.finished && !Conserved(s) && s.ping == []
  {
    c := ONE_SAMPLE;
    done, counted := AllCountedRun();
    steps, s := AnsweredThenReset(c, done, counted);
  }

  /** The echo arrives, the late reset runs, and the publisher stops. */
  lemma AnsweredThenReset(c: Config, steps: seq<Step>, s: State) returns (steps': seq<Step>, s': State)
    requires Reaches(c, steps, s) && s.pc.FinRest? && s.pc.k == 0 && s.pc.wake <= s.clock + 50000
    requires s.ping == [] && |s.pong| == 1 && s.pong[0].kind == Finalization && !s.subReset
    ensures Reaches(c, steps', s') && steps <= steps' && s'.pc.Done? && s'.pc.k < 10 && s'.subReset
    ensures s'.total == s.total && s'.lastSeq == s.lastSeq && s'.sub == Reset(s.sub) && s'.ping == []
    ensures s'.audit.first == 0
  {
    steps', s' := Extend(c, steps, s, PongArrives);
    steps', s' := Extend(c, steps', s', SubReset);
    steps', s' := Extend(c, steps', s', Tick(50000));
    steps', s' := Extend(c, steps', s', Pub(true));
    steps', s' := Extend(c, steps', s', Pub(true));
  }
}
