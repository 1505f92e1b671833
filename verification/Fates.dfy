/**
 * What the environment can do to a throughput test: any pattern of refused, lost and received samples is a
 * run, without -rel, and any without losses with it. The accounting theorems are about all of these.
 */
module Fates {
  import opened Samples
  import opened Protocol
  import Pacing
  import Conservation

  /** What becomes of one sample of the send loop. */
  datatype Fate = Refused | Lost | Received

  function Count(fates: seq<Fate>, f: Fate): nat {
    if fates == [] then 0 else Count(fates[..|fates| - 1], f) + (if fates[|fates| - 1] == f then 1 else 0)
  }

  /** The number of the last sample received, 0 when none is. */
  function LastReceived(fates: seq<Fate>): nat {
    if fates == [] then 0
    else if fates[|fates| - 1].Received? then |fates|
    else LastReceived(fates[..|fates| - 1])
  }

  function FirstReceived(fates: seq<Fate>): nat {
    if fates == [] then 0
    else
      var f := FirstReceived(fates[..|fates| - 1]);
      if f == 0 && fates[|fates| - 1].Received? then |fates| else f
  }

  /** The state a pattern of fates leads to at the loop test behind its last turn. */
  ghost predicate Fated(c: Config, fates: seq<Fate>, s: State) {
    && s.pc.Guard? && s.number == |fates| && s.clock == s.t0 + Pacing.After(c, |fates|)
    && s.ping == [] && s.subReset && !s.subDown && !s.sub.finished && !s.ctx.finishedRemote
    && s.audit.failed == Count(fates, Refused)
    && s.total == Count(fates, Lost) + Count(fates, Received)
    && s.sub.total == Count(fates, Received)
    && s.sub.lastSeq == LastReceived(fates) && s.audit.first == FirstReceived(fates)
  }

  /** The first half of a turn: the sample is numbered and written, or refused. */
  lemma SampleSent(c: Config, steps: seq<Step>, s: State, ok: bool) returns (steps': seq<Step>, s': State)
    requires !c.latencyTest && Reaches(c, steps, s)
    requires s.pc.Guard? && s.clock - s.t0 < TimeoutUs(c) && s.ping == []
    ensures Reaches(c, steps', s') && s'.pc == Rest(s.clock + SleepUs(c)) && s'.number == s.number + 1
    ensures s'.sample.IsData() && s'.sample.num == s'.number && s'.ping == if ok then [s'.sample] else []
    ensures s'.audit.failed == s.audit.failed + (if ok then 0 else 1) && s'.total == s.total + (if ok then 1 else 0)
    ensures s' == s.(pc := s'.pc, number := s'.number, sample := s'.sample, ping := s'.ping, total := s'.total, audit := s'.audit)
    ensures s'.audit.first == s.audit.first
  {
    steps', s' := Extend(c, steps, s, Pub(true));
    steps', s' := Extend(c, steps', s', Pub(true));
    steps', s' := Extend(c, steps', s', Pub(ok));
  }

  /** The second half: it is received or lost, if it was written, and the sleep passes. */
  lemma SampleMet(c: Config, steps: seq<Step>, s: State, f: Fate) returns (steps': seq<Step>, s': State)
    requires (c.reliable ==> !f.Lost?) && Reaches(c, steps, s) && s.pc == Rest(s.clock + SleepUs(c))
    requires s.sample.IsData() && s.sample.num == s.number > 0 && s.ping == if f.Refused? then [] else [s.sample]
    requires !s.subDown && !s.sub.finished && s.subReset
    ensures Reaches(c, steps', s') && s'.pc.Guard? && s'.clock == s.clock + SleepUs(c) && s'.ping == []
    ensures s'.sub.total == s.sub.total + (if f.Received? then 1 else 0) && !s'.sub.finished
    ensures s'.sub.lastSeq == (if f.Received? then s.number else s.sub.lastSeq)
    ensures s'.audit.first == (if f.Received? && s.audit.first == 0 then s.number else s.audit.first)
    ensures s' == s.(pc := Guard, clock := s'.clock, ping := [], pong := s'.pong, sub := s'.sub, audit := s'.audit)
    ensures s'.audit.failed == s.audit.failed
  {
    steps', s' := steps, s;
    if f.Received? {
      steps', s' := Extend(c, steps, s, PingArrives);
    } else if f.Lost? {
      steps', s' := Extend(c, steps, s, DropPing(0));
    }
    steps', s' := Extend(c, steps', s', Tick(SleepUs(c)));
    steps', s' := Extend(c, steps', s', Pub(true));
  }

  /** Every pattern of fates that fits the test is a run. */
  lemma {:induction false} AnyFates(c: Config, fates: seq<Fate>) returns (steps: seq<Step>, s: State)
    requires !c.latencyTest && (c.reliable ==> Lost !in fates) && Pacing.WithinTest(c, |fates|)
    ensures Reaches(c, steps, s) && Fated(c, fates, s)
  {
    if fates == [] {
      steps, s := Pacing.StartRun(c);
      steps, s := Extend(c, steps, s, SubReset);
    } else {
      var init := fates[..|fates| - 1];
      Pacing.EarlierWithinTest(c, |fates|);
      steps, s := AnyFates(c, init);
      Pacing.AfterNext(c, |init|);
      steps, s := SampleSent(c, steps, s, !fates[|init|].Refused?);
      steps, s := SampleMet(c, steps, s, fates[|init|]);
    }
  }

  /**
   * And it can end in an answered finalization, with the subscriber reporting what conservation says: every
   * sample behind the first received one that was not received, or all of them.
   */
  lemma AnyFatesReported(c: Config, fates: seq<Fate>) returns (steps: seq<Step>, s: State)
    requires !c.latencyTest && (c.reliable ==> Lost !in fates) && Pacing.WithinTest(c, |fates|)
    ensures Reaches(c, steps, s) && s.ctx.finishedRemote && s.sub.finished && s.lastSeq == |fates|
    ensures s.sub.total == Count(fates, Received)
    ensures s.sub.lost == if FirstReceived(fates) == 0 then |fates|
                          else |fates| - (FirstReceived(fates) - 1) - Count(fates, Received)
  {
    steps, s := AnyFates(c, fates);
    steps, s := FinishRun(c, steps, s);
    Conservation.Conservation(c, steps, s);
  }

  /** Time runs out, and the first finalization is handled. */
  lemma FinishRun(c: Config, steps: seq<Step>, s: State) returns (steps': seq<Step>, s': State)
    requires Reaches(c, steps, s) && s.pc.Guard? && s.t0 <= s.clock && s.ping == [] && !s.subDown && !s.ctx.finishedRemote
    ensures Reaches(c, steps', s') && s'.sub.finished && s'.lastSeq == s.number
    ensures s'.sub.total == s.sub.total && s'.audit.first == s.audit.first && s'.ctx.finishedRemote
  {
    steps', s' := FinalSent(c, steps, s);
    steps', s' := Extend(c, steps', s', PingArrives);
    steps', s' := PongsHandled(c, steps', s');
  }

  lemma FinalSent(c: Config, steps: seq<Step>, s: State) returns (steps': seq<Step>, s': State)
    requires Reaches(c, steps, s) && s.pc.Guard? && s.t0 <= s.clock && s.ping == [] && !s.ctx.finishedRemote
    ensures Reaches(c, steps', s') && s'.pc == FinRest(0, s'.clock + 50000) && s'.lastSeq == s.number && s'.ctx == s.ctx
    ensures s'.ping == [s'.sample] && s'.sample.kind == Finalization && s'.pong == s.pong
    ensures s'.sub == s.sub && s'.subReset == s.subReset && s'.subDown == s.subDown && s'.audit == s.audit
  {
    steps', s' := Extend(c, steps, s, Tick(TimeoutUs(c)));
    steps', s' := Extend(c, steps', s', Pub(true));
    steps', s' := Extend(c, steps', s', Pub(true));
    steps', s' := Extend(c, steps', s', Pub(true));
  }

  /** Handling everything on the pong channel, the finalization's echo at its end. */
  lemma {:induction false} PongsHandled(c: Config, steps: seq<Step>, s: State) returns (steps': seq<Step>, s': State)
    requires Reaches(c, steps, s) && s.pong != [] && s.pong[|s.pong| - 1].kind.Finalization? && !s.pc.Done?
    ensures Reaches(c, steps', s') && s'.ctx.finishedRemote
    ensures s'.sub == s.sub && s'.lastSeq == s.lastSeq && s'.audit.first == s.audit.first
    decreases |s.pong|
  {
    steps', s' := Extend(c, steps, s, PongArrives);
    if |s.pong| > 1 {
      steps', s' := PongsHandled(c, steps', s');
    }
  }

  // ---- Giving up on a subscriber that has finished ----------------------------------------

  /** Every queued pong is lost. */
  lemma {:induction false} PongsLost(c: Config, steps: seq<Step>, s: State) returns (steps': seq<Step>, s': State)
    requires (c.reliable ==> s.subDown) && Reaches(c, steps, s)
    ensures Reaches(c, steps', s') && s' == s.(pong := [])
    decreases |s.pong|
  {
    steps', s' := steps, s;
    if s.pong != [] {
      steps', s' := Extend(c, steps, s, DropPong(0));
      steps', s' := PongsLost(c, steps', s');
    }
  }

  /** Unanswered to the end: the remaining finalizations are sent, 50 ms apart, to no avail. */
  lemma {:induction false} GiveUp(c: Config, steps: seq<Step>, s: State) returns (steps': seq<Step>, s': State)
    requires Reaches(c, steps, s) && s.pc.FinRest? && s.pc.k < 10 && s.pc.wake <= s.clock + 50000 && !s.ctx.finishedRemote
    ensures Reaches(c, steps', s') && s'.pc == Done(10)
    ensures s' == s.(pc := s'.pc, clock := s'.clock, ping := s'.ping)
    decreases 10 - s.pc.k
  {
    steps', s' := Extend(c, steps, s, Tick(50000));
    steps', s' := Extend(c, steps', s', Pub(true));
    steps', s' := Extend(c, steps', s', Pub(true));
    if !s'.pc.Done? {
      steps', s' := GiveUp(c, steps', s');
    }
  }

  /**
   * A publisher that gives up after ten finalizations cannot tell a silent subscriber from one that
   * finished and shut down before its echo left: for every pattern of fates there is such a run, its
   * counters settled.
   */
  lemma GivesUpThoughSettled(c: Config, fates: seq<Fate>) returns (steps: seq<Step>, s: State)
    requires !c.latencyTest && (c.reliable ==> Lost !in fates) && Pacing.WithinTest(c, |fates|)
    ensures Reaches(c, steps, s) && s.pc == Done(10) && !s.ctx.finishedRemote && !Conservation.Answerable(s)
    ensures s.subDown && Conservation.Settled(c, s) && s.sub.total == Count(fates, Received)
  {
    steps, s := AnyFates(c, fates);
    steps, s := FinalSent(c, steps, s);
    steps, s := Extend(c, steps, s, PingArrives);
    steps, s := Extend(c, steps, s, SubStop);
    steps, s := PongsLost(c, steps, s);
    steps, s := GiveUp(c, steps, s);
    Conservation.InvAlways(c, steps, s);
    Conservation.SettledIff(c, steps, s);
  }
}
