/**
 * Counting pings through the whole loop: marked, written, in flight, answered, and the semaphore
 * tokens they turn into, in every mode and with every loss.
 */
module Tokens {
  import opened Samples
  import opened Subscriber
  import opened Protocol

  /** How many DATA_PINGs (or their echoes) a channel holds. */
  function Pings(q: seq<Sample>): nat { CountKind(q, DataPing) }

  ghost predicate PhaseCounts(c: Config, s: State) {
    && 0 <= s.number
    && (Warming(s) ==>
         s.number == 0 && s.total == 0 && s.audit.pings == 0 && s.audit.takes == 0 && s.audit.sent == [] && !s.ctx.token)
    && (s.pc.Warm? ==> s.sample.kind.Initialization?)
    && (s.pc.Write? ==> s.sample.IsData() && (s.sample.kind.DataPing? <==> IsPing(c, s.number)))
    && (Finishing(s) ==> s.sample.kind.Finalization?)
    && (s.pc.Wait? ==> c.latencyTest)
  }

  ghost predicate Flow(c: Config, s: State) {
    && |s.audit.lats| == s.ctx.count
    && s.ctx.count + Pings(s.ping) + Pings(s.pong) <= s.audit.pings
    && s.audit.takes + (if s.ctx.token then 1 else 0) <= s.ctx.count
    && s.audit.pings + (if s.pc.Write? && s.sample.kind.DataPing? then 1 else 0) <= s.audit.marked
    && s.audit.pings <= s.total
  }

  ghost predicate Marking(c: Config, s: State) {
    && (c.latencyTest ==> s.audit.marked == s.number && s.audit.pings == s.total)
    && (!c.latencyTest && c.latencyCount > 0 ==> s.audit.marked == s.number / c.latencyCount)
    && (!c.latencyTest && c.latencyCount <= 0 ==> s.audit.marked == 0)
    && (!c.latencyTest ==> s.audit.takes == 0)
  }

  ghost predicate Inv(c: Config, s: State) {
    Flows(c, s) && Marking(c, s)
  }

  lemma DivStep(n: nat, k: nat)
    requires k > 0
    ensures (n + 1) / k == n / k + (if (n + 1) % k == 0 then 1 else 0)
  {
    var q, r := n / k, n % k;
    assert n + 1 == k * q + (r + 1);
    if r + 1 == k {
      assert n + 1 == k * (q + 1);
      Quotient(n + 1, k, q + 1, 0);
    } else {
      Quotient(n + 1, k, q, r + 1);
    }
  }

  lemma Quotient(n: nat, k: nat, q: nat, r: nat)
    requires k > 0 && n == k * q + r && r < k
    ensures n / k == q && n % k == r
  {
    var q', r' := n / k, n % k;
    assert n == k * q' + r';
    assert q' < q ==> k * (q' + 1) <= k * q;
    assert q < q' ==> k * (q + 1) <= k * q';
  }

  ghost predicate Flows(c: Config, s: State) { PhaseCounts(c, s) && Flow(c, s) && Echoed(s) }

  lemma FlowWarm(c: Config, s: State, ok: bool)
    requires Flows(c, s) && s.pc.Warm?
    ensures Flows(c, WarmStep(c, s, ok))
  {
    CountAppend(s.ping, s.sample.(ts := s.clock), DataPing);
  }

  lemma FlowWrite(c: Config, s: State, ok: bool)
    requires Flows(c, s) && s.pc.Write?
    ensures Flows(c, WriteStep(c, s, ok))
  {
    CountAppend(s.ping, s.sample, DataPing);
  }

  lemma FlowFin(c: Config, s: State, ok: bool)
    requires Flows(c, s) && s.pc.Fin?
    ensures Flows(c, FinStep(c, s, ok))
  {
    CountAppend(s.ping, s.sample, DataPing);
  }

  lemma FlowQuiet(c: Config, s: State, ok: bool)
    requires Flows(c, s) && !Sends(s) && Enabled(c, s, Pub(ok))
    ensures Flows(c, PubStep(c, s, ok))
  {
    QuietStep(c, s, ok);
  }

  lemma FlowPub(c: Config, s: State, ok: bool)
    requires Flows(c, s) && Enabled(c, s, Pub(ok))
    ensures Flows(c, PubStep(c, s, ok))
  {
    if s.pc.Warm? {
      FlowWarm(c, s, ok);
    } else if s.pc.Write? {
      FlowWrite(c, s, ok);
    } else if s.pc.Fin? {
      FlowFin(c, s, ok);
    } else {
      FlowQuiet(c, s, ok);
    }
  }

  lemma MarkingPub(c: Config, s: State, ok: bool)
    requires PhaseCounts(c, s) && Marking(c, s) && Enabled(c, s, Pub(ok))
    ensures Marking(c, PubStep(c, s, ok))
  {
    if s.pc.Stamp? {
      if c.latencyCount > 0 {
        DivStep(s.number, c.latencyCount);
      }
    } else {
      assert PubStep(c, s, ok).number == s.number;
    }
  }

  lemma InvPong(c: Config, s: State)
    requires Inv(c, s) && s.pong != []
    ensures Inv(c, PongStep(c, s))
  {
    assert s.pong == [s.pong[0]] + s.pong[1..];
  }

  lemma InvPing(c: Config, s: State)
    requires Inv(c, s) && s.ping != []
    ensures Inv(c, PingStep(s))
  {
    CountConcat(s.pong, Echo(s.ping[0]), DataPing);
  }

  lemma InvStep(c: Config, s: State, step: Step)
    requires Inv(c, s) && Enabled(c, s, step)
    ensures Inv(c, Apply(c, s, step))
  {
    if step.Pub? {
      FlowPub(c, s, step.ok);
      MarkingPub(c, s, step.ok);
    } else if step.PongArrives? {
      InvPong(c, s);
    } else if step.PingArrives? {
      InvPing(c, s);
    } else if step.DropPing? {
      InvDropPing(c, s, step.i);
    } else if step.DropPong? {
      InvDropPong(c, s, step.i);
    } else {
      InvOther(c, s, step);
    }
  }

  lemma InvDropPing(c: Config, s: State, i: nat)
    requires Inv(c, s) && i < |s.ping|
    ensures Inv(c, s.(ping := Without(s.ping, i)))
  {
    CountWithout(s.ping, i, DataPing);
  }

  lemma InvDropPong(c: Config, s: State, i: nat)
    requires Inv(c, s) && i < |s.pong|
    ensures Inv(c, s.(pong := Without(s.pong, i)))
  {
    CountWithout(s.pong, i, DataPing);
  }

  lemma InvOther(c: Config, s: State, step: Step)
    requires Inv(c, s) && Enabled(c, s, step)
    requires step.Tick? || step.Timeout? || step.SubReset? || step.SubStop?
    ensures Inv(c, Apply(c, s, step))
  {
  }

  lemma InvAlways(c: Config, steps: seq<Step>, s: State)
    requires Reaches(c, steps, s)
    ensures Inv(c, s)
  {
    forall t, step | Inv(c, t) && Enabled(c, t, step) ensures Inv(c, Apply(c, t, step)) {
      InvStep(c, t, step);
    }
    RunInduction(c, steps, s, t => Inv(c, t));
  }

  // ---- What every run guarantees ---------------------------------------------------------

  /**
   * Latency mode, reliable or not, with timeouts and late pongs: each successful take and the token
   * still present is paid for by a distinct pong, and each pong by a distinct ping written.
   */
  lemma TokenAccounting(c: Config, steps: seq<Step>, s: State)
    requires Reaches(c, steps, s) && c.latencyTest
    ensures s.audit.takes + (if s.ctx.token then 1 else 0) <= s.ctx.count
    ensures s.ctx.count + Pings(s.ping) + Pings(s.pong) <= s.total
  {
    InvAlways(c, steps, s);
  }

  /**
   * Throughput mode: exactly one turn in latency_count is a ping, no more pongs are counted than pings
   * written, and the semaphore is never taken.
   */
  lemma ThroughputPings(c: Config, steps: seq<Step>, s: State)
    requires Reaches(c, steps, s) && !c.latencyTest && c.latencyCount > 0
    ensures s.audit.marked == s.number / c.latencyCount
    ensures s.ctx.count <= s.audit.pings <= s.audit.marked
    ensures s.audit.takes == 0 && !s.pc.Wait?
  {
    InvAlways(c, steps, s);
  }
}
