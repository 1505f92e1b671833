/**
 * Reliable latency mode: at most one ping is alive, it is the newest sample of the channel that holds
 * it, and the wait that follows it ends with its own pong. KEEP_LAST eviction is part of the channel.
 */
module Lockstep {
  import opened Samples
  import opened Protocol
  import opened Tokens
  import Conservation

  predicate EndsInPing(q: seq<Sample>) { q != [] && q[|q| - 1].kind.DataPing? }

  /** Nothing but the newest element is DATA or DATA_PING, and that one is a ping numbered n. */
  ghost predicate OnlyNewest(q: seq<Sample>, n: int) {
    && (forall i :: 0 <= i < |q| - 1 ==> !q[i].IsData())
    && (q != [] && q[|q| - 1].IsData() ==> EndsInPing(q) && q[|q| - 1].num == n)
  }

  function Alive(s: State): nat {
    (if EndsInPing(s.ping) then 1 else 0) + (if EndsInPing(s.pong) then 1 else 0) + (if s.ctx.token then 1 else 0)
  }

  /** At most one ping is alive, only while the publisher waits, and it is the ping just written. */
  ghost predicate Single(c: Config, s: State) {
    && PhaseCounts(c, s)
    && OnlyNewest(s.ping, s.number) && OnlyNewest(s.pong, s.number)
    && Alive(s) <= (if s.pc.Wait? then 1 else 0)
    && (s.pc.Write? || s.pc.Wait? ==> s.sample.kind.DataPing? && s.sample.num == s.number)
    && (s.ctx.token ==> s.audit.given == s.number && s.pong == [])
    && (EndsInPing(s.pong) || s.ctx.token ==> s.ping == [])
  }

  /** Nothing is lost: the waiting publisher's ping is alive, and every sample sent was answered or is. */
  ghost predicate Exact(s: State) {
    && Alive(s) == (if s.pc.Wait? then 1 else 0)
    && s.ctx.count + (if EndsInPing(s.ping) then 1 else 0) + (if EndsInPing(s.pong) then 1 else 0) == s.total
    && s.audit.takes + (if s.pc.Wait? then 1 else 0) == s.total
    && (s.captured.Some? ==> s.captured.value.ctx.count == s.captured.value.total == s.total)
    && (s.captured.Some? <==> Finishing(s))
  }

  ghost predicate Inv(c: Config, s: State) { Single(c, s) && Exact(s) }

  // ---- Any step but a timeout keeps the ping single, on either channel --------------------

  lemma SingleWarm(c: Config, s: State, ok: bool)
    requires c.latencyTest && Single(c, s) && s.pc.Warm?
    ensures Single(c, WarmStep(c, s, ok))
  {
    AppendNewest(s.ping, s.sample.(ts := s.clock), s.number);
  }

  lemma SingleWrite(c: Config, s: State, ok: bool)
    requires c.latencyTest && Single(c, s) && s.pc.Write?
    ensures Single(c, WriteStep(c, s, ok))
  {
    AppendNewest(s.ping, s.sample, s.number);
  }

  lemma SingleFin(c: Config, s: State, ok: bool)
    requires c.latencyTest && Single(c, s) && s.pc.Fin?
    ensures Single(c, FinStep(c, s, ok))
  {
    AppendNewest(s.ping, s.sample, s.number);
  }

  lemma AppendNewest(q: seq<Sample>, m: Sample, n: int)
    requires OnlyNewest(q, n) && !EndsInPing(q) && (m.IsData() ==> m.kind.DataPing? && m.num == n)
    ensures OnlyNewest(q + [m], n) && (EndsInPing(q + [m]) <==> m.kind.DataPing?)
  {
  }

  lemma SingleQuiet(c: Config, s: State, ok: bool)
    requires c.latencyTest && Single(c, s) && !Sends(s) && Enabled(c, s, Pub(ok))
    ensures Single(c, PubStep(c, s, ok))
  {
    QuietStep(c, s, ok);
  }

  lemma SinglePub(c: Config, s: State, ok: bool)
    requires c.latencyTest && Single(c, s) && Enabled(c, s, Pub(ok))
    ensures Single(c, PubStep(c, s, ok))
  {
    if s.pc.Warm? {
      SingleWarm(c, s, ok);
    } else if s.pc.Write? {
      SingleWrite(c, s, ok);
    } else if s.pc.Fin? {
      SingleFin(c, s, ok);
    } else {
      SingleQuiet(c, s, ok);
    }
  }

  lemma SinglePing(c: Config, s: State)
    requires c.latencyTest && Single(c, s) && s.ping != []
    ensures Single(c, PingStep(s))
  {
  }

  lemma SinglePong(c: Config, s: State)
    requires c.latencyTest && Single(c, s) && s.pong != []
    ensures Single(c, PongStep(c, s))
  {
  }

  lemma DropNewest(q: seq<Sample>, i: nat, n: int)
    requires i < |q| && OnlyNewest(q, n)
    ensures OnlyNewest(Without(q, i), n) && (EndsInPing(Without(q, i)) ==> EndsInPing(q))
    ensures i + 1 < |q| ==> (EndsInPing(Without(q, i)) <==> EndsInPing(q))
  {
  }

  lemma SingleStep(c: Config, s: State, step: Step)
    requires c.latencyTest && Single(c, s) && Enabled(c, s, step) && !step.Timeout?
    ensures Single(c, Apply(c, s, step))
  {
    match step {
      case Pub(ok) => SinglePub(c, s, ok);
      case PingArrives => SinglePing(c, s);
      case PongArrives => SinglePong(c, s);
      case DropPing(i) => DropNewest(s.ping, i, s.number);
      case DropPong(i) => DropNewest(s.pong, i, s.number);
      case _ =>
    }
  }

  // ---- A reliable channel keeps the count exact -------------------------------------------

  lemma ExactWarm(c: Config, s: State, ok: bool)
    requires c.latencyTest && Inv(c, s) && s.pc.Warm?
    ensures Exact(WarmStep(c, s, ok))
  {
    AppendNewest(s.ping, s.sample.(ts := s.clock), s.number);
  }

  lemma ExactWrite(c: Config, s: State, ok: bool)
    requires c.latencyTest && Inv(c, s) && s.pc.Write?
    ensures Exact(WriteStep(c, s, ok))
  {
    AppendNewest(s.ping, s.sample, s.number);
  }

  lemma ExactFin(c: Config, s: State, ok: bool)
    requires c.latencyTest && Inv(c, s) && s.pc.Fin?
    ensures Exact(FinStep(c, s, ok))
  {
    AppendNewest(s.ping, s.sample, s.number);
  }

  lemma ExactQuiet(c: Config, s: State, ok: bool)
    requires c.latencyTest && Inv(c, s) && !Sends(s) && Enabled(c, s, Pub(ok))
    ensures Exact(PubStep(c, s, ok))
  {
    QuietStep(c, s, ok);
  }

  lemma ExactPub(c: Config, s: State, ok: bool)
    requires c.latencyTest && Inv(c, s) && Enabled(c, s, Pub(ok))
    ensures Exact(PubStep(c, s, ok))
  {
    if s.pc.Warm? {
      ExactWarm(c, s, ok);
    } else if s.pc.Write? {
      ExactWrite(c, s, ok);
    } else if s.pc.Fin? {
      ExactFin(c, s, ok);
    } else {
      ExactQuiet(c, s, ok);
    }
  }

  lemma ExactPing(c: Config, s: State)
    requires c.latencyTest && Inv(c, s) && s.ping != []
    ensures Exact(PingStep(s))
  {
  }

  lemma ExactPong(c: Config, s: State)
    requires c.latencyTest && Inv(c, s) && s.pong != []
    ensures Exact(PongStep(c, s))
  {
  }

  lemma InvStep(c: Config, s: State, step: Step)
    requires c.reliable && c.latencyTest && Inv(c, s) && Enabled(c, s, step) && (s.subDown ==> Finishing(s))
    ensures Inv(c, Apply(c, s, step))
  {
    SingleStep(c, s, step);
    match step {
      case Pub(ok) => ExactPub(c, s, ok);
      case PingArrives => ExactPing(c, s);
      case PongArrives => ExactPong(c, s);
      case DropPing(i) => DropNewest(s.ping, i, s.number);
      case DropPong(i) => DropNewest(s.pong, i, s.number);
      case _ =>
    }
  }

  lemma InvAlways(c: Config, steps: seq<Step>, s: State)
    requires c.reliable && c.latencyTest && Reaches(c, steps, s)
    ensures Inv(c, s)
  {
    forall t, step | Inv(c, t) && Conservation.Inv(t) && Enabled(c, t, step)
      ensures Inv(c, Apply(c, t, step)) && Conservation.Inv(Apply(c, t, step))
    {
      Conservation.InvStep(c, t, step);
      Conservation.DownIsFinishing(t);
      InvStep(c, t, step);
    }
    RunInduction(c, steps, s, t => Inv(c, t) && Conservation.Inv(t));
  }

  lemma {:induction false} CountNewest(q: seq<Sample>, n: int)
    requires OnlyNewest(q, n)
    ensures Pings(q) == if EndsInPing(q) then 1 else 0
  {
    if q != [] {
      if |q| == 1 {
        assert q[1..] == [] && CountKind(q[1..], DataPing) == 0;
      } else {
        CountNewest(q[1..], n);
      }
    }
  }

  // ---- What every run guarantees ---------------------------------------------------------

  /** Pings in flight, pongs in flight and tokens: one while the publisher waits, none otherwise. */
  lemma OneInFlight(c: Config, steps: seq<Step>, s: State)
    requires c.reliable && c.latencyTest && Reaches(c, steps, s)
    ensures Pings(s.ping) + Pings(s.pong) + (if s.ctx.token then 1 else 0) == if s.pc.Wait? then 1 else 0
  {
    InvAlways(c, steps, s);
    CountNewest(s.ping, s.number);
    CountNewest(s.pong, s.number);
  }

  /** A take that succeeds is released by the pong of the ping just written, and finds both channels drained. */
  lemma TakeIsOwnPong(c: Config, steps: seq<Step>, s: State)
    requires c.reliable && c.latencyTest && Reaches(c, steps, s)
    requires s.pc.Wait? && Enabled(c, s, Pub(true))
    ensures s.audit.given == s.number && s.sample.num == s.number
    ensures s.ping == [] && s.pong == []
  {
    InvAlways(c, steps, s);
  }

  /** What a KEEP_LAST history of the given depth retains. */
  function KeepLast(q: seq<Sample>, depth: nat): seq<Sample> {
    if |q| <= depth then q else q[|q| - depth..]
  }

  /** A history of any depth from 1 up never evicts a ping or its echo. */
  lemma HistoryNeverEvictsPing(c: Config, steps: seq<Step>, s: State, depth: nat)
    requires c.reliable && c.latencyTest && Reaches(c, steps, s) && depth >= 1
    ensures Pings(KeepLast(s.ping, depth)) == Pings(s.ping) <= 1
    ensures Pings(KeepLast(s.pong, depth)) == Pings(s.pong) <= 1
  {
    InvAlways(c, steps, s);
    CountNewest(s.ping, s.number);
    CountNewest(s.pong, s.number);
    CountNewest(KeepLast(s.ping, depth), s.number);
    CountNewest(KeepLast(s.pong, depth), s.number);
  }

  /** The result row counts one latency per sample sent. */
  lemma EveryPingMeasured(c: Config, steps: seq<Step>, s: State)
    requires c.reliable && c.latencyTest && Reaches(c, steps, s) && s.captured.Some?
    ensures s.captured.value.ctx.count == s.captured.value.total == s.audit.takes
  {
    InvAlways(c, steps, s);
  }

  /** The strict ping-pong never deadlocks: delivering what is in flight releases any wait. */
  lemma {:induction false} WaitIsReleasable(c: Config, steps: seq<Step>, s: State) returns (more: seq<Step>, t: State)
    requires c.reliable && c.latencyTest && Reaches(c, steps, s) && s.pc.Wait?
    ensures Exec(c, s, more) == Some(t) && t.pc.Wait? && t.ctx.token
    ensures forall step :: step in more ==> step.PingArrives? || step.PongArrives?
    decreases 2 * |s.ping| + |s.pong|
  {
    InvAlways(c, steps, s);
    Conservation.InvAlways(c, steps, s);
    Conservation.DownIsFinishing(s);
    if s.ctx.token {
      return [], s;
    }
    var step := if s.ping != [] then PingArrives else PongArrives;
    ReachesStep(c, steps, s, step);
    var rest, end := WaitIsReleasable(c, steps + [step], Apply(c, s, step));
    assert [step][..0] == [];
    assert Exec(c, s, [step]) == Some(Apply(c, s, step));
    ExecConcat(c, s, [step], rest);
    return [step] + rest, end;
  }
}
