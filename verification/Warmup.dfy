/**
 * The warm-up burst cannot influence a measurement: every run has a shadow run in which no warm-up
 * sample ever reaches a channel and which passes through the same counters, figures and semaphore.
 */
module Warmup {
  import opened Samples
  import opened Subscriber
  import opened Protocol

  function Erase(q: seq<Sample>): seq<Sample> {
    if q == [] then []
    else if q[0].kind.Initialization? then Erase(q[1..])
    else [q[0]] + Erase(q[1..])
  }

  /** The state as it would look had no warm-up sample been written. */
  function EraseState(s: State): State {
    s.(ping := Erase(s.ping), pong := Erase(s.pong))
  }

  lemma {:induction false} EraseConcat(a: seq<Sample>, b: seq<Sample>)
    ensures Erase(a + b) == Erase(a) + Erase(b)
  {
    if a == [] {
      assert a + b == b;
    } else {
      EraseConcat(a[1..], b);
      TailOfConcat(a, b);
      if !a[0].kind.Initialization? {
        Associate([a[0]], Erase(a[1..]), Erase(b));
      }
    }
  }

  lemma TailOfConcat(a: seq<Sample>, b: seq<Sample>)
    requires a != []
    ensures (a + b)[0] == a[0] && (a + b)[1..] == a[1..] + b
  {
  }

  lemma Associate(x: seq<Sample>, y: seq<Sample>, z: seq<Sample>)
    ensures x + (y + z) == (x + y) + z
  {
  }

  ghost predicate NoInit(q: seq<Sample>) {
    forall i :: 0 <= i < |q| ==> !q[i].kind.Initialization?
  }

  lemma {:induction false} ErasedHasNoInit(q: seq<Sample>)
    ensures NoInit(Erase(q))
  {
    if q != [] {
      ErasedHasNoInit(q[1..]);
    }
  }

  lemma {:induction false} EraseNothing(q: seq<Sample>)
    requires NoInit(q)
    ensures Erase(q) == q
  {
    if q != [] {
      EraseNothing(q[1..]);
    }
  }

  // ---- Warm-up precedes everything else --------------------------------------------------

  ghost predicate InitFirst(q: seq<Sample>) {
    forall i, j :: 0 <= i < j < |q| && q[j].kind.Initialization? ==> q[i].kind.Initialization?
  }

  ghost predicate AllInit(q: seq<Sample>) {
    forall i :: 0 <= i < |q| ==> q[i].kind.Initialization?
  }

  ghost predicate Leads(s: State) {
    && InitFirst(s.ping) && InitFirst(s.pong)
    && (AllInit(s.pong) || NoInit(s.ping))
    && (s.pc.Warm? ==> AllInit(s.ping) && AllInit(s.pong))
    && (s.pc.Warm? ==> s.sample.kind.Initialization?)
    && (s.pc.Write? ==> s.sample.IsData())
    && (Finishing(s) ==> s.sample.kind.Finalization?)
  }

  lemma LeadsStep(c: Config, s: State, step: Step)
    requires Leads(s) && Enabled(c, s, step)
    ensures Leads(Apply(c, s, step))
  {
    if step.Pub? {
      LeadsPub(c, s, step.ok);
    } else if step.PingArrives? {
      LeadsPing(s);
    } else {
      LeadsOther(c, s, step);
    }
  }

  lemma LeadsOther(c: Config, s: State, step: Step)
    requires Leads(s) && Enabled(c, s, step) && !step.Pub? && !step.PingArrives?
    ensures Leads(Apply(c, s, step))
  {
    if step.DropPing? {
      WithoutLeads(s.ping, step.i);
    } else if step.DropPong? {
      WithoutLeads(s.pong, step.i);
    }
  }

  lemma WithoutLeads(q: seq<Sample>, i: nat)
    requires i < |q| && InitFirst(q)
    ensures InitFirst(Without(q, i)) && (NoInit(q) ==> NoInit(Without(q, i))) && (AllInit(q) ==> AllInit(Without(q, i)))
  {
  }

  lemma LeadsWarm(c: Config, s: State, ok: bool)
    requires Leads(s) && s.pc.Warm?
    ensures Leads(WarmStep(c, s, ok))
  {
  }

  lemma LeadsWrite(c: Config, s: State, ok: bool)
    requires Leads(s) && s.pc.Write?
    ensures Leads(WriteStep(c, s, ok))
  {
  }

  lemma LeadsFin(c: Config, s: State, ok: bool)
    requires Leads(s) && s.pc.Fin?
    ensures Leads(FinStep(c, s, ok))
  {
  }

  lemma LeadsQuiet(c: Config, s: State, ok: bool)
    requires Leads(s) && !Sends(s)
    ensures Leads(PubStep(c, s, ok))
  {
    QuietStep(c, s, ok);
  }

  lemma LeadsPub(c: Config, s: State, ok: bool)
    requires Leads(s) && Enabled(c, s, Pub(ok))
    ensures Leads(PubStep(c, s, ok))
  {
    if s.pc.Warm? {
      LeadsWarm(c, s, ok);
    } else if s.pc.Write? {
      LeadsWrite(c, s, ok);
    } else if s.pc.Fin? {
      LeadsFin(c, s, ok);
    } else {
      LeadsQuiet(c, s, ok);
    }
  }

  lemma LeadsPing(s: State)
    requires Leads(s) && s.ping != []
    ensures Leads(PingStep(s))
  {
  }

  lemma LeadsAlways(c: Config, steps: seq<Step>, s: State)
    requires Reaches(c, steps, s)
    ensures Leads(s)
  {
    forall t, step | Leads(t) && Enabled(c, t, step) ensures Leads(Apply(c, t, step)) {
      LeadsStep(c, t, step);
    }
    RunInduction(c, steps, s, t => Leads(t));
  }

  // ---- The shadow run --------------------------------------------------------------------

  /** What the shadow run does where the run takes `step`: at most one step. */
  function Shadow(s: State, step: Step): seq<Step> {
    match step
    case Pub(ok) => if s.pc.Warm? then [Pub(false)] else [step]
    case PingArrives => if s.ping != [] && s.ping[0].kind.Initialization? then [] else [step]
    case PongArrives => if s.pong != [] && s.pong[0].kind.Initialization? then [] else [step]
    case DropPing(i) =>
      if i < |s.ping| && s.ping[i].kind.Initialization? then []
      else if i < |s.ping| then [DropPing(|Erase(s.ping[..i])|)] else [step]
    case DropPong(i) =>
      if i < |s.pong| && s.pong[i].kind.Initialization? then []
      else if i < |s.pong| then [DropPong(|Erase(s.pong[..i])|)] else [step]
    case _ => [step]
  }

  /** The shadow's step, or its standing still, leads from the erased state to the erased successor. */
  ghost predicate Follows(c: Config, s: State, step: Step)
    requires Enabled(c, s, step)
  {
    var next := EraseState(Apply(c, s, step));
    if Shadow(s, step) == [] then next == EraseState(s)
    else Enabled(c, EraseState(s), Shadow(s, step)[0]) && Apply(c, EraseState(s), Shadow(s, step)[0]) == next
  }

  /** Dropping an element and erasing commute. */
  lemma EraseWithout(q: seq<Sample>, i: nat)
    requires i < |q| && InitFirst(q)
    ensures q[i].kind.Initialization? ==> Erase(Without(q, i)) == Erase(q)
    ensures !q[i].kind.Initialization? ==>
      && |Erase(q[..i])| < |Erase(q)|
      && Erase(Without(q, i)) == Without(Erase(q), |Erase(q[..i])|)
      && |Erase(q)| - |Erase(q[..i])| == |q| - i
  {
    var a, b := q[..i], q[i + 1..];
    assert q == a + ([q[i]] + b);
    EraseConcat(a, [q[i]] + b);
    EraseConcat([q[i]], b);
    EraseConcat(a, b);
    assert Erase([q[i]]) == if q[i].kind.Initialization? then [] else [q[i]];
    if !q[i].kind.Initialization? {
      EraseNothing(b);
      assert Erase(q) == Erase(a) + ([q[i]] + b);
    }
  }

  lemma EraseAppend(q: seq<Sample>, m: Sample)
    ensures Erase(q + [m]) == if m.kind.Initialization? then Erase(q) else Erase(q) + [m]
  {
    EraseConcat(q, [m]);
    EraseOne(m);
    assert Erase(q) + [] == Erase(q);
  }

  /** The main loop takes the same step from the erased state, but that a warm-up write is made to fail. */
  lemma ShadowPub(c: Config, s: State, ok: bool)
    requires Leads(s) && Enabled(c, s, Pub(ok))
    ensures PubStep(c, EraseState(s), if s.pc.Warm? then false else ok) == EraseState(PubStep(c, s, ok))
  {
    if s.pc.Warm? {
      ShadowWarm(c, s, ok);
    } else if s.pc.Write? {
      ShadowWrite(c, s, ok);
    } else if s.pc.Fin? {
      ShadowFin(c, s, ok);
    } else if s.pc.Settle? {
      ShadowSettle(c, s);
    } else if s.pc.Stamp? {
      ShadowStamp(c, s);
    } else if s.pc.Guard? || s.pc.Collect? {
      ShadowTest(c, s);
    }
  }

  lemma ShadowWarm(c: Config, s: State, ok: bool)
    requires Leads(s) && s.pc.Warm?
    ensures WarmStep(c, EraseState(s), false) == EraseState(WarmStep(c, s, ok))
  {
    EraseAppend(s.ping, s.sample.(ts := s.clock));
  }

  lemma ShadowWrite(c: Config, s: State, ok: bool)
    requires Leads(s) && s.pc.Write?
    ensures WriteStep(c, EraseState(s), ok) == EraseState(WriteStep(c, s, ok))
  {
    EraseAppend(s.ping, s.sample);
  }

  lemma ShadowFin(c: Config, s: State, ok: bool)
    requires Leads(s) && s.pc.Fin?
    ensures FinStep(c, EraseState(s), ok) == EraseState(FinStep(c, s, ok))
  {
    EraseAppend(s.ping, s.sample);
  }

  lemma ShadowSettle(c: Config, s: State)
    ensures SettleStep(c, EraseState(s)) == EraseState(SettleStep(c, s))
  {
  }

  lemma ShadowStamp(c: Config, s: State)
    ensures StampStep(c, EraseState(s)) == EraseState(StampStep(c, s))
  {
  }

  lemma ShadowTest(c: Config, s: State)
    ensures GuardStep(c, EraseState(s)) == EraseState(GuardStep(c, s))
    ensures CollectStep(EraseState(s)) == EraseState(CollectStep(s))
  {
  }

  lemma EraseOne(m: Sample)
    ensures Erase([m]) == if m.kind.Initialization? then [] else [m]
  {
    assert [m][1..] == [];
  }

  lemma ShadowPing(c: Config, s: State)
    requires Enabled(c, s, PingArrives)
    ensures Follows(c, s, PingArrives)
  {
    if s.ping[0].kind.Initialization? {
      assert Echo(s.ping[0]) == [s.ping[0]];
      EraseAppend(s.pong, s.ping[0]);
    } else {
      EraseHead(s.ping);
      EraseEcho(s.pong, s.ping[0]);
    }
  }

  lemma EraseEcho(q: seq<Sample>, m: Sample)
    requires !m.kind.Initialization?
    ensures Erase(q + Echo(m)) == Erase(q) + Echo(m)
  {
    if m.kind.Data? {
      assert q + [] == q && Erase(q) + [] == Erase(q);
    } else {
      EraseAppend(q, m);
    }
  }

  lemma EraseHead(q: seq<Sample>)
    requires q != [] && !q[0].kind.Initialization?
    ensures Erase(q) != [] && Erase(q)[0] == q[0] && Erase(q)[1..] == Erase(q[1..])
  {
    assert Erase(q) == [q[0]] + Erase(q[1..]);
  }

  lemma ShadowPong(c: Config, s: State)
    requires Enabled(c, s, PongArrives)
    ensures Follows(c, s, PongArrives)
  {
    if !s.pong[0].kind.Initialization? {
      EraseHead(s.pong);
    }
  }

  /** The shadow follows one step of the run. */
  lemma ShadowStep(c: Config, s: State, step: Step)
    requires Leads(s) && Enabled(c, s, step)
    ensures |Shadow(s, step)| <= 1
    ensures Follows(c, s, step)
  {
    match step {
      case Pub(ok) => ShadowPub(c, s, ok);
      case PingArrives => ShadowPing(c, s);
      case PongArrives => ShadowPong(c, s);
      case DropPing(i) => EraseWithout(s.ping, i);
      case DropPong(i) => EraseWithout(s.pong, i);
      case _ =>
    }
  }

  /** No state the run passes through has a warm-up sample in a channel. */
  ghost predicate Silent(c: Config, steps: seq<Step>) {
    forall k :: 0 <= k <= |steps| ==>
      var s := Exec(c, Init(c), steps[..k]);
      s.Some? && NoInit(s.value.ping) && NoInit(s.value.pong)
  }

  /**
   * Every run has a silent shadow with the same main-loop state, counters, figures, semaphore, captured
   * results and non-warm-up traffic.
   */
  lemma {:induction false} WarmupNeverInterferes(c: Config, steps: seq<Step>, s: State) returns (shadow: seq<Step>)
    requires Reaches(c, steps, s)
    ensures Reaches(c, shadow, EraseState(s)) && Silent(c, shadow)
  {
    if steps == [] {
      assert EraseState(s) == Init(c);
      return [];
    }
    var init, step := steps[..|steps| - 1], steps[|steps| - 1];
    var before := Exec(c, Init(c), init).value;
    LeadsAlways(c, init, before);
    shadow := WarmupNeverInterferes(c, init, before);
    ShadowStep(c, before, step);
    if Shadow(before, step) != [] {
      ReachesStep(c, shadow, EraseState(before), Shadow(before, step)[0]);
      ErasedHasNoInit(s.ping);
      ErasedHasNoInit(s.pong);
      SilentExtends(c, shadow, Shadow(before, step)[0], EraseState(s));
      shadow := shadow + [Shadow(before, step)[0]];
    }
  }

  lemma SilentExtends(c: Config, steps: seq<Step>, step: Step, s: State)
    requires Silent(c, steps) && Reaches(c, steps + [step], s) && NoInit(s.ping) && NoInit(s.pong)
    ensures Silent(c, steps + [step])
  {
    var more := steps + [step];
    forall k | 0 <= k <= |more|
      ensures var t := Exec(c, Init(c), more[..k]); t.Some? && NoInit(t.value.ping) && NoInit(t.value.pong)
    {
      if k == |more| {
        assert more[..k] == more;
      } else {
        assert more[..k] == steps[..k];
      }
    }
  }
}
