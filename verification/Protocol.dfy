/**
 * The two nodes, the ping and pong channels, the semaphore and the clock as one step system. A run is
 * a sequence of labelled steps; each label fixes every choice the environment makes in that step.
 */
module Protocol {
  import opened Samples
  import opened Subscriber
  import opened Publisher

  datatype Config = Config(
    latencyTest: bool,   // -latencyTest
    latencyCount: int,   // -latencyCount
    reliable: bool,      // -rel
    exec: nat,           // -exec, seconds
    pubrate: int,        // -pubrate
    minSleep: nat,       // PERFTEST_LITE_PUB_MIN_SLEEP_US
    dataLen: int,        // -datalen
    initSize: int,       // PERFTEST_LITE_INIT_SAMPLE_SIZE
    initBurst: nat,      // PERFTEST_LITE_INIT_BURST
    maxPayload: nat,     // PERFTEST_TYPE_MAX_PAYLOAD
    history: nat,        // entries of the latency history, 0 when it is disabled or not allocated
    bootClock: nat)      // the clock when the endpoints have matched

  function TimeoutUs(c: Config): nat { c.exec * 1000000 }

  function SleepUs(c: Config): nat { if c.pubrate > 0 then 1000000 / c.pubrate else c.minSleep }

  /** KEEP_LAST depth guarding a queued sample: the smaller of the writer's and the reader's. */
  function Depth(c: Config): nat { if c.latencyTest then 2 else 8 }

  predicate IsPing(c: Config, number: int) {
    c.latencyTest || (c.latencyCount > 0 && number % c.latencyCount == 0)
  }

  /** Where the publisher's main loop stands. */
  datatype Pc =
    | Warm(sent: nat)              // in the warm-up burst
    | Settle(wake: nat)            // 1 s settle
    | Guard                        // about to read the clock for the loop test
    | Stamp                        // about to number and stamp the sample
    | Write                        // about to write it
    | Wait(since: nat)             // in semaphore_take, entered at `since`
    | Rest(wake: nat)              // pacing sleep
    | Collect                      // loop over, about to capture the results
    | Fin(k: nat)                  // finalization loop test
    | FinRest(k: nat, wake: nat)   // 50 ms between finalizations
    | Done(k: nat)                 // finished after k finalization turns

  /** What result capture reads, at one instant; `lats` is a history variable. */
  datatype Snapshot = Snapshot(ctx: Ctx, total: nat, elapsed: int, lats: seq<nat>)

  /** History variables: they record what happened and steer nothing. */
  datatype Audit = Audit(
    failed: nat,              // DATA/DATA_PING writes that failed
    marked: nat,              // loop turns whose sample was a DATA_PING
    pings: nat,               // DATA_PINGs written successfully
    sent: seq<Sample>,        // DATA and DATA_PINGs written successfully
    takes: nat,               // successful semaphore takes
    given: int,               // number of the pong that last gave the semaphore
    lats: seq<nat>,           // latencies of the pongs delivered since the statistics reset
    first: int,               // first data number the subscriber handled since its reset, 0 before any
    finSeen: Option<int>,     // stamp of the last FINALIZATION the subscriber handled
    finSinceReset: bool)      // the subscriber has handled a FINALIZATION since its reset

  datatype State = State(
    pc: Pc, sample: Sample, number: int, total: nat, t0: nat, lastSeq: int, ctx: Ctx,
    captured: Option<Snapshot>,
    clock: nat, ping: seq<Sample>, pong: seq<Sample>,
    sub: SubState, subReset: bool, subDown: bool,
    audit: Audit)

  datatype Step =
    | Tick(dt: nat)
    | Pub(ok: bool)        // next atomic step of the publisher's main loop; ok is the outcome of a write
    | Timeout              // the 200 ms semaphore wait gives up
    | PongArrives          // the pong callback handles the head of the pong channel
    | PingArrives          // the ping callback handles the head of the ping channel
    | DropPing(i: nat)
    | DropPong(i: nat)
    | SubReset             // the subscriber's reset after matching
    | SubStop              // the subscriber leaves its main loop and shuts its endpoints down

  /** The warm-up sample: the burst size when it fits the type, else the test size. */
  function WarmSample(c: Config): Sample {
    var created := Sample(Initialization, 0, 0, OVERHEAD + c.maxPayload);
    if SizeFits(c.initSize, c.maxPayload) then SetSize(created, c.initSize, c.maxPayload)
    else SetSize(created, c.dataLen, c.maxPayload)
  }

  function Init(c: Config): State {
    State(Warm(0), WarmSample(c), 0, 0, 0, 0, ZERO_CTX, None, c.bootClock, [], [], ZERO, false, false,
          Audit(0, 0, 0, [], 0, 0, [], 0, None, false))
  }

  /** The wait of a best-effort latency test. */
  const TAKE_TIMEOUT_US: nat := 200000

  /**
   * A best-effort channel may lose anything; a reliable one only what KEEP_LAST pushes out, and what its
   * writer still held when it shut down.
   */
  predicate Droppable(c: Config, queue: seq<Sample>, i: nat, writerDown: bool) {
    i < |queue| && (!c.reliable || writerDown || i + Depth(c) < |queue|)
  }

  predicate Enabled(c: Config, s: State, step: Step) {
    match step
    case Tick(_) => true
    case Pub(_) =>
      (match s.pc
       case Settle(wake) => wake <= s.clock
       case Rest(wake) => wake <= s.clock
       case FinRest(_, wake) => wake <= s.clock
       case Wait(_) => s.ctx.token
       case Done(_) => false
       case _ => true)
    case Timeout => s.pc.Wait? && !c.reliable && !s.ctx.token && s.pc.since + TAKE_TIMEOUT_US <= s.clock
    case PongArrives => s.pong != [] && !s.pc.Done?
    case PingArrives => s.ping != [] && !s.subDown
    case DropPing(i) => Droppable(c, s.ping, i, s.pc.Done?)
    case DropPong(i) => Droppable(c, s.pong, i, s.subDown)
    case SubReset => !s.subReset
    case SubStop => s.subReset && s.sub.finished && !s.subDown
  }

  function Without(queue: seq<Sample>, i: nat): seq<Sample>
    requires i < |queue|
  {
    queue[..i] + queue[i + 1..]
  }

  predicate Warming(s: State) { s.pc.Warm? || s.pc.Settle? }

  predicate Finishing(s: State) { s.pc.Fin? || s.pc.FinRest? || s.pc.Done? }

  ghost predicate NoData(q: seq<Sample>) {
    forall i :: 0 <= i < |q| ==> !q[i].IsData()
  }

  /** Plain DATA never reaches the pong channel, so each pong the callback counts is a ping. */
  ghost predicate Echoed(s: State) {
    forall i :: 0 <= i < |s.pong| ==> !s.pong[i].kind.Data?
  }

  /** How many samples of a kind a channel holds. */
  function CountKind(q: seq<Sample>, kind: Kind): nat {
    if q == [] then 0 else (if q[0].kind == kind then 1 else 0) + CountKind(q[1..], kind)
  }

  lemma {:induction false} CountConcat(a: seq<Sample>, b: seq<Sample>, kind: Kind)
    ensures CountKind(a + b, kind) == CountKind(a, kind) + CountKind(b, kind)
  {
    if a == [] {
      assert a + b == b;
    } else {
      CountConcat(a[1..], b, kind);
      assert (a + b)[1..] == a[1..] + b;
    }
  }

  lemma CountAppend(q: seq<Sample>, m: Sample, kind: Kind)
    ensures CountKind(q + [m], kind) == CountKind(q, kind) + (if m.kind == kind then 1 else 0)
  {
    CountConcat(q, [m], kind);
    assert [m][1..] == [];
  }

  lemma CountWithout(q: seq<Sample>, i: nat, kind: Kind)
    requires i < |q|
    ensures CountKind(Without(q, i), kind) + (if q[i].kind == kind then 1 else 0) == CountKind(q, kind)
  {
    assert q == q[..i] + q[i..];
    assert q[i..][1..] == q[i + 1..];
    CountConcat(q[..i], q[i..], kind);
    CountConcat(q[..i], q[i + 1..], kind);
  }

  // ---- The publisher's main loop ---------------------------------------------------------

  function WarmStep(c: Config, s: State, ok: bool): State
    requires s.pc.Warm?
  {
    if s.pc.sent < c.initBurst then
      var m := s.sample.(ts := s.clock);
      s.(pc := Warm(s.pc.sent + 1), sample := m, ping := if ok then s.ping + [m] else s.ping)
    else s.(pc := Settle(s.clock + 1000000))
  }

  function SettleStep(c: Config, s: State): State {
    s.(pc := Guard, sample := SetSize(s.sample, c.dataLen, c.maxPayload),
       ctx := ResetStats(s.ctx), t0 := s.clock, audit := s.audit.(lats := []))
  }

  function GuardStep(c: Config, s: State): State {
    s.(pc := if s.clock - s.t0 < TimeoutUs(c) then Stamp else Collect)
  }

  function CollectStep(s: State): State {
    s.(pc := Fin(0), lastSeq := s.number,
       sample := s.sample.(kind := Finalization, num := s.number),
       captured := Some(Snapshot(s.ctx, s.total, s.clock - s.t0, s.audit.lats)))
  }

  function StampStep(c: Config, s: State): State {
    var n := s.number + 1;
    s.(pc := Write, number := n,
       sample := s.sample.(num := n, ts := s.clock, kind := if IsPing(c, n) then DataPing else Data),
       audit := s.audit.(marked := s.audit.marked + (if IsPing(c, n) then 1 else 0)))
  }

  function WriteStep(c: Config, s: State, ok: bool): State {
    if ok then
      var isPing := s.sample.kind.DataPing?;
      s.(pc := if isPing && c.latencyTest then Wait(s.clock) else Rest(s.clock + SleepUs(c)),
         total := s.total + 1, ping := s.ping + [s.sample],
         audit := s.audit.(pings := s.audit.pings + (if isPing then 1 else 0), sent := s.audit.sent + [s.sample]))
    else s.(pc := Rest(s.clock + SleepUs(c)), audit := s.audit.(failed := s.audit.failed + 1))
  }

  function WaitStep(c: Config, s: State): State {
    s.(pc := Rest(s.clock + SleepUs(c)), ctx := s.ctx.(token := false),
       audit := s.audit.(takes := s.audit.takes + 1))
  }

  function FinStep(c: Config, s: State, ok: bool): State
    requires s.pc.Fin?
  {
    if s.pc.k < 10 && !s.ctx.finishedRemote then
      s.(pc := FinRest(s.pc.k, s.clock + 50000), ping := if ok then s.ping + [s.sample] else s.ping)
    else s.(pc := Done(s.pc.k))
  }

  function PubStep(c: Config, s: State, ok: bool): State {
    match s.pc
    case Warm(_) => WarmStep(c, s, ok)
    case Settle(_) => SettleStep(c, s)
    case Guard => GuardStep(c, s)
    case Collect => CollectStep(s)
    case Stamp => StampStep(c, s)
    case Write => WriteStep(c, s, ok)
    case Wait(_) => WaitStep(c, s)
    case Rest(_) => s.(pc := Guard)
    case Fin(_) => FinStep(c, s, ok)
    case FinRest(k, _) => s.(pc := Fin(k + 1))
    case Done(_) => s
  }

  predicate Sends(s: State) { s.pc.Warm? || s.pc.Write? || s.pc.Fin? }

  /** A main-loop step that writes nothing leaves the channels and the other node alone. */
  lemma QuietStep(c: Config, s: State, ok: bool)
    requires !Sends(s)
    ensures var t := PubStep(c, s, ok);
            && t.ping == s.ping && t.pong == s.pong && t.clock == s.clock
            && t.sub == s.sub && t.subReset == s.subReset && t.subDown == s.subDown
  {
  }

  /** Outside reset, take and capture the main loop leaves statistics, times and captured results alone. */
  lemma NoFigureStep(c: Config, s: State, ok: bool)
    requires !s.pc.Settle? && !s.pc.Wait? && !s.pc.Collect?
    ensures var t := PubStep(c, s, ok);
            && t.ctx == s.ctx && t.audit.lats == s.audit.lats && t.captured == s.captured
            && t.clock == s.clock && t.t0 == s.t0 && Warming(t) == Warming(s)
  {
    if s.pc.Write? {
      assert PubStep(c, s, ok) == WriteStep(c, s, ok);
    } else if s.pc.Stamp? {
      assert PubStep(c, s, ok) == StampStep(c, s);
    }
  }

  /** The finalization loop changes its place and the ping channel, nothing else. */
  lemma FinishStep(c: Config, s: State, ok: bool)
    requires Finishing(s)
    ensures var t := PubStep(c, s, ok); Finishing(t) && t == s.(pc := t.pc, ping := t.ping)
  {
  }

  // ---- Callbacks -------------------------------------------------------------------------

  function PongStep(c: Config, s: State): State
    requires s.pong != []
  {
    var m := s.pong[0];
    s.(pong := s.pong[1..], ctx := OnPong(c.history, s.ctx, m, s.clock),
       audit := if m.IsData() then s.audit.(lats := s.audit.lats + [Latency(s.clock, m.ts)], given := m.num)
                else s.audit)
  }

  function PingStep(s: State): State
    requires s.ping != []
  {
    var m := s.ping[0];
    s.(ping := s.ping[1..], pong := s.pong + Echo(m), sub := OnSample(s.sub, m, s.clock),
       audit := if m.kind.Finalization? then s.audit.(finSeen := Some(m.num), finSinceReset := true)
                else if m.IsData() && s.audit.first == 0 then s.audit.(first := m.num)
                else s.audit)
  }

  function Apply(c: Config, s: State, step: Step): State
    requires Enabled(c, s, step)
  {
    match step
    case Tick(dt) => s.(clock := s.clock + dt)
    case Pub(ok) => PubStep(c, s, ok)
    case Timeout => s.(pc := Rest(s.clock + SleepUs(c)))
    case PongArrives => PongStep(c, s)
    case PingArrives => PingStep(s)
    case DropPing(i) => s.(ping := Without(s.ping, i))
    case DropPong(i) => s.(pong := Without(s.pong, i))
    case SubReset =>
      s.(sub := Reset(s.sub), subReset := true,
         audit := s.audit.(first := 0, finSinceReset := false))
    case SubStop => s.(subDown := true)
  }

  /** Runs the steps in order; None when one of them is not enabled where it is taken. */
  function Exec(c: Config, s: State, steps: seq<Step>): Option<State> {
    if steps == [] then Some(s)
    else
      var before := Exec(c, s, steps[..|steps| - 1]);
      var step := steps[|steps| - 1];
      if before.Some? && Enabled(c, before.value, step) then Some(Apply(c, before.value, step)) else None
  }

  /** `steps` is a run of the whole system and ends in s. */
  predicate Reaches(c: Config, steps: seq<Step>, s: State) {
    Exec(c, Init(c), steps) == Some(s)
  }

  /** What holds initially and is kept by every step holds wherever a run ends. */
  lemma {:induction false} RunInduction(c: Config, steps: seq<Step>, s: State, inv: State -> bool)
    requires Reaches(c, steps, s)
    requires inv(Init(c))
    requires forall t, step :: inv(t) && Enabled(c, t, step) ==> inv(Apply(c, t, step))
    ensures inv(s)
  {
    if steps != [] {
      var init := steps[..|steps| - 1];
      RunInduction(c, init, Exec(c, Init(c), init).value, inv);
    }
  }

  lemma ReachesStep(c: Config, steps: seq<Step>, s: State, step: Step)
    requires Reaches(c, steps, s) && Enabled(c, s, step)
    ensures Reaches(c, steps + [step], Apply(c, s, step))
  {
    assert (steps + [step])[..|steps|] == steps;
  }

  /** The run with one more step. */
  lemma Extend(c: Config, steps: seq<Step>, s: State, step: Step) returns (steps': seq<Step>, s': State)
    requires Reaches(c, steps, s) && Enabled(c, s, step)
    ensures steps' == steps + [step] && s' == Apply(c, s, step) && Reaches(c, steps', s')
  {
    ReachesStep(c, steps, s, step);
    steps', s' := steps + [step], Apply(c, s, step);
  }

  lemma {:induction false} ExecConcat(c: Config, s: State, xs: seq<Step>, ys: seq<Step>)
    requires Exec(c, s, xs).Some?
    ensures Exec(c, s, xs + ys) == Exec(c, Exec(c, s, xs).value, ys)
  {
    if ys == [] {
      assert xs + ys == xs;
    } else {
      ExecConcat(c, s, xs, ys[..|ys| - 1]);
      assert (xs + ys)[..|xs + ys| - 1] == xs + ys[..|ys| - 1];
    }
  }
}
