/** PubCtx as the running publisher updates it: pong callback, send loop, result capture, finalization loop. */
module PublisherEngine {
  import opened Samples
  import opened Percentiles
  import opened Publisher
  import opened Protocol
  import opened ReaderTake

  /** The send loop's variables; `written` is what it handed to the ping writer. */
  datatype Local = Local(number: int, total: nat, ctx: Ctx, written: seq<Sample>)

  /**
   * The environment of one turn: the clock at the loop test and at the stamp, the outcome of the
   * write, the pongs handled before the semaphore wait ends, and those handled before the next test.
   */
  datatype Turn = Turn(guardAt: nat, stampAt: nat, ok: bool, pongs: seq<Arrival>, late: seq<Arrival>)

  function TurnSample(c: Config, n: int, ts: nat): Sample {
    Sample(if IsPing(c, n) then DataPing else Data, n, ts, c.dataLen)
  }

  predicate Waits(c: Config, n: int, ok: bool) { ok && IsPing(c, n) && c.latencyTest }

  function TakeToken(x: Ctx, waits: bool): Ctx { if waits then x.(token := false) else x }

  /** The statistics and the semaphore after turn n. */
  function TurnCtx(c: Config, x: Ctx, n: int, turn: Turn): Ctx {
    FeedPongs(c.history, TakeToken(FeedPongs(c.history, x, turn.pongs), Waits(c, n, turn.ok)), turn.late)
  }

  /** What turn n writes. */
  function TurnWrote(c: Config, n: int, turn: Turn): seq<Sample> {
    if turn.ok then [TurnSample(c, n, turn.stampAt)] else []
  }

  function AfterTurn(c: Config, l: Local, turn: Turn): Local {
    var n := l.number + 1;
    Local(n, l.total + |TurnWrote(c, n, turn)|, TurnCtx(c, l.ctx, n, turn), l.written + TurnWrote(c, n, turn))
  }

  function AfterTurns(c: Config, l: Local, script: seq<Turn>): Local {
    if script == [] then l
    else AfterTurn(c, AfterTurns(c, l, script[..|script| - 1]), script[|script| - 1])
  }

  /** The loop's variables after the first n turns of a script. */
  function LocalAfter(c: Config, l: Local, script: seq<Turn>, n: nat): Local
    requires n <= |script|
  {
    AfterTurns(c, l, script[..n])
  }

  lemma TurnTaken(c: Config, l: Local, script: seq<Turn>, i: nat)
    requires i < |script|
    ensures LocalAfter(c, l, script, i + 1) == AfterTurn(c, LocalAfter(c, l, script, i), script[i])
  {
    assert script[..i + 1][..i] == script[..i];
  }

  /** Numbered strictly upwards within 1..last, sized and marked as configured. */
  ghost predicate AsConfigured(c: Config, written: seq<Sample>, last: int) {
    && (forall i :: 0 <= i < |written| ==>
         1 <= written[i].num <= last && written[i] == TurnSample(c, written[i].num, written[i].ts))
    && (forall i, j :: 0 <= i < j < |written| ==> written[i].num < written[j].num)
  }

  lemma WritesNext(c: Config, written: seq<Sample>, n: int, turn: Turn)
    requires AsConfigured(c, written, n - 1) && n >= 1
    ensures AsConfigured(c, written, n) && AsConfigured(c, written + TurnWrote(c, n, turn), n)
  {
  }

  /** The samples the loop wrote: as configured, one per success. */
  lemma {:induction false} WrittenInOrder(c: Config, ctx: Ctx, script: seq<Turn>)
    ensures var l := AfterTurns(c, Local(0, 0, ctx, []), script);
            l.number == |script| && |l.written| == l.total && AsConfigured(c, l.written, l.number)
  {
    if script != [] {
      var init := script[..|script| - 1];
      WrittenInOrder(c, ctx, init);
      WritesNext(c, AfterTurns(c, Local(0, 0, ctx, []), init).written, |script|, script[|script| - 1]);
    }
  }

  /** The pong callback as a value, the form ReaderTake.Deliver folds. */
  function Callback(capacity: nat): (Ctx, Arrival) -> Ctx {
    (x: Ctx, a: Arrival) => OnPong(capacity, x, a.sample, a.at)
  }

  lemma {:induction false} DeliverIsFeedPongs(capacity: nat, x: Ctx, arrivals: seq<Arrival>)
    ensures Deliver(Callback(capacity), x, arrivals) == FeedPongs(capacity, x, arrivals)
  {
    if arrivals != [] {
      DeliverIsFeedPongs(capacity, x, arrivals[..|arrivals| - 1]);
    }
  }

  /** However the pongs are batched into takes, the statistics are those of the valid pongs one by one. */
  lemma PublisherIgnoresBatching(capacity: nat, x: Ctx, replies: seq<TakeReply>)
    ensures Takes(Callback(capacity), x, replies).0 == FeedPongs(capacity, x, ValidOnly(Stream(replies)))
  {
    BatchInvariance(Callback(capacity), x, replies);
    DeliverIsFeedPongs(capacity, x, ValidOnly(Stream(replies)));
  }

  datatype FinTurn = FinTurn(ok: bool, pongs: seq<Arrival>)

  /** How many of the first n turns wrote. */
  function FinWrites(script: seq<FinTurn>, n: nat): nat
    requires n <= |script|
  {
    if n == 0 then 0 else FinWrites(script, n - 1) + (if script[n - 1].ok then 1 else 0)
  }

  /** The statistics after n turns of the finalization loop. */
  function FinCtx(capacity: nat, x: Ctx, script: seq<FinTurn>, n: nat): Ctx
    requires n <= |script|
  {
    if n == 0 then x else FeedPongs(capacity, FinCtx(capacity, x, script, n - 1), script[n - 1].pongs)
  }

  class PubCtx {
    var finishedRemote: bool
    /** The binary semaphore. */
    var token: bool
    var latSumUs: nat
    var latCount: nat
    var latMinUs: nat
    var latMaxUs: nat
    /** Empty when the history is disabled or its allocation failed. */
    const latHistory: array<nat>
    var latHistoryCount: nat

    ghost predicate Valid()
      reads this
    {
      latHistoryCount <= latHistory.Length
    }

    ghost function View(): Ctx
      requires Valid()
      reads this, latHistory
    {
      Ctx(finishedRemote, token, latSumUs, latCount, latMinUs, latMaxUs, latHistory[..latHistoryCount])
    }

    constructor (capacity: nat)
      ensures Valid() && View() == ZERO_CTX && fresh(latHistory) && latHistory.Length == capacity
    {
      finishedRemote, token := false, false;
      latSumUs, latCount, latMinUs, latMaxUs := 0, 0, NO_MIN, 0;
      latHistory := new nat[capacity];
      latHistoryCount := 0;
    }

    method OnPongSample(s: Sample, now: nat)
      requires Valid()
      modifies this, latHistory
      ensures Valid() && View() == OnPong(latHistory.Length, old(View()), s, now)
    {
      if s.kind == Initialization {
        return;
      }
      if s.kind == Finalization {
        finishedRemote := true;
        return;
      }
      RecordLatency(if now > s.ts then (now - s.ts) / 2 else 0);
      token := true;
    }

    method RecordLatency(latency: nat)
      requires Valid()
      modifies this, latHistory
      ensures Valid() && View() == Record(latHistory.Length, old(View()), latency)
    {
      latSumUs := (latSumUs + latency) % TWO64;
      latCount := latCount + 1;
      if latency > latMaxUs {
        latMaxUs := latency;
      }
      if latency < latMinUs {
        latMinUs := latency;
      }
      if latHistoryCount < latHistory.Length {
        latHistory[latHistoryCount] := if latency > TWO32 - 1 then TWO32 - 1 else latency;
        latHistoryCount := latHistoryCount + 1;
      }
    }

    method HandlePongs(pongs: seq<Arrival>)
      requires Valid()
      modifies this, latHistory
      ensures Valid() && View() == FeedPongs(latHistory.Length, old(View()), pongs)
    {
      for i := 0 to |pongs|
        invariant Valid() && View() == FeedPongs(latHistory.Length, old(View()), pongs[..i])
      {
        assert pongs[..i + 1][..i] == pongs[..i];
        OnPongSample(pongs[i].sample, pongs[i].at);
      }
      assert pongs[..|pongs|] == pongs;
    }

    method ResetStatistics()
      requires Valid()
      modifies this
      ensures Valid() && View() == ResetStats(old(View()))
    {
      latSumUs, latCount, latMinUs, latMaxUs, latHistoryCount := 0, 0, NO_MIN, 0, 0;
    }

    /** The body of the send loop. */
    method SendOne(c: Config, n: int, turn: Turn) returns (sent: seq<Sample>)
      requires Valid() && latHistory.Length == c.history
      modifies this, latHistory
      ensures Valid()
      ensures View() == TurnCtx(c, old(View()), n, turn)
      ensures sent == TurnWrote(c, n, turn)
    {
      var isPing := c.latencyTest || (c.latencyCount > 0 && n % c.latencyCount == 0);
      sent := if turn.ok then [Sample(if isPing then DataPing else Data, n, turn.stampAt, c.dataLen)] else [];
      HandlePongs(turn.pongs);
      if turn.ok && isPing && c.latencyTest {
        token := false;
      }
      HandlePongs(turn.late);
    }

    /**
     * The send loop of run_one_size. It runs a turn for every loop test that falls inside the test
     * duration and stops at the first that does not, or where the script ends.
     */
    method SendLoop(c: Config, t0: nat, script: seq<Turn>) returns (turns: nat, number: int, total: nat, written: seq<Sample>)
      requires Valid() && latHistory.Length == c.history
      requires forall i :: 0 <= i < |script| ==> t0 <= script[i].guardAt
      modifies this, latHistory
      ensures Valid() && turns <= |script|
      ensures Local(number, total, View(), written) == LocalAfter(c, Local(0, 0, old(View()), []), script, turns)
      ensures forall i :: 0 <= i < turns ==> script[i].guardAt - t0 < TimeoutUs(c)
      ensures turns < |script| ==> script[turns].guardAt - t0 >= TimeoutUs(c)
    {
      turns, number, total, written := 0, 0, 0, [];
      ghost var x := Local(0, 0, View(), []);
      while turns < |script| && script[turns].guardAt - t0 < TimeoutUs(c)
        invariant Valid() && 0 <= turns <= |script|
        invariant Local(number, total, View(), written) == LocalAfter(c, x, script, turns)
        invariant forall i :: 0 <= i < turns ==> script[i].guardAt - t0 < TimeoutUs(c)
      {
        TurnTaken(c, x, script, turns);
        number := number + 1;
        var sent := SendOne(c, number, script[turns]);
        if sent != [] {
          total := total + 1;
        }
        written := written + sent;
        turns := turns + 1;
      }
    }

    /** Sorting the history in place and filling the result row. */
    method CaptureResult(size: int, total: nat, elapsed: int) returns (r: PubResult)
      requires Valid() && latHistory.Length < TWO32
      modifies latHistory
      ensures Valid() && r == Capture(old(View()), size, total, elapsed)
      ensures RowReads(r, old(View()), size, total, elapsed)
      ensures View() == old(View()).(history := Ascending(old(View()).history))
    {
      CaptureReads(View(), size, total, elapsed);
      var n := latHistoryCount;
      var p50, p90, p99 := 0, 0, 0;
      SortHistory(latHistory, n);
      AscendingPermutes(old(View()).history);
      if n > 0 {
        IndexInRange(n, 50);
        IndexInRange(n, 90);
        IndexInRange(n, 99);
        p50, p90, p99 := latHistory[n * 50 % TWO32 / 100], latHistory[n * 90 % TWO32 / 100], latHistory[n * 99 % TWO32 / 100];
        assert latHistory[..n] == Ascending(old(View()).history);
        assert p50 == latHistory[..n][Index(n, 50)] && p90 == latHistory[..n][Index(n, 90)] && p99 == latHistory[..n][Index(n, 99)];
      }
      r := PubResult(size, total, latCount, if latCount == 0 then 0 else latSumUs / latCount,
                     if latMinUs == NO_MIN then 0 else latMinUs, p50, p90, p99, latMaxUs, elapsed);
    }

    /** run_one_size behind the warm-up: reset, send loop, result row. */
    method RunOneSize(c: Config, t0: nat, endAt: nat, script: seq<Turn>)
      returns (turns: nat, number: int, written: seq<Sample>, r: PubResult)
      requires Valid() && latHistory.Length == c.history < TWO32
      requires forall i :: 0 <= i < |script| ==> t0 <= script[i].guardAt
      modifies this, latHistory
      ensures Valid() && turns <= |script|
      ensures forall i :: 0 <= i < turns ==> script[i].guardAt - t0 < TimeoutUs(c)
      ensures turns < |script| ==> script[turns].guardAt - t0 >= TimeoutUs(c)
      ensures var l := LocalAfter(c, Local(0, 0, ResetStats(old(View())), []), script, turns);
              && number == l.number && written == l.written
              && |l.ctx.history| < TWO32 && r == Capture(l.ctx, c.dataLen, l.total, endAt - t0)
              && RowReads(r, l.ctx, c.dataLen, |written|, endAt - t0)
              && View() == l.ctx.(history := Ascending(l.ctx.history))
    {
      ResetStatistics();
      var total;
      ghost var x := View();
      turns, number, total, written := SendLoop(c, t0, script);
      WrittenInOrder(c, x, script[..turns]);
      r := CaptureResult(c.dataLen, total, endAt - t0);
    }

    /** One send of the finalization loop and the pongs that arrive during its pause. */
    method FinalizeOnce(m: Sample, turn: FinTurn) returns (out: seq<Sample>)
      requires Valid()
      modifies this, latHistory
      ensures Valid()
      ensures View() == FeedPongs(latHistory.Length, old(View()), turn.pongs)
      ensures out == if turn.ok then [m] else []
    {
      out := if turn.ok then [m] else [];
      HandlePongs(turn.pongs);
    }

    /** The finalization loop on the reused sample: at most ten sends, and fewer only once the peer has answered. */
    method Finalize(last: Sample, lastSeq: int, script: seq<FinTurn>) returns (turns: nat, written: seq<Sample>)
      requires Valid() && |script| >= 10
      modifies this, latHistory
      ensures Valid() && turns <= 10 && (turns < 10 ==> finishedRemote)
      ensures View() == FinCtx(latHistory.Length, old(View()), script, turns)
      ensures |written| == FinWrites(script, turns)
      ensures forall m :: m in written ==> m == last.(kind := Finalization, num := lastSeq)
      ensures forall k :: 0 <= k < turns ==> !FinCtx(latHistory.Length, old(View()), script, k).finishedRemote
    {
      turns, written := 0, [];
      ghost var x := View();
      while turns < 10 && !finishedRemote
        invariant Valid() && 0 <= turns <= 10
        invariant View() == FinCtx(latHistory.Length, x, script, turns)
        invariant |written| == FinWrites(script, turns)
        invariant forall m :: m in written ==> m == last.(kind := Finalization, num := lastSeq)
        invariant forall k :: 0 <= k < turns ==> !FinCtx(latHistory.Length, x, script, k).finishedRemote
      {
        var out := FinalizeOnce(last.(kind := Finalization, num := lastSeq), script[turns]);
        written := written + out;
        turns := turns + 1;
      }
    }
  }
}
