/** micro_reader_take: one DDS take, filtered and pushed into a listener callback. */
module ReaderTake {
  import opened Samples

  /** A taken sample with its SampleInfo.valid_data flag. */
  datatype Entry = Entry(valid: bool, arrival: Arrival)

  /** What DDS answers a take with: a failure (nothing to read included) or a loan of entries. */
  datatype TakeReply = NoLoan | Loaned(entries: seq<Entry>)

  function ValidOnly(entries: seq<Entry>): seq<Arrival> {
    if entries == [] then []
    else
      var rest, last := ValidOnly(entries[..|entries| - 1]), entries[|entries| - 1];
      if last.valid then rest + [last.arrival] else rest
  }

  predicate IsValid(e: Entry) { e.valid }

  /** ValidOnly is what the valid_data flags select, in order; its length counts the flags that are set. */
  lemma {:induction false} ValidOnlyPicks(entries: seq<Entry>) returns (picked: seq<nat>)
    ensures Picks(entries, IsValid, picked) && ValidOnly(entries) == ArrivalsAt(entries, picked)
  {
    picked := [];
    if entries != [] {
      var init, last := entries[..|entries| - 1], entries[|entries| - 1];
      var before := ValidOnlyPicks(init);
      PicksNext(init, IsValid, before, last);
      assert entries == init + [last];
      picked := if last.valid then before + [|init|] else before;
      assert ArrivalsAt(entries, before) == ArrivalsAt(init, before);
    }
  }

  lemma FlagCount(entries: seq<Entry>, picked: seq<nat>)
    requires Picks(entries, IsValid, picked)
    ensures |picked| == |set i: nat | i < |entries| && entries[i].valid|
  {
    var flagged := set i: nat | i < |entries| && entries[i].valid;
    assert flagged == set i: nat | i in picked by {
      forall i: nat ensures i in flagged <==> i in picked {
        assert i < |entries| && IsValid(entries[i]) ==> i in picked;
      }
    }
    DistinctCount(picked);
  }

  ghost function ArrivalsAt(entries: seq<Entry>, picked: seq<nat>): seq<Arrival>
    requires forall k :: 0 <= k < |picked| ==> picked[k] < |entries|
  {
    seq(|picked|, k requires 0 <= k < |picked| => entries[picked[k]].arrival)
  }

  /** Calling the callback on each arrival in order. */
  function Deliver<S>(cb: (S, Arrival) -> S, state: S, arrivals: seq<Arrival>): S {
    if arrivals == [] then state
    else cb(Deliver(cb, state, arrivals[..|arrivals| - 1]), arrivals[|arrivals| - 1])
  }

  function Offered(reply: TakeReply): seq<Entry> {
    if reply.NoLoan? then [] else reply.entries
  }

  /**
   * The callback sees the arrivals whose flag is set, in order, and the return value is their number; a
   * failed take does nothing. `picked` names the positions.
   */
  method Take<S>(cb: (S, Arrival) -> S, init: S, reply: TakeReply) returns (state: S, taken: nat, ghost picked: seq<nat>)
    ensures reply.NoLoan? ==> state == init && taken == 0
    ensures reply.Loaned? ==>
      && Picks(reply.entries, IsValid, picked)
      && state == Deliver(cb, init, ArrivalsAt(reply.entries, picked))
      && taken == |set i: nat | i < |reply.entries| && reply.entries[i].valid|
    ensures state == Deliver(cb, init, ValidOnly(Offered(reply))) && taken == |ValidOnly(Offered(reply))|
  {
    state, taken, picked := init, 0, [];
    if reply.NoLoan? {
      return;
    }
    var entries := reply.entries;
    for i := 0 to |entries|
      invariant state == Deliver(cb, init, ValidOnly(entries[..i]))
      invariant taken == |ValidOnly(entries[..i])|
    {
      assert entries[..i + 1][..i] == entries[..i];
      if !entries[i].valid {
        continue;
      }
      ghost var before := ValidOnly(entries[..i]);
      assert ValidOnly(entries[..i + 1]) == before + [entries[i].arrival];
      assert (before + [entries[i].arrival])[..|before|] == before;
      state := cb(state, entries[i].arrival);
      taken := taken + 1;
    }
    assert entries[..|entries|] == entries;
    picked := ValidOnlyPicks(entries);
    FlagCount(entries, picked);
  }

  // ---- Splitting a stream into takes -----------------------------------------------------

  /** The callback state and the sum of the take counts after a series of takes. */
  function Takes<S>(cb: (S, Arrival) -> S, state: S, replies: seq<TakeReply>): (S, nat) {
    if replies == [] then (state, 0)
    else
      var (before, count) := Takes(cb, state, replies[..|replies| - 1]);
      var valid := ValidOnly(Offered(replies[|replies| - 1]));
      (Deliver(cb, before, valid), count + |valid|)
  }

  /** All entries the series offered, as one stream. */
  function Stream(replies: seq<TakeReply>): seq<Entry> {
    if replies == [] then [] else Stream(replies[..|replies| - 1]) + Offered(replies[|replies| - 1])
  }

  lemma {:induction false} ValidOnlyConcat(xs: seq<Entry>, ys: seq<Entry>)
    ensures ValidOnly(xs + ys) == ValidOnly(xs) + ValidOnly(ys)
  {
    if ys == [] {
      assert xs + ys == xs;
    } else {
      ValidOnlyConcat(xs, ys[..|ys| - 1]);
      assert (xs + ys)[..|xs + ys| - 1] == xs + ys[..|ys| - 1];
    }
  }

  lemma {:induction false} DeliverConcat<S>(cb: (S, Arrival) -> S, state: S, xs: seq<Arrival>, ys: seq<Arrival>)
    ensures Deliver(cb, state, xs + ys) == Deliver(cb, Deliver(cb, state, xs), ys)
  {
    if ys == [] {
      assert xs + ys == xs;
    } else {
      DeliverConcat(cb, state, xs, ys[..|ys| - 1]);
      assert (xs + ys)[..|xs + ys| - 1] == xs + ys[..|ys| - 1];
    }
  }

  /**
   * However the delivered stream is cut into takes, and wherever invalid entries and failed takes
   * fall, the callback ends where handling the valid samples one by one ends, and the take counts
   * add up to the number of valid samples.
   */
  lemma {:induction false} BatchInvariance<S>(cb: (S, Arrival) -> S, state: S, replies: seq<TakeReply>)
    ensures Takes(cb, state, replies).0 == Deliver(cb, state, ValidOnly(Stream(replies)))
    ensures Takes(cb, state, replies).1 == |ValidOnly(Stream(replies))|
  {
    if replies != [] {
      var init, last := replies[..|replies| - 1], Offered(replies[|replies| - 1]);
      BatchInvariance(cb, state, init);
      ValidOnlyConcat(Stream(init), last);
      DeliverConcat(cb, state, ValidOnly(Stream(init)), ValidOnly(last));
    }
  }
}
