/** The message both nodes exchange, and the small types every module shares. */
module Samples {

  datatype Option<+T> = None | Some(value: T)

  /** PerftestTypeKind. */
  datatype Kind = Data | DataPing | Initialization | Finalization

  /** What the engine sees of a PerftestType: its metadata and the size it reports. */
  datatype Sample = Sample(kind: Kind, num: int, ts: nat, size: int) {
    predicate IsData() { kind.Data? || kind.DataPing? }
  }

  /** A sample handed to a listener callback, with the clock reading the callback would get. */
  datatype Arrival = Arrival(sample: Sample, at: nat)

  const INT32_MAX: int := 0x7FFF_FFFF
  const TWO32: nat := 0x1_0000_0000
  const TWO64: nat := 0x1_0000_0000_0000_0000

  /** Arrivals that are not warm-up traffic, in order. */
  function WithoutInit(arrivals: seq<Arrival>): seq<Arrival> {
    if arrivals == [] then []
    else
      var rest := WithoutInit(arrivals[..|arrivals| - 1]);
      var last := arrivals[|arrivals| - 1];
      if last.sample.kind.Initialization? then rest else rest + [last]
  }

  // ---- Selection -------------------------------------------------------------------------

  /** `picked` lists, in increasing order, exactly the positions of xs that satisfy p. */
  ghost predicate Picks<T>(xs: seq<T>, p: T -> bool, picked: seq<nat>) {
    && (forall k :: 0 <= k < |picked| ==> picked[k] < |xs| && p(xs[picked[k]]))
    && (forall j, k :: 0 <= j < k < |picked| ==> picked[j] < picked[k])
    && forall i: nat :: i < |xs| && p(xs[i]) ==> i in picked
  }

  /** The elements at the picked positions, in that order. */
  ghost function ElementsAt<T>(xs: seq<T>, picked: seq<nat>): seq<T>
    requires forall k :: 0 <= k < |picked| ==> picked[k] < |xs|
  {
    seq(|picked|, k requires 0 <= k < |picked| => xs[picked[k]])
  }

  /** One more element: its position joins the picked ones exactly when it satisfies p. */
  lemma PicksNext<T>(xs: seq<T>, p: T -> bool, picked: seq<nat>, x: T)
    requires Picks(xs, p, picked)
    ensures if p(x) then Picks(xs + [x], p, picked + [|xs|]) else Picks(xs + [x], p, picked)
    ensures p(x) ==> ElementsAt(xs + [x], picked + [|xs|]) == ElementsAt(xs, picked) + [x]
    ensures ElementsAt(xs + [x], picked) == ElementsAt(xs, picked)
  {
    var more := picked + [|xs|];
    forall i: nat | i < |xs + [x]| && p((xs + [x])[i]) ensures i in more && (i < |xs| ==> i in picked) {
      if i < |xs| {
        assert p(xs[i]);
      } else {
        assert more[|picked|] == i;
      }
    }
  }

  lemma {:induction false} DistinctCount(picked: seq<nat>)
    requires forall j, k :: 0 <= j < k < |picked| ==> picked[j] < picked[k]
    ensures |set i: nat | i in picked| == |picked|
  {
    if picked == [] {
      assert (set i: nat | i in picked) == {};
    } else {
      var init, last := picked[..|picked| - 1], picked[|picked| - 1];
      DistinctCount(init);
      assert picked == init + [last];
      assert (set i: nat | i in picked) == (set i: nat | i in init) + {last};
      assert last !in init;
    }
  }

  predicate NotInit(a: Arrival) { !a.sample.kind.Initialization? }

  /** WithoutInit keeps exactly what is no warm-up traffic, in order. */
  lemma {:induction false} WithoutInitPicks(arrivals: seq<Arrival>) returns (picked: seq<nat>)
    ensures Picks(arrivals, NotInit, picked)
    ensures WithoutInit(arrivals) == ElementsAt(arrivals, picked)
  {
    picked := [];
    if arrivals != [] {
      var init, last := arrivals[..|arrivals| - 1], arrivals[|arrivals| - 1];
      var before := WithoutInitPicks(init);
      PicksNext(init, NotInit, before, last);
      assert arrivals == init + [last];
      picked := if last.sample.kind.Initialization? then before else before + [|init|];
    }
  }

  // ---- Reported sizes (sequence type) ----------------------------------------------------

  /** PERFTEST_TYPE_OVERHEAD. */
  const OVERHEAD: int := 28

  /** The range check of validate_input and set_sample_size. */
  predicate SizeFits(size: int, maxPayload: nat) {
    OVERHEAD <= size && size - OVERHEAD <= maxPayload
  }

  /** set_sample_size on a sample whose buffer holds maxPayload: a size out of range changes nothing. */
  function SetSize(s: Sample, size: int, maxPayload: nat): Sample {
    if SizeFits(size, maxPayload) then s.(size := size) else s
  }
}
