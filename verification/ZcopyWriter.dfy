/** micro_writer_write_zcopy: where each DDS loan ends. */
module ZcopyWriter {

  datatype LoanReply = Granted | OutOfResources | Failed

  /** What the library and the type answer during one write, in call order. */
  datatype Outcomes = Outcomes(getLoan: LoanReply, copyOk: bool, writeOk: bool, discardOk: bool)

  /** Running counts over all writes. */
  datatype Ledger = Ledger(acquired: nat, handed: nat, discards: nat, stuck: nat)

  const NO_LOANS := Ledger(0, 0, 0, 0)

  /** Loans the writer holds and could still use or return. */
  function Held(l: Ledger): int { l.acquired - l.handed - (l.discards - l.stuck) }

  /** One write, with its return code. */
  function Write(l: Ledger, o: Outcomes): (Ledger, int) {
    if o.getLoan != Granted then (l, -1)
    else
      var taken := l.(acquired := l.acquired + 1);
      if o.copyOk && o.writeOk then (taken.(handed := taken.handed + 1), 0)
      else (taken.(discards := taken.discards + 1, stuck := taken.stuck + (if o.discardOk then 0 else 1)), -1)
  }

  /** The ledger after a series of writes, and how many returned 0. */
  function Writes(series: seq<Outcomes>): (Ledger, nat) {
    if series == [] then (NO_LOANS, 0)
    else
      var (before, successes) := Writes(series[..|series| - 1]);
      var (after, rc) := Write(before, series[|series| - 1]);
      (after, successes + (if rc == 0 then 1 else 0))
  }

  // How one write ends, in terms of what the library and the type answered.

  predicate Acquired(o: Outcomes) { o.getLoan.Granted? }

  predicate HandedOver(o: Outcomes) { Acquired(o) && o.copyOk && o.writeOk }

  predicate Discarded(o: Outcomes) { Acquired(o) && !(o.copyOk && o.writeOk) }

  predicate Leaked(o: Outcomes) { Discarded(o) && !o.discardOk }

  /** The writes of a series that end in a given way. */
  ghost function Ending(series: seq<Outcomes>, p: Outcomes -> bool): set<nat> {
    set i: nat | i < |series| && p(series[i])
  }

  lemma EndingNext(series: seq<Outcomes>, o: Outcomes, p: Outcomes -> bool)
    ensures |Ending(series + [o], p)| == |Ending(series, p)| + (if p(o) then 1 else 0)
  {
    var more := series + [o];
    assert forall i: nat :: i < |series| ==> more[i] == series[i];
    assert Ending(more, p) == Ending(series, p) + if p(o) then {|series|} else {};
  }

  /** The ledger counts the writes of each ending, and the writes that return 0 are those handed over. */
  lemma {:induction false} LedgerCounts(series: seq<Outcomes>)
    ensures var (l, successes) := Writes(series);
            && l.acquired == |Ending(series, Acquired)| && l.handed == |Ending(series, HandedOver)| == successes
            && l.discards == |Ending(series, Discarded)| && l.stuck == |Ending(series, Leaked)|
  {
    if series == [] {
      assert forall p: Outcomes -> bool :: Ending(series, p) == {};
    } else {
      var init, o := series[..|series| - 1], series[|series| - 1];
      assert series == init + [o];
      LedgerCounts(init);
      EndingNext(init, o, Acquired);
      EndingNext(init, o, HandedOver);
      EndingNext(init, o, Discarded);
      EndingNext(init, o, Leaked);
    }
  }

  /**
   * Over any series of writes and failures each loan ends exactly once, handed to DDS or in a discard
   * attempt; the writes that return 0 are the handed-over loans, and a loan stays held exactly where a
   * discard failed.
   */
  lemma LoanConservation(series: seq<Outcomes>)
    ensures var (l, successes) := Writes(series);
            && l.acquired == l.handed + l.discards
            && successes == l.handed == |Ending(series, HandedOver)|
            && Held(l) == |Ending(series, Leaked)|
            && (Held(l) == 0 <==> forall i :: 0 <= i < |series| ==> !Leaked(series[i]))
  {
    LedgerCounts(series);
    EndsOnce(series);
    if forall i :: 0 <= i < |series| ==> !Leaked(series[i]) {
      assert Ending(series, Leaked) == {};
    } else {
      var i :| 0 <= i < |series| && Leaked(series[i]);
      assert i in Ending(series, Leaked);
    }
  }

  lemma EndsOnce(series: seq<Outcomes>)
    ensures |Ending(series, Acquired)| == |Ending(series, HandedOver)| + |Ending(series, Discarded)|
  {
    assert Ending(series, Acquired) == Ending(series, HandedOver) + Ending(series, Discarded);
    assert Ending(series, HandedOver) !! Ending(series, Discarded);
  }

  class Writer {
    var ledger: Ledger

    constructor ()
      ensures ledger == NO_LOANS
    {
      ledger := NO_LOANS;
    }

    method WriteZcopy(o: Outcomes) returns (rc: int)
      modifies this
      ensures (ledger, rc) == Write(old(ledger), o)
      ensures rc == 0 <==> o.getLoan == Granted && o.copyOk && o.writeOk
    {
      if o.getLoan == OutOfResources {
        return -1;
      }
      if o.getLoan != Granted {
        return -1;
      }
      ledger := ledger.(acquired := ledger.acquired + 1);
      if o.copyOk {
        if o.writeOk {
          ledger := ledger.(handed := ledger.handed + 1);
          return 0;
        }
      }
      ledger := ledger.(discards := ledger.discards + 1);
      if !o.discardOk {
        ledger := ledger.(stuck := ledger.stuck + 1);
      }
      rc := -1;
    }
  }
}
