/**
 Interval admission of the reservation model (tests/formal_wave5_model.rs): the interval test
 against the slot-by-slot occupancy oracle.
 */
module Reservations {

  datatype Interval = Interval(start: int, end: int)

  predicate Overlaps(a: Interval, b: Interval) {
    a.start < b.end && b.start < a.end
  }

  predicate Admissible(existing: seq<Interval>, proposed: Interval) {
    proposed.start < proposed.end && forall i :: 0 <= i < |existing| ==> !Overlaps(existing[i], proposed)
  }

  predicate Covers(interval: Interval, slot: int) {
    interval.start <= slot < interval.end
  }

  predicate Occupied(existing: seq<Interval>, slot: int) {
    exists i :: 0 <= i < |existing| && Covers(existing[i], slot)
  }

  ghost predicate AllSlotsFree(existing: seq<Interval>, proposed: Interval) {
    && proposed.start < proposed.end
    && forall slot :: proposed.start <= slot < proposed.end ==> !Occupied(existing, slot)
  }

  method OccupancyOracle(existing: seq<Interval>, proposed: Interval) returns (free: bool)
    ensures free <==> AllSlotsFree(existing, proposed)
  {
    if proposed.start >= proposed.end {
      return false;
    }
    for slot := proposed.start to proposed.end
      invariant forall s :: proposed.start <= s < slot ==> !Occupied(existing, s)
    {
      if Occupied(existing, slot) {
        return false;
      }
    }
    return true;
  }

  lemma AdmissibleImpliesAllSlotsFree(existing: seq<Interval>, proposed: Interval)
    requires Admissible(existing, proposed)
    ensures AllSlotsFree(existing, proposed)
  {
  }

  /** An interval without slots that lies, written backwards, strictly inside the proposal. */
  predicate EmptyWithin(interval: Interval, proposed: Interval) {
    proposed.start < interval.end <= interval.start < proposed.end
  }

  /**
   Admission and occupancy part exactly when the slots are free but the ledger holds an empty
   interval inside the proposal: the interval test refuses it, the slots do not.
   */
  lemma DisagreementIsExactlyAnEmptyInterval(existing: seq<Interval>, proposed: Interval)
    ensures Admissible(existing, proposed) <==>
            AllSlotsFree(existing, proposed)
            && forall i :: 0 <= i < |existing| ==> !EmptyWithin(existing[i], proposed)
  {
    if Admissible(existing, proposed) {
      AdmissibleImpliesAllSlotsFree(existing, proposed);
      forall i | 0 <= i < |existing| ensures !EmptyWithin(existing[i], proposed) {
        assert !Overlaps(existing[i], proposed);
      }
    } else if AllSlotsFree(existing, proposed) {
      var i :| 0 <= i < |existing| && Overlaps(existing[i], proposed);
      if existing[i].start < existing[i].end {
        var slot := if existing[i].start < proposed.start then proposed.start else existing[i].start;
        assert Covers(existing[i], slot);
        assert Occupied(existing, slot);
      } else {
        assert EmptyWithin(existing[i], proposed);
      }
    }
  }

  ghost predicate AllNonEmpty(ledger: seq<Interval>) {
    forall i :: 0 <= i < |ledger| ==> ledger[i].start < ledger[i].end
  }

  ghost predicate PairwiseDisjoint(ledger: seq<Interval>) {
    forall i, j :: 0 <= i < j < |ledger| ==> !Overlaps(ledger[i], ledger[j])
  }

  lemma AgreementOnNonEmptyLedgers(existing: seq<Interval>, proposed: Interval)
    requires AllNonEmpty(existing)
    ensures Admissible(existing, proposed) <==> AllSlotsFree(existing, proposed)
  {
    DisagreementIsExactlyAnEmptyInterval(existing, proposed);
  }

  /** Without the side condition the two tests do differ. */
  lemma DisagreementExample()
    ensures !Admissible([Interval(3, 2)], Interval(0, 5))
    ensures AllSlotsFree([Interval(3, 2)], Interval(0, 5))
  {
    assert Overlaps([Interval(3, 2)][0], Interval(0, 5));
  }

  /** A ledger that starts empty and only ever accepts admissible intervals. */
  ghost predicate GrownByAdmission(ledger: seq<Interval>) {
    ledger == []
    || (var n := |ledger| - 1; GrownByAdmission(ledger[..n]) && Admissible(ledger[..n], ledger[n]))
  }

  function SlotsOf(interval: Interval): set<int> {
    set slot | interval.start <= slot < interval.end && Covers(interval, slot)
  }

  function OccupiedSlots(ledger: seq<Interval>): set<int> {
    if ledger == [] then {} else OccupiedSlots(ledger[..|ledger| - 1]) + SlotsOf(ledger[|ledger| - 1])
  }

  function TotalLength(ledger: seq<Interval>): int {
    if ledger == [] then 0
    else TotalLength(ledger[..|ledger| - 1]) + ledger[|ledger| - 1].end - ledger[|ledger| - 1].start
  }

  lemma {:induction false} SlotCount(start: int, end: int)
    requires start <= end
    ensures |SlotsOf(Interval(start, end))| == end - start
    decreases end - start
  {
    if start < end {
      SlotCount(start, end - 1);
      assert SlotsOf(Interval(start, end)) == SlotsOf(Interval(start, end - 1)) + {end - 1};
    } else {
      assert SlotsOf(Interval(start, end)) == {};
    }
  }

  lemma {:induction false} OccupiedSlotsAreOccupied(ledger: seq<Interval>, slot: int)
    ensures slot in OccupiedSlots(ledger) <==> Occupied(ledger, slot)
  {
    if ledger != [] {
      var n := |ledger| - 1;
      OccupiedSlotsAreOccupied(ledger[..n], slot);
      if Occupied(ledger[..n], slot) {
        var i :| 0 <= i < n && Covers(ledger[..n][i], slot);
        assert Covers(ledger[i], slot);
      }
      if Occupied(ledger, slot) && slot !in SlotsOf(ledger[n]) {
        var i :| 0 <= i < |ledger| && Covers(ledger[i], slot);
        assert i < n && ledger[..n][i] == ledger[i];
      }
    }
  }

  /** Every grown ledger holds non-empty, pairwise disjoint intervals, and no slot is counted twice. */
  lemma {:induction false} GrownLedgersConserveSlots(ledger: seq<Interval>)
    requires GrownByAdmission(ledger)
    ensures AllNonEmpty(ledger) && PairwiseDisjoint(ledger)
    ensures |OccupiedSlots(ledger)| == TotalLength(ledger)
  {
    if ledger != [] {
      var n := |ledger| - 1;
      var before, last := ledger[..n], ledger[n];
      GrownLedgersConserveSlots(before);
      forall i, j | 0 <= i < j < |ledger| ensures !Overlaps(ledger[i], ledger[j]) {
        if j == n {
          assert before[i] == ledger[i] && !Overlaps(before[i], last);
        } else {
          assert before[i] == ledger[i] && before[j] == ledger[j];
        }
      }
      forall i | 0 <= i < |ledger| ensures ledger[i].start < ledger[i].end {
        if i < n {
          assert before[i] == ledger[i];
        }
      }
      AdmissibleImpliesAllSlotsFree(before, last);
      forall slot | slot in OccupiedSlots(before) ensures slot !in SlotsOf(last) {
        OccupiedSlotsAreOccupied(before, slot);
      }
      assert OccupiedSlots(before) !! SlotsOf(last);
      SlotCount(last.start, last.end);
    }
  }

  /** On a grown ledger the interval test is the occupancy oracle, for every proposal. */
  lemma GrownLedgersAgreeWithOracle(ledger: seq<Interval>, proposed: Interval)
    requires GrownByAdmission(ledger)
    ensures Admissible(ledger, proposed) <==> AllSlotsFree(ledger, proposed)
  {
    GrownLedgersConserveSlots(ledger);
    AgreementOnNonEmptyLedgers(ledger, proposed);
  }
}
