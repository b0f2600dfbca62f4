/** The bed statistics, occupancy banding and specialty chips of the
    Departments page (src/components/pages/Departments.jsx). */
module DepartmentsPage {
  import opened Wrappers
  import opened Seqs
  import opened Text
  import opened DepartmentApi

  function BedsOf(d: Department): int { d.totalBeds }
  function OccupiedOf(d: Department): int { d.occupiedBeds }

  /** The "Available" figure on a department card. */
  function FreeBeds(d: Department): int { d.totalBeds - d.occupiedBeds }

  /** Summing the free beds of each department gives total beds minus total
      occupied beds. */
  lemma {:induction false} SumFreeIsDifference(departments: seq<Department>)
    ensures Sum(departments, FreeBeds) == Sum(departments, BedsOf) - Sum(departments, OccupiedOf)
    decreases |departments|
  {
    if departments != [] {
      SumFreeIsDifference(departments[1..]);
    }
  }

  /** The overall statistic cards. */
  datatype BedStats = BedStats(totalBeds: int, totalOccupied: int, overallOccupancy: real, availableBeds: int)

  /** The overall occupancy percentage, guarded: 0 when there are no beds. */
  function OverallOccupancy(totalOccupied: int, totalBeds: int): (r: real)
    ensures totalBeds <= 0 ==> r == 0.0
    ensures totalBeds > 0 ==> r * totalBeds as real == 100.0 * totalOccupied as real
  {
    if totalBeds > 0 then totalOccupied as real / totalBeds as real * 100.0 else 0.0
  }

  function Stats(departments: seq<Department>): (r: BedStats)
    ensures r.totalBeds == Sum(departments, BedsOf) && r.totalBeds >= 0
    ensures r.totalOccupied == Sum(departments, OccupiedOf) && r.totalOccupied >= 0
    ensures r.overallOccupancy == OverallOccupancy(r.totalOccupied, r.totalBeds)
    ensures r.availableBeds == r.totalBeds - r.totalOccupied
    ensures r.availableBeds == Sum(departments, FreeBeds)
  {
    SumNonNegative(departments, BedsOf);
    SumNonNegative(departments, OccupiedOf);
    SumFreeIsDifference(departments);
    var total := Sum(departments, BedsOf);
    var occupied := Sum(departments, OccupiedOf);
    BedStats(total, occupied, OverallOccupancy(occupied, total), total - occupied)
  }

  /** With no department over capacity, the overall figures are in range. */
  lemma StatsInRange(departments: seq<Department>)
    requires forall k :: 0 <= k < |departments| ==> departments[k].occupiedBeds <= departments[k].totalBeds
    ensures var s := Stats(departments);
      && 0 <= s.totalOccupied <= s.totalBeds
      && s.availableBeds >= 0
      && 0.0 <= s.overallOccupancy <= 100.0
  {
    var s := Stats(departments);
    SumNonNegative(departments, FreeBeds);
    assert s.totalOccupied <= s.totalBeds;
    if s.totalBeds > 0 {
      var v := s.overallOccupancy;
      var t := s.totalBeds as real;
      assert v * t == 100.0 * s.totalOccupied as real <= 100.0 * t;
      assert 0.0 <= v * t;
    }
  }

  /** The colour band of a department's occupancy bar. */
  datatype Band = High | Medium | Low

  /** `toFixed(0)` of a non-negative percentage: the nearest whole number,
      halves rounded up. */
  function WholePercent(v: real): int { (v + 0.5).Floor }

  /** The band is decided on the rounded text converted back to a number: the
      text "NaN" passes neither threshold and "Infinity" passes both. */
  function BandOf(rate: Rate): Band {
    match rate
    case NotANumber => Low
    case Infinite => High
    case Percent(v) =>
      if WholePercent(v) >= 90 then High
      else if WholePercent(v) >= 70 then Medium
      else Low
  }

  /** A defined rate rounds to at least `n` percent exactly when
      occupied/total is at least (n - 1/2)/100. */
  lemma RoundedAtLeast(occupied: nat, total: nat, n: int)
    requires total > 0
    ensures WholePercent(RateOf(occupied, total).value) >= n <==>
      200 * occupied >= (2 * n - 1) * total
  {
    var v := RateOf(occupied, total).value;
    var t := total as real;
    var lhs := (200 * occupied) as real;
    var rhs := ((2 * n - 1) * total) as real;
    var bound := n as real - 0.5;
    assert v * t == 100.0 * occupied as real;
    assert 2.0 * (v * t) == lhs;
    assert 2.0 * (bound * t) == rhs;
    assert WholePercent(v) >= n <==> v >= bound;
    if v >= bound {
      assert v * t >= bound * t;
      assert lhs >= rhs;
    } else {
      assert v * t < bound * t;
      assert lhs < rhs;
    }
  }

  /** Each department's band, stated on bed counts: high from 89.5 %, medium
      from 69.5 %, a department with no beds is high when any bed is counted as
      occupied and low otherwise. */
  function DepartmentBand(d: Department): (b: Band)
    ensures b == High <==>
      if d.totalBeds > 0 then 1000 * d.occupiedBeds >= 895 * d.totalBeds else d.occupiedBeds > 0
    ensures b == Medium <==>
      d.totalBeds > 0 && 695 * d.totalBeds <= 1000 * d.occupiedBeds < 895 * d.totalBeds
  {
    if d.totalBeds > 0 then
      RoundedAtLeast(d.occupiedBeds, d.totalBeds, 90);
      RoundedAtLeast(d.occupiedBeds, d.totalBeds, 70);
      BandOf(RateOf(d.occupiedBeds, d.totalBeds))
    else
      BandOf(RateOf(d.occupiedBeds, d.totalBeds))
  }

  /** The chips under a department card: the first two specialties and, when
      more remain, a "+n more" chip. */
  datatype SpecialtyChips = SpecialtyChips(shown: seq<string>, more: Option<string>)

  function Chips(specialties: seq<string>): (r: SpecialtyChips)
    ensures |r.shown| == Min(2, |specialties|)
    ensures r.shown == specialties[..|r.shown|]
    ensures r.more.Some? <==> |specialties| > 2
    ensures r.more.Some? ==>
      var chip := r.more.value;
      && |chip| > 6 && chip[0] == '+' && chip[|chip| - 5..] == " more"
      && AllDigits(chip[1..|chip| - 5])
      && ParseDecimal(chip[1..|chip| - 5]) == |specialties| - 2
  {
    var shown := specialties[..Min(2, |specialties|)];
    if |specialties| > 2 then
      var n := NatToDecimal(|specialties| - 2);
      var chip := "+" + n + " more";
      assert chip[1..|chip| - 5] == n;
      assert chip[|chip| - 5..] == " more";
      DecimalRoundTrip(|specialties| - 2);
      SpecialtyChips(shown, Some(chip))
    else
      SpecialtyChips(shown, None)
  }
}
