/** The statistics, recent-appointments list and department overview of the
    Dashboard page (src/components/pages/Dashboard.jsx). */
module DashboardPage {
  import opened Seqs
  import opened AppointmentApi
  import opened PatientApi
  import opened DepartmentApi
  import PatientsPage
  import DepartmentsPage

  /** The four statistic cards' figures. */
  datatype DashboardStats = DashboardStats(
    totalPatients: nat,
    activePatients: nat,
    todaysAppointments: nat,
    totalBeds: int,
    occupiedBeds: int,
    occupancyRate: real)

  function Stats(patients: seq<Patient>, appointments: seq<Appointment>,
                 departments: seq<Department>, now: int): (r: DashboardStats)
    ensures r.totalPatients == |patients|
    ensures r.activePatients == PatientsPage.ActiveCount(patients) <= r.totalPatients
    ensures r.todaysAppointments == |OnDay(appointments, now)| <= |appointments|
    ensures r.totalBeds == DepartmentsPage.Stats(departments).totalBeds >= 0
    ensures r.occupiedBeds == DepartmentsPage.Stats(departments).totalOccupied >= 0
    ensures r.occupancyRate == DepartmentsPage.OverallOccupancy(r.occupiedBeds, r.totalBeds)
  {
    var beds := DepartmentsPage.Stats(departments);
    DashboardStats(|patients|, PatientsPage.ActiveCount(patients), |OnDay(appointments, now)|,
                   beds.totalBeds, beds.totalOccupied, beds.overallOccupancy)
  }

  /** Latest first. */
  ghost predicate SortedByDateDesc(s: seq<Appointment>) {
    forall i, j :: 0 <= i < j < |s| ==> s[i].date >= s[j].date
  }

  /** Inserts `x` into a list sorted latest first, ahead of the appointments
      no later than it. */
  function InsertByDateDesc(x: Appointment, s: seq<Appointment>): (r: seq<Appointment>)
    requires SortedByDateDesc(s)
    ensures SortedByDateDesc(r)
    ensures multiset(r) == multiset(s) + multiset{x}
    ensures |r| == |s| + 1 && (r[0] == x || (s != [] && r[0] == s[0]))
    decreases |s|
  {
    if s == [] || x.date >= s[0].date then
      [x] + s
    else
      var rest := InsertByDateDesc(x, s[1..]);
      assert s == [s[0]] + s[1..];
      assert rest[0].date <= s[0].date;
      [s[0]] + rest
  }

  /** `appointments.sort((a, b) => b.date - a.date)` as a value: the same
      appointments, latest first. */
  function SortByDateDesc(s: seq<Appointment>): (r: seq<Appointment>)
    ensures SortedByDateDesc(r)
    ensures multiset(r) == multiset(s)
    ensures |r| == |s|
    decreases |s|
  {
    if s == [] then []
    else
      assert s == [s[0]] + s[1..];
      InsertByDateDesc(s[0], SortByDateDesc(s[1..]))
  }

  /** In a list sorted latest first, every element of a prefix is no later
      than every element after it. */
  lemma PrefixNoEarlier(sorted: seq<Appointment>, n: nat)
    requires SortedByDateDesc(sorted) && n <= |sorted|
    ensures forall x, y :: x in sorted[..n] && y in sorted[n..] ==> x.date >= y.date
  {
    forall x, y | x in sorted[..n] && y in sorted[n..]
      ensures x.date >= y.date
    {
      var i :| 0 <= i < n && sorted[..n][i] == x;
      var j :| 0 <= j < |sorted| - n && sorted[n..][j] == y;
      assert sorted[i] == x && sorted[n + j] == y;
    }
  }

  /** A value with more copies in `s` than in a prefix of `s` occurs after
      that prefix. */
  lemma LeftOutInSuffix(s: seq<Appointment>, n: nat)
    requires n <= |s|
    ensures multiset(s[..n]) <= multiset(s)
    ensures forall y :: multiset(s)[y] > multiset(s[..n])[y] ==> y in s[n..]
  {
    assert s == s[..n] + s[n..];
    assert multiset(s) == multiset(s[..n]) + multiset(s[n..]);
  }

  /** The five latest appointments, latest first. Every appointment left out is
      no later than every one shown. */
  function RecentAppointments(s: seq<Appointment>): (r: seq<Appointment>)
    ensures |r| == Min(5, |s|)
    ensures SortedByDateDesc(r)
    ensures multiset(r) <= multiset(s)
    ensures forall x, y :: x in r && multiset(s)[y] > multiset(r)[y] ==> x.date >= y.date
  {
    var sorted := SortByDateDesc(s);
    var n := Min(5, |s|);
    PrefixNoEarlier(sorted, n);
    LeftOutInSuffix(sorted, n);
    sorted[..n]
  }

  /** The page sorts the loaded array in place and shows its first five. */
  method SortAndTakeRecent(a: array<Appointment>) returns (recent: seq<Appointment>)
    modifies a
    ensures SortedByDateDesc(a[..])
    ensures multiset(a[..]) == multiset(old(a[..]))
    ensures a[..] == SortByDateDesc(old(a[..]))
    ensures recent == a[..Min(5, a.Length)] == RecentAppointments(old(a[..]))
  {
    var sorted := SortByDateDesc(a[..]);
    forall i | 0 <= i < a.Length {
      a[i] := sorted[i];
    }
    assert a[..] == sorted;
    recent := a[..Min(5, a.Length)];
  }

  /** The department overview: the first five departments with their
      unguarded occupancy rates. */
  function DepartmentOverview(departments: seq<Department>): (r: seq<BedOccupancy>)
    ensures |r| == Min(5, |departments|)
    ensures forall k :: 0 <= k < |r| ==>
      && r[k].name == departments[k].name
      && r[k].occupiedBeds == departments[k].occupiedBeds
      && r[k].totalBeds == departments[k].totalBeds
      && r[k].occupancyRate == RateOf(departments[k].occupiedBeds, departments[k].totalBeds)
  {
    Map(departments[..Min(5, |departments|)], OccupancyOf)
  }

  /** The overview rows are the first rows of the service's bed-occupancy
      report. */
  lemma OverviewIsReportPrefix(svc: DepartmentService)
    ensures DepartmentOverview(svc.departments) == svc.GetBedOccupancy()[..Min(5, |svc.departments|)]
  {
  }
}
