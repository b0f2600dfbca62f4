/** The statistics and list of the Appointments page
    (src/components/pages/Appointments.jsx). */
module AppointmentsPage {
  import opened Seqs
  import opened AppointmentApi

  /** Appointments at or after `now`, in list order. */
  function Upcoming(appointments: seq<Appointment>, now: int): (r: seq<Appointment>)
    ensures forall a :: a in r <==> a in appointments && a.date >= now
    ensures forall a :: multiset(r)[a] == if a.date >= now then multiset(appointments)[a] else 0
    ensures forall k :: 0 <= k < |r| ==> r[k].date >= now
    ensures IsSubseq(r, appointments)
  {
    Filter(appointments, (a: Appointment) => a.date >= now)
  }

  predicate IsConfirmed(a: Appointment) { a.status == "Confirmed" }
  predicate IsPending(a: Appointment) { a.status == "Pending" }

  /** The statistic cards: today's and upcoming appointments and the
      confirmed and pending counts. */
  datatype AppointmentStats = AppointmentStats(
    today: seq<Appointment>,
    upcoming: seq<Appointment>,
    confirmed: nat,
    pending: nat)

  function Stats(appointments: seq<Appointment>, now: int): (r: AppointmentStats)
    ensures forall a :: a in r.today <==> a in appointments && DayOf(a.date) == DayOf(now)
    ensures forall a :: multiset(r.today)[a] == if DayOf(a.date) == DayOf(now) then multiset(appointments)[a] else 0
    ensures forall a :: a in r.upcoming <==> a in appointments && a.date >= now
    ensures forall a :: multiset(r.upcoming)[a] == if a.date >= now then multiset(appointments)[a] else 0
    ensures r.confirmed == Count(appointments, IsConfirmed)
    ensures r.pending == Count(appointments, IsPending)
    ensures r.confirmed == 0 <==> forall k :: 0 <= k < |appointments| ==> appointments[k].status != "Confirmed"
    ensures r.pending == 0 <==> forall k :: 0 <= k < |appointments| ==> appointments[k].status != "Pending"
    ensures r.confirmed + r.pending <= |appointments|
  {
    FilterEmptyIff(appointments, IsConfirmed);
    FilterEmptyIff(appointments, IsPending);
    DisjointFilterCounts(appointments, IsConfirmed, IsPending);
    AppointmentStats(OnDay(appointments, now), Upcoming(appointments, now),
                     |Filter(appointments, IsConfirmed)|, |Filter(appointments, IsPending)|)
  }

  /** The "All Appointments" list: the first ten upcoming appointments, in
      list order. */
  function ListView(appointments: seq<Appointment>, now: int): (r: seq<Appointment>)
    ensures |r| == Min(10, |Upcoming(appointments, now)|)
    ensures r == Upcoming(appointments, now)[..|r|]
    ensures forall k :: 0 <= k < |r| ==> r[k].date >= now
    ensures IsSubseq(r, appointments)
  {
    var upcoming := Upcoming(appointments, now);
    var n := Min(10, |upcoming|);
    PrefixIsSubseq(upcoming, n);
    SubseqTrans(upcoming[..n], upcoming, appointments);
    upcoming[..n]
  }
}
