/** The search and statistics logic of the Patients page
    (src/components/pages/Patients.jsx). */
module PatientsPage {
  import opened Wrappers
  import opened Seqs
  import opened Text
  import opened PatientApi

  /** The list shown: everyone when the query is blank after trimming,
      otherwise the same selection as the service's `search`. */
  function FilterPatients(patients: seq<Patient>, query: string): (r: seq<Patient>)
    ensures IsBlank(query) ==> r == patients
    ensures !IsBlank(query) ==> r == SearchPatients(patients, query)
    ensures forall p :: p in r <==> p in patients && (IsBlank(query) || Matches(p, query))
    ensures forall p :: multiset(r)[p] == if (IsBlank(query) || Matches(p, query)) then multiset(patients)[p] else 0
    ensures IsSubseq(r, patients)
  {
    TrimEmptyIffBlank(query);
    if Trim(query) == "" then
      SubseqRefl(patients);
      patients
    else
      SearchPatients(patients, query)
  }

  predicate IsActive(p: Patient) { p.status == "Active" }

  /** The "Active Patients" card. */
  function ActiveCount(patients: seq<Patient>): (n: nat)
    ensures n == Count(patients, IsActive) <= |patients|
    ensures n == |patients| <==> forall k :: 0 <= k < |patients| ==> patients[k].status == "Active"
    ensures n == 0 <==> forall k :: 0 <= k < |patients| ==> patients[k].status != "Active"
  {
    FilterEmptyIff(patients, IsActive);
    FilterFullIff(patients, IsActive);
    |Filter(patients, IsActive)|
  }

  const MsPerWeek := 7 * 24 * 60 * 60 * 1000

  /** A visit is recent when it is later than one week before `now`; a
      patient who never visited is never recent. */
  predicate VisitedRecently(p: Patient, now: int) {
    p.lastVisit.Some? && p.lastVisit.value > now - MsPerWeek
  }

  function RecentAt(now: int): Patient -> bool {
    (p: Patient) => VisitedRecently(p, now)
  }

  /** The "Recent Visits" card. */
  function RecentVisitCount(patients: seq<Patient>, now: int): (n: nat)
    ensures n == Count(patients, RecentAt(now)) <= |patients|
    ensures n == 0 <==> forall k :: 0 <= k < |patients| ==>
      patients[k].lastVisit.None? || patients[k].lastVisit.value <= now - MsPerWeek
  {
    FilterEmptyIff(patients, RecentAt(now));
    |Filter(patients, RecentAt(now))|
  }

  /** Patients with no recorded visit never add to the recent-visit count. */
  lemma {:induction false} NeverVisitedNotCounted(patients: seq<Patient>, now: int)
    ensures RecentVisitCount(patients, now) <= |Filter(patients, (p: Patient) => p.lastVisit.Some?)|
  {
    FilterImplies(patients, RecentAt(now), (p: Patient) => p.lastVisit.Some?);
  }
}
