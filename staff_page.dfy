/** The filter and statistics logic of the Staff page
    (src/components/pages/Staff.jsx), over a snapshot of the staff list. */
module StaffPage {
  import opened Wrappers
  import opened Seqs
  import opened Text
  import opened StaffApi

  /** The role drop-down: "All" selects everyone; any other value selects the
      members with exactly that role (case-sensitive, unlike the service's
      `getByRole`). */
  function ByRole(staff: seq<StaffMember>, role: string): (r: seq<StaffMember>)
    ensures role == "All" ==> r == staff
    ensures forall m :: m in r <==> m in staff && (role == "All" || m.role == role)
    ensures forall m :: multiset(r)[m] == if (role == "All" || m.role == role) then multiset(staff)[m] else 0
    ensures IsSubseq(r, staff)
  {
    if role == "All" then
      SubseqRefl(staff);
      staff
    else
      Filter(staff, (m: StaffMember) => m.role == role)
  }

  /** A member matches the search box when the name, department,
      specialization or email contains the query, ignoring case; a member
      without a specialization never matches on it. */
  predicate MatchesQuery(m: StaffMember, query: string) {
    || ContainsIgnoreCase(m.name, query)
    || ContainsIgnoreCase(m.department, query)
    || (m.specialization.Some? && ContainsIgnoreCase(m.specialization.value, query))
    || ContainsIgnoreCase(m.email, query)
  }

  function BySearch(staff: seq<StaffMember>, query: string): (r: seq<StaffMember>)
    ensures IsBlank(query) ==> r == staff
    ensures !IsBlank(query) ==> forall m :: m in r <==> m in staff && MatchesQuery(m, query)
    ensures !IsBlank(query) ==> forall m :: multiset(r)[m] == if MatchesQuery(m, query) then multiset(staff)[m] else 0
    ensures IsSubseq(r, staff)
  {
    TrimEmptyIffBlank(query);
    if Trim(query) == "" then
      SubseqRefl(staff);
      staff
    else
      Filter(staff, (m: StaffMember) => MatchesQuery(m, query))
  }

  /** The list shown: role filter AND search, order preserved. */
  function FilterStaff(staff: seq<StaffMember>, role: string, query: string): (r: seq<StaffMember>)
    ensures forall m :: m in r <==>
      && m in staff
      && (role == "All" || m.role == role)
      && (IsBlank(query) || MatchesQuery(m, query))
    ensures forall m ::
              multiset(r)[m] ==
                if (role == "All" || m.role == role) && (IsBlank(query) || MatchesQuery(m, query))
                then multiset(staff)[m] else 0
    ensures role == "All" && IsBlank(query) ==> r == staff
    ensures IsSubseq(r, staff)
  {
    var byRole := ByRole(staff, role);
    var bySearch := BySearch(byRole, query);
    SubseqTrans(bySearch, byRole, staff);
    bySearch
  }

  /** Combining the role "Doctor" with a query no doctor matches shows nothing,
      even when other members match the query. */
  lemma NoMatchingDoctorGivesEmpty(staff: seq<StaffMember>, query: string)
    requires !IsBlank(query)
    requires forall k :: 0 <= k < |staff| && staff[k].role == "Doctor" ==> !MatchesQuery(staff[k], query)
    ensures FilterStaff(staff, "Doctor", query) == []
  {
  }

  function RoleOf(m: StaffMember): string { m.role }

  /** The role options: "All", then every role that occurs, each once, in the
      order of first occurrence. */
  function RoleOptions(staff: seq<StaffMember>): (r: seq<string>)
    ensures |r| >= 1 && r[0] == "All"
    ensures forall s :: s in r[1..] <==> s in Map(staff, RoleOf)
    ensures NoDuplicates(r[1..])
    ensures forall i, j :: 1 <= i < j < |r| ==>
      FirstIndex(Map(staff, RoleOf), r[i]) < FirstIndex(Map(staff, RoleOf), r[j])
  {
    var roles := Map(staff, RoleOf);
    DistinctFirstOccurrenceOrder(roles);
    var r := ["All"] + Distinct(roles);
    assert r[1..] == Distinct(roles);
    r
  }

  function HasRole(role: string): StaffMember -> bool {
    (m: StaffMember) => m.role == role
  }

  /** The number of members with exactly the given role. */
  function RoleCount(staff: seq<StaffMember>, role: string): (n: nat)
    ensures n == Count(staff, HasRole(role)) <= |staff|
    ensures n == 0 <==> forall k :: 0 <= k < |staff| ==> staff[k].role != role
  {
    FilterEmptyIff(staff, HasRole(role));
    |Filter(staff, HasRole(role))|
  }

  /** The count of one more member: the head adds one to the count of its own
      role only. */
  lemma RoleCountCons(staff: seq<StaffMember>, role: string)
    requires staff != []
    ensures RoleCount(staff, role) == RoleCount(staff[1..], role) + (if staff[0].role == role then 1 else 0)
  {
  }

  /** Nobody has two roles, so the four statistic cards add up to at most the
      number of members. */
  lemma {:induction false} RoleCountsBounded(staff: seq<StaffMember>)
    ensures RoleCount(staff, "Doctor") + RoleCount(staff, "Nurse")
          + RoleCount(staff, "Admin") + RoleCount(staff, "Technician") <= |staff|
  {
    if staff != [] {
      RoleCountsBounded(staff[1..]);
      RoleCountCons(staff, "Doctor");
      RoleCountCons(staff, "Nurse");
      RoleCountCons(staff, "Admin");
      RoleCountCons(staff, "Technician");
    }
  }
}
