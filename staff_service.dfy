/** The staff repository (src/services/api/staffService.js). */
module StaffApi {
  import opened Wrappers
  import opened Seqs
  import opened Keyed
  import opened Text

  /** `specialization` is None when the record has none. */
  datatype StaffMember = StaffMember(
    Id: int,
    name: string,
    role: string,
    department: string,
    phone: string,
    email: string,
    specialization: Option<string>,
    hireDate: string,
    status: string)

  datatype StaffPatch = StaffPatch(
    Id: Option<int>,
    name: Option<string>,
    role: Option<string>,
    department: Option<string>,
    phone: Option<string>,
    email: Option<string>,
    specialization: Option<Option<string>>,
    hireDate: Option<string>,
    status: Option<string>)

  function StaffId(m: StaffMember): int { m.Id }

  /** `{ ...m, ...p }`. */
  function Merge(m: StaffMember, p: StaffPatch): StaffMember {
    StaffMember(p.Id.GetOr(m.Id), p.name.GetOr(m.name), p.role.GetOr(m.role),
                p.department.GetOr(m.department), p.phone.GetOr(m.phone), p.email.GetOr(m.email),
                p.specialization.GetOr(m.specialization), p.hireDate.GetOr(m.hireDate),
                p.status.GetOr(m.status))
  }

  lemma MergeSpec(m: StaffMember, p: StaffPatch)
    ensures var r := Merge(m, p);
      && (if p.Id.Some? then r.Id == p.Id.value else r.Id == m.Id)
      && (if p.name.Some? then r.name == p.name.value else r.name == m.name)
      && (if p.role.Some? then r.role == p.role.value else r.role == m.role)
      && (if p.department.Some? then r.department == p.department.value else r.department == m.department)
      && (if p.phone.Some? then r.phone == p.phone.value else r.phone == m.phone)
      && (if p.email.Some? then r.email == p.email.value else r.email == m.email)
      && (if p.specialization.Some? then r.specialization == p.specialization.value else r.specialization == m.specialization)
      && (if p.hireDate.Some? then r.hireDate == p.hireDate.value else r.hireDate == m.hireDate)
      && (if p.status.Some? then r.status == p.status.value else r.status == m.status)
    ensures Merge(Merge(m, p), p) == Merge(m, p)
  {
  }

  /** `a.toLowerCase() === b.toLowerCase()`. */
  predicate EqualsIgnoreCase(a: string, b: string) {
    LowerStr(a) == LowerStr(b)
  }

  class StaffService {
    var staff: seq<StaffMember>

    constructor (seed: seq<StaffMember>)
      ensures staff == seed
    {
      staff := seed;
    }

    function GetAll(): (r: seq<StaffMember>)
      reads this
      ensures r == staff
    {
      staff
    }

    function GetById(id: int): (r: Result<StaffMember>)
      reads this
      ensures r.Ok? <==> HasKey(staff, StaffId, id)
      ensures r.Ok? ==> r.value in staff && r.value.Id == id
      ensures r.NotFound? ==> r.message == "Staff member not found"
    {
      match FindIndex(staff, StaffId, id)
      case None => NotFound("Staff member not found")
      case Some(i) => Ok(staff[i])
    }

    function GetByDepartment(department: string): (r: seq<StaffMember>)
      reads this
      ensures forall m :: m in r <==> m in staff && EqualsIgnoreCase(m.department, department)
      ensures forall m :: multiset(r)[m] == if EqualsIgnoreCase(m.department, department) then multiset(staff)[m] else 0
      ensures IsSubseq(r, staff)
    {
      Filter(staff, (m: StaffMember) => EqualsIgnoreCase(m.department, department))
    }

    function GetByRole(role: string): (r: seq<StaffMember>)
      reads this
      ensures forall m :: m in r <==> m in staff && EqualsIgnoreCase(m.role, role)
      ensures forall m :: multiset(r)[m] == if EqualsIgnoreCase(m.role, role) then multiset(staff)[m] else 0
      ensures IsSubseq(r, staff)
    {
      Filter(staff, (m: StaffMember) => EqualsIgnoreCase(m.role, role))
    }

    /** Appends a member with the next Id, status Active and today's date as
        hire date (`today` is the `YYYY-MM-DD` part of the current ISO time). */
    method Create(data: StaffMember, today: string) returns (created: StaffMember)
      requires |staff| > 0
      modifies this
      ensures created == data.(Id := NextKey(old(staff), StaffId), status := "Active", hireDate := today)
      ensures staff == old(staff) + [created]
      ensures forall j :: 0 <= j < |old(staff)| ==> old(staff)[j].Id < created.Id
      ensures UniqueKeys(old(staff), StaffId) ==> UniqueKeys(staff, StaffId)
    {
      created := data.(Id := NextKey(staff, StaffId), status := "Active", hireDate := today);
      if UniqueKeys(staff, StaffId) {
        AppendKeepsUnique(staff, StaffId, created);
      }
      staff := staff + [created];
    }

    method Update(id: int, patch: StaffPatch) returns (r: Result<StaffMember>)
      modifies this
      ensures FindIndex(old(staff), StaffId, id).None? ==>
        r == NotFound("Staff member not found") && staff == old(staff)
      ensures FindIndex(old(staff), StaffId, id).Some? ==>
        var i := FindIndex(old(staff), StaffId, id).value;
        staff == old(staff)[i := Merge(old(staff)[i], patch)] && r == Ok(staff[i])
      ensures UniqueKeys(old(staff), StaffId) && (patch.Id.None? || patch.Id == Some(id)) ==>
        UniqueKeys(staff, StaffId)
    {
      match FindIndex(staff, StaffId, id) {
        case None =>
          r := NotFound("Staff member not found");
        case Some(i) =>
          var merged := Merge(staff[i], patch);
          if UniqueKeys(staff, StaffId) && (patch.Id.None? || patch.Id == Some(id)) {
            ReplaceKeepsUnique(staff, StaffId, i, merged);
          }
          staff := staff[i := merged];
          r := Ok(merged);
      }
    }

    method Delete(id: int) returns (r: Result<bool>)
      modifies this
      ensures FindIndex(old(staff), StaffId, id).None? ==>
        r == NotFound("Staff member not found") && staff == old(staff)
      ensures FindIndex(old(staff), StaffId, id).Some? ==>
        r == Ok(true) && staff == RemoveAt(old(staff), FindIndex(old(staff), StaffId, id).value)
      ensures UniqueKeys(old(staff), StaffId) ==>
        UniqueKeys(staff, StaffId) && (r.Ok? ==> GetById(id).NotFound?)
    {
      match FindIndex(staff, StaffId, id) {
        case None =>
          r := NotFound("Staff member not found");
        case Some(i) =>
          if UniqueKeys(staff, StaffId) {
            RemoveKeepsUnique(staff, StaffId, i);
          }
          staff := RemoveAt(staff, i);
          r := Ok(true);
      }
    }
  }
}
