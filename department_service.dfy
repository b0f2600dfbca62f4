/** The department repository (src/services/api/departmentService.js) and the
    bed-occupancy arithmetic shared with the pages. */
module DepartmentApi {
  import opened Wrappers
  import opened Seqs
  import opened Keyed

  datatype Department = Department(
    Id: int,
    name: string,
    location: string,
    totalBeds: nat,
    occupiedBeds: nat,
    headOfDepartment: string,
    phone: string,
    specialties: seq<string>,
    status: string)

  datatype DepartmentPatch = DepartmentPatch(
    Id: Option<int>,
    name: Option<string>,
    location: Option<string>,
    totalBeds: Option<nat>,
    occupiedBeds: Option<nat>,
    headOfDepartment: Option<string>,
    phone: Option<string>,
    specialties: Option<seq<string>>,
    status: Option<string>)

  function DepartmentId(d: Department): int { d.Id }

  /** `{ ...d, ...p }`. */
  function Merge(d: Department, p: DepartmentPatch): Department {
    Department(p.Id.GetOr(d.Id), p.name.GetOr(d.name), p.location.GetOr(d.location),
               p.totalBeds.GetOr(d.totalBeds), p.occupiedBeds.GetOr(d.occupiedBeds),
               p.headOfDepartment.GetOr(d.headOfDepartment), p.phone.GetOr(d.phone),
               p.specialties.GetOr(d.specialties), p.status.GetOr(d.status))
  }

  lemma MergeSpec(d: Department, p: DepartmentPatch)
    ensures var r := Merge(d, p);
      && (if p.Id.Some? then r.Id == p.Id.value else r.Id == d.Id)
      && (if p.name.Some? then r.name == p.name.value else r.name == d.name)
      && (if p.location.Some? then r.location == p.location.value else r.location == d.location)
      && (if p.totalBeds.Some? then r.totalBeds == p.totalBeds.value else r.totalBeds == d.totalBeds)
      && (if p.occupiedBeds.Some? then r.occupiedBeds == p.occupiedBeds.value else r.occupiedBeds == d.occupiedBeds)
      && (if p.headOfDepartment.Some? then r.headOfDepartment == p.headOfDepartment.value else r.headOfDepartment == d.headOfDepartment)
      && (if p.phone.Some? then r.phone == p.phone.value else r.phone == d.phone)
      && (if p.specialties.Some? then r.specialties == p.specialties.value else r.specialties == d.specialties)
      && (if p.status.Some? then r.status == p.status.value else r.status == d.status)
    ensures Merge(Merge(d, p), p) == Merge(d, p)
  {
  }

  /** The value of `occupied / total * 100` in JavaScript: a percentage, or NaN
      for 0/0, or Infinity for a positive count over zero beds. */
  datatype Rate = Percent(value: real) | NotANumber | Infinite

  /** The unguarded per-department occupancy rate. */
  function RateOf(occupied: nat, total: nat): (r: Rate)
    ensures r.Percent? <==> total > 0
    ensures r.Percent? ==> r.value * total as real == 100.0 * occupied as real
    ensures r.NotANumber? <==> total == 0 && occupied == 0
    ensures r.Infinite? <==> total == 0 && occupied > 0
  {
    if total > 0 then Percent(occupied as real / total as real * 100.0)
    else if occupied == 0 then NotANumber
    else Infinite
  }

  /** With no more occupied beds than beds, a defined rate lies in [0, 100]. */
  lemma RateInRange(occupied: nat, total: nat)
    requires 0 < total && occupied <= total
    ensures 0.0 <= RateOf(occupied, total).value <= 100.0
  {
    var v := RateOf(occupied, total).value;
    assert v * total as real == 100.0 * occupied as real;
    assert v * total as real <= 100.0 * total as real;
  }

  /** One row of `getBedOccupancy`. */
  datatype BedOccupancy = BedOccupancy(name: string, totalBeds: nat, occupiedBeds: nat, occupancyRate: Rate)

  function OccupancyOf(d: Department): BedOccupancy {
    BedOccupancy(d.name, d.totalBeds, d.occupiedBeds, RateOf(d.occupiedBeds, d.totalBeds))
  }

  class DepartmentService {
    var departments: seq<Department>

    constructor (seed: seq<Department>)
      ensures departments == seed
    {
      departments := seed;
    }

    function GetAll(): (r: seq<Department>)
      reads this
      ensures r == departments
    {
      departments
    }

    function GetById(id: int): (r: Result<Department>)
      reads this
      ensures r.Ok? <==> HasKey(departments, DepartmentId, id)
      ensures r.Ok? ==> r.value in departments && r.value.Id == id
      ensures r.NotFound? ==> r.message == "Department not found"
    {
      match FindIndex(departments, DepartmentId, id)
      case None => NotFound("Department not found")
      case Some(i) => Ok(departments[i])
    }

    /** One entry per department, in store order, with its name, bed counts and
        unguarded occupancy rate. */
    function GetBedOccupancy(): (r: seq<BedOccupancy>)
      reads this
      ensures |r| == |departments|
      ensures forall k :: 0 <= k < |r| ==>
        && r[k].name == departments[k].name
        && r[k].totalBeds == departments[k].totalBeds
        && r[k].occupiedBeds == departments[k].occupiedBeds
        && r[k].occupancyRate == RateOf(departments[k].occupiedBeds, departments[k].totalBeds)
        && (r[k].occupancyRate.Percent? <==> departments[k].totalBeds > 0)
    {
      Map(departments, OccupancyOf)
    }

    /** Appends a department with the next Id and status Active. */
    method Create(data: Department) returns (created: Department)
      requires |departments| > 0
      modifies this
      ensures created == data.(Id := NextKey(old(departments), DepartmentId), status := "Active")
      ensures departments == old(departments) + [created]
      ensures forall j :: 0 <= j < |old(departments)| ==> old(departments)[j].Id < created.Id
      ensures UniqueKeys(old(departments), DepartmentId) ==> UniqueKeys(departments, DepartmentId)
    {
      created := data.(Id := NextKey(departments, DepartmentId), status := "Active");
      if UniqueKeys(departments, DepartmentId) {
        AppendKeepsUnique(departments, DepartmentId, created);
      }
      departments := departments + [created];
    }

    method Update(id: int, patch: DepartmentPatch) returns (r: Result<Department>)
      modifies this
      ensures FindIndex(old(departments), DepartmentId, id).None? ==>
        r == NotFound("Department not found") && departments == old(departments)
      ensures FindIndex(old(departments), DepartmentId, id).Some? ==>
        var i := FindIndex(old(departments), DepartmentId, id).value;
        departments == old(departments)[i := Merge(old(departments)[i], patch)] && r == Ok(departments[i])
      ensures UniqueKeys(old(departments), DepartmentId) && (patch.Id.None? || patch.Id == Some(id)) ==>
        UniqueKeys(departments, DepartmentId)
    {
      match FindIndex(departments, DepartmentId, id) {
        case None =>
          r := NotFound("Department not found");
        case Some(i) =>
          var merged := Merge(departments[i], patch);
          if UniqueKeys(departments, DepartmentId) && (patch.Id.None? || patch.Id == Some(id)) {
            ReplaceKeepsUnique(departments, DepartmentId, i, merged);
          }
          departments := departments[i := merged];
          r := Ok(merged);
      }
    }

    method Delete(id: int) returns (r: Result<bool>)
      modifies this
      ensures FindIndex(old(departments), DepartmentId, id).None? ==>
        r == NotFound("Department not found") && departments == old(departments)
      ensures FindIndex(old(departments), DepartmentId, id).Some? ==>
        r == Ok(true) && departments == RemoveAt(old(departments), FindIndex(old(departments), DepartmentId, id).value)
      ensures UniqueKeys(old(departments), DepartmentId) ==>
        UniqueKeys(departments, DepartmentId) && (r.Ok? ==> GetById(id).NotFound?)
    {
      match FindIndex(departments, DepartmentId, id) {
        case None =>
          r := NotFound("Department not found");
        case Some(i) =>
          if UniqueKeys(departments, DepartmentId) {
            RemoveKeepsUnique(departments, DepartmentId, i);
          }
          departments := RemoveAt(departments, i);
          r := Ok(true);
      }
    }
  }
}
