/** The appointment repository (src/services/api/appointmentService.js). */
module AppointmentApi {
  import opened Wrappers
  import opened Seqs
  import opened Keyed
  import opened Text

  /** `date` is a millisecond timestamp; `visitType` is the source's `type`
      field (a reserved word in Dafny). */
  datatype Appointment = Appointment(
    Id: int,
    patientId: string,
    patientName: string,
    date: int,
    visitType: string,
    status: string,
    department: string)

  datatype AppointmentPatch = AppointmentPatch(
    Id: Option<int>,
    patientId: Option<string>,
    patientName: Option<string>,
    date: Option<int>,
    visitType: Option<string>,
    status: Option<string>,
    department: Option<string>)

  function AppointmentId(a: Appointment): int { a.Id }

  const MsPerDay := 24 * 60 * 60 * 1000

  /** The calendar day of a timestamp (`toDateString`), counted in whole days
      from the epoch. */
  function DayOf(t: int): int {
    t / MsPerDay
  }

  /** Two timestamps fall on the same day exactly when they lie in the same
      half-open 24-hour block. */
  lemma SameDayIff(t: int, u: int)
    ensures DayOf(t) == DayOf(u) <==> DayOf(t) * MsPerDay <= u < DayOf(t) * MsPerDay + MsPerDay
  {
  }

  /** `{ ...a, ...p }`. */
  function Merge(a: Appointment, p: AppointmentPatch): Appointment {
    Appointment(p.Id.GetOr(a.Id), p.patientId.GetOr(a.patientId), p.patientName.GetOr(a.patientName),
                p.date.GetOr(a.date), p.visitType.GetOr(a.visitType), p.status.GetOr(a.status),
                p.department.GetOr(a.department))
  }

  lemma MergeSpec(a: Appointment, p: AppointmentPatch)
    ensures var r := Merge(a, p);
      && (if p.Id.Some? then r.Id == p.Id.value else r.Id == a.Id)
      && (if p.patientId.Some? then r.patientId == p.patientId.value else r.patientId == a.patientId)
      && (if p.patientName.Some? then r.patientName == p.patientName.value else r.patientName == a.patientName)
      && (if p.date.Some? then r.date == p.date.value else r.date == a.date)
      && (if p.visitType.Some? then r.visitType == p.visitType.value else r.visitType == a.visitType)
      && (if p.status.Some? then r.status == p.status.value else r.status == a.status)
      && (if p.department.Some? then r.department == p.department.value else r.department == a.department)
    ensures Merge(Merge(a, p), p) == Merge(a, p)
  {
  }

  /** The appointments on the calendar day of `t`, in store order. Shared by
      `getByDate` and the pages' "today" counts. */
  function OnDay(appointments: seq<Appointment>, t: int): (r: seq<Appointment>)
    ensures forall a :: a in r <==> a in appointments && DayOf(a.date) == DayOf(t)
    ensures forall a :: multiset(r)[a] == if DayOf(a.date) == DayOf(t) then multiset(appointments)[a] else 0
    ensures IsSubseq(r, appointments)
  {
    Filter(appointments, (a: Appointment) => DayOf(a.date) == DayOf(t))
  }

  /** Ids are computed from the current store, so they are reused: with Ids
      1 and 2, deleting 2 (`Delete` leaves `RemoveAt` of the store) and then
      creating (`Create` takes `NextKey` of the store) assigns 2 again. */
  lemma IdReusedAfterDelete(a: Appointment, b: Appointment)
    requires a.Id == 1 && b.Id == 2
    ensures FindIndex([a, b], AppointmentId, 2) == Some(1)
    ensures NextKey(RemoveAt([a, b], 1), AppointmentId) == 2
  {
    assert RemoveAt([a, b], 1) == [a];
  }

  class AppointmentService {
    var appointments: seq<Appointment>

    constructor (seed: seq<Appointment>)
      ensures appointments == seed
    {
      appointments := seed;
    }

    function GetAll(): (r: seq<Appointment>)
      reads this
      ensures r == appointments
    {
      appointments
    }

    function GetById(id: int): (r: Result<Appointment>)
      reads this
      ensures r.Ok? <==> HasKey(appointments, AppointmentId, id)
      ensures r.Ok? ==> r.value in appointments && r.value.Id == id
      ensures r.NotFound? ==> r.message == "Appointment not found"
    {
      match FindIndex(appointments, AppointmentId, id)
      case None => NotFound("Appointment not found")
      case Some(i) => Ok(appointments[i])
    }

    function GetByPatientId(patientId: int): (r: seq<Appointment>)
      reads this
      ensures forall a :: a in r <==> a in appointments && a.patientId == IntToDecimal(patientId)
      ensures forall a :: multiset(r)[a] == if a.patientId == IntToDecimal(patientId) then multiset(appointments)[a] else 0
      ensures IsSubseq(r, appointments)
    {
      var key := IntToDecimal(patientId);
      Filter(appointments, (a: Appointment) => a.patientId == key)
    }

    function GetByDate(date: int): (r: seq<Appointment>)
      reads this
      ensures forall a :: a in r <==> a in appointments && DayOf(a.date) == DayOf(date)
      ensures forall a :: multiset(r)[a] == if DayOf(a.date) == DayOf(date) then multiset(appointments)[a] else 0
      ensures IsSubseq(r, appointments)
    {
      OnDay(appointments, date)
    }

    /** Appends an appointment with the next Id and status Pending. */
    method Create(data: Appointment) returns (created: Appointment)
      requires |appointments| > 0
      modifies this
      ensures created == data.(Id := NextKey(old(appointments), AppointmentId), status := "Pending")
      ensures appointments == old(appointments) + [created]
      ensures forall j :: 0 <= j < |old(appointments)| ==> old(appointments)[j].Id < created.Id
      ensures UniqueKeys(old(appointments), AppointmentId) ==> UniqueKeys(appointments, AppointmentId)
    {
      created := data.(Id := NextKey(appointments, AppointmentId), status := "Pending");
      if UniqueKeys(appointments, AppointmentId) {
        AppendKeepsUnique(appointments, AppointmentId, created);
      }
      appointments := appointments + [created];
    }

    method Update(id: int, patch: AppointmentPatch) returns (r: Result<Appointment>)
      modifies this
      ensures FindIndex(old(appointments), AppointmentId, id).None? ==>
        r == NotFound("Appointment not found") && appointments == old(appointments)
      ensures FindIndex(old(appointments), AppointmentId, id).Some? ==>
        var i := FindIndex(old(appointments), AppointmentId, id).value;
        appointments == old(appointments)[i := Merge(old(appointments)[i], patch)] && r == Ok(appointments[i])
      ensures UniqueKeys(old(appointments), AppointmentId) && (patch.Id.None? || patch.Id == Some(id)) ==>
        UniqueKeys(appointments, AppointmentId)
    {
      match FindIndex(appointments, AppointmentId, id) {
        case None =>
          r := NotFound("Appointment not found");
        case Some(i) =>
          var merged := Merge(appointments[i], patch);
          if UniqueKeys(appointments, AppointmentId) && (patch.Id.None? || patch.Id == Some(id)) {
            ReplaceKeepsUnique(appointments, AppointmentId, i, merged);
          }
          appointments := appointments[i := merged];
          r := Ok(merged);
      }
    }

    /** Removes the appointment with this Id; afterwards it can no longer be found
        (when Ids were unique). */
    method Delete(id: int) returns (r: Result<bool>)
      modifies this
      ensures FindIndex(old(appointments), AppointmentId, id).None? ==>
        r == NotFound("Appointment not found") && appointments == old(appointments)
      ensures FindIndex(old(appointments), AppointmentId, id).Some? ==>
        r == Ok(true) && appointments == RemoveAt(old(appointments), FindIndex(old(appointments), AppointmentId, id).value)
      ensures UniqueKeys(old(appointments), AppointmentId) ==>
        UniqueKeys(appointments, AppointmentId) && (r.Ok? ==> GetById(id).NotFound?)
    {
      match FindIndex(appointments, AppointmentId, id) {
        case None =>
          r := NotFound("Appointment not found");
        case Some(i) =>
          if UniqueKeys(appointments, AppointmentId) {
            RemoveKeepsUnique(appointments, AppointmentId, i);
          }
          appointments := RemoveAt(appointments, i);
          r := Ok(true);
      }
    }
  }
}
