/** The patient repository (src/services/api/patientService.js). */
module PatientApi {
  import opened Wrappers
  import opened Seqs
  import opened Keyed
  import opened Text

  /** `lastVisit` is a timestamp, None when the record has none. */
  datatype Patient = Patient(
    Id: int,
    firstName: string,
    lastName: string,
    dateOfBirth: string,
    phone: string,
    email: string,
    status: string,
    lastVisit: Option<int>)

  datatype PatientPatch = PatientPatch(
    Id: Option<int>,
    firstName: Option<string>,
    lastName: Option<string>,
    dateOfBirth: Option<string>,
    phone: Option<string>,
    email: Option<string>,
    status: Option<string>,
    lastVisit: Option<Option<int>>)

  function PatientId(p: Patient): int { p.Id }

  /** `{ ...p, ...patch }`. */
  function Merge(p: Patient, q: PatientPatch): Patient {
    Patient(q.Id.GetOr(p.Id), q.firstName.GetOr(p.firstName), q.lastName.GetOr(p.lastName),
            q.dateOfBirth.GetOr(p.dateOfBirth), q.phone.GetOr(p.phone), q.email.GetOr(p.email),
            q.status.GetOr(p.status), q.lastVisit.GetOr(p.lastVisit))
  }

  lemma MergeSpec(p: Patient, q: PatientPatch)
    ensures var r := Merge(p, q);
      && (if q.Id.Some? then r.Id == q.Id.value else r.Id == p.Id)
      && (if q.firstName.Some? then r.firstName == q.firstName.value else r.firstName == p.firstName)
      && (if q.lastName.Some? then r.lastName == q.lastName.value else r.lastName == p.lastName)
      && (if q.dateOfBirth.Some? then r.dateOfBirth == q.dateOfBirth.value else r.dateOfBirth == p.dateOfBirth)
      && (if q.phone.Some? then r.phone == q.phone.value else r.phone == p.phone)
      && (if q.email.Some? then r.email == q.email.value else r.email == p.email)
      && (if q.status.Some? then r.status == q.status.value else r.status == p.status)
      && (if q.lastVisit.Some? then r.lastVisit == q.lastVisit.value else r.lastVisit == p.lastVisit)
    ensures Merge(Merge(p, q), q) == Merge(p, q)
  {
  }

  /** The worked example: updating only the status keeps the phone number. */
  lemma StatusOnlyUpdate(p: Patient)
    requires p.status == "Active" && p.phone == "555-0100"
    ensures var q := PatientPatch(None, None, None, None, None, None, Some("Inactive"), None);
      Merge(p, q) == p.(status := "Inactive") && Merge(p, q).phone == "555-0100"
  {
  }

  /** The search predicate: case-insensitive on the names and the email,
      case-sensitive on the phone number. */
  predicate Matches(p: Patient, query: string) {
    || ContainsIgnoreCase(p.firstName, query)
    || ContainsIgnoreCase(p.lastName, query)
    || Contains(p.phone, query)
    || ContainsIgnoreCase(p.email, query)
  }

  /** The patients matching `query`, in store order. Shared by `search` and the
      Patients page. */
  function SearchPatients(patients: seq<Patient>, query: string): (r: seq<Patient>)
    ensures forall p :: p in r <==> p in patients && Matches(p, query)
    ensures forall p :: multiset(r)[p] == if Matches(p, query) then multiset(patients)[p] else 0
    ensures IsSubseq(r, patients)
  {
    Filter(patients, (p: Patient) => Matches(p, query))
  }

  /** The empty query matches everybody, since every string contains "". */
  lemma SearchEmptyQuery(patients: seq<Patient>)
    ensures SearchPatients(patients, "") == patients
  {
    forall k | 0 <= k < |patients|
      ensures Matches(patients[k], "")
    {
      assert IsPrefix("", patients[k].phone);
    }
    FilterAll(patients, (p: Patient) => Matches(p, ""));
  }

  class PatientService {
    var patients: seq<Patient>

    constructor (seed: seq<Patient>)
      ensures patients == seed
    {
      patients := seed;
    }

    function GetAll(): (r: seq<Patient>)
      reads this
      ensures r == patients
    {
      patients
    }

    function GetById(id: int): (r: Result<Patient>)
      reads this
      ensures r.Ok? <==> HasKey(patients, PatientId, id)
      ensures r.Ok? ==> r.value in patients && r.value.Id == id
      ensures r.NotFound? ==> r.message == "Patient not found"
    {
      match FindIndex(patients, PatientId, id)
      case None => NotFound("Patient not found")
      case Some(i) => Ok(patients[i])
    }

    function Search(query: string): (r: seq<Patient>)
      reads this
      ensures forall p :: p in r <==> p in patients && Matches(p, query)
      ensures forall p :: multiset(r)[p] == if Matches(p, query) then multiset(patients)[p] else 0
      ensures IsSubseq(r, patients)
    {
      SearchPatients(patients, query)
    }

    /** Appends a patient with the next Id and status Active. */
    method Create(data: Patient) returns (created: Patient)
      requires |patients| > 0
      modifies this
      ensures created == data.(Id := NextKey(old(patients), PatientId), status := "Active")
      ensures patients == old(patients) + [created]
      ensures forall j :: 0 <= j < |old(patients)| ==> old(patients)[j].Id < created.Id
      ensures UniqueKeys(old(patients), PatientId) ==> UniqueKeys(patients, PatientId)
    {
      created := data.(Id := NextKey(patients, PatientId), status := "Active");
      if UniqueKeys(patients, PatientId) {
        AppendKeepsUnique(patients, PatientId, created);
      }
      patients := patients + [created];
    }

    method Update(id: int, patch: PatientPatch) returns (r: Result<Patient>)
      modifies this
      ensures FindIndex(old(patients), PatientId, id).None? ==>
        r == NotFound("Patient not found") && patients == old(patients)
      ensures FindIndex(old(patients), PatientId, id).Some? ==>
        var i := FindIndex(old(patients), PatientId, id).value;
        patients == old(patients)[i := Merge(old(patients)[i], patch)] && r == Ok(patients[i])
      ensures UniqueKeys(old(patients), PatientId) && (patch.Id.None? || patch.Id == Some(id)) ==>
        UniqueKeys(patients, PatientId)
    {
      match FindIndex(patients, PatientId, id) {
        case None =>
          r := NotFound("Patient not found");
        case Some(i) =>
          var merged := Merge(patients[i], patch);
          if UniqueKeys(patients, PatientId) && (patch.Id.None? || patch.Id == Some(id)) {
            ReplaceKeepsUnique(patients, PatientId, i, merged);
          }
          patients := patients[i := merged];
          r := Ok(merged);
      }
    }

    method Delete(id: int) returns (r: Result<bool>)
      modifies this
      ensures FindIndex(old(patients), PatientId, id).None? ==>
        r == NotFound("Patient not found") && patients == old(patients)
      ensures FindIndex(old(patients), PatientId, id).Some? ==>
        r == Ok(true) && patients == RemoveAt(old(patients), FindIndex(old(patients), PatientId, id).value)
      ensures UniqueKeys(old(patients), PatientId) ==>
        UniqueKeys(patients, PatientId) && (r.Ok? ==> GetById(id).NotFound?)
    {
      match FindIndex(patients, PatientId, id) {
        case None =>
          r := NotFound("Patient not found");
        case Some(i) =>
          if UniqueKeys(patients, PatientId) {
            RemoveKeepsUnique(patients, PatientId, i);
          }
          patients := RemoveAt(patients, i);
          r := Ok(true);
      }
    }
  }
}
