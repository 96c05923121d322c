/** The patient routes of the provider area, both scoped to the signed-in
    doctor: GET lists that doctor's patients, newest first; POST creates a
    patient linked to that doctor.

    The caller is the id on the session's user (None when there is no
    session, no user or no id). The `patients` collection is a sequence of
    documents in insertion order. */
module Patients {
  import opened Common
  import opened Store
  import opened Sorting

  datatype Patient = Patient(
    oid: ObjectId,
    doctorId: ObjectId,
    id: string,
    name: string,
    part: string,
    gender: string,
    email: Option<string>,
    phone: Option<string>,
    lastScan: string,
    lastScanDate: string,
    createdAt: int,
    avatarUrl: string)

  const NotAuthenticated := "Not Authenticated"
  const InternalError := "An internal server error occurred."
  const NameAndPartRequired := "Name and Body part are required."
  const PatientCreated := "Patient created successfully"

  const DefaultGender := "Not specified"
  const DefaultLastScan := "N/A"
  const DefaultLastScanDate := "15 Aug 2025"
  const DefaultAvatarUrl := "https://example.com/avatar.png"

  /** The sort key of `.sort({ createdAt: -1 })`. */
  function CreatedAt(p: Patient): real {
    p.createdAt as real
  }

  /** `find({ doctorId })`: the doctor's patients in collection order. */
  function OwnedBy(patients: seq<Patient>, doctor: ObjectId): (r: seq<Patient>)
    ensures forall p :: p in r <==> p in patients && p.doctorId == doctor
    ensures |r| <= |patients|
  {
    if patients == [] then []
    else
      var last := patients[|patients| - 1];
      OwnedBy(patients[..|patients| - 1], doctor) + (if last.doctorId == doctor then [last] else [])
  }

  /** Appending a document extends the owner's listing by it and leaves
      every other doctor's listing as it was. */
  lemma OwnedByAppend(patients: seq<Patient>, p: Patient, doctor: ObjectId)
    ensures OwnedBy(patients + [p], doctor) ==
      OwnedBy(patients, doctor) + (if p.doctorId == doctor then [p] else [])
  {
    assert (patients + [p])[..|patients|] == patients;
  }

  datatype ListResponse =
    | Message(status: int, message: string)
    | Listed(patients: seq<Patient>)

  /** `.sort({ createdAt: -1 })`: newest first, the same documents. */
  function NewestFirst(owned: seq<Patient>): (r: seq<Patient>)
    ensures multiset(r) == multiset(owned)
    ensures SortedDesc(r, CreatedAt)
  {
    SortDescPermutes(owned, CreatedAt);
    SortDescSorted(owned, CreatedAt);
    SortDesc(owned, CreatedAt)
  }

  /** The listing of one doctor: exactly that doctor's patients, newest
      first. */
  function DoctorListing(patients: seq<Patient>, doctor: ObjectId): (r: seq<Patient>)
    ensures multiset(r) == multiset(OwnedBy(patients, doctor))
    ensures forall p :: p in r <==> p in patients && p.doctorId == doctor
    ensures SortedDesc(r, CreatedAt)
  {
    var owned := OwnedBy(patients, doctor);
    var sorted := NewestFirst(owned);
    assert forall p :: p in sorted <==> p in multiset(owned);
    sorted
  }

  /** GET /api/provider/patients. */
  function ListPatients(patients: seq<Patient>, caller: Option<string>): (r: ListResponse)
    ensures !Truthy(caller) ==> r == Message(401, NotAuthenticated)
    ensures Truthy(caller) && !IsObjectIdString(caller.value) ==> r == Message(500, InternalError)
    ensures r.Listed? <==> Truthy(caller) && IsObjectIdString(caller.value)
    ensures r.Listed? ==> r.patients == DoctorListing(patients, ParseObjectId(caller.value).value)
  {
    if !Truthy(caller) then Message(401, NotAuthenticated)
    else match ParseObjectId(caller.value)
      case None => Message(500, InternalError)
      case Some(doctor) => Listed(DoctorListing(patients, doctor))
  }

  /** The fields the route reads from the JSON body. */
  datatype PatientForm = PatientForm(
    name: Option<string>,
    part: Option<string>,
    gender: Option<string>,
    email: Option<string>,
    phone: Option<string>)

  /** `s.slice(-6)`: the last six characters, or all of a shorter string. */
  function Last6(s: string): (r: string)
    ensures |r| == if |s| < 6 then |s| else 6
    ensures s == s[..|s| - |r|] + r
  {
    if |s| <= 6 then s else s[|s| - 6..]
  }

  /** The document POST builds. */
  function NewPatient(f: PatientForm, newId: ObjectId, doctor: ObjectId, now: int): (p: Patient)
    requires Truthy(f.name) && Truthy(f.part)
    ensures p.oid == newId && p.doctorId == doctor && p.createdAt == now
    ensures p.id == "p-" + Last6(newId.hex)
    ensures p.name == f.name.value && p.part == f.part.value
    ensures p.gender == (if Truthy(f.gender) then f.gender.value else DefaultGender)
    ensures p.email == (if Truthy(f.email) then f.email else None)
    ensures p.phone == (if Truthy(f.phone) then f.phone else None)
    ensures p.lastScan == DefaultLastScan && p.lastScanDate == DefaultLastScanDate
    ensures p.avatarUrl == DefaultAvatarUrl
  {
    Patient(newId, doctor, "p-" + Last6(newId.hex), f.name.value, f.part.value,
            if Truthy(f.gender) then f.gender.value else DefaultGender,
            if Truthy(f.email) then f.email else None,
            if Truthy(f.phone) then f.phone else None,
            DefaultLastScan, DefaultLastScanDate, now, DefaultAvatarUrl)
  }

  /** The patient id of a generated object id: "p-" and the last six hex
      digits, eight characters in all. */
  lemma PatientIdShape(f: PatientForm, newId: ObjectId, doctor: ObjectId, now: int)
    requires Truthy(f.name) && Truthy(f.part) && ValidObjectId(newId)
    ensures var p := NewPatient(f, newId, doctor, now);
      |p.id| == 8 && p.id[..2] == "p-" && p.id[2..] == newId.hex[18..]
  {
  }

  datatype CreateResponse = CreateResponse(status: int, message: string, patient: Option<Patient>)

  /** The `patients` collection. */
  class PatientStore {
    var patients: seq<Patient>

    constructor(patients: seq<Patient>)
      ensures this.patients == patients
    {
      this.patients := patients;
    }

    /** POST /api/provider/patients. `body` is None when the request body
        is not JSON; `newId` is the generated object id and `now` the
        clock. */
    method Create(caller: Option<string>, body: Option<PatientForm>, newId: ObjectId, now: int)
      returns (resp: CreateResponse)
      requires ValidObjectId(newId)
      modifies this
      ensures !Truthy(caller) ==> resp == CreateResponse(401, NotAuthenticated, None)
      ensures Truthy(caller) && body.None? ==> resp == CreateResponse(500, InternalError, None)
      ensures Truthy(caller) && body.Some? && (!Truthy(body.value.name) || !Truthy(body.value.part))
        ==> resp == CreateResponse(400, NameAndPartRequired, None)
      ensures Truthy(caller) && body.Some? && Truthy(body.value.name) && Truthy(body.value.part)
        && !IsObjectIdString(caller.value)
        ==> resp == CreateResponse(500, InternalError, None)
      ensures resp.status == 201 <==>
        Truthy(caller) && body.Some? && Truthy(body.value.name) && Truthy(body.value.part) &&
        IsObjectIdString(caller.value)
      ensures resp.status == 201 ==>
        var p := NewPatient(body.value, newId, ParseObjectId(caller.value).value, now);
        resp == CreateResponse(201, PatientCreated, Some(p)) && patients == old(patients) + [p]
      ensures resp.status != 201 ==> patients == old(patients)
    {
      if !Truthy(caller) {
        return CreateResponse(401, NotAuthenticated, None);
      }
      if body.None? {
        return CreateResponse(500, InternalError, None);
      }
      var f := body.value;
      if !Truthy(f.name) || !Truthy(f.part) {
        return CreateResponse(400, NameAndPartRequired, None);
      }
      var doctor := ParseObjectId(caller.value);
      if doctor.None? {
        return CreateResponse(500, InternalError, None);
      }
      var p := NewPatient(f, newId, doctor.value, now);
      patients := patients + [p];
      resp := CreateResponse(201, PatientCreated, Some(p));
    }
  }

  /** A created patient is listed for the doctor who created it. */
  lemma CreatedPatientIsListed(patients: seq<Patient>, p: Patient, caller: string)
    requires IsObjectIdString(caller) && p.doctorId == ParseObjectId(caller).value
    ensures var r := ListPatients(patients + [p], Some(caller));
      r.Listed? && p in r.patients
  {
    OwnedByAppend(patients, p, p.doctorId);
    assert p in OwnedBy(patients + [p], p.doctorId);
  }

  /** Creating a patient leaves every other doctor's listing unchanged. */
  lemma CreateKeepsOtherListings(patients: seq<Patient>, p: Patient, caller: string, other: string)
    requires IsObjectIdString(caller) && p.doctorId == ParseObjectId(caller).value
    requires IsObjectIdString(other) && ToLower(other) != ToLower(caller)
    ensures ListPatients(patients + [p], Some(other)) == ListPatients(patients, Some(other))
  {
    var otherDoctor := ParseObjectId(other).value;
    assert p.doctorId != otherDoctor;
    OwnedByAppend(patients, p, otherDoctor);
    assert OwnedBy(patients + [p], otherDoctor) == OwnedBy(patients, otherDoctor);
  }
}
