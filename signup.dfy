/** The signup route: a chain of checks on the posted form, then the insert
    of a new doctor record into the `doctors` collection.

    The collection is a map from the stored (lower-cased) e-mail address to
    the record: the route looks a doctor up by that address and inserts only
    when the lookup finds nothing, so the address identifies the record. */
module Signup {
  import opened Common
  import opened Store

  /** The fields the route reads from the JSON body. A field that is absent
      or null is None; non-string JSON values are not modelled. */
  datatype SignupForm = SignupForm(
    role: Option<string>,
    fullName: Option<string>,
    email: Option<string>,
    password: Option<string>,
    dateOfBirth: Option<string>,
    phone: Option<string>,
    practiceName: Option<string>,
    npiNumber: Option<string>,
    medicalLicense: Option<string>,
    specialization: Option<string>)

  /** A stored doctor document. `createdAt` is the insertion time. */
  datatype Doctor = Doctor(
    id: ObjectId,
    role: string,
    fullName: string,
    email: string,
    password: PasswordHash,
    dateOfBirth: Option<string>,
    phone: Option<string>,
    practiceName: string,
    npiNumber: Option<string>,
    medicalLicense: string,
    specialization: string,
    isVerified: bool,
    createdAt: int)

  datatype Response = Response(status: int, message: string)

  const MissingFields := "Missing required fields."
  const PasswordTooShort := "Password must be at least 8 characters long."
  const AlreadyExists := "User with this email already exists."
  const Created := "User created successfully."
  const InternalError := "An internal server error occurred."

  /** The least password length the route accepts. */
  const MinPasswordLength := 8

  /** One of the seven required fields is absent or empty. */
  predicate MissingRequired(f: SignupForm) {
    !Truthy(f.email) || !Truthy(f.password) || !Truthy(f.fullName) || !Truthy(f.role) ||
    !Truthy(f.practiceName) || !Truthy(f.medicalLicense) || !Truthy(f.specialization)
  }

  /** The form passes every check, so the route inserts. */
  predicate Accepted(doctors: map<string, Doctor>, body: Option<SignupForm>) {
    body.Some? && !MissingRequired(body.value) &&
    |body.value.password.value| >= MinPasswordLength &&
    ToLower(body.value.email.value) !in doctors
  }

  /** The document built from an accepted form. */
  function NewDoctor(f: SignupForm, id: ObjectId, hash: PasswordHash, now: int): (d: Doctor)
    requires !MissingRequired(f)
    ensures d.email == ToLower(f.email.value) && d.id == id && d.password == hash
    ensures d.role == f.role.value && d.fullName == f.fullName.value
    ensures d.practiceName == f.practiceName.value && d.medicalLicense == f.medicalLicense.value
    ensures d.specialization == f.specialization.value
    ensures d.dateOfBirth == f.dateOfBirth && d.phone == f.phone
    ensures d.npiNumber == None <==> !Truthy(f.npiNumber)
    ensures d.npiNumber.Some? ==> d.npiNumber == f.npiNumber
    ensures !d.isVerified && d.createdAt == now
  {
    Doctor(id, f.role.value, f.fullName.value, ToLower(f.email.value), hash,
           f.dateOfBirth, f.phone, f.practiceName.value,
           if Truthy(f.npiNumber) then f.npiNumber else None,
           f.medicalLicense.value, f.specialization.value, false, now)
  }

  /** Every record is stored under its own e-mail address. */
  ghost predicate Keyed(doctors: map<string, Doctor>) {
    forall e :: e in doctors ==> doctors[e].email == e
  }

  /** In a keyed collection no two records share an e-mail address. */
  lemma KeyedEmailsUnique(doctors: map<string, Doctor>, e1: string, e2: string)
    requires Keyed(doctors) && e1 in doctors && e2 in doctors
    ensures doctors[e1].email == doctors[e2].email ==> e1 == e2
  {
  }

  /** The `doctors` collection. */
  class DoctorStore {
    var doctors: map<string, Doctor>

    ghost predicate Valid()
      reads this
    {
      Keyed(doctors)
    }

    constructor()
      ensures Valid() && doctors == map[]
    {
      doctors := map[];
    }

    /** POST /api/signup. `body` is None when the request body is not JSON
        (the parse throws and the route answers 500); `newId`, `salt` and
        `now` stand for the generated object id, the random bcrypt salt and
        the clock. */
    method Signup(body: Option<SignupForm>, newId: ObjectId, salt: nat, now: int) returns (resp: Response)
      requires Valid()
      modifies this
      ensures Valid()
      ensures body.None? ==> resp == Response(500, InternalError)
      ensures body.Some? && MissingRequired(body.value) ==> resp == Response(400, MissingFields)
      ensures body.Some? && !MissingRequired(body.value) && |body.value.password.value| < MinPasswordLength
        ==> resp == Response(400, PasswordTooShort)
      ensures body.Some? && !MissingRequired(body.value) && |body.value.password.value| >= MinPasswordLength
        && ToLower(body.value.email.value) in old(doctors)
        ==> resp == Response(409, AlreadyExists)
      ensures Accepted(old(doctors), body) ==>
        resp == Response(201, Created) &&
        doctors == old(doctors)[ToLower(body.value.email.value) :=
          NewDoctor(body.value, newId, Hash(body.value.password.value, salt), now)]
      ensures !Accepted(old(doctors), body) ==> doctors == old(doctors)
    {
      if body.None? {
        return Response(500, InternalError);
      }
      var f := body.value;
      if MissingRequired(f) {
        return Response(400, MissingFields);
      }
      if |f.password.value| < MinPasswordLength {
        return Response(400, PasswordTooShort);
      }
      var email := ToLower(f.email.value);
      if email in doctors {
        return Response(409, AlreadyExists);
      }
      var hashed := Hash(f.password.value, salt);
      var doc := NewDoctor(f, newId, hashed, now);
      doctors := doctors[email := doc];
      resp := Response(201, Created);
    }
  }

  /** A successful signup adds exactly one record, and the collection grows
      by one. */
  lemma SignupAddsOne(doctors: map<string, Doctor>, f: SignupForm, id: ObjectId, salt: nat, now: int)
    requires Accepted(doctors, Some(f))
    ensures var e := ToLower(f.email.value);
      var after := doctors[e := NewDoctor(f, id, Hash(f.password.value, salt), now)];
      |after| == |doctors| + 1 && after.Keys == doctors.Keys + {e} &&
      (forall k :: k in doctors ==> after[k] == doctors[k])
  {
  }

  /** The stored digest verifies the password that was posted and no other. */
  lemma StoredPasswordVerifies(f: SignupForm, id: ObjectId, salt: nat, now: int, candidate: string)
    requires !MissingRequired(f)
    ensures Verify(candidate, NewDoctor(f, id, Hash(f.password.value, salt), now).password) <==>
      candidate == f.password.value
  {
  }
}
