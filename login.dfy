/** The login route: a read-only decision chain over the `users`
    collection.

    The route looks the address up in `users`, while the signup route writes
    doctors into `doctors` and the NextAuth sign-in reads `doctors`. The
    model keeps that: Login is a function of the `users` documents alone, so
    nothing the signup route stores can make it succeed.

    Documents of `users` are not written anywhere in this code base, so they
    are modelled as generic key/value documents. */
module Login {
  import opened Common
  import opened Store

  /** A field value of a stored document, as far as the route inspects it:
      a string, a bcrypt digest (a string in the database, a digest to
      bcrypt), or any other JSON/BSON value. */
  datatype Value = Str(s: string) | Digest(h: PasswordHash) | Other

  type Document = map<string, Value>

  /** The fields the route reads from the JSON body. */
  datatype LoginForm = LoginForm(email: Option<string>, password: Option<string>)

  datatype LoginResponse = LoginResponse(status: int, message: string, user: Option<Document>)

  const Required := "Email and password are required."
  const Invalid := "Invalid email or password."
  const Success := "Login successful."
  const InternalError := "An internal server error occurred."

  predicate HasEmail(d: Document, email: string) {
    "email" in d && d["email"] == Str(email)
  }

  /** `findOne({ email })`: the first document, in collection order, whose
      email field is exactly the address. */
  function FindUser(users: seq<Document>, email: string): (r: Option<nat>)
    ensures r.Some? ==> r.value < |users| && HasEmail(users[r.value], email)
    ensures r.Some? ==> forall j :: 0 <= j < r.value ==> !HasEmail(users[j], email)
    ensures r.None? <==> forall j :: 0 <= j < |users| ==> !HasEmail(users[j], email)
  {
    if users == [] then None
    else if HasEmail(users[0], email) then Some(0)
    else match FindUser(users[1..], email)
      case None => None
      case Some(i) => Some(i + 1)
  }

  /** How `bcrypt.compare(password, user.password)` ends: None when it
      throws (the field is missing or not a string), otherwise whether the
      password matches. A stored string that is not a digest never matches. */
  function Compare(password: string, user: Document): (r: Option<bool>)
    ensures r.None? <==> "password" !in user || user["password"] == Other
    ensures r == Some(true) <==> "password" in user && user["password"].Digest? && Verify(password, user["password"].h)
  {
    if "password" !in user then None
    else match user["password"]
      case Other => None
      case Str(_) => Some(false)
      case Digest(h) => Some(Verify(password, h))
  }

  /** POST /api/login. `body` is None when the body is not JSON. */
  function Login(users: seq<Document>, body: Option<LoginForm>): (r: LoginResponse)
    ensures body.None? ==> r == LoginResponse(500, InternalError, None)
    ensures body.Some? && (!Truthy(body.value.email) || !Truthy(body.value.password)) ==>
      r == LoginResponse(400, Required, None)
    ensures r.status == 200 ==>
      body.Some? && Truthy(body.value.email) && Truthy(body.value.password) &&
      exists i :: 0 <= i < |users| && HasEmail(users[i], ToLower(body.value.email.value)) &&
        "password" in users[i] && users[i]["password"].Digest? &&
        Verify(body.value.password.value, users[i]["password"].h) &&
        r == LoginResponse(200, Success, Some(users[i] - {"password"}))
    ensures r.status == 401 ==> r == LoginResponse(401, Invalid, None)
    ensures r.status in {200, 400, 401, 500}
  {
    if body.None? then LoginResponse(500, InternalError, None)
    else if !Truthy(body.value.email) || !Truthy(body.value.password) then LoginResponse(400, Required, None)
    else
      var email := ToLower(body.value.email.value);
      match FindUser(users, email)
      case None => LoginResponse(401, Invalid, None)
      case Some(i) =>
        match Compare(body.value.password.value, users[i])
        case None => LoginResponse(500, InternalError, None)
        case Some(false) => LoginResponse(401, Invalid, None)
        case Some(true) => LoginResponse(200, Success, Some(users[i] - {"password"}))
  }

  /** An unknown address and a wrong password get the same answer, so the
      response does not reveal which addresses are registered. */
  lemma UnknownAndWrongAlike(users: seq<Document>, f: LoginForm, i: nat)
    requires Truthy(f.email) && Truthy(f.password)
    requires FindUser(users, ToLower(f.email.value)).None? ||
      (FindUser(users, ToLower(f.email.value)) == Some(i) && Compare(f.password.value, users[i]) == Some(false))
    ensures Login(users, Some(f)) == LoginResponse(401, Invalid, None)
  {
  }

  /** A user found under the address and holding the digest of the posted
      password logs in, and the returned record is the stored one without
      its password field. */
  lemma LoginReturnsRecordWithoutPassword(users: seq<Document>, f: LoginForm, i: nat)
    requires Truthy(f.email) && Truthy(f.password)
    requires FindUser(users, ToLower(f.email.value)) == Some(i)
    requires "password" in users[i] && users[i]["password"].Digest?
    requires Verify(f.password.value, users[i]["password"].h)
    ensures var r := Login(users, Some(f));
      r.status == 200 && r.user.Some? && "password" !in r.user.value &&
      (forall k :: k in users[i] && k != "password" ==> k in r.user.value && r.user.value[k] == users[i][k])
  {
  }

  /** With no document in `users` for the address, login never succeeds,
      whatever the `doctors` collection holds. */
  lemma NoUsersRecordNoLogin(users: seq<Document>, f: LoginForm)
    requires Truthy(f.email)
    requires forall j :: 0 <= j < |users| ==> !HasEmail(users[j], ToLower(f.email.value))
    ensures Login(users, Some(f)).status != 200
  {
  }
}
