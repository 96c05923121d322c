/** The NextAuth configuration: the credentials check (`authorize`) against
    the `doctors` collection, and the two callbacks that copy the doctor's id
    and role into the JWT and from the JWT into the session. The callbacks
    change the objects they are given and return them. */
module Auth {
  import opened Common
  import opened Store
  import opened Signup

  /** What the sign-in form posts. NextAuth passes both fields as strings. */
  datatype Credentials = Credentials(email: string, password: string)

  /** The user object `authorize` returns. */
  datatype AuthUser = AuthUser(id: string, email: string, name: string, role: string)

  /** `authorize(credentials)`: None stands for `null`, a failed sign-in.
      `findOne` matches the record's `email` field; in a collection keyed by
      address that is the record stored under the address. */
  function Authorize(doctors: map<string, Doctor>, credentials: Option<Credentials>): (r: Option<AuthUser>)
    requires Keyed(doctors)
    ensures r.Some? <==>
      credentials.Some? && ToLower(credentials.value.email) in doctors &&
      Verify(credentials.value.password, doctors[ToLower(credentials.value.email)].password)
    ensures r.Some? ==>
      var d := doctors[ToLower(credentials.value.email)];
      r.value == AuthUser(d.id.hex, d.email, d.fullName, d.role)
    ensures r.Some? ==> r.value.email == ToLower(credentials.value.email)
  {
    if credentials.None? then None
    else
      var email := ToLower(credentials.value.email);
      if email !in doctors then None
      else
        var user := doctors[email];
        if !Verify(credentials.value.password, user.password) then None
        else Some(AuthUser(user.id.hex, user.email, user.fullName, user.role))
  }

  /** Signing up and then signing in: with the address posted at signup
      (in any letter case) `authorize` returns the new doctor exactly when
      the password is the one posted at signup; for every other address it
      answers as before the signup. */
  lemma AuthorizeAfterSignup(doctors: map<string, Doctor>, f: SignupForm, id: ObjectId,
                             salt: nat, now: int, c: Credentials)
    requires Keyed(doctors) && Accepted(doctors, Some(f))
    ensures var e := ToLower(f.email.value);
      var after := doctors[e := NewDoctor(f, id, Hash(f.password.value, salt), now)];
      Keyed(after) &&
      if ToLower(c.email) == e then
        Authorize(after, Some(c)) ==
          (if c.password == f.password.value
           then Some(AuthUser(id.hex, e, f.fullName.value, f.role.value))
           else None)
      else
        Authorize(after, Some(c)) == Authorize(doctors, Some(c))
  {
    var e := ToLower(f.email.value);
    var d := NewDoctor(f, id, Hash(f.password.value, salt), now);
    var after := doctors[e := d];
    if ToLower(c.email) == e {
      assert after[e] == d;
      assert Verify(c.password, d.password) <==> c.password == f.password.value;
    } else {
      assert ToLower(c.email) in after <==> ToLower(c.email) in doctors;
    }
  }

  /** The JWT. `id` and `role` are the fields the callback sets; the others
      are NextAuth's defaults and stay as they are. */
  class Token {
    var id: Option<string>
    var role: Option<string>
    var name: Option<string>
    var email: Option<string>
    var sub: Option<string>

    constructor(name: Option<string>, email: Option<string>, sub: Option<string>)
      ensures this.id == None && this.role == None
      ensures this.name == name && this.email == email && this.sub == sub
    {
      this.id := None;
      this.role := None;
      this.name := name;
      this.email := email;
      this.sub := sub;
    }
  }

  /** `session.user`. */
  class SessionUser {
    var id: Option<string>
    var role: Option<string>
    var name: Option<string>
    var email: Option<string>
    var image: Option<string>

    constructor(name: Option<string>, email: Option<string>, image: Option<string>)
      ensures this.id == None && this.role == None
      ensures this.name == name && this.email == email && this.image == image
    {
      this.id := None;
      this.role := None;
      this.name := name;
      this.email := email;
      this.image := image;
    }
  }

  class Session {
    var user: Option<SessionUser>
    var expires: string

    constructor(user: Option<SessionUser>, expires: string)
      ensures this.user == user && this.expires == expires
    {
      this.user := user;
      this.expires := expires;
    }
  }

  /** The `jwt` callback: when a user is supplied (at sign-in), its id and
      role are written onto the token; the token itself is returned. */
  method Jwt(token: Token, user: Option<AuthUser>) returns (r: Token)
    modifies token
    ensures r == token
    ensures user.Some? ==> token.id == Some(user.value.id) && token.role == Some(user.value.role)
    ensures user.None? ==> token.id == old(token.id) && token.role == old(token.role)
    ensures token.name == old(token.name) && token.email == old(token.email) && token.sub == old(token.sub)
  {
    if user.Some? {
      token.id := Some(user.value.id);
      token.role := Some(user.value.role);
    }
    return token;
  }

  /** The objects the session callback may write: the session's user, if
      there is one. */
  function UserFrame(session: Session): set<object>
    reads session
  {
    if session.user.Some? then {session.user.value} else {}
  }

  /** The `session` callback: when the session has a user, the token's id
      and role are copied onto it; the session itself is returned. */
  method SessionCallback(session: Session, token: Token) returns (r: Session)
    modifies UserFrame(session)
    ensures r == session
    ensures session.user == old(session.user) && session.expires == old(session.expires)
    ensures session.user.Some? ==>
      var u := session.user.value;
      u.id == token.id && u.role == token.role &&
      u.name == old(u.name) && u.email == old(u.email) && u.image == old(u.image)
  {
    if session.user.Some? {
      var u := session.user.value;
      u.id := token.id;
      u.role := token.role;
    }
    return session;
  }

  /** A sign-in end to end: `authorize`, then the `jwt` callback on a new
      token, then the `session` callback. On success the session's user
      carries the doctor's id (the string form of its `_id`) and role. */
  method SignIn(doctors: map<string, Doctor>, credentials: Option<Credentials>,
                session: Session, token: Token) returns (user: Option<AuthUser>)
    requires Keyed(doctors) && session.user.Some?
    modifies token, UserFrame(session)
    ensures user == Authorize(doctors, credentials)
    ensures user.Some? ==>
      var d := doctors[ToLower(credentials.value.email)];
      session.user.value.id == Some(d.id.hex) && session.user.value.role == Some(d.role)
  {
    user := Authorize(doctors, credentials);
    var t := Jwt(token, user);
    var s := SessionCallback(session, t);
  }
}
