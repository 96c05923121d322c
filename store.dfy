/** The two pieces of the database and crypto layer the routes depend on,
    modelled by value: MongoDB object ids and bcrypt password digests.

    An ObjectId is kept in its canonical string form, 24 lower-case
    hexadecimal digits, which is what `toString()` returns. Generating a new
    id is not modelled: a fresh id is an input of the operations that insert.

    bcrypt is modelled symbolically. A digest records the cost factor, the
    salt and the secret it was made from; verification succeeds exactly for
    that secret. This is the idealised hash (no collisions); the real
    function's internals are not part of this model. */
module Store {
  import opened Common

  predicate IsHexDigit(c: char) {
    '0' <= c <= '9' || 'a' <= c <= 'f' || 'A' <= c <= 'F'
  }

  predicate IsLowerHexDigit(c: char) {
    '0' <= c <= '9' || 'a' <= c <= 'f'
  }

  /** A string `new ObjectId(s)` accepts: 24 hexadecimal digits. */
  predicate IsObjectIdString(s: string) {
    |s| == 24 && forall i :: 0 <= i < |s| ==> IsHexDigit(s[i])
  }

  datatype ObjectId = ObjectId(hex: string)

  /** The canonical form: 24 lower-case hexadecimal digits. */
  predicate ValidObjectId(o: ObjectId) {
    |o.hex| == 24 && forall i :: 0 <= i < |o.hex| ==> IsLowerHexDigit(o.hex[i])
  }

  /** `new ObjectId(s)`: None stands for the exception it throws on a string
      that is not 24 hexadecimal digits. */
  function ParseObjectId(s: string): (r: Option<ObjectId>)
    ensures r.Some? <==> IsObjectIdString(s)
    ensures r.Some? ==> ValidObjectId(r.value) && r.value.hex == ToLower(s)
  {
    if IsObjectIdString(s) then Some(ObjectId(ToLower(s))) else None
  }

  /** Parsing the string form of an id gives the id back. */
  lemma ParseToString(o: ObjectId)
    requires ValidObjectId(o)
    ensures ParseObjectId(o.hex) == Some(o)
  {
    assert ToLower(o.hex) == o.hex;
  }

  /** A bcrypt digest. */
  datatype PasswordHash = Bcrypt(rounds: nat, salt: nat, secret: string)

  /** The cost factor the signup route hashes with. */
  const SaltRounds: nat := 10

  /** `bcrypt.hash(password, 10)`, the random salt being an input. */
  function Hash(password: string, salt: nat): (h: PasswordHash)
    ensures h.rounds == SaltRounds && h.salt == salt
    ensures forall candidate :: Verify(candidate, h) <==> candidate == password
  {
    Bcrypt(SaltRounds, salt, password)
  }

  /** `bcrypt.compare(candidate, digest)`. */
  predicate Verify(candidate: string, h: PasswordHash) {
    candidate == h.secret
  }
}
