/** The user record (service/user.go). Password hashing and hash comparison
    are bcrypt in the source; here they are functions given by the caller. */
module UserRecord {
  import opened Base

  datatype User = User(username: string, hashedPassword: string, role: string) {

    /** Clone: a record with the same three fields. Records are values, so the
        copy can never be changed through the original or the other way round. */
    function Clone(): (copy: User)
      ensures copy == this
    {
      User(username, hashedPassword, role)
    }

    /** IsCorrectPassword: `matches(hash, password)` stands for
        bcrypt.CompareHashAndPassword(hash, password) returning no error. */
    predicate IsCorrectPassword(password: string, matches: (string, string) -> bool)
    {
      matches(hashedPassword, password)
    }
  }

  datatype UserError = CannotHashPassword

  /** NewUser: `hash(password)` stands for bcrypt.GenerateFromPassword in this
      call, none when it fails. */
  function NewUser(username: string, password: string, role: string, hash: string -> Option<string>): (r: Result<User, UserError>)
    ensures hash(password).None? ==> r == Failure(CannotHashPassword)
    ensures hash(password).Some? ==>
      r.Success? && r.value.username == username && r.value.role == role && r.value.hashedPassword == hash(password).value
  {
    match hash(password)
    case None => Failure(CannotHashPassword)
    case Some(hashed) => Success(User(username, hashed, role))
  }

  /** When the comparison accepts every hash the hasher produces for a password,
      a new user's own password is correct for it. */
  lemma NewUserAcceptsItsPassword(username: string, password: string, role: string,
                                  hash: string -> Option<string>, matches: (string, string) -> bool)
    requires forall p :: hash(p).Some? ==> matches(hash(p).value, p)
    requires hash(password).Some?
    ensures NewUser(username, password, role, hash).Success?
    ensures NewUser(username, password, role, hash).value.IsCorrectPassword(password, matches)
  {
  }
}
