/** Account registration: the schema check, the uniqueness check, then the insert with a hashed password. */
module UserRouter {
  import opened Wrappers
  import opened Tables
  import AuthSchema

  /** What `register` returns: no password. */
  datatype PublicUser = PublicUser(id: int, username: string, email: string)

  /** `findFirst({ where: { OR: [{ email }, { username }] } })` finds a row. */
  predicate Taken(users: seq<User>, username: string, email: string) {
    exists i :: 0 <= i < |users| && (users[i].email == email || users[i].username == username)
  }

  /** A new account whose email and username are both free keeps the accounts unique. */
  lemma FreshAccountKeepsUnique(users: seq<User>, u: User)
    requires UniqueAccounts(users)
    requires !Taken(users, u.username, u.email)
    ensures UniqueAccounts(users + [u])
  {
    var all := users + [u];
    forall i, j | 0 <= i < j < |all|
      ensures all[i].email != all[j].email && all[i].username != all[j].username
    {
      if j == |users| {
        assert all[j] == u && all[i] == users[i];
      }
    }
  }

  /**
   * Stands for the message of tRPC's input-validation error, which carries the
   * schema's messages; the storefront does not produce this text itself.
   */
  const InvalidInput := "<input validation error message>"

  /**
   * `register`: rejects input the schema rejects and, with "User with this
   * email or username already exists", any clash with an existing account;
   * otherwise adds exactly one user whose password is the hash of the given one.
   */
  method Register(db: Database, input: AuthSchema.RegisterInput, isEmail: string -> bool, hash: string -> string)
    returns (result: Result<PublicUser>)
    requires db.Valid()
    modifies db
    ensures db.Valid()
    ensures result.Success? <==>
      AuthSchema.RegisterValid(input, isEmail) && !Taken(old(db.users), input.username, input.email)
    ensures AuthSchema.RegisterValid(input, isEmail) && Taken(old(db.users), input.username, input.email) ==>
      result == Failure("User with this email or username already exists")
    ensures result.Failure? ==> db.users == old(db.users) && db.nextId == old(db.nextId)
    ensures result.Success? ==>
      && result.value == PublicUser(old(db.nextId), input.username, input.email)
      && db.users == old(db.users) + [User(old(db.nextId), input.username, input.email, Some(hash(input.password)), None)]
      && db.nextId == old(db.nextId) + 1
    ensures db.products == old(db.products) && db.reviews == old(db.reviews) && db.purchases == old(db.purchases)
  {
    if !AuthSchema.RegisterValid(input, isEmail) {
      return Failure(InvalidInput);
    }
    if Taken(db.users, input.username, input.email) {
      return Failure("User with this email or username already exists");
    }
    var hashedPassword := hash(input.password);
    var user := User(db.nextId, input.username, input.email, Some(hashedPassword), None);
    FreshAccountKeepsUnique(db.users, user);
    db.users := db.users + [user];
    db.nextId := db.nextId + 1;
    result := Success(PublicUser(user.id, user.username, user.email));
  }
}
