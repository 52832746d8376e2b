/** Sign-in: the credentials check, and the callbacks that carry the user into the token and the session. */
module AuthConfig {
  import opened Wrappers
  import opened Tables
  import CheckoutTypes

  /** The submitted credentials; `email` holds an email or a username. */
  datatype Credentials = Credentials(email: string, password: string)

  /** The user object `authorize` returns. */
  datatype SignedIn = SignedIn(id: int, username: string, email: string)

  /** The first account whose email or whose username equals the identifier. */
  function FindAccount(users: seq<User>, identifier: string): (r: Option<nat>)
    ensures r.Some? ==> r.value < |users| && (users[r.value].email == identifier || users[r.value].username == identifier)
    ensures r.Some? ==> forall k :: 0 <= k < r.value ==> users[k].email != identifier && users[k].username != identifier
    ensures r.None? <==> forall k :: 0 <= k < |users| ==> users[k].email != identifier && users[k].username != identifier
  {
    if users == [] then None
    else if users[0].email == identifier || users[0].username == identifier then Some(0)
    else match FindAccount(users[1..], identifier)
      case Some(k) => Some(k + 1)
      case None => None
  }

  /**
   * `authorize`: no credentials, no matching account, an account without a
   * password, or a password that does not verify against the stored hash
   * all give `null`; otherwise the account's id and email, with its display
   * name standing in for the username when it has one.
   */
  function Authorize(credentials: Option<Credentials>, users: seq<User>, compare: (string, string) -> bool)
    : (r: Option<SignedIn>)
    ensures credentials.None? ==> r.None?
    ensures r.Some? <==>
      && credentials.Some?
      && FindAccount(users, credentials.value.email).Some?
      && var u := users[FindAccount(users, credentials.value.email).value];
         CheckoutTypes.Filled(u.password) && compare(credentials.value.password, u.password.value)
    ensures r.Some? ==>
      var u := users[FindAccount(users, credentials.value.email).value];
      && r.value.id == u.id && r.value.email == u.email
      && r.value.username == (if CheckoutTypes.Filled(u.name) then u.name.value else u.username)
  {
    if credentials.None? then None
    else
      match FindAccount(users, credentials.value.email)
      case None => None
      case Some(k) =>
        var user := users[k];
        if !CheckoutTypes.Filled(user.password) then None
        else if !compare(credentials.value.password, user.password.value) then None
        else Some(SignedIn(user.id, if CheckoutTypes.Filled(user.name) then user.name.value else user.username, user.email))
  }

  /** A signed-in account is one whose email or username was the identifier. */
  lemma AuthorizedMatchesIdentifier(credentials: Option<Credentials>, users: seq<User>, compare: (string, string) -> bool)
    requires Authorize(credentials, users, compare).Some?
    ensures exists k :: 0 <= k < |users| && users[k].id == Authorize(credentials, users, compare).value.id &&
                        (users[k].email == credentials.value.email || users[k].username == credentials.value.email)
  {
    var k := FindAccount(users, credentials.value.email).value;
    assert users[k].id == Authorize(credentials, users, compare).value.id;
  }

  /** The session token: the user fields it carries and everything else it holds. */
  datatype Token = Token(others: map<string, string>, username: Option<string>, email: Option<string>, id: Option<int>)

  /** `jwt`: unchanged without a user; otherwise the user's username, email and id are written onto it. */
  function Jwt(token: Token, user: Option<SignedIn>): (r: Token)
    ensures user.None? ==> r == token
    ensures user.Some? ==>
      r.others == token.others && r.username == Some(user.value.username)
      && r.email == Some(user.value.email) && r.id == Some(user.value.id)
  {
    match user
    case None => token
    case Some(u) => token.(username := Some(u.username), email := Some(u.email), id := Some(u.id))
  }

  /** The session's user object: the fields the callback writes and the rest it keeps. */
  datatype SessionUser = SessionUser(others: map<string, string>, id: Option<int>, email: Option<string>, username: Option<string>)

  datatype Session = Session(expires: string, user: Option<SessionUser>)

  /** `session`: keeps the session and its user's other fields, and copies id, email and username from the token. */
  function SessionOf(session: Session, token: Token): (r: Session)
    ensures r.expires == session.expires && r.user.Some?
    ensures r.user.value.id == token.id && r.user.value.email == token.email && r.user.value.username == token.username
    ensures r.user.value.others == (if session.user.Some? then session.user.value.others else map[])
  {
    var base := if session.user.Some? then session.user.value.others else map[];
    session.(user := Some(SessionUser(base, token.id, token.email, token.username)))
  }

  /** After sign-in the session holds the signed-in user's id, email and username, whatever the token held before. */
  lemma SignInReachesSession(session: Session, token: Token, user: SignedIn)
    ensures var s := SessionOf(session, Jwt(token, Some(user)));
      s.user.value.id == Some(user.id) && s.user.value.email == Some(user.email)
      && s.user.value.username == Some(user.username)
  {
  }
}
