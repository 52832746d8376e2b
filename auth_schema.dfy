/** The registration and login form schemas. */
module AuthSchema {
  import Seqs

  datatype RegisterInput = RegisterInput(username: string, email: string, password: string)

  datatype LoginInput = LoginInput(email: string, password: string)

  datatype RegisterField = Username | Email | Password {
    function Message(): string {
      match this
      case Username => "Username must be at least 3 characters"
      case Email => "Please enter a valid email address"
      case Password => "Password must be at least 6 characters"
    }
  }

  datatype LoginField = LoginEmail | LoginPassword {
    function Message(): string {
      match this
      case LoginEmail => "Email is required"
      case LoginPassword => "Password is required"
    }
  }

  /** Registration: a username of 3 characters or more, a well-formed email, a password of 6 or more. */
  predicate RegisterValid(v: RegisterInput, isEmail: string -> bool) {
    |v.username| >= 3 && isEmail(v.email) && |v.password| >= 6
  }

  predicate RegisterPasses(v: RegisterInput, isEmail: string -> bool, f: RegisterField) {
    match f
    case Username => |v.username| >= 3
    case Email => isEmail(v.email)
    case Password => |v.password| >= 6
  }

  /** The fields `registerSchema` rejects, in order. */
  function RegisterIssues(v: RegisterInput, isEmail: string -> bool): (r: seq<RegisterField>)
    ensures r == [] <==> RegisterValid(v, isEmail)
    ensures Username in r <==> |v.username| < 3
    ensures Email in r <==> !isEmail(v.email)
    ensures Password in r <==> |v.password| < 6
  {
    var r := Seqs.Filter([Username, Email, Password], (f: RegisterField) => !RegisterPasses(v, isEmail, f));
    assert r == [] ==> RegisterValid(v, isEmail) by {
      if r == [] {
        assert RegisterPasses(v, isEmail, Username) && RegisterPasses(v, isEmail, Email)
          && RegisterPasses(v, isEmail, Password);
      }
    }
    r
  }

  predicate LoginPasses(v: LoginInput, f: LoginField) {
    match f
    case LoginEmail => v.email != ""
    case LoginPassword => v.password != ""
  }

  /** The fields `loginSchema` rejects: only emptiness is checked; the email field also takes a username. */
  function LoginIssues(v: LoginInput): (r: seq<LoginField>)
    ensures r == [] <==> v.email != "" && v.password != ""
    ensures LoginEmail in r <==> v.email == ""
    ensures LoginPassword in r <==> v.password == ""
  {
    var r := Seqs.Filter([LoginEmail, LoginPassword], (f: LoginField) => !LoginPasses(v, f));
    assert r == [] ==> v.email != "" && v.password != "" by {
      if r == [] {
        assert LoginPasses(v, LoginEmail) && LoginPasses(v, LoginPassword);
      }
    }
    r
  }

  /** Credentials that passed registration also pass the login form, when the email test rejects "". */
  lemma RegisteredCanLogIn(v: RegisterInput, isEmail: string -> bool)
    requires !isEmail("")
    requires RegisterIssues(v, isEmail) == []
    ensures LoginIssues(LoginInput(v.email, v.password)) == []
  {
  }
}
