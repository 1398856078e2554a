/** The login endpoint `POST /api/auth`: a submitted password is checked against
    two configured secrets and answered with a privilege tier or an error. */
module AuthRoute {
  import opened Wrappers
  import opened Levels

  /** The `password` field of the request body: missing, present but not a
      string, or a string. */
  datatype PasswordField = Absent | NonString | Text(s: string)

  /** The password check passes only for a non-empty string. */
  predicate ValidPassword(p: PasswordField)
  {
    p.Text? && p.s != ""
  }

  /** An environment secret counts as configured when it is set and not empty. */
  predicate Configured(secret: Option<string>)
  {
    secret.Some? && secret.value != ""
  }

  const PasswordRequired: string := "Password is required"
  const NotConfiguredMessage: string := "Authentication not configured"
  const InvalidPasswordMessage: string := "Invalid password"

  /** `Granted` is 200 `{level}`; the others are 400, 500 and 401 with an error. */
  datatype AuthResponse =
    | Granted(level: AuthLevel)
    | MissingPassword
    | NotConfigured
    | InvalidPassword

  function StatusCode(r: AuthResponse): int
  {
    match r
    case Granted(_) => 200
    case MissingPassword => 400
    case NotConfigured => 500
    case InvalidPassword => 401
  }

  function ErrorMessage(r: AuthResponse): Option<string>
  {
    match r
    case Granted(_) => None
    case MissingPassword => Some(PasswordRequired)
    case NotConfigured => Some(NotConfiguredMessage)
    case InvalidPassword => Some(InvalidPasswordMessage)
  }

  /** The check chain, in order: password present, both secrets configured, admin
      secret, user secret. */
  function Authenticate(password: PasswordField, userSecret: Option<string>, adminSecret: Option<string>): (r: AuthResponse)
    ensures r == MissingPassword <==> !ValidPassword(password)
    ensures r == NotConfigured <==> ValidPassword(password) && !(Configured(userSecret) && Configured(adminSecret))
    ensures r == Granted(Admin) <==>
      ValidPassword(password) && Configured(userSecret) && Configured(adminSecret) && password.s == adminSecret.value
    ensures r == Granted(User) <==>
      ValidPassword(password) && Configured(userSecret) && Configured(adminSecret)
      && password.s != adminSecret.value && password.s == userSecret.value
    ensures r == InvalidPassword <==>
      ValidPassword(password) && Configured(userSecret) && Configured(adminSecret)
      && password.s != adminSecret.value && password.s != userSecret.value
    ensures r.Granted? ==> r.level != NoAuth
    ensures StatusCode(r) == 200 <==> ErrorMessage(r) == None
    ensures !ValidPassword(password) ==> StatusCode(r) == 400 && ErrorMessage(r) == Some("Password is required")
    ensures r == NotConfigured ==> StatusCode(r) == 500 && ErrorMessage(r) == Some("Authentication not configured")
    ensures r == InvalidPassword ==> StatusCode(r) == 401 && ErrorMessage(r) == Some("Invalid password")
  {
    if !ValidPassword(password) then MissingPassword
    else if !Configured(userSecret) || !Configured(adminSecret) then NotConfigured
    else if password.s == adminSecret.value then Granted(Admin)
    else if password.s == userSecret.value then Granted(User)
    else InvalidPassword
  }

  /** The secret that grants a tier; `NoAuth` has none. */
  function SecretOf(level: AuthLevel, userSecret: Option<string>, adminSecret: Option<string>): Option<string>
  {
    match level
    case NoAuth => None
    case User => userSecret
    case Admin => adminSecret
  }

  /** `Admin` outranks `User`, which outranks `NoAuth`. */
  function Rank(level: AuthLevel): nat
  {
    match level
    case NoAuth => 0
    case User => 1
    case Admin => 2
  }

  /** With the password and both secrets valid, the granted tier is the highest
      tier whose secret equals the password, and "invalid" means no secret does. */
  lemma GrantedIsHighestMatchingTier(password: string, userSecret: Option<string>, adminSecret: Option<string>, level: AuthLevel)
    requires password != "" && Configured(userSecret) && Configured(adminSecret)
    ensures Authenticate(Text(password), userSecret, adminSecret) == Granted(level) <==>
      && SecretOf(level, userSecret, adminSecret) == Some(password)
      && forall higher :: Rank(higher) > Rank(level) ==> SecretOf(higher, userSecret, adminSecret) != Some(password)
    ensures Authenticate(Text(password), userSecret, adminSecret) == InvalidPassword <==>
      forall l :: SecretOf(l, userSecret, adminSecret) != Some(password)
  {
    var r := Authenticate(Text(password), userSecret, adminSecret);
    if r == InvalidPassword {
      forall l ensures SecretOf(l, userSecret, adminSecret) != Some(password) {
        match l
        case NoAuth =>
        case User =>
        case Admin =>
      }
    }
    assert SecretOf(User, userSecret, adminSecret) == userSecret;
    assert SecretOf(Admin, userSecret, adminSecret) == adminSecret;
    if SecretOf(level, userSecret, adminSecret) == Some(password) && level != Admin {
      assert Rank(Admin) > Rank(level);
    }
  }

  /** When both secrets are the same, that password signs in as admin. */
  lemma EqualSecretsResolveToAdmin(secret: string)
    requires secret != ""
    ensures Authenticate(Text(secret), Some(secret), Some(secret)) == Granted(Admin)
  {
  }
}
