/** The root app's login, registration and profile schemas. The email recogniser of
    the schema library is a parameter: only the rules written in the schemas are
    modelled, not what counts as an email address. */
module AuthSchemas {
  import opened Wrappers
  import opened Validation

  const MinPasswordLength := 6
  const RegisterRoles := ["CANDIDATE", "EMPLOYER"]

  const EmailMessage := "Email inválido"
  const PasswordMessage := "Senha deve ter pelo menos 6 caracteres"
  const RoleRequiredMessage := "Selecione o tipo de conta"
  const FullNameMessage := "Nome deve ter pelo menos 2 caracteres"

  datatype LoginForm = LoginForm(email: string, password: string)

  /** The registration form; the role is None until one is chosen. */
  datatype RegisterForm = RegisterForm(email: string, password: string, role: Option<string>)

  datatype ProfileForm = ProfileForm(
    fullName: string, phone: Option<string>, skills: Option<string>, experience: Option<string>)

  predicate LoginValid(f: LoginForm, isEmail: string -> bool) {
    isEmail(f.email) && |f.password| >= MinPasswordLength
  }

  function LoginIssues(f: LoginForm, isEmail: string -> bool): (issues: seq<Issue>)
    ensures issues == [] <==> LoginValid(f, isEmail)
    ensures Issue("password", PasswordMessage) in issues <==> |f.password| < MinPasswordLength
  {
    Check(isEmail(f.email), "email", EmailMessage) +
    Check(|f.password| >= MinPasswordLength, "password", PasswordMessage)
  }

  predicate RegisterValid(f: RegisterForm, isEmail: string -> bool) {
    isEmail(f.email) && |f.password| >= MinPasswordLength &&
    f.role.Some? && f.role.value in RegisterRoles
  }

  /** The role issue carries the schema's message when no role was chosen and the
      library's default wording when the role is outside the two accepted values. */
  function RegisterIssues(f: RegisterForm, isEmail: string -> bool): (issues: seq<Issue>)
    ensures issues == [] <==> RegisterValid(f, isEmail)
    ensures Issue("role", RoleRequiredMessage) in issues <==> f.role.None?
  {
    Check(isEmail(f.email), "email", EmailMessage) +
    Check(|f.password| >= MinPasswordLength, "password", PasswordMessage) +
    (match f.role
     case None => [Issue("role", RoleRequiredMessage)]
     case Some(r) => Check(r in RegisterRoles, "role", DefaultMessage))
  }

  predicate ProfileValid(f: ProfileForm) {
    |f.fullName| >= 2
  }

  function ProfileIssues(f: ProfileForm): (issues: seq<Issue>)
    ensures issues == [] <==> ProfileValid(f)
  {
    Check(|f.fullName| >= 2, "fullName", FullNameMessage)
  }

  /** Registration asks for everything login asks for, and an administrator account
      can never be requested through it. */
  lemma RegisterStrongerThanLogin(f: RegisterForm, isEmail: string -> bool)
    ensures RegisterValid(f, isEmail) ==> LoginValid(LoginForm(f.email, f.password), isEmail)
    ensures f.role == Some("ADMIN") ==> !RegisterValid(f, isEmail)
  {
  }

  /** The password threshold sits exactly between five and six characters, in both
      schemas. */
  lemma PasswordThreshold(email: string, isEmail: string -> bool)
    requires isEmail(email)
    ensures LoginValid(LoginForm(email, "123456"), isEmail)
    ensures !LoginValid(LoginForm(email, "12345"), isEmail)
    ensures RegisterValid(RegisterForm(email, "123456", Some("CANDIDATE")), isEmail)
    ensures !RegisterValid(RegisterForm(email, "12345", Some("CANDIDATE")), isEmail)
  {
  }
}
