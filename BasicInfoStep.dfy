/** The first registration step: email, password and account type. */
module BasicInfoStep {
  import opened Wrappers
  import opened Validation
  import opened MultiStepRegister
  import AuthSchemas

  const EmailMessage := "Email inválido"
  const PasswordMessage := "Senha deve ter pelo menos 6 caracteres"

  /** The two values the account-type selector can set. */
  const RoleOptions := ["CANDIDATE", "EMPLOYER"]

  predicate BasicInfoValid(v: RegisterData, isEmail: string -> bool) {
    isEmail(v.email) && |v.password| >= 6 && v.role in RoleOptions
  }

  function BasicInfoIssues(v: RegisterData, isEmail: string -> bool): (issues: seq<Issue>)
    ensures issues == [] <==> BasicInfoValid(v, isEmail)
  {
    Check(isEmail(v.email), "email", EmailMessage) +
    Check(|v.password| >= 6, "password", PasswordMessage) +
    Check(v.role in RoleOptions, "role", DefaultMessage)
  }

  /** What the resolver hands to `onSubmit`: only the schema's three keys, so a
      profile field the form carries along is not written back. */
  function ParseBasicInfo(v: RegisterData, isEmail: string -> bool): (r: Option<RegisterPatch>)
    ensures r.Some? <==> BasicInfoValid(v, isEmail)
    ensures r.Some? ==>
      forall d :: Merge(d, r.value) == d.(email := v.email, password := v.password, role := v.role)
  {
    if BasicInfoValid(v, isEmail) then
      Some(EmptyPatch.(email := Some(v.email), password := Some(v.password), role := Some(v.role)))
    else None
  }

  /** Every value the selector sets passes the role check. */
  lemma SelectorRolesAccepted(v: RegisterData, i: nat, isEmail: string -> bool)
    requires i < |RoleOptions| && isEmail(v.email) && |v.password| >= 6
    ensures BasicInfoValid(v.(role := RoleOptions[i]), isEmail)
  {
  }

  /** The step accepts exactly what the registration schema accepts for the same
      email, password and chosen role. */
  lemma AgreesWithRegisterSchema(v: RegisterData, isEmail: string -> bool)
    ensures BasicInfoValid(v, isEmail) <==>
      AuthSchemas.RegisterValid(AuthSchemas.RegisterForm(v.email, v.password, Some(v.role)), isEmail)
  {
  }

  /** `handleSubmit(onSubmit)`: on valid values, `onUpdate` with the parsed values and
      then `onNext`; on invalid values neither is called. */
  method OnSubmit(w: Wizard, v: RegisterData, isEmail: string -> bool)
    modifies w
    ensures BasicInfoValid(v, isEmail) ==>
      w.formData == old(w.formData).(email := v.email, password := v.password, role := v.role) &&
      w.activeIndex == (if old(w.activeIndex) < StepCount - 1 then old(w.activeIndex) + 1 else old(w.activeIndex))
    ensures !BasicInfoValid(v, isEmail) ==> w.formData == old(w.formData) && w.activeIndex == old(w.activeIndex)
  {
    var parsed := ParseBasicInfo(v, isEmail);
    if parsed.Some? {
      w.UpdateFormData(parsed.value);
      w.NextStep();
    }
  }
}
