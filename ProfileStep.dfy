/** The second registration step: a candidate profile or a company profile, chosen
    by the role picked in the first step. */
module ProfileStep {
  import opened Wrappers
  import opened Validation
  import opened MultiStepRegister

  datatype ProfileSchema = CandidateSchema | EmployerSchema

  /** The sector choices the dropdown offers; the schema does not consult them. */
  const Sectors := ["technology", "health", "education", "finance", "retail", "industry",
                    "services", "others"]

  /** The role CANDIDATE picks the candidate schema; every other role, including one
      the first step would have refused, picks the employer schema. */
  function SchemaFor(role: string): (s: ProfileSchema)
    ensures s == CandidateSchema <==> role == "CANDIDATE"
  {
    if role == "CANDIDATE" then CandidateSchema else EmployerSchema
  }

  predicate CandidateValid(v: RegisterData) {
    PresentWithMin(v.name, 2) && PresentWithMin(v.phone, 10) && PresentWithMin(v.location, 2)
  }

  /** The sector is checked by length only. */
  predicate EmployerValid(v: RegisterData) {
    PresentWithMin(v.companyName, 2) && PresentWithMin(v.cnpj, 14) && PresentWithMin(v.sector, 2)
  }

  predicate ProfileValid(role: string, v: RegisterData) {
    match SchemaFor(role)
    case CandidateSchema => CandidateValid(v)
    case EmployerSchema => EmployerValid(v)
  }

  function ProfileIssues(role: string, v: RegisterData): (issues: seq<Issue>)
    ensures issues == [] <==> ProfileValid(role, v)
  {
    match SchemaFor(role)
    case CandidateSchema =>
      MinField(v.name, 2, "name", "Nome deve ter pelo menos 2 caracteres") +
      MinField(v.phone, 10, "phone", "Telefone inválido") +
      MinField(v.location, 2, "location", "Localização obrigatória")
    case EmployerSchema =>
      MinField(v.companyName, 2, "companyName", "Nome da empresa obrigatório") +
      MinField(v.cnpj, 14, "cnpj", "CNPJ inválido") +
      MinField(v.sector, 2, "sector", "Setor obrigatório")
  }

  /** The parsed values `onSubmit` receives: the three keys of the chosen schema only. */
  function ParseProfile(role: string, v: RegisterData): (r: Option<RegisterPatch>)
    ensures r.Some? <==> ProfileValid(role, v)
    ensures r.Some? && role == "CANDIDATE" ==>
      forall d :: Merge(d, r.value) == d.(name := v.name, phone := v.phone, location := v.location)
    ensures r.Some? && role != "CANDIDATE" ==>
      forall d :: Merge(d, r.value) == d.(companyName := v.companyName, cnpj := v.cnpj, sector := v.sector)
  {
    if !ProfileValid(role, v) then None
    else match SchemaFor(role)
      case CandidateSchema => Some(EmptyPatch.(name := v.name, phone := v.phone, location := v.location))
      case EmployerSchema => Some(EmptyPatch.(companyName := v.companyName, cnpj := v.cnpj, sector := v.sector))
  }

  /** A sector outside the dropdown's list still passes. */
  lemma SectorNotCheckedAgainstList(v: RegisterData)
    requires PresentWithMin(v.companyName, 2) && PresentWithMin(v.cnpj, 14)
    ensures v.(sector := Some("zz")).sector.value !in Sectors
    ensures EmployerValid(v.(sector := Some("zz")))
  {
  }

  /** On valid values, `onUpdate` with the parsed values, then `onNext`. The schema is
      chosen by the role held in the wizard's data. */
  method OnSubmit(w: Wizard, v: RegisterData)
    modifies w
    ensures ProfileValid(old(w.formData.role), v) ==>
      w.formData == Merge(old(w.formData), ParseProfile(old(w.formData.role), v).value) &&
      w.activeIndex == (if old(w.activeIndex) < StepCount - 1 then old(w.activeIndex) + 1 else old(w.activeIndex))
    ensures !ProfileValid(old(w.formData.role), v) ==>
      w.formData == old(w.formData) && w.activeIndex == old(w.activeIndex)
  {
    var parsed := ParseProfile(w.formData.role, v);
    if parsed.Some? {
      w.UpdateFormData(parsed.value);
      w.NextStep();
    }
  }

  /** 'Voltar': back one step with no validation and no change to the data. */
  method OnBack(w: Wizard)
    modifies w
    ensures w.activeIndex == (if old(w.activeIndex) > 0 then old(w.activeIndex) - 1 else old(w.activeIndex))
    ensures w.formData == old(w.formData)
  {
    w.PrevStep();
  }

  /** Filling the profile keeps the account fields of the first step. */
  lemma ProfileKeepsAccount(role: string, v: RegisterData, d: RegisterData)
    requires ProfileValid(role, v)
    ensures var m := Merge(d, ParseProfile(role, v).value);
      m.email == d.email && m.password == d.password && m.role == d.role
  {
  }
}
