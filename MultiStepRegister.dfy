/** The three-step registration wizard of the root app: an active step index and
    the form data the steps fill in. */
module MultiStepRegister {
  import opened Wrappers
  import opened Fetching

  /** The wizard's form data. The optional profile fields are None while unset. */
  datatype RegisterData = RegisterData(
    email: string, password: string, role: string,
    name: Option<string>, phone: Option<string>, location: Option<string>,
    companyName: Option<string>, cnpj: Option<string>, sector: Option<string>)

  /** A `Partial<RegisterData>`: None where the key is absent. */
  datatype RegisterPatch = RegisterPatch(
    email: Option<string>, password: Option<string>, role: Option<string>,
    name: Option<string>, phone: Option<string>, location: Option<string>,
    companyName: Option<string>, cnpj: Option<string>, sector: Option<string>)

  const InitialData := RegisterData("", "", "CANDIDATE", None, None, None, None, None, None)

  const EmptyPatch := RegisterPatch(None, None, None, None, None, None, None, None, None)

  /** The step labels 'Conta', 'Perfil' and 'Confirmação'. */
  const StepCount := 3

  /** `{ ...prev, ...data }`: keys present in the patch override, the others are kept. */
  function Merge(d: RegisterData, p: RegisterPatch): RegisterData {
    RegisterData(
      p.email.GetOr(d.email), p.password.GetOr(d.password), p.role.GetOr(d.role),
      if p.name.Some? then p.name else d.name,
      if p.phone.Some? then p.phone else d.phone,
      if p.location.Some? then p.location else d.location,
      if p.companyName.Some? then p.companyName else d.companyName,
      if p.cnpj.Some? then p.cnpj else d.cnpj,
      if p.sector.Some? then p.sector else d.sector)
  }

  /** The patch that sets every field to the value it has in `d`. */
  function AsPatch(d: RegisterData): RegisterPatch {
    RegisterPatch(Some(d.email), Some(d.password), Some(d.role),
                  d.name, d.phone, d.location, d.companyName, d.cnpj, d.sector)
  }

  /** Merging is a shallow override: the empty patch changes nothing, a second merge of
      the same patch changes nothing more, and a patch built from the data it is
      merged into changes nothing either. */
  lemma MergeLaws(d: RegisterData, p: RegisterPatch)
    ensures Merge(d, EmptyPatch) == d
    ensures Merge(Merge(d, p), p) == Merge(d, p)
    ensures Merge(d, AsPatch(d)) == d
  {
  }

  /** What the wizard shows for a step index. */
  datatype StepView = BasicInfo | Profile | Confirmation | NoStep

  /** `renderStep`: one view per step index, and none outside the steps. */
  function RenderStep(activeIndex: int): (v: StepView)
    ensures v == NoStep <==> !(0 <= activeIndex < StepCount)
    ensures v == BasicInfo <==> activeIndex == 0
    ensures v == Confirmation <==> activeIndex == StepCount - 1
  {
    if activeIndex == 0 then BasicInfo
    else if activeIndex == 1 then Profile
    else if activeIndex == 2 then Confirmation
    else NoStep
  }

  class Wizard {
    var activeIndex: int
    var formData: RegisterData

    /** The step index stays within the three steps. */
    predicate Valid()
      reads this
    {
      0 <= activeIndex < StepCount
    }

    constructor ()
      ensures activeIndex == 0 && formData == InitialData
      ensures Valid()
    {
      activeIndex := 0;
      formData := InitialData;
    }

    method UpdateFormData(data: RegisterPatch)
      modifies this
      ensures formData == Merge(old(formData), data) && activeIndex == old(activeIndex)
    {
      formData := Merge(formData, data);
    }

    /** Advances unless the last step is showing. */
    method NextStep()
      modifies this
      ensures activeIndex == if old(activeIndex) < StepCount - 1 then old(activeIndex) + 1 else old(activeIndex)
      ensures formData == old(formData)
      ensures old(Valid()) ==> Valid()
    {
      if activeIndex < StepCount - 1 {
        activeIndex := activeIndex + 1;
      }
    }

    /** Goes back unless the first step is showing. */
    method PrevStep()
      modifies this
      ensures activeIndex == if old(activeIndex) > 0 then old(activeIndex) - 1 else old(activeIndex)
      ensures formData == old(formData)
      ensures old(Valid()) ==> Valid()
    {
      if activeIndex > 0 {
        activeIndex := activeIndex - 1;
      }
    }

    /** `handleSubmit`: sends the collected data to the registration endpoint as it
        stands, and navigates to '/' exactly when registration succeeds; a failure is
        swallowed and the wizard stays where it is. The wizard has no loading flag of
        its own, so the request is logged with the flag off. */
    method HandleSubmit<T>(register: Source<RegisterData, T>) returns (navigateTo: Option<string>)
      modifies register
      ensures register.calls == old(register.calls) + [Call(formData, false)]
      ensures navigateTo == Some("/") <==> HeadResult(old(register.results)).Ok?
      ensures navigateTo.None? <==> HeadResult(old(register.results)).Err?
    {
      var r := register.Fetch(formData, false);
      if r.Ok? {
        navigateTo := Some("/");
      } else {
        navigateTo := None;
      }
    }
  }
}
