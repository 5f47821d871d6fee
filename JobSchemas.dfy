/** The portal's job and company schemas: length minima, optional fields, defaults,
    an enumerated job type and the cross-field salary check. The URL recogniser of
    the schema library is a parameter. */
module JobSchemas {
  import opened Wrappers
  import opened Validation
  import Entities

  const JobTypes := ["FULL_TIME", "PART_TIME", "CONTRACT", "INTERNSHIP"]
  const DefaultJobType := "FULL_TIME"

  const TitleMessage := "Título deve ter pelo menos 3 caracteres"
  const DescriptionMessage := "Descrição deve ter pelo menos 10 caracteres"
  const LocationMessage := "Localização é obrigatória"
  const SalaryMessage := "Salário deve ser positivo"
  const SalaryOrderMessage := "Salário máximo deve ser maior que o mínimo"
  const CompanyNameMessage := "Nome da empresa é obrigatório"
  const WebsiteMessage := "URL inválida"

  /** zod's own wording for a value of the wrong kind, followed by the kind received. */
  const ExpectedNumberMessage := "Expected number, received "

  /** A number field as the schema receives it: absent, a number, or a value of another
      kind (an input's text, or NaN), named by the kind zod reports. */
  datatype NumberInput = Absent | Number(n: int) | NotANumber(received: string)

  /** The values a job form hands the schema; None where a key is absent or undefined,
      as a text field the user never typed in is. */
  datatype JobFormValues = JobFormValues(
    title: Option<string>, description: Option<string>, requirements: Option<string>, location: Option<string>,
    remote: Option<bool>, salaryMin: NumberInput, salaryMax: NumberInput, jobType: Option<string>)

  /** What the job schema hands on after parsing: the defaults filled in. */
  datatype JobData = JobData(
    title: string, description: string, requirements: Option<string>, location: string,
    remote: bool, salaryMin: Option<int>, salaryMax: Option<int>, jobType: string)

  /** The number a field carries, if it carries one. */
  function AsNumber(v: NumberInput): Option<int> {
    if v.Number? then Some(v.n) else None
  }

  /** `z.number().min(0).optional()`: absent, or a number that is not negative. */
  predicate SalaryFieldOk(v: NumberInput) {
    v.Absent? || (v.Number? && v.n >= 0)
  }

  predicate TypeOk(jobType: Option<string>) {
    jobType.None? || jobType.value in JobTypes
  }

  /** The refinement: only when both salaries are truthy must the maximum reach the
      minimum. */
  predicate SalaryOrderOk(salaryMin: Option<int>, salaryMax: Option<int>) {
    Entities.Truthy(salaryMin) && Entities.Truthy(salaryMax) ==> salaryMax.value >= salaryMin.value
  }

  /** zod gives up on the object, and so never runs the refinement, when a field holds
      a value of the wrong kind or outside its enumeration, a missing required text
      included; a failed length or minimum check does not stop it. */
  predicate Aborted(v: JobFormValues) {
    v.title.None? || v.description.None? || v.location.None? ||
    v.salaryMin.NotANumber? || v.salaryMax.NotANumber? || !TypeOk(v.jobType)
  }

  predicate JobValid(v: JobFormValues) {
    PresentWithMin(v.title, 3) && PresentWithMin(v.description, 10) && PresentWithMin(v.location, 2) &&
    SalaryFieldOk(v.salaryMin) && SalaryFieldOk(v.salaryMax) && TypeOk(v.jobType) &&
    SalaryOrderOk(AsNumber(v.salaryMin), AsNumber(v.salaryMax))
  }

  /** The issues of one salary field: none when it is absent, the minimum's message for
      a negative number, and the wrong-kind message for anything else. */
  function SalaryIssues(v: NumberInput, path: string): (issues: seq<Issue>)
    ensures issues == [] <==> SalaryFieldOk(v)
    ensures v.NotANumber? ==> issues == [Issue(path, ExpectedNumberMessage + v.received)]
    ensures forall i | 0 <= i < |issues| :: issues[i].path == path && issues[i].message != SalaryOrderMessage
  {
    match v
    case Absent => []
    case Number(n) => Check(n >= 0, path, SalaryMessage)
    case NotANumber(received) =>
      assert (ExpectedNumberMessage + received)[0] != SalaryOrderMessage[0];
      [Issue(path, ExpectedNumberMessage + received)]
  }

  /** The issues the schema reports, field checks first and the refinement last; the
      salary-order failure is reported on the path salaryMax, and only when no field
      stopped the object's parse. */
  function JobIssues(v: JobFormValues): (issues: seq<Issue>)
    ensures issues == [] <==> JobValid(v)
    ensures Issue("salaryMax", SalaryOrderMessage) in issues <==>
      !Aborted(v) && !SalaryOrderOk(AsNumber(v.salaryMin), AsNumber(v.salaryMax))
    ensures v.salaryMin.NotANumber? ==> Issue("salaryMin", ExpectedNumberMessage + v.salaryMin.received) in issues
    ensures v.salaryMax.NotANumber? ==> Issue("salaryMax", ExpectedNumberMessage + v.salaryMax.received) in issues
    ensures v.title.None? ==> Issue("title", RequiredMessage) in issues
    ensures v.description.None? ==> Issue("description", RequiredMessage) in issues
    ensures v.location.None? ==> Issue("location", RequiredMessage) in issues
  {
    var fields :=
      MinField(v.title, 3, "title", TitleMessage) +
      MinField(v.description, 10, "description", DescriptionMessage) +
      MinField(v.location, 2, "location", LocationMessage) +
      SalaryIssues(v.salaryMin, "salaryMin") +
      SalaryIssues(v.salaryMax, "salaryMax") +
      Check(TypeOk(v.jobType), "type", DefaultMessage);
    assert Issue("salaryMax", SalaryOrderMessage) !in fields;
    fields + (if Aborted(v) then [] else Check(SalaryOrderOk(AsNumber(v.salaryMin), AsNumber(v.salaryMax)), "salaryMax", SalaryOrderMessage))
  }

  /** Parsing: the issues on failure, or the values with remote defaulting to false
      and the type to FULL_TIME. */
  function ParseJob(v: JobFormValues): (r: Result<JobData, seq<Issue>>)
    ensures r.Ok? <==> JobValid(v)
    ensures r.Err? ==> r.error == JobIssues(v) && |r.error| > 0
    ensures r.Ok? ==> r.value.remote == (v.remote == Some(true))
    ensures r.Ok? ==> r.value.jobType in JobTypes && (v.jobType.None? ==> r.value.jobType == DefaultJobType)
    ensures r.Ok? ==> !v.salaryMin.NotANumber? && !v.salaryMax.NotANumber?
    ensures r.Ok? ==> Some(r.value.title) == v.title && Some(r.value.description) == v.description &&
                      r.value.requirements == v.requirements && Some(r.value.location) == v.location &&
                      r.value.salaryMin == AsNumber(v.salaryMin) && r.value.salaryMax == AsNumber(v.salaryMax)
  {
    if !JobValid(v) then Err(JobIssues(v))
    else Ok(JobData(v.title.value, v.description.value, v.requirements, v.location.value, v.remote.GetOr(false),
                    AsNumber(v.salaryMin), AsNumber(v.salaryMax), v.jobType.GetOr(DefaultJobType)))
  }

  /** A type outside the enumeration stops the parse before the refinement: with
      salaries out of order only the type is reported, not the order. */
  lemma {:induction false} InvalidTypeSkipsOrderCheck(title: string, description: string, location: string, lo: int, hi: int)
    requires |title| >= 3 && |description| >= 10 && |location| >= 2 && 0 < hi < lo
    ensures var v := JobFormValues(Some(title), Some(description), None, Some(location), None, Number(lo), Number(hi), Some("XYZ"));
      JobIssues(v) == [Issue("type", DefaultMessage)]
  {
    var v := JobFormValues(Some(title), Some(description), None, Some(location), None, Number(lo), Number(hi), Some("XYZ"));
    assert "XYZ" !in JobTypes;
    assert Aborted(v);
  }

  /** A title never typed in arrives undefined: zod reports 'Required' on it, not the
      length message, and gives up before the refinement, so salaries out of order
      are not reported. */
  lemma {:induction false} MissingTitleSkipsOrderCheck(description: string, location: string, lo: int, hi: int)
    requires |description| >= 10 && |location| >= 2 && 0 < hi < lo
    ensures var v := JobFormValues(None, Some(description), None, Some(location), None, Number(lo), Number(hi), None);
      JobIssues(v) == [Issue("title", RequiredMessage)]
  {
    var v := JobFormValues(None, Some(description), None, Some(location), None, Number(lo), Number(hi), None);
    assert Aborted(v);
  }

  /** A zero minimum salary is falsy and skips the order check: any non-negative
      maximum then passes. */
  lemma ZeroMinimumSkipsOrderCheck(salaryMax: NumberInput)
    requires SalaryFieldOk(salaryMax)
    ensures SalaryOrderOk(Some(0), AsNumber(salaryMax))
  {
  }

  /** Equal salaries pass, and a maximum below a non-zero minimum fails. */
  lemma SalaryOrderBoundary(lo: int, hi: int)
    requires 0 < hi < lo
    ensures SalaryOrderOk(Some(lo), Some(lo))
    ensures !SalaryOrderOk(Some(lo), Some(hi))
  {
  }

  datatype CompanyFormValues = CompanyFormValues(
    name: string, description: Option<string>, website: Option<string>,
    address: Option<string>, phone: Option<string>)

  /** The website is optional, may be the empty string, and otherwise must be a URL. */
  predicate WebsiteOk(website: Option<string>, isUrl: string -> bool) {
    website.None? || website.value == "" || isUrl(website.value)
  }

  predicate CompanyValid(v: CompanyFormValues, isUrl: string -> bool) {
    |v.name| >= 2 && WebsiteOk(v.website, isUrl)
  }

  function CompanyIssues(v: CompanyFormValues, isUrl: string -> bool): (issues: seq<Issue>)
    ensures issues == [] <==> CompanyValid(v, isUrl)
    ensures forall i | 0 <= i < |issues| :: issues[i].path in {"name", "website"}
  {
    Check(|v.name| >= 2, "name", CompanyNameMessage) +
    Check(WebsiteOk(v.website, isUrl), "website", WebsiteMessage)
  }

  /** An empty website passes whatever the URL recogniser says about it. */
  lemma EmptyWebsiteAccepted(name: string, isUrl: string -> bool)
    requires |name| >= 2
    ensures CompanyValid(CompanyFormValues(name, None, Some(""), None, None), isUrl)
  {
  }
}
