/** The portal's job form page: whether it edits or creates, the values it starts
    with, and what its submit handler makes of the submitted salaries before it
    announces success and leaves for the employer's job list. */
module JobForm {
  import opened Wrappers
  import opened Text
  import opened Validation
  import JobSchemas
  import Entities

  /** The route's `id` parameter makes the form an edit form when it is a non-empty
      string. */
  function IsEdit(id: Option<string>): (b: bool)
    ensures b <==> id.Some? && |id.value| > 0
  {
    match id
    case None => false
    case Some(s) => s != ""
  }

  /** A salary as the handler may receive it: absent, the text of a number input, or
      a number. */
  datatype FormNumber = NoValue | Text(text: string) | Num(n: int)

  /** The result of the salary conversion: undefined, a number, or NaN. */
  datatype NumberValue = Undefined | Value(n: int) | NaN

  predicate Truthy(v: FormNumber) {
    match v
    case NoValue => false
    case Text(s) => s != ""
    case Num(n) => n != 0
  }

  /** `Number(v)` on a truthy value: integer text reads as its value, any other text
      as NaN. */
  function ToNumber(v: FormNumber): NumberValue {
    match v
    case NoValue => NaN
    case Text(s) => (match ParseInt(s) case Some(i) => Value(i) case None => NaN)
    case Num(n) => Value(n)
  }

  /** `v ? Number(v) : undefined`. */
  function ConvertSalary(v: FormNumber): (r: NumberValue)
    ensures r == Undefined <==> !Truthy(v)
    ensures v.Num? && v.n != 0 ==> r == Value(v.n)
    ensures v.Text? && v.text != "" ==> (r.Value? <==> ParseInt(v.text).Some?)
    ensures r.Value? && v.Text? ==> ParseInt(v.text) == Some(r.n)
  {
    if Truthy(v) then ToNumber(v) else Undefined
  }

  /** The values the handler works on once the schema has parsed them. */
  datatype Submission = Submission(
    title: string, description: string, requirements: Option<string>, location: string,
    remote: bool, jobType: string, salaryMin: FormNumber, salaryMax: FormNumber)

  /** What the handler builds: the submission with both salaries converted. */
  datatype Processed = Processed(
    title: string, description: string, requirements: Option<string>, location: string,
    remote: bool, jobType: string, salaryMin: NumberValue, salaryMax: NumberValue)

  function Process(d: Submission): (p: Processed)
    ensures p.title == d.title && p.description == d.description && p.requirements == d.requirements
    ensures p.location == d.location && p.remote == d.remote && p.jobType == d.jobType
    ensures p.salaryMin == Undefined <==> !Truthy(d.salaryMin)
    ensures p.salaryMax == Undefined <==> !Truthy(d.salaryMax)
  {
    Processed(d.title, d.description, d.requirements, d.location, d.remote, d.jobType,
              ConvertSalary(d.salaryMin), ConvertSalary(d.salaryMax))
  }

  /** A schema-parsed job: the salaries it carries, as numbers. */
  function FromParsed(j: JobSchemas.JobData): (d: Submission)
    ensures d.salaryMin.NoValue? <==> j.salaryMin.None?
    ensures d.salaryMax.NoValue? <==> j.salaryMax.None?
  {
    Submission(j.title, j.description, j.requirements, j.location, j.remote, j.jobType,
               if j.salaryMin.Some? then Num(j.salaryMin.value) else NoValue,
               if j.salaryMax.Some? then Num(j.salaryMax.value) else NoValue)
  }

  /** For a job the schema accepted, a salary survives processing exactly when it is
      truthy, and two surviving salaries keep the order the schema checked. */
  lemma ParsedSalaries(v: JobSchemas.JobFormValues)
    requires JobSchemas.ParseJob(v).Ok?
    ensures var p := Process(FromParsed(JobSchemas.ParseJob(v).value));
      var lo := JobSchemas.AsNumber(v.salaryMin);
      var hi := JobSchemas.AsNumber(v.salaryMax);
      (p.salaryMin.Value? <==> Entities.Truthy(lo)) &&
      (p.salaryMax.Value? <==> Entities.Truthy(hi)) &&
      (p.salaryMin.Value? ==> p.salaryMin.n == lo.value) &&
      (p.salaryMax.Value? ==> p.salaryMax.n == hi.value) &&
      (p.salaryMin.Value? && p.salaryMax.Value? ==> p.salaryMin.n <= p.salaryMax.n)
  {
  }

  /** The form's values when it is submitted. Text, text-area and number inputs all
      hand the form the input's text, so both salaries are strings. The starting values
      leave out the title, description and location and the inputs set no default, so
      a text field never typed in is undefined (None). */
  datatype FormState = FormState(
    title: Option<string>, description: Option<string>, requirements: Option<string>, location: Option<string>,
    remote: bool, jobType: string, salaryMin: string, salaryMax: string)

  /** The form's starting values: a full-time, on-site job with both salaries empty. */
  datatype Defaults = Defaults(jobType: string, remote: bool, salaryMin: string, salaryMax: string)

  const InitialValues := Defaults("FULL_TIME", false, "", "")

  /** The form as it starts: nothing typed, the other values the starting ones. */
  const Untouched := FormState(None, None, None, None, InitialValues.remote, InitialValues.jobType,
                               InitialValues.salaryMin, InitialValues.salaryMax)

  /** A form whose text fields were typed in and whose other values are as they
      started. */
  function Filled(title: string, description: string, requirements: Option<string>, location: string): FormState {
    FormState(Some(title), Some(description), requirements, Some(location), InitialValues.remote, InitialValues.jobType,
              InitialValues.salaryMin, InitialValues.salaryMax)
  }

  /** What the resolver hands the schema as written: the form's own values, each
      salary a string. */
  function RawValues(s: FormState): JobSchemas.JobFormValues {
    JobSchemas.JobFormValues(s.title, s.description, s.requirements, s.location, Some(s.remote),
                             JobSchemas.NotANumber("string"), JobSchemas.NotANumber("string"), Some(s.jobType))
  }

  /** The resolver as written: the job schema run on the form's values. */
  function ResolveAsWritten(s: FormState): Result<JobSchemas.JobData, seq<Issue>> {
    JobSchemas.ParseJob(RawValues(s))
  }

  /** As written the form is never submitted: whatever was typed, both salaries reach
      `z.number()` as strings and are refused, so the submit handler never runs. */
  lemma FormNeverSubmits(s: FormState)
    ensures ResolveAsWritten(s).Err?
    ensures Issue("salaryMin", JobSchemas.ExpectedNumberMessage + "string") in ResolveAsWritten(s).error
    ensures Issue("salaryMax", JobSchemas.ExpectedNumberMessage + "string") in ResolveAsWritten(s).error
  {
    assert !JobSchemas.SalaryFieldOk(RawValues(s).salaryMin);
  }

  /** An input's text as the schema is meant to see it: the handler's own
      `v ? Number(v) : undefined`, applied before validation. Text that is no integer
      becomes NaN, which `z.number()` refuses. */
  function Preprocess(text: string): (v: JobSchemas.NumberInput)
    ensures v.Absent? <==> text == ""
    ensures v.Number? <==> text != "" && ParseInt(text).Some?
    ensures v.Number? ==> ParseInt(text) == Some(v.n)
  {
    match ConvertSalary(Text(text))
    case Undefined => JobSchemas.Absent
    case Value(n) => JobSchemas.Number(n)
    case NaN => JobSchemas.NotANumber("nan")
  }

  function Values(s: FormState): JobSchemas.JobFormValues {
    JobSchemas.JobFormValues(s.title, s.description, s.requirements, s.location, Some(s.remote),
                             Preprocess(s.salaryMin), Preprocess(s.salaryMax), Some(s.jobType))
  }

  /** The salary an input's text stands for: none for empty text, else the integer it
      spells, if any. */
  function TextSalary(text: string): Option<int> {
    if text == "" then None else ParseInt(text)
  }

  /** The resolver with the salaries converted before the job schema runs: text that
      spells no integer is refused, and the accepted values are the form's, with the
      salaries the numbers their text spells. */
  function Resolve(s: FormState): (r: Result<JobSchemas.JobData, seq<Issue>>)
    ensures s.salaryMin != "" && ParseInt(s.salaryMin).None? ==> r.Err?
    ensures s.salaryMax != "" && ParseInt(s.salaryMax).None? ==> r.Err?
    ensures r.Err? ==> r.error != []
    ensures r.Ok? ==> r.value.salaryMin == TextSalary(s.salaryMin) && r.value.salaryMax == TextSalary(s.salaryMax)
    ensures r.Ok? ==> Some(r.value.title) == s.title && Some(r.value.description) == s.description &&
                      r.value.requirements == s.requirements && Some(r.value.location) == s.location &&
                      r.value.remote == s.remote && r.value.jobType == s.jobType
  {
    JobSchemas.ParseJob(Values(s))
  }

  /** The starting type is the schema's default and one of its types, the job starts
      on-site, and the empty starting salaries stand for no salary once converted. */
  lemma InitialValuesLaws()
    ensures InitialValues.jobType == JobSchemas.DefaultJobType && InitialValues.jobType in JobSchemas.JobTypes
    ensures !InitialValues.remote
    ensures Preprocess(InitialValues.salaryMin).Absent? && Preprocess(InitialValues.salaryMax).Absent?
  {
  }

  /** A salary typed as the decimal text of a number converts to that number. */
  lemma SalaryTextRoundTrip(n: int)
    ensures Preprocess(IntToString(n)) == JobSchemas.Number(n)
  {
    IntRoundTrip(n);
  }

  /** A typed zero passes the schema as the number 0, and the handler then drops it as
      falsy. */
  lemma ZeroSalary()
    ensures Preprocess("0") == JobSchemas.Number(0)
    ensures ConvertSalary(Num(0)) == Undefined
  {
    assert ParseInt("0") == Some(0) by { assert IntToString(0) == "0"; IntRoundTrip(0); }
  }

  /** What a successful submit does: the toast's text, then the route it goes to. */
  datatype SubmitEffect = SubmitEffect(message: string, navigateTo: string)

  const UpdatedMessage := "Vaga atualizada com sucesso!"
  const CreatedMessage := "Vaga criada com sucesso!"
  const AfterSubmitPath := "/employer/jobs"

  function OnSubmitted(id: Option<string>): (e: SubmitEffect)
    ensures e.navigateTo == AfterSubmitPath
    ensures e.message == UpdatedMessage <==> IsEdit(id)
    ensures e.message == CreatedMessage <==> !IsEdit(id)
  {
    SubmitEffect(if IsEdit(id) then UpdatedMessage else CreatedMessage, AfterSubmitPath)
  }

  /** A submit: the resolver's issues when it refuses, otherwise what the handler
      builds from the parsed values and the effect it has. */
  datatype Outcome = Refused(issues: seq<Issue>) | Submitted(data: Processed, effect: SubmitEffect)

  /** Submitting the form through the converting resolver: refused exactly when the
      resolver refuses; otherwise the handler gets the typed values, a salary survives
      exactly when its text spells a non-zero integer, and the page announces and
      leaves as `OnSubmitted` says. */
  function Submit(s: FormState, id: Option<string>): (o: Outcome)
    ensures o.Refused? <==> Resolve(s).Err?
    ensures o.Refused? ==> o.issues != []
    ensures o.Submitted? ==> o.effect == OnSubmitted(id)
    ensures o.Submitted? ==> Some(o.data.title) == s.title && Some(o.data.description) == s.description &&
                             o.data.requirements == s.requirements && Some(o.data.location) == s.location &&
                             o.data.remote == s.remote && o.data.jobType == s.jobType
    ensures o.Submitted? ==> (o.data.salaryMin.Value? <==> Entities.Truthy(TextSalary(s.salaryMin)))
    ensures o.Submitted? ==> (o.data.salaryMax.Value? <==> Entities.Truthy(TextSalary(s.salaryMax)))
    ensures o.Submitted? && o.data.salaryMin.Value? ==> TextSalary(s.salaryMin) == Some(o.data.salaryMin.n)
    ensures o.Submitted? && o.data.salaryMax.Value? ==> TextSalary(s.salaryMax) == Some(o.data.salaryMax.n)
  {
    match Resolve(s)
    case Err(issues) => Refused(issues)
    case Ok(job) => Submitted(Process(FromParsed(job)), OnSubmitted(id))
  }

  /** A form left with its starting salaries and with long enough text is submitted
      as a full-time, on-site job without salaries. */
  lemma DefaultsSubmit(title: string, description: string, requirements: Option<string>, location: string, id: Option<string>)
    requires |title| >= 3 && |description| >= 10 && |location| >= 2
    ensures var o := Submit(Filled(title, description, requirements, location), id);
      o.Submitted? && o.data.salaryMin == Undefined && o.data.salaryMax == Undefined &&
      o.data.jobType == JobSchemas.DefaultJobType && !o.data.remote
  {
    var s := Filled(title, description, requirements, location);
    assert JobSchemas.JobValid(Values(s));
  }

  /** Typed salaries in order reach the handler as the numbers typed. */
  lemma TypedSalariesSubmit(s: FormState, lo: int, hi: int, id: Option<string>)
    requires PresentWithMin(s.title, 3) && PresentWithMin(s.description, 10) && PresentWithMin(s.location, 2)
    requires s.jobType in JobSchemas.JobTypes
    requires 0 < lo <= hi && s.salaryMin == IntToString(lo) && s.salaryMax == IntToString(hi)
    ensures var o := Submit(s, id);
      o.Submitted? && o.data.salaryMin == Value(lo) && o.data.salaryMax == Value(hi)
  {
    SalaryTextRoundTrip(lo);
    SalaryTextRoundTrip(hi);
    assert JobSchemas.JobValid(Values(s));
  }

  /** Typed salaries out of order are refused, with the order message on salaryMax
      exactly when the three text fields were all typed in. */
  lemma SalariesOutOfOrderRefused(s: FormState, lo: int, hi: int, id: Option<string>)
    requires s.jobType in JobSchemas.JobTypes
    requires 0 < hi < lo && s.salaryMin == IntToString(lo) && s.salaryMax == IntToString(hi)
    ensures var o := Submit(s, id);
      o.Refused? &&
      (Issue("salaryMax", JobSchemas.SalaryOrderMessage) in o.issues <==>
        s.title.Some? && s.description.Some? && s.location.Some?)
  {
    SalaryTextRoundTrip(lo);
    SalaryTextRoundTrip(hi);
    assert !JobSchemas.SalaryOrderOk(Some(lo), Some(hi));
    assert !JobSchemas.JobValid(Values(s));
  }

  /** A text field never typed in is refused with 'Required' on its path, and a form
      submitted as it starts gets exactly the three 'Required' issues. */
  lemma UntouchedFieldsRequired(s: FormState)
    ensures s.title.None? ==> Resolve(s).Err? && Issue("title", RequiredMessage) in Resolve(s).error
    ensures s.description.None? ==> Resolve(s).Err? && Issue("description", RequiredMessage) in Resolve(s).error
    ensures s.location.None? ==> Resolve(s).Err? && Issue("location", RequiredMessage) in Resolve(s).error
    ensures Resolve(Untouched) == Err([Issue("title", RequiredMessage), Issue("description", RequiredMessage),
                                       Issue("location", RequiredMessage)])
  {
    var v := Values(Untouched);
    assert v.salaryMin == JobSchemas.Absent && v.salaryMax == JobSchemas.Absent;
    assert JobSchemas.TypeOk(v.jobType);
    assert JobSchemas.JobIssues(v) ==
      [Issue("title", RequiredMessage)] + [Issue("description", RequiredMessage)] +
      [Issue("location", RequiredMessage)] + [] + [] + [] + [];
    assert JobSchemas.JobIssues(v) ==
      [Issue("title", RequiredMessage), Issue("description", RequiredMessage), Issue("location", RequiredMessage)];
    assert !JobSchemas.JobValid(v);
  }
}
