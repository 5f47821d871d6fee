/** The root app's public job page: salary and job-type texts, the apply button and
    the order in which loading, error and not-found states take precedence. */
module JobDetails {
  import opened Wrappers
  import opened Entities
  import opened Navigation

  /** `formatSalary`: a range when both ends are truthy, a lower bound when only the
      minimum is, and 'Salário a combinar' otherwise, including when only the maximum
      is known and when there is no job. `fmt` stands for the locale's formatting. */
  function FormatSalary(job: Option<Job>, fmt: int -> string): (text: string)
    ensures job.None? ==> text == "Salário a combinar"
    ensures job.Some? && Truthy(job.value.salaryMin) && Truthy(job.value.salaryMax) ==>
      text == "R$ " + fmt(job.value.salaryMin.value) + " - R$ " + fmt(job.value.salaryMax.value)
    ensures job.Some? && Truthy(job.value.salaryMin) && !Truthy(job.value.salaryMax) ==>
      text == "A partir de R$ " + fmt(job.value.salaryMin.value)
    ensures job.Some? && !Truthy(job.value.salaryMin) ==> text == "Salário a combinar"
  {
    if job.None? then "Salário a combinar"
    else if Truthy(job.value.salaryMin) && Truthy(job.value.salaryMax) then
      "R$ " + fmt(job.value.salaryMin.value) + " - R$ " + fmt(job.value.salaryMax.value)
    else if Truthy(job.value.salaryMin) then "A partir de R$ " + fmt(job.value.salaryMin.value)
    else "Salário a combinar"
  }

  /** The four job-type codes have Portuguese labels; any other code is shown as it
      is, and there is no text without a job. */
  function JobTypeLabel(job: Option<Job>): (text: string)
    ensures job.None? ==> text == ""
    ensures job.Some? && job.value.jobType !in ["FULL_TIME", "PART_TIME", "CONTRACT", "INTERNSHIP"] ==>
      text == job.value.jobType
  {
    if job.None? then ""
    else match job.value.jobType
      case "FULL_TIME" => "Tempo Integral"
      case "PART_TIME" => "Meio Período"
      case "CONTRACT" => "Contrato"
      case "INTERNSHIP" => "Estágio"
      case other => other
  }

  /** `canApply`: signed in as a candidate. */
  predicate CanApply(isAuthenticated: bool, user: Option<User>) {
    isAuthenticated && user.Some? && user.value.role == "CANDIDATE"
  }

  /** What the page offers for applying: the 'Candidatar-se' button in the header for
      a candidate, and otherwise a sidebar card that asks a signed-out visitor to sign
      in or tells another signed-in user that only candidates can apply. */
  datatype ApplyArea = ApplyButton | LoginPrompt | CandidatesOnly

  function ApplyAreaFor(isAuthenticated: bool, user: Option<User>): (a: ApplyArea)
    ensures a == ApplyButton <==> CanApply(isAuthenticated, user)
    ensures a == LoginPrompt <==> !isAuthenticated
  {
    if CanApply(isAuthenticated, user) then ApplyButton
    else if !isAuthenticated then LoginPrompt
    else CandidatesOnly
  }

  /** Which of the page's four states is shown. */
  datatype View = Loading | Failed | NotFound | Details(job: Job, apply: ApplyArea)

  /** Loading takes precedence over an error, an error over a missing job; the details
      carry the apply area for the signed-in state. */
  function Render(isLoading: bool, hasError: bool, job: Option<Job>,
                  isAuthenticated: bool, user: Option<User>): (v: View)
    ensures isLoading ==> v == Loading
    ensures !isLoading && hasError ==> v == Failed
    ensures v.Details? <==> !isLoading && !hasError && job.Some?
    ensures v.Details? ==> v.job == job.value && v.apply == ApplyAreaFor(isAuthenticated, user)
  {
    if isLoading then Loading
    else if hasError then Failed
    else if job.None? then NotFound
    else Details(job.value, ApplyAreaFor(isAuthenticated, user))
  }

  /** Signing in or out never changes which state the page is in, only its apply
      area; and the apply button is shown exactly when a click on it opens the
      application form. */
  lemma RenderAuthIndependent(isLoading: bool, hasError: bool, job: Option<Job>,
                              a1: bool, u1: Option<User>, a2: bool, u2: Option<User>)
    ensures Render(isLoading, hasError, job, a1, u1).Details? == Render(isLoading, hasError, job, a2, u2).Details?
    ensures !Render(isLoading, hasError, job, a1, u1).Details? ==>
      Render(isLoading, hasError, job, a1, u1) == Render(isLoading, hasError, job, a2, u2)
    ensures Render(isLoading, hasError, job, a1, u1).Details? ==>
      (Render(isLoading, hasError, job, a1, u1).apply == ApplyButton <==> CanApply(a1, u1))
  {
  }

  class DetailsPage {
    var applyModalVisible: bool

    constructor ()
      ensures !applyModalVisible
    {
      applyModalVisible := false;
    }

    /** `handleApply`: a signed-out visitor goes to '/login', a signed-in user who is
        not a candidate gets nothing, and a candidate gets the application form. */
    method HandleApply(isAuthenticated: bool, user: Option<User>) returns (nav: Option<Nav>)
      modifies this
      ensures !isAuthenticated ==> nav == Some(Go("/login")) && applyModalVisible == old(applyModalVisible)
      ensures isAuthenticated ==> nav.None?
      ensures applyModalVisible == (old(applyModalVisible) || CanApply(isAuthenticated, user))
    {
      if !isAuthenticated {
        return Some(Go("/login"));
      }
      if !(user.Some? && user.value.role == "CANDIDATE") {
        return None;
      }
      applyModalVisible := true;
      nav := None;
    }
  }
}
