/** The records the client receives from the backend and keeps in its stores.
    Field types follow the TypeScript interfaces; enumerated TypeScript string types
    (job type, job status, application status, role) are plain strings here, because
    nothing checks them at run time and the client code has fallbacks for other values. */
module Entities {
  import opened Wrappers

  /** JavaScript truthiness of an optional number, as the salary checks use it: present
      and not 0. */
  predicate Truthy(n: Option<int>) { n.Some? && n.value != 0 }

  /** The signed-in user as the auth store and storage hold it. */
  datatype User = User(id: int, email: string, role: string)

  datatype Company = Company(
    id: int, createdAt: string, updatedAt: string,
    name: string, description: Option<string>, website: Option<string>,
    address: Option<string>, phone: Option<string>,
    verified: bool, userId: int, user: User)

  datatype Job = Job(
    id: int, createdAt: string, updatedAt: string,
    title: string, description: string, requirements: Option<string>,
    location: string, remote: bool,
    salaryMin: Option<int>, salaryMax: Option<int>,
    jobType: string, status: string,
    companyId: int, company: Company, applicationsCount: int)

  datatype Candidate = Candidate(
    id: int, createdAt: string, updatedAt: string,
    userId: int, user: User, fullName: Option<string>, phone: Option<string>,
    skills: Option<string>, experience: Option<string>, cvUrl: Option<string>,
    profileCompleteness: int)

  datatype Application = Application(
    id: int, createdAt: string, updatedAt: string,
    candidateId: int, candidate: Candidate, jobId: int, job: Job,
    status: string, coverLetter: Option<string>, resumeUrl: Option<string>,
    appliedAt: string)

  /** What login, registration and a token refresh return. */
  datatype AuthResponse = AuthResponse(accessToken: string, refreshToken: string, user: User)

  datatype CandidateStats = CandidateStats(
    totalApplications: int, pendingApplications: int, approvedApplications: int,
    profileCompleteness: int)

  datatype EmployerStats = EmployerStats(
    totalJobs: int, activeJobs: int, totalApplications: int, pendingApplications: int)

  datatype AdminStats = AdminStats(
    pendingJobs: int, unverifiedCompanies: int, totalUsers: int, todayApprovals: int)

  datatype DashboardStats = DashboardStats(
    candidate: CandidateStats, employer: EmployerStats, admin: AdminStats)

  /** A page of results as the backend returns it. */
  datatype PageResponse<T> = PageResponse(
    content: seq<T>, totalElements: int, totalPages: int, size: int, number: int,
    first: bool, last: bool)

  /** The public job search's filters; None where a key is absent or undefined. */
  datatype JobFilters = JobFilters(
    title: Option<string>, location: Option<string>, remote: Option<bool>,
    page: Option<int>, size: Option<int>)

  const NoFilters := JobFilters(None, None, None, None, None)

  /** A `Partial<Job>` as `Object.assign` sees it: None where the key is absent.
      An optional field's key can be present with the value `undefined`, hence the
      nested Option for those fields. */
  datatype JobPatch = JobPatch(
    id: Option<int>, createdAt: Option<string>, updatedAt: Option<string>,
    title: Option<string>, description: Option<string>, requirements: Option<Option<string>>,
    location: Option<string>, remote: Option<bool>,
    salaryMin: Option<Option<int>>, salaryMax: Option<Option<int>>,
    jobType: Option<string>, status: Option<string>,
    companyId: Option<int>, company: Option<Company>, applicationsCount: Option<int>)

  datatype ApplicationPatch = ApplicationPatch(
    id: Option<int>, createdAt: Option<string>, updatedAt: Option<string>,
    candidateId: Option<int>, candidate: Option<Candidate>, jobId: Option<int>, job: Option<Job>,
    status: Option<string>, coverLetter: Option<Option<string>>, resumeUrl: Option<Option<string>>,
    appliedAt: Option<string>)

  /** `Object.assign(job, patch)`: every key present in the patch overrides. */
  function MergeJob(j: Job, p: JobPatch): Job {
    Job(
      p.id.GetOr(j.id), p.createdAt.GetOr(j.createdAt), p.updatedAt.GetOr(j.updatedAt),
      p.title.GetOr(j.title), p.description.GetOr(j.description),
      p.requirements.GetOr(j.requirements),
      p.location.GetOr(j.location), p.remote.GetOr(j.remote),
      p.salaryMin.GetOr(j.salaryMin), p.salaryMax.GetOr(j.salaryMax),
      p.jobType.GetOr(j.jobType), p.status.GetOr(j.status),
      p.companyId.GetOr(j.companyId), p.company.GetOr(j.company),
      p.applicationsCount.GetOr(j.applicationsCount))
  }

  function MergeApplication(a: Application, p: ApplicationPatch): Application {
    Application(
      p.id.GetOr(a.id), p.createdAt.GetOr(a.createdAt), p.updatedAt.GetOr(a.updatedAt),
      p.candidateId.GetOr(a.candidateId), p.candidate.GetOr(a.candidate),
      p.jobId.GetOr(a.jobId), p.job.GetOr(a.job),
      p.status.GetOr(a.status), p.coverLetter.GetOr(a.coverLetter),
      p.resumeUrl.GetOr(a.resumeUrl), p.appliedAt.GetOr(a.appliedAt))
  }

  /** A whole job used as the update object (every key present). */
  function JobAsPatch(j: Job): (p: JobPatch)
    ensures p.id == Some(j.id) && p.title == Some(j.title)
  {
    JobPatch(
      Some(j.id), Some(j.createdAt), Some(j.updatedAt), Some(j.title), Some(j.description),
      Some(j.requirements), Some(j.location), Some(j.remote), Some(j.salaryMin), Some(j.salaryMax),
      Some(j.jobType), Some(j.status), Some(j.companyId), Some(j.company), Some(j.applicationsCount))
  }

  function ApplicationAsPatch(a: Application): (p: ApplicationPatch)
    ensures p.id == Some(a.id) && p.status == Some(a.status)
  {
    ApplicationPatch(
      Some(a.id), Some(a.createdAt), Some(a.updatedAt), Some(a.candidateId), Some(a.candidate),
      Some(a.jobId), Some(a.job), Some(a.status), Some(a.coverLetter), Some(a.resumeUrl),
      Some(a.appliedAt))
  }

  const EmptyJobPatch := JobPatch(None, None, None, None, None, None, None, None, None, None,
                                  None, None, None, None, None)

  /** Merging an empty patch changes nothing, and merging a whole record replaces
      every field: the store entry becomes exactly the record sent. */
  lemma MergeJobLaws(j: Job, u: Job)
    ensures MergeJob(j, EmptyJobPatch) == j
    ensures MergeJob(j, JobAsPatch(u)) == u
  {
  }

  lemma MergeApplicationReplaces(a: Application, u: Application)
    ensures MergeApplication(a, ApplicationAsPatch(u)) == u
  {
  }
}
