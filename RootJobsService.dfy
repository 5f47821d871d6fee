/** The root app's job service: the portal's templates under an '/api' prefix, with the
    public job URLs under '/api/public/jobs' and a company lookup. */
module RootJobsService {
  import opened Wrappers
  import opened Text
  import opened Entities
  import opened SearchParams
  import opened JobsApi
  import PortalJobsService
  import RootApi

  /** The root app's API base, which the templates spell out in front of each path. */
  const Api := "/api"

  /** The base of the public job URLs, outside the '/api/jobs' family. */
  const PublicJobs := "/api/public/jobs"

  function RequestFor(c: Call): (r: Option<Request>)
    ensures r.None? <==> c.GetJobApplications? || c.GetJobStats?
  {
    match c
    case GetPublicJobs(f) => Some(Request(Get, PublicJobs + ("?" + QueryString(ParamPairs(f))), NoBody))
    case GetPublicJob(id) => Some(Request(Get, PublicJobs + ("/" + id), NoBody))
    case ApplyToJob(jobId) => Some(Request(Post, Api + "/candidates/applications?jobId=" + IntToString(jobId), Data))
    case GetCandidateApplications(page, size) => Some(Request(Get, Api + "/candidates/applications" + PageQuery(page, size), NoBody))
    case GetEmployerJobs(page, size) => Some(Request(Get, Api + "/jobs" + PageQuery(page, size), NoBody))
    case CreateJob => Some(Request(Post, Api + "/jobs", Data))
    case UpdateJob(id) => Some(Request(Put, Api + "/jobs/" + IntToString(id), Data))
    case DeleteJob(id) => Some(Request(Delete, Api + "/jobs/" + IntToString(id), NoBody))
    case SubmitJob(id) => Some(Request(Post, Api + "/jobs/" + IntToString(id) + "/submit", NoBody))
    case GetJobApplications(_, _, _) => None
    case GetEmployerApplications(page, size) => Some(Request(Get, Api + "/jobs/applications" + PageQuery(page, size), NoBody))
    case UpdateApplicationStatus(applicationId, status) =>
      Some(Request(Put, Api + "/jobs/applications/" + IntToString(applicationId) + "/status", Status(status)))
    case GetPendingJobs(page, size) => Some(Request(Get, Api + "/admin/jobs/pending" + PageQuery(page, size), NoBody))
    case ApproveJob(id) => Some(Request(Post, Api + "/admin/jobs/" + IntToString(id) + "/approve", NoBody))
    case RejectJob(id, reason) => Some(Request(Post, Api + "/admin/jobs/" + IntToString(id) + "/reject", Reason(reason)))
    case GetCompany(companyId) => Some(Request(Get, Api + "/companies/" + companyId, NoBody))
    case GetDashboardStats => Some(Request(Get, Api + "/dashboard/stats", NoBody))
    case GetJobStats(_) => None
  }

  /** `getPublicJobs`: the same parameter building as the portal's, under the root
      app's public base. */
  method GetPublicJobs(f: JobFilters) returns (r: Request)
    ensures Some(r) == RequestFor(Call.GetPublicJobs(f))
  {
    var params := BuildParams(f);
    r := Request(Get, PublicJobs + ("?" + QueryString(params.pairs)), NoBody);
  }

  /** The root request agrees with the portal's one on verb and body and has '/api' in
      front of its URL. */
  predicate UnderApi(c: Call)
    requires RequestFor(c).Some? && PortalJobsService.RequestFor(c).Some?
  {
    var r, p := RequestFor(c).value, PortalJobsService.RequestFor(c).value;
    r.verb == p.verb && r.body == p.body && r.url == Api + p.url
  }

  /** Every call both copies have, apart from the two public ones, makes the portal's
      request with '/api' in front of its URL (the calls left out are the public ones
      and those only one copy has). */
  lemma UnderApiPrefix(c: Call)
    requires !(c.GetPublicJobs? || c.GetPublicJob? || c.GetCompany? || c.GetJobApplications? || c.GetJobStats?)
    ensures RequestFor(c).Some? && PortalJobsService.RequestFor(c).Some? && UnderApi(c)
  {
    match c {
      case GetCandidateApplications(page, size) => Prefixed("/candidates/applications", PageQuery(page, size), "");
      case GetEmployerJobs(page, size) => Prefixed("/jobs", PageQuery(page, size), "");
      case GetEmployerApplications(page, size) => Prefixed("/jobs/applications", PageQuery(page, size), "");
      case GetPendingJobs(page, size) => Prefixed("/admin/jobs/pending", PageQuery(page, size), "");
      case UpdateApplicationStatus(applicationId, _) => Prefixed("/jobs/applications/", IntToString(applicationId), "/status");
      case RejectJob(id, _) => Prefixed("/admin/jobs/", IntToString(id), "/reject");
      case ApplyToJob(jobId) => Prefixed("/candidates/applications?jobId=", IntToString(jobId), "");
      case UpdateJob(id) => Prefixed("/jobs/", IntToString(id), "");
      case DeleteJob(id) => Prefixed("/jobs/", IntToString(id), "");
      case SubmitJob(id) => Prefixed("/jobs/", IntToString(id), "/submit");
      case ApproveJob(id) => Prefixed("/admin/jobs/", IntToString(id), "/approve");
      case CreateJob =>
      case GetDashboardStats =>
    }
  }

  lemma Prefixed(path: string, a: string, b: string)
    ensures Api + (path + a + b) == Api + path + a + b
    ensures Api + (path + a) == Api + path + a
  {
  }

  /** The public job URLs do not start with the client's '/api/jobs/public' exemption,
      so the client attaches the access token to them like to any other request. */
  lemma PublicJobsCarryToken(c: Call)
    requires c.GetPublicJobs? || c.GetPublicJob?
    ensures !RootApi.IsPublic(RequestFor(c).value.url)
  {
    match c
    case GetPublicJobs(f) => RootApi.PublicJobsUrlIsNotPublic("?" + QueryString(ParamPairs(f)));
    case GetPublicJob(id) => RootApi.PublicJobsUrlIsNotPublic("/" + id);
  }

  /** The company lookup's URL ends with the id given. */
  lemma CompanyUrl(companyId: string)
    ensures var url := RequestFor(GetCompany(companyId)).value.url;
      StartsWith(url, "/api/companies/") && url[|"/api/companies/"|..] == companyId
  {
  }
}
