/** The portal's job service: the request each call makes, relative to the portal
    client's base URL. */
module PortalJobsService {
  import opened Wrappers
  import opened Text
  import opened Entities
  import opened SearchParams
  import opened JobsApi

  /** The request a call makes; None for the one call this copy of the service lacks. */
  function RequestFor(c: Call): (r: Option<Request>)
    ensures r.None? <==> c.GetCompany?
    ensures r.Some? ==> (r.value.body == Data <==> c.ApplyToJob? || c.CreateJob? || c.UpdateJob?)
    ensures r.Some? ==> (r.value.verb == Get <==> !(c.ApplyToJob? || c.CreateJob? || c.UpdateJob? || c.DeleteJob? ||
                                                     c.SubmitJob? || c.UpdateApplicationStatus? || c.ApproveJob? || c.RejectJob?))
  {
    match c
    case GetPublicJobs(f) => Some(Request(Get, "/jobs/public?" + QueryString(ParamPairs(f)), NoBody))
    case GetPublicJob(id) => Some(Request(Get, "/jobs/public/" + id, NoBody))
    case ApplyToJob(jobId) => Some(Request(Post, "/candidates/applications?jobId=" + IntToString(jobId), Data))
    case GetCandidateApplications(page, size) => Some(Request(Get, "/candidates/applications" + PageQuery(page, size), NoBody))
    case GetEmployerJobs(page, size) => Some(Request(Get, "/jobs" + PageQuery(page, size), NoBody))
    case CreateJob => Some(Request(Post, "/jobs", Data))
    case UpdateJob(id) => Some(Request(Put, "/jobs/" + IntToString(id), Data))
    case DeleteJob(id) => Some(Request(Delete, "/jobs/" + IntToString(id), NoBody))
    case SubmitJob(id) => Some(Request(Post, "/jobs/" + IntToString(id) + "/submit", NoBody))
    case GetJobApplications(jobId, page, size) =>
      Some(Request(Get, "/jobs/" + IntToString(jobId) + "/applications" + PageQuery(page, size), NoBody))
    case GetEmployerApplications(page, size) => Some(Request(Get, "/jobs/applications" + PageQuery(page, size), NoBody))
    case UpdateApplicationStatus(applicationId, status) =>
      Some(Request(Put, "/jobs/applications/" + IntToString(applicationId) + "/status", Status(status)))
    case GetPendingJobs(page, size) => Some(Request(Get, "/admin/jobs/pending" + PageQuery(page, size), NoBody))
    case ApproveJob(id) => Some(Request(Post, "/admin/jobs/" + IntToString(id) + "/approve", NoBody))
    case RejectJob(id, reason) => Some(Request(Post, "/admin/jobs/" + IntToString(id) + "/reject", Reason(reason)))
    case GetCompany(_) => None
    case GetDashboardStats => Some(Request(Get, "/dashboard/stats", NoBody))
    case GetJobStats(jobId) => Some(Request(Get, "/jobs/" + IntToString(jobId) + "/stats", NoBody))
  }

  /** `getPublicJobs`: the parameters appended one by one, then the URL. */
  method GetPublicJobs(f: JobFilters) returns (r: Request)
    ensures Some(r) == RequestFor(Call.GetPublicJobs(f))
  {
    var params := BuildParams(f);
    r := Request(Get, "/jobs/public?" + QueryString(params.pairs), NoBody);
  }

  /** Without arguments a paged call asks for page 0 of size 10. */
  lemma DefaultPageQuery()
    ensures PageQuery(None, None) == "?page=0&size=10"
  {
    assert NatToString(10) == NatToString(1) + [DigitChar(0)];
    assert IntToString(0) == "0" && IntToString(10) == "10";
  }

  /** The candidate's applications are fetched from page 0 of size 10 when the hook
      passes no arguments. */
  lemma CandidateApplicationsDefaults()
    ensures RequestFor(GetCandidateApplications(None, None)).value.url == "/candidates/applications?page=0&size=10"
  {
    DefaultPageQuery();
  }

  /** A rejection always carries a `reason` body, with the reason absent when none was
      given, and different jobs are rejected at different URLs. */
  lemma RejectRequests(id: int, other: int, reason: Option<string>)
    ensures RequestFor(RejectJob(id, reason)).value.body == Reason(reason)
    ensures RequestFor(RejectJob(id, reason)).value.url == RequestFor(RejectJob(other, reason)).value.url ==> id == other
  {
    var u := RequestFor(RejectJob(id, reason)).value.url;
    var v := RequestFor(RejectJob(other, reason)).value.url;
    if u == v {
      var a := IntToString(id);
      var b := IntToString(other);
      assert u == "/admin/jobs/" + a + "/reject" && v == "/admin/jobs/" + b + "/reject";
      assert u[12..|u| - 7] == a && v[12..|v| - 7] == b;
      IntRoundTrip(id);
      IntRoundTrip(other);
    }
  }
}
