/** The job services' calls and the HTTP requests they make, shared by the portal's and
    the root app's copies of the service. */
module JobsApi {
  import opened Wrappers
  import opened Text
  import opened Entities

  datatype Verb = Get | Post | Put | Delete

  /** The request body: none, the caller's data passed through, `{ reason }` or
      `{ status }`. */
  datatype Body = NoBody | Data | Reason(reason: Option<string>) | Status(status: string)

  datatype Request = Request(verb: Verb, url: string, body: Body)

  /** A call on the service, with its arguments; None for an omitted argument that has
      a default. */
  datatype Call =
    | GetPublicJobs(filters: JobFilters)
    | GetPublicJob(publicId: string)
    | ApplyToJob(jobId: int)
    | GetCandidateApplications(page: Option<int>, size: Option<int>)
    | GetEmployerJobs(page: Option<int>, size: Option<int>)
    | CreateJob
    | UpdateJob(id: int)
    | DeleteJob(id: int)
    | SubmitJob(id: int)
    | GetJobApplications(jobId: int, page: Option<int>, size: Option<int>)
    | GetEmployerApplications(page: Option<int>, size: Option<int>)
    | UpdateApplicationStatus(applicationId: int, status: string)
    | GetPendingJobs(page: Option<int>, size: Option<int>)
    | ApproveJob(id: int)
    | RejectJob(id: int, reason: Option<string>)
    | GetCompany(companyId: string)
    | GetDashboardStats
    | GetJobStats(jobId: int)

  const DefaultPage := 0
  const DefaultSize := 10

  /** `?page=${page}&size=${size}` with the defaults page 0 and size 10. */
  function PageQuery(page: Option<int>, size: Option<int>): (q: string)
    ensures |q| > 0 && q[0] == '?'
  {
    "?page=" + IntToString(page.GetOr(DefaultPage)) + "&size=" + IntToString(size.GetOr(DefaultSize))
  }

  /** The page and size a server reads back from the query are the ones given, or the
      defaults when omitted. */
  lemma PageQueryRoundTrip(page: Option<int>, size: Option<int>)
    ensures var q := PageQuery(page, size);
      Split(q[1..], '&') == ["page=" + IntToString(page.GetOr(DefaultPage)), "size=" + IntToString(size.GetOr(DefaultSize))]
    ensures ParseInt(IntToString(page.GetOr(DefaultPage))) == Some(page.GetOr(DefaultPage))
    ensures ParseInt(IntToString(size.GetOr(DefaultSize))) == Some(size.GetOr(DefaultSize))
  {
    var p := "page=" + IntToString(page.GetOr(DefaultPage));
    var s := "size=" + IntToString(size.GetOr(DefaultSize));
    QueryPieces(page, size);
    NoAmpersandAfter("page=", page.GetOr(DefaultPage));
    NoAmpersandAfter("size=", size.GetOr(DefaultSize));
    SplitTwo(p, s, '&');
    IntRoundTrip(page.GetOr(DefaultPage));
    IntRoundTrip(size.GetOr(DefaultSize));
  }

  lemma QueryPieces(page: Option<int>, size: Option<int>)
    ensures PageQuery(page, size)[1..] ==
      ("page=" + IntToString(page.GetOr(DefaultPage))) + ['&'] + ("size=" + IntToString(size.GetOr(DefaultSize)))
  {
    var a, b := IntToString(page.GetOr(DefaultPage)), IntToString(size.GetOr(DefaultSize));
    assert "?page=" == ['?'] + "page=" && "&size=" == ['&'] + "size=";
    assert PageQuery(page, size) == ['?'] + (("page=" + a) + ['&'] + ("size=" + b));
  }

  lemma SplitTwo(a: string, b: string, sep: char)
    requires sep !in a && sep !in b
    ensures Split(a + [sep] + b, sep) == [a, b]
  {
    SplitAtFirst(a, b, sep);
    SplitNoSeparator(b, sep);
  }

  lemma NoAmpersandAfter(name: string, i: int)
    requires '&' !in name
    ensures '&' !in name + IntToString(i)
  {
    NoAmpersand(i);
  }

  /** A number's decimal text holds digits and at most a leading minus sign. */
  lemma NoAmpersand(i: int)
    ensures '&' !in IntToString(i)
  {
    var s := IntToString(i);
    var digits := if i < 0 then NatToString(-i) else NatToString(i);
    assert s == (if i < 0 then "-" else "") + digits;
    assert forall k | 0 <= k < |digits| :: IsDigit(digits[k]);
  }
}
