/** The administrator's moderation table in the root app: the salary column, the
    pending-count badge and the state of the details and rejection dialogs. */
module JobModeration {
  import opened Wrappers
  import opened Text
  import opened Entities
  import Status
  import JobDetails

  /** The salary column: a range when both ends are truthy, 'A combinar' otherwise.
      `fmt` stands for the locale's number formatting. */
  function SalaryColumn(salaryMin: Option<int>, salaryMax: Option<int>, fmt: int -> string): (text: string)
    ensures Truthy(salaryMin) && Truthy(salaryMax) ==>
      text == "R$ " + fmt(salaryMin.value) + " - R$ " + fmt(salaryMax.value)
    ensures !(Truthy(salaryMin) && Truthy(salaryMax)) ==> text == "A combinar"
  {
    if Truthy(salaryMin) && Truthy(salaryMax) then
      "R$ " + fmt(salaryMin.value) + " - R$ " + fmt(salaryMax.value)
    else "A combinar"
  }

  /** The column and the public job page show the same range when both ends are
      truthy; when only the minimum is, the column says 'A combinar' where the page
      says 'A partir de'; and with no truthy minimum both say the salary is to be
      agreed, in different words. */
  lemma SalaryColumnAgreesWithDetailsPage(job: Job, fmt: int -> string)
    ensures Truthy(job.salaryMin) && Truthy(job.salaryMax) ==>
      SalaryColumn(job.salaryMin, job.salaryMax, fmt) == JobDetails.FormatSalary(Some(job), fmt)
    ensures Truthy(job.salaryMin) && !Truthy(job.salaryMax) ==>
      SalaryColumn(job.salaryMin, job.salaryMax, fmt) == "A combinar" &&
      JobDetails.FormatSalary(Some(job), fmt) == "A partir de R$ " + fmt(job.salaryMin.value)
    ensures !Truthy(job.salaryMin) ==>
      SalaryColumn(job.salaryMin, job.salaryMax, fmt) == "A combinar" &&
      JobDetails.FormatSalary(Some(job), fmt) == "Salário a combinar"
  {
  }

  datatype PendingBadge = PendingBadge(text: string, severity: Status.Severity)

  /** The header badge: the pending count (0 when unknown), in warning colours exactly
      when the count is non-zero. */
  function Badge(totalElements: Option<int>): (b: PendingBadge)
    ensures b.severity == Status.Warning <==> Truthy(totalElements)
    ensures b.severity != Status.Warning ==> b.severity == Status.Success
    ensures b.text == IntToString(totalElements.GetOr(0)) + " Pendentes"
  {
    var count := if Truthy(totalElements) then totalElements.value else 0;
    PendingBadge(IntToString(count) + " Pendentes",
                 if Truthy(totalElements) then Status.Warning else Status.Success)
  }

  /** The badge's text reads back as the pending count, and its colour is the one the
      shared status table gives to pending jobs when some are pending, and to approved
      jobs when none are. */
  lemma BadgeAgreesWithStatusTable(totalElements: Option<int>)
    ensures var b := Badge(totalElements);
      var count := |IntToString(totalElements.GetOr(0))|;
      count <= |b.text| && ParseInt(b.text[..count]) == Some(totalElements.GetOr(0)) &&
      b.text[count..] == " Pendentes"
    ensures Badge(totalElements).severity ==
      if Truthy(totalElements) then Status.JobStatus("PENDING").severity
      else Status.JobStatus("APPROVED").severity
  {
    var n := totalElements.GetOr(0);
    var b := Badge(totalElements);
    assert b.text[..|IntToString(n)|] == IntToString(n);
    IntRoundTrip(n);
  }

  /** The confirm button is disabled while the reason trims to nothing. */
  function ConfirmDisabled(reason: string): (disabled: bool)
    ensures disabled <==> AllWhitespace(reason)
  {
    TrimEmptyIff(reason);
    Trim(reason) == []
  }

  /** A rejection request as sent: the job id and the reason. */
  datatype RejectRequest = RejectRequest(id: int, reason: string)

  class Moderation {
    var selectedJob: Option<Job>
    var detailsVisible: bool
    var rejectVisible: bool
    var rejectReason: string

    constructor ()
      ensures selectedJob == None && !detailsVisible && !rejectVisible && rejectReason == ""
    {
      selectedJob := None;
      detailsVisible := false;
      rejectVisible := false;
      rejectReason := "";
    }

    method HandleViewDetails(job: Job)
      modifies this
      ensures selectedJob == Some(job) && detailsVisible
      ensures rejectVisible == old(rejectVisible) && rejectReason == old(rejectReason)
    {
      selectedJob := Some(job);
      detailsVisible := true;
    }

    method OpenRejectDialog(job: Job)
      modifies this
      ensures selectedJob == Some(job) && rejectVisible
      ensures detailsVisible == old(detailsVisible) && rejectReason == old(rejectReason)
    {
      selectedJob := Some(job);
      rejectVisible := true;
    }

    method EditReason(text: string)
      modifies this
      ensures rejectReason == text
      ensures selectedJob == old(selectedJob) && detailsVisible == old(detailsVisible)
      ensures rejectVisible == old(rejectVisible)
    {
      rejectReason := text;
    }

    /** `handleReject`: nothing without a selection; otherwise the request carries the
        reason exactly as typed, and only a successful request closes the dialog and
        clears the reason and the selection. */
    method HandleReject(succeeds: bool) returns (sent: Option<RejectRequest>)
      modifies this
      ensures old(selectedJob).None? ==> sent.None?
      ensures old(selectedJob).Some? ==> sent == Some(RejectRequest(old(selectedJob).value.id, old(rejectReason)))
      ensures sent.Some? && succeeds ==> !rejectVisible && rejectReason == "" && selectedJob.None?
      ensures sent.None? || !succeeds ==>
        rejectVisible == old(rejectVisible) && rejectReason == old(rejectReason) &&
        selectedJob == old(selectedJob)
      ensures detailsVisible == old(detailsVisible)
    {
      if selectedJob.None? {
        return None;
      }
      sent := Some(RejectRequest(selectedJob.value.id, rejectReason));
      if succeeds {
        rejectVisible := false;
        rejectReason := "";
        selectedJob := None;
      }
    }

    /** The confirm button: a click while disabled does nothing, so every reason that
        is sent has a character other than whitespace. */
    method ClickConfirm(succeeds: bool) returns (sent: Option<RejectRequest>)
      modifies this
      ensures sent.Some? ==> !AllWhitespace(sent.value.reason) && sent.value.reason == old(rejectReason)
      ensures ConfirmDisabled(old(rejectReason)) ==>
        sent.None? && selectedJob == old(selectedJob) && rejectVisible == old(rejectVisible) &&
        rejectReason == old(rejectReason) && detailsVisible == old(detailsVisible)
      ensures !ConfirmDisabled(old(rejectReason)) ==>
        sent == (if old(selectedJob).Some? then Some(RejectRequest(old(selectedJob).value.id, old(rejectReason))) else None)
      ensures !ConfirmDisabled(old(rejectReason)) && sent.Some? && succeeds ==>
        !rejectVisible && rejectReason == "" && selectedJob.None?
      ensures !ConfirmDisabled(old(rejectReason)) && (sent.None? || !succeeds) ==>
        rejectVisible == old(rejectVisible) && rejectReason == old(rejectReason) &&
        selectedJob == old(selectedJob)
      ensures detailsVisible == old(detailsVisible)
    {
      if ConfirmDisabled(rejectReason) {
        return None;
      }
      sent := HandleReject(succeeds);
    }

    /** 'Cancelar': hides the dialog and clears the reason. */
    method Cancel()
      modifies this
      ensures !rejectVisible && rejectReason == ""
      ensures selectedJob == old(selectedJob) && detailsVisible == old(detailsVisible)
    {
      rejectVisible := false;
      rejectReason := "";
    }

    /** Closing the rejection dialog otherwise hides it and keeps the reason. */
    method HideReject()
      modifies this
      ensures !rejectVisible && rejectReason == old(rejectReason)
      ensures selectedJob == old(selectedJob) && detailsVisible == old(detailsVisible)
    {
      rejectVisible := false;
    }

    /** The details dialog's 'Aprovar': approves the selected job (reading the id of a
        missing selection fails inside the handler and is swallowed) and closes the
        dialog. */
    method DetailsApprove() returns (approvedId: Option<int>)
      modifies this
      ensures approvedId == (if old(selectedJob).Some? then Some(old(selectedJob).value.id) else None)
      ensures !detailsVisible
      ensures selectedJob == old(selectedJob) && rejectVisible == old(rejectVisible)
      ensures rejectReason == old(rejectReason)
    {
      approvedId := if selectedJob.Some? then Some(selectedJob.value.id) else None;
      detailsVisible := false;
    }

    /** The details dialog's 'Rejeitar': closes it and opens the rejection dialog on the
        same job. */
    method DetailsReject()
      modifies this
      ensures !detailsVisible && rejectVisible
      ensures selectedJob == old(selectedJob) && rejectReason == old(rejectReason)
    {
      detailsVisible := false;
      rejectVisible := true;
    }

    method CloseDetails()
      modifies this
      ensures !detailsVisible
      ensures selectedJob == old(selectedJob) && rejectVisible == old(rejectVisible)
      ensures rejectReason == old(rejectReason)
    {
      detailsVisible := false;
    }
  }
}
