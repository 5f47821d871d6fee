/** The employer's job table in the root app: the status badge, the row actions and
    the delete-confirmation dialog. */
module JobsList {
  import opened Wrappers
  import opened Text
  import opened Entities
  import Status

  datatype Badge = Badge(severity: Status.Severity, caption: string)

  const DraftBadge := Badge(Status.Secondary, "Rascunho")

  /** `getStatusBadge`: the four job statuses, and the DRAFT badge for anything else. */
  function StatusBadge(status: string): (b: Badge)
    ensures status !in Status.JobStatuses ==> b == DraftBadge
  {
    if status == "APPROVED" then Badge(Status.Success, "Aprovada")
    else if status == "PENDING" then Badge(Status.Warning, "Pendente")
    else if status == "REJECTED" then Badge(Status.Danger, "Rejeitada")
    else DraftBadge
  }

  /** On the four known statuses the badge matches the shared status table; on any
      other status the table shows the status itself while the badge says 'Rascunho'. */
  lemma BadgeAgreesWithStatusTable(status: string)
    ensures status in Status.JobStatuses ==>
      StatusBadge(status) == Badge(Status.JobStatus(status).severity, Status.JobStatus(status).caption)
    ensures status !in Status.JobStatuses && status != "Rascunho" ==>
      StatusBadge(status).caption != Status.JobStatus(status).caption
  {
  }

  datatype Action = View | Edit | SubmitForApproval | Delete

  /** The row buttons, in order; submitting for approval only for a draft. */
  function RowActions(status: string): (actions: seq<Action>)
    ensures SubmitForApproval in actions <==> status == "DRAFT"
    ensures |actions| >= 3 && actions[0] == View && actions[|actions| - 1] == Delete
  {
    [View, Edit] + (if status == "DRAFT" then [SubmitForApproval] else []) + [Delete]
  }

  /** The send-for-approval button goes with the shared table's 'Rascunho' entry: a
      row that offers it shows the draft badge, a known status shows the draft badge
      exactly when the row offers it, and a status unknown to the table shows the draft
      badge without offering it. */
  lemma RowActionsAgreeWithStatusTable(status: string)
    ensures SubmitForApproval in RowActions(status) ==>
      StatusBadge(status) == DraftBadge && Status.JobStatus(status).caption == DraftBadge.caption
    ensures status in Status.JobStatuses ==>
      (SubmitForApproval in RowActions(status) <==> StatusBadge(status) == DraftBadge)
    ensures status !in Status.JobStatuses ==>
      StatusBadge(status) == DraftBadge && SubmitForApproval !in RowActions(status)
  {
  }

  /** `applicationsCount || 0` on a row typed `any`: a missing count (or 0) shows as 0. */
  function CountShown(count: Option<int>): (shown: int)
    ensures count.Some? ==> shown == count.value
    ensures count.None? ==> shown == 0
  {
    if count.Some? && count.value != 0 then count.value else 0
  }

  /** The row's edit page, '/employer/jobs/{id}/edit': the text between the prefix and
      '/edit' parses back to the row's id, so the path fills the edit route's ':id'. */
  function EditPath(id: int): (path: string)
    ensures StartsWith(path, "/employer/jobs/") && |path| > |"/employer/jobs/"| + |"/edit"|
    ensures path[|path| - |"/edit"|..] == "/edit"
    ensures ParseInt(path[|"/employer/jobs/"|..|path| - |"/edit"|]) == Some(id)
  {
    var digits := IntToString(id);
    var path := "/employer/jobs/" + digits + "/edit";
    assert path[|"/employer/jobs/"|..|path| - |"/edit"|] == digits;
    assert path[|path| - |"/edit"|..] == "/edit";
    IntRoundTrip(id);
    path
  }

  /** The confirmation dialog's state. */
  class DeleteDialog {
    var confirmVisible: bool
    var selectedJob: Option<Job>

    /** The dialog is only open with a job selected. */
    predicate Valid()
      reads this
    {
      confirmVisible ==> selectedJob.Some?
    }

    constructor ()
      ensures !confirmVisible && selectedJob == None
      ensures Valid()
    {
      confirmVisible := false;
      selectedJob := None;
    }

    method HandleDelete(job: Job)
      modifies this
      ensures selectedJob == Some(job) && confirmVisible
      ensures Valid()
    {
      selectedJob := Some(job);
      confirmVisible := true;
    }

    /** The accept button. Reading the id of a missing selection throws before any
        state changes; otherwise the dialog closes and the selection is cleared. */
    method ConfirmDelete() returns (threw: bool)
      modifies this
      ensures threw <==> old(selectedJob).None?
      ensures threw ==> confirmVisible == old(confirmVisible) && selectedJob == old(selectedJob)
      ensures !threw ==> !confirmVisible && selectedJob == None
      ensures old(Valid()) ==> Valid()
    {
      if selectedJob.None? {
        threw := true;
        return;
      }
      threw := false;
      confirmVisible := false;
      selectedJob := None;
    }

    /** The reject button and closing the dialog: hidden, selection kept. */
    method Reject()
      modifies this
      ensures !confirmVisible && selectedJob == old(selectedJob)
    {
      confirmVisible := false;
    }
  }

  /** Accepting is only possible while the dialog is open, and then it never throws. */
  method AcceptWhileOpen(d: DeleteDialog) returns (threw: bool)
    requires d.Valid() && d.confirmVisible
    modifies d
    ensures !threw && !d.confirmVisible && d.selectedJob == None
  {
    threw := d.ConfirmDelete();
  }
}
