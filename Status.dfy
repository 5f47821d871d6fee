/** The shared status tables of the root app: a label, a badge severity and an
    optional icon for each job status and each application status. */
module Status {
  import opened Wrappers

  datatype Severity = Success | Warning | Danger | Info | Secondary

  datatype StatusConfig = StatusConfig(caption: string, severity: Severity, icon: Option<string>)

  const JobStatuses := ["APPROVED", "PENDING", "DRAFT", "REJECTED"]
  const ApplicationStatuses := ["PENDING", "APPROVED", "REJECTED", "INTERVIEW"]

  /** `getJobStatus`: the table entry, or the status itself as label with the
      secondary severity and no icon. */
  function JobStatus(status: string): (c: StatusConfig)
    ensures status !in JobStatuses ==> c == StatusConfig(status, Secondary, None)
    ensures status in JobStatuses ==> c.icon.Some?
  {
    if status == "APPROVED" then StatusConfig("Aprovada", Success, Some("pi pi-check-circle"))
    else if status == "PENDING" then StatusConfig("Pendente", Warning, Some("pi pi-clock"))
    else if status == "DRAFT" then StatusConfig("Rascunho", Secondary, Some("pi pi-pencil"))
    else if status == "REJECTED" then StatusConfig("Rejeitada", Danger, Some("pi pi-times-circle"))
    else StatusConfig(status, Secondary, None)
  }

  /** `getApplicationStatus`, with the same fallback. */
  function ApplicationStatus(status: string): (c: StatusConfig)
    ensures status !in ApplicationStatuses ==> c == StatusConfig(status, Secondary, None)
    ensures status in ApplicationStatuses ==> c.icon.Some? && c.severity != Secondary
  {
    if status == "PENDING" then StatusConfig("Pendente", Warning, Some("pi pi-clock"))
    else if status == "APPROVED" then StatusConfig("Aprovada", Success, Some("pi pi-check-circle"))
    else if status == "REJECTED" then StatusConfig("Rejeitada", Danger, Some("pi pi-times-circle"))
    else if status == "INTERVIEW" then StatusConfig("Entrevista", Info, Some("pi pi-comments"))
    else StatusConfig(status, Secondary, None)
  }

  /** Within each table the four known statuses are told apart by their severity. */
  lemma SeveritiesDistinct(i: nat, j: nat)
    requires i < 4 && j < 4 && i != j
    ensures JobStatus(JobStatuses[i]).severity != JobStatus(JobStatuses[j]).severity
    ensures ApplicationStatus(ApplicationStatuses[i]).severity !=
            ApplicationStatus(ApplicationStatuses[j]).severity
  {
  }

  /** 'INTERVIEW' is known to the application table alone: there it is 'Entrevista'
      with the info severity, which no job status has, while the job table falls back
      to showing the code itself. */
  lemma InterviewOnlyForApplications(status: string)
    ensures ApplicationStatus("INTERVIEW") == StatusConfig("Entrevista", Info, Some("pi pi-comments"))
    ensures JobStatus("INTERVIEW") == StatusConfig("INTERVIEW", Secondary, None)
    ensures JobStatus(status).severity != Info
    ensures ApplicationStatus(status).severity == Info <==> status == "INTERVIEW"
  {
  }

  /** The statuses both tables know get the same label, severity and icon in both. */
  lemma SharedStatusesAgree(status: string)
    requires status in ["APPROVED", "PENDING", "REJECTED"]
    ensures JobStatus(status) == ApplicationStatus(status)
  {
  }
}
