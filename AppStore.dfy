/** The portal's in-memory application store: lists of jobs, applications, companies
    and notifications that the store's actions change in place. */
module AppStore {
  import opened Wrappers
  import opened Text
  import opened Entities
  import opened Lists

  /** A toast message queued for display. */
  datatype Notification = Notification(id: string, kind: string, message: string, timestamp: int)

  /** What a caller hands to `addNotification`: the message without id and timestamp. */
  datatype NotificationInput = NotificationInput(kind: string, message: string)

  /** The whole store as one value, so that an action can state that it changes one
      field and leaves every other as it was. */
  datatype AppState = AppState(
    jobs: seq<Job>, currentJob: Option<Job>, jobsLoading: bool,
    applications: seq<Application>, applicationsLoading: bool,
    companies: seq<Company>, currentCompany: Option<Company>,
    stats: Option<DashboardStats>,
    notifications: seq<Notification>)

  const InitialState := AppState([], None, false, [], false, [], None, None, [])

  function JobId(j: Job): int { j.id }
  function ApplicationId(a: Application): int { a.id }
  function NotificationId(n: Notification): string { n.id }

  /** `job.applicationsCount += 1`. */
  function BumpCount(j: Job): (r: Job)
    ensures r.applicationsCount == j.applicationsCount + 1
    ensures r.(applicationsCount := j.applicationsCount) == j
  {
    j.(applicationsCount := j.applicationsCount + 1)
  }

  /** The notification `addNotification` builds: the id is the first clock reading
      rendered in decimal, the timestamp the second reading. */
  function MakeNotification(input: NotificationInput, idClock: int, stampClock: int): (n: Notification)
    ensures ParseInt(n.id) == Some(idClock)
    ensures n.timestamp == stampClock && n.kind == input.kind && n.message == input.message
  {
    IntRoundTrip(idClock);
    Notification(IntToString(idClock), input.kind, input.message, stampClock)
  }

  class AppStore {
    var jobs: seq<Job>
    var currentJob: Option<Job>
    var jobsLoading: bool
    var applications: seq<Application>
    var applicationsLoading: bool
    var companies: seq<Company>
    var currentCompany: Option<Company>
    var stats: Option<DashboardStats>
    var notifications: seq<Notification>

    function State(): AppState
      reads this
    {
      AppState(jobs, currentJob, jobsLoading, applications, applicationsLoading,
               companies, currentCompany, stats, notifications)
    }

    constructor ()
      ensures State() == InitialState
    {
      jobs := [];
      currentJob := None;
      jobsLoading := false;
      applications := [];
      applicationsLoading := false;
      companies := [];
      currentCompany := None;
      stats := None;
      notifications := [];
    }

    method SetJobs(newJobs: seq<Job>)
      modifies this
      ensures State() == old(State()).(jobs := newJobs)
    {
      jobs := newJobs;
    }

    /** `unshift`: the new job first, the old jobs after it in order. */
    method AddJob(job: Job)
      modifies this
      ensures State() == old(State()).(jobs := [job] + old(jobs))
      ensures |jobs| == |old(jobs)| + 1 && jobs[0] == job && jobs[1..] == old(jobs)
    {
      jobs := [job] + jobs;
    }

    /** `findIndex` by id, then `Object.assign` on the job found. */
    method UpdateJob(id: int, updates: JobPatch)
      modifies this
      ensures State() == old(State()).(jobs := UpdateFirst(old(jobs), JobId, id, j => MergeJob(j, updates)))
    {
      var index := FirstIndex(jobs, JobId, id);
      if index.Some? {
        var i := index.value;
        ghost var expected := UpdateFirst(jobs, JobId, id, j => MergeJob(j, updates));
        jobs := jobs[i := MergeJob(jobs[i], updates)];
        assert jobs == expected;
      }
    }

    method RemoveJob(id: int)
      modifies this
      ensures State() == old(State()).(jobs := RemoveAll(old(jobs), JobId, id))
    {
      jobs := RemoveAll(jobs, JobId, id);
    }

    method SetCurrentJob(job: Option<Job>)
      modifies this
      ensures State() == old(State()).(currentJob := job)
    {
      currentJob := job;
    }

    method SetJobsLoading(loading: bool)
      modifies this
      ensures State() == old(State()).(jobsLoading := loading)
    {
      jobsLoading := loading;
    }

    method SetApplications(newApplications: seq<Application>)
      modifies this
      ensures State() == old(State()).(applications := newApplications)
    {
      applications := newApplications;
    }

    /** Prepends the application, then adds one to the applicationsCount of the first
        job whose id is the application's jobId, if there is one. */
    method AddApplication(application: Application)
      modifies this
      ensures State() == old(State()).(
        applications := [application] + old(applications),
        jobs := UpdateFirst(old(jobs), JobId, application.jobId, BumpCount))
    {
      applications := [application] + applications;
      var index := FirstIndex(jobs, JobId, application.jobId);
      if index.Some? {
        var i := index.value;
        ghost var expected := UpdateFirst(jobs, JobId, application.jobId, BumpCount);
        jobs := jobs[i := jobs[i].(applicationsCount := jobs[i].applicationsCount + 1)];
        assert jobs == expected;
      }
    }

    method UpdateApplication(id: int, updates: ApplicationPatch)
      modifies this
      ensures State() == old(State()).(
        applications := UpdateFirst(old(applications), ApplicationId, id, a => MergeApplication(a, updates)))
    {
      var index := FirstIndex(applications, ApplicationId, id);
      if index.Some? {
        var i := index.value;
        ghost var expected := UpdateFirst(applications, ApplicationId, id, a => MergeApplication(a, updates));
        applications := applications[i := MergeApplication(applications[i], updates)];
        assert applications == expected;
      }
    }

    method SetApplicationsLoading(loading: bool)
      modifies this
      ensures State() == old(State()).(applicationsLoading := loading)
    {
      applicationsLoading := loading;
    }

    method SetCompanies(newCompanies: seq<Company>)
      modifies this
      ensures State() == old(State()).(companies := newCompanies)
    {
      companies := newCompanies;
    }

    method SetCurrentCompany(company: Option<Company>)
      modifies this
      ensures State() == old(State()).(currentCompany := company)
    {
      currentCompany := company;
    }

    method SetStats(newStats: DashboardStats)
      modifies this
      ensures State() == old(State()).(stats := Some(newStats))
    {
      stats := Some(newStats);
    }

    /** Appends a notification; the two clock readings stand for the two `Date.now()`
        calls, which need not agree. */
    method AddNotification(input: NotificationInput, idClock: int, stampClock: int)
      modifies this
      ensures State() == old(State()).(
        notifications := old(notifications) + [MakeNotification(input, idClock, stampClock)])
    {
      var id := IntToString(idClock);
      notifications := notifications + [Notification(id, input.kind, input.message, stampClock)];
    }

    method RemoveNotification(id: string)
      modifies this
      ensures State() == old(State()).(notifications := RemoveAll(old(notifications), NotificationId, id))
    {
      notifications := RemoveAll(notifications, NotificationId, id);
    }

    method ClearNotifications()
      modifies this
      ensures State() == old(State()).(notifications := [])
    {
      notifications := [];
    }
  }

  /** The sum of the applicationsCount fields over a job list. */
  function TotalCount(jobs: seq<Job>): int
    decreases |jobs|
  {
    if jobs == [] then 0 else jobs[0].applicationsCount + TotalCount(jobs[1..])
  }

  /** addApplication raises the total count over the job list by exactly one when a
      job with the application's jobId is listed, and leaves it when none is. */
  lemma {:induction false} BumpRaisesTotalByOne(jobs: seq<Job>, jobId: int)
    ensures TotalCount(UpdateFirst(jobs, JobId, jobId, BumpCount)) ==
            TotalCount(jobs) + (if FirstIndex(jobs, JobId, jobId).Some? then 1 else 0)
    decreases |jobs|
  {
    if jobs != [] && jobs[0].id != jobId {
      BumpRaisesTotalByOne(jobs[1..], jobId);
      assert ([jobs[0]] + UpdateFirst(jobs[1..], JobId, jobId, BumpCount))[1..] ==
             UpdateFirst(jobs[1..], JobId, jobId, BumpCount);
    } else if jobs != [] {
      assert ([BumpCount(jobs[0])] + jobs[1..])[1..] == jobs[1..];
    }
  }

  /** Adding a job whose id no listed job has, then removing that id, restores the list. */
  lemma RemoveUndoesAddJob(jobs: seq<Job>, job: Job)
    requires forall i | 0 <= i < |jobs| :: jobs[i].id != job.id
    ensures RemoveAll([job] + jobs, JobId, job.id) == jobs
  {
    assert ([job] + jobs)[1..] == jobs;
    RemoveAllAbsent(jobs, JobId, job.id);
  }

  /** Removing the id of a just-added notification removes it together with every older
      notification that shares the id, and nothing else. */
  lemma RemoveAfterAddNotification(ns: seq<Notification>, n: Notification)
    ensures RemoveAll(ns + [n], NotificationId, n.id) == RemoveAll(ns, NotificationId, n.id)
  {
    RemoveAllConcat(ns, [n], NotificationId, n.id);
    assert RemoveAll([n], NotificationId, n.id) == [];
  }
}
