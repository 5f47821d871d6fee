/** The portal's application hooks: the query-key hierarchy, the query functions that
    bracket a fetch with the store's loading flag and copy the first page into the
    store, the status-update effects, and the statistics over the store's list. */
module UseApplications {
  import opened Wrappers
  import opened Entities
  import opened Lists
  import opened QueryKeys
  import opened Fetching
  import opened AppStore

  const AllKey: QueryKey := [Word("applications")]

  function ListsKey(): (k: QueryKey)
    ensures Extends(k, AllKey) && |k| == |AllKey| + 1
  {
    AllKey + [Word("list")]
  }

  function CandidateKey(page: Option<int>): (k: QueryKey)
    ensures Extends(k, ListsKey()) && |k| == |ListsKey()| + 2 && k[|ListsKey()|] == Word("candidate")
  {
    ListsKey() + [Word("candidate"), NumOrAbsent(page)]
  }

  function EmployerKey(page: Option<int>): (k: QueryKey)
    ensures Extends(k, ListsKey()) && |k| == |ListsKey()| + 2 && k[|ListsKey()|] == Word("employer")
  {
    ListsKey() + [Word("employer"), NumOrAbsent(page)]
  }

  function JobKey(jobId: int): (k: QueryKey)
    ensures Extends(k, AllKey) && !Extends(k, ListsKey())
  {
    var k := AllKey + [Word("job"), Num(jobId)];
    assert k[..|ListsKey()|][1] != ListsKey()[1];
    k
  }

  /** Every list key reaches back to the root key; the two roles' keys never meet, and
      different pages have different keys. */
  lemma KeyHierarchy(page: Option<int>, other: Option<int>)
    ensures Extends(CandidateKey(page), AllKey) && Extends(EmployerKey(page), AllKey)
    ensures CandidateKey(page) != EmployerKey(other)
    ensures CandidateKey(page) == CandidateKey(other) <==> page == other
  {
    ExtendsTransitive(CandidateKey(page), ListsKey(), AllKey);
    ExtendsTransitive(EmployerKey(page), ListsKey(), AllKey);
    assert CandidateKey(page)[1] == Word("list");
    assert CandidateKey(page)[2] != EmployerKey(other)[2];
    if CandidateKey(page) == CandidateKey(other) {
      assert CandidateKey(page)[3] == CandidateKey(other)[3];
    }
  }

  /** The two list queries are enabled only for their own role, so never both at once. */
  predicate CandidateEnabled(user: Option<User>) { user.Some? && user.value.role == "CANDIDATE" }
  predicate EmployerEnabled(user: Option<User>) { user.Some? && user.value.role == "EMPLOYER" }

  /** The per-job query runs only for a non-zero job id. */
  predicate JobQueryEnabled(jobId: int) { jobId != 0 }

  lemma AtMostOneListQuery(user: Option<User>)
    ensures !(CandidateEnabled(user) && EmployerEnabled(user))
  {
  }

  datatype PageRequest = PageRequest(page: int, size: int)

  /** The candidate's and the employer's query functions alike: the loading flag is on
      during the request and off afterwards whatever the outcome, and a successful first
      page replaces the store's applications. The result is the response or the error. */
  method FetchApplications(store: AppStore, source: Source<PageRequest, PageResponse<Application>>, page: int, size: int)
    returns (r: Result<PageResponse<Application>, int>)
    modifies store, source
    ensures r == HeadResult(old(source.results))
    ensures source.calls == old(source.calls) + [Call(PageRequest(page, size), true)]
    ensures store.State() == old(store.State()).(
      applicationsLoading := false,
      applications := if r.Ok? && page == 0 then r.value.content else old(store.applications))
  {
    store.SetApplicationsLoading(true);
    r := source.Fetch(PageRequest(page, size), store.applicationsLoading);
    if r.Ok? && page == 0 {
      store.SetApplications(r.value.content);
    }
    store.SetApplicationsLoading(false);
  }

  /** A successful status update: the list keys and the job's key are invalidated (the
      job key is not under the list keys, hence the second call), and the store's entry
      becomes the updated application. */
  method OnStatusUpdated(cache: QueryCache<PageResponse<Application>>, store: AppStore, updated: Application)
    modifies cache, store
    ensures cache.invalidated == old(cache.invalidated) + [ListsKey(), JobKey(updated.jobId)]
    ensures cache.entries == old(cache.entries)
    ensures store.State() == old(store.State()).(
      applications := UpdateFirst(old(store.applications), ApplicationId, updated.id,
                                  a => MergeApplication(a, ApplicationAsPatch(updated))))
  {
    cache.InvalidateQueries(ListsKey());
    cache.InvalidateQueries(JobKey(updated.jobId));
    store.UpdateApplication(updated.id, ApplicationAsPatch(updated));
  }

  /** After a status update the first application with that id is exactly the updated
      one, and the others are unchanged. */
  lemma StatusUpdateReplaces(apps: seq<Application>, updated: Application)
    ensures var r := UpdateFirst(apps, ApplicationId, updated.id, a => MergeApplication(a, ApplicationAsPatch(updated)));
      |r| == |apps| &&
      match FirstIndex(apps, ApplicationId, updated.id)
      case None => r == apps
      case Some(i) => r[i] == updated && forall j | 0 <= j < |apps| && j != i :: r[j] == apps[j]
  {
    var f := a => MergeApplication(a, ApplicationAsPatch(updated));
    var r := UpdateFirst(apps, ApplicationId, updated.id, f);
    var index := FirstIndex(apps, ApplicationId, updated.id);
    if index.Some? {
      MergeApplicationReplaces(apps[index.value], updated);
    }
  }

  const KnownStatuses := ["PENDING", "APPROVED", "REJECTED", "INTERVIEW"]

  /** How many applications have the given status. */
  function CountStatus(apps: seq<Application>, status: string): (n: nat)
    ensures n <= |apps|
    decreases |apps|
  {
    if apps == [] then 0
    else (if apps[0].status == status then 1 else 0) + CountStatus(apps[1..], status)
  }

  datatype ApplicationStats = ApplicationStats(total: nat, pending: nat, approved: nat, rejected: nat, interview: nat)

  /** `useApplicationStats`. */
  function Stats(apps: seq<Application>): (s: ApplicationStats)
    ensures s.total == |apps|
    ensures s.pending <= s.total && s.approved <= s.total && s.rejected <= s.total && s.interview <= s.total
  {
    ApplicationStats(|apps|, CountStatus(apps, "PENDING"), CountStatus(apps, "APPROVED"),
                     CountStatus(apps, "REJECTED"), CountStatus(apps, "INTERVIEW"))
  }

  /** When every application has one of the four known statuses, the four counts add
      up to the total. */
  lemma {:induction false} KnownStatusesSumToTotal(apps: seq<Application>)
    requires forall i | 0 <= i < |apps| :: apps[i].status in KnownStatuses
    ensures var s := Stats(apps); s.pending + s.approved + s.rejected + s.interview == s.total
    decreases |apps|
  {
    if apps != [] {
      KnownStatusesSumToTotal(apps[1..]);
    }
  }

  /** Prepending an application, as `addApplication` does, adds one to the total and
      one to its own status's count, and leaves the other counts. */
  lemma PrependCounts(apps: seq<Application>, a: Application, status: string)
    ensures CountStatus([a] + apps, status) == CountStatus(apps, status) + (if a.status == status then 1 else 0)
    ensures Stats([a] + apps).total == Stats(apps).total + 1
  {
    assert ([a] + apps)[1..] == apps;
  }
}
