/** The portal's job hooks: the query-key hierarchy, the query functions that bracket a
    fetch with the store's loading flag, and the cache and store effects of creating,
    updating, deleting and applying. */
module UseJobs {
  import opened Wrappers
  import opened Text
  import opened Entities
  import opened Lists
  import opened QueryKeys
  import opened Fetching
  import opened AppStore
  import UseApplications

  const AllKey: QueryKey := [Word("jobs")]

  function ListsKey(): (k: QueryKey)
    ensures Extends(k, AllKey) && k == [Word("jobs"), Word("list")]
  {
    AllKey + [Word("list")]
  }

  function ListKey(filters: JobFilters): (k: QueryKey)
    ensures Extends(k, ListsKey()) && |k| == 3 && k[2] == Filters(filters)
  {
    ListsKey() + [Filters(filters)]
  }

  function DetailsKey(): (k: QueryKey)
    ensures Extends(k, AllKey) && k == [Word("jobs"), Word("detail")]
  {
    AllKey + [Word("detail")]
  }

  function DetailKey(id: string): (k: QueryKey)
    ensures Extends(k, DetailsKey()) && |k| == 3 && k[2] == Word(id)
  {
    DetailsKey() + [Word(id)]
  }

  function StatsKey(): (k: QueryKey)
    ensures Extends(k, AllKey) && k == [Word("jobs"), Word("stats")]
  {
    AllKey + [Word("stats")]
  }

  /** The employer's own query sits directly under the root key, outside the lists. */
  const EmployerJobsKey: QueryKey := [Word("jobs"), Word("employer")]

  /** Invalidating the lists reaches every list query and no detail; the detail key of
      one job id extends the detail key of no other. */
  lemma KeyHierarchy(filters: JobFilters, id: string, other: string)
    ensures Extends(ListKey(filters), AllKey) && Extends(DetailKey(id), AllKey)
    ensures !Extends(DetailKey(id), ListsKey()) && !Extends(EmployerJobsKey, ListsKey())
    ensures Extends(DetailKey(id), DetailKey(other)) <==> id == other
  {
    ExtendsTransitive(ListKey(filters), ListsKey(), AllKey);
    ExtendsTransitive(DetailKey(id), DetailsKey(), AllKey);
    assert DetailKey(id)[..2][1] != ListsKey()[1];
    assert EmployerJobsKey[..2][1] != ListsKey()[1];
    if Extends(DetailKey(id), DetailKey(other)) {
      assert DetailKey(id)[..3][2] == DetailKey(other)[2];
    }
  }

  /** The cache key of a job's details as the mutations write it: the id in decimal. */
  function DetailKeyOf(id: int): (k: QueryKey)
    ensures k == DetailKey(IntToString(id)) && ParseInt(k[2].word) == Some(id)
  {
    IntRoundTrip(id);
    DetailKey(IntToString(id))
  }

  /** Distinct job ids have distinct detail keys, so writing or removing one job's
      details never touches another's. */
  lemma DetailKeyInjective(a: int, b: int)
    ensures DetailKeyOf(a) == DetailKeyOf(b) <==> a == b
  {
    if DetailKeyOf(a) == DetailKeyOf(b) {
      assert DetailKeyOf(a)[2] == DetailKeyOf(b)[2];
    }
  }

  /** `useJobs`: the loading flag is on during the request and off afterwards whatever
      the outcome; a successful response's content replaces the store's jobs. */
  method FetchJobs(store: AppStore, source: Source<JobFilters, PageResponse<Job>>, filters: JobFilters)
    returns (r: Result<PageResponse<Job>, int>)
    modifies store, source
    ensures r == HeadResult(old(source.results))
    ensures source.calls == old(source.calls) + [Call(filters, true)]
    ensures store.State() == old(store.State()).(
      jobsLoading := false,
      jobs := if r.Ok? then r.value.content else old(store.jobs))
  {
    store.SetJobsLoading(true);
    r := source.Fetch(filters, store.jobsLoading);
    if r.Ok? {
      store.SetJobs(r.value.content);
    }
    store.SetJobsLoading(false);
  }

  /** `useJob` runs only for a non-empty id. */
  predicate JobQueryEnabled(id: string) { id != "" }

  /** `useJob`'s query function: a fetched job becomes the current job; the loading flag
      is not touched. */
  method FetchJob(store: AppStore, source: Source<string, Job>, id: string) returns (r: Result<Job, int>)
    requires JobQueryEnabled(id)
    modifies store, source
    ensures r == HeadResult(old(source.results))
    ensures source.calls == old(source.calls) + [Call(id, old(store.jobsLoading))]
    ensures store.State() == old(store.State()).(currentJob := if r.Ok? then Some(r.value) else old(store.currentJob))
  {
    r := source.Fetch(id, store.jobsLoading);
    if r.Ok? {
      store.SetCurrentJob(Some(r.value));
    }
  }

  /** A created job: the lists are invalidated and the job put first in the store. */
  method OnCreated(cache: QueryCache<Job>, store: AppStore, newJob: Job)
    modifies cache, store
    ensures cache.invalidated == old(cache.invalidated) + [ListsKey()] && cache.entries == old(cache.entries)
    ensures store.State() == old(store.State()).(jobs := [newJob] + old(store.jobs))
  {
    cache.InvalidateQueries(ListsKey());
    store.AddJob(newJob);
  }

  /** An updated job: the lists are invalidated, the job's detail entry is written, and
      the store's entry becomes the updated job. */
  method OnUpdated(cache: QueryCache<Job>, store: AppStore, updated: Job)
    modifies cache, store
    ensures cache.invalidated == old(cache.invalidated) + [ListsKey()]
    ensures cache.entries == old(cache.entries)[DetailKeyOf(updated.id) := updated]
    ensures store.State() == old(store.State()).(
      jobs := UpdateFirst(old(store.jobs), JobId, updated.id, j => MergeJob(j, JobAsPatch(updated))))
  {
    cache.InvalidateQueries(ListsKey());
    cache.SetQueryData(DetailKey(IntToString(updated.id)), updated);
    store.UpdateJob(updated.id, JobAsPatch(updated));
  }

  /** After an update, the cached details and the store agree: the first listed job
      with that id, if any, is the updated job, as is the detail entry. */
  lemma UpdateAgrees(jobs: seq<Job>, entries: map<QueryKey, Job>, updated: Job)
    ensures var r := UpdateFirst(jobs, JobId, updated.id, j => MergeJob(j, JobAsPatch(updated)));
      entries[DetailKeyOf(updated.id) := updated][DetailKeyOf(updated.id)] == updated &&
      match FirstIndex(jobs, JobId, updated.id)
      case None => r == jobs
      case Some(i) => r[i] == updated
  {
    var index := FirstIndex(jobs, JobId, updated.id);
    if index.Some? {
      MergeJobLaws(jobs[index.value], updated);
    }
  }

  /** A deleted job: the lists are invalidated, its detail entry removed, and every
      store entry with that id removed. */
  method OnDeleted(cache: QueryCache<Job>, store: AppStore, deletedId: int)
    modifies cache, store
    ensures cache.invalidated == old(cache.invalidated) + [ListsKey()]
    ensures cache.entries == map k | k in old(cache.entries) && !Extends(k, DetailKeyOf(deletedId)) :: old(cache.entries)[k]
    ensures DetailKeyOf(deletedId) !in cache.entries
    ensures store.State() == old(store.State()).(jobs := RemoveAll(old(store.jobs), JobId, deletedId))
    ensures forall i | 0 <= i < |store.jobs| :: store.jobs[i].id != deletedId
  {
    cache.InvalidateQueries(ListsKey());
    cache.RemoveQueries(DetailKey(IntToString(deletedId)));
    store.RemoveJob(deletedId);
    RemoveAllKeepsOrder(old(store.jobs), JobId, deletedId);
  }

  /** An application sent: every application query is invalidated and the store records
      the application and its job's new count. */
  method OnApplied(cache: QueryCache<Job>, store: AppStore, application: Application)
    modifies cache, store
    ensures cache.invalidated == old(cache.invalidated) + [UseApplications.AllKey] && cache.entries == old(cache.entries)
    ensures store.State() == old(store.State()).(
      applications := [application] + old(store.applications),
      jobs := UpdateFirst(old(store.jobs), JobId, application.jobId, BumpCount))
  {
    cache.InvalidateQueries(UseApplications.AllKey);
    store.AddApplication(application);
  }

  /** `useEmployerJobs`: the query's content whenever the query has data, even an empty
      page (an array is truthy), and the store's jobs only before that; loading when
      either side is loading. */
  function EmployerJobs(queryData: Option<PageResponse<Job>>, storeJobs: seq<Job>): (jobs: seq<Job>)
    ensures queryData.Some? ==> jobs == queryData.value.content
    ensures queryData.None? ==> jobs == storeJobs
  {
    if queryData.Some? then queryData.value.content else storeJobs
  }

  function EmployerLoading(queryLoading: bool, storeLoading: bool): (loading: bool)
    ensures loading <==> queryLoading || storeLoading
  {
    queryLoading || storeLoading
  }

  /** Deleting a job hides it from the employer's list only while that list still
      comes from the store. Once the employer query holds a page, the store's removal
      does not show, and the lists invalidation that a deletion requests does not reach
      the employer key, so the page keeps listing the deleted job. */
  lemma EmployerListAfterDelete(page: PageResponse<Job>, storeJobs: seq<Job>, deletedId: int)
    ensures var left := EmployerJobs(None, RemoveAll(storeJobs, JobId, deletedId));
      forall i | 0 <= i < |left| :: left[i].id != deletedId
    ensures EmployerJobs(Some(page), RemoveAll(storeJobs, JobId, deletedId)) == EmployerJobs(Some(page), storeJobs)
    ensures !Extends(EmployerJobsKey, ListsKey())
  {
    assert EmployerJobsKey[..2][1] != ListsKey()[1];
  }

  /** Around a store fetch (`FetchJobs` sets the store's loading flag and clears it
      afterwards) the employer view is loading throughout, and afterwards it is loading
      exactly while its own query is; before the employer query has data it lists what
      the fetch left in the store. */
  lemma EmployerViewAroundStoreFetch(before: seq<Job>, r: Result<PageResponse<Job>, int>,
                                     queryData: Option<PageResponse<Job>>, queryLoading: bool)
    ensures EmployerLoading(queryLoading, true)
    ensures EmployerLoading(queryLoading, false) <==> queryLoading
    ensures queryData.None? && r.Ok? ==> EmployerJobs(queryData, r.value.content) == r.value.content
    ensures queryData.None? && r.Err? ==> EmployerJobs(queryData, before) == before
  {
  }
}
