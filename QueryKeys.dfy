/** Query keys as the hooks build them: arrays of words, numbers, absent values and
    filter objects, ordered by prefix. Invalidating or removing by a key touches every
    cached key that extends it. */
module QueryKeys {
  import opened Wrappers
  import opened Entities

  datatype KeyPart = Word(word: string) | Num(n: int) | Absent | Filters(filters: JobFilters)

  type QueryKey = seq<KeyPart>

  /** `p` is a prefix of `k`: an invalidation by `p` reaches `k`. */
  predicate Extends(k: QueryKey, p: QueryKey) {
    |p| <= |k| && k[..|p|] == p
  }

  lemma ExtendsTransitive(a: QueryKey, b: QueryKey, c: QueryKey)
    requires Extends(a, b) && Extends(b, c)
    ensures Extends(a, c)
  {
    assert a[..|c|] == a[..|b|][..|c|];
  }

  /** A number or `undefined`, as an optional page parameter appears in a key. */
  function NumOrAbsent(n: Option<int>): KeyPart {
    if n.Some? then Num(n.value) else Absent
  }

  /** A cache of query results: entries by key, and the invalidations requested (the
      refetching they cause is not modelled). */
  class QueryCache<V> {
    var entries: map<QueryKey, V>
    var invalidated: seq<QueryKey>

    constructor ()
      ensures entries == map[] && invalidated == []
    {
      entries := map[];
      invalidated := [];
    }

    method InvalidateQueries(key: QueryKey)
      modifies this
      ensures invalidated == old(invalidated) + [key] && entries == old(entries)
    {
      invalidated := invalidated + [key];
    }

    /** `setQueryData`: the entry under exactly that key. */
    method SetQueryData(key: QueryKey, value: V)
      modifies this
      ensures entries == old(entries)[key := value] && invalidated == old(invalidated)
    {
      entries := entries[key := value];
    }

    /** `removeQueries`: every entry whose key extends the given one goes. */
    method RemoveQueries(key: QueryKey)
      modifies this
      ensures entries == map k | k in old(entries) && !Extends(k, key) :: old(entries)[k]
      ensures invalidated == old(invalidated)
    {
      entries := map k | k in entries && !Extends(k, key) :: entries[k];
    }
  }
}
