/** A backend endpoint as the hooks' query functions see it: a script of results handed
    out in order, and a log of the requests made together with the value of the
    store's loading flag at the moment of each request. */
module Fetching {
  import opened Wrappers

  datatype Call<Q> = Call(request: Q, loadingAtCall: bool)

  /** The first scripted result; an exhausted script fails like a lost connection. */
  function HeadResult<T>(results: seq<Result<T, int>>): Result<T, int> {
    if results == [] then Err(0) else results[0]
  }

  class Source<Q, T> {
    var results: seq<Result<T, int>>
    var calls: seq<Call<Q>>

    constructor (script: seq<Result<T, int>>)
      ensures results == script && calls == []
    {
      results := script;
      calls := [];
    }

    method Fetch(request: Q, loadingNow: bool) returns (r: Result<T, int>)
      modifies this
      ensures r == HeadResult(old(results))
      ensures results == if old(results) == [] then [] else old(results)[1..]
      ensures calls == old(calls) + [Call(request, loadingNow)]
    {
      calls := calls + [Call(request, loadingNow)];
      if results == [] {
        r := Err(0);
      } else {
        r := results[0];
        results := results[1..];
      }
    }
  }
}
