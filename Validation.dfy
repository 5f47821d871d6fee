/** What a zod schema reports when a value fails it: one issue per failed check,
    with the path of the field and the message the schema gives for it. */
module Validation {
  import opened Wrappers

  datatype Issue = Issue(path: string, message: string)

  /** Stands for zod's own default wording, where a schema gives no message. */
  const DefaultMessage := ""

  /** One check: no issue when it holds, one issue on `path` when it fails. */
  function Check(ok: bool, path: string, message: string): (r: seq<Issue>)
    ensures r == [] <==> ok
    ensures |r| <= 1 && forall i | 0 <= i < |r| :: r[i] == Issue(path, message)
  {
    if ok then [] else [Issue(path, message)]
  }

  /** zod's own wording for a required value that is missing (undefined). */
  const RequiredMessage := "Required"

  /** `z.string().min(n)` on a field that may be missing: a missing value fails. */
  predicate PresentWithMin(s: Option<string>, n: nat) {
    s.Some? && |s.value| >= n
  }

  /** A required text field: missing is an issue with the library's wording, too
      short is an issue with the schema's message. */
  function MinField(s: Option<string>, n: nat, path: string, message: string): (r: seq<Issue>)
    ensures r == [] <==> PresentWithMin(s, n)
    ensures s.None? ==> r == [Issue(path, RequiredMessage)]
  {
    match s
    case None => [Issue(path, RequiredMessage)]
    case Some(t) => Check(|t| >= n, path, message)
  }
}
