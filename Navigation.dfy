/** A router navigation as the client requests it: the target path, the location
    remembered in `state.from` (if any), and whether the history entry is replaced. */
module Navigation {
  import opened Wrappers

  datatype Nav = Nav(path: string, fromPath: Option<string>, replace: bool)

  /** `navigate(path)`. */
  function Go(path: string): Nav { Nav(path, None, false) }
}
