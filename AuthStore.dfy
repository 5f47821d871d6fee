/** The root app's authentication store: the signed-in user, whether someone is
    signed in, and whether the session is still being restored. */
module AuthStore {
  import opened Wrappers
  import opened Entities

  /** The part of the state the persistence layer writes to storage. */
  datatype PersistedAuth = PersistedAuth(user: Option<User>, isAuthenticated: bool)

  class AuthStore {
    var user: Option<User>
    var isAuthenticated: bool
    var loading: bool

    /** A user is recorded exactly when the store says someone is signed in. */
    predicate Valid()
      reads this
    {
      isAuthenticated <==> user.Some?
    }

    constructor ()
      ensures user == None && !isAuthenticated && loading
      ensures Valid()
    {
      user := None;
      isAuthenticated := false;
      loading := true;
    }

    /** `setUser`: records the user (or null), derives the flag from it and ends loading. */
    method SetUser(u: Option<User>)
      modifies this
      ensures user == u && isAuthenticated == u.Some? && !loading
      ensures Valid()
      ensures Persisted() == PersistedAuth(u, u.Some?)
    {
      user := u;
      isAuthenticated := u.Some?;
      loading := false;
    }

    method SetLoading(l: bool)
      modifies this
      ensures loading == l && user == old(user) && isAuthenticated == old(isAuthenticated)
      ensures old(Valid()) ==> Valid()
      ensures Persisted() == old(Persisted())
    {
      loading := l;
    }

    method Logout()
      modifies this
      ensures user == None && !isAuthenticated && !loading
      ensures Valid()
      ensures Persisted() == PersistedAuth(None, false)
    {
      user := None;
      isAuthenticated := false;
      loading := false;
    }

    /** The persisted subset: the user and the flag; the loading flag has no place in it. */
    function Persisted(): (p: PersistedAuth)
      reads this
      ensures Valid() ==> (p.isAuthenticated <==> p.user.Some?)
    {
      PersistedAuth(user, isAuthenticated)
    }

    /** Restoring a saved record (`persist` merging it over the current state): the user
        and the flag come back as saved, the loading flag is left as it is. A record
        that a store keeping its invariant saved restores that invariant, and saving
        right after restoring gives the same record back. */
    method Rehydrate(saved: PersistedAuth)
      modifies this
      ensures user == saved.user && isAuthenticated == saved.isAuthenticated && loading == old(loading)
      ensures Persisted() == saved
      ensures (saved.isAuthenticated <==> saved.user.Some?) ==> Valid()
    {
      user := saved.user;
      isAuthenticated := saved.isAuthenticated;
    }
  }
}
