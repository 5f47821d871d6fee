/** The portal's auth service over browser storage: storing a session, reading the
    stored user back and removing the session. */
module PortalAuthService {
  import opened Wrappers
  import opened Entities
  import opened Codec
  import opened Storage

  /** `getStoredUser`: no user when the key is missing, holds the empty string, or
      holds text that does not decode. */
  function StoredUser(items: map<string, string>): (r: Option<User>)
    ensures UserKey !in items ==> r.None?
    ensures UserKey in items && items[UserKey] == "" ==> r.None?
  {
    if UserKey in items && items[UserKey] != "" then DecodeUser(items[UserKey]) else None
  }

  /** The storage after `storeAuth`. */
  function AfterStore(items: map<string, string>, auth: AuthResponse): map<string, string> {
    items[AccessTokenKey := auth.accessToken][RefreshTokenKey := auth.refreshToken][UserKey := EncodeUser(auth.user)]
  }

  method StoreAuth(s: LocalStorage, auth: AuthResponse)
    modifies s
    ensures s.items == AfterStore(old(s.items), auth)
  {
    s.SetItem(AccessTokenKey, auth.accessToken);
    s.SetItem(RefreshTokenKey, auth.refreshToken);
    s.SetItem(UserKey, EncodeUser(auth.user));
  }

  /** `logout`: exactly the three session keys go. */
  method Logout(s: LocalStorage)
    modifies s
    ensures s.items == old(s.items) - {AccessTokenKey, RefreshTokenKey, UserKey}
  {
    s.RemoveItem(AccessTokenKey);
    s.RemoveItem(RefreshTokenKey);
    s.RemoveItem(UserKey);
  }

  /** The user stored by `storeAuth` is the one read back. */
  lemma StoreThenRead(items: map<string, string>, auth: AuthResponse)
    ensures StoredUser(AfterStore(items, auth)) == Some(auth.user)
  {
    UserRoundTrip(auth.user);
  }

  /** After logout no user is read back, and every other key keeps its value. */
  lemma LogoutThenRead(items: map<string, string>)
    ensures StoredUser(items - {AccessTokenKey, RefreshTokenKey, UserKey}).None?
    ensures forall k | k in items && k !in {AccessTokenKey, RefreshTokenKey, UserKey} ::
      k in items - {AccessTokenKey, RefreshTokenKey, UserKey} &&
      (items - {AccessTokenKey, RefreshTokenKey, UserKey})[k] == items[k]
  {
  }
}
