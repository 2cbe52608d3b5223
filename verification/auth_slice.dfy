/**
 * The auth slice of the client store: the signed-in user, the login flags,
 * and one linked/unlinked flag per social platform.
 */
module AuthSlice {
  import opened Shared
  import opened JsObject

  /** The five platforms the slice keeps a flag for. */
  const Platforms: set<string> := {"instagram", "tiktok", "pinterest", "reddit", "quora"}

  /** Every platform flag false, as at start and after logout. */
  function AllUnlinked(): (r: map<string, Value>)
    ensures r.Keys == Platforms && forall p :: p in r ==> r[p] == Bool(false)
  {
    map["instagram" := Bool(false), "tiktok" := Bool(false), "pinterest" := Bool(false),
        "reddit" := Bool(false), "quora" := Bool(false)]
  }

  /** `linkSocialAccount` on the flags: a known platform takes the new value, anything else is ignored. */
  function Link(accounts: map<string, Value>, platform: string, linked: Value): (r: map<string, Value>)
    ensures r.Keys == accounts.Keys
    ensures platform in accounts ==> r[platform] == linked
    ensures forall p :: p in accounts && p != platform ==> r[p] == accounts[p]
    ensures platform !in accounts ==> r == accounts
  {
    if platform in accounts then accounts[platform := linked] else accounts
  }

  /** The flags only ever cover the five platforms, whatever is linked. */
  lemma LinkKeepsPlatforms(accounts: map<string, Value>, platform: string, linked: Value)
    requires accounts.Keys == Platforms
    ensures Link(accounts, platform, linked).Keys == Platforms
  {
  }

  /** Linking and then unlinking a platform leaves it unlinked, and the others as they were. */
  lemma LinkThenUnlink(accounts: map<string, Value>, platform: string)
    requires platform in accounts
    ensures Link(Link(accounts, platform, Bool(true)), platform, Bool(false)) == accounts[platform := Bool(false)]
  {
  }

  class AuthState {
    var user: Option<Object>
    var isAuthenticated: bool
    var loading: bool
    var error: Value
    var linkedAccounts: map<string, Value>

    ghost predicate Valid()
      reads this
    {
      linkedAccounts.Keys == Platforms
    }

    constructor ()
      ensures Valid() && user.None? && !isAuthenticated && !loading && error == Null
      ensures linkedAccounts == AllUnlinked()
    {
      user := None;
      isAuthenticated := false;
      loading := false;
      error := Null;
      linkedAccounts := AllUnlinked();
    }

    method LoginStart()
      requires Valid()
      modifies this
      ensures Valid() && loading && error == Null
      ensures user == old(user) && isAuthenticated == old(isAuthenticated) && linkedAccounts == old(linkedAccounts)
    {
      loading := true;
      error := Null;
    }

    method LoginSuccess(payload: Object)
      requires Valid()
      modifies this
      ensures Valid() && !loading && isAuthenticated && user == Some(payload) && error == Null
      ensures linkedAccounts == old(linkedAccounts)
    {
      loading := false;
      isAuthenticated := true;
      user := Some(payload);
      error := Null;
    }

    /** `loginFailure`: stores the error and leaves `isAuthenticated` and the user as they were. */
    method LoginFailure(payload: Value)
      requires Valid()
      modifies this
      ensures Valid() && !loading && error == payload
      ensures user == old(user) && isAuthenticated == old(isAuthenticated) && linkedAccounts == old(linkedAccounts)
    {
      loading := false;
      error := payload;
    }

    /** `logout`: signed out, and every platform unlinked. The loading flag and error are kept. */
    method Logout()
      requires Valid()
      modifies this
      ensures Valid() && !isAuthenticated && user.None? && linkedAccounts == AllUnlinked()
      ensures loading == old(loading) && error == old(error)
    {
      isAuthenticated := false;
      user := None;
      linkedAccounts := AllUnlinked();
    }

    method LinkSocialAccount(platform: string, linked: Value)
      requires Valid()
      modifies this
      ensures Valid() && linkedAccounts == Link(old(linkedAccounts), platform, linked)
      ensures user == old(user) && isAuthenticated == old(isAuthenticated)
      ensures loading == old(loading) && error == old(error)
    {
      if platform in linkedAccounts {
        linkedAccounts := linkedAccounts[platform := linked];
      }
    }

    /** `updateUserProfile`: `{...user, ...payload}`, where spreading a null user contributes nothing. */
    method UpdateUserProfile(payload: Object)
      requires Valid()
      modifies this
      ensures Valid() && user == Some(Spread(old(user).GetOr(map[]), payload))
      ensures isAuthenticated == old(isAuthenticated) && linkedAccounts == old(linkedAccounts)
      ensures loading == old(loading) && error == old(error)
    {
      user := Some(Spread(user.GetOr(map[]), payload));
    }
  }

  /** A profile update on a signed-out store yields just the payload. */
  lemma UpdateWithoutUser(payload: Object)
    ensures Spread(None.GetOr(map[]), payload) == payload
  {
  }
}
