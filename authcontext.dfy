/**
 * The session store of the mobile app (src/context/AuthContext.js): a provider holding the
 * loading flag, the session token and the user profile, kept in step with the device store
 * under the keys "userInfo" and "userToken". Login and registration are simulated: login
 * always yields the same test profile and token, registration always reports success.
 *
 * A storage call that throws is given as `failAt`: the index, counted from 0 in call order, of
 * the first storage call that throws (None when none does).
 */
module AuthContext {
  import opened Outcomes
  import opened Storage
  import ApiClient

  const SampleToken: string := "sample-token"
  const SampleName: string := "Utilizator Test"
  const SampleUserType: string := "client"

  /** The profile login builds for any credentials. */
  function SampleUser(email: string): (u: UserInfo)
    ensures u.id == 1 && u.email == email && u.name == SampleName && u.userType == SampleUserType
  {
    UserInfo(1, email, SampleName, SampleUserType)
  }

  /** Whether the storage call with index `step` completes. */
  predicate Completes(failAt: Option<nat>, step: nat)
  {
    failAt.None? || step < failAt.value
  }

  /** The store after a login whose two writes complete. */
  function LoggedIn(items: Items, email: string): (r: Items)
    ensures r.Keys == items.Keys + {UserInfoKey, UserTokenKey}
    ensures r[UserInfoKey] == Info(SampleUser(email)) && r[UserTokenKey] == Plain(SampleToken)
    ensures forall k :: k in items && k != UserInfoKey && k != UserTokenKey ==> r[k] == items[k]
  {
    items[UserInfoKey := Info(SampleUser(email))][UserTokenKey := Plain(SampleToken)]
  }

  /** The store after a logout whose two removals complete. */
  function LoggedOut(items: Items): (r: Items)
    ensures r.Keys == items.Keys - {UserInfoKey, UserTokenKey}
    ensures forall k :: k in r ==> r[k] == items[k]
  {
    items - {UserInfoKey} - {UserTokenKey}
  }

  /** What the start-up check does with the store. */
  datatype Restored =
    | Keep                                    // nothing truthy under "userInfo": state unchanged
    | Restore(info: Stored, token: Option<Stored>) // the parsed profile and the raw token
    | Throws                                  // a read throws or the profile is not JSON

  /** The start-up check: a stored profile is parsed and restored together with whatever is
      stored under "userToken"; a missing or empty profile leaves the state alone. Plain text is
      taken not to be JSON, so parsing it throws. */
  function Restoration(items: Items, readFails: bool): (r: Restored)
    ensures r.Restore? <==> !readFails && UserInfoKey in items && !items[UserInfoKey].Plain?
    ensures r.Keep? <==> !readFails && (UserInfoKey !in items || items[UserInfoKey] == Plain(""))
    ensures r.Restore? ==> r.info == items[UserInfoKey]
    ensures r.Restore? ==> (r.token.Some? <==> UserTokenKey in items)
    ensures r.Restore? && r.token.Some? ==> r.token.value == items[UserTokenKey]
  {
    if readFails then Throws
    else if UserInfoKey !in items then Keep
    else match items[UserInfoKey]
      case Plain(s) => if s == "" then Keep else Throws
      case _ => Restore(items[UserInfoKey], if UserTokenKey in items then Some(items[UserTokenKey]) else None)
  }

  /** A restart after login gives back the profile and the token login set. */
  lemma RestoreAfterLogin(items: Items, email: string)
    ensures Restoration(LoggedIn(items, email), false) == Restore(Info(SampleUser(email)), Some(Plain(SampleToken)))
  {
  }

  /** A restart after logout restores nothing. */
  lemma RestoreAfterLogout(items: Items)
    ensures Restoration(LoggedOut(items), false) == Keep
  {
  }

  /** Login and logout never touch the keys the HTTP client keeps its session under. */
  lemma ClientKeysUntouched(items: Items, email: string)
    ensures TokensKey in LoggedIn(items, email) <==> TokensKey in items
    ensures TokensKey in items ==> LoggedIn(items, email)[TokensKey] == items[TokensKey]
    ensures UserKey in LoggedIn(items, email) <==> UserKey in items
    ensures UserKey in items ==> LoggedIn(items, email)[UserKey] == items[UserKey]
    ensures TokensKey in LoggedOut(items) <==> TokensKey in items
    ensures TokensKey in items ==> LoggedOut(items)[TokensKey] == items[TokensKey]
    ensures UserKey in LoggedOut(items) <==> UserKey in items
    ensures UserKey in items ==> LoggedOut(items)[UserKey] == items[UserKey]
  {
  }

  /** The bearer the HTTP client attaches depends on the "tokens" entry alone. */
  lemma SameTokensSameBearer(a: Items, b: Items, headers: map<string, string>)
    requires (TokensKey in a <==> TokensKey in b) && (TokensKey in a ==> a[TokensKey] == b[TokensKey])
    ensures ApiClient.AuthorizedHeaders(a, headers) == ApiClient.AuthorizedHeaders(b, headers)
  {
    assert ReadTokens(a) == ReadTokens(b);
  }

  /** The session store and the HTTP client do not share a key, so logging in attaches no
      bearer and logging out detaches none: requests after a logout still carry whatever
      credential was stored under "tokens" before the login. */
  lemma LogoutKeepsBearer(items: Items, email: string, headers: map<string, string>)
    ensures ApiClient.AuthorizedHeaders(LoggedIn(items, email), headers) == ApiClient.AuthorizedHeaders(items, headers)
    ensures ApiClient.AuthorizedHeaders(LoggedOut(LoggedIn(items, email)), headers) == ApiClient.AuthorizedHeaders(items, headers)
  {
    ClientKeysUntouched(items, email);
    ClientKeysUntouched(LoggedIn(items, email), email);
    SameTokensSameBearer(LoggedIn(items, email), items, headers);
    SameTokensSameBearer(LoggedOut(LoggedIn(items, email)), items, headers);
  }

  /** The AuthProvider component: its three pieces of state and the store it writes. */
  class AuthProvider {
    var isLoading: bool
    var userToken: Option<Stored>
    var userInfo: Option<Stored>
    const storage: AsyncStorage

    constructor (storage: AsyncStorage)
      ensures !isLoading && userToken.None? && userInfo.None? && this.storage == storage
    {
      isLoading := false;
      userToken := None;
      userInfo := None;
      this.storage := storage;
    }

    /** login: the state is set before the writes, so it holds the test session even when a
        write throws; the writes stop at the first one that throws. */
    method Login(email: string, password: string, failAt: Option<nat>)
      modifies this, storage
      ensures userInfo == Some(Info(SampleUser(email))) && userToken == Some(Plain(SampleToken))
      ensures !isLoading
      ensures storage.items ==
        if Completes(failAt, 1) then LoggedIn(old(storage.items), email)
        else if Completes(failAt, 0) then old(storage.items)[UserInfoKey := Info(SampleUser(email))]
        else old(storage.items)
    {
      isLoading := true;
      var userData := SampleUser(email);
      userInfo := Some(Info(userData));
      userToken := Some(Plain(SampleToken));
      if Completes(failAt, 0) {
        storage.SetItem(UserInfoKey, Info(userData));
        if Completes(failAt, 1) {
          storage.SetItem(UserTokenKey, Plain(SampleToken));
        }
      }
      isLoading := false;
    }

    /** logout: the state is cleared only once both removals complete. */
    method Logout(failAt: Option<nat>)
      modifies this, storage
      ensures !isLoading
      ensures Completes(failAt, 1) ==> userToken.None? && userInfo.None?
      ensures !Completes(failAt, 1) ==> userToken == old(userToken) && userInfo == old(userInfo)
      ensures storage.items ==
        if Completes(failAt, 1) then LoggedOut(old(storage.items))
        else if Completes(failAt, 0) then old(storage.items) - {UserInfoKey}
        else old(storage.items)
    {
      isLoading := true;
      if Completes(failAt, 0) {
        storage.RemoveItem(UserInfoKey);
        if Completes(failAt, 1) {
          storage.RemoveItem(UserTokenKey);
          userToken := None;
          userInfo := None;
        }
      }
      isLoading := false;
    }

    /** register: reports success and neither calls the backend nor writes the store. */
    method Register<T>(userData: T) returns (ok: bool)
      modifies this
      ensures ok && !isLoading
      ensures userToken == old(userToken) && userInfo == old(userInfo)
    {
      isLoading := true;
      ok := true;
      isLoading := false;
    }

    /** isLoggedIn, run when the provider mounts. A throw is caught after the loading flag was
        raised and before it is lowered, so the flag stays raised. */
    method IsLoggedIn(readFails: bool)
      modifies this
      ensures var r := Restoration(storage.items, readFails);
        && (r.Restore? ==> userInfo == Some(r.info) && userToken == r.token && !isLoading)
        && (r.Keep? ==> userInfo == old(userInfo) && userToken == old(userToken) && !isLoading)
        && (r.Throws? ==> userInfo == old(userInfo) && userToken == old(userToken) && isLoading)
    {
      isLoading := true;
      if readFails {
        return;
      }
      if UserInfoKey in storage.items && storage.items[UserInfoKey] != Plain("") {
        var stored := storage.items[UserInfoKey];
        if stored.Plain? {
          return;
        }
        userInfo := Some(stored);
        userToken := if UserTokenKey in storage.items then Some(storage.items[UserTokenKey]) else None;
      }
      isLoading := false;
    }
  }
}
