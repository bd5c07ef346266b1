/**
 * The `AuthProvider` of the client: the user, the token and a loading flag,
 * changed by the start-up check of a stored token, by login and
 * registration, and by logout. The token is mirrored in local storage.
 */
module AuthContext {
  import opened Wrappers
  import opened Text
  import opened ClientTypes

  class AuthProvider {
    var user: Option<ClientUser>
    var token: Option<string>
    var isLoading: bool
    const storage: TokenStorage

    /** The token in the state is the one in local storage. */
    predicate Synced()
      reads this, storage
    {
      token == storage.token
    }

    /** The initial state: no user, the stored token, loading until the check has run. */
    constructor (storage: TokenStorage)
      ensures this.storage == storage && Synced()
      ensures user == None && token == storage.token && isLoading
    {
      this.storage := storage;
      user := None;
      token := storage.token;
      isLoading := true;
    }

    /**
     * `checkAuth`, with the answer of the profile request passed in: with a
     * token, a successful answer carrying a user sets it, and a request that
     * throws drops the token from the state and from storage; without a
     * token nothing is asked. Loading ends in every case.
     */
    method CheckAuth(me: Fetch<ClientUser>)
      modifies this, storage
      ensures !isLoading
      ensures old(Synced()) ==> Synced()
      ensures !Truthy(old(token)) ==>
        user == old(user) && token == old(token) && storage.token == old(storage.token)
      ensures Truthy(old(token)) ==>
        match me
        case Threw =>
          token == None && storage.token == None && user == old(user)
        case Answered(success, data) =>
          && token == old(token) && storage.token == old(storage.token)
          && user == (if success && data.Some? then data else old(user))
    {
      if Truthy(token) {
        match me
        case Threw =>
          storage.RemoveItem();
          token := None;
        case Answered(success, data) =>
          if success && data.Some? {
            user := data;
          }
      }
      isLoading := false;
    }

    /**
     * `login` and `register`, which are the same once the request has been
     * made: only an answer with `success` and `data` changes anything, and
     * then storage, token and user all come from it. A request that throws
     * leaves the state as it was (the error goes to the caller).
     */
    method SignIn(response: Fetch<Session>)
      modifies this, storage
      ensures isLoading == old(isLoading)
      ensures old(Synced()) ==> Synced()
      ensures response.Answered? && response.success && response.data.Some? ==>
        && storage.token == Some(response.data.value.token) && token == Some(response.data.value.token)
        && user == Some(response.data.value.user)
      ensures !(response.Answered? && response.success && response.data.Some?) ==>
        user == old(user) && token == old(token) && storage.token == old(storage.token)
    {
      if response.Answered? && response.success && response.data.Some? {
        var s := response.data.value;
        storage.SetItem(s.token);
        token := Some(s.token);
        user := Some(s.user);
      }
    }

    /** `logout`: storage, token and user are all cleared. */
    method Logout()
      modifies this, storage
      ensures storage.token == None && token == None && user == None
      ensures isLoading == old(isLoading)
    {
      storage.RemoveItem();
      token := None;
      user := None;
    }
  }

  /**
   * Start-up with a stored token that the server no longer accepts: after
   * the check the provider is signed out, storage is empty and loading is over.
   */
  method StaleTokenAtStartup(storage: TokenStorage) returns (p: AuthProvider)
    requires Truthy(storage.token)
    modifies storage
    ensures p.storage == storage && p.user == None && p.token == None && storage.token == None
    ensures !p.isLoading
  {
    p := new AuthProvider(storage);
    p.CheckAuth(Threw);
  }
}
