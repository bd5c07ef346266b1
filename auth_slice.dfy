/**
 * The `auth` slice of the client store: the signed-in user, the token, a
 * loading flag and the last error, updated by `logout` and by the pending,
 * fulfilled and rejected results of the login, register and getMe thunks.
 * The token is mirrored in local storage.
 */
module AuthSlice {
  import opened Wrappers
  import opened Text
  import opened ClientTypes

  /** The two sign-in thunks, which the slice treats alike except for their default error. */
  datatype SignIn = ViaLogin | ViaRegister

  function Fallback(k: SignIn): string {
    match k
    case ViaLogin => "Login failed"
    case ViaRegister => "Registration failed"
  }

  /** The actions the slice answers; a rejection carries the thunk's payload and the error's message. */
  datatype AuthAction =
    | SignInPending(kind: SignIn)
    | SignInFulfilled(kind: SignIn, session: Session)
    | SignInRejected(kind: SignIn, payload: Option<string>, message: Option<string>)
    | GetMePending
    | GetMeFulfilled(me: ClientUser)
    | GetMeRejected
    | Logout

  /**
   * The error a rejection records: the payload if non-empty, else the
   * error's message if non-empty, else the fallback; never empty when the
   * fallback is not.
   */
  function RejectionError(payload: Option<string>, message: Option<string>, fallback: string): (r: string)
    ensures fallback != [] ==> r != []
    ensures Truthy(payload) ==> r == payload.value
    ensures !Truthy(payload) && Truthy(message) ==> r == message.value
    ensures !Truthy(payload) && !Truthy(message) ==> r == fallback
  {
    if Truthy(payload) then payload.value
    else if Truthy(message) then message.value
    else fallback
  }

  class AuthState {
    var user: Option<ClientUser>
    var token: Option<string>
    var isLoading: bool
    var error: Option<string>
    const storage: TokenStorage

    /** The token in the state is the one in local storage. */
    predicate Synced()
      reads this, storage
    {
      token == storage.token
    }

    /** The initial state: no user, the stored token, not loading, no error. */
    constructor (storage: TokenStorage)
      ensures this.storage == storage && Synced()
      ensures user == None && token == storage.token && !isLoading && error == None
    {
      this.storage := storage;
      user := None;
      token := storage.token;
      isLoading := false;
      error := None;
    }

    /** The slice's reducer applied to one action, local storage included. */
    method Reduce(action: AuthAction)
      modifies this, storage
      ensures old(Synced()) ==> Synced()
      ensures match action
        case SignInPending(_) =>
          && isLoading && error == None
          && user == old(user) && token == old(token) && storage.token == old(storage.token)
        case SignInFulfilled(_, s) =>
          && !isLoading && token == Some(s.token) && user == Some(s.user) && storage.token == Some(s.token)
          && error == old(error)
        case SignInRejected(k, p, m) =>
          && !isLoading && error == Some(RejectionError(p, m, Fallback(k)))
          && user == old(user) && token == old(token) && storage.token == old(storage.token)
        case GetMePending =>
          && isLoading
          && error == old(error) && user == old(user) && token == old(token) && storage.token == old(storage.token)
        case GetMeFulfilled(u) =>
          && !isLoading && user == Some(u)
          && error == old(error) && token == old(token) && storage.token == old(storage.token)
        case GetMeRejected =>
          && !isLoading && token == None && storage.token == None
          && user == old(user) && error == old(error)
        case Logout =>
          && user == None && token == None && storage.token == None
          && isLoading == old(isLoading) && error == old(error)
    {
      match action
      case SignInPending(_) =>
        isLoading := true;
        error := None;
      case SignInFulfilled(_, s) =>
        isLoading := false;
        token := Some(s.token);
        user := Some(s.user);
        storage.SetItem(s.token);
      case SignInRejected(k, p, m) =>
        isLoading := false;
        error := Some(RejectionError(p, m, Fallback(k)));
      case GetMePending =>
        isLoading := true;
      case GetMeFulfilled(u) =>
        isLoading := false;
        user := Some(u);
      case GetMeRejected =>
        isLoading := false;
        token := None;
        storage.RemoveItem();
      case Logout =>
        user := None;
        token := None;
        storage.RemoveItem();
    }
  }

  /**
   * A sign-in that succeeds, then a logout: the session is adopted and
   * mirrored in storage with no error left behind, and afterwards nothing of
   * it remains in the state or in storage.
   */
  method SignInThenLogout(state: AuthState, kind: SignIn, s: Session)
    modifies state, state.storage
    ensures state.user == None && state.token == None && state.storage.token == None
    ensures !state.isLoading && state.error == None
  {
    state.Reduce(SignInPending(kind));
    state.Reduce(SignInFulfilled(kind, s));
    state.Reduce(Logout);
  }
}
