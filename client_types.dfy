/**
 * What the browser client holds: users and dreams as they arrive in JSON,
 * the `token` entry of local storage, and the outcome of a request.
 */
module ClientTypes {
  import opened Wrappers

  /** Where the pages send a signed-in user once they are done. */
  const DashboardPath := "/dashboard"

  /** A user as the client receives it. */
  datatype ClientUser = ClientUser(id: string, email: string, name: string)

  /** A dream as the client receives it; the mood is whatever string the JSON carried. */
  datatype ClientDream = ClientDream(
    id: string,
    user: string,
    title: string,
    content: string,
    date: string,
    mood: string,
    tags: seq<string>,
    isLucid: bool,
    isFavorite: bool)

  /** The `data` of a successful login or registration. */
  datatype Session = Session(token: string, user: ClientUser)

  /** A request made through the API helper: it threw, or it answered with an envelope. */
  datatype Fetch<T> = Threw | Answered(success: bool, data: Option<T>)

  /** How an awaited, unwrapped thunk settled; `reason` is the rejection value, if any. */
  datatype Settled = Fulfilled | Rejected(reason: Option<string>)

  /** The browser's local storage, reduced to its one `token` entry. */
  class TokenStorage {
    var token: Option<string>

    constructor (initial: Option<string>)
      ensures token == initial
    {
      token := initial;
    }

    /** `localStorage.setItem("token", t)`. */
    method SetItem(t: string)
      modifies this
      ensures token == Some(t)
    {
      token := Some(t);
    }

    /** `localStorage.removeItem("token")`. */
    method RemoveItem()
      modifies this
      ensures token == None
    {
      token := None;
    }
  }
}
