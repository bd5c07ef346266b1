/**
 * The `dreams` slice of the client store: the dream list, a loading flag and
 * the last error, updated by the pending, fulfilled and rejected results of
 * the fetch and create thunks; and the fetch thunk's normalisation of
 * whatever the list request answered.
 */
module DreamsSlice {
  import opened Wrappers
  import opened Text
  import opened ClientTypes

  /**
   * A JSON value by shape: arrays are taken to hold dreams, as the client
   * assumes; `Doc` is a single dream object; any other object is reduced to
   * its `data` member.
   */
  datatype Json =
    | Arr(items: seq<ClientDream>)
    | Doc(dream: ClientDream)
    | Obj(data: Option<Json>)
    | Str(s: string)
    | Num(n: int)
    | Bool(b: bool)
    | Null

  /** JavaScript truthiness of a JSON value. */
  predicate JsonTruthy(j: Json) {
    match j
    case Arr(_) => true
    case Doc(_) => true
    case Obj(_) => true
    case Str(s) => s != []
    case Num(n) => n != 0
    case Bool(b) => b
    case Null => false
  }

  /**
   * The fetch thunk's result: the response's `data` if that is truthy, else
   * the response itself, and then that value if it is an array and [] if it
   * is not. `None` when the response is `null`, where reading `data` throws
   * and the thunk rejects.
   */
  function NormalizeDreams(response: Json): (r: Option<seq<ClientDream>>)
    ensures r.None? <==> response.Null?
    ensures response.Arr? ==> r == Some(response.items)
    ensures response.Obj? && response.data.Some? && response.data.value.Arr? ==> r == Some(response.data.value.items)
    ensures r.Some? && r.value != [] ==>
      (response.Arr? && r.value == response.items) || (response.Obj? && response.data == Some(Arr(r.value)))
  {
    if response.Null? then None
    else
      var picked := if response.Obj? && response.data.Some? && JsonTruthy(response.data.value)
                    then response.data.value else response;
      if picked.Arr? then Some(picked.items) else Some([])
  }

  /**
   * The list the server sends, in its envelope `{success, count, data}` or
   * bare, comes out of the normalisation unchanged; an envelope without an
   * array gives the empty list.
   */
  lemma ListRoundTrip(ds: seq<ClientDream>, other: Option<Json>)
    requires other.None? || !other.value.Arr?
    ensures NormalizeDreams(Obj(Some(Arr(ds)))) == Some(ds)
    ensures NormalizeDreams(Arr(ds)) == Some(ds)
    ensures NormalizeDreams(Obj(other)) == Some([])
  {
  }

  /** What the server answers to a successful creation: the new dream in the envelope's `data`. */
  function CreatedReply(d: ClientDream): Json {
    Obj(Some(Doc(d)))
  }

  /**
   * The create thunk as written: its payload is the whole parsed response
   * body, which it declares to be a dream.
   */
  function CreatePayloadAsWritten(response: Json): (r: Json)
    ensures response.Obj? ==> r.Obj? && !r.Doc?
  {
    response
  }

  /**
   * The as-written payload of a successful creation is the envelope, not the
   * dream it carries: what the reducer puts in front of the list has none of
   * a dream's fields.
   */
  lemma EnvelopeTakenForDream(d: ClientDream)
    ensures CreatePayloadAsWritten(CreatedReply(d)) != Doc(d)
    ensures CreatePayloadAsWritten(CreatedReply(d)) == Obj(Some(Doc(d)))
  {
  }

  /**
   * The create thunk as evidently intended, unwrapping the response the way
   * the fetch thunk does: the `data` member if truthy, else the response
   * itself; `None` (the thunk rejects) when that is not a dream.
   */
  function CreatePayload(response: Json): (r: Option<ClientDream>)
    ensures forall d :: r == Some(d) <==> response == Doc(d) || response == Obj(Some(Doc(d)))
  {
    var picked := if response.Obj? && response.data.Some? && JsonTruthy(response.data.value)
                  then response.data.value else response;
    if picked.Doc? then Some(picked.dream) else None
  }

  /** The server's creation reply yields exactly the dream it carries. */
  lemma CreatedReplyUnwrapped(d: ClientDream)
    ensures CreatePayload(CreatedReply(d)) == Some(d)
  {
  }

  /** The two thunks the slice answers. */
  datatype DreamsOp = FetchOp | CreateOp

  function Fallback(op: DreamsOp): string {
    match op
    case FetchOp => "Failed to fetch dreams"
    case CreateOp => "Failed to create dream"
  }

  /** The actions the slice answers; a rejection carries the error's message. */
  datatype DreamsAction =
    | Pending(op: DreamsOp)
    | FetchFulfilled(list: seq<ClientDream>)
    | CreateFulfilled(created: ClientDream)
    | Rejected(op: DreamsOp, message: Option<string>)

  /** The error a rejection records: the message if non-empty, else the fallback. */
  function RejectionError(message: Option<string>, fallback: string): (r: string)
    ensures fallback != [] ==> r != []
    ensures Truthy(message) ==> r == message.value
    ensures !Truthy(message) ==> r == fallback
  {
    if Truthy(message) then message.value else fallback
  }

  class DreamsState {
    var dreams: seq<ClientDream>
    var isLoading: bool
    var error: Option<string>

    /** The initial state: no dreams, not loading, no error. */
    constructor ()
      ensures dreams == [] && !isLoading && error == None
    {
      dreams := [];
      isLoading := false;
      error := None;
    }

    /** The slice's reducer applied to one action. */
    method Reduce(action: DreamsAction)
      modifies this
      ensures match action
        case Pending(_) => isLoading && error == None && dreams == old(dreams)
        case FetchFulfilled(ds) => !isLoading && dreams == ds && error == old(error)
        case CreateFulfilled(d) =>
          && !isLoading && error == old(error)
          && |dreams| == |old(dreams)| + 1 && dreams[0] == d && dreams[1..] == old(dreams)
        case Rejected(op, m) =>
          !isLoading && error == Some(RejectionError(m, Fallback(op))) && dreams == old(dreams)
    {
      match action
      case Pending(_) =>
        isLoading := true;
        error := None;
      case FetchFulfilled(ds) =>
        isLoading := false;
        dreams := ds;
      case CreateFulfilled(d) =>
        isLoading := false;
        dreams := [d] + dreams;
      case Rejected(op, m) =>
        isLoading := false;
        error := Some(RejectionError(m, Fallback(op)));
    }
  }

  /**
   * A fetch of the server's list followed by a creation that the server
   * answered with dream `d`: the list is the normalised response, with `d`
   * (unwrapped from its envelope) in front.
   */
  method FetchThenCreate(state: DreamsState, response: Json, d: ClientDream)
    requires !response.Null?
    modifies state
    ensures state.dreams == [d] + NormalizeDreams(response).value
    ensures !state.isLoading && state.error == None
  {
    state.Reduce(Pending(FetchOp));
    state.Reduce(FetchFulfilled(NormalizeDreams(response).value));
    state.Reduce(Pending(CreateOp));
    CreatedReplyUnwrapped(d);
    var created := CreatePayload(CreatedReply(d));
    state.Reduce(CreateFulfilled(created.value));
  }
}
