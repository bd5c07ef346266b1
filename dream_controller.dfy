/**
 * The dream handlers: list, get, create, update, delete and toggle-favourite
 * over the dream collection, each on behalf of an already authenticated
 * caller and each scoped to the caller's own dreams.
 */
module DreamController {
  import opened Wrappers
  import opened Text
  import opened DreamSchema

  /** A JSON value in a request body, by shape. */
  datatype BodyValue =
    | Str(s: string)
    | Time(t: int)
    | Flag(b: bool)
    | StrList(items: seq<string>)
    | Ref(n: nat)

  /** The fields `createDream` reads from its body; `None` is an absent field. */
  datatype CreateBody = CreateBody(
    title: Option<string>,
    content: Option<string>,
    date: Option<int>,
    mood: Option<string>,
    tags: Option<seq<string>>,
    isLucid: Option<bool>)

  /** A handler's answer: its status and JSON envelope. */
  datatype Reply =
    | Listed(count: nat, dreams: seq<Dream>)
    | Found(dream: Dream)
    | Created(dream: Dream)
    | Updated(dream: Dream)
    | Deleted
    | Toggled(dream: Dream)
    | Failed(status: nat, error: string)
  {
    function Status(): nat {
      match this
      case Created(_) => 201
      case Failed(s, _) => s
      case _ => 200
    }

    function Message(): string {
      match this
      case Created(_) => "Dream created successfully"
      case Updated(_) => "Dream updated successfully"
      case Deleted => "Dream deleted successfully"
      case Toggled(d) => if d.isFavorite then "Added to favorites" else "Removed from favorites"
      case _ => ""
    }
  }

  const DreamNotFound := Failed(404, "Dream not found")
  const MissingTitleOrContent := Failed(400, "Please provide title and content")
  const UpdateServerError := Failed(500, "Server error while updating dream")

  /** The messages of a list of violations. */
  function Messages(vs: seq<Violation>): (r: seq<string>)
    ensures |r| == |vs|
    ensures forall i :: 0 <= i < |vs| ==> r[i] == vs[i].Message()
  {
    if vs == [] then [] else [vs[0].Message()] + Messages(vs[1..])
  }

  /** The 400 answer to a schema violation: every message, joined by ", ". */
  function ValidationFailed(vs: seq<Violation>): Reply {
    Failed(400, Join(Messages(vs), ", "))
  }

  // ---------------------------------------------------------------------
  // Queries over the collection
  // ---------------------------------------------------------------------

  /** The dreams of `owner`, in collection order. */
  function Owned(ds: seq<Dream>, owner: UserId): (r: seq<Dream>)
    ensures |r| <= |ds|
    ensures forall d :: d in r <==> d in ds && d.user == owner
  {
    if ds == [] then []
    else (if ds[0].user == owner then [ds[0]] else []) + Owned(ds[1..], owner)
  }

  /** Dates never increase along `ds`: newest first. */
  predicate NewestFirst(ds: seq<Dream>) {
    forall i, j :: 0 <= i < j < |ds| ==> ds[i].date >= ds[j].date
  }

  /** A dream at least as new as every dream of a newest-first list can go in front of it. */
  lemma {:induction false} ConsNewestFirst(h: Dream, rest: seq<Dream>)
    requires NewestFirst(rest)
    requires forall x :: x in rest ==> h.date >= x.date
    ensures NewestFirst([h] + rest)
  {
    var r := [h] + rest;
    forall i, j | 0 <= i < j < |r| ensures r[i].date >= r[j].date {
      assert r[j] == rest[j - 1];
      if i > 0 {
        assert r[i] == rest[i - 1];
      }
    }
  }

  /** Every element of `rest`, a rearrangement of `tail` plus `d`, is no newer than a bound both respect. */
  lemma {:induction false} BoundSurvives(h: Dream, d: Dream, tail: seq<Dream>, rest: seq<Dream>)
    requires multiset(rest) == multiset(tail) + multiset{d}
    requires h.date >= d.date
    requires forall x :: x in tail ==> h.date >= x.date
    ensures forall x :: x in rest ==> h.date >= x.date
  {
    forall x | x in rest ensures h.date >= x.date {
      assert x in multiset(rest);
      assert x == d || x in multiset(tail);
    }
  }

  /** The tail of a newest-first list is newest-first, and its head is at least as new as all of it. */
  lemma {:induction false} TailNewestFirst(ds: seq<Dream>)
    requires ds != [] && NewestFirst(ds)
    ensures NewestFirst(ds[1..])
    ensures forall x :: x in ds[1..] ==> ds[0].date >= x.date
  {
    var t := ds[1..];
    forall i, j | 0 <= i < j < |t| ensures t[i].date >= t[j].date {
      assert t[i] == ds[i + 1] && t[j] == ds[j + 1];
    }
    forall x | x in t ensures ds[0].date >= x.date {
      var k :| 0 <= k < |t| && t[k] == x;
      assert ds[k + 1] == x;
    }
  }

  /** `d` placed into a list before the first dream that is not newer. */
  function Insert(d: Dream, ds: seq<Dream>): seq<Dream> {
    if ds == [] || d.date >= ds[0].date then [d] + ds
    else [ds[0]] + Insert(d, ds[1..])
  }

  /** Inserting adds `d` and loses nothing. */
  lemma {:induction false} InsertPermutes(d: Dream, ds: seq<Dream>)
    ensures multiset(Insert(d, ds)) == multiset(ds) + multiset{d}
  {
    if ds != [] && d.date < ds[0].date {
      InsertPermutes(d, ds[1..]);
      assert ds == [ds[0]] + ds[1..];
    }
  }

  /** Inserting into a newest-first list keeps it newest-first. */
  lemma {:induction false} InsertKeepsOrder(d: Dream, ds: seq<Dream>)
    requires NewestFirst(ds)
    ensures NewestFirst(Insert(d, ds))
  {
    if ds == [] || d.date >= ds[0].date {
      ConsNewestFirst(d, ds);
    } else {
      TailNewestFirst(ds);
      InsertKeepsOrder(d, ds[1..]);
      InsertPermutes(d, ds[1..]);
      BoundSurvives(ds[0], d, ds[1..], Insert(d, ds[1..]));
      ConsNewestFirst(ds[0], Insert(d, ds[1..]));
    }
  }

  /** The `sort({date: -1})` of the query: a newest-first arrangement of `ds`. */
  function SortNewestFirst(ds: seq<Dream>): (r: seq<Dream>)
    ensures NewestFirst(r)
    ensures multiset(r) == multiset(ds)
  {
    if ds == [] then []
    else
      var rest := SortNewestFirst(ds[1..]);
      InsertPermutes(ds[0], rest);
      InsertKeepsOrder(ds[0], rest);
      assert ds == [ds[0]] + ds[1..];
      Insert(ds[0], rest)
  }

  /** The position of the dream with this id and owner (the `findOne({_id, user})` query). */
  function FindOwned(ds: seq<Dream>, id: DreamId, caller: UserId): (r: Option<nat>)
    ensures r.Some? ==> r.value < |ds| && ds[r.value].id == id && ds[r.value].user == caller
    ensures r.None? <==> forall i :: 0 <= i < |ds| ==> !(ds[i].id == id && ds[i].user == caller)
  {
    if ds == [] then None
    else if ds[0].id == id && ds[0].user == caller then Some(0)
    else
      match FindOwned(ds[1..], id, caller)
      case Some(k) => Some(k + 1)
      case None =>
        assert forall i :: 1 <= i < |ds| ==> ds[i] == ds[1..][i - 1];
        None
  }

  /** The dream with this id and owner, if there is one. */
  function LookupOwned(ds: seq<Dream>, id: DreamId, caller: UserId): Option<Dream> {
    match FindOwned(ds, id, caller)
    case Some(k) => Some(ds[k])
    case None => None
  }

  /** The first dream with this id. */
  function LookupById(ds: seq<Dream>, id: DreamId): Option<Dream> {
    if ds == [] then None
    else if ds[0].id == id then Some(ds[0])
    else LookupById(ds[1..], id)
  }

  /** The owner-scoped lookup checks the first dream, then looks through the rest. */
  lemma LookupOwnedStep(ds: seq<Dream>, id: DreamId, caller: UserId)
    requires ds != []
    ensures LookupOwned(ds, id, caller) ==
      if ds[0].id == id && ds[0].user == caller then Some(ds[0]) else LookupOwned(ds[1..], id, caller)
  {
    if !(ds[0].id == id && ds[0].user == caller) {
      match FindOwned(ds[1..], id, caller) {
        case Some(k) => assert ds[k + 1] == ds[1..][k];
        case None =>
      }
    }
  }

  /** Looking a dream up by id and owner is looking it up by id among the owner's dreams alone. */
  lemma {:induction false} LookupThroughOwned(ds: seq<Dream>, id: DreamId, caller: UserId)
    ensures LookupOwned(ds, id, caller) == LookupById(Owned(ds, caller), id)
  {
    if ds != [] {
      LookupOwnedStep(ds, id, caller);
      LookupThroughOwned(ds[1..], id, caller);
      var rest := Owned(ds[1..], caller);
      if ds[0].user == caller {
        assert Owned(ds, caller) == [ds[0]] + rest;
        assert ([ds[0]] + rest)[1..] == rest;
      } else {
        assert Owned(ds, caller) == rest;
      }
    }
  }

  /**
   * What an owner-scoped lookup answers depends only on the caller's own
   * dreams: other users' dreams, whatever their ids, cannot change it, so a
   * foreign id and a missing id are indistinguishable.
   */
  lemma LookupSeesOnlyOwn(s1: seq<Dream>, s2: seq<Dream>, id: DreamId, caller: UserId)
    requires Owned(s1, caller) == Owned(s2, caller)
    ensures LookupOwned(s1, id, caller) == LookupOwned(s2, id, caller)
  {
    LookupThroughOwned(s1, id, caller);
    LookupThroughOwned(s2, id, caller);
  }

  /** A dream of another user is never found by an owner-scoped lookup. */
  lemma ForeignDreamNotFound(ds: seq<Dream>, id: DreamId, caller: UserId)
    requires forall i :: 0 <= i < |ds| && ds[i].id == id ==> ds[i].user != caller
    ensures LookupOwned(ds, id, caller) == None
  {
  }

  // ---------------------------------------------------------------------
  // Create: the controller's defaults before the schema's
  // ---------------------------------------------------------------------

  /** The document `createDream` hands to the store: `date || now`, `mood || 'neutral'`, `tags || []`, `isLucid || false`. */
  function CreateDraft(caller: UserId, body: CreateBody, now: int): Draft {
    Draft(
      Some(caller),
      body.title,
      body.content,
      Some(body.date.GetOr(now)),
      Some(if Truthy(body.mood) then body.mood.value else "neutral"),
      Some(body.tags.GetOr([])),
      Some(body.isLucid.GetOr(false)),
      None)
  }

  /**
   * A created dream belongs to the caller, is not a favourite, and takes
   * mood neutral, no tags, not lucid and date now for each omitted field.
   */
  lemma CreateAppliesDefaults(caller: UserId, body: CreateBody, id: DreamId, now: int)
    requires Build(CreateDraft(caller, body, now), id, now).Ok?
    ensures var d := Build(CreateDraft(caller, body, now), id, now).value;
      && d.user == caller && d.id == id && !d.isFavorite
      && (!Truthy(body.mood) ==> d.mood == Neutral)
      && (body.tags.None? ==> d.tags == [])
      && (body.isLucid.None? ==> !d.isLucid)
      && (body.date.None? ==> d.date == now)
      && d.title == Trim(body.title.value) && d.content == body.content.value
  {
    var d := Build(CreateDraft(caller, body, now), id, now).value;
    if !Truthy(body.mood) {
      assert MoodName(d.mood) == "neutral";
    }
  }

  // ---------------------------------------------------------------------
  // Update: the allow-list and the update validators
  // ---------------------------------------------------------------------

  /** The fields `updateDream` may change. */
  const AllowedUpdates: seq<string> := ["title", "content", "date", "mood", "tags", "isLucid", "isFavorite"]

  /**
   * The `for` loop of `updateDream`: copy each allow-listed key that the
   * body defines, and nothing else.
   */
  method CollectUpdates(body: map<string, BodyValue>) returns (updates: map<string, BodyValue>)
    ensures forall k :: k in updates <==> k in body && k in AllowedUpdates
    ensures forall k :: k in updates ==> updates[k] == body[k]
  {
    updates := map[];
    for i := 0 to |AllowedUpdates|
      invariant forall k :: k in updates <==> k in body && k in AllowedUpdates[..i]
      invariant forall k :: k in updates ==> updates[k] == body[k]
    {
      var key := AllowedUpdates[i];
      if key in body {
        updates := updates[key := body[key]];
      }
    }
    assert AllowedUpdates[..|AllowedUpdates|] == AllowedUpdates;
  }

  /** Each present key carries a value of its field's type. */
  predicate WellShaped(u: map<string, BodyValue>) {
    && ("title" in u ==> u["title"].Str?)
    && ("content" in u ==> u["content"].Str?)
    && ("date" in u ==> u["date"].Time?)
    && ("mood" in u ==> u["mood"].Str?)
    && ("tags" in u ==> u["tags"].StrList?)
    && ("isLucid" in u ==> u["isLucid"].Flag?)
    && ("isFavorite" in u ==> u["isFavorite"].Flag?)
  }

  /** Why an update was refused. */
  datatype UpdateFailure = Invalid(violations: seq<Violation>) | CastFailure

  /**
   * The update validators: only the paths being set are checked, the title
   * after its `trim` setter, in allow-list order.
   */
  function UpdateChecks(u: map<string, BodyValue>): seq<Option<Violation>>
    requires WellShaped(u)
  {
    [ if "title" in u then TitleCheck(Some(Trim(u["title"].s))) else None,
      if "content" in u then ContentCheck(Some(u["content"].s)) else None,
      if "mood" in u then MoodCheck(u["mood"].s) else None,
      if "tags" in u then TagsCheck(u["tags"].items) else None ]
  }

  /**
   * `findByIdAndUpdate(id, updates, {runValidators: true})` on one dream:
   * the updated document, or why it was refused.
   */
  function ApplyUpdates(d: Dream, u: map<string, BodyValue>): (r: Result<Dream, UpdateFailure>)
    ensures r.Err? && r.error.Invalid? ==> r.error.violations != []
    ensures !WellShaped(u) <==> r == Err(CastFailure)
    ensures r.Ok? ==> r.value.id == d.id && r.value.user == d.user
    ensures r.Ok? ==> r.value.title == (if "title" in u then Trim(u["title"].s) else d.title)
    ensures r.Ok? ==> r.value.content == (if "content" in u then u["content"].s else d.content)
    ensures r.Ok? ==> r.value.date == (if "date" in u then u["date"].t else d.date)
    ensures r.Ok? ==> MoodName(r.value.mood) == (if "mood" in u then u["mood"].s else MoodName(d.mood))
    ensures r.Ok? ==> r.value.tags == (if "tags" in u then u["tags"].items else d.tags)
    ensures r.Ok? ==> r.value.isLucid == (if "isLucid" in u then u["isLucid"].b else d.isLucid)
    ensures r.Ok? ==> r.value.isFavorite == (if "isFavorite" in u then u["isFavorite"].b else d.isFavorite)
    ensures r.Ok? && Conforms(d) ==> Conforms(r.value)
  {
    if !WellShaped(u) then Err(CastFailure)
    else
      var checks := UpdateChecks(u);
      var vs := Failures(checks);
      if vs != [] then Err(Invalid(vs))
      else
        assert checks[0].None? && checks[1].None? && checks[2].None? && checks[3].None?;
        Ok(Dream(
          d.id,
          d.user,
          if "title" in u then Trim(u["title"].s) else d.title,
          if "content" in u then u["content"].s else d.content,
          if "date" in u then u["date"].t else d.date,
          if "mood" in u then ParseMood(u["mood"].s).value else d.mood,
          if "tags" in u then u["tags"].items else d.tags,
          if "isLucid" in u then u["isLucid"].b else d.isLucid,
          if "isFavorite" in u then u["isFavorite"].b else d.isFavorite))
  }

  /**
   * An update is accepted exactly when every field that was sent meets its
   * rule: a title non-blank and at most 100 characters after trimming,
   * content non-empty and at most 5000 characters, a mood of the
   * enumeration and at most 10 tags. Absent fields are not checked.
   */
  lemma {:induction false} UpdateAccepted(d: Dream, u: map<string, BodyValue>)
    requires WellShaped(u)
    ensures ApplyUpdates(d, u).Ok? <==>
      && ("title" in u ==> Trim(u["title"].s) != [] && |Trim(u["title"].s)| <= TitleMaxLength)
      && ("content" in u ==> u["content"].s != [] && |u["content"].s| <= ContentMaxLength)
      && ("mood" in u ==> ParseMood(u["mood"].s).Some?)
      && ("tags" in u ==> |u["tags"].items| <= MaxTags)
  {
    var c := UpdateChecks(u);
    assert c[0].None? <==> ("title" in u ==> Trim(u["title"].s) != [] && |Trim(u["title"].s)| <= TitleMaxLength);
    assert c[1].None? <==> ("content" in u ==> u["content"].s != [] && |u["content"].s| <= ContentMaxLength);
    assert c[2].None? <==> ("mood" in u ==> ParseMood(u["mood"].s).Some?);
    assert c[3].None? <==> ("tags" in u ==> |u["tags"].items| <= MaxTags);
  }

  /** Whether the update was refused with violation `v` among those reported. */
  predicate Reported(r: Result<Dream, UpdateFailure>, v: Violation) {
    r.Err? && r.error.Invalid? && v in r.error.violations
  }

  /** A violation is reported exactly when one of the update checks produced it. */
  lemma {:induction false} InUpdateReport(d: Dream, u: map<string, BodyValue>, v: Violation)
    requires WellShaped(u)
    ensures Reported(ApplyUpdates(d, u), v) <==>
      || ("title" in u && TitleCheck(Some(Trim(u["title"].s))) == Some(v))
      || ("content" in u && ContentCheck(Some(u["content"].s)) == Some(v))
      || ("mood" in u && MoodCheck(u["mood"].s) == Some(v))
      || ("tags" in u && TagsCheck(u["tags"].items) == Some(v))
  {
    var c := UpdateChecks(u);
    assert Some(v) in c <==> Some(v) == c[0] || Some(v) == c[1] || Some(v) == c[2] || Some(v) == c[3];
  }

  /**
   * Each rule broken by a field that was sent contributes its own entry to
   * the refusal, and nothing else does: an absent field is never checked,
   * and the owner is never reported.
   */
  lemma {:induction false} UpdateReportsEach(d: Dream, u: map<string, BodyValue>)
    requires WellShaped(u)
    ensures !Reported(ApplyUpdates(d, u), OwnerMissing)
    ensures Reported(ApplyUpdates(d, u), TitleMissing) <==> "title" in u && AllSpace(u["title"].s)
    ensures Reported(ApplyUpdates(d, u), TitleTooLong) <==> "title" in u && |Trim(u["title"].s)| > TitleMaxLength
    ensures Reported(ApplyUpdates(d, u), ContentMissing) <==> "content" in u && u["content"].s == []
    ensures Reported(ApplyUpdates(d, u), ContentTooLong) <==> "content" in u && |u["content"].s| > ContentMaxLength
    ensures Reported(ApplyUpdates(d, u), TooManyTags) <==> "tags" in u && |u["tags"].items| > MaxTags
    ensures "mood" in u ==>
      (Reported(ApplyUpdates(d, u), MoodNotInEnum(u["mood"].s)) <==> ParseMood(u["mood"].s).None?)
  {
    InUpdateReport(d, u, OwnerMissing);
    InUpdateReport(d, u, TitleMissing);
    if "title" in u {
      TitleMissingWhenBlank(Some(u["title"].s));
    }
    InUpdateReport(d, u, TitleTooLong);
    InUpdateReport(d, u, ContentMissing);
    InUpdateReport(d, u, ContentTooLong);
    InUpdateReport(d, u, TooManyTags);
    if "mood" in u {
      InUpdateReport(d, u, MoodNotInEnum(u["mood"].s));
    }
  }

  /** The dream with its favourite flag negated and every other field kept. */
  function FlipFavorite(d: Dream): (r: Dream)
    ensures r.isFavorite == !d.isFavorite
    ensures r.(isFavorite := d.isFavorite) == d
  {
    d.(isFavorite := !d.isFavorite)
  }

  /** Toggling is an involution. */
  lemma FlipFavoriteTwice(d: Dream)
    ensures FlipFavorite(FlipFavorite(d)) == d
  {
  }

  // ---------------------------------------------------------------------
  // The collection and its handlers
  // ---------------------------------------------------------------------

  /** No two dreams share an id. */
  ghost predicate UniqueIds(ds: seq<Dream>) {
    forall i, j :: 0 <= i < j < |ds| ==> ds[i].id != ds[j].id
  }

  /**
   * Removing position `i` keeps every other dream, in order, and, ids being
   * unique, leaves no copy of the removed one.
   */
  lemma RemoveAt(ds: seq<Dream>, i: nat)
    requires i < |ds| && UniqueIds(ds)
    ensures var r := ds[..i] + ds[i + 1..];
      && |r| == |ds| - 1
      && (forall j :: 0 <= j < |r| ==> r[j] == (if j < i then ds[j] else ds[j + 1]))
      && UniqueIds(r)
      && ds[i] !in r
      && (forall x :: x in ds && x != ds[i] ==> x in r)
  {
    var r := ds[..i] + ds[i + 1..];
    assert forall j :: 0 <= j < |r| ==> r[j] == (if j < i then ds[j] else ds[j + 1]);
    forall x | x in ds && x != ds[i] ensures x in r {
      var j :| 0 <= j < |ds| && ds[j] == x;
      if j < i { assert r[j] == x; } else { assert r[j - 1] == x; }
    }
  }

  /** The dream collection, with a supply of fresh ids. */
  class DreamStore {
    var dreams: seq<Dream>
    var nextId: DreamId

    /** Every stored dream passed validation, ids are unique, and `nextId` is fresh. */
    ghost predicate Valid()
      reads this
    {
      && (forall i :: 0 <= i < |dreams| ==> dreams[i].id < nextId && Conforms(dreams[i]))
      && UniqueIds(dreams)
    }

    constructor ()
      ensures Valid() && dreams == [] && nextId == 0
    {
      dreams := [];
      nextId := 0;
    }

    /** `getDreams`: the caller's dreams, newest first, with their count. */
    method GetDreams(caller: UserId) returns (reply: Reply)
      ensures reply.Listed? && reply.count == |reply.dreams|
      ensures multiset(reply.dreams) == multiset(Owned(dreams, caller))
      ensures forall d :: d in reply.dreams <==> d in dreams && d.user == caller
      ensures NewestFirst(reply.dreams)
    {
      var mine := SortNewestFirst(Owned(dreams, caller));
      assert forall d :: d in mine <==> d in multiset(mine);
      reply := Listed(|mine|, mine);
    }

    /** `getDream`: the dream with this id if the caller owns it, else 404. */
    method GetDream(caller: UserId, id: DreamId) returns (reply: Reply)
      ensures LookupOwned(dreams, id, caller).None? ==> reply == DreamNotFound
      ensures LookupOwned(dreams, id, caller).Some? ==> reply == Found(LookupOwned(dreams, id, caller).value)
      ensures reply.Found? ==> reply.dream in dreams && reply.dream.id == id && reply.dream.user == caller
    {
      var k := FindOwned(dreams, id, caller);
      if k.None? {
        reply := DreamNotFound;
      } else {
        reply := Found(dreams[k.value]);
      }
    }

    /**
     * `createDream`: 400 when title or content is missing or empty; else the
     * draft with the controller's defaults goes to the store, which either
     * saves it as one new dream of the caller or reports every violation.
     */
    method CreateDream(caller: UserId, body: CreateBody, now: int) returns (reply: Reply)
      requires Valid()
      modifies this
      ensures Valid()
      ensures !Truthy(body.title) || !Truthy(body.content) ==>
        reply == MissingTitleOrContent && dreams == old(dreams) && nextId == old(nextId)
      ensures Truthy(body.title) && Truthy(body.content) ==>
        match Build(CreateDraft(caller, body, now), old(nextId), now)
        case Err(vs) => reply == ValidationFailed(vs) && dreams == old(dreams) && nextId == old(nextId)
        case Ok(d) => reply == Created(d) && dreams == old(dreams) + [d] && nextId == old(nextId) + 1
      ensures reply.Created? ==> reply.dream.user == caller && |dreams| == |old(dreams)| + 1
    {
      if !Truthy(body.title) || !Truthy(body.content) {
        reply := MissingTitleOrContent;
        return;
      }
      var built := Build(CreateDraft(caller, body, now), nextId, now);
      match built
      case Err(vs) =>
        reply := ValidationFailed(vs);
      case Ok(d) =>
        dreams := dreams + [d];
        nextId := nextId + 1;
        reply := Created(d);
    }

    /**
     * `updateDream`: 404 unless the caller owns the dream; otherwise only the
     * allow-listed fields present in the body are applied, after the update
     * validators, to that one dream.
     */
    method UpdateDream(caller: UserId, id: DreamId, body: map<string, BodyValue>) returns (reply: Reply)
      requires Valid()
      modifies this
      ensures Valid() && nextId == old(nextId)
      ensures FindOwned(old(dreams), id, caller).None? ==> reply == DreamNotFound && dreams == old(dreams)
      ensures FindOwned(old(dreams), id, caller).Some? ==>
        var k := FindOwned(old(dreams), id, caller).value;
        var allowed := map key | key in body && key in AllowedUpdates :: body[key];
        match ApplyUpdates(old(dreams)[k], allowed)
        case Err(Invalid(vs)) => reply == ValidationFailed(vs) && dreams == old(dreams)
        case Err(CastFailure) => reply == UpdateServerError && dreams == old(dreams)
        case Ok(d) => reply == Updated(d) && dreams == old(dreams)[k := d]
      ensures reply.Updated? ==> reply.dream.user == caller && reply.dream.id == id
    {
      var k := FindOwned(dreams, id, caller);
      if k.None? {
        reply := DreamNotFound;
        return;
      }
      var updates := CollectUpdates(body);
      assert updates == map key | key in body && key in AllowedUpdates :: body[key];
      match ApplyUpdates(dreams[k.value], updates)
      case Err(Invalid(vs)) =>
        reply := ValidationFailed(vs);
      case Err(CastFailure) =>
        reply := UpdateServerError;
      case Ok(d) =>
        dreams := dreams[k.value := d];
        reply := Updated(d);
    }

    /** `deleteDream`: 404 unless the caller owns the dream; otherwise exactly that dream is removed. */
    method DeleteDream(caller: UserId, id: DreamId) returns (reply: Reply)
      requires Valid()
      modifies this
      ensures Valid() && nextId == old(nextId)
      ensures FindOwned(old(dreams), id, caller).None? ==> reply == DreamNotFound && dreams == old(dreams)
      ensures FindOwned(old(dreams), id, caller).Some? ==>
        var k := FindOwned(old(dreams), id, caller).value;
        reply == Deleted && dreams == old(dreams)[..k] + old(dreams)[k + 1..]
        && old(dreams)[k] !in dreams
        && forall x :: x in old(dreams) && x != old(dreams)[k] ==> x in dreams
    {
      var k := FindOwned(dreams, id, caller);
      if k.None? {
        reply := DreamNotFound;
        return;
      }
      RemoveAt(dreams, k.value);
      dreams := dreams[..k.value] + dreams[k.value + 1..];
      reply := Deleted;
    }

    /** `toggleFavorite`: 404 unless the caller owns the dream; otherwise that dream's favourite flag is negated. */
    method ToggleFavorite(caller: UserId, id: DreamId) returns (reply: Reply)
      requires Valid()
      modifies this
      ensures Valid() && nextId == old(nextId)
      ensures FindOwned(old(dreams), id, caller).None? ==> reply == DreamNotFound && dreams == old(dreams)
      ensures FindOwned(old(dreams), id, caller).Some? ==>
        var k := FindOwned(old(dreams), id, caller).value;
        dreams == old(dreams)[k := FlipFavorite(old(dreams)[k])] && reply == Toggled(dreams[k])
      ensures reply.Toggled? ==> (reply.Message() == "Added to favorites" <==> reply.dream.isFavorite)
    {
      var k := FindOwned(dreams, id, caller);
      if k.None? {
        reply := DreamNotFound;
        return;
      }
      var d := FlipFavorite(dreams[k.value]);
      dreams := dreams[k.value := d];
      reply := Toggled(d);
    }
  }

  /** Toggling the same dream twice restores the collection. */
  method ToggleTwice(store: DreamStore, caller: UserId, id: DreamId)
    requires store.Valid()
    modifies store
    ensures store.Valid() && store.dreams == old(store.dreams)
  {
    var first := store.ToggleFavorite(caller, id);
    var second := store.ToggleFavorite(caller, id);
  }
}
