/**
 * The dream schema: the shape of a stored dream, the field rules the
 * document store enforces (required, trim, maxlength, enum, the tag-count
 * validator) and the defaults it fills in for absent fields.
 */
module DreamSchema {
  import opened Wrappers
  import opened Text

  type UserId = nat
  type DreamId = nat

  const TitleMaxLength: nat := 100
  const ContentMaxLength: nat := 5000
  const MaxTags: nat := 10

  /** A broken field rule; `Message` is what the store reports for it. */
  datatype Violation =
    | OwnerMissing
    | TitleMissing
    | TitleTooLong
    | ContentMissing
    | ContentTooLong
    | MoodNotInEnum(value: string)
    | TooManyTags
  {
    function Message(): string {
      match this
      case OwnerMissing => "Path `user` is required."
      case TitleMissing => "Title is required"
      case TitleTooLong => "Title cannot exceed 100 characters"
      case ContentMissing => "Content is required"
      case ContentTooLong => "Content cannot exceed 5000 characters"
      case MoodNotInEnum(v) => "`" + v + "` is not a valid enum value for path `mood`."
      case TooManyTags => "Cannot have more than 10 tags"
    }
  }

  datatype Mood = Happy | Sad | Scared | Confused | Excited | Neutral

  /** The name a mood is stored and transported under. */
  function MoodName(m: Mood): string {
    match m
    case Happy => "happy"
    case Sad => "sad"
    case Scared => "scared"
    case Confused => "confused"
    case Excited => "excited"
    case Neutral => "neutral"
  }

  /** The mood named `s`, if `s` is one of the six names of the enumeration. */
  function ParseMood(s: string): (r: Option<Mood>)
    ensures r.Some? ==> MoodName(r.value) == s
    ensures r.None? ==> forall m: Mood :: MoodName(m) != s
  {
    if s == "happy" then Some(Happy)
    else if s == "sad" then Some(Sad)
    else if s == "scared" then Some(Scared)
    else if s == "confused" then Some(Confused)
    else if s == "excited" then Some(Excited)
    else if s == "neutral" then Some(Neutral)
    else None
  }

  /** A stored dream (the automatic creation and update timestamps are not modelled). */
  datatype Dream = Dream(
    id: DreamId,
    user: UserId,
    title: string,
    content: string,
    date: int,
    mood: Mood,
    tags: seq<string>,
    isLucid: bool,
    isFavorite: bool)

  /** A document as handed to the store, before defaults and validation; `None` is an absent path. */
  datatype Draft = Draft(
    user: Option<UserId>,
    title: Option<string>,
    content: Option<string>,
    date: Option<int>,
    mood: Option<string>,
    tags: Option<seq<string>>,
    isLucid: Option<bool>,
    isFavorite: Option<bool>)

  /** What every stored dream satisfies once it has passed validation. */
  predicate Conforms(d: Dream) {
    && d.title != [] && |d.title| <= TitleMaxLength && IsTrimmed(d.title)
    && d.content != [] && |d.content| <= ContentMaxLength
    && |d.tags| <= MaxTags
  }

  /** The `user` path: required. */
  function OwnerCheck(user: Option<UserId>): Option<Violation> {
    if user.None? then Some(OwnerMissing) else None
  }

  /** The `title` path, on the value the `trim` setter produced: required, then at most 100 characters. */
  function TitleCheck(title: Option<string>): Option<Violation> {
    if title.None? || title.value == [] then Some(TitleMissing)
    else if |title.value| > TitleMaxLength then Some(TitleTooLong)
    else None
  }

  /** The `content` path (not trimmed): required, then at most 5000 characters. */
  function ContentCheck(content: Option<string>): Option<Violation> {
    if content.None? || content.value == [] then Some(ContentMissing)
    else if |content.value| > ContentMaxLength then Some(ContentTooLong)
    else None
  }

  /** The `mood` path: one of the six names. */
  function MoodCheck(mood: string): Option<Violation> {
    if ParseMood(mood).None? then Some(MoodNotInEnum(mood)) else None
  }

  /** The `tags` path: the custom validator `tags.length <= 10`. */
  function TagsCheck(tags: seq<string>): Option<Violation> {
    if |tags| <= MaxTags then None else Some(TooManyTags)
  }

  /** The `trim` setter on the title path. */
  function TrimmedTitle(title: Option<string>): Option<string> {
    if title.Some? then Some(Trim(title.value)) else None
  }

  /** The violations of the checks that failed, in order. */
  function Failures(checks: seq<Option<Violation>>): (r: seq<Violation>)
    ensures |r| <= |checks|
    ensures r == [] <==> forall i :: 0 <= i < |checks| ==> checks[i].None?
    ensures forall v :: v in r <==> Some(v) in checks
  {
    if checks == [] then []
    else
      var rest := Failures(checks[1..]);
      assert checks == [checks[0]] + checks[1..];
      if checks[0].Some? then [checks[0].value] + rest else rest
  }

  /** The result of each path's check on a draft, in the schema's path order. */
  function Checks(d: Draft): seq<Option<Violation>> {
    [ OwnerCheck(d.user),
      TitleCheck(TrimmedTitle(d.title)),
      ContentCheck(d.content),
      MoodCheck(d.mood.GetOr("neutral")),
      TagsCheck(d.tags.GetOr([])) ]
  }

  /**
   * What the store reports for a draft: one violation per failing path, in
   * the schema's path order (user, title, content, mood, tags). Mood and tags
   * are checked on their defaults when absent.
   */
  function Validate(d: Draft): seq<Violation> {
    Failures(Checks(d))
  }

  /**
   * The document the store saves for a draft: the title trimmed, absent
   * paths given their defaults (date now, mood neutral, no tags, not lucid,
   * not favourite); or every violation when some rule fails.
   */
  function Build(d: Draft, id: DreamId, now: int): (r: Result<Dream, seq<Violation>>)
    ensures r.Ok? <==> Validate(d) == []
    ensures r.Err? ==> r.error == Validate(d) && r.error != []
    ensures r.Ok? ==> Conforms(r.value) && r.value.id == id && d.user == Some(r.value.user)
    ensures r.Ok? ==> r.value.title == Trim(d.title.value) && r.value.content == d.content.value
    ensures r.Ok? ==> r.value.date == (if d.date.Some? then d.date.value else now)
    ensures r.Ok? ==> MoodName(r.value.mood) == (if d.mood.Some? then d.mood.value else "neutral")
    ensures r.Ok? ==> r.value.tags == (if d.tags.Some? then d.tags.value else [])
    ensures r.Ok? ==> r.value.isLucid == (d.isLucid == Some(true))
    ensures r.Ok? ==> r.value.isFavorite == (d.isFavorite == Some(true))
  {
    if Validate(d) != [] then Err(Validate(d))
    else
      ValidDraftPassesEachCheck(d);
      Ok(Dream(id, d.user.value, Trim(d.title.value), d.content.value, d.date.GetOr(now),
               ParseMood(d.mood.GetOr("neutral")).value, d.tags.GetOr([]),
               d.isLucid.GetOr(false), d.isFavorite.GetOr(false)))
  }

  /** A draft with an empty report passes every path's check. */
  lemma ValidDraftPassesEachCheck(d: Draft)
    requires Validate(d) == []
    ensures OwnerCheck(d.user) == None
    ensures TitleCheck(TrimmedTitle(d.title)) == None
    ensures ContentCheck(d.content) == None
    ensures MoodCheck(d.mood.GetOr("neutral")) == None
    ensures TagsCheck(d.tags.GetOr([])) == None
  {
    var c := Checks(d);
    assert c[0].None? && c[1].None? && c[2].None? && c[3].None? && c[4].None?;
  }

  /** A violation is in the report exactly when one of the path checks produced it. */
  lemma {:induction false} InReport(d: Draft, v: Violation)
    ensures v in Validate(d) <==>
      || OwnerCheck(d.user) == Some(v)
      || TitleCheck(TrimmedTitle(d.title)) == Some(v)
      || ContentCheck(d.content) == Some(v)
      || MoodCheck(d.mood.GetOr("neutral")) == Some(v)
      || TagsCheck(d.tags.GetOr([])) == Some(v)
  {
    var c := Checks(d);
    assert Some(v) in c <==> Some(v) == c[0] || Some(v) == c[1] || Some(v) == c[2] || Some(v) == c[3] || Some(v) == c[4];
  }

  /** A title is reported missing exactly when it is absent or nothing but white space. */
  lemma {:induction false} TitleMissingWhenBlank(title: Option<string>)
    ensures TitleCheck(TrimmedTitle(title)) == Some(TitleMissing) <==> title.None? || AllSpace(title.value)
  {
  }

  /**
   * Each violated rule contributes its own entry to the report, and only
   * violated rules do.
   */
  lemma {:induction false} ValidateReportsEach(d: Draft)
    ensures OwnerMissing in Validate(d) <==> d.user.None?
    ensures TitleMissing in Validate(d) <==> d.title.None? || AllSpace(d.title.value)
    ensures TitleTooLong in Validate(d) <==> d.title.Some? && |Trim(d.title.value)| > TitleMaxLength
    ensures ContentMissing in Validate(d) <==> d.content.None? || d.content.value == []
    ensures ContentTooLong in Validate(d) <==> d.content.Some? && |d.content.value| > ContentMaxLength
    ensures TooManyTags in Validate(d) <==> d.tags.Some? && |d.tags.value| > MaxTags
    ensures d.mood.Some? ==> (MoodNotInEnum(d.mood.value) in Validate(d) <==> ParseMood(d.mood.value).None?)
  {
    InReport(d, OwnerMissing);
    InReport(d, TitleMissing);
    TitleMissingWhenBlank(d.title);
    InReport(d, TitleTooLong);
    InReport(d, ContentMissing);
    InReport(d, ContentTooLong);
    InReport(d, TooManyTags);
    if d.mood.Some? {
      InReport(d, MoodNotInEnum(d.mood.value));
    }
  }

  /** The title bound is inclusive: exactly 100 characters after trimming pass, 101 fail. */
  lemma {:induction false} TitleLengthBoundary(t: string)
    requires IsTrimmed(t)
    requires |t| == TitleMaxLength || |t| == TitleMaxLength + 1
    ensures TitleCheck(TrimmedTitle(Some(t))) == if |t| == TitleMaxLength then None else Some(TitleTooLong)
  {
    TrimOfTrimmed(t);
    assert TrimmedTitle(Some(t)) == Some(t);
  }

  /** Content is not trimmed: a body of spaces is accepted, and its spaces count toward the limit. */
  lemma {:induction false} ContentNotTrimmed(c: string)
    requires c != [] && AllSpace(c)
    ensures Trim(c) == []
    ensures |c| <= ContentMaxLength ==> ContentCheck(Some(c)) == None
    ensures |c| > ContentMaxLength ==> ContentCheck(Some(c)) == Some(ContentTooLong)
  {
  }
}
