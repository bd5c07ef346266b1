/**
 * The new-dream form: its fields and defaults, the check that title and
 * content are not blank, the comma-separated tag list, and the submit
 * handler's error and loading flags around the create request.
 */
module NewDreamPage {
  import opened Wrappers
  import opened Text
  import opened ClientTypes

  const RequiredError := "כותרת ותוכן הם שדות חובה"
  const SaveError := "שגיאה בשמירת החלום"

  /** Each of `xs`, trimmed. */
  function TrimAll(xs: seq<string>): (r: seq<string>)
    ensures |r| == |xs|
    ensures forall i :: 0 <= i < |xs| ==> r[i] == Trim(xs[i])
  {
    if xs == [] then [] else [Trim(xs[0])] + TrimAll(xs[1..])
  }

  /** Trimming a list piece by piece starts with its first piece. */
  lemma TrimAllCons(x: string, xs: seq<string>)
    ensures TrimAll([x] + xs) == [Trim(x)] + TrimAll(xs)
  {
    assert ([x] + xs)[1..] == xs;
  }

  /**
   * The tag input as a list: [] for an empty input; otherwise one tag per
   * comma-separated piece, trimmed, empty pieces included, so k commas give
   * k + 1 tags.
   */
  function ParseTags(input: string): (r: seq<string>)
    ensures input == [] ==> r == []
    ensures input != [] ==> |r| == Occurrences(input, ',') + 1
    ensures forall i :: 0 <= i < |r| ==> IsTrimmed(r[i]) && ',' !in r[i]
  {
    if input == [] then []
    else
      var r := TrimAll(Split(input, ','));
      assert forall i :: 0 <= i < |r| ==> ',' !in r[i] by {
        forall i | 0 <= i < |r| ensures ',' !in r[i] {
          assert ',' !in Split(input, ',')[i];
        }
      }
      r
  }

  /** A non-empty list is its first element followed by the rest. */
  lemma ConsTail(xs: seq<string>)
    requires xs != []
    ensures xs == [xs[0]] + xs[1..]
  {
  }

  /** Every tag after the first of a list of trimmed tags is trimmed. */
  lemma TailTrimmed(tags: seq<string>)
    requires tags != [] && forall i :: 0 <= i < |tags| ==> IsTrimmed(tags[i])
    ensures forall i :: 0 <= i < |tags[1..]| ==> IsTrimmed(tags[1..][i])
  {
    forall i | 0 <= i < |tags[1..]| ensures IsTrimmed(tags[1..][i]) {
      assert tags[1..][i] == tags[i + 1];
    }
  }

  /** The pieces "a, b, c" splits into at commas, after a leading `sp`: `sp` + a, then " " + each later tag. */
  function Respaced(sp: string, tags: seq<string>): (r: seq<string>)
    requires tags != []
    ensures |r| == |tags|
    decreases |tags|
  {
    [sp + tags[0]] + (if |tags| == 1 then [] else Respaced(" ", tags[1..]))
  }

  /** Splitting "first, rest" at commas, after a comma-free `sp`, splits off `sp` + the first tag. */
  lemma {:induction false} SplitJoinedHead(sp: string, tags: seq<string>)
    requires ',' !in sp && |tags| > 1 && ',' !in tags[0]
    ensures Split(sp + Join(tags, ", "), ',') == [sp + tags[0]] + Split(" " + Join(tags[1..], ", "), ',')
  {
    var rest := Join(tags[1..], ", ");
    var head := sp + tags[0];
    assert Join(tags, ", ") == tags[0] + ", " + rest;
    assert sp + Join(tags, ", ") == head + [','] + (" " + rest);
    SplitAfterWord(head, ',', " " + rest);
  }

  /** Comma-free tags joined with ", " split at commas into their respaced pieces. */
  lemma {:induction false} SplitJoined(sp: string, tags: seq<string>)
    requires ',' !in sp && tags != []
    requires forall i :: 0 <= i < |tags| ==> ',' !in tags[i]
    ensures Split(sp + Join(tags, ", "), ',') == Respaced(sp, tags)
    decreases |tags|
  {
    if |tags| == 1 {
      assert Join(tags, ", ") == tags[0];
      SplitWithoutSeparator(sp + tags[0], ',');
    } else {
      SplitJoinedHead(sp, tags);
      assert forall i :: 0 <= i < |tags| - 1 ==> tags[1..][i] == tags[i + 1];
      SplitJoined(" ", tags[1..]);
    }
  }

  /** Trimming the respaced pieces of trimmed tags gives back the tags. */
  lemma {:induction false} TrimRespaced(sp: string, tags: seq<string>)
    requires AllSpace(sp) && tags != []
    requires forall i :: 0 <= i < |tags| ==> IsTrimmed(tags[i])
    ensures TrimAll(Respaced(sp, tags)) == tags
    decreases |tags|
  {
    var later := if |tags| == 1 then [] else Respaced(" ", tags[1..]);
    assert Respaced(sp, tags) == [sp + tags[0]] + later;
    TrimAllCons(sp + tags[0], later);
    TrimAfterSpace(sp, tags[0]);
    if |tags| == 1 {
      assert TrimAll(later) == [];
    } else {
      assert AllSpace(" ") by {
        assert IsSpace(" "[0]);
      }
      TailTrimmed(tags);
      TrimRespaced(" ", tags[1..]);
      ConsTail(tags);
    }
  }

  /** Tags joined with ", " parse back to themselves. */
  lemma ParseTagsRoundTrip(tags: seq<string>)
    requires tags != [] && Join(tags, ", ") != []
    requires forall i :: 0 <= i < |tags| ==> IsTrimmed(tags[i]) && ',' !in tags[i]
    ensures ParseTags(Join(tags, ", ")) == tags
  {
    SplitTrimJoined(tags);
  }

  /** Splitting tags joined with ", " at commas and trimming each piece gives back the tags. */
  lemma SplitTrimJoined(tags: seq<string>)
    requires tags != []
    requires forall i :: 0 <= i < |tags| ==> IsTrimmed(tags[i]) && ',' !in tags[i]
    ensures TrimAll(Split(Join(tags, ", "), ',')) == tags
  {
    var j := Join(tags, ", ");
    assert [] + j == j;
    SplitJoined([], tags);
    TrimRespaced([], tags);
  }

  /** What the form hands to the create request. */
  datatype DreamInput = DreamInput(title: string, content: string, mood: string, isLucid: bool, tags: seq<string>)

  class NewDreamForm {
    var title: string
    var content: string
    var mood: string
    var isLucid: bool
    var tags: string
    var error: string
    var isLoading: bool

    /** The empty form: mood neutral, not lucid, no error, not loading. */
    constructor ()
      ensures title == [] && content == [] && tags == [] && error == []
      ensures mood == "neutral" && !isLucid && !isLoading
    {
      title := [];
      content := [];
      mood := "neutral";
      isLucid := false;
      tags := [];
      error := [];
      isLoading := false;
    }

    /**
     * `handleSubmit`, with the create request's outcome passed in. The
     * error is cleared first; a blank title or content sets an error and
     * sends nothing; otherwise the trimmed title and content, the mood, the
     * lucid flag and the parsed tags are sent, success navigates to the
     * dashboard and failure sets an error, and loading ends either way.
     */
    method HandleSubmit(outcome: Settled) returns (sent: Option<DreamInput>, navigateTo: Option<string>)
      modifies this
      ensures title == old(title) && content == old(content) && mood == old(mood)
      ensures isLucid == old(isLucid) && tags == old(tags)
      ensures Trim(title) == [] || Trim(content) == [] ==>
        sent == None && navigateTo == None && error == RequiredError && isLoading == old(isLoading)
      ensures Trim(title) != [] && Trim(content) != [] ==>
        && sent == Some(DreamInput(Trim(title), Trim(content), mood, isLucid, ParseTags(tags)))
        && !isLoading
        && (outcome.Fulfilled? ==> navigateTo == Some(DashboardPath) && error == [])
        && (outcome.Rejected? ==> navigateTo == None && error == SaveError)
      ensures sent.Some? ==>
        sent.value.title != [] && IsTrimmed(sent.value.title) && sent.value.content != [] && IsTrimmed(sent.value.content)
    {
      error := [];
      if Trim(title) == [] || Trim(content) == [] {
        error := RequiredError;
        return None, None;
      }
      isLoading := true;
      sent := Some(DreamInput(Trim(title), Trim(content), mood, isLucid, ParseTags(tags)));
      match outcome {
        case Fulfilled =>
          navigateTo := Some(DashboardPath);
        case Rejected(_) =>
          navigateTo := None;
          error := SaveError;
      }
      isLoading := false;
    }
  }
}
