/**
 * The dashboard's figures over the signed-in user's dreams: the totals, the
 * emoji of the most common mood, and the most recent five dreams.
 */
module Dashboard {
  import opened Wrappers
  import opened ClientTypes
  import opened DreamCard

  /** The number of dreams that satisfy `p`. */
  function CountWhere(ds: seq<ClientDream>, p: ClientDream -> bool): (n: nat)
    ensures n <= |ds|
    ensures n == 0 <==> forall i :: 0 <= i < |ds| ==> !p(ds[i])
    ensures n == |ds| <==> forall i :: 0 <= i < |ds| ==> p(ds[i])
  {
    if ds == [] then 0
    else
      var rest := CountWhere(ds[1..], p);
      assert forall i :: 1 <= i < |ds| ==> ds[i] == ds[1..][i - 1];
      (if p(ds[0]) then 1 else 0) + rest
  }

  /** Counting distributes over concatenation. */
  lemma {:induction false} CountWhereAppend(a: seq<ClientDream>, b: seq<ClientDream>, p: ClientDream -> bool)
    ensures CountWhere(a + b, p) == CountWhere(a, p) + CountWhere(b, p)
  {
    if a != [] {
      assert (a + b)[1..] == a[1..] + b;
      CountWhereAppend(a[1..], b, p);
    } else {
      assert a + b == b;
    }
  }

  predicate IsLucid(d: ClientDream) { d.isLucid }
  predicate IsFavorite(d: ClientDream) { d.isFavorite }

  datatype Stats = Stats(total: nat, lucid: nat, favorite: nat)

  /** `totalDreams`, `lucidDreams` and `favoriteDreams`. */
  function DreamStats(ds: seq<ClientDream>): (s: Stats)
    ensures s.total == |ds|
    ensures s.lucid == CountWhere(ds, IsLucid) && s.lucid <= s.total
    ensures s.favorite == CountWhere(ds, IsFavorite) && s.favorite <= s.total
  {
    Stats(|ds|, CountWhere(ds, IsLucid), CountWhere(ds, IsFavorite))
  }

  /** `recentDreams`: the first five dreams (all of them when fewer), in order. */
  function RecentDreams(ds: seq<ClientDream>): (r: seq<ClientDream>)
    ensures |r| == if |ds| < 5 then |ds| else 5
    ensures r == ds[..|r|]
  {
    if |ds| < 5 then ds else ds[..5]
  }

  // ---------------------------------------------------------------------
  // The most common mood
  // ---------------------------------------------------------------------

  /** How many dreams have mood `m`. */
  function Count(ds: seq<ClientDream>, m: string): nat
    decreases |ds|
  {
    if ds == [] then 0
    else Count(ds[..|ds| - 1], m) + (if ds[|ds| - 1].mood == m then 1 else 0)
  }

  /** The distinct moods of `ds`, in the order of their first appearance. */
  function Firsts(ds: seq<ClientDream>): seq<string>
    decreases |ds|
  {
    if ds == [] then []
    else
      var f := Firsts(ds[..|ds| - 1]);
      if ds[|ds| - 1].mood in f then f else f + [ds[|ds| - 1].mood]
  }

  /** `Firsts` lists each mood that occurs, once, and nothing else; a mood is counted exactly when it is listed. */
  lemma {:induction false} FirstsMembers(ds: seq<ClientDream>)
    ensures forall m :: m in Firsts(ds) <==> exists i :: 0 <= i < |ds| && ds[i].mood == m
    ensures forall a, b :: 0 <= a < b < |Firsts(ds)| ==> Firsts(ds)[a] != Firsts(ds)[b]
    ensures forall m :: Count(ds, m) == 0 <==> m !in Firsts(ds)
    decreases |ds|
  {
    if ds != [] {
      var init := ds[..|ds| - 1];
      FirstsMembers(init);
      assert forall i :: 0 <= i < |ds| - 1 ==> ds[i] == init[i];
      forall m | m in Firsts(ds) ensures exists i :: 0 <= i < |ds| && ds[i].mood == m {
        if m in Firsts(init) {
          var i :| 0 <= i < |init| && init[i].mood == m;
          assert ds[i].mood == m;
        } else {
          assert ds[|ds| - 1].mood == m;
        }
      }
    }
  }

  /**
   * `Firsts` is in order of first appearance: wherever a later entry
   * occurs, an earlier entry has already occurred before it.
   */
  lemma {:induction false} FirstsInAppearanceOrder(ds: seq<ClientDream>, a: nat, b: nat, j: nat)
    requires a < b < |Firsts(ds)| && j < |ds| && ds[j].mood == Firsts(ds)[b]
    ensures exists i :: 0 <= i < j && ds[i].mood == Firsts(ds)[a]
    decreases |ds|
  {
    var n := |ds|;
    var init := ds[..n - 1];
    var f := Firsts(init);
    var r := Firsts(ds);
    FirstsMembers(init);
    assert forall i :: 0 <= i < n - 1 ==> ds[i] == init[i];
    if b < |f| {
      assert r[a] == f[a] && r[b] == f[b];
      if j < n - 1 {
        FirstsInAppearanceOrder(init, a, b, j);
        var i :| 0 <= i < j && init[i].mood == f[a];
        assert ds[i].mood == r[a];
      } else {
        assert f[b] in f;
        var j' :| 0 <= j' < n - 1 && init[j'].mood == f[b];
        FirstsInAppearanceOrder(init, a, b, j');
        var i :| 0 <= i < j' && init[i].mood == f[a];
        assert ds[i].mood == r[a];
      }
    } else {
      // r[b] is the last mood, new to `init`, so its only occurrences are at the end.
      assert r == f + [ds[n - 1].mood] && b == |f|;
      assert j == n - 1;
      assert r[a] == f[a] && f[a] in f;
      var i :| 0 <= i < n - 1 && init[i].mood == f[a];
      assert ds[i].mood == r[a];
    }
  }

  /**
   * The `k`-th distinct mood is the one the dashboard picks: its count is
   * maximal, and every mood listed before it is strictly less common.
   */
  ghost predicate PicksFirstMostCommon(ds: seq<ClientDream>, k: int) {
    var f := Firsts(ds);
    && 0 <= k < |f|
    && (forall t :: 0 <= t < |f| ==> Count(ds, f[t]) <= Count(ds, f[k]))
    && (forall t :: 0 <= t < k ==> Count(ds, f[t]) < Count(ds, f[k]))
  }

  /** The emoji shown for a mood name: the table's, or the neutral face for a name outside it. */
  function EmojiOrNeutral(m: string): (e: string)
    ensures m in MoodEmojis ==> e == MoodEmojis[m]
    ensures m !in MoodEmojis ==> e == NeutralEmoji
  {
    if m in MoodEmojis then MoodEmojis[m] else NeutralEmoji
  }

  /** A mood that is not listed has not been counted. */
  lemma UnlistedUncounted(ds: seq<ClientDream>, m: string)
    requires m !in Firsts(ds)
    ensures Count(ds, m) == 0
  {
    FirstsMembers(ds);
  }

  /** One more dream: its mood is counted once more, and listed if it is new. */
  lemma TallyStep(ds: seq<ClientDream>, i: nat)
    requires i < |ds|
    ensures Firsts(ds[..i + 1]) ==
      if ds[i].mood in Firsts(ds[..i]) then Firsts(ds[..i]) else Firsts(ds[..i]) + [ds[i].mood]
    ensures forall m :: Count(ds[..i + 1], m) == Count(ds[..i], m) + (if ds[i].mood == m then 1 else 0)
  {
    assert ds[..i + 1][..i] == ds[..i];
  }

  /**
   * The `forEach` over the dreams: the mood counts, in a dictionary whose
   * keys keep the order in which they were first inserted.
   */
  method TallyMoods(dreams: seq<ClientDream>) returns (keys: seq<string>, counts: map<string, nat>)
    ensures keys == Firsts(dreams)
    ensures forall m :: m in counts <==> m in keys
    ensures forall m :: m in counts ==> counts[m] == Count(dreams, m)
  {
    keys := [];
    counts := map[];
    for i := 0 to |dreams|
      invariant keys == Firsts(dreams[..i])
      invariant forall m :: m in counts <==> m in keys
      invariant forall m :: m in counts ==> counts[m] == Count(dreams[..i], m)
    {
      var mood := dreams[i].mood;
      TallyStep(dreams, i);
      if mood !in counts {
        UnlistedUncounted(dreams[..i], mood);
      }
      counts := counts[mood := (if mood in counts then counts[mood] else 0) + 1];
      if mood !in keys {
        keys := keys + [mood];
      }
    }
    assert dreams[..|dreams|] == dreams;
  }

  /**
   * `getMostCommonMood`: the neutral face for no dreams; otherwise the first
   * key with the highest count (what a stable sort by descending count puts
   * first) gives the emoji.
   */
  method MostCommonMood(dreams: seq<ClientDream>) returns (emoji: string)
    ensures dreams == [] ==> emoji == NeutralEmoji
    ensures dreams != [] ==>
      exists k :: PicksFirstMostCommon(dreams, k) && emoji == EmojiOrNeutral(Firsts(dreams)[k])
  {
    if |dreams| == 0 {
      return NeutralEmoji;
    }
    var keys, counts := TallyMoods(dreams);
    FirstsMembers(dreams);
    assert dreams[0].mood in keys;
    var best := 0;
    for j := 1 to |keys|
      invariant 0 <= best < j
      invariant forall t :: 0 <= t < j ==> counts[keys[t]] <= counts[keys[best]]
      invariant forall t :: 0 <= t < best ==> counts[keys[t]] < counts[keys[best]]
    {
      if counts[keys[j]] > counts[keys[best]] {
        best := j;
      }
    }
    emoji := EmojiOrNeutral(keys[best]);
    assert PicksFirstMostCommon(dreams, best);
  }

  /** Only one position satisfies the choice, so the emoji is determined by the dreams. */
  lemma PickIsUnique(ds: seq<ClientDream>, k: int)
    requires PicksFirstMostCommon(ds, k)
    ensures forall t :: 0 <= t < |Firsts(ds)| && t != k ==> !PicksFirstMostCommon(ds, t)
  {
    var f := Firsts(ds);
    forall t | 0 <= t < |f| && t != k
      ensures !PicksFirstMostCommon(ds, t)
    {
      if t < k {
        assert Count(ds, f[t]) < Count(ds, f[k]);
      } else {
        assert Count(ds, f[t]) <= Count(ds, f[k]);
      }
    }
  }

  /**
   * The picked mood occurs in the dreams, no mood is more common, and among
   * equally common moods it is the one seen first: any dream whose mood ties
   * with it comes at or after its first occurrence.
   */
  lemma {:induction false} PickIsMostCommonSeenFirst(ds: seq<ClientDream>, k: int)
    requires PicksFirstMostCommon(ds, k)
    ensures var top := Firsts(ds)[k];
      && (exists i :: 0 <= i < |ds| && ds[i].mood == top)
      && (forall j :: 0 <= j < |ds| ==> Count(ds, ds[j].mood) <= Count(ds, top))
      && (forall j :: 0 <= j < |ds| && Count(ds, ds[j].mood) == Count(ds, top) ==>
            exists i :: 0 <= i <= j && ds[i].mood == top)
  {
    var f := Firsts(ds);
    var top := f[k];
    FirstsMembers(ds);
    assert top in f;
    forall j | 0 <= j < |ds|
      ensures Count(ds, ds[j].mood) <= Count(ds, top)
      ensures Count(ds, ds[j].mood) == Count(ds, top) ==> exists i :: 0 <= i <= j && ds[i].mood == top
    {
      var m := ds[j].mood;
      assert m in f;
      var b :| 0 <= b < |f| && f[b] == m;
      if Count(ds, m) == Count(ds, top) {
        if b > k {
          FirstsInAppearanceOrder(ds, k, b, j);
        } else if b == k {
          assert ds[j].mood == top;
        }
      }
    }
  }
}
