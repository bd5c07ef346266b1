/**
 * The dream card: the mood emoji table, the content preview cut at a
 * maximum length, and the favourite and lucid badges.
 */
module DreamCard {
  import opened Wrappers
  import opened Text
  import opened ClientTypes
  import opened DreamSchema

  /** The emoji of each mood name. */
  const MoodEmojis: map<string, string> := map[
    "happy" := "😊",
    "sad" := "😢",
    "scared" := "😱",
    "confused" := "😕",
    "excited" := "🤩",
    "neutral" := "😐"]

  const NeutralEmoji := "😐"
  const Ellipsis := "..."
  const DefaultMaxLength: nat := 100

  /** The table has an entry for exactly the six mood names, and no two moods share an emoji. */
  lemma MoodEmojisDistinct()
    ensures forall k :: k in MoodEmojis <==> ParseMood(k).Some?
    ensures forall a, b :: a in MoodEmojis && b in MoodEmojis && a != b ==> MoodEmojis[a] != MoodEmojis[b]
  {
    assert MoodEmojis.Keys == {"happy", "sad", "scared", "confused", "excited", "neutral"};
  }

  /** Every mood the store can hold has an emoji. */
  lemma StoredMoodHasEmoji(m: Mood)
    ensures MoodName(m) in MoodEmojis
  {
    MoodEmojisDistinct();
  }

  /**
   * `truncateContent`: "" stays "", content of at most `maxLength`
   * characters is shown whole, longer content is cut to its first
   * `maxLength` characters followed by "...".
   */
  function TruncateContent(content: string, maxLength: nat): (r: string)
    ensures content == [] ==> r == []
    ensures |content| <= maxLength ==> r == content
    ensures |content| > maxLength ==> |r| == maxLength + 3 && r == content[..maxLength] + Ellipsis
  {
    if content == [] then []
    else if |content| <= maxLength then content
    else content[..maxLength] + Ellipsis
  }

  /** A preview is at most three characters longer than the limit, and what it shows of the content is a prefix of it. */
  lemma TruncateIsPrefix(content: string, maxLength: nat)
    ensures var r := TruncateContent(content, maxLength);
      |r| <= maxLength + 3 && (r == content || StartsWith(content, r[..maxLength]))
  {
  }

  /** Cutting a preview again changes nothing. */
  lemma {:induction false} TruncateIdempotent(content: string, maxLength: nat)
    ensures TruncateContent(TruncateContent(content, maxLength), maxLength) == TruncateContent(content, maxLength)
  {
    if |content| > maxLength {
      var r := TruncateContent(content, maxLength);
      assert r[..maxLength] == content[..maxLength];
    }
  }

  /** What a card shows besides the title and date. */
  datatype CardView = CardView(title: string, text: string, mood: Option<string>, star: bool, lucid: bool)

  /**
   * A dream's card: the preview of its content at the default limit of 100,
   * the mood's emoji (nothing for a name outside the table), the star
   * exactly when it is a favourite and the lucid badge exactly when lucid.
   */
  function Card(d: ClientDream): (v: CardView)
    ensures v.title == d.title && v.text == TruncateContent(d.content, DefaultMaxLength)
    ensures v.mood.Some? <==> ParseMood(d.mood).Some?
    ensures v.mood.Some? ==> v.mood.value == MoodEmojis[d.mood]
    ensures v.star <==> d.isFavorite
    ensures v.lucid <==> d.isLucid
  {
    MoodEmojisDistinct();
    CardView(d.title, TruncateContent(d.content, DefaultMaxLength),
             if d.mood in MoodEmojis then Some(MoodEmojis[d.mood]) else None,
             d.isFavorite, d.isLucid)
  }
}
