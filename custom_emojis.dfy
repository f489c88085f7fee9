/** How caller-supplied emoji become records the picker can show and search. */
module CustomEmojis {
  import opened Emoji

  /** The emoji's tags, none when it has no tag list. */
  function TagsOf(c: CustomEmoji): seq<string>
  {
    c.tags.GetOr([])
  }

  /** One custom emoji as a record: its fields copied, marked custom, and
      "custom" put in front of its tags. */
  function NormalizeCustomEmoji(c: CustomEmoji): EmojiRecord
  {
    EmojiRecord(c.hexcode, c.emoji, c.name, c.url, ["custom"] + TagsOf(c), true)
  }

  /** The `map` over the `custom` option: one record per input, in order,
      each marked custom whatever the input said, its tags led by "custom",
      and its other fields copied. */
  function NormalizeCustomEmojis(customs: seq<CustomEmoji>): (r: seq<EmojiRecord>)
    ensures |r| == |customs|
    ensures forall i :: 0 <= i < |r| ==>
      && r[i].custom
      && |r[i].tags| == 1 + |TagsOf(customs[i])|
      && r[i].tags[0] == "custom"
      && r[i].tags[1..] == TagsOf(customs[i])
      && (customs[i].tags.None? ==> r[i].tags == ["custom"])
      && r[i].hexcode == customs[i].hexcode
      && r[i].emoji == customs[i].emoji
      && r[i].name == customs[i].name
      && r[i].url == customs[i].url
  {
    seq(|customs|, i requires 0 <= i < |customs| => NormalizeCustomEmoji(customs[i]))
  }

  /** Normalising a concatenation normalises each part. */
  lemma NormalizeAppend(a: seq<CustomEmoji>, b: seq<CustomEmoji>)
    ensures NormalizeCustomEmojis(a + b) == NormalizeCustomEmojis(a) + NormalizeCustomEmojis(b)
  {
    var l, r := NormalizeCustomEmojis(a + b), NormalizeCustomEmojis(a) + NormalizeCustomEmojis(b);
    forall i | 0 <= i < |l| ensures l[i] == r[i] {
      if i < |a| {
        assert (a + b)[i] == a[i];
      } else {
        assert (a + b)[i] == b[i - |a|];
      }
    }
  }
}
