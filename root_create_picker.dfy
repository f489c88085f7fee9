/** The root package's `createEmojiPicker`: static data when the caller gives
    both the dataset and its messages, the CDN for the locale otherwise. */
module RootCreatePicker {
  import opened Emoji
  import opened Options
  import opened CustomEmojis

  /** Where the dataset comes from. */
  datatype DataSource =
    | StaticData(messages: Messages, emojiData: seq<EmojiRecord>)
    | FromCdn(locale: string)

  /** `initData`: the static path exactly when both `emojiData` and
      `messages` are there, carrying them unchanged; the CDN path for the
      configured locale otherwise. */
  function InitData(options: PickerOptions): (r: DataSource)
    ensures r.StaticData? <==> options.emojiData.Some? && options.messages.Some?
    ensures r.StaticData? ==> r.messages == options.messages.value && r.emojiData == options.emojiData.value
    ensures r.FromCdn? ==> r.locale == options.locale
  {
    if options.emojiData.Some? && options.messages.Some? then
      StaticData(options.messages.value, options.emojiData.value)
    else
      FromCdn(options.locale)
  }

  /** The static path never looks at the locale. */
  lemma StaticPathIgnoresLocale(options: PickerOptions, locale: string)
    requires options.emojiData.Some? && options.messages.Some?
    ensures InitData(options.(locale := locale)) == InitData(options)
  {
  }

  /** The CDN path never looks at whatever static data was (partly) given. */
  lemma CdnPathIgnoresStaticData(options: PickerOptions, messages: Option<Messages>,
                                 emojiData: Option<seq<EmojiRecord>>)
    requires options.emojiData.None? || options.messages.None?
    requires emojiData.None? || messages.None?
    ensures InitData(options.(messages := messages, emojiData := emojiData)) == InitData(options)
  {
  }

  /** What `createEmojiPicker` hands to the view factory. */
  datatype EmojiPickerSetup = EmojiPickerSetup(
    options: PickerOptions,
    customEmojis: seq<EmojiRecord>,
    data: DataSource,
    pickerId: string)

  /** `createEmojiPicker`, up to the view factory; `nanoid` is the random id
      the `nanoid` package returns. */
  function CreateEmojiPicker(options: PartialOptions, nanoid: string): (s: EmojiPickerSetup)
    ensures s.options == GetOptions(options)
    ensures s.customEmojis == NormalizeCustomEmojis(s.options.custom)
    ensures s.data == InitData(s.options)
    ensures |s.customEmojis| == |s.options.custom|
    ensures forall i :: 0 <= i < |s.customEmojis| ==>
      s.customEmojis[i].custom && s.customEmojis[i].tags == ["custom"] + TagsOf(s.options.custom[i])
    ensures options.custom.None? ==> s.customEmojis == []
    ensures s.data.StaticData? <==> options.emojiData.Some? && options.messages.Some?
    ensures s.data.FromCdn? ==> s.data.locale == GetOptions(options).locale
    ensures s.pickerId == "EmojiPicker-" + nanoid
  {
    var finalOptions := GetOptions(options);
    var customEmojis := NormalizeCustomEmojis(finalOptions.custom);
    assert forall i :: 0 <= i < |customEmojis| ==>
      customEmojis[i].tags == [customEmojis[i].tags[0]] + customEmojis[i].tags[1..];
    EmojiPickerSetup(finalOptions, customEmojis, InitData(finalOptions), "EmojiPicker-" + nanoid)
  }
}
