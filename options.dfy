/** Picker options: the defaults table and the merge that fills in what the
    caller leaves out. */
module Options {
  import opened Emoji

  /** `emojiVersion`: the sentinel `'auto'` or an explicit version number. */
  datatype VersionSetting = Auto | Explicit(version: real)

  /** An object the options carry by reference (a theme, a store factory, a
      renderer, a recents provider, a message bundle) and that this model
      does not look into. */
  datatype Handle = Handle(name: string)

  const IndexedDbStoreFactory: Handle := Handle("IndexedDbStoreFactory")
  const LightTheme: Handle := Handle("lightTheme")
  const EnglishBundle: Handle := Handle("lang-en")
  /** What `new NativeRenderer()` yields. */
  const NewNativeRenderer: Handle := Handle("NativeRenderer")
  /** What `new LocalStorageProvider()` yields. */
  const NewLocalStorageProvider: Handle := Handle("LocalStorageProvider")

  /** `Partial<PickerOptions>`: `None` is a key the caller did not supply. */
  datatype PartialOptions = PartialOptions(
    dataStore: Option<Handle>,
    theme: Option<Handle>,
    animate: Option<bool>,
    showCategoryTabs: Option<bool>,
    showPreview: Option<bool>,
    showRecents: Option<bool>,
    showSearch: Option<bool>,
    showVariants: Option<bool>,
    emojisPerRow: Option<int>,
    visibleRows: Option<int>,
    emojiVersion: Option<VersionSetting>,
    i18n: Option<Handle>,
    locale: Option<string>,
    maxRecents: Option<int>,
    custom: Option<seq<CustomEmoji>>,
    renderer: Option<Handle>,
    recentsProvider: Option<Handle>,
    messages: Option<Messages>,
    emojiData: Option<seq<EmojiRecord>>)

  /** The options every picker runs with. `messages` and `emojiData` have no
      default and may stay absent. */
  datatype PickerOptions = PickerOptions(
    dataStore: Handle,
    theme: Handle,
    animate: bool,
    showCategoryTabs: bool,
    showPreview: bool,
    showRecents: bool,
    showSearch: bool,
    showVariants: bool,
    emojisPerRow: int,
    visibleRows: int,
    emojiVersion: VersionSetting,
    i18n: Handle,
    locale: string,
    maxRecents: int,
    custom: seq<CustomEmoji>,
    renderer: Handle,
    recentsProvider: Handle,
    messages: Option<Messages>,
    emojiData: Option<seq<EmojiRecord>>)

  /** `{}`, the argument `getOptions` defaults to. */
  const NoOptions: PartialOptions :=
    PartialOptions(None, None, None, None, None, None, None, None, None, None,
                   None, None, None, None, None, None, None, None, None)

  /** `defaultOptions`: a value for every key but the renderer, the recents
      provider and the static dataset, which have none. */
  function DefaultOptions(): (d: PartialOptions)
    ensures d.dataStore.Some? && d.theme.Some? && d.animate.Some?
    ensures d.showCategoryTabs.Some? && d.showPreview.Some? && d.showRecents.Some?
    ensures d.showSearch.Some? && d.showVariants.Some?
    ensures d.emojisPerRow.Some? && d.visibleRows.Some? && d.emojiVersion.Some?
    ensures d.i18n.Some? && d.locale.Some? && d.maxRecents.Some? && d.custom.Some?
    ensures d.renderer.None? && d.recentsProvider.None?
    ensures d.messages.None? && d.emojiData.None?
  {
    PartialOptions(
      dataStore := Some(IndexedDbStoreFactory),
      theme := Some(LightTheme),
      animate := Some(true),
      showCategoryTabs := Some(true),
      showPreview := Some(true),
      showRecents := Some(true),
      showSearch := Some(true),
      showVariants := Some(true),
      emojisPerRow := Some(8),
      visibleRows := Some(6),
      emojiVersion := Some(Auto),
      i18n := Some(EnglishBundle),
      locale := Some("en"),
      maxRecents := Some(50),
      custom := Some([]),
      renderer := None,
      recentsProvider := None,
      messages := None,
      emojiData := None)
  }

  /** `result` is the supplied value when there is one, `default` otherwise. */
  predicate Takes<T(==)>(result: T, supplied: Option<T>, default: T)
  {
    if supplied.Some? then result == supplied.value else result == default
  }

  /** `getOptions`: every key the caller supplies wins, every other key takes
      its default, and a missing renderer or recents provider is a new native
      renderer or local-storage provider. */
  function GetOptions(options: PartialOptions): (r: PickerOptions)
    ensures Takes(r.dataStore, options.dataStore, IndexedDbStoreFactory)
    ensures Takes(r.theme, options.theme, LightTheme)
    ensures Takes(r.animate, options.animate, true)
    ensures Takes(r.showCategoryTabs, options.showCategoryTabs, true)
    ensures Takes(r.showPreview, options.showPreview, true)
    ensures Takes(r.showRecents, options.showRecents, true)
    ensures Takes(r.showSearch, options.showSearch, true)
    ensures Takes(r.showVariants, options.showVariants, true)
    ensures Takes(r.emojisPerRow, options.emojisPerRow, 8)
    ensures Takes(r.visibleRows, options.visibleRows, 6)
    ensures Takes(r.emojiVersion, options.emojiVersion, Auto)
    ensures Takes(r.i18n, options.i18n, EnglishBundle)
    ensures Takes(r.locale, options.locale, "en")
    ensures Takes(r.maxRecents, options.maxRecents, 50)
    ensures Takes(r.custom, options.custom, [])
    ensures Takes(r.renderer, options.renderer, NewNativeRenderer)
    ensures Takes(r.recentsProvider, options.recentsProvider, NewLocalStorageProvider)
    ensures r.messages == options.messages && r.emojiData == options.emojiData
  {
    // the defaults spread first, the caller's options over them, then the
    // renderer and recents provider fallbacks: a supplied key always wins
    PickerOptions(
      options.dataStore.GetOr(DefaultOptions().dataStore.value),
      options.theme.GetOr(DefaultOptions().theme.value),
      options.animate.GetOr(DefaultOptions().animate.value),
      options.showCategoryTabs.GetOr(DefaultOptions().showCategoryTabs.value),
      options.showPreview.GetOr(DefaultOptions().showPreview.value),
      options.showRecents.GetOr(DefaultOptions().showRecents.value),
      options.showSearch.GetOr(DefaultOptions().showSearch.value),
      options.showVariants.GetOr(DefaultOptions().showVariants.value),
      options.emojisPerRow.GetOr(DefaultOptions().emojisPerRow.value),
      options.visibleRows.GetOr(DefaultOptions().visibleRows.value),
      options.emojiVersion.GetOr(DefaultOptions().emojiVersion.value),
      options.i18n.GetOr(DefaultOptions().i18n.value),
      options.locale.GetOr(DefaultOptions().locale.value),
      options.maxRecents.GetOr(DefaultOptions().maxRecents.value),
      options.custom.GetOr(DefaultOptions().custom.value),
      options.renderer.GetOr(NewNativeRenderer),
      options.recentsProvider.GetOr(NewLocalStorageProvider),
      options.messages,     // no default
      options.emojiData)    // no default
  }

  /** A complete set of options passed back in as a partial one. */
  function Supplied(o: PickerOptions): PartialOptions
  {
    PartialOptions(
      Some(o.dataStore), Some(o.theme), Some(o.animate), Some(o.showCategoryTabs),
      Some(o.showPreview), Some(o.showRecents), Some(o.showSearch), Some(o.showVariants),
      Some(o.emojisPerRow), Some(o.visibleRows), Some(o.emojiVersion), Some(o.i18n),
      Some(o.locale), Some(o.maxRecents), Some(o.custom), Some(o.renderer),
      Some(o.recentsProvider), o.messages, o.emojiData)
  }

  /** `getOptions()` with no argument yields the defaults table. */
  lemma NoArgumentGivesDefaults()
    ensures var r := GetOptions(NoOptions);
            && r.maxRecents == 50 && r.emojiVersion == Auto && r.locale == "en"
            && r.emojisPerRow == 8 && r.visibleRows == 6 && r.custom == []
            && r.renderer == NewNativeRenderer && r.recentsProvider == NewLocalStorageProvider
            && r.messages.None? && r.emojiData.None?
  {
  }

  /** A supplied `false` flag overrides a `true` default: the merge is a
      spread, not `||`. */
  lemma SuppliedFalseOverrides(options: PartialOptions)
    requires options.animate == Some(false) && options.showSearch == Some(false)
    ensures !GetOptions(options).animate && !GetOptions(options).showSearch
  {
  }

  /** Running the options through `getOptions` again changes nothing. */
  lemma GetOptionsIdempotent(options: PartialOptions)
    ensures GetOptions(Supplied(GetOptions(options))) == GetOptions(options)
  {
  }
}
