/** The decisions the `picmo-emoji-picker` element takes: which emoji
    version it runs with, what a search forwards, what a selection records,
    and which pane it shows. */
module PickerElement {
  import opened Emoji
  import opened Options
  import Recents

  /** The arguments `onSearch` forwards to `searchEmojis`. */
  datatype SearchRequest = SearchRequest(
    query: string,
    customEmojis: seq<EmojiRecord>,
    emojiVersion: real,
    categories: Option<seq<Category>>)

  /** The data store's search, whose code is not part of this model. */
  type SearchEmojis = SearchRequest -> seq<EmojiRecord>

  /** What the element dispatches: the DOM `emoji:select` event, and
      `recents:update` on its event bus. */
  datatype Dispatched = EmojiSelectEvent(emoji: EmojiRecord) | RecentsUpdateEvent

  /** One section of the emoji area. */
  datatype Section = RecentEmojis(category: Category) | EmojiCategory(category: Category)

  /** A placeholder shape drawn while the categories load. */
  datatype Skeleton = Skeleton(width: string, height: string, borderRadius: string)

  const CategoryNameSkeleton: Skeleton := Skeleton("50%", "1rem", "0")
  const EmojiSkeleton: Skeleton := Skeleton("var(--emoji-size)", "var(--emoji-size)", "50%")

  /** `renderEmojiArea`: the category sections, or a heading placeholder
      over a grid of emoji placeholders. */
  datatype EmojiArea =
    | Sections(sections: seq<Section>)
    | SkeletonGrid(heading: Skeleton, cells: seq<Skeleton>)

  /** `renderContent`. */
  datatype Content =
    | SearchResults(results: seq<EmojiRecord>)
    | SearchNotFound
    | Area(area: EmojiArea)

  /** The emoji version the element runs with, as the constructor means it:
      an explicit setting wins; `'auto'` takes the detected version unless
      detection gave `null` or `0`, and then the latest known version. */
  function ResolveEmojiVersion(setting: VersionSetting, detected: Option<real>, latest: real): (v: real)
    ensures setting.Explicit? ==> v == setting.version
    ensures setting.Auto? && detected.Some? && detected.value != 0.0 ==> v == detected.value
    ensures setting.Auto? && (detected.None? || detected.value == 0.0) ==> v == latest
  {
    match setting
    case Explicit(version) => version
    case Auto => if detected.Some? && detected.value != 0.0 then detected.value else latest
  }

  /** The constructor's version expression as written: its explicit branch
      reads `this.options`, which is assigned only afterwards, so reading
      `emojiVersion` from it throws. */
  function ConstructorEmojiVersionAsWritten(setting: VersionSetting, detected: Option<real>, latest: real): (r: Result<real>)
    ensures setting.Auto? ==> r == Ok(ResolveEmojiVersion(setting, detected, latest))
    ensures setting.Explicit? ==> r.Err?
  {
    match setting
    case Auto => Ok(if detected.Some? && detected.value != 0.0 then detected.value else latest)
    case Explicit(_) =>
      // `this.options` is still undefined here
      Err("TypeError: Cannot read properties of undefined (reading 'emojiVersion')")
  }

  /** Concretely: `emojiVersion: 14` makes the constructor throw, while the
      intended reading yields 14. */
  lemma ExplicitVersionThrowsAsWritten()
    ensures ConstructorEmojiVersionAsWritten(Explicit(14.0), None, 15.0).Err?
    ensures ResolveEmojiVersion(Explicit(14.0), None, 15.0) == 14.0
  {
  }

  /** `renderEmojiArea`'s map over the loaded categories. */
  function SectionsFor(categories: seq<Category>): (r: seq<Section>)
    ensures |r| == |categories|
    ensures forall i :: 0 <= i < |r| ==> r[i].category == categories[i]
    ensures forall i :: 0 <= i < |r| ==> (r[i].RecentEmojis? <==> categories[i].key == RecentsKey)
  {
    seq(|categories|, i requires 0 <= i < |categories| =>
      if categories[i].key == RecentsKey then RecentEmojis(categories[i]) else EmojiCategory(categories[i]))
  }

  class EmojiPickerElement {
    const options: PickerOptions
    const pickerId: PickerId
    const customEmojis: seq<EmojiRecord>
    /** `contextData.emojiVersion`. */
    const emojiVersion: real
    /** The object `options.recentsProvider` stands for. */
    const recentsProvider: Recents.RecentsStore
    /** The resolved data store, reduced to its search. */
    var emojiData: Option<SearchEmojis>
    var categories: Option<seq<Category>>
    var searchResults: Option<seq<EmojiRecord>>
    var dispatched: seq<Dispatched>

    /** The constructor, with the version expression as intended. */
    constructor(options: PickerOptions, pickerId: PickerId, customEmojis: seq<EmojiRecord>,
                detectedVersion: Option<real>, latestVersion: real,
                recentsProvider: Recents.RecentsStore)
      ensures this.options == options && this.pickerId == pickerId
      ensures this.customEmojis == customEmojis && this.recentsProvider == recentsProvider
      ensures emojiVersion == ResolveEmojiVersion(options.emojiVersion, detectedVersion, latestVersion)
      ensures emojiData.None? && categories.None? && searchResults.None? && dispatched == []
    {
      this.emojiVersion := ResolveEmojiVersion(options.emojiVersion, detectedVersion, latestVersion);
      this.options := options;
      this.pickerId := pickerId;
      this.customEmojis := customEmojis;
      this.recentsProvider := recentsProvider;
      emojiData := None;
      categories := None;
      searchResults := None;
      dispatched := [];
    }

    /** The first `then` of the data promise: the store has resolved. */
    method OnEmojiDataResolved(store: SearchEmojis)
      modifies this`emojiData
      ensures emojiData == Some(store)
    {
      emojiData := Some(store);
    }

    /** The second `then`: the store's categories have arrived. */
    method OnCategoriesResolved(loaded: seq<Category>)
      modifies this`categories
      ensures categories == Some(loaded)
    {
      categories := Some(loaded);
    }

    /** `onSearch`. The empty query clears the results without searching; any
        other query, whitespace included, is forwarded with the custom emoji,
        the resolved version and the current categories. Before the store has
        resolved, a search throws and leaves the results as they were. */
    method OnSearch(searchQuery: string) returns (request: Option<SearchRequest>, threw: bool)
      modifies this`searchResults
      ensures threw <==> searchQuery != "" && emojiData.None?
      ensures request.Some? <==> searchQuery != "" && emojiData.Some?
      ensures request.Some? ==>
        request.value == SearchRequest(searchQuery, customEmojis, emojiVersion, categories)
      ensures searchQuery == "" ==> searchResults.None?
      ensures request.Some? ==> searchResults == Some(emojiData.value(request.value))
      ensures threw ==> searchResults == old(searchResults)
    {
      request, threw := None, false;
      if searchQuery == "" {
        searchResults := None;
        return;
      }
      if emojiData.None? {
        threw := true;
        return;
      }
      var req := SearchRequest(searchQuery, customEmojis, emojiVersion, categories);
      request := Some(req);
      searchResults := Some(emojiData.value(req));
    }

    /** `selectEmoji`: the DOM event goes out, the emoji is recorded with the
        configured `maxRecents`, then `recents:update` follows. */
    method SelectEmoji(emoji: EmojiRecord)
      modifies this`dispatched, recentsProvider
      ensures recentsProvider.slot ==
        Some(Recents.AddOrUpdate(old(recentsProvider.Stored()), emoji, options.maxRecents))
      ensures dispatched == old(dispatched) + [EmojiSelectEvent(emoji), RecentsUpdateEvent]
    {
      dispatched := dispatched + [EmojiSelectEvent(emoji)];
      recentsProvider.AddOrUpdateRecent(emoji, options.maxRecents);
      dispatched := dispatched + [RecentsUpdateEvent];
    }

    /** `renderSearchResults`: the results, or "not found" when there are none. */
    function RenderSearchResults(): (c: Content)
      reads this
      ensures c.SearchResults? <==> searchResults.Some? && |searchResults.value| > 0
      ensures c.SearchResults? ==> c.results == searchResults.value
      ensures !c.SearchResults? ==> c == SearchNotFound
    {
      if searchResults.Some? && |searchResults.value| > 0 then SearchResults(searchResults.value)
      else SearchNotFound
    }

    /** `renderEmojiArea`: one section per loaded category, or before they
        load exactly `emojisPerRow * visibleRows` emoji placeholders (none
        when that product is not positive). */
    method RenderEmojiArea() returns (area: EmojiArea)
      ensures categories.Some? ==> area == Sections(SectionsFor(categories.value))
      ensures categories.None? ==> area.SkeletonGrid? && area.heading == CategoryNameSkeleton
      ensures categories.None? ==>
        |area.cells| == (if options.emojisPerRow * options.visibleRows > 0
                         then options.emojisPerRow * options.visibleRows else 0)
      ensures categories.None? ==> forall i :: 0 <= i < |area.cells| ==> area.cells[i] == EmojiSkeleton
    {
      if categories.Some? {
        return Sections(SectionsFor(categories.value));
      }
      var emojis: seq<Skeleton> := [];
      var emojiCount := options.emojisPerRow * options.visibleRows;
      var i := 0;
      while i < emojiCount
        invariant 0 <= i && |emojis| == i
        invariant i <= (if emojiCount > 0 then emojiCount else 0)
        invariant forall k :: 0 <= k < i ==> emojis[k] == EmojiSkeleton
      {
        emojis := emojis + [EmojiSkeleton];
        i := i + 1;
      }
      area := SkeletonGrid(CategoryNameSkeleton, emojis);
    }

    /** `renderContent`: the search pane whenever there are search results,
        even empty ones, and otherwise the emoji area. */
    method RenderContent() returns (content: Content)
      ensures searchResults.Some? && |searchResults.value| > 0 ==> content == SearchResults(searchResults.value)
      ensures searchResults == Some([]) ==> content == SearchNotFound
      ensures searchResults.None? ==> content.Area?
      ensures searchResults.None? && categories.Some? ==>
        content == Area(Sections(SectionsFor(categories.value)))
      ensures searchResults.None? && categories.None? ==>
        content.area.SkeletonGrid? && content.area.heading == CategoryNameSkeleton
      ensures searchResults.None? && categories.None? ==>
        |content.area.cells| == (if options.emojisPerRow * options.visibleRows > 0
                                 then options.emojisPerRow * options.visibleRows else 0)
      ensures searchResults.None? && categories.None? ==>
        forall i :: 0 <= i < |content.area.cells| ==> content.area.cells[i] == EmojiSkeleton
    {
      if searchResults.Some? {
        content := RenderSearchResults();
      } else {
        var area := RenderEmojiArea();
        content := Area(area);
      }
    }
  }

  /** After a selection, the emoji heads the recents list and is its only
      entry with that hexcode, whenever `maxRecents` leaves room for one. */
  method SelectedEmojiHeadsRecents(picker: EmojiPickerElement, emoji: EmojiRecord)
    returns (recents: seq<EmojiRecord>)
    requires 1 <= picker.options.maxRecents
    modifies picker, picker.recentsProvider
    ensures |recents| >= 1 && recents[0] == emoji
    ensures Recents.CountHexcode(recents, emoji.hexcode) == 1
  {
    picker.SelectEmoji(emoji);
    recents := picker.recentsProvider.GetRecents(picker.options.maxRecents);
    ghost var written := picker.recentsProvider.Stored();
    Recents.AddOrUpdateFront(old(picker.recentsProvider.Stored()), emoji, picker.options.maxRecents);
    Recents.AddOrUpdateUnique(old(picker.recentsProvider.Stored()), emoji, picker.options.maxRecents);
    Recents.AddOrUpdateBound(old(picker.recentsProvider.Stored()), emoji, picker.options.maxRecents);
    assert recents == written;
  }
}
