# A model of the picmo emoji picker's data rules

This project models, in Dafny, the rules of the picmo emoji picker that work on data rather than on the DOM:

- the recently used list, kept in one storage slot and deduplicated by hexcode;
- the keyboard cursor over the category tabs;
- how caller-supplied custom emoji are normalised;
- which data source a picker loads from;
- the option defaults and how they merge;
- the decisions the `picmo-emoji-picker` element takes: its emoji version, its search forwarding, its selection handling and which pane it shows.

Modules follow the source files:

| module | file | source |
|---|---|---|
| `Emoji` | emoji.dfy | shared values: emoji records, custom emoji, categories, picker ids |
| `Recents` | recents.dfy | packages/picmo/src/recents.ts |
| `CategoryTabsView` | category_tabs.dfy | packages/deskfy-custom-picmo/src/views/CategoryTabs.ts |
| `Options` | options.dfy | packages/deskfy-custom-picmo/src/options.ts |
| `CustomEmojis` | custom_emojis.dfy | the custom-emoji `map`, shared by both createPicker.ts files |
| `PickerElement` | picker_element.dfy | packages/deskfy-custom-picmo/src/elements/EmojiPickerElement.ts |
| `CreatePicker` | create_picker.dfy | packages/deskfy-custom-picmo/src/createPicker.ts |
| `RootCreatePicker` | root_create_picker.dfy | src/createPicker.ts |

State that the source updates in place is modelled as classes:

- the storage slot is `Recents.RecentsStore`, with one field `slot: Option<seq<EmojiRecord>>`, where `None` means the key is absent;
- the tab row is `CategoryTabsView.CategoryTabs`, whose `CategoryTab` objects each hold an `active` flag;
- the module-level `pickerIndex` counter is `CreatePicker.PickerIds`;
- the element is `PickerElement.EmojiPickerElement`.

The other rules are pure functions. `maxCount` is an `int`, and a negative value is cut the way `Array.prototype.slice(0, end)` cuts it, from the end of the list. Emoji versions are `real`s.

Some inputs come from code outside this model, so they are parameters:

- the detected emoji version, which `determineEmojiVersion` returns;
- the latest version constant, which `emojibase` exports;
- `Date.now()`;
- the `nanoid` string;
- the data store's search function.

Three points of the code's behaviour are worth stating on their own:

- **Dedupe order.** The comment at packages/picmo/src/recents.ts:15 describes the update as adding the new emoji at the front and removing it if it already exists. The code first cuts the stored list to `maxCount` (through `getRecents`), then filters, prepends and cuts again. `Recents.AddOrUpdateMatchesDedupThenCut` proves this agrees with "remove the old entry, prepend, then cut" whenever `maxCount >= 0` and the stored hexcodes are distinct. `Recents.CutFirstDiffersOnDuplicates` shows a stored list with a duplicated hexcode where the two differ. The model follows the code.
- **Corrupted slot.** `getRecents` does not catch `JSON.parse` errors (packages/picmo/src/recents.ts:10), so a corrupted slot throws rather than reading as empty. The model claims nothing about corrupted content.
- **Whitespace queries.** `onSearch` skips only the empty query `""` (packages/deskfy-custom-picmo/src/elements/EmojiPickerElement.ts:159). Every other query, whitespace-only included, goes to the search.

## Model

| member | source | states |
|---|---|---|
| `Recents.SliceTo` | packages/picmo/src/recents.ts:11 | `slice(0, end)` keeps a prefix: at most `end` entries for `end >= 0`, the whole list when it is shorter, and the list minus its last `-end` entries for a negative `end` |
| `Recents.WithoutHexcode` | packages/picmo/src/recents.ts:18 | the filter keeps exactly the entries whose hexcode differs, and never grows the list |
| `Recents.AddOrUpdate` | packages/picmo/src/recents.ts:16-19 | the list `addOrUpdateRecent` writes: every entry is the new emoji or an older stored entry with another hexcode, and it is at most one entry longer than the stored list; the lemmas below state its other properties |
| `Recents.RecentsStore.Clear` | packages/picmo/src/recents.ts:5-7 | the key is removed |
| `Recents.RecentsStore.GetRecents` | packages/picmo/src/recents.ts:9-12 | returns the stored list cut to `maxCount`; for `maxCount >= 0` never more than `maxCount` entries; `[]` when the key is absent; it does not write |
| `Recents.RecentsStore.AddOrUpdateRecent` | packages/picmo/src/recents.ts:14-22 | the slot afterwards holds the new emoji, then the first `maxCount` stored entries without its hexcode, all cut to `maxCount` |
| `Recents.ClearThenAdd` | packages/picmo/src/recents.ts:5-21 | after `clear`, `getRecents` is empty, and for `maxCount >= 1` a following add stores just that emoji |
| `Recents.GetRecentsBound` | packages/picmo/src/recents.ts:10-11 | for `n >= 0`, `getRecents(n)` has at most `n` entries, none for `n = 0`, and none when nothing is stored |
| `Recents.AddOrUpdateFront` | packages/picmo/src/recents.ts:16-19 | with `maxCount >= 1` the new emoji is the first stored entry |
| `Recents.AddOrUpdateBound` | packages/picmo/src/recents.ts:19 | for `maxCount >= 0`, the stored list has at most `maxCount` entries, and none for `maxCount = 0` |
| `Recents.AddOrUpdateUnique` | packages/picmo/src/recents.ts:16-19 | exactly one stored entry has the new emoji's hexcode when `maxCount >= 1`, and none when `maxCount = 0` |
| `Recents.AddOrUpdateRest` | packages/picmo/src/recents.ts:18-19 | the entries after the new one are a prefix, as long as fits, of the old first `maxCount` entries without its hexcode, and keep the stored order |
| `Recents.AddOrUpdateKeepsDistinct` | packages/picmo/src/recents.ts:16-19 | a stored list without duplicate hexcodes stays without them |
| `Recents.AddOrUpdateIdempotent` | packages/picmo/src/recents.ts:14-21 | for `maxCount >= 0`, adding the same emoji twice in a row stores the same list as adding it once |
| `Recents.AddOrUpdateMatchesDedupThenCut` | packages/picmo/src/recents.ts:16-19 | for `maxCount >= 0` and distinct stored hexcodes, cutting before the filter gives the same list as removing the old entry, prepending and cutting |
| `Recents.CutFirstDiffersOnDuplicates` | packages/picmo/src/recents.ts:16-19 | with a duplicated hexcode the code's list `[a]` differs from the dedupe-then-cut list `[a, c]` |
| `CategoryTabsView.CategoryTabs.constructor` | packages/deskfy-custom-picmo/src/views/CategoryTabs.ts:17-57 | the constructor together with the tabs `renderSync` builds: one distinct tab per category, in order, and the cursor at index 0 |
| `CategoryTabsView.CategoryTabs.CurrentCategory` | packages/deskfy-custom-picmo/src/views/CategoryTabs.ts:66-68 | the category under the cursor, or `undefined` (None) exactly when the index is outside the list |
| `CategoryTabsView.NewTabsShowFirstCategory` | packages/deskfy-custom-picmo/src/views/CategoryTabs.ts:19 | a newly built row with categories shows `categories[0]` |
| `CategoryTabsView.CategoryTabs.GetTargetCategory` | packages/deskfy-custom-picmo/src/views/CategoryTabs.ts:85-95 | below 0 gives the last index, at or past the end gives 0, an index in range is kept, and for a non-empty list the result is always in range |
| `CategoryTabsView.CategoryTabs.SetActiveTab` | packages/deskfy-custom-picmo/src/views/CategoryTabs.ts:74-83 | the cursor moves to `index`, the old tab is deactivated and tab `index` activated (it stays active when the two are the same), and every other tab keeps its flag; the caller must give an index in range |
| `CategoryTabsView.CategoryTabs.StepSelectedTab` | packages/deskfy-custom-picmo/src/views/CategoryTabs.ts:97-105 | the cursor goes to `getTargetCategory(index + step)` with the tab flags moved along; with no categories the handler throws and changes nothing |
| `CategoryTabsView.CategoryTabs.ArrowLeft` | packages/deskfy-custom-picmo/src/views/CategoryTabs.ts:29 | one tab left, from the first to the last; the old tab is deactivated, the new one activated and every other tab keeps its flag; the cursor stays in range |
| `CategoryTabsView.CategoryTabs.ArrowRight` | packages/deskfy-custom-picmo/src/views/CategoryTabs.ts:30 | one tab right, from the last to the first; the old tab is deactivated, the new one activated and every other tab keeps its flag; the cursor stays in range |
| `Options.DefaultOptions` | packages/deskfy-custom-picmo/src/options.ts:8-30 | the table has a value for every key except `renderer`, `recentsProvider`, `messages` and `emojiData`; `Options.NoArgumentGivesDefaults` states the values |
| `Options.GetOptions` | packages/deskfy-custom-picmo/src/options.ts:32-39 | each supplied key wins and each missing key takes the table's value: `IndexedDbStoreFactory`, `lightTheme`, flags `true`, 8 emojis per row, 6 rows, `'auto'`, `en`, `'en'`, 50 recents, no custom emoji; a missing renderer or recents provider becomes a new `NativeRenderer` or `LocalStorageProvider` |
| `Options.NoArgumentGivesDefaults` | packages/deskfy-custom-picmo/src/options.ts:8-32 | `getOptions()` yields `maxRecents = 50`, `emojiVersion = 'auto'`, `locale = 'en'`, 8 per row, 6 rows, `custom = []`, the native renderer and the local-storage provider |
| `Options.SuppliedFalseOverrides` | packages/deskfy-custom-picmo/src/options.ts:33-35 | a supplied `false` overrides a `true` default: the merge is a spread, not `\|\|` |
| `Options.GetOptionsIdempotent` | packages/deskfy-custom-picmo/src/options.ts:32-39 | passing `getOptions(o)` back through `getOptions` gives `getOptions(o)` |
| `CustomEmojis.NormalizeCustomEmojis` | packages/deskfy-custom-picmo/src/createPicker.ts:37-41 | one record per input, in order; each is custom even if the input said otherwise; its tags are `"custom"` followed by the input's tags (just `["custom"]` when it had none); hexcode, glyph, label and url are copied |
| `CustomEmojis.NormalizeAppend` | packages/deskfy-custom-picmo/src/createPicker.ts:37 | the normalisation works entry by entry: normalising `a + b` is normalising `a` then `b` |
| `CreatePicker.InitData` | packages/deskfy-custom-picmo/src/createPicker.ts:16-18 | the locale, store factory, messages and emoji data reach `initDatabase` unchanged |
| `CreatePicker.InitDataReadsOnlyForwardedKeys` | packages/deskfy-custom-picmo/src/createPicker.ts:16-18 | options that agree on those four keys make the same request |
| `CreatePicker.PickerIds.GetPickerId` | packages/deskfy-custom-picmo/src/createPicker.ts:20-24 | the id carries the current index, and the counter moves on by one |
| `CreatePicker.SuccessiveIdsIncrease` | packages/deskfy-custom-picmo/src/createPicker.ts:22-24 | two successive ids carry indices `k` and `k + 1` |
| `CreatePicker.CreatePicker` | packages/deskfy-custom-picmo/src/createPicker.ts:33-66 | the view factory gets `getOptions(options)`, its custom emoji normalised, the data request for those options and the next picker id |
| `CreatePicker.CreatePickerElement` | packages/deskfy-custom-picmo/src/createPicker.ts:68-84 | a new element with the same final options and the same normalisation as `createPicker`, the next picker id, the recents provider it is given, no data store, no categories, no search results and nothing dispatched yet, and, following the corrected version reading (see Findings), its version resolved by `ResolveEmojiVersion` from the final options; as written, an explicit version makes it throw after the id is drawn and `initData` has started |
| `CreatePicker.NoCustomOptionNoCustomEmojis` | packages/deskfy-custom-picmo/src/createPicker.ts:75-79 | without a `custom` option the picker has no custom emoji |
| `RootCreatePicker.InitData` | src/createPicker.ts:13-19 | static data exactly when both `emojiData` and `messages` are given, carried unchanged; otherwise the CDN for `options.locale` |
| `RootCreatePicker.StaticPathIgnoresLocale` | src/createPicker.ts:14-15 | on the static path the locale makes no difference |
| `RootCreatePicker.CdnPathIgnoresStaticData` | src/createPicker.ts:16-17 | on the CDN path whatever part of the static data is present makes no difference |
| `RootCreatePicker.CreateEmojiPicker` | src/createPicker.ts:27-57 | final options from `getOptions`; the custom emoji are exactly `NormalizeCustomEmojis` of the `custom` option (one per entry, each custom and tagged `"custom"` first, none when the option is absent); the data source is exactly `initData` of the final options; the id `EmojiPicker-<nanoid>` |
| `PickerElement.ResolveEmojiVersion` | packages/deskfy-custom-picmo/src/elements/EmojiPickerElement.ts:127-129 | an explicit version is used as is; with `'auto'` the detected version is used unless it is `null` or `0`, in which case the latest known version is used |
| `PickerElement.ConstructorEmojiVersionAsWritten` | packages/deskfy-custom-picmo/src/elements/EmojiPickerElement.ts:124-131 | as written, `'auto'` resolves as intended while any explicit version throws, because `this.options` is still unassigned |
| `PickerElement.ExplicitVersionThrowsAsWritten` | packages/deskfy-custom-picmo/src/elements/EmojiPickerElement.ts:129-131 | `emojiVersion: 14` throws as written, and resolves to 14 as intended |
| `PickerElement.EmojiPickerElement.constructor` | packages/deskfy-custom-picmo/src/elements/EmojiPickerElement.ts:115-132 | following the corrected version reading (see Findings): the element keeps its options, id and custom emoji, runs with `ResolveEmojiVersion` of its setting, and starts with no store, no categories and no search results; as written, an explicit version throws here instead |
| `PickerElement.EmojiPickerElement.OnEmojiDataResolved` | packages/deskfy-custom-picmo/src/elements/EmojiPickerElement.ts:134-136 | the resolved data store is kept |
| `PickerElement.EmojiPickerElement.OnCategoriesResolved` | packages/deskfy-custom-picmo/src/elements/EmojiPickerElement.ts:137-139 | the loaded categories are kept |
| `PickerElement.EmojiPickerElement.OnSearch` | packages/deskfy-custom-picmo/src/elements/EmojiPickerElement.ts:158-170 | `""` clears the results and does not search; any other query, whitespace included, forwards exactly the query, the custom emoji, the resolved version and the current categories, and stores the results; before the store resolves it throws and the results are unchanged |
| `PickerElement.EmojiPickerElement.SelectEmoji` | packages/deskfy-custom-picmo/src/elements/EmojiPickerElement.ts:145-156 | the recents provider gets `addOrUpdateRecent(emoji, options.maxRecents)`, and the `emoji:select` event comes before `recents:update` |
| `PickerElement.SelectedEmojiHeadsRecents` | packages/deskfy-custom-picmo/src/elements/EmojiPickerElement.ts:152-153 | after a selection with `maxRecents >= 1` the emoji heads the recents and is their only entry with its hexcode |
| `PickerElement.EmojiPickerElement.RenderSearchResults` | packages/deskfy-custom-picmo/src/elements/EmojiPickerElement.ts:172-176 | the results pane exactly when there is at least one result, and "not found" otherwise |
| `PickerElement.SectionsFor` | packages/deskfy-custom-picmo/src/elements/EmojiPickerElement.ts:180-184 | one section per category, in order, and a recents section exactly for the `recents` key |
| `PickerElement.EmojiPickerElement.RenderEmojiArea` | packages/deskfy-custom-picmo/src/elements/EmojiPickerElement.ts:178-199 | after the categories load, their sections; before that, a heading placeholder and exactly `emojisPerRow * visibleRows` emoji placeholders, or none when that product is not positive |
| `PickerElement.EmojiPickerElement.RenderContent` | packages/deskfy-custom-picmo/src/elements/EmojiPickerElement.ts:201-203 | the search pane whenever search results exist: the results, or "not found" when they are empty; otherwise the emoji area: the category sections once categories have loaded, and before that a heading placeholder over exactly `emojisPerRow * visibleRows` emoji placeholders (none when that product is not positive) |

## Left out

- Dataset loading, `initDatabase`, `initDatabaseFromCdn` and `initDatabaseWithStaticData`: their code is not part of this model. The model records the requests made to them (`CreatePicker.DatabaseRequest`, `RootCreatePicker.DataSource`).
- `DataStore.searchEmojis` and `getCategories`: their code is not part of this model. The search is a function parameter, and the categories arrive as a method argument.
- Search ranking, version filtering and category indexing: their code is not part of this model.
- JSON serialisation and `localStorage`: the slot holds the typed list directly, so parse errors of a corrupted slot are not modelled. Other storage keys are not modelled either.
- `LocalStorageProvider`: this file is not part of the model. The element's recents provider is taken to behave like `recents.ts`.
- `src/options.ts`: this file is not part of the model. `RootCreatePicker.CreateEmojiPicker` uses the deskfy `getOptions` in its place.
- `PickerElement.EmojiPickerElement.constructor`, `CreatePicker.CreatePickerElement`: these follow the corrected version reading. They do not model the TypeError that the code as written throws for an explicit `emojiVersion`. `PickerElement.ConstructorEmojiVersionAsWritten` models that throw; as written, `createPickerElement` has by then drawn a picker id and started `initData`.
- `CreatePicker.CreatePickerElement`: `finalOptions.rootElement.replaceChildren(pickerElement)` (packages/deskfy-custom-picmo/src/createPicker.ts:82) is not modelled. The default options have no `rootElement` (packages/deskfy-custom-picmo/src/options.ts:8-30), so the code throws there when the caller gives none, while the model returns the element. The DOM is outside this model.
- `Recents.GetRecentsBound`, `Recents.AddOrUpdateBound`, `Recents.AddOrUpdateIdempotent`, `Recents.AddOrUpdateMatchesDedupThenCut`: these are stated only for `maxCount >= 0`. `Recents.SliceTo`, `Recents.AddOrUpdate` and `Recents.RecentsStore.GetRecents` do follow `slice` for a negative count. With a negative count, `slice` keeps more than `maxCount` entries, and a second identical add can shorten the list again.
- `Options.GetOptions`: does not model a key that is present with the value `undefined` (a JavaScript spread would copy `undefined` over the default). A supplied key is a present value.
- `Options.GetOptions`: the `||` fallback for `renderer` and `recentsProvider` is modelled as present versus absent, since those options are objects and every object is truthy.
- `PickerElement.EmojiPickerElement.RenderEmojiArea`: `emojisPerRow` and `visibleRows` are integers, so JavaScript's coercion of non-numbers (`NaN`) is not modelled.
- `PickerElement.ResolveEmojiVersion`: `parseFloat(LATEST_EMOJI_VERSION)` is a parameter, and a detected `NaN` is not modelled.
- Asynchrony: promise chaining, the `await` in `onSearch` and the `await renderer.doEmit` in `selectEmoji` are modelled as taking effect at once. Races between overlapping searches are not modelled.
- `PickerElement.Dispatched`: the detail of the `emoji:select` DOM event is the renderer's `doEmit` output, which the model replaces with the emoji itself.
- Picker id strings: `picmo-${Date.now()}-${index}` is kept as its two parts (`Emoji.PickerId`), not formatted as a string.
- `CategoryTabsView.CategoryTabs.constructor`: `CategoryTab.ts` is not part of this model, so tabs are assumed to start inactive. Focus handling in `setActive` options is not modelled.
- `checkOverflow`, tab rendering, Lit templates, styles, themes, `SearchBar`, `EmojiCategory`, `Emoji`, icons and error views: DOM and presentation code with no data rules.
- `popupPicker.ts`: DOM construction, document listeners, animation and positioning.
- Storybook, Vite and demo files: build configuration and demo pages.

## Findings

| source | as written | input that shows it | evidently intended | confidence | as-written member | corrected member |
|---|---|---|---|---|---|---|
| packages/deskfy-custom-picmo/src/elements/EmojiPickerElement.ts:129 | the explicit-version branch reads `this.options.emojiVersion`, but `this.options` is only assigned on line 131, so the constructor throws a TypeError | `createPickerElement({ emojiVersion: 14, ... })` | use the constructor argument `options.emojiVersion`, so the version is 14 | high; not executed | `PickerElement.ConstructorEmojiVersionAsWritten` (with `PickerElement.ExplicitVersionThrowsAsWritten`) | `PickerElement.ResolveEmojiVersion` |
