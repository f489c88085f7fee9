/** Building a picker: final options, normalised custom emoji, the data
    request and a picker id drawn from a module-wide counter. */
module CreatePicker {
  import opened Emoji
  import opened Options
  import opened CustomEmojis
  import PickerElement
  import Recents

  /** The arguments `initData` forwards to `initDatabase`, whose code is not
      part of this model. */
  datatype DatabaseRequest = InitDatabase(
    locale: string,
    dataStore: Handle,
    messages: Option<Messages>,
    emojiData: Option<seq<EmojiRecord>>)

  /** `initData`: the locale, the store factory and any static data go to
      `initDatabase` unchanged. */
  function InitData(options: PickerOptions): (r: DatabaseRequest)
    ensures r.locale == options.locale && r.dataStore == options.dataStore
    ensures r.messages == options.messages && r.emojiData == options.emojiData
  {
    InitDatabase(options.locale, options.dataStore, options.messages, options.emojiData)
  }

  /** No other option decides the request. */
  lemma InitDataReadsOnlyForwardedKeys(a: PickerOptions, b: PickerOptions)
    requires a.locale == b.locale && a.dataStore == b.dataStore
    requires a.messages == b.messages && a.emojiData == b.emojiData
    ensures InitData(a) == InitData(b)
  {
  }

  /** The module-level `pickerIndex`. */
  class PickerIds {
    var pickerIndex: nat

    constructor()
      ensures pickerIndex == 0
    {
      pickerIndex := 0;
    }

    /** `getPickerId`: the id embeds the current index, which then moves on
        by one. `now` is `Date.now()`. */
    method GetPickerId(now: int) returns (id: PickerId)
      modifies this
      ensures id == PickerId(now, old(pickerIndex))
      ensures pickerIndex == old(pickerIndex) + 1
    {
      id := PickerId(now, pickerIndex);
      pickerIndex := pickerIndex + 1;
    }
  }

  /** Two pickers created one after the other get increasing indices. */
  method SuccessiveIdsIncrease(ids: PickerIds, firstNow: int, secondNow: int)
    returns (first: PickerId, second: PickerId)
    modifies ids
    ensures first.index < second.index && second.index == first.index + 1
  {
    first := ids.GetPickerId(firstNow);
    second := ids.GetPickerId(secondNow);
  }

  /** What `createPicker` hands to the view factory. */
  datatype PickerSetup = PickerSetup(
    options: PickerOptions,
    customEmojis: seq<EmojiRecord>,
    data: DatabaseRequest,
    pickerId: PickerId)

  /** `createPicker`, up to the view factory. */
  method CreatePicker(ids: PickerIds, options: PartialOptions, now: int) returns (setup: PickerSetup)
    modifies ids
    ensures setup.options == GetOptions(options)
    ensures setup.customEmojis == NormalizeCustomEmojis(GetOptions(options).custom)
    ensures setup.data == InitData(GetOptions(options))
    ensures setup.pickerId == PickerId(now, old(ids.pickerIndex))
    ensures ids.pickerIndex == old(ids.pickerIndex) + 1
  {
    var finalOptions := GetOptions(options);
    var customEmojis := NormalizeCustomEmojis(finalOptions.custom);
    var data := InitData(finalOptions);
    var pickerId := ids.GetPickerId(now);
    setup := PickerSetup(finalOptions, customEmojis, data, pickerId);
  }

  /** `createPickerElement`: the element gets the same final options and the
      same normalised custom emoji as `createPicker` would produce, and the
      next picker id. The version follows the corrected reading
      `ResolveEmojiVersion`; as written the element's constructor throws for
      an explicit version. `detectedVersion` and `latestVersion` are what
      version detection and the dataset library report. */
  method CreatePickerElement(ids: PickerIds, options: PartialOptions, now: int,
                             detectedVersion: Option<real>, latestVersion: real,
                             recentsProvider: Recents.RecentsStore)
    returns (element: PickerElement.EmojiPickerElement, data: DatabaseRequest)
    modifies ids
    ensures fresh(element)
    ensures element.options == GetOptions(options)
    ensures element.customEmojis == NormalizeCustomEmojis(GetOptions(options).custom)
    ensures element.pickerId == PickerId(now, old(ids.pickerIndex))
    ensures ids.pickerIndex == old(ids.pickerIndex) + 1
    ensures element.emojiVersion ==
      PickerElement.ResolveEmojiVersion(GetOptions(options).emojiVersion, detectedVersion, latestVersion)
    ensures data == InitData(GetOptions(options))
    ensures element.searchResults.None? && element.categories.None?
    ensures element.recentsProvider == recentsProvider
    ensures element.emojiData.None? && element.dispatched == []
  {
    var finalOptions := GetOptions(options);
    data := InitData(finalOptions);
    var pickerId := ids.GetPickerId(now);
    var customEmojis := NormalizeCustomEmojis(finalOptions.custom);
    element := new PickerElement.EmojiPickerElement(finalOptions, pickerId, customEmojis,
                                                    detectedVersion, latestVersion, recentsProvider);
  }

  /** Without a `custom` option there are no custom emoji. */
  lemma NoCustomOptionNoCustomEmojis(options: PartialOptions)
    requires options.custom.None?
    ensures NormalizeCustomEmojis(GetOptions(options).custom) == []
  {
  }
}
