/** Values shared by every part of the picker model. */
module Emoji {

  /** A value that may be absent (`undefined` or `null` in the picker's code). */
  datatype Option<T> = None | Some(value: T) {
    /** `x ?? default`, and `x || default` where every present value is truthy. */
    function GetOr(default: T): T {
      if Some? then value else default
    }
  }

  /** The normal completion of an operation, or the exception it throws. */
  datatype Result<T> = Ok(value: T) | Err(error: string)

  /** One emoji as the picker passes it around. `hexcode` is its identity;
      `name` is its `label`; `url` is set for caller-supplied image emoji.
      Dataset fields no modelled rule reads (`version`, `skins`,
      `shortcodes` and the like) are left out; the object spreads that copy
      them over therefore appear only as the six fields kept here. */
  datatype EmojiRecord = EmojiRecord(
    hexcode: string,
    emoji: string,
    name: string,
    url: Option<string>,
    tags: seq<string>,
    custom: bool)

  /** A caller-supplied emoji, before the picker normalises it: `tags` and
      `custom` may be missing. */
  datatype CustomEmoji = CustomEmoji(
    hexcode: string,
    emoji: string,
    name: string,
    url: Option<string>,
    tags: Option<seq<string>>,
    custom: Option<bool>)

  /** A category of the emoji dataset. */
  datatype Category = Category(key: string, order: int)

  /** The key of the synthetic category that shows the recently used emoji. */
  const RecentsKey: string := "recents"

  /** A localised message bundle, message id to text. */
  type Messages = map<string, string>

  /** The parts of a picker id `picmo-<timestamp>-<index>`. */
  datatype PickerId = PickerId(timestamp: int, index: nat)
}
