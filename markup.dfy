/** Reply markup values a message can carry: a reply keyboard, an inline
    keyboard or a forced-reply directive, or nothing at all. */
module Markup {

  datatype KeyboardButton = KeyboardButton(text: string)

  datatype ReplyKeyboardMarkup = ReplyKeyboardMarkup(
    keyboard: seq<seq<KeyboardButton>>,
    resizeKeyboard: bool,
    oneTimeKeyboard: bool,
    inputFieldPlaceholder: string,
    selective: bool)

  datatype InlineKeyboardButton = InlineKeyboardButton(text: string, callbackData: string)

  datatype InlineKeyboardMarkup = InlineKeyboardMarkup(inlineKeyboard: seq<seq<InlineKeyboardButton>>)

  datatype ForceReplyMarkup = ForceReplyMarkup(forceReply: bool, inputFieldPlaceholder: string, selective: bool)

  /** The single markup slot of an options struct; NoMarkup is its zero (nil) value. */
  datatype ReplyMarkup =
    | NoMarkup
    | Keyboard(replyKeyboard: ReplyKeyboardMarkup)
    | Inline(inline: InlineKeyboardMarkup)
    | Force(force: ForceReplyMarkup)
}
