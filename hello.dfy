/** The example bot's "/start" handler: a text greeting carrying one inline
    button whose callback data triggers "/info". */
module HelloBot {
  import opened Wrappers
  import opened Markup
  import opened Response
  import opened Outgoing

  const Greeting: string := "🦜 Hello World!"
  const InfoButton: InlineKeyboardButton := InlineKeyboardButton("ℹ️ more info", "/info")

  /** The options the greeting is sent with: a fresh MessageOptions whose only
      non-zero field is the inline keyboard. */
  const GreetingOptions: OptionsSnapshot :=
    OptionsSnapshot(MessageOptions, Inline(InlineKeyboardMarkup([[InfoButton]])), map[])

  method HelloHandler() returns (msg: Payload)
    ensures fresh(msg) && msg.Valid()
    ensures msg.opts != null && fresh(msg.opts)
    ensures msg.content == Text(Greeting) && msg.Snapshot() == Some(GreetingOptions)
  {
    msg := new Payload(Text(Greeting), null);
    msg := msg.ClipInlineKeyboard([[InfoButton]]);
  }

  /** Replying to "/start" in chat `chatID` makes exactly one text request. */
  method ReplyToStart<R, M>(chatID: int64, api: Api<R>, castMessage: R -> M) returns (r: Reply<M>)
    modifies api`calls
    ensures api.calls == old(api.calls) + [Call(SendMessage, chatID, Text(Greeting), Some(GreetingOptions))]
  {
    var msg := HelloHandler();
    r := msg.Send(chatID, api, castMessage);
  }
}
