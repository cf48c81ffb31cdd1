# Parrbot outgoing messages, modelled in Dafny

This project models the outgoing-message layer of Parrbot, a Telegram bot
framework written in Go on top of the echotron Bot API client
(`message/outgoing.go`). It covers two things.

- **Response classification.** A send returns a raw Bot API reply together
  with a possible transport error. The layer turns that pair into exactly one
  of two results. The first is a `ResponseError` tagged "Echotron", with code 1
  and the transport error's text. The second is a `ResponseError` tagged
  "Telegram", carrying the Bot API's `error_code` and `description` when the
  reply's `ok` flag is false. Otherwise the result is the sent message. An
  error renders as `"[code] From: Description"`.
- **Markup mutation.** Every message kind (Animation, Audio, Contact, Dice,
  Document, Game, Location, Text, Photo, Poll, Sticker, Venue, Video, VideoNote,
  Voice) has the fluent `ClipKeyboard`, `ClipInlineKeyboard` and `ForceReply`
  operations. Each goes through `editMarkup`. That method allocates a zero-valued
  options struct of the kind's own options type when `Opts` is nil. It then
  overwrites the struct's single `ReplyMarkup` slot in place and returns the
  receiver.

The fifteen structs are identical apart from their content fields, their
options type and the Bot API operation their `Send` calls, so they are modelled as one class, `Outgoing.Payload`. Its
`content` datatype names the kind and holds the kind's mandatory fields.
`OptionsTypeOf` gives the options type that `new` allocates for each kind.
Dice, Game and Sticker share `BaseOptions`. The options struct is a class of
its own (`Outgoing.Options`), so two messages that point to the same struct see
each other's edits, as Go pointers do. A Go message is a value: copying one (`b := a`, or the
value receiver of `Send`) copies the struct and shares only `Opts`, which here
corresponds to `new Payload(a.content, a.opts)`, not to copying the reference.

`Send` talks to the Bot API through `Outgoing.Api`. This object records every
request and answers the n-th request with a fixed function of `n` and the
request, which stands in for the network. The cast from the reply's result to
the framework's message type is not part of this model (it lives in another
file), so it is passed to `ClearResponse` and `Send` as a parameter.

Files: `wrappers.dfy` (Option), `decimal.dfy` (Go's decimal rendering of an
`int`, and the parser used to state that the rendering keeps the code),
`response.dfy`, `markup.dfy` (the markup values), `outgoing.dfy` (kinds,
options, payload class, transport, `Send`), `hello.dfy` (the example bot's
`/start` handler from `main.go`).

## Model

| member | source | states |
|---|---|---|
| `Response.ResponseError.Error` | message/outgoing.go:34-36 | the rendering is '[', the decimal code, "] ", the origin, ": " and the description, in that order: each piece is pinned to its position in the text |
| `Response.ErrorCodeRecoverable` | message/outgoing.go:34-36 | the code of every error can be read back from its rendering (the text between '[' and the first ']' parses to the code) |
| `Decimal.DigitsOf` | message/outgoing.go:35 | the rendering of a natural number is non-empty, all digits, and has no leading zero |
| `Decimal.FormatInt` | message/outgoing.go:35 | an int renders as digits only, preceded by one '-' exactly when it is negative |
| `Decimal.FormatIntRoundTrip` | message/outgoing.go:35 | parsing the rendering of any int gives that int back |
| `Response.ParseResponseError` | message/outgoing.go:38-46 | a transport error yields ("Echotron", 1, its text) whatever the reply; otherwise a reply with ok false yields ("Telegram", its error code, its description); no error exactly when there is no transport error and ok is true |
| `Response.TransportErrorIgnoresReply` | message/outgoing.go:39-41 | with a transport error present, two different replies classify identically |
| `Response.OriginTellsCause` | message/outgoing.go:38-46 | a classified error's origin is "Echotron" exactly when a transport error occurred (then its code is 1), and "Telegram" exactly when the reply was refused without one |
| `Response.ClearResponse` | message/outgoing.go:51-57 | exactly one of message and error is present; the error is the classification's result, and the message, when present, is the cast of the reply's result |
| `Outgoing.Options.Zero` | message/outgoing.go:97-99 | a freshly allocated options struct has the requested type, no markup, and every other field at its zero value |
| `Outgoing.ApplyMarkup` | message/outgoing.go:96-103 | after a markup edit the markup slot holds exactly the new value; the prior options' type and other fields are kept, and absent options become a zero-valued struct of the kind's type |
| `Outgoing.OverwriteNotMerge` | message/outgoing.go:97-100 | two markup edits in a row leave the same options as the second edit alone |
| `Outgoing.LastEditWins` | message/outgoing.go:96-103 | after any non-empty chain of markup edits the options equal those of the last edit applied to the starting options |
| `Outgoing.OptionsTypeOf` | message/outgoing.go:97-99 | the options type each kind allocates (the same per kind at lines 98, 138, ..., 660); Dice, Game and Sticker are exactly the kinds sharing BaseOptions, and Text alone uses MessageOptions |
| `Outgoing.EndpointOf` | message/outgoing.go:72-74 | the Bot API operation each kind's Send invokes (the same per kind at lines 73, 113, ..., 635); the operation takes that kind of content |
| `Outgoing.EndpointMatchesKind` | message/outgoing.go:352-354 | the kind-to-operation table is one-to-one: an operation takes a kind of content exactly when it is that kind's operation |
| `Outgoing.Payload.constructor` | message/outgoing.go:345-348 | a message literal holds the given content and options pointer (nil allowed), and the options are of the kind's own type |
| `Outgoing.Payload.EditMarkup` | message/outgoing.go:376-383 | returns the receiver; options are non-nil afterwards and equal the markup edit applied to the old options; an existing struct is kept (same object), a missing one is freshly allocated; the content is untouched |
| `Outgoing.Payload.ClipKeyboard` | message/outgoing.go:357-359 | the markup slot holds the given reply keyboard as given, with the same allocation and return behaviour as EditMarkup |
| `Outgoing.Payload.ClipInlineKeyboard` | message/outgoing.go:362-364 | the markup slot holds an inline keyboard whose rows are the given rows unchanged |
| `Outgoing.Payload.ForceReply` | message/outgoing.go:367-373 | the markup slot holds a forced reply with the flag set, the given placeholder and the given selective flag |
| `Outgoing.Payload.Send` | message/outgoing.go:352-354 | appends exactly one request to the client's log: this kind's operation, the chat, the content unchanged and the current options; the result is the normalised reply to that request |
| `Outgoing.Api.Request` | message/outgoing.go:353 | one Bot API request is logged and answered by the network's reply for its position in the log |
| `Outgoing.SharedOptionsEdit` | message/outgoing.go:380 | for any two messages pointing to the same options struct, a markup edit through one leaves both pointing to that struct; the other sees the new markup, and its options type and other fields keep their old values |
| `HelloBot.HelloHandler` | main.go:19-26 | the greeting is a Text with freshly allocated MessageOptions whose only non-zero field is one inline button "ℹ️ more info" with callback data "/info" |
| `HelloBot.ReplyToStart` | main.go:24-25 | sending the greeting to a chat issues exactly one SendMessage request carrying the greeting text and that inline keyboard |

## Left out

- The global `api` handle, `LoadAPI` and `API` (message/outgoing.go:9-24): process-wide state around the echotron constructor. `Send` takes the client as a parameter instead.
- The network: what the Bot API answers is the client's fixed `network` function of the request's position and contents. Real replies are not deterministic.
- Outgoing.Payload.Send: its result is tied to the recorded reply, but the message cast (`castMessage`, not part of this model) is an arbitrary total function parameter. Whether the cast could yield nil is not modelled.
- Response.ResponseError.Error: the origin and the description cannot both be read back from the rendering, because an origin may itself contain ": ". Only the code is proved recoverable.
- Decimal.FormatInt: Go's `int` width is not modelled. Error codes are unbounded integers, so 64-bit wrap-around never arises.
- The fields of each echotron options struct other than `ReplyMarkup` are not part of this model. They appear as a name-to-value map, in which a missing name means the zero value.
- The echotron markup types are reduced to the fields used here: a reply keyboard's buttons carry only their text, and inline buttons carry only text and callback data.
- Go slices are shared with the caller, but keyboard rows (message/outgoing.go:362-363), reply-keyboard rows and `Poll.Options` (message/outgoing.go:428) are modelled as immutable sequences. A caller's later write into a slice it passed in, which Go would show in the stored markup or poll, is not captured.
- `InputFile` and the `float64` coordinates of Location and Venue are opaque values passed through unchanged. Floating point is not modelled.
- The command router (`robot.Start`, `robot.Command` and the per-chat workers) is not part of this model. Its package is not among the modelled files, so neither trigger matching nor the "nothing to send" short-circuit is modelled.
- The callback handler's `EditText` call (main.go:28-31) is a foreign echotron call.
- ChatAction and MediaGroup (message/outgoing.go:667-678) are commented out in the source.
