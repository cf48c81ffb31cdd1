/** The outgoing message kinds and the markup mutation protocol they share.
    The fifteen Go structs (Animation, Audio, Contact, Dice, Document, Game,
    Location, Text, Photo, Poll, Sticker, Venue, Video, VideoNote, Voice) are one
    class, Payload, whose `content` names the kind and holds its mandatory
    fields, and whose `opts` points to an options struct of the type that kind
    pairs with, or is nil. */
module Outgoing {
  import opened Wrappers
  import opened Markup
  import opened Response

  newtype int64 = x: int | -0x8000_0000_0000_0000 <= x < 0x8000_0000_0000_0000

  /** A file reference handed to the Bot API unchanged. */
  datatype InputFile = InputFile(reference: string)

  /** A float64 passed through unchanged, kept as its IEEE 754 bit pattern. */
  datatype Float64 = Float64(bits: bv64)

  /** Each kind with the mandatory fields its Send passes to the Bot API. */
  datatype Content =
    | Animation(file: InputFile)
    | Audio(file: InputFile)
    | Contact(phoneNumber: string, firstName: string)
    | Dice(emoji: string)
    | Document(file: InputFile)
    | Game(gameShortName: string)
    | Location(latitude: Float64, longitude: Float64)
    | Text(text: string)
    | Photo(file: InputFile)
    | Poll(question: string, options: seq<string>)
    | Sticker(stickerID: string)
    | Venue(latitude: Float64, longitude: Float64, title: string, address: string)
    | Video(file: InputFile)
    | VideoNote(file: InputFile)
    | Voice(file: InputFile)

  /** The options struct types; Dice, Game and Sticker share BaseOptions. */
  datatype OptionsType =
    | AnimationOptions | AudioOptions | ContactOptions | BaseOptions
    | DocumentOptions | LocationOptions | MessageOptions | PhotoOptions
    | PollOptions | VenueOptions | VideoOptions | VideoNoteOptions | VoiceOptions

  /** The options type each kind's `Opts` field points to, and so the type
      `new` allocates for it. Only Dice, Game and Sticker share one. */
  function OptionsTypeOf(c: Content): (t: OptionsType)
    ensures t == BaseOptions <==> c.Dice? || c.Game? || c.Sticker?
    ensures t == MessageOptions <==> c.Text?
  {
    match c
    case Animation(_) => AnimationOptions
    case Audio(_) => AudioOptions
    case Contact(_, _) => ContactOptions
    case Dice(_) => BaseOptions
    case Document(_) => DocumentOptions
    case Game(_) => BaseOptions
    case Location(_, _) => LocationOptions
    case Text(_) => MessageOptions
    case Photo(_) => PhotoOptions
    case Poll(_, _) => PollOptions
    case Sticker(_) => BaseOptions
    case Venue(_, _, _, _) => VenueOptions
    case Video(_) => VideoOptions
    case VideoNote(_) => VideoNoteOptions
    case Voice(_) => VoiceOptions
  }

  /** The value of an options field other than the markup. */
  datatype FieldValue = BoolValue(b: bool) | IntValue(i: int) | StringValue(s: string)

  /** An options struct. `fields` holds the fields other than ReplyMarkup
      that differ from their zero value; a name it lacks holds the zero value. */
  class Options {
    const optionsType: OptionsType
    var replyMarkup: ReplyMarkup
    var fields: map<string, FieldValue>

    /** What `new(T)` allocates: every field at its zero value. */
    constructor Zero(t: OptionsType)
      ensures optionsType == t && replyMarkup == NoMarkup && fields == map[]
    {
      optionsType := t;
      replyMarkup := NoMarkup;
      fields := map[];
    }
  }

  /** The contents of an options struct at one moment. */
  datatype OptionsSnapshot = OptionsSnapshot(
    optionsType: OptionsType,
    replyMarkup: ReplyMarkup,
    fields: map<string, FieldValue>)

  function ZeroOptions(t: OptionsType): OptionsSnapshot {
    OptionsSnapshot(t, NoMarkup, map[])
  }

  /** The options after setting the markup slot to `value`: the prior options
      if there were any, a zero-valued struct of type `t` otherwise. */
  function ApplyMarkup(prior: Option<OptionsSnapshot>, t: OptionsType, value: ReplyMarkup): (r: OptionsSnapshot)
    ensures r.replyMarkup == value
    ensures prior.Some? ==> r.optionsType == prior.value.optionsType && r.fields == prior.value.fields
    ensures prior.None? ==> r.optionsType == t && r.fields == map[]
  {
    var o := if prior.Some? then prior.value else ZeroOptions(t);
    o.(replyMarkup := value)
  }

  /** The options after a chain of markup edits, applied first to last. */
  function ApplyMarkups(prior: Option<OptionsSnapshot>, t: OptionsType, values: seq<ReplyMarkup>): Option<OptionsSnapshot> {
    if values == [] then prior
    else Some(ApplyMarkup(ApplyMarkups(prior, t, values[..|values| - 1]), t, values[|values| - 1]))
  }

  /** A second edit overwrites the first; nothing is merged. */
  lemma OverwriteNotMerge(prior: Option<OptionsSnapshot>, t: OptionsType, first: ReplyMarkup, second: ReplyMarkup)
    ensures ApplyMarkup(Some(ApplyMarkup(prior, t, first)), t, second) == ApplyMarkup(prior, t, second)
  {
  }

  /** Of any non-empty chain of edits only the last one is visible. */
  lemma {:induction false} LastEditWins(prior: Option<OptionsSnapshot>, t: OptionsType, values: seq<ReplyMarkup>)
    requires values != []
    ensures ApplyMarkups(prior, t, values) == Some(ApplyMarkup(prior, t, values[|values| - 1]))
  {
    var init := values[..|values| - 1];
    if init != [] {
      LastEditWins(prior, t, init);
      OverwriteNotMerge(prior, t, init[|init| - 1], values[|values| - 1]);
    }
  }

  /** The Bot API operation each kind's Send invokes. */
  datatype Endpoint =
    | SendAnimation | SendAudio | SendContact | SendDice | SendDocument
    | SendGame | SendLocation | SendMessage | SendPhoto | SendPoll
    | SendSticker | SendVenue | SendVideo | SendVideoNote | SendVoice

  function EndpointOf(c: Content): (e: Endpoint)
    ensures Accepts(e, c)
  {
    match c
    case Animation(_) => SendAnimation
    case Audio(_) => SendAudio
    case Contact(_, _) => SendContact
    case Dice(_) => SendDice
    case Document(_) => SendDocument
    case Game(_) => SendGame
    case Location(_, _) => SendLocation
    case Text(_) => SendMessage
    case Photo(_) => SendPhoto
    case Poll(_, _) => SendPoll
    case Sticker(_) => SendSticker
    case Venue(_, _, _, _) => SendVenue
    case Video(_) => SendVideo
    case VideoNote(_) => SendVideoNote
    case Voice(_) => SendVoice
  }

  /** The kind of content each Bot API operation takes. */
  predicate Accepts(e: Endpoint, c: Content) {
    match e
    case SendAnimation => c.Animation?
    case SendAudio => c.Audio?
    case SendContact => c.Contact?
    case SendDice => c.Dice?
    case SendDocument => c.Document?
    case SendGame => c.Game?
    case SendLocation => c.Location?
    case SendMessage => c.Text?
    case SendPhoto => c.Photo?
    case SendPoll => c.Poll?
    case SendSticker => c.Sticker?
    case SendVenue => c.Venue?
    case SendVideo => c.Video?
    case SendVideoNote => c.VideoNote?
    case SendVoice => c.Voice?
  }

  /** `Accepts` is the `EndpointOf` table read from the operation's side; the
      two agree exactly, so the table is one-to-one: no two kinds share an
      operation and every operation serves one kind. */
  lemma EndpointMatchesKind(e: Endpoint, c: Content)
    ensures Accepts(e, c) <==> e == EndpointOf(c)
  {
  }

  /** One recorded Bot API request. */
  datatype Call = Call(endpoint: Endpoint, chatID: int64, content: Content, opts: Option<OptionsSnapshot>)

  /** The Bot API client: it records every request, and the network's answer
      to the n-th request is `network(n, request)`. */
  class Api<R> {
    var calls: seq<Call>
    const network: (nat, Call) -> (ApiResponseMessage<R>, Option<string>)

    constructor (network: (nat, Call) -> (ApiResponseMessage<R>, Option<string>))
      ensures calls == [] && this.network == network
    {
      calls := [];
      this.network := network;
    }

    method Request(c: Call) returns (res: ApiResponseMessage<R>, err: Option<string>)
      modifies this`calls
      ensures calls == old(calls) + [c]
      ensures (res, err) == network(|old(calls)|, c)
    {
      res, err := network(|calls|, c).0, network(|calls|, c).1;
      calls := calls + [c];
    }
  }

  /** One outgoing message of any kind. */
  class Payload {
    var content: Content
    var opts: Options?

    /** No options struct of another kind is ever attached. */
    ghost predicate Valid()
      reads this, opts
    {
      opts != null ==> opts.optionsType == OptionsTypeOf(content)
    }

    /** The composite literal, e.g. Text{"hello", nil}. */
    constructor (content: Content, opts: Options?)
      requires opts != null ==> opts.optionsType == OptionsTypeOf(content)
      ensures this.content == content && this.opts == opts && Valid()
    {
      this.content := content;
      this.opts := opts;
    }

    /** The options this message would be sent with; None for nil. */
    function Snapshot(): Option<OptionsSnapshot>
      reads this, opts
    {
      if opts == null then None else Some(OptionsSnapshot(opts.optionsType, opts.replyMarkup, opts.fields))
    }

    /** Allocates zero-valued options when there are none, then overwrites
        the markup slot; returns the receiver for chaining. */
    method EditMarkup(value: ReplyMarkup) returns (self: Payload)
      requires Valid()
      modifies this`opts, opts
      ensures self == this && Valid()
      ensures Snapshot() == Some(ApplyMarkup(old(Snapshot()), OptionsTypeOf(content), value))
      ensures content == old(content)
      ensures old(opts) != null ==> opts == old(opts)
      ensures old(opts) == null ==> fresh(opts)
    {
      if opts == null {
        opts := new Options.Zero(OptionsTypeOf(content));
      }
      opts.replyMarkup := value;
      self := this;
    }

    method ClipKeyboard(kbd: ReplyKeyboardMarkup) returns (self: Payload)
      requires Valid()
      modifies this`opts, opts
      ensures self == this && Valid()
      ensures Snapshot() == Some(ApplyMarkup(old(Snapshot()), OptionsTypeOf(content), Keyboard(kbd)))
      ensures old(opts) != null ==> opts == old(opts)
      ensures old(opts) == null ==> fresh(opts)
    {
      self := EditMarkup(Keyboard(kbd));
    }

    method ClipInlineKeyboard(kbd: seq<seq<InlineKeyboardButton>>) returns (self: Payload)
      requires Valid()
      modifies this`opts, opts
      ensures self == this && Valid()
      ensures Snapshot() == Some(ApplyMarkup(old(Snapshot()), OptionsTypeOf(content), Inline(InlineKeyboardMarkup(kbd))))
      ensures old(opts) != null ==> opts == old(opts)
      ensures old(opts) == null ==> fresh(opts)
    {
      self := EditMarkup(Inline(InlineKeyboardMarkup(kbd)));
    }

    method ForceReply(placeholder: string, selective: bool) returns (self: Payload)
      requires Valid()
      modifies this`opts, opts
      ensures self == this && Valid()
      ensures Snapshot() == Some(ApplyMarkup(old(Snapshot()), OptionsTypeOf(content),
                                             Force(ForceReplyMarkup(true, placeholder, selective))))
      ensures old(opts) != null ==> opts == old(opts)
      ensures old(opts) == null ==> fresh(opts)
    {
      self := EditMarkup(Force(ForceReplyMarkup(true, placeholder, selective)));
    }

    /** The request Send issues for `chatID`. */
    function SendCall(chatID: int64): Call
      reads this, opts
    {
      Call(EndpointOf(content), chatID, content, Snapshot())
    }

    /** Issues exactly one request, for this kind, and normalises its reply. */
    method Send<R, M>(chatID: int64, api: Api<R>, castMessage: R -> M) returns (r: Reply<M>)
      modifies api`calls
      ensures api.calls == old(api.calls) + [SendCall(chatID)]
      ensures r == ClearResponse(api.network(|old(api.calls)|, SendCall(chatID)).0,
                                 api.network(|old(api.calls)|, SendCall(chatID)).1, castMessage)
    {
      var res, err := api.Request(SendCall(chatID));
      r := ClearResponse(res, err, castMessage);
    }
  }

  /** Two messages pointing to one options struct share it: a markup edit
      made through one is seen by the other. */
  method SharedOptionsEdit(p: Payload, q: Payload, value: ReplyMarkup)
    requires p.Valid() && q.Valid() && p.opts != null && p.opts == q.opts
    modifies p`opts, p.opts
    ensures p.opts != null && q.opts == p.opts
    ensures q.Snapshot() == p.Snapshot() && q.opts.replyMarkup == value
    ensures q.Snapshot() == Some(old(q.Snapshot()).value.(replyMarkup := value))
  {
    var _ := p.EditMarkup(value);
  }
}
