/** Response normalisation: how a raw Bot API reply and a transport error are
    turned into exactly one of an error or a sent message. */
module Response {
  import opened Wrappers
  import opened Decimal

  /** Origin tag of an error raised on this side of the network exchange. */
  const EchotronOrigin: string := "Echotron"
  /** Origin tag of a request the Bot API refused. */
  const TelegramOrigin: string := "Telegram"
  /** The code every transport failure is reported with. */
  const TransportErrorCode: int := 1

  /** An error produced from a library or Bot API response. */
  datatype ResponseError = ResponseError(from: string, errorCode: int, description: string)
  {
    /** "[code] From: Description", as fmt.Sprint concatenates string and
        int operands (no separator is inserted next to a string operand). */
    function Error(): (s: string)
      ensures |s| == |FormatInt(errorCode)| + |from| + |description| + 5
      ensures s[0] == '[' && s[1..1 + |FormatInt(errorCode)|] == FormatInt(errorCode)
      ensures s[1 + |FormatInt(errorCode)|..3 + |FormatInt(errorCode)|] == "] "
      ensures s[3 + |FormatInt(errorCode)|..|s| - |description|] == from + ": "
      ensures s[|s| - |description|..] == description
    {
      "[" + FormatInt(errorCode) + "] " + from + ": " + description
    }
  }

  /** The ok / error_code / description envelope every Bot API reply carries. */
  datatype ApiResponseBase = ApiResponseBase(ok: bool, errorCode: int, description: string)

  /** A reply whose result payload is a sent message of type R. */
  datatype ApiResponseMessage<R> = ApiResponseMessage(base: ApiResponseBase, result: R)

  /** The two values a send returns: the sent message or nil, and an error or nil. */
  datatype Reply<M> = Reply(message: Option<M>, error: Option<ResponseError>)

  /** Classifies a reply; `err` is the text of the transport error, None when
      there was none. A transport error wins without looking at the reply;
      otherwise a refusal by the Bot API is reported with its own code. */
  function ParseResponseError<R>(res: ApiResponseMessage<R>, err: Option<string>): (r: Option<ResponseError>)
    ensures err.Some? ==> r == Some(ResponseError(EchotronOrigin, TransportErrorCode, err.value))
    ensures err.None? && !res.base.ok ==>
              r == Some(ResponseError(TelegramOrigin, res.base.errorCode, res.base.description))
    ensures r.None? <==> err.None? && res.base.ok
  {
    if err.Some? then Some(ResponseError(EchotronOrigin, TransportErrorCode, err.value))
    else if !res.base.ok then Some(ResponseError(TelegramOrigin, res.base.errorCode, res.base.description))
    else None
  }

  /** Error, or the message cast from the reply's result by `castMessage`. */
  function ClearResponse<R, M>(res: ApiResponseMessage<R>, err: Option<string>, castMessage: R -> M): (r: Reply<M>)
    ensures r.message.Some? != r.error.Some?
    ensures r.error == ParseResponseError(res, err)
    ensures r.message.Some? ==> r.message.value == castMessage(res.result)
  {
    var e := ParseResponseError(res, err);
    if e.Some? then Reply(None, e) else Reply(Some(castMessage(res.result)), None)
  }

  /** The origin tag of a classified error tells which check produced it. */
  lemma OriginTellsCause<R>(res: ApiResponseMessage<R>, err: Option<string>, e: ResponseError)
    requires ParseResponseError(res, err) == Some(e)
    ensures e.from == EchotronOrigin <==> err.Some?
    ensures e.from == TelegramOrigin <==> err.None? && !res.base.ok
    ensures e.from == EchotronOrigin ==> e.errorCode == TransportErrorCode
  {
  }

  /** With a transport error present the reply is never consulted. */
  lemma TransportErrorIgnoresReply<R>(res1: ApiResponseMessage<R>, res2: ApiResponseMessage<R>, msg: string)
    ensures ParseResponseError(res1, Some(msg)) == ParseResponseError(res2, Some(msg))
  {
  }

  /** Index of the first occurrence of `c` in `s`. */
  function IndexOf(s: string, c: char): (r: Option<nat>)
    ensures r.Some? ==> r.value < |s| && s[r.value] == c
    ensures r.Some? ==> forall k :: 0 <= k < r.value ==> s[k] != c
    ensures r.None? ==> forall k :: 0 <= k < |s| ==> s[k] != c
  {
    if |s| == 0 then None
    else if s[0] == c then Some(0)
    else match IndexOf(s[1..], c)
      case None => None
      case Some(k) => Some(k + 1)
  }

  /** Reads the code back out of a rendered error: the text between the
      opening '[' and the first ']'. */
  function ParseErrorCode(s: string): Option<int> {
    if |s| == 0 || s[0] != '[' then None
    else match IndexOf(s[1..], ']')
      case None => None
      case Some(k) => ParseInt(s[1..][..k])
  }

  /** The rendering of an error keeps its code recoverable. */
  lemma ErrorCodeRecoverable(e: ResponseError)
    ensures ParseErrorCode(e.Error()) == Some(e.errorCode)
  {
    var f := FormatInt(e.errorCode);
    var s := e.Error();
    var tail := s[1..];
    assert tail[..|f|] == f;
    assert tail[|f|] == ']';
    forall k | 0 <= k < |f| ensures tail[k] != ']' {
      assert tail[k] == f[k];
    }
    FormatIntRoundTrip(e.errorCode);
  }
}
