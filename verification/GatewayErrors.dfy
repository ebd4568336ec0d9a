/**
 How the REST client and the execution gateway type a failed request: definitive reject or unknown outcome.
 */
module GatewayErrors {
  import opened Decimal
  import opened ErrorReasons
  import opened Wrappers

  /** A request's fate below the gateway: refused before it was sent (no instrument metadata to round by), no answer, or an
      HTTP response whose body may or may not parse. */
  datatype Reply =
    | NotSent(what: string)
    | Unreachable(what: string)
    | Response(status: nat, body: string, parsed: Result<ApiStatus, string>)

  datatype ApiStatus = ApiStatus(retCode: int, retMsg: string)

  datatype Exception =
    | TransportError(what: string)
    | ExecutionUnknown(what: string)
    | OrderNotFound(what: string)
    | RuntimeError(what: string)
    | GatewayError(kind: RejectKind, what: string)

  predicate IsExecutionUnknownCode(retCode: int) {
    retCode == 10000 || retCode == 10016 || retCode == 170007
  }

  predicate IsOrderNotFoundCode(retCode: int) {
    retCode == 110001 || retCode == 170213
  }

  /** `placeOrder` and `amendOrder`, `checkResponse` and `handleBybitResponse`: what the REST client throws, if anything. */
  function RestCall(reply: Reply): Option<Exception> {
    match reply
    case NotSent(what) => Some(RuntimeError(what))
    case Unreachable(what) => Some(TransportError(what))
    case Response(status, body, parsed) =>
      if status != 200 then
        Some(if status >= 500 then ExecutionUnknown(BadResponse(status, body)) else RuntimeError(BadResponse(status, body)))
      else
        match parsed
        case Err(what) => Some(RuntimeError(what))
        case Ok(api) =>
          if api.retCode == 0 then None
          else
            var msg := ApiError(api.retCode, api.retMsg);
            Some(if IsExecutionUnknownCode(api.retCode) then ExecutionUnknown(msg)
                 else if IsOrderNotFoundCode(api.retCode) then OrderNotFound(msg)
                 else RuntimeError(msg))
  }

  /** The gateway's handlers: a transport error passes, an ambiguous text passes, anything else becomes a reject. */
  function Translate(e: Exception): Exception {
    if e.TransportError? || IsAmbiguousOutcomeReason(e.what) then e
    else GatewayError(ClassifyRejectReason(e.what), e.what)
  }

  function Translated(reply: Reply): Option<Exception> {
    match RestCall(reply)
    case Some(e) => Some(Translate(e))
    case None => None
  }

  /** `requireEventStream`. */
  function EventStreamGate(live: bool, op: string): Option<Exception> {
    if live then None
    else Some(GatewayError(Throttled, "private stream not live: " + op))
  }

  function SubmitPostOnlyLimit(live: bool, reply: Reply): Option<Exception> {
    if live then Translated(reply) else EventStreamGate(live, "submit")
  }

  function AmendPrice(live: bool, reply: Reply): Option<Exception> {
    if live then Translated(reply) else EventStreamGate(live, "amend")
  }

  /** Closing a position is not gated. */
  function SubmitReduceOnlyMarket(reply: Reply): Option<Exception> {
    Translated(reply)
  }

  // ---------------------------------------------------------------- definitive or unknown

  predicate Rejected(thrown: Option<Exception>) {
    thrown.Some? && thrown.value.GatewayError?
  }

  /** The client typed the outcome as unknown. */
  predicate TypedUnknown(reply: Reply) {
    var e := RestCall(reply);
    e.Some? && (e.value.TransportError? || e.value.ExecutionUnknown?)
  }

  /** An HTTP 200 answer whose body does not parse: it says nothing about the order. */
  predicate Unreadable(reply: Reply) {
    reply.Response? && reply.status == 200 && reply.parsed.Err?
  }

  /** What a caller could read off: the request was never sent, or the answer denies it and leaves nothing open. */
  predicate DeniesOutright(reply: Reply) {
    match reply
    case NotSent(what) => !IsAmbiguousOutcomeReason(what)
    case Unreachable(_) => false
    case Response(status, body, parsed) =>
      if status != 200 then Print(status)[0] != '5' && !IsAmbiguousOutcomeReason(body)
      else
        && parsed.Ok?
        && parsed.value.retCode != 0
        && !StartsWith(parsed.value.retCode, "10000") && !StartsWith(parsed.value.retCode, "10016")
        && !IsAmbiguousOutcomeReason(parsed.value.retMsg)
  }

  /** A 200 answer with code 0. */
  predicate Acknowledged(reply: Reply) {
    reply.Response? && reply.status == 200 && reply.parsed.Ok? && reply.parsed.value.retCode == 0
  }

  /** What submit, amend and reduce-only market do on a live stream. They throw nothing if and only if the answer is a 200
      with code 0. They report a reject if and only if the request was denied outright, or the answer cannot be read and the
      parser's complaint does not happen to read like an open outcome; a reject carries the client's text and the kind read
      from it. Every other exception is the client's own. */
  lemma RejectedExactlyWhen(reply: Reply)
    ensures SubmitPostOnlyLimit(true, reply) == AmendPrice(true, reply) == SubmitReduceOnlyMarket(reply)
    ensures var thrown := SubmitPostOnlyLimit(true, reply);
      && (thrown.None? <==> Acknowledged(reply))
      && (Rejected(thrown) <==>
          DeniesOutright(reply) || (Unreadable(reply) && !IsAmbiguousOutcomeReason(reply.parsed.error)))
      && (Rejected(thrown) ==>
          RestCall(reply).Some? && thrown.value.what == RestCall(reply).value.what
          && thrown.value.kind == ClassifyRejectReason(thrown.value.what))
      && (!Rejected(thrown) ==> thrown == RestCall(reply))
  {
    hide IsAmbiguousOutcomeReason, ApiError, BadResponse, ClassifyRejectReason, StartsWith, Print;
    if reply.Response? {
      if reply.status != 200 {
        AmbiguousStatus(reply.status, reply.body);
      } else if reply.parsed.Ok? {
        AmbiguousAnswer(reply.parsed.value.retCode, reply.parsed.value.retMsg);
      }
    }
  }

  /** Codes 10000 and 10016, a 5xx status and a transport error reach the caller of submit, amend and reduce-only market
      as what they are, never as a reject, whatever the text. */
  lemma UnknownIsNeverRejected(reply: Reply)
    requires reply.Unreachable? || (reply.Response? && 500 <= reply.status <= 599) ||
             (reply.Response? && reply.status == 200 && reply.parsed.Ok? && reply.parsed.value.retCode in {10000, 10016})
    ensures TypedUnknown(reply)
    ensures SubmitPostOnlyLimit(true, reply) == AmendPrice(true, reply) == SubmitReduceOnlyMarket(reply) == RestCall(reply)
  {
    RejectedExactlyWhen(reply);
    hide IsAmbiguousOutcomeReason, ApiError, BadResponse, ClassifyRejectReason, Print;
    if reply.Response? {
      if reply.status == 200 {
        KnownPrints();
        hide PrintInt;
      } else {
        ServerErrorStatus(reply.status);
      }
    }
  }

  lemma PrintStep(n: nat, d: nat)
    requires n >= 1 && d < 10
    ensures Print(10 * n + d) == Print(n) + [DigitChar(d)]
  {
  }

  lemma PrintTimeoutCodes()
    ensures Print(10000) == "10000" && Print(10016) == "10016" && Print(17000) == "17000"
  {
    assert Print(1) == "1";
    PrintStep(1, 0);
    PrintStep(1, 7);
    hide Print;
    PrintStep(10, 0);
    PrintStep(17, 0);
    PrintStep(100, 0);
    PrintStep(100, 1);
    PrintStep(170, 0);
    PrintStep(1000, 0);
    PrintStep(1001, 6);
    PrintStep(1700, 0);
  }

  lemma KnownPrints()
    ensures StartsWith(10000, "10000") && StartsWith(10016, "10016") && StartsWith(100001, "10000")
    ensures !StartsWith(170007, "10000") && !StartsWith(170007, "10016")
  {
    hide Print;
    PrintTimeoutCodes();
    PrintStep(10000, 1);
    PrintStep(17000, 7);
    assert PrintInt(170007)[1] == '7';
  }

  /** A denial by error code is reported by all three with the kind its code is listed under, whatever the text; with an
      unlisted code the message alone decides the kind. */
  lemma ListedKind(reply: Reply)
    requires DeniesOutright(reply) && reply.Response? && reply.status == 200
    ensures SubmitPostOnlyLimit(true, reply) == AmendPrice(true, reply) == SubmitReduceOnlyMarket(reply)
    ensures var api, thrown := reply.parsed.value, SubmitPostOnlyLimit(true, reply);
      && Rejected(thrown)
      && thrown.value.kind == match KindOfCode(api.retCode) case Some(kind) => kind case None => KindOfText(api.retMsg)
  {
    RejectedExactlyWhen(reply);
    KindOfAnswer(reply.parsed.value.retCode, reply.parsed.value.retMsg);
    hide IsAmbiguousOutcomeReason, ApiError, ClassifyRejectReason, KindOfText, StartsWith;
  }

  // ---------------------------------------------------------------- open, and yet rejected

  /** The venue may have executed the request: no answer came, the server failed, the answer cannot be read, or its code is
      one of the client's unknown ones. */
  predicate LeavesOpen(reply: Reply) {
    match reply
    case NotSent(_) => false
    case Unreachable(_) => true
    case Response(status, body, parsed) =>
      if status != 200 then status >= 500
      else parsed.Err? || IsExecutionUnknownCode(parsed.value.retCode)
  }

  /** The client types an outcome as unknown exactly when it is open, unless the answer cannot be read; and an order as not
      found exactly on code 110001 or 170213. */
  lemma TypedExactly(reply: Reply)
    ensures LeavesOpen(reply) <==> TypedUnknown(reply) || Unreadable(reply)
    ensures TypedUnknown(reply) ==> !Unreadable(reply)
    ensures RestCall(reply).Some? && RestCall(reply).value.OrderNotFound? <==>
      reply.Response? && reply.status == 200 && reply.parsed.Ok? && reply.parsed.value.retCode in {110001, 170213}
  {
    hide ApiError, BadResponse;
  }

  /** Exactly when an open outcome is reported as a reject: code 170007, an unreadable answer, or a status of 500 or more that
      does not start with 5, if the text is silent. */
  lemma OpenYetRejected(reply: Reply)
    ensures LeavesOpen(reply) && Rejected(SubmitPostOnlyLimit(true, reply)) <==>
      && reply.Response?
      && if reply.status != 200
         then reply.status >= 500 && Print(reply.status)[0] != '5' && !IsAmbiguousOutcomeReason(reply.body)
         else match reply.parsed
           case Err(what) => !IsAmbiguousOutcomeReason(what)
           case Ok(api) => api.retCode == 170007 && !IsAmbiguousOutcomeReason(api.retMsg)
  {
    RejectedExactlyWhen(reply);
    KnownPrints();
    hide IsAmbiguousOutcomeReason, ApiError, BadResponse, ClassifyRejectReason, PrintInt, Print, Translated, SubmitPostOnlyLimit;
  }

  /** An answer cut off in transit is reported as a reject of an order that may rest on the venue. */
  lemma UnreadableIsRejected(body: string)
    ensures var reply := Response(200, body, Err("truncated"));
      LeavesOpen(reply) && Rejected(SubmitPostOnlyLimit(true, reply))
  {
    ShortIsSilent("truncated");
    OpenYetRejected(Response(200, body, Err("truncated")));
  }

  lemma ShortIsSilent(text: string)
    requires |text| <= 10
    ensures !IsAmbiguousOutcomeReason(text)
  {
    assert |ToLower(text)| <= 10;
  }

  // ---------------------------------------------------------------- the two notions of unknown

  /** The client's types and the gateway's text test are meant to agree. Where they part with the order reported as
      rejected: code 170007, and a status of 500 or more that does not start with 5, if the text says nothing. */
  lemma UnknownYetRejected(reply: Reply)
    ensures TypedUnknown(reply) && Rejected(SubmitPostOnlyLimit(true, reply)) <==>
      && reply.Response?
      && if reply.status != 200
         then reply.status >= 500 && Print(reply.status)[0] != '5' && !IsAmbiguousOutcomeReason(reply.body)
         else reply.parsed.Ok? && reply.parsed.value.retCode == 170007 && !IsAmbiguousOutcomeReason(reply.parsed.value.retMsg)
  {
    RejectedExactlyWhen(reply);
    KnownPrints();
    hide IsAmbiguousOutcomeReason, ApiError, BadResponse, ClassifyRejectReason, PrintInt, Print, Translated, SubmitPostOnlyLimit;
  }

  /** The reverse: code 100001 is no timeout, but its text starts like one. */
  lemma KnownYetPassedOn(retMsg: string, body: string)
    ensures var reply := Response(200, body, Ok(ApiStatus(100001, retMsg)));
      !TypedUnknown(reply) && !Rejected(SubmitPostOnlyLimit(true, reply))
  {
    KnownPrints();
    hide IsAmbiguousOutcomeReason, ApiError, ClassifyRejectReason, StartsWith, Translated, SubmitPostOnlyLimit;
    RejectedExactlyWhen(Response(200, body, Ok(ApiStatus(100001, retMsg))));
  }

  /** A plain 170007 is typed as unknown and reported as a reject. */
  lemma BackendTimeoutIsRejected(body: string)
    ensures var reply := Response(200, body, Ok(ApiStatus(170007, "")));
      TypedUnknown(reply) && Rejected(SubmitPostOnlyLimit(true, reply))
  {
    UnknownYetRejected(Response(200, body, Ok(ApiStatus(170007, ""))));
  }
}
