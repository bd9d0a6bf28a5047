/**
 * How the client reads the remote generative-text service's reply. The network exchange
 * itself is not modelled: its outcome is an input value, and this module computes what
 * `callGeminiAPI` returns or throws for it.
 */
module GeminiApi {
  import opened Wrappers
  import opened JsText

  /** One element of `content.parts`; `text` is `None` when the part has no text. */
  datatype Part = Part(text: Option<string>)

  /** The `content` of a candidate; `parts` is `None` when absent (or falsy). */
  datatype Content = Content(parts: Option<seq<Part>>)

  /** One element of `candidates`; `content` is `None` when absent (or falsy). */
  datatype Candidate = Candidate(content: Option<Content>)

  /**
   * The `error` member of the body. When it is missing, reading `error.message` throws a
   * `TypeError` whose text the JavaScript engine chooses; that text is carried here.
   */
  datatype ErrorMember = ErrorObject(message: Option<string>) | ErrorMissing(typeError: string)

  /** The response body: either JSON parsing fails with a message, or it yields these members. */
  datatype Body =
    | Unparsable(syntaxError: string)
    | Json(candidates: Option<seq<Candidate>>, error: ErrorMember)

  /** What the POST request gives: a rejection with a message, or a status and a body. */
  datatype FetchOutcome = Rejected(reason: string) | Responded(status: nat, body: Body)

  const UnexpectedStructure: string := "Unexpected API response structure or no content generated."
  const UnknownError: string := "Unknown error"
  const ApiErrorLead: string := "API error: "

  /** `response.ok`: the status is in the 200-299 range. */
  predicate IsOk(status: nat)
  {
    200 <= status <= 299
  }

  /** The shape the client accepts: a first candidate with content whose parts are non-empty. */
  predicate HasFirstPart(candidates: Option<seq<Candidate>>)
  {
    candidates.Some? && |candidates.value| > 0 &&
    candidates.value[0].content.Some? &&
    candidates.value[0].content.value.parts.Some? &&
    |candidates.value[0].content.value.parts.value| > 0
  }

  /**
   * The checks on a successful body: return the first candidate's first part's text when
   * that shape is present, otherwise fail with the fixed unexpected-structure message.
   */
  function FirstPartText(candidates: Option<seq<Candidate>>): (r: Result<Option<string>, string>)
    ensures r.Success? <==> HasFirstPart(candidates)
    ensures r.Success? ==> r.value == candidates.value[0].content.value.parts.value[0].text
    ensures r.Failure? ==> r.error == UnexpectedStructure
  {
    match candidates
    case None => Failure(UnexpectedStructure)
    case Some(cs) =>
      if |cs| == 0 then Failure(UnexpectedStructure)
      else match cs[0].content
        case None => Failure(UnexpectedStructure)
        case Some(content) =>
          match content.parts
          case None => Failure(UnexpectedStructure)
          case Some(parts) =>
            if |parts| == 0 then Failure(UnexpectedStructure) else Success(parts[0].text)
  }

  /** The message thrown for a non-ok status: `API error: <status> - <message or 'Unknown error'>`. */
  function ApiErrorText(status: nat, message: Option<string>): (r: string)
    ensures message.Some? && message.value != [] ==>
      r == ApiErrorLead + Decimal(status) + " - " + message.value
    ensures message.None? || message.value == [] ==>
      r == ApiErrorLead + Decimal(status) + " - " + UnknownError
  {
    var shown := if message.Some? && message.value != [] then message.value else UnknownError;
    ApiErrorLead + (Decimal(status) + (" - " + shown))
  }

  /** Reading the number after "API error: " gives back the HTTP status. */
  lemma ApiErrorTextStatesStatus(status: nat, message: Option<string>)
    ensures ParseInt(ApiErrorText(status, message)[|ApiErrorLead|..]) == Some(status)
  {
    var shown := if message.Some? && message.value != [] then message.value else UnknownError;
    var rest := " - " + shown;
    assert ApiErrorText(status, message)[|ApiErrorLead|..] == Decimal(status) + rest;
    ParseDecimal(status, rest);
  }

  /**
   * What `callGeminiAPI` does with one fetch outcome: `Success(text)` is the value it
   * returns from the try block (the text may be missing), `Failure(m)` is the message of
   * the error thrown inside it.
   */
  function Interpret(outcome: FetchOutcome): (r: Result<Option<string>, string>)
    ensures r.Success? <==>
      outcome.Responded? && IsOk(outcome.status) && outcome.body.Json? && HasFirstPart(outcome.body.candidates)
    ensures outcome.Rejected? ==> r == Failure(outcome.reason)
    ensures outcome.Responded? && outcome.body.Unparsable? ==> r == Failure(outcome.body.syntaxError)
    ensures outcome.Responded? && !IsOk(outcome.status) && outcome.body.Json? ==>
      r == match outcome.body.error
           case ErrorObject(message) => Failure(ApiErrorText(outcome.status, message))
           case ErrorMissing(typeError) => Failure(typeError)
    ensures outcome.Responded? && IsOk(outcome.status) && outcome.body.Json? ==>
      r == FirstPartText(outcome.body.candidates)
  {
    match outcome
    case Rejected(reason) => Failure(reason)
    case Responded(status, body) =>
      match body
      case Unparsable(syntaxError) => Failure(syntaxError)
      case Json(candidates, error) =>
        if !IsOk(status) then
          match error
          case ErrorObject(message) => Failure(ApiErrorText(status, message))
          case ErrorMissing(typeError) => Failure(typeError)
        else FirstPartText(candidates)
  }

  const FailurePrefix: string := "Failed to generate: "

  /** The shared error message after a call: empty on success, the prefixed failure otherwise. */
  function ErrorAfterCall(outcome: FetchOutcome): (r: string)
    ensures r == [] <==> Interpret(outcome).Success?
    ensures Interpret(outcome).Failure? ==>
      |r| >= |FailurePrefix| && r[..|FailurePrefix|] == FailurePrefix &&
      r[|FailurePrefix|..] == Interpret(outcome).error
  {
    match Interpret(outcome)
    case Success(_) => ""
    case Failure(message) => FailurePrefix + message
  }

  /** The value `callGeminiAPI` resolves to: the text on success, `null` (None) after a failure. */
  function Reply(outcome: FetchOutcome): (r: Option<string>)
    ensures Interpret(outcome).Success? ==> r == Interpret(outcome).value
    ensures Interpret(outcome).Failure? ==> r == None
  {
    match Interpret(outcome)
    case Success(text) => text
    case Failure(_) => None
  }

  /** `if (result)`: the reply is a non-empty string. */
  predicate IsTruthy(reply: Option<string>)
  {
    reply.Some? && reply.value != []
  }

  /** A truthy reply is exactly the first part's text of an ok response of the accepted shape. */
  lemma TruthyReplyComesFromFirstPart(outcome: FetchOutcome)
    requires IsTruthy(Reply(outcome))
    ensures outcome.Responded? && IsOk(outcome.status) && outcome.body.Json?
    ensures HasFirstPart(outcome.body.candidates)
    ensures Reply(outcome) == outcome.body.candidates.value[0].content.value.parts.value[0].text
    ensures ErrorAfterCall(outcome) == []
  {
  }

  /** A non-ok status with an error message `m` shows `Failed to generate: API error: <status> - m`. */
  lemma ApiErrorShown(status: nat, m: string, candidates: Option<seq<Candidate>>)
    requires !IsOk(status) && m != []
    ensures ErrorAfterCall(Responded(status, Json(candidates, ErrorObject(Some(m))))) ==
      FailurePrefix + (ApiErrorLead + (Decimal(status) + (" - " + m)))
    ensures Reply(Responded(status, Json(candidates, ErrorObject(Some(m))))) == None
  {
    var shown := ApiErrorText(status, Some(m));
    assert shown == ApiErrorLead + (Decimal(status) + (" - " + m));
    assert Interpret(Responded(status, Json(candidates, ErrorObject(Some(m))))) == Failure(shown);
  }

  /**
   * An ok reply whose first part holds the empty text (or no text) leaves both the
   * result and the error message empty: the mode then shows nothing at all.
   */
  lemma EmptyTextShowsNothing(outcome: FetchOutcome)
    requires outcome.Responded? && IsOk(outcome.status) && outcome.body.Json?
    requires HasFirstPart(outcome.body.candidates)
    requires var text := outcome.body.candidates.value[0].content.value.parts.value[0].text;
      text.None? || text.value == []
    ensures !IsTruthy(Reply(outcome)) && ErrorAfterCall(outcome) == []
  {
  }
}
