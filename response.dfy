/** How one platform's exchange with the generation service is judged
    (`generateAIListing`, js/app.js:314-365). The request itself is not part
    of this model: what the service answered is an input value. */
module Response {
  import opened Wrappers
  import opened Text

  /** One entry of `content.parts`; `text` is absent when the entry has none. */
  datatype Part = Part(text: Option<string>)

  /** `candidate.content`: `parts` is absent when the content has none. */
  datatype Content = Content(parts: Option<seq<Part>>)

  /** One entry of `data.candidates`. */
  datatype Candidate = Candidate(content: Option<Content>, finishReason: Option<string>)

  /** A reply body: either it does not parse as JSON (`reason` is the
      parser's message), or it is an object with an optional
      `error.message` and an optional `candidates` list. */
  datatype Body =
    | Unparsable(reason: string)
    | Json(errorMessage: Option<string>, candidates: Option<seq<Candidate>>)

  /** What `fetch` produced: a failure before any reply (`reason` is the
      runtime's message), or a reply with its status code and body. */
  datatype Exchange =
    | NetworkFailure(reason: string)
    | Reply(status: nat, body: Body)

  // The application's own failure messages.
  const InvalidKeyMessage: string := "Invalid API key. "
    + "Please check your Gemini API key in settings."
  const AccessDeniedMessage: string := "API access denied. "
    + "Please verify your API key permissions."
  const RateLimitMessage: string := "Rate limit exceeded. "
    + "Please try again in a moment."
  const InvalidFormatMessage: string := "Invalid response format from Gemini API"
  const SafetyMessage: string := "Content was filtered by safety settings. "
    + "Try adjusting your property description."
  const NoContentMessage: string := "No content generated. "
    + "Please try again."
  const TooShortMessage: string := "Generated content too short. "
    + "Please try again."

  /** The shortest generated text, in UTF-16 code units, that is accepted. */
  const MinimumLength: nat := 50

  /** `response.ok`. */
  predicate IsOk(status: nat)
  {
    200 <= status <= 299
  }

  /** `errorData.error?.message` as a truthy value: a body that does not
      parse counts as `{}`, and an empty message counts as none. */
  function BodyErrorMessage(body: Body): (r: Option<string>)
    ensures r.Some? ==> r.value != ""
    ensures body.Json? && body.errorMessage.Some? && body.errorMessage.value != "" ==> r == body.errorMessage
  {
    match body
    case Unparsable(_) => None
    case Json(message, _) => if message.Some? && message.value != "" then message else None
  }

  /** The message thrown for a status that is not ok. */
  function StatusMessage(status: nat, message: Option<string>): string
  {
    if status == 401 then InvalidKeyMessage
    else if status == 403 then AccessDeniedMessage
    else if status == 429 then RateLimitMessage
    else
      "API Error (" + NatToString(status) + ")"
      + (if message.Some? then ": " + message.value else "")
  }

  /** The three statuses with a message of their own get it whatever the
      body says; every other status reports itself, followed by the body's
      message exactly when there is one. */
  lemma StatusMessageCases(status: nat, message: Option<string>)
    ensures status == 401 ==> StatusMessage(status, message) == InvalidKeyMessage
    ensures status == 403 ==> StatusMessage(status, message) == AccessDeniedMessage
    ensures status == 429 ==> StatusMessage(status, message) == RateLimitMessage
    ensures status !in {401, 403, 429} ==>
      var lead := "API Error (" + NatToString(status) + ")";
      StartsWith(StatusMessage(status, message), lead)
      && (message.None? <==> StatusMessage(status, message) == lead)
      && (message.Some? ==> StatusMessage(status, message)[|lead|..] == ": " + message.value)
  {
    if status !in {401, 403, 429} {
      var lead := "API Error (" + NatToString(status) + ")";
      var r := StatusMessage(status, message);
      assert r[..|lead|] == lead;
      if message.Some? {
        assert |r| > |lead|;
      }
    }
  }

  /** The checks made on a parsed reply with an ok status, in order: a first
      candidate with content, a finish reason other than `SAFETY`, a first
      part with non-empty text, and at least 50 code units once trimmed.
      Success carries the trimmed text. */
  function ClassifyCandidates(candidates: Option<seq<Candidate>>): Result<string, string>
  {
    if candidates.None? || candidates.value == [] || candidates.value[0].content.None? then
      Failure(InvalidFormatMessage)
    else
      var candidate := candidates.value[0];
      if candidate.finishReason == Some("SAFETY") then Failure(SafetyMessage)
      else
        var parts := candidate.content.value.parts;
        if parts.None? || parts.value == [] || parts.value[0].text.None?
           || parts.value[0].text.value == "" then
          Failure(NoContentMessage)
        else
          var generated := Trim(parts.value[0].text.value);
          if Utf16Length(generated) < MinimumLength then Failure(TooShortMessage)
          else Success(generated)
  }

  /** The outcome of one exchange: the listing text, or the message of the
      error that `generateAIListing` catches. */
  function Classify(exchange: Exchange): Result<string, string>
  {
    match exchange
    case NetworkFailure(reason) => Failure(reason)
    case Reply(status, body) =>
      if !IsOk(status) then Failure(StatusMessage(status, BodyErrorMessage(body)))
      else
        match body
        case Unparsable(reason) => Failure(reason)
        case Json(_, candidates) => ClassifyCandidates(candidates)
  }

  /** The text a reply offers: the first part's text of the first candidate,
      when the reply has one. */
  function OfferedText(exchange: Exchange): Option<string>
  {
    if exchange.Reply? && exchange.body.Json? && exchange.body.candidates.Some?
       && exchange.body.candidates.value != []
       && exchange.body.candidates.value[0].content.Some?
       && exchange.body.candidates.value[0].content.value.parts.Some?
       && exchange.body.candidates.value[0].content.value.parts.value != []
    then exchange.body.candidates.value[0].content.value.parts.value[0].text
    else None
  }

  /** Everything a reply must satisfy to be used as a listing. */
  predicate Acceptable(exchange: Exchange)
  {
    && exchange.Reply?
    && IsOk(exchange.status)
    && OfferedText(exchange).Some?
    && exchange.body.candidates.value[0].finishReason != Some("SAFETY")
    && Utf16Length(Trim(OfferedText(exchange).value)) >= MinimumLength
  }

  /** A reply is used exactly when it is acceptable, and then its offered
      text, trimmed, is the listing. */
  lemma ClassifySuccessIff(exchange: Exchange)
    ensures Classify(exchange).Success? <==> Acceptable(exchange)
    ensures Classify(exchange).Success? ==>
      Classify(exchange).value == Trim(OfferedText(exchange).value)
  {
    if exchange.Reply? && IsOk(exchange.status) && exchange.body.Json? {
      var candidates := exchange.body.candidates;
      if OfferedText(exchange).Some? {
        var t := OfferedText(exchange).value;
        assert t == candidates.value[0].content.value.parts.value[0].text.value;
        if t == "" {
          assert Trim(t) == [];
        }
      }
    }
  }

  /** Trimmed text long enough to pass the length check is a non-empty
      slice of what was offered, with no whitespace at either end: with
      `ClassifySuccessIff`, this is the shape of every accepted listing. */
  lemma LongTrimmedText(offered: string)
    requires Utf16Length(Trim(offered)) >= MinimumLength
    ensures var text := Trim(offered);
      && IsInfix(text, offered)
      && text != []
      && !IsWhitespace(text[0]) && !IsWhitespace(text[|text| - 1])
  {
    TrimIsInfix(offered);
    TrimEnds(offered);
  }

  /** The application's own failure messages are never empty, so such a
      failure is always reported; only a runtime or parser message can be
      empty. */
  lemma FailureMessageNonEmpty(exchange: Exchange)
    requires Classify(exchange).Failure?
    requires !exchange.NetworkFailure?
    requires !(exchange.Reply? && IsOk(exchange.status) && exchange.body.Unparsable?)
    ensures Classify(exchange).error != ""
  {
    if exchange.Reply? && !IsOk(exchange.status) && exchange.status !in {401, 403, 429} {
      StatusMessageCases(exchange.status, BodyErrorMessage(exchange.body));
    }
  }
}
