/**
 * The decision part of `makeApiCall` in popup.js: how one HTTP response of
 * the generation API becomes either a resolved text or a rejection. The
 * request itself (URL, headers, JSON encoding) and the parsing of the body
 * are outside; the body arrives already parsed into the fields the code
 * reads, or marked as not parseable.
 */
module GenerationClient {
  import opened Wrappers
  import opened Text

  /** `error` of an error body; `message` is `error.message`. */
  datatype ApiError = ApiError(message: Option<string>)

  /** One entry of `content.parts`; `text` is absent or null in the `None` case. */
  datatype Part = Part(text: Option<string>)

  /** `content` of a candidate; `parts` is absent in the `None` case. */
  datatype Content = Content(parts: Option<seq<Part>>)

  datatype Candidate = Candidate(content: Option<Content>)

  /** `promptFeedback` of a success body. */
  datatype Feedback = Feedback(blockReason: Option<string>)

  datatype Body =
    | Unparseable
    | Parsed(error: Option<ApiError>, candidates: Option<seq<Candidate>>, promptFeedback: Option<Feedback>)

  datatype HttpResponse = HttpResponse(ok: bool, status: int, body: Body)

  /** The settled promise of `makeApiCall`: a resolved string or a rejection's message. */
  datatype Outcome = Resolved(text: string) | Rejected(message: string)

  const UnknownApiError := "An unknown API error occurred."
  const NoContent := "The API returned no content."
  const NoAnswer := "No answer could be generated."
  const StatusFailurePrefix := "Request failed with status "
  const SafetyBlockPrefix := "Request blocked for safety reasons ("
  const SafetyBlockSuffix := ")."

  /** The rejection message for an error response whose body is not JSON. */
  function StatusFailure(status: int): (m: string)
    ensures StartsWith(m, StatusFailurePrefix)
    ensures IsNumeral(m[|StatusFailurePrefix|..])
    ensures ParseInt(m[|StatusFailurePrefix|..]) == status
    ensures m == StatusFailurePrefix + IntToString(status)
  {
    IntToStringRoundTrip(status);
    var m := StatusFailurePrefix + IntToString(status);
    assert m[|StatusFailurePrefix|..] == IntToString(status);
    m
  }

  /** The text an ok response resolves to when the prompt was blocked. */
  function SafetyBlock(reason: string): (m: string)
    ensures StartsWith(m, SafetyBlockPrefix) && EndsWith(m, SafetyBlockSuffix)
    ensures |m| == |SafetyBlockPrefix| + |reason| + |SafetyBlockSuffix|
    ensures m[|SafetyBlockPrefix|..|m| - |SafetyBlockSuffix|] == reason
  {
    SafetyBlockPrefix + reason + SafetyBlockSuffix
  }

  /**
   * `data.candidates` is present, not empty, and its first entry has a
   * `content`: the negation of the no-output test of `makeApiCall`.
   */
  predicate HasCandidate(candidates: Option<seq<Candidate>>) {
    candidates.Some? && |candidates.value| > 0 && candidates.value[0].content.Some?
  }

  /**
   * The first candidate's `content.parts` is present and not empty, so
   * `parts[0].text` can be read without an exception.
   */
  predicate HasFirstPart(candidates: Option<seq<Candidate>>)
    requires HasCandidate(candidates)
  {
    var parts := candidates.value[0].content.value.parts;
    parts.Some? && |parts.value| > 0
  }

  /**
   * The outcome of `makeApiCall` for `res`. `thrown` is the message of the
   * exception the JavaScript engine raises where the code reads what is not
   * there: `res.json()` on an ok response whose body is not JSON, and
   * `parts[0].text` when the first candidate has no parts. The model does
   * not fix that message.
   */
  function Classify(res: HttpResponse, thrown: string): (o: Outcome)
    // HTTP failures always reject, with the most specific message available.
    ensures !res.ok ==> o.Rejected?
    ensures !res.ok && res.body.Unparseable? ==> o.message == StatusFailure(res.status)
    ensures !res.ok && res.body.Parsed? && res.body.error.Some? && Truthy(res.body.error.value.message) ==>
              o.message == res.body.error.value.message.value
    ensures !res.ok && res.body.Parsed? && !(res.body.error.Some? && Truthy(res.body.error.value.message)) ==>
              o.message == UnknownApiError
    // A refusal or an empty answer of an ok response resolves with explanatory text.
    ensures res.ok && res.body.Parsed? && !HasCandidate(res.body.candidates) ==>
              o == Resolved(if res.body.promptFeedback.Some? && Truthy(res.body.promptFeedback.value.blockReason)
                            then SafetyBlock(res.body.promptFeedback.value.blockReason.value)
                            else NoContent)
    ensures res.ok && res.body.Parsed? && HasCandidate(res.body.candidates) && HasFirstPart(res.body.candidates) ==>
              o == Resolved(res.body.candidates.value[0].content.value.parts.value[0].text.GetOr(NoAnswer))
    // The only rejections of an ok response are the engine's own exceptions.
    ensures res.ok && o.Rejected? ==> o.message == thrown
    ensures o.Rejected? <==>
              !res.ok || res.body.Unparseable? ||
              (HasCandidate(res.body.candidates) && !HasFirstPart(res.body.candidates))
  {
    if !res.ok then
      match res.body
      case Unparseable => Rejected(StatusFailure(res.status))
      case Parsed(error, _, _) =>
        if error.Some? && Truthy(error.value.message) then Rejected(error.value.message.value)
        else Rejected(UnknownApiError)
    else
      match res.body
      case Unparseable => Rejected(thrown)
      case Parsed(_, candidates, feedback) =>
        if !HasCandidate(candidates) then
          if feedback.Some? && Truthy(feedback.value.blockReason) then
            Resolved(SafetyBlock(feedback.value.blockReason.value))
          else
            Resolved(NoContent)
        else
          var parts := candidates.value[0].content.value.parts;
          if parts.None? || |parts.value| == 0 then Rejected(thrown)
          else Resolved(parts.value[0].text.GetOr(NoAnswer))
  }

  /** What an error response rejects with depends on its status and `error` field only. */
  lemma ErrorOutcomeIgnoresCandidates(status: int, error: Option<ApiError>,
                                      c1: Option<seq<Candidate>>, f1: Option<Feedback>,
                                      c2: Option<seq<Candidate>>, f2: Option<Feedback>,
                                      thrown1: string, thrown2: string)
    ensures Classify(HttpResponse(false, status, Parsed(error, c1, f1)), thrown1) ==
            Classify(HttpResponse(false, status, Parsed(error, c2, f2)), thrown2)
  {
  }

  /** What an ok response resolves to depends neither on its status nor on an `error` field. */
  lemma OkOutcomeIgnoresStatusAndError(s1: int, e1: Option<ApiError>, s2: int, e2: Option<ApiError>,
                                       candidates: Option<seq<Candidate>>, feedback: Option<Feedback>,
                                       thrown: string)
    ensures Classify(HttpResponse(true, s1, Parsed(e1, candidates, feedback)), thrown) ==
            Classify(HttpResponse(true, s2, Parsed(e2, candidates, feedback)), thrown)
  {
  }

  /** The generic failure message tells apart the statuses it reports. */
  lemma StatusFailureInjective(s1: int, s2: int)
    ensures StatusFailure(s1) == StatusFailure(s2) <==> s1 == s2
  {
  }

  /** A rate-limit error with a JSON body rejects with the provider's message. */
  lemma RateLimitedExample(thrown: string)
    ensures Classify(HttpResponse(false, 429, Parsed(Some(ApiError(Some("rate limited"))), None, None)), thrown)
            == Rejected("rate limited")
  {
  }

  /** A server error whose body is not JSON rejects with the status-coded message. */
  lemma ServerErrorExample(thrown: string)
    ensures Classify(HttpResponse(false, 500, Unparseable), thrown) == Rejected("Request failed with status 500")
  {
  }

  /** A safety block without candidates resolves, naming the block reason. */
  lemma SafetyBlockExample(thrown: string)
    ensures Classify(HttpResponse(true, 200, Parsed(None, None, Some(Feedback(Some("SAFETY"))))), thrown)
            == Resolved("Request blocked for safety reasons (SAFETY).")
  {
  }
}
