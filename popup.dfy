/**
 * The interaction controller of popup.js: the Summarize and Ask click
 * handlers over the session's cached article text, the result display and
 * the visibility of the question area, together with the display formatting
 * and the copy guard. What the handlers obtain from the browser (the stored
 * API key, the active tab's id, the content script's reply) and from the
 * generation client (the settled outcome) arrives as parameters; what they
 * hand to the generation client is returned as the request they issue.
 */
module Interaction {
  import opened Wrappers
  import opened Text
  import opened PromptBuilder
  import opened GenerationClient
  import opened ContentScript

  /** The fewest non-blank characters a page must yield to be summarized. */
  const MinChars: nat := 50

  const NoKeyForSummary := "No API key set. Go to options to add one."
  const SpecialPage := "Cannot run on this special page."
  const PageUnreadable := "Could not read this page. Reload and try again."
  const NotEnoughText := "Not enough text found on this page."
  const NoQuestion := "Please enter a question."
  const NoArticle := "You must summarize an article first."
  const NoKeyForAnswer := "No API key set."

  const ErrorPrefix := "Error: "
  /** The prefixes of displayed text that the copy button refuses to copy. */
  const ErrorMarker := "Error:"
  const PlaceholderMarker := "Select a summary type"

  /** One call of the generation client: the prompt and the API key it is sent with. */
  datatype Request = Request(prompt: string, apiKey: string)

  /** `!geminiApiKey`: no key stored, or the empty string. */
  predicate KeyMissing(apiKey: Option<string>) {
    apiKey.None? || apiKey.value == ""
  }

  /** `!tab.id`: the active tab has no id, or id 0 (which JavaScript treats as false). */
  predicate TabMissing(tabId: Option<int>) {
    tabId.None? || tabId.value == 0
  }

  /**
   * `chrome.runtime.lastError || !response || !response.text`: the message
   * failed or went unanswered (`None`), or the reply's text is empty.
   */
  predicate Unreadable(response: Option<Reply>) {
    response.None? || response.value.text == ""
  }

  /** Every guard of Summarize passes, so a summary is requested. */
  predicate SummarizeProceeds(apiKey: Option<string>, tabId: Option<int>, response: Option<Reply>) {
    !KeyMissing(apiKey) && !TabMissing(tabId) && !Unreadable(response) &&
    |Trim(response.value.text)| >= MinChars
  }

  /** Every guard of Ask passes, so an answer is requested. */
  predicate AskProceeds(question: string, articleText: string, apiKey: Option<string>) {
    Trim(question) != "" && articleText != "" && !KeyMissing(apiKey)
  }

  /** `displayError(message)`: the text shown for a failure, from which the message can be read back. */
  function ErrorText(message: string): (shown: string)
    ensures StartsWith(shown, ErrorPrefix)
    ensures shown[|ErrorPrefix|..] == message
  {
    ErrorPrefix + message
  }

  /**
   * What the result area shows once a generation call has settled: a
   * resolved text without surrounding white space, or a rejection's message
   * after the error prefix.
   */
  function Shown(o: Outcome): (shown: string)
    ensures o.Resolved? ==> shown == Trim(o.text)
    ensures o.Resolved? ==> |shown| <= |o.text| && (shown == [] || (!IsSpace(shown[0]) && !IsSpace(shown[|shown| - 1])))
    ensures o.Resolved? ==> Trim(shown) == shown
    ensures o.Rejected? ==> StartsWith(shown, ErrorPrefix) && shown[|ErrorPrefix|..] == o.message
  {
    match o
    case Resolved(text) => Trim(text)
    case Rejected(message) => ErrorText(message)
  }

  /** The copy guard: placeholder text and error text are never copied. */
  predicate CopyRefused(shown: string) {
    StartsWith(shown, PlaceholderMarker) || StartsWith(shown, ErrorMarker)
  }

  /**
   * An error display is never copied, while a result's display is copied
   * exactly when it does not itself begin like the placeholder or an error.
   */
  lemma CopyGuardSeparatesErrors(o: Outcome)
    ensures o.Rejected? ==> CopyRefused(Shown(o))
    ensures o.Resolved? ==>
              (CopyRefused(Shown(o)) <==>
               StartsWith(Trim(o.text), PlaceholderMarker) || StartsWith(Trim(o.text), ErrorMarker))
  {
  }

  /** A failure's display tells the failures apart. */
  lemma ErrorTextInjective(m1: string, m2: string)
    ensures ErrorText(m1) == ErrorText(m2) <==> m1 == m2
  {
  }

  /**
   * The popup's state: the cached `originalArticleText`, the text of the
   * result area (`resultPre.textContent`) and whether the question area is
   * shown (the `visible` class of `qaContainer`).
   */
  class Popup {
    var articleText: string
    var display: string
    var qaVisible: bool

    /** The cache is empty or holds a text that passed the minimum-length guard. */
    ghost predicate Valid()
      reads this
    {
      articleText == "" || |Trim(articleText)| >= MinChars
    }

    /** A freshly opened popup: nothing cached, the page's placeholder shown, the question area hidden. */
    constructor (placeholder: string)
      ensures Valid()
      ensures articleText == "" && display == placeholder && !qaVisible
    {
      articleText := "";
      display := placeholder;
      qaVisible := false;
    }

    /** `displayResult(text)`: the loader goes and the trimmed text is shown. */
    method DisplayResult(text: string)
      modifies this`display
      ensures display == Trim(text)
    {
      display := Trim(text);
    }

    /** `displayError(message)`: the loader goes and the message is shown as an error. */
    method DisplayError(message: string)
      modifies this`display
      ensures display == ErrorText(message)
    {
      display := ErrorText(message);
    }

    /**
     * The Summarize click handler. Its guards are tried in order (API key,
     * tab id, readable reply, enough text); the first that fails is reported
     * and nothing is requested or cached. Once all pass, the full reply text
     * is cached BEFORE the summary is requested, so a failing request still
     * leaves it cached; the question area, hidden at the start of every
     * attempt, is shown again only when the request resolves.
     */
    method Summarize(summaryType: string, apiKey: Option<string>, tabId: Option<int>,
                     response: Option<Reply>, generated: Outcome)
      returns (sent: Option<Request>)
      requires Valid()
      modifies this
      ensures Valid()
      ensures KeyMissing(apiKey) ==> display == ErrorText(NoKeyForSummary)
      ensures !KeyMissing(apiKey) && TabMissing(tabId) ==> display == ErrorText(SpecialPage)
      ensures !KeyMissing(apiKey) && !TabMissing(tabId) && Unreadable(response) ==>
                display == ErrorText(PageUnreadable)
      ensures !KeyMissing(apiKey) && !TabMissing(tabId) && !Unreadable(response) &&
              |Trim(response.value.text)| < MinChars ==>
                display == ErrorText(NotEnoughText)
      ensures sent.Some? <==> SummarizeProceeds(apiKey, tabId, response)
      ensures sent == None ==> articleText == old(articleText) && !qaVisible
      ensures sent.Some? ==>
                articleText == response.value.text &&
                sent.value == Request(SummaryPrompt(response.value.text, summaryType), apiKey.value) &&
                display == Shown(generated) &&
                qaVisible == generated.Resolved?
    {
      qaVisible := false;
      display := "";
      if KeyMissing(apiKey) {
        DisplayError(NoKeyForSummary);
        return None;
      }
      if TabMissing(tabId) {
        DisplayError(SpecialPage);
        return None;
      }
      if Unreadable(response) {
        DisplayError(PageUnreadable);
        return None;
      }
      var text := response.value.text;
      if |Trim(text)| < MinChars {
        DisplayError(NotEnoughText);
        return None;
      }
      articleText := text;
      sent := Some(Request(SummaryPrompt(text, summaryType), apiKey.value));
      match generated
      case Resolved(summary) =>
        DisplayResult(summary);
        qaVisible := true;
      case Rejected(message) =>
        DisplayError(message);
    }

    /**
     * The Ask click handler. Its guards are tried in order (a non-blank
     * question, a cached article, an API key); the first that fails is
     * reported and nothing is requested. Otherwise the trimmed question is
     * asked about the cached article. The cache and the question area are
     * never changed.
     */
    method Ask(questionInput: string, apiKey: Option<string>, generated: Outcome)
      returns (sent: Option<Request>)
      requires Valid()
      modifies this`display
      ensures Valid()
      ensures Trim(questionInput) == "" ==> display == ErrorText(NoQuestion)
      ensures Trim(questionInput) != "" && articleText == "" ==> display == ErrorText(NoArticle)
      ensures Trim(questionInput) != "" && articleText != "" && KeyMissing(apiKey) ==>
                display == ErrorText(NoKeyForAnswer)
      ensures sent.Some? <==> AskProceeds(questionInput, articleText, apiKey)
      ensures sent.Some? ==>
                sent.value == Request(AnswerPrompt(articleText, Trim(questionInput)), apiKey.value) &&
                display == Shown(generated)
    {
      var question := Trim(questionInput);
      if question == "" {
        DisplayError(NoQuestion);
        return None;
      }
      if articleText == "" {
        DisplayError(NoArticle);
        return None;
      }
      display := "";
      if KeyMissing(apiKey) {
        DisplayError(NoKeyForAnswer);
        return None;
      }
      sent := Some(Request(AnswerPrompt(articleText, question), apiKey.value));
      match generated
      case Resolved(answer) =>
        DisplayResult(answer);
      case Rejected(message) =>
        DisplayError(message);
    }

    /** The copy button: the shown text goes to the clipboard unless the guard refuses it. */
    method Copy() returns (copied: Option<string>)
      ensures StartsWith(display, ErrorMarker) ==> copied == None
      ensures StartsWith(display, PlaceholderMarker) ==> copied == None
      ensures !CopyRefused(display) ==> copied == Some(display)
    {
      if CopyRefused(display) {
        return None;
      }
      return Some(display);
    }
  }

  /** Asking before any summary never reaches the generation client. */
  method AskBeforeSummarize(placeholder: string, questionInput: string, apiKey: Option<string>,
                            generated: Outcome)
    returns (sent: Option<Request>, shown: string)
    ensures sent == None
    ensures shown == ErrorText(if Trim(questionInput) == "" then NoQuestion else NoArticle)
  {
    var popup := new Popup(placeholder);
    sent := popup.Ask(questionInput, apiKey, generated);
    shown := popup.display;
  }

  /**
   * Whatever article the popup had cached, a successful Summarize replaces
   * it: the next question is asked about the new article only, and whole.
   */
  method LatestArticleWins(popup: Popup, text: string, questionInput: string, key: string, tab: int,
                           summary: Outcome, generated: Outcome)
    returns (sent: Option<Request>)
    requires popup.Valid()
    requires key != "" && tab != 0
    requires |Trim(text)| >= MinChars
    requires Trim(questionInput) != ""
    modifies popup
    ensures sent == Some(Request(AnswerPrompt(text, Trim(questionInput)), key))
  {
    assert SummarizeProceeds(Some(key), Some(tab), Some(Reply(text)));
    var summarySent := popup.Summarize("brief", Some(key), Some(tab), Some(Reply(text)), summary);
    assert summarySent.Some? && popup.Valid() && popup.articleText == text;
    assert AskProceeds(questionInput, popup.articleText, Some(key));
    sent := popup.Ask(questionInput, Some(key), generated);
    assert sent.Some?;
  }

  /** A Summarize that fails any of its guards leaves the article cached before it. */
  method FailedGuardKeepsArticle(popup: Popup, apiKey: Option<string>, tabId: Option<int>,
                                 response: Option<Reply>, questionInput: string, key: string,
                                 summary: Outcome, generated: Outcome)
    returns (sent: Option<Request>)
    requires popup.Valid() && popup.articleText != ""
    requires !SummarizeProceeds(apiKey, tabId, response)
    requires key != "" && Trim(questionInput) != ""
    modifies popup
    ensures sent == Some(Request(AnswerPrompt(old(popup.articleText), Trim(questionInput)), key))
  {
    var summarySent := popup.Summarize("brief", apiKey, tabId, response, summary);
    assert summarySent == None;
    assert popup.Valid() && popup.articleText == old(popup.articleText);
    assert AskProceeds(questionInput, popup.articleText, Some(key));
    sent := popup.Ask(questionInput, Some(key), generated);
    assert sent.Some?;
  }

  /**
   * A Summarize that passes its guards caches its text even when its
   * summary request then fails: the question area stays hidden, and the next
   * question is about that text.
   */
  method FailedRequestStillCaches(popup: Popup, text: string, questionInput: string, key: string, tab: int,
                                  summary: Outcome, generated: Outcome)
    returns (sent: Option<Request>, qaShown: bool)
    requires popup.Valid() && summary.Rejected?
    requires key != "" && tab != 0
    requires |Trim(text)| >= MinChars
    requires Trim(questionInput) != ""
    modifies popup
    ensures !qaShown
    ensures sent == Some(Request(AnswerPrompt(text, Trim(questionInput)), key))
  {
    assert SummarizeProceeds(Some(key), Some(tab), Some(Reply(text)));
    var summarySent := popup.Summarize("brief", Some(key), Some(tab), Some(Reply(text)), summary);
    assert summarySent.Some? && popup.Valid() && popup.articleText == text;
    qaShown := popup.qaVisible;
    assert AskProceeds(questionInput, popup.articleText, Some(key));
    sent := popup.Ask(questionInput, Some(key), generated);
    assert sent.Some?;
  }
}
