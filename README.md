# Cogniread popup core, modelled in Dafny

Cogniread is a browser extension that reads the article on the active tab,
sends it to the Gemini generation API and shows either a summary (brief,
detailed or bullet points) or the answer to a follow-up question about the
same article. This project models the decision logic inside that extension
and proves what it promises:

- **Page text extractor** (`content.dfy`, module `ContentScript`): the content
  script's message handler. For `GET ARTICLE TEXT` it replies with the
  article's rendered text, or, when the page has no `<article>`, with the
  paragraphs' texts joined by newlines. Other messages get no reply.
- **Prompt builder** (`prompt.dfy`, module `PromptBuilder`): article text is
  cut to 20,000 characters plus `"..."`. The summary prompt is looked up in a
  three-entry table keyed by the summary type, falling back to `brief`. The
  answer prompt puts the article and the question in `---ARTICLE---` and
  `---QUESTION---` sections.
- **Response classifier** (`generation.dfy`, module `GenerationClient`): how
  one HTTP response becomes `Resolved(text)` or `Rejected(message)`. HTTP
  failures reject. Provider refusals and empty output of an ok response
  resolve, carrying explanatory text.
- **Interaction controller** (`popup.dfy`, module `Interaction`): class `Popup`
  holds the cached `articleText`, the displayed text and the visibility of the
  question area. Its `Summarize` and `Ask` methods are the click handlers. The
  key, the tab id, the content script's reply and the generation outcome are
  parameters. The request each handler makes is its result.
- **String built-ins** (`text.dfy`, module `Text`): JavaScript's `trim`,
  `startsWith`, `join` and integer-to-decimal rendering. `Trim` comes with a
  characterisation, `Join` with its inverse `Split`, and `IntToString` with its
  inverse `ParseInt`. `StartsWith` and `EndsWith` are plain definitions.
  `wrappers.dfy` holds `Option`.

Two behaviours of the code are easy to miss, and the model states both:

- The cache is written before the summary request (popup.js:65), so a
  request that then fails still leaves the new text cached.
  `Popup.Summarize` and `FailedRequestStillCaches` state this.
- An ok response does not always resolve. It rejects when its body is not
  JSON (`res.json()` throws, popup.js:165), and when the first candidate's
  `content` has no `parts` or an empty list (`parts[0].text` throws,
  popup.js:172). `Classify` states exactly when it rejects.

## Model

The guard predicates copy the source's tests and carry no contract of their
own:
- `Wrappers.Truthy` is the `||` truthiness test of popup.js:163.
- `GenerationClient.HasCandidate` negates the no-output test of popup.js:166.
- `GenerationClient.HasFirstPart` is the test for a readable `parts[0]` at popup.js:172.
- `Interaction.KeyMissing` is `!geminiApiKey` at popup.js:45 and popup.js:94.
- `Interaction.TabMissing` is `!tab.id` at popup.js:50.
- `Interaction.Unreadable` is the reply test of popup.js:55.
- `Interaction.CopyRefused` is the copy guard of popup.js:133.

The rows below for `Classify`, `Summarize`, `Ask`, `Copy` and
`CopyGuardSeparatesErrors` state the behaviour these tests control.

| member | source | states |
|---|---|---|
| Text.Trim | popup.js:61 | `trim` yields the contiguous middle of its input: only white space comes before and after it, and it neither starts nor ends with white space |
| Text.TrimEmptyIff | popup.js:81-82 | a string trims to the empty string exactly when every character is white space, so a question is blank exactly then |
| Text.NatToString | popup.js:162 | a non-negative status renders as at least one digit, with no leading zero except for `0` itself |
| Text.IntToString | popup.js:162 | the status in a template literal is a decimal numeral in its canonical form: a minus sign exactly for negative values, and no leading zero except for `0` itself |
| Text.IntToStringRoundTrip | popup.js:162 | reading the rendered status back gives the status |
| Text.IntToStringInjective | popup.js:162 | different statuses are rendered differently |
| Text.Join | content.js:11 | joining gives the empty string for no parts; otherwise its length is the parts' lengths plus one separator per gap |
| Text.JoinSegment | content.js:11 | each part occurs whole at its offset in the joined string, followed by the separator unless it is last |
| Text.JoinSplit | content.js:11 | splitting at the separator and joining again gives back any string |
| Text.SplitJoin | content.js:11 | joining one or more parts that hold no separator, then splitting, gives back the parts |
| PromptBuilder.Truncate | popup.js:176-177 | a text of at most 20000 characters is unchanged, and a longer one becomes its first 20000 characters then `"..."`, so 20003 characters |
| PromptBuilder.ModeOf | popup.js:178-183 | the three table keys `brief`, `detailed` and `bullets` name their modes, and no other value does |
| PromptBuilder.SummaryPrompt | popup.js:175-184 | the summary prompt starts with the instruction of the type's mode (the brief one for an unknown type) and a blank line, and ends with the truncated article |
| PromptBuilder.SummaryPromptForm | popup.js:175-184 | the summary prompt is its mode's fixed instruction, a blank line and the truncated text, so its length is bounded |
| PromptBuilder.UnknownTypeIsBrief | popup.js:183 | any summary type other than the three keys gives exactly the brief prompt |
| PromptBuilder.BulletsAsksForDashes | popup.js:181 | the bullets prompt asks for `5-7 bullet points` and contains `start each line with "- "` |
| PromptBuilder.SummaryPromptDeterminesArticle | popup.js:177-183 | two summary prompts of one type are equal exactly when their truncated texts are equal |
| PromptBuilder.AnswerPrompt | popup.js:187-191 | the answer prompt starts with the instruction, a blank line and the article marker, and ends with the truncated article, the question marker and the question. Its length is the sum of those pieces' lengths |
| PromptBuilder.AnswerPromptForm | popup.js:190 | the answer prompt starts with the instruction, which holds the not-found phrase. It ends with the question section and with the whole, untruncated question |
| PromptBuilder.AnswerPromptDeterminesQuestion | popup.js:190 | two answer prompts about one article are equal exactly when their questions are equal |
| GenerationClient.StatusFailure | popup.js:162 | the generic failure message is `Request failed with status ` followed by the status's canonical numeral, which reads back as the status |
| GenerationClient.SafetyBlock | popup.js:167-168 | the safety message wraps the block reason, which can be read back from it |
| GenerationClient.Classify | popup.js:160-172 | non-ok responses reject with the status message, the provider's non-empty `error.message`, or the unknown-error message. Ok responses without usable candidates resolve to the safety message or the no-content message. The first part's text, or the no-answer message when it is null, resolves. The outcome rejects exactly for non-ok responses, unparseable bodies and a first candidate without parts |
| GenerationClient.ErrorOutcomeIgnoresCandidates | popup.js:160-164 | for a non-ok response whose body parses, the outcome depends on its `error` field only, not on its candidates or feedback |
| GenerationClient.OkOutcomeIgnoresStatusAndError | popup.js:165-172 | the outcome of an ok response depends neither on its status nor on an `error` field |
| GenerationClient.StatusFailureInjective | popup.js:162 | two generic failure messages are equal exactly when their statuses are equal |
| GenerationClient.RateLimitedExample | popup.js:163 | status 429 with `error.message` `rate limited` rejects with exactly `rate limited` |
| GenerationClient.ServerErrorExample | popup.js:162 | status 500 with a body that is not JSON rejects with exactly `Request failed with status 500` |
| GenerationClient.SafetyBlockExample | popup.js:166-168 | an ok response with block reason `SAFETY` and no candidates resolves to a text naming `SAFETY` |
| ContentScript.ExtractText | content.js:4-12 | with an article, the text is exactly the article's text, even when empty. Without one, it is empty for no paragraphs, otherwise as long as the paragraphs plus one newline per gap |
| ContentScript.ParagraphsInOrder | content.js:10-11 | without an article, every paragraph occurs whole, in document order, with a newline after each but the last |
| ContentScript.ParagraphsRecoverable | content.js:11 | without an article and with at least one paragraph, splitting the text at newlines gives back the paragraphs when none holds a newline |
| ContentScript.ArticleHidesParagraphs | content.js:7-8 | with an article, the paragraphs do not affect the text |
| ContentScript.HandleMessage | content.js:2-18 | a reply comes exactly for messages of type `GET ARTICLE TEXT`, and always holds the extracted text |
| Interaction.Shown | popup.js:68-71 | a resolved text is shown exactly as its `trim`, so without surrounding white space and never longer than the text. A rejection is shown as `Error: ` followed by its message, which can be read back |
| Interaction.ErrorText | popup.js:125-128 | an error is shown as `Error: ` followed by the message, which can be read back |
| Interaction.ErrorTextInjective | popup.js:127 | two error displays are equal exactly when their messages are equal |
| Interaction.CopyGuardSeparatesErrors | popup.js:131-133 | an error display is never copied. A result display is copied exactly when its trimmed text starts with neither `Select a summary type` nor `Error:` |
| Interaction.Popup.constructor | popup.js:16 | a new popup has no cached article |
| Interaction.Popup.DisplayResult | popup.js:120-123 | a result is shown trimmed |
| Interaction.Popup.DisplayError | popup.js:125-128 | a failure is shown as its error text |
| Interaction.Popup.Summarize | popup.js:39-77 | guards in order: missing key, missing tab id, unreadable reply, fewer than 50 non-blank characters, each with its message. A failing guard makes no request, keeps the cache and leaves the question area hidden. Otherwise the full text is cached, the summary prompt is requested with the key, the outcome is shown, and the question area is shown exactly when it resolved. The cache stays empty or holds a text of at least 50 non-blank characters |
| Interaction.Popup.Ask | popup.js:80-105 | guards in order: blank question, empty cache, missing key, each with its message and no request. Otherwise the answer prompt for the cached article and the trimmed question is requested and its outcome shown. The cache and the question area never change |
| Interaction.Popup.Copy | popup.js:131-133 | the shown text is copied unless it starts with `Error:` or `Select a summary type` |
| Interaction.AskBeforeSummarize | popup.js:86-88 | asking before any summary makes no request and shows the blank-question or the summarize-first error |
| Interaction.LatestArticleWins | popup.js:65 | whatever article was cached before, a successful Summarize replaces it, and the next question is asked about the new article only |
| Interaction.FailedGuardKeepsArticle | popup.js:45-65 | a Summarize that fails any guard (key, tab, reply or length) keeps the article cached before it, and the next question is about that article |
| Interaction.FailedRequestStillCaches | popup.js:65-72 | a Summarize that passes the guards caches its text even when the request then fails. The question area stays hidden, and the next question is about that text |

## Left out

- Browser storage, tab query and extension messaging (`chrome.storage`,
  `chrome.tabs`, `chrome.runtime`, `lastError`) are not called. Their results
  are the parameters `apiKey`, `tabId` and `response` of `Popup.Summarize` and
  `Popup.Ask`. A failed or unanswered message is `response == None`.
- A tab query that returns no tab at all is not modelled. The code then
  throws inside its callback (`tab.id` of `undefined`) and the loader stays.
- A reply without a `text` field, which only another listener could send, is
  not modelled. The content script always replies with `{text: …}`.
- `fetch`, the endpoint and model constants, headers, the temperature setting
  and JSON encoding and decoding are not modelled. A response arrives already
  classified, and its body is `Unparseable` or a record of the fields the code
  reads. The generation call's outcome is a parameter of the handlers.
- GenerationClient.Classify: the message of an exception the JavaScript engine
  raises (a body of an ok response that is not JSON, or a first candidate
  without parts) is the parameter `thrown`, not a fixed text.
- A body that parses as JSON but is not an object (`null`, a number) is not
  modelled. So are field values of the wrong type, such as a numeric
  `error.message`. Each string field of the body is either a string or absent.
- The loader, `classList` and `insertAdjacentHTML` are not modelled beyond
  `display`. The loader empties `display` before the handler sets its final
  text. How `innerText` renders the page is not modelled: the page is the
  texts it yields.
- The clipboard write, the "Copied!" feedback timer and the light/dark theme
  toggle and its storage (popup.js:19-36, popup.js:134-144) are not
  modelled. They are UI and storage glue with nothing to decide.
- Overlapping Summarize and Ask calls are not modelled. In the extension they
  interleave asynchronously, and the last response to settle wins the
  display. Each handler here runs to completion.
- The content script's `return true`, which keeps the reply channel open, is
  not modelled. It concerns the transport.
- `promptMap[type]` for property names inherited by JavaScript objects (such
  as `toString`) yields an inherited value, not the brief prompt. The model
  treats the table as a map with exactly its three keys.
- Lengths count characters, not UTF-16 code units, in `Truncate` (`length`,
  `slice`) and in the 50-character guard of `Popup.Summarize`.
- popup.html is not part of this model. `Popup.constructor` takes the initial
  placeholder text as a parameter and assumes the question area starts
  hidden.
