# Survey chat: a Dafny model of its decision logic

The survey-chat application asks an employee two 1–5 ratings about moving the
team from Line to Slack. It then holds a short chat about their concerns and
submits ratings, transcript and a summary to a survey form. This project models
the logic behind that flow, with immutable datatypes and pure functions, and
proves properties of it:

- **Chat route** (`src/app/api/chat/route.ts`), in module `ChatRoute`. It answers
  one exchange, either from a three-entry canned table (no API key) or from the
  completion service. It decides `isComplete` from the `[COMPLETE]` sentinel or
  the exchange number, strips the sentinel and trims, and falls back to one of
  two fixed texts on any error.
- **Summarize route** (`src/app/api/summarize/route.ts`), in module
  `SummarizeRoute`. It detects the old body shape (`concerns`) and the new one
  (`conversation`). It has a no-key formatter, a live path (trim, or a default
  when the completion is empty), and an error formatter that keeps the first
  two items.
- **Chat widget** (`src/components/ChatBot.tsx`), in module `ChatBot`. It covers
  the send guard, the append-only transcript, the exchange counter and the
  request's exchange number. It also covers the `User:`/`AI:` history, the
  client-side summary fallback, and the finish button and progress dots.
- **Survey page** (`src/app/page.tsx`), in module `SurveyPage`. It covers the
  steps `survey | chat | complete`, the gate into the chat, the return from the
  chat, and the four-field form submission.

Module `Types` holds the records of `src/types/index.ts`. `Text` holds the
JavaScript string built-ins the code relies on: `trim` with the whitespace set
of ECMA-262 sections 12.2 and 12.3, `replace` with a string pattern (first
occurrence only), `includes`, `join`, and decimal rendering of integers.
`Transcript` holds the labelled rendering shared by the widget and the
summarize route. `Session` composes the three pieces: the page hands its
survey data to the widget, the widget talks to the chat route as written, and
the page receives the widget's transcript and summary and submits them.
`Session.ServeFixed` is the same exchange against the corrected chat route.

Conventions:

- A JSON field that may be absent is an `Option`.
- The completion service's outcome is a parameter: it either threw or returned
  a possibly missing content.
- Whether an API key is configured (including the placeholder check) is a
  boolean `live`.
- A `fetch` that fails is `None`.
- Strings are sequences of Unicode scalar values. Every literal in the source
  lies in the Basic Multilingual Plane, so this agrees with JavaScript's UTF-16
  strings.

## Model

| member | source | states |
|---|---|---|
| `ChatRoute.FallbackIndex` | src/app/api/chat/route.ts:30-31 | The table index is `min(n-1, 2)`. It names an entry exactly when n ≥ 1; a negative index or an absent count yields no entry. The index is n−1 for n ≤ 3 and the last entry for n ≥ 3. |
| `ChatRoute.NoKeyReply` | src/app/api/chat/route.ts:24-37 | With no key and n ≥ 1, the reply is canned text min(n,3) with the sentinel removed, and it is complete exactly when n ≥ 3. Transcript, ratings and completion play no part. |
| `ChatRoute.NoKeyReplyStrippingAll` | src/app/api/chat/route.ts:24-37 | The corrected handler gives the same canned answers. |
| `ChatRoute.Clean` | src/app/api/chat/route.ts:35 | Removing the first sentinel and trimming gives a trimmed text. A text without the sentinel is just trimmed. |
| `ChatRoute.Reply` | src/app/api/chat/route.ts:71-80 | A reply (canned, lines 32-36, or live) is complete exactly when its text carries the sentinel or n ≥ 3. The message is trimmed, and a text without the sentinel is shown trimmed. The corrected form never shows the sentinel. |
| `ChatRoute.Respond` | src/app/api/chat/route.ts:8-96 | The handler, with the sentinel removal as a switch. An exchange number ≥ 3 always completes. An unparsed body gets "please elaborate", incomplete. With a key, a missing field or a throwing completion gets the catch branch's reply. The corrected form never shows the sentinel. |
| `ChatRoute.FallbackEntry` | src/app/api/chat/route.ts:24-35 | Cleaning entry k (removing the first sentinel, then trimming) gives visible text k. Only the third entry carries the sentinel. |
| `ChatRoute.FallbackEntries` | src/app/api/chat/route.ts:24-35 | The same fact for all three table entries at once. |
| `ChatRoute.NoKeyBadExchange` | src/app/api/chat/route.ts:30-32 | With no key and n ≤ 0 or absent, the lookup yields `undefined`. `.includes` then throws, and the catch branch answers "please elaborate", incomplete. |
| `ChatRoute.NoKeyDeterministic` | src/app/api/chat/route.ts:24-37 | With no key, equal exchange numbers give equal responses. |
| `ChatRoute.LiveRequest` | src/app/api/chat/route.ts:40-56 | Building the live request throws exactly when `surveyData` or `messages` is missing. Otherwise the prompt carries both ratings and the exchange number. The history is the last min(5, n) of the transcript's n messages: the whole transcript when it has ≤ 5 messages, and exactly its last 5 otherwise. |
| `ChatRoute.LiveEmptyCompletion` | src/app/api/chat/route.ts:71-80 | A missing or empty completion is replaced by the fixed default text. Completion then depends on n ≥ 3 alone. |
| `ChatRoute.LiveMarkedCompletion` | src/app/api/chat/route.ts:71-80 | A completion carrying the sentinel is complete. For any text before the first sentinel, that text and the text after it are shown joined, trimmed. |
| `ChatRoute.AroundMarker` | src/app/api/chat/route.ts:72-75 | For any prefix without the sentinel, `includes` finds the sentinel, and `replace` removes exactly the first one. |
| `ChatRoute.LiveUnmarkedCompletion` | src/app/api/chat/route.ts:71-80 | A non-empty completion without the sentinel is shown trimmed. Completion depends on n ≥ 3 alone. |
| `ChatRoute.ErrorReply` | src/app/api/chat/route.ts:86-94 | `isComplete` is n ≥ 3. The message is the "thanks" text exactly then, and "please elaborate" otherwise. |
| `ChatRoute.ErrorFallback` | src/app/api/chat/route.ts:9-13 | Every failure (unparsed body, missing fields, a throwing completion) lands in the catch branch with the rule above. An unparsed body counts as exchange 1. |
| `ChatRoute.Post` | src/app/api/chat/route.ts:8-96 | The handler as written. n ≥ 3 always makes it complete. With no key, completion is exactly n ≥ 3 and no message shows the sentinel. |
| `ChatRoute.SecondMarkerLeaks` | src/app/api/chat/route.ts:72-75 | As written, a completion with a second sentinel after the first shows that second sentinel. |
| `ChatRoute.PostStrippingAll` | src/app/api/chat/route.ts:75 | The corrected handler never shows the sentinel. It has the same completion flag as the handler as written, and the same response on the no-key path. |
| `ChatRoute.CannedTextsHaveNoMarker` | src/app/api/chat/route.ts:24-89 | None of the fixed texts contains the sentinel: the canned visible texts (lines 24-28), the default (line 71) and the two catch texts (lines 87-89). Cleaning the default text leaves it unchanged. |
| `ChatRoute.MarkedText` | src/app/api/chat/route.ts:27 | A trimmed text without brackets, followed by a space and the sentinel, cleans back to itself. |
| `SummarizeRoute.NoKeySummary` | src/app/api/summarize/route.ts:14-31 | The no-key branch throws exactly when the body is not the old shape and has no conversation. |
| `SummarizeRoute.ConversationWins` | src/app/api/summarize/route.ts:14 | The old shape needs concerns AND no conversation. With a conversation present, the concerns play no part on any path. |
| `SummarizeRoute.ConcernsSummary` | src/app/api/summarize/route.ts:20-25 | One concern gives the "main concern" template with it. Every concern appears in the summary. |
| `SummarizeRoute.TranscriptSummary` | src/app/api/summarize/route.ts:28-31 | Every user message appears in the summary. |
| `SummarizeRoute.ErrorSummary` | src/app/api/summarize/route.ts:84-92 | The new shape without a conversation gives the default. Otherwise each of the first two concerns, or first two user messages, appears in the summary. |
| `SummarizeRoute.Attempt` | src/app/api/summarize/route.ts:9-74 | The try block fails on an unparsed body, and on a body that is neither the old shape nor carries a conversation; with a key it also fails when the completion throws, and otherwise fails exactly then. A live result is trimmed. |
| `SummarizeRoute.NoKeySingleConcern` | src/app/api/summarize/route.ts:20-25 | With no key, exactly one concern gives the "main concern" template with that concern. |
| `SummarizeRoute.NoKeyManyConcerns` | src/app/api/summarize/route.ts:20-25 | With no key, any other number of concerns gives the several-concerns template followed by all of them, comma-joined. It contains every concern. |
| `SummarizeRoute.NoKeyTranscript` | src/app/api/summarize/route.ts:28-31 | With no key, whatever the completion, the new shape is summarised from the user messages, comma-joined in order. Every user message appears in the summary. |
| `SummarizeRoute.NoKeyIgnoresAssistant` | src/app/api/summarize/route.ts:28 | Inserting an assistant message anywhere leaves the no-key summary unchanged. |
| `SummarizeRoute.ErrorSummaryFirstTwo` | src/app/api/summarize/route.ts:85-92 | The error templates depend on at most the first two concerns or user messages. |
| `SummarizeRoute.ErrorSummaryShowsFirstTwo` | src/app/api/summarize/route.ts:85-92 | The error templates show each of the first two concerns or user messages. |
| `SummarizeRoute.LivePrompt` | src/app/api/summarize/route.ts:36-56 | Building the prompt throws exactly when the body is not the old shape and has no conversation. The prompt is the concerns list exactly for the old shape. |
| `SummarizeRoute.NumberedListLines` | src/app/api/summarize/route.ts:41 | Splitting the old-shape list at line breaks gives one line per concern. Line i reads as the number i+1, a dot, a space and concern i, when no concern holds a line break. |
| `SummarizeRoute.LiveSummary` | src/app/api/summarize/route.ts:69-74 | The live summary is the completion trimmed, or the default when the completion is missing or empty. |
| `SummarizeRoute.UnparsedBody` | src/app/api/summarize/route.ts:97-100 | A body that does not parse gives the default summary, in both handlers. |
| `SummarizeRoute.ReadJson` | src/app/api/summarize/route.ts:10 | Reading the body marks it used. A used body reads as a failure. |
| `SummarizeRoute.AsWrittenErrorIsDefault` | src/app/api/summarize/route.ts:76-101 | As written, whenever the try block throws the summary is the default, because the second `request.json()` rejects. When the try block succeeds, both handlers agree. |
| `SummarizeRoute.ErrorTemplateUnreachable` | src/app/api/summarize/route.ts:80-96 | Take a one-concern old-shape body whose completion throws. The corrected handler gives the "main concern" template; the handler as written gives the default. |
| `SummarizeRoute.PostAsWritten` | src/app/api/summarize/route.ts:8-103 | As written: a body already read, or a failing try block, gives the default summary; otherwise the try block's result. |
| `SummarizeRoute.Post` | src/app/api/summarize/route.ts:8-103 | The corrected handler: an unparsed body gives the default, and a successful try block is returned as is. |
| `SummarizeRoute.ErrorPathUsesBody` | src/app/api/summarize/route.ts:80-92 | In the corrected handler, a throwing try block falls back to the error templates of the parsed body. They show its first concern or user message, or the default when there is no conversation. |
| `Types.AssistantInsertIgnored` | src/app/api/summarize/route.ts:28 | The user-message filter ignores assistant messages, and a user message contributes its own content at its place. |
| `Transcript.RenderSnoc` | src/components/ChatBot.tsx:71-73 | Rendering one more message appends a blank line and its labelled block. |
| `Transcript.RenderContainsAll` | src/components/ChatBot.tsx:71-73 | Every message's content appears in the rendering. |
| `Transcript.RenderContainsEach` | src/app/api/summarize/route.ts:46-48 | Every message's labelled block, and so its content, appears in the rendering. |
| `ChatBot.Greeting` | src/components/ChatBot.tsx:27-34 | The opening message quotes both ratings. |
| `ChatBot.Init` | src/components/ChatBot.tsx:12-16 | The widget starts with the greeting as its only message and an empty input. It is well formed, with no exchange answered and no request in flight. |
| `ChatBot.SetInput` | src/components/ChatBot.tsx:164-171 | Typing replaces the input, except while a request is in flight. |
| `ChatBot.SendMessage` | src/components/ChatBot.tsx:36-69 | A blocked send changes nothing. A send that passes the guard ends settled with an empty input and the same survey, and its transcript strictly extends the old one. |
| `ChatBot.BeginSend` | src/components/ChatBot.tsx:36-54 | A send that passes the guard appends the typed user message, clears the input, marks the request in flight, and posts the new transcript. A blocked send changes nothing. |
| `ChatBot.FinishSend` | src/components/ChatBot.tsx:56-68 | A reply appends one assistant message and counts the exchange. A failure leaves transcript and count alone. Either way the request is no longer in flight. |
| `ChatBot.SendGuard` | src/components/ChatBot.tsx:37 | A send with blank input, or with a request in flight, is a no-op. |
| `ChatBot.SendEffect` | src/components/ChatBot.tsx:36-68 | A send appends exactly one user message and clears the input. On success it appends exactly one assistant message and increments the count by one; on failure the count is unchanged. |
| `ChatBot.RequestNumbersTheExchange` | src/components/ChatBot.tsx:49-53 | The request carries count+1. That equals the number of assistant messages (greeting included) in the transcript it sends, and is at most the number of user messages. |
| `ChatBot.BeginSendKeepsWellFormed` | src/components/ChatBot.tsx:36-43 | Starting a send keeps the transcript invariant. |
| `ChatBot.FinishSendKeepsWellFormed` | src/components/ChatBot.tsx:56-68 | Finishing a send keeps the transcript invariant. |
| `ChatBot.SendKeepsWellFormed` | src/components/ChatBot.tsx:36-68 | A whole send keeps the invariant: greeting first, one assistant message per answered exchange, an answered user message for each. The old transcript is a prefix of the new one. |
| `ChatBot.ChatHistory` | src/components/ChatBot.tsx:71-73 | An empty transcript renders as `''`. Every message's content appears in the history. |
| `ChatBot.HistoryGrows` | src/components/ChatBot.tsx:71-73 | An answered exchange extends the history by a blank line, `User: ` and the question, then a blank line, `AI: ` and the answer. |
| `ChatBot.GenerateSummary` | src/components/ChatBot.tsx:75-116 | Nothing after the greeting gives the "no details" text. Otherwise a route answer is used as is; without one, a single user message gives the one-concern template. |
| `ChatBot.SummaryRequest` | src/components/ChatBot.tsx:80-93 | The summarize route is called exactly when something follows the greeting, and it receives exactly the messages after it. |
| `ChatBot.SummaryOfNothing` | src/components/ChatBot.tsx:80-84 | With nothing after the greeting, the summary is the fixed "no details" text, whatever the route would answer. |
| `ChatBot.SummaryIgnoresGreeting` | src/components/ChatBot.tsx:79-80 | The first message plays no part in the summary. |
| `ChatBot.LocalSummaryTemplates` | src/components/ChatBot.tsx:106-112 | Without the route, exactly one user message gives the one-concern template. Any other number gives the several-concerns template, which contains every user message. |
| `ChatBot.ProgressDots` | src/components/ChatBot.tsx:185-194 | Dot k (from 0) is filled exactly when k < count. |
| `ChatBot.DotsTrackExchanges` | src/components/ChatBot.tsx:185-196 | Dot k (from 1) is filled exactly when count ≥ k. All three are filled exactly when the finish button shows (count ≥ 3). |
| `ChatBot.Finish` | src/components/ChatBot.tsx:196-202 | The finish click is possible exactly when count ≥ 3. It hands the page the rendered history of the whole transcript and the summary of its messages. |
| `SurveyPage.Init` | src/app/page.tsx:9-15 | The page starts in the survey step with both ratings 0, empty concerns, no transcript, no summary and no submit button. |
| `SurveyPage.SelectPersonal` | src/app/page.tsx:83-87 | Choosing the first rating sets that field only. |
| `SurveyPage.SelectTeam` | src/app/page.tsx:89-93 | Choosing the second rating sets that field only. |
| `SurveyPage.RatingTouchesOnlyItself` | src/app/page.tsx:86-92 | A rating choice leaves every other field, the step and the submit button as they were. |
| `SurveyPage.ConcernsClick` | src/app/page.tsx:17-21 | The click moves to the chat exactly when both ratings are chosen. Otherwise nothing changes. |
| `SurveyPage.ChatGate` | src/app/page.tsx:17-21 | From the survey step, the step changes only with both ratings > 0. |
| `SurveyPage.Back` | src/app/page.tsx:155-158 | The back button returns from the chat to the survey step and changes nothing else. |
| `SurveyPage.ChatCompleteAsWritten` | src/app/page.tsx:23-39 | As written, the return from the chat leaves `chatHistory` as it was. |
| `SurveyPage.ChatComplete` | src/app/page.tsx:23-39 | The corrected return from the chat differs from the one as written only in also storing the transcript in `chatHistory`. |
| `SurveyPage.ChatReturn` | src/app/page.tsx:23-39 | The return from the chat puts the transcript in `concerns` and the summary in `chatSummary`. It clears `isGeneratingSummary`, goes back to the survey step and offers submit. The ratings are kept. |
| `SurveyPage.PreviewNeverShown` | src/app/page.tsx:117 | As written, the summary preview never appears, whatever the user does. |
| `SurveyPage.PreviewShownWhenFixed` | src/app/page.tsx:117 | Corrected, the preview appears after a chat with a non-empty transcript. |
| `SurveyPage.Payload` | src/app/page.tsx:45-49 | The payload has four fields: both ratings as decimal numerals of their values, the transcript, and the summary or `''`. |
| `SurveyPage.PayloadFieldsDistinct` | src/app/page.tsx:46-49 | The four form field names are distinct. |
| `SurveyPage.Submit` | src/app/page.tsx:42-64 | Submitting sends the payload and moves to the final step. |
| `SurveyPage.SubmitIgnoresOutcome` | src/app/page.tsx:51-63 | Submission ends in the final step whether or not the post threw. |
| `SurveyPage.Apply` | src/app/page.tsx:17-64 | The final step is kept by every event, and is entered exactly by a submit from the survey step with submit offered. The submit button appears only on the return from the chat. |
| `SurveyPage.Run` | src/app/page.tsx:17-64 | The final step is kept, and is reached only through a submit event in the sequence. |
| `SurveyPage.RunKeepsInvariant` | src/app/page.tsx:17-64 | Any sequence of events keeps the page invariant. The chat step and the submit button need both ratings. The final step comes only through submit. Corrected, `chatHistory` holds the transcript whenever submit is offered. |
| `SurveyPage.ReachableGated` | src/app/page.tsx:66 | From the first screen, the chat step and the submit button are only ever reached with both ratings chosen. |
| `SurveyPage.CompleteIsFinal` | src/app/page.tsx:171-184 | Once submitted, no event changes the page. |
| `Session.ExchangeSends` | src/components/ChatBot.tsx:36-61 | A non-blank message sent from a settled widget appends the user message, then the answer of the chat route as written. |
| `Session.TranscriptShowsSecondMarker` | src/components/ChatBot.tsx:56-61 | With a key, an answer with two sentinels puts the second one into the widget's transcript; the corrected route's message has none and is complete. |
| `Session.NoKeyExchange` | src/app/api/chat/route.ts:24-37 | With no key, exchange n shows canned text min(n,3), and the route reports completion from the third on. |
| `Session.NoKeyConversation` | src/components/ChatBot.tsx:36-68 | With no key, three exchanges show the three canned questions in order. The route reports false, false, true, and the finish button shows after the third. |
| `Session.ChatHolds` | src/components/ChatBot.tsx:36-68 | Three no-key exchanges from the greeting give seven messages, the user messages in order at positions 1, 3 and 5, and the finish button. |
| `Session.ExchangeKeepsWellFormed` | src/components/ChatBot.tsx:36-68 | An exchange with the route keeps the widget well formed and settled. |
| `Session.CompletionFlagIgnored` | src/components/ChatBot.tsx:56-61 | The widget never reads `isComplete`. With a key, a first answer carrying the sentinel is reported complete, yet the finish button stays hidden. |
| `Session.PageReachesChat` | src/app/page.tsx:17-21 | Choosing ratings 4 and 2 and clicking on opens the chat with those ratings. |
| `Session.SurveyFlow` | src/app/page.tsx:17-64 | Ratings 4 and 2, three no-key exchanges and the finish click, then submit. The payload carries "4", "2", and the history and summary the widget produced; the history shows all three user messages, and the page ends in the final step. |
| `Text.RemoveFirstSplit` | src/app/api/chat/route.ts:75 | `replace` with a string pattern removes the first occurrence only: in a + s + b with no occurrence of s starting inside a, it yields a + b. |
| `Text.NoEarlierOccurrence` | src/app/api/chat/route.ts:75 | When a does not contain s and s's first character does not recur in s, no occurrence of s in a + s + b starts inside a. |
| `Text.TrimSlice` | src/components/ChatBot.tsx:37 | `trim` keeps a slice of its input. The result is empty exactly when the input is all whitespace. |
| `Text.SplitJoin` | src/app/api/summarize/route.ts:41 | Joining on a one-character separator that no part contains can be undone by splitting. |
| `Text.JoinContainsEach` | src/app/api/summarize/route.ts:24 | Every joined part appears in the joined string. |
| `Text.JoinShowsAll` | src/app/api/summarize/route.ts:24 | Every part appears in a prefix followed by the joined parts. |
| `Text.ParseDecimalInverse` | src/app/page.tsx:46-47 | The decimal rendering of a number reads back as that number. |

## Left out

- The completion service (`openai.chat.completions.create`, chat/route.ts:62-67, summarize/route.ts:60-67) is a foreign network call. Its outcome is the parameter `Completion`: it threw, or it returned content that may be missing.
- The `OPENAI_API_KEY` lookup with its placeholder check is an environment read, modelled as the boolean `live`.
- The two `fetch` calls of the widget and their JSON decoding are I/O. The chat reply is `Option<string>`, and the summary reply is `Option<string>` (a failure or a non-OK status is `None`).
- The post to the survey form (`FormData`, `fetch` in no-cors mode) is I/O. The model returns the payload, and its outcome is a flag the page ignores.
- `request.json()` on a malformed body is `None`. JSON values of other types than the records declare are not modelled: a fractional or string `exchangeCount`, `null`, a non-array `concerns`, or roles other than user and assistant.
- `ChatRoute.LiveRequest`: the system prompt is reduced to the three values it interpolates. Its free-text instructions carry no behaviour.
- `SummarizeRoute.LivePrompt`: the prompt is reduced to the concerns list or the rendered transcript. Its surrounding Thai instructions are left out for the same reason.
- Model name, `max_tokens` and `temperature` are arguments of the foreign call only.
- `console.log`/`console.error`, scrolling, JSX, CSS, the loading animations, the step indicator dots of the page, `RatingScale.tsx`, `error.tsx`, `not-found.tsx`, `loading.tsx` and `layout.tsx` are presentation.
- React scheduling is a concurrency matter. The widget's greeting effect is taken as having run. The two state updates of `handleChatComplete` are applied together, so the intermediate `isGeneratingSummary: true` is never observed. The `isSummarizing` flag that disables the finish button during the summary call is not modelled.
- `ChatBot.FinishSend`: ChatBot.tsx:56-61 never checks `response.ok`. A non-OK reply that still parses as JSON but has no `message` would append an assistant message with content `undefined` and count the exchange. The model's reply is the route's message or `None` (a failure), so this case is not modelled; the chat route as modelled always answers with a message.
- `ChatBot.Greeting`: only stated to quote both ratings, not its full wording.
- Strings are sequences of code points, not UTF-16 code units. No literal of the source lies outside the Basic Multilingual Plane, so they agree; user input with surrogate pairs is not distinguished.

## Findings

| source | as written | input that shows it | evidently intended | confidence | as-written member | corrected member |
|---|---|---|---|---|---|---|
| src/app/api/chat/route.ts:75 | `replace('[COMPLETE]', '')` with a string pattern removes only the first sentinel. `isComplete` is set, but a second sentinel stays in the shown message. | Key set, completion `ok[COMPLETE][COMPLETE]`: the message is `ok[COMPLETE]` | Remove every sentinel before display. `ChatRoute.PostStrippingAll` proves no sentinel is ever shown. | low: needs the service to emit the sentinel twice; not executed | `ChatRoute.SecondMarkerLeaks` | `ChatRoute.PostStrippingAll` |
| src/app/api/summarize/route.ts:81 | The catch block calls `request.json()` a second time. Under the Fetch Standard's "consume body" algorithm a body that has been read cannot be read again. The re-read always rejects, so the error templates of lines 85-92 are never reached and every failure yields the default. | Key set, body `{"concerns":["x"]}`, completion call throws: the summary is the default instead of `ความกังวลหลัก: x` | Reuse the body parsed in the try block. `SummarizeRoute.ErrorPathUsesBody` proves the error templates then show the first concern or user message. | high: follows from the Fetch Standard; not executed | `SummarizeRoute.ErrorTemplateUnreachable` | `SummarizeRoute.Post` |
| src/app/page.tsx:23-39 | `handleChatComplete` stores the transcript in `concerns` only. `chatHistory` is never set anywhere, yet the summary preview is guarded by `surveyData.chatHistory` (line 117). | Any completed chat: the preview section never renders | Also store the transcript in `chatHistory`, as the comment at line 32 expects the preview to update. `SurveyPage.PreviewShownWhenFixed` proves the preview then appears. | high; not executed | `SurveyPage.ChatCompleteAsWritten` | `SurveyPage.ChatComplete` |
