# GymMate core, modelled in Dafny

GymMate is a fitness social app. It has partner discovery by swiping, an AI assistant called "Pulse", a food scanner, subscription plans and an onboarding wizard. This project models the app's sequential core and proves properties about it:

- **The three serverless endpoints.**
  - `/api/pulse-chat` checks a chat request, turns the conversation into backend history plus a new input, and answers either once or as a stream of `data: {...}\n\n` events.
  - `/api/analyze-image` reads a possibly data-URL-prefixed base64 image and finds its MIME type.
  - `/api/food-scan` forwards the image data and returns the parsed JSON record.
- **The browser library (`src/lib/gemini.js`).**
  - It reassembles the event stream from reads of any size.
  - It falls back from streaming, to a single request, to a fixed apology.
  - It normalises the results of the two image endpoints.
- **Subscription gating (`src/lib/stripe.js`).** `canAccessFeature`, `getFeatureLimit` and the `PLANS` catalogue.
- **Three page state machines.**
  - The swipe deck: cursor, demo-profile filter and drag thresholds.
  - The Pulse conversation update.
  - The onboarding wizard and the profile row it writes.

The Gemini SDK, `JSON.parse`, `parseFloat` and the network are parameters: function-typed oracles, or a `Fetch` value describing what the browser received. `JSON.stringify` is modelled exactly for the integer-valued JSON the endpoints write (`Json.Serialize`). The end-to-end lemmas assume only that the client's `JSON.parse` inverts it (`EndToEnd.ReadsBack`). That assumption covers every modelled value, including objects that repeat a key, which a real `JSON.parse` collapses to the last one. The objects the endpoints build themselves never repeat a key.

Files, one module each:

| file | module |
|---|---|
| `common.dfy` | `Option` |
| `strings.dfy` | `indexOf`, `split`, `trim` and the helpers around them |
| `json.dfy` | JSON values, truthiness, property reads, `JSON.stringify` and `String(v)` |
| `http.dfy` | requests, responses and the key lookup |
| `js_numbers.dfy` | `parseInt` |
| `pulse_chat.dfy` | the chat endpoint |
| `image_payload.dfy` | the image payload parsing both image endpoints share |
| `analyze_image.dfy` | the vision endpoint |
| `food_scan.dfy` | the food-scan endpoint |
| `stream_reader.dfy` | the client's event-stream reader |
| `gemini_client.dfy` | `getGeminiStream`, `analyzeImage` and `scanFoodImage` |
| `end_to_end.dfy` | endpoint composed with client |
| `subscription.dfy` | `stripe.js` |
| `swipe_deck.dfy` | `Swipe.jsx` |
| `pulse_page.dfy` | `Pulse.jsx` |
| `onboarding.dfy` | `Onboarding.jsx` |

Where the written description of the app and the code differ, the model follows the code:

- **Last chat message.** `/api/pulse-chat` does not trim it, so a whitespace-only message opens a session.
- **Errors are leaked.** A 500 caused by a thrown error carries that error's message as `details`. This is the backend's message when the backend failed; the food scan's parse error when its reply did not parse; and the `null` read when a history entry is `null`. The 500s for a missing key carry no `details`.
- **Food-scan image type.** `/api/food-scan` always labels the image `image/jpeg`.
- **Food-scan reply.** `/api/food-scan` does no `{…}` extraction: the model's text must parse as a whole.
- **Empty fallback text.** When the non-streaming fallback replies without text, `onChunk("")` is still called.
- **`null` history entries.** A `null` entry before the last message makes the history mapping throw, and the endpoint answers 500.
- **Specialties.** The trainer's "Specialties" box writes `gym_name`, and `specialties` stays `[]`.

## Model

| member | source | states |
|---|---|---|
| Strings.Split | src/lib/gemini.js:27 | `split` gives at least one piece; re-joining the pieces with the separator gives back the input; no piece contains the separator, so each cut is at the leftmost remaining occurrence; there is one piece exactly when the separator does not occur |
| Strings.Trim | src/pages/Pulse.jsx:49 | `trim` is empty exactly when the input is all white space; otherwise it starts and ends with a non-space character and is the input minus leading and trailing space |
| PulseChat.ToHistory | api/pulse-chat.js:45-48 | the mapping throws exactly when some entry is `null`; otherwise it keeps length and order, and each turn has the mapped role and the same content |
| PulseChat.Sanitize | api/pulse-chat.js:52-54 | the result is the history or the history minus its first turn, and it is shorter exactly when that first turn is the model's |
| PulseChat.Prepare | api/pulse-chat.js:14-65 | a session is opened exactly when the request passes every check, with the last message's content as input and the requested streaming mode; every other request is answered with a non-200 JSON reply |
| PulseChat.StreamResponse | api/pulse-chat.js:68-82 | a stream is answered exactly when the backend did not fail before the first chunk; it ends exactly when the backend did not fail; it holds one text event per chunk in order, then `done` if it ended; a failure before any chunk is the 500 with the backend's message |
| PulseChat.Handle | api/pulse-chat.js:12-98 | a request that fails a check gets the check's reply whatever the backend does; a 200 or a stream only for an accepted request; a stream only when one was asked for |
| PulseChat.ValidationOrder | api/pulse-chat.js:14-62 | a non-POST gets 405 before anything else; a missing key gets 500 before the body is looked at; a missing or empty `messages` gets 400; a `null` entry before the last gets the 500 of the caught throw; an empty or missing last content gets 400 "Last message content is empty"; a session is opened exactly when every check passes |
| PulseChat.ForwardedConversation | api/pulse-chat.js:42-65 | the backend input is the last message's content whatever its role; the history is every earlier message, role-mapped in order, minus one leading assistant turn; the model and system prompt are fixed |
| PulseChat.SanitizeDropsAtMostOne | api/pulse-chat.js:52-54 | sanitising removes the first turn only when it is the model's, and leaves the rest unchanged |
| PulseChat.SanitizeIsNotRecursive | api/pulse-chat.js:52-54 | two leading model turns lose only the first |
| PulseChat.WhitespaceInputAccepted | api/pulse-chat.js:57-62 | a whitespace-only last message is not rejected |
| PulseChat.NullHistoryEntry | api/pulse-chat.js:45-48 | a `null` entry anywhere before the last message is answered with the 500 of the caught throw, whatever the last message is, and no session is opened |
| PulseChat.GreetingThenQuestion | api/pulse-chat.js:42-65 | greeting plus one question gives an empty history and the question as input |
| PulseChat.DoneEventText | api/pulse-chat.js:81 | the final event is exactly `data: {"done":true}\n\n` |
| PulseChat.DoneFieldsText | api/pulse-chat.js:81 | `JSON.stringify({ done: true })` is `{"done":true}` |
| PulseChat.StreamedEvents | api/pulse-chat.js:68-82 | a completed stream is one text event per backend chunk in backend order, then exactly one `done` event, and the response is ended |
| ImagePayload.RunEnd | api/analyze-image.js:38 | finds where the lazy `(.*?)` run must stop: every character before that point is one `.` can match, and the one at it is not |
| ImagePayload.MatchEnd | api/analyze-image.js:38 | a lazy match from a given `:` has exactly one end, at the first character the run cannot pass |
| ImagePayload.MatchFromSpec | api/analyze-image.js:38-41 | the capture is that of the leftmost `:` that starts a match; when there is none, no `:…;` match exists |
| ImagePayload.MatchFrom | api/analyze-image.js:38 | a capture is a run of characters `.` can match, and holds no comma when the header holds none |
| ImagePayload.ParseImage | api/analyze-image.js:28-44 | the data is what the comma split forwards; whatever the payload, the type has no `;`, `,` or line terminator and the data no comma, so a data URL can carry them |
| ImagePayload.ReadingIsStable | api/analyze-image.js:28-44 | writing a reading back as `data:<type>;base64,<data>` and reading it again gives the same type and data |
| ImagePayload.CommaFreeIndex | api/analyze-image.js:33 | `includes(",")` is false exactly when no character is a comma |
| ImagePayload.NoCommaPassesThrough | api/analyze-image.js:30-44 | input with no comma is forwarded unchanged as `image/jpeg` |
| ImagePayload.DataBetweenCommas | api/analyze-image.js:33-35 | the data is exactly the text between the first and second comma; anything after a second comma is dropped |
| ImagePayload.FirstComma | api/analyze-image.js:34 | the split at commas starts with the comma-free header |
| ImagePayload.DataUrlRoundTrip | api/analyze-image.js:28-44 | `data:<type>;base64,<data>` is read back as that type and that data |
| ImagePayload.HeaderType | api/analyze-image.js:38-41 | the type between `data:` and the first `;` is what the expression captures |
| ImagePayload.HeaderWithoutSemicolon | api/analyze-image.js:30-41 | a header with no `:…;` segment keeps the default `image/jpeg` |
| AnalyzeImage.ValidationOrder | api/analyze-image.js:5-19 | 405, then 500 for a missing key, then 400 for a falsy `base64Image`; 200 exactly when all pass and the backend answers |
| AnalyzeImage.VisionRequest | api/analyze-image.js:16-55 | the data and type are the image reading of `String(base64Image)`, so a data URL can carry them; a truthy prompt is sent as `String(prompt)`, and the default prompt is used otherwise; the flash model, not in JSON mode |
| AnalyzeImage.Handle | api/analyze-image.js:3-70 | every answer is JSON; a 200 only for a truthy `base64Image` the backend answered, carrying exactly the backend's text |
| AnalyzeImage.Outcome | api/analyze-image.js:47-69 | an accepted request gets the backend's text with 200, or a 500 whose `details` is the backend's error |
| AnalyzeImage.DataUrlUpload | api/analyze-image.js:16-55 | a data-URL upload with no prompt reaches the backend with its own type and data and the default prompt |
| AnalyzeImage.RawUpload | api/analyze-image.js:42-48 | raw base64 and a prompt reach the backend unchanged, labelled `image/jpeg` |
| FoodScan.ValidationOrder | api/food-scan.js:4-17 | 405, then 500 for a missing key, then 400 for a falsy `base64Image`, with this endpoint's messages |
| FoodScan.ScanRequest | api/food-scan.js:14-48 | the data is what the vision endpoint forwards for the same body, and holds no comma; the type is always `image/jpeg`, with the fixed prompt, in JSON mode, to the flash model |
| FoodScan.Handle | api/food-scan.js:3-62 | every answer is JSON; a 200 only when the backend answered and its text parsed, carrying the parsed value as `data` |
| FoodScan.NoSubstituteRecord | api/food-scan.js:45-61 | 200 exactly when the backend answers and its text parses, with the parsed value as `data`; otherwise a 500 "Food scan failed", never a made-up record |
| FoodScan.OnlyTheImageMatters | api/food-scan.js:14-47 | only `base64Image` is read: the prompt is fixed and the type is always `image/jpeg` |
| FoodScan.SameDataAsVision | api/food-scan.js:41-43 | both image endpoints forward the same data; the types agree exactly when the vision endpoint also reads `image/jpeg` |
| FoodScan.DataUrlMislabelled | api/food-scan.js:47 | a data URL of another type still has its data recovered but is sent as `image/jpeg` |
| StreamReader.Classify | src/lib/gemini.js:31-38 | a frame acts only when it starts with `data: ` and its payload parses to a non-`null` value; it stops exactly on a truthy `done`, and emits only a truthy `text` of a frame without `done` |
| StreamReader.Dispatch | src/lib/gemini.js:30-40 | the frames hand on at most one text each; no frames hand on nothing and do not stop |
| StreamReader.Decode | src/lib/gemini.js:22-42 | at most one text per complete frame; a body with no blank line hands on nothing |
| StreamReader.DispatchAppend | src/lib/gemini.js:30-40 | frames are processed in order: two runs of frames give the first run's texts, then the second's unless the first hit `done` |
| StreamReader.StopIsFinal | src/lib/gemini.js:34 | nothing after a `done` frame, even in the same batch, reaches `onChunk` |
| StreamReader.SkippedFrame | src/lib/gemini.js:31-38 | a frame without `data: `, with a payload that does not parse, or with `null` is skipped, and the frames after it are unaffected |
| StreamReader.DoneFrameStops | src/lib/gemini.js:33-34 | a `done` frame delivers nothing, not even its own `text`, and ends the reading |
| StreamReader.CompleteFramesAppend | src/lib/gemini.js:26-28 | the complete frames of more input are the earlier ones, then those completed by the carried-over rest |
| StreamReader.LastPieceIncomplete | src/lib/gemini.js:28 | the carried-over buffer never holds a complete frame |
| StreamReader.BufferStep | src/lib/gemini.js:26-28 | re-splitting the buffer with a new read keeps the frames seen so far, re-joined with the buffer, equal to all input read |
| StreamReader.ExamineFrames | src/lib/gemini.js:30-40 | the inner loop delivers the frames' texts in order and stops at the first `done` |
| StreamReader.ReadEvents | src/lib/gemini.js:18-42 | the reading loop keeps the seen frames plus the buffer, joined with `\n\n`, equal to everything read; its result is the reading of the whole body at once, however it was split into reads |
| GeminiClient.FallbackChunk | src/lib/gemini.js:48-63 | a network failure gives the apology; any other text comes only from a 2xx reply whose whole body was read and parsed |
| GeminiClient.StreamCalls | src/lib/gemini.js:4-64 | a stream that does not open gives exactly one call; an opened one hands on its decoded texts first, then at most one more call; a stream whose `done` frame was read gets no further call, even if a later read would fail |
| GeminiClient.GetGeminiStream | src/lib/gemini.js:1-65 | the reading loop makes exactly the calls of `StreamCalls`: the decoded texts of an opened stream, with no fallback call once `done` was read, and one more call, from the fallback, only after a read failure before `done` or when the stream did not open |
| GeminiClient.StreamOutcomes | src/lib/gemini.js:4-64 | a stream read to its end, or to its `done` frame whatever follows, hands on only what it decoded; a stream that did not open gives exactly one call, the fallback's text or the apology; a read failure before `done` adds that one call after the texts already delivered, which are never retracted |
| GeminiClient.AnalyzeImage | src/lib/gemini.js:67-93 | a network failure gives the fixed failure message; any other text comes only from a 2xx reply whose whole body was read and parsed |
| GeminiClient.ScanFoodImage | src/lib/gemini.js:95-109 | an error is always `{ data: null }` with the fixed message; no error means a 2xx reply that was read and parsed, whose `data` is returned |
| GeminiClient.ScanResultShape | src/lib/gemini.js:95-109 | `scanFoodImage` has no error exactly when a 2xx reply parsed; every failure is `{ data: null, error: <fixed message> }` |
| EndToEnd.NonEmptySameText | src/lib/gemini.js:35 | skipping empty texts does not change the text they add up to |
| EndToEnd.FrameOneLine | api/pulse-chat.js:78 | a serialised event holds no blank line before its end, so the client splits it off whole |
| EndToEnd.EventsTerminated | api/pulse-chat.js:78-81 | the stream body is its frames, each terminated by a blank line |
| EndToEnd.StreamFrames | src/lib/gemini.js:22-28 | the complete frames of the endpoint's events are exactly those events, and a trailing partial frame is never examined |
| EndToEnd.PartialFrameDiscarded | src/lib/gemini.js:42 | a partial frame at the end of the stream is discarded |
| EndToEnd.ChatEvents | api/pulse-chat.js:75-81 | the events are those of the text payloads followed by the `done` payload |
| EndToEnd.FramePayload | src/lib/gemini.js:31-33 | the payload the client parses is the text after the six characters of `data: ` |
| EndToEnd.ClassifyText | src/lib/gemini.js:35 | a text frame delivers its text, unless the text is empty |
| EndToEnd.ClassifyDone | src/lib/gemini.js:34 | the endpoint's `done` frame stops the client |
| EndToEnd.DispatchChat | src/lib/gemini.js:30-40 | the client delivers exactly the non-empty chunks the endpoint streamed, then stops |
| EndToEnd.StreamedChat | src/lib/gemini.js:18-42 | for any chunking of a completed chat stream, the page receives the backend's non-empty chunks in order, adding up to the whole reply; the fallback is never used |
| EndToEnd.SingleChat | src/lib/gemini.js:49-64 | the non-streaming path hands on the backend's reply as one chunk, or the apology when the endpoint answered with an error |
| EndToEnd.VisionRoundTrip | src/lib/gemini.js:67-93 | `analyzeImage` returns the backend's text for an accepted request, else the fixed failure message |
| EndToEnd.FoodRoundTrip | src/lib/gemini.js:95-109 | `scanFoodImage` returns the parsed record with no error, or no data and the fixed failure message |
| Subscription.AccessByTier | src/lib/stripe.js:127-140 | access holds exactly when the tier is listed for the feature: `pro` opens four features, `elite` those and two more, every other tier and every unknown feature nothing |
| Subscription.FreeTierLocked | src/lib/stripe.js:130-139 | a missing, empty or `free` plan opens no gated feature |
| Subscription.AccessMonotone | src/lib/stripe.js:130-137 | whatever `pro` opens `elite` opens; `profile_boost` and `advanced_filters` are elite-only |
| Subscription.DailyLimits | src/lib/stripe.js:145-161 | free allows 10 swipes, 5 AI chats and 3 scans; pro and elite give -1 for all three |
| Subscription.UnknownLimitIsZero | src/lib/stripe.js:163 | the limit is non-zero exactly for a known tier and a known feature |
| Subscription.LimitsMatchAccess | src/lib/stripe.js:127-164 | a limit is -1 exactly when the matching `unlimited_…` feature is open |
| Subscription.PlanCatalogue | src/lib/stripe.js:82-121 | Free, Pro and Elite in that order, at £0, £6.99 and £9.99; Free has no price id and no period; Pro and Elite are billed `/month` under the Pro and Elite price ids; only Pro is marked popular |
| SwipeDeck.LoadedDeck | src/pages/Swipe.jsx:25-123 | a successful query never leaves the deck empty; a swipe on the loaded deck only stores a card whose id the database returned, never a demo card |
| SwipeDeck.SwipeKinds | src/pages/Swipe.jsx:116 | `right` is a like and every other direction a dislike |
| SwipeDeck.DemoNeverStored | src/pages/Swipe.jsx:118-123 | a card whose id starts with `demo-` is never written |
| SwipeDeck.RealCardStored | src/pages/Swipe.jsx:118-123 | any other card is written with its id and the swipe's kind |
| SwipeDeck.HandleSwipe | src/pages/Swipe.jsx:115-132 | with someone signed in, the swipe on the card on top is stored exactly when that card is real, with its id and the swipe's kind; a write is never made for a demo card or when nobody is signed in, in which case a real card's swipe throws and the deck is left as it was; otherwise the index moves on by one, wrapping round |
| SwipeDeck.IndexStaysInRange | src/pages/Swipe.jsx:115-132 | a swipe keeps the index in `[0, len)` and the cards unchanged, whether or not anyone is signed in |
| SwipeDeck.EmptyDeckUnchanged | src/pages/Swipe.jsx:118-130 | with no cards nothing is written and the index stays put |
| SwipeDeck.SwipeOffset | src/pages/Swipe.jsx:128-131 | after `k` swipes the index is `(start + k) mod len` |
| SwipeDeck.FullCycle | src/pages/Swipe.jsx:128-131 | `len` swipes bring the first card back |
| SwipeDeck.FallbackIsDemo | src/pages/Swipe.jsx:39-106 | the fallback list has six cards, all with `demo-` ids |
| SwipeDeck.DemoDeckStoresNothing | src/pages/Swipe.jsx:39-123 | however long one swipes over the fallback list, nothing is written |
| SwipeDeck.RealDeckStoresEverySwipe | src/pages/Swipe.jsx:115-132 | on a deck with no demo cards, a run of swipes stores one write per swipe: the `k`-th for the card `k` places on, cyclically, with the `k`-th swipe's kind |
| SwipeDeck.DragThresholds | src/pages/Swipe.jsx:164-167 | a drag beyond 100 swipes right, beyond -100 left, anything else does nothing |
| PulsePage.Submit | src/pages/Pulse.jsx:51-80 | two messages are appended after the kept conversation; the page waits with the input and attachment cleared; the vision call is made exactly when an image is attached, otherwise the chat call gets the conversation up to the user's message |
| PulsePage.Send | src/pages/Pulse.jsx:47-98 | an empty send changes nothing; any other appends two messages after the kept conversation and leaves the page ready with an empty input |
| PulsePage.SetLast | src/pages/Pulse.jsx:73-76 | only the last message's content changes |
| PulsePage.StreamInto | src/pages/Pulse.jsx:79-86 | adding the chunks one by one leaves the last message holding their in-order concatenation |
| PulsePage.EmptySendIgnored | src/pages/Pulse.jsx:49 | empty trimmed text and no image: the send changes nothing |
| PulsePage.BlankTextIgnored | src/pages/Pulse.jsx:49 | text made only of white space counts as empty |
| PulsePage.SendAppendsTwo | src/pages/Pulse.jsx:51-67 | a send keeps the conversation and appends the trimmed user message, then the assistant's reply; the input and attachment are cleared |
| PulsePage.ReplyContent | src/pages/Pulse.jsx:69-95 | the reply is the analysis result, all streamed text in order, or the fixed error text |
| PulsePage.ImageGoesToVision | src/pages/Pulse.jsx:70-72 | with an image the prompt is the trimmed text, or the default when that is empty |
| PulsePage.TextGoesToChat | src/pages/Pulse.jsx:80 | without one the earlier messages plus the user's message are sent |
| PulsePage.GreetingStaysFirst | src/pages/Pulse.jsx:7-12 | the greeting stays first after every send, so every chat request starts with it |
| PulsePage.ChatSendAccepted | src/pages/Pulse.jsx:49-80 | a text send always passes the chat endpoint's checks once a key is set, and the input sent is the trimmed text |
| PulsePage.FirstQuestion | src/pages/Pulse.jsx:7-12 | the first question reaches the backend with an empty history: the greeting is dropped |
| PulsePage.ConversationTurn | src/pages/Pulse.jsx:79-87 | after a completed stream the assistant message holds the backend's whole reply, however the stream was split |
| JsNumbers.DigitIn | src/pages/Onboarding.jsx:57 | in base 10 the digits are exactly `0`-`9`, in base 16 also `a`-`f` and `A`-`F`; each is worth its place, letters from ten, and always less than the radix |
| JsNumbers.RunLength | src/pages/Onboarding.jsx:57 | `parseInt` reads the longest run of digits |
| JsNumbers.ParseInt | src/pages/Onboarding.jsx:57 | an all-space string is `NaN` |
| JsNumbers.NumeralValue | src/pages/Onboarding.jsx:57 | a decimal numeral denotes the number it was written from |
| JsNumbers.ParseNumeral | src/pages/Onboarding.jsx:57 | `parseInt` reads back `String(n)`, also when a non-digit follows it (`"25.5"` gives 25) |
| JsNumbers.NumeralUnsigned | src/pages/Onboarding.jsx:57 | after the sign, a numeral written by `String(n)` is read in base 10, never as a `0x` hexadecimal |
| JsNumbers.NumeralRun | src/pages/Onboarding.jsx:57 | the digit run read from a numeral followed by a non-digit is exactly the numeral, and it denotes its number |
| JsNumbers.EmptyIsNaN | src/pages/Onboarding.jsx:57 | an empty, blank or sign-only field is `NaN` |
| Onboarding.Continue | src/pages/Onboarding.jsx:274-279 | from a valid step Continue moves forward to a valid step; it submits exactly from step 3 on |
| Onboarding.Back | src/pages/Onboarding.jsx:265-268 | from a valid step Back moves backward to a valid step; it is missing exactly on step 1 |
| Onboarding.StepsStayInRange | src/pages/Onboarding.jsx:265-279 | Continue and Back keep the step within 1..3; Continue submits exactly on step 3; Back is missing exactly on step 1 |
| Onboarding.BackUndoesContinue | src/pages/Onboarding.jsx:265-279 | Back undoes Continue and Continue undoes Back |
| Onboarding.WalkStaysInRange | src/pages/Onboarding.jsx:20 | from step 1, any sequence of presses keeps the step within 1..3 |
| Onboarding.SubmitNeedsThreeNexts | src/pages/Onboarding.jsx:274-279 | submitting from step `s` takes at least `4 - s` presses of Continue |
| Onboarding.ProgressBar | src/pages/Onboarding.jsx:90 | progress grows with the step and reaches 100 exactly on step 3 |
| Onboarding.MemberFormInvariant | src/pages/Onboarding.jsx:167-212 | a member is never shown a gym input, so their `gym_name` stays empty; goal and level stay among the offered choices |
| Onboarding.Apply | src/pages/Onboarding.jsx:116-248 | no input changes `specialties`, `workout_frequency` or `certification_url`; the Specialties box sets `gym_name`, and no other input changes it |
| Onboarding.UnwrittenFields | src/pages/Onboarding.jsx:22-35 | no input writes `specialties`, `workout_frequency` or `certification_url` |
| Onboarding.InitialFormChoices | src/pages/Onboarding.jsx:22-35 | the form starts with an offered goal and level and an empty gym |
| Onboarding.ProfileData | src/pages/Onboarding.jsx:53-70 | the row has the eight shared fields, plus the three training fields exactly for a member, each holding the form's value |
| Onboarding.HandleSubmit | src/pages/Onboarding.jsx:49-88 | the page moves on exactly when a user is signed in, and then the row is inserted; a trainer update is made exactly for a signed-in trainer |
| Onboarding.SubmissionShape | src/pages/Onboarding.jsx:49-88 | with a user: the eight shared fields for every role and three more for members, a trainer update for trainers only, then the dashboard; without a user nothing is written |
| Onboarding.RowCarriesForm | src/pages/Onboarding.jsx:53-70 | the row carries the form's values unchanged |
| Onboarding.AgeStored | src/pages/Onboarding.jsx:57 | a typed decimal age is stored as `parseInt`'s reading of it, an exact integer; an empty one as `NaN` |
| Onboarding.RateStored | src/pages/Onboarding.jsx:74-79 | a trainer is updated with the flag and the typed rate, or 0 when `parseFloat` gives `NaN` |
| Onboarding.SpecialtiesStoredAsGym | src/pages/Onboarding.jsx:207-212 | what a trainer types as specialties is stored as `gym_name` |

## Left out

- The Gemini SDK, `fetch`, `TextDecoder` and the Supabase client are not modelled. They appear as parameters: the backend's replies and chunks, the decoded reads of a body, and the signed-in user's id (`None` when nobody is signed in, where reading `user.id` throws). `src/lib/supabase.js` is not part of this model.
- `JSON.parse` and `parseFloat` are parameters. The round-trip lemmas assume `JSON.parse` inverts `JSON.stringify`.
- PulseChat.Entry: a chat entry is either `null` or an object with a string role and a string content, and a missing content is read as `""`. Not modelled: a history entry without `content`, which the endpoint forwards as a part with `text: undefined`; a non-string content, whether falsy (which the endpoint treats as empty) or truthy (which it forwards unconverted); and entries that are neither objects nor `null`. The Pulse page, the endpoint's only caller, only ever sends objects with string contents.
- JsNumbers.ParseInt: the result is an exact, unbounded integer. JavaScript's `parseInt` returns a Number (section 19.2.5 of ECMA-262), so these are not modelled: rounding of digit runs beyond 2^53 (`"9007199254740993"` reads as 9007199254740992), `Infinity` for runs beyond the largest Number, and `-0` for `"-0"`.
- Onboarding.AgeStored: for the reason above, the stored age equals the typed number only while it is at most 2^53 - 1 in JavaScript; the model promises it for every natural number.
- Strings are sequences of Unicode characters, not UTF-16 code units. A lone surrogate, which `JSON.parse` can produce from an escape such as `\ud800` and `JSON.stringify` escapes, cannot be represented; nothing in the modelled logic depends on code units.
- The JSON number model covers integers only. Floating-point values and their printing are not modelled.
- Server behaviour after a backend failure in the middle of a stream is modelled as a response cut short without `done`. Whether the runtime then closes or resets the connection is not modelled.
- `analyzeImage`'s conversion of a `File` to a data URL through `FileReader` is left out. The page's attached image is modelled as the data URL it becomes.
- Property lookups that reach `Object.prototype` (a feature or tier named `constructor`, say) are not modelled. Nor are plans that are not strings.
- React's asynchronous state updates, mid-stream cancellation and two sends at once are not modelled. The page disables its input while a reply is loading, and each handler is modelled as one uninterrupted run.
- The catch branch of the Pulse page's send is modelled (`Threw`). With the client library as written it is never reached, because both functions catch every error.
- Framer-motion interpolation, routing, styling and the other pages are presentation only.
- Drag offsets are modelled as integers. Only their comparison with ±100 matters.
- Onboarding.ProgressBar: progress is computed on exact rationals, so the binary rounding of `1/3 * 100` is not modelled.
- Onboarding.SubmissionShape: only a missing user is modelled as throwing. A Supabase insert or update reports errors in its return value, so it cannot stop the navigation.
