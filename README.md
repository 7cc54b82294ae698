# RealityCheck AI — a Dafny model of its decision logic

RealityCheck AI lets a user paste a contract, job offer or similar text and get back either a structured risk
assessment (score, verdict, findings, confidence) or, once an assessment exists, a free-text follow-up answer.
This project models the parts of the repository that make decisions, and proves what they promise:

- `analyzer.dfy` (module `Analyzer`): the server's `analyzeContent`. It covers the uploaded-file short-circuit
  and the no-content check. It decides first analysis versus follow-up and builds the message list and response
  format for the generation service. It repairs a missing `confidenceScore` and wraps every failure into one
  error message. The Groq call, `JSON.parse`, `JSON.stringify`, the API-key lookup and `Math.random()` are
  inputs, bundled in an `Env`.
- `app.dfy` (module `App`): the client's session list and current session id as a class `Workspace`. Its
  methods are `createNewSession`, `updateCurrentSession`, `deleteSession`, the start-up selection, the sidebar's selection and
  `handleSend`, split at its `await` into `BeginSend` and `FinishSend` so that selecting, creating or
  deleting a session can happen while a request is pending. The pure pieces of `handleSend` are separate functions: the user message, the history sent, the
  assistant message and the title rule.
- `result_card.dfy` (module `ResultCard`): `getTheme`, the total classifier from free-form verdicts to three
  themes, plus the display defaults: confidence, title, red-flag section and the score arc.
- `sidebar.dfy` (module `Sidebar`): the `groupedSessions` loop that buckets sessions into today / last 7 days /
  older.
- Shared modules: `wrappers.dfy` (`Option`, `Result`), `json.dfy` (JavaScript values, truthiness, `||`,
  property access), `decimal.dfy` (`Date.now().toString()` and `parseInt` on those ids, and their round trip).

Behaviour the model keeps exactly as the code has it, where a reader might expect otherwise:

- There is no error taxonomy. Every failure after the prompt is assembled is one `Error` whose message is
  "AI Service Failed: " followed by the cause. This covers a missing key, an upstream error, a parse error and
  a parsed `null`. The no-content error is thrown before the `try`, so its message is the bare
  "No content to analyze.".
- "No text" means empty or whitespace-only (`trim`). A whitespace-only text with a non-empty history is still
  appended as a user message, because that test is `if (newContent)`.
- History roles are not validated. Any role is passed through, and only the role `assistant` makes a follow-up.
- A `confidenceScore` is replaced whenever it is not a number, not only when it is absent.
- A parsed result that is not an object is not rejected. `null` fails when its property is read. Other values
  (strings, numbers, arrays) are returned as they are.

## Model

| member | source | states |
|---|---|---|
| Analyzer.AnalyzeContent | server/services/analyzer.js:15-176 | A file gives the fixed deferral text reply and no request is sent. Blank text with empty history fails with 'No content to analyze.' and no request is sent. A missing key fails with the prefixed message and no request is sent. Otherwise exactly one request is sent: system prompt first, the history normalised in order, the new text last iff non-empty, JSON format iff first analysis. A follow-up returns the raw text unchanged. A first analysis returns the parsed result with a numeric confidence kept, or a missing one set to an integer in [85, 99] with every other field unchanged. Every error is 'No content to analyze.' or starts with 'AI Service Failed: ' |
| Analyzer.IsFollowUp | server/services/analyzer.js:36 | Follow-up iff some history entry has role 'assistant' |
| Analyzer.ModeDependsOnlyOnRoles | server/services/analyzer.js:36 | Histories with the same set of roles get the same mode: order and number of user turns are irrelevant |
| Analyzer.FollowUpOfConcat | server/services/analyzer.js:36 | The mode of a concatenated history is follow-up iff either part is |
| Analyzer.NormaliseHistory | server/services/analyzer.js:39-49 | Same length, same roles in the same order; object-typed contents (objects, arrays, null) are serialised, others kept; no object content remains |
| Analyzer.NormaliseIdempotent | server/services/analyzer.js:39-49 | Normalising an already normalised history changes nothing |
| Analyzer.NormaliseKeepsText | server/services/analyzer.js:40-44 | A history whose contents are all strings is sent verbatim |
| Analyzer.FallbackConfidence | server/services/analyzer.js:157 | For a random draw in [0, 1) the fallback confidence is an integer in [85, 99] |
| Decimal.FromNat | client/src/App.jsx:32 | `toString` of a clock value is a non-empty string of decimal digits without a leading zero |
| Decimal.ParseInt | client/src/components/Sidebar.jsx:14 | `parseInt` is NaN exactly when the id does not start with a digit |
| Decimal.ParseFromNat | client/src/components/Sidebar.jsx:14 | Parsing an id made by `Date.now().toString()` gives back that clock value |
| App.NewSession | client/src/App.jsx:31-36 | A new session is titled 'New Analysis', has no messages, and its id parses back to the creation time |
| App.MapById | client/src/App.jsx:43-45 | Same length; sessions with the id are replaced by the updater's result, all others stay unchanged in place |
| App.MapByIdAbsent | client/src/App.jsx:43-45 | Updating an id no session has leaves the list unchanged |
| App.RemoveById | client/src/App.jsx:51 | Exactly the sessions without the id remain |
| App.RemoveByIdConcat | client/src/App.jsx:51 | Filtering distributes over concatenation, so remaining sessions keep their order |
| App.RemoveByIdAbsent | client/src/App.jsx:51 | Deleting an id no session has leaves the list unchanged |
| App.RemoveByIdIdempotent | client/src/App.jsx:51 | Deleting the same id twice is the same as deleting it once |
| App.FindMessages | client/src/App.jsx:80 | The messages of the first session with the id, or none when no session has it |
| App.UserContent | client/src/App.jsx:73 | Plain text without a file; with a file, 'Uploaded file: ', the name, a newline and then the text |
| App.AssistantMessage | client/src/App.jsx:110-141 | An assistant message typed 'result' iff the reply is an analysis and 'text' otherwise, carrying the reply's content; on failure the fixed apology as text |
| App.NextTitle | client/src/App.jsx:124-131 | The title changes only from 'New Analysis', only on an analysis reply, and only to a truthy `content.title`; in that case it always does |
| App.SendAppendsExchange | client/src/App.jsx:83-141 | When nothing runs between `BeginSend` and `FinishSend`, each session with the active id gains the user message and then the assistant message and follows the title rule; every other session is untouched |
| App.ToTurns | client/src/App.jsx:96-97 | The history sent carries each message's role and content, in order |
| App.SentHistoryMode | client/src/App.jsx:96-97 | The server answers in follow-up mode exactly when the session already holds an assistant message |
| App.Workspace.constructor | client/src/App.jsx:8-13 | The sessions start as those restored from storage, with no current id |
| App.Workspace.CreateNewSession | client/src/App.jsx:30-40 | Prepends exactly one new session, leaves the older ones in order, makes it current and returns its id |
| App.Workspace.Initialize | client/src/App.jsx:22-28 | With no current id, no sessions creates one and otherwise the first session is selected; with a current id nothing changes |
| App.Workspace.UpdateSession | client/src/App.jsx:42-46 | The updater is applied to the sessions with the id only; the current id is unchanged |
| App.Workspace.SelectSession | client/src/App.jsx:174 | Selecting a session makes its id current and leaves the sessions as they are |
| App.Workspace.DeleteSession | client/src/App.jsx:48-62 | Removes every session with the id; if it was current, the first remaining session (or none) becomes current, otherwise the current id is unchanged |
| App.Workspace.BeginSend | client/src/App.jsx:64-87 | Uses the current session or creates one and returns its id. The history to send is that session's messages as rendered, before the new user message. Only the sessions with that id get the user message |
| App.Workspace.FinishSend | client/src/App.jsx:109-142 | The sessions with the captured id get the assistant message (or the apology) and the title rule, whatever is current by then; if that session was deleted while the request was pending, the reply is dropped and nothing changes |
| ResultCard.Upper | client/src/components/ResultCard.jsx:16 | Upper-casing keeps the length, turns each lower-case letter into its upper-case partner, changes nothing else, and leaves a string without lower-case letters as it is |
| ResultCard.LevelSource | client/src/components/ResultCard.jsx:16 | The level comes from a truthy `verdict`, else a truthy `riskLevel`, else 'CAUTION' |
| ResultCard.GetTheme | client/src/components/ResultCard.jsx:14-45 | Defined iff the level is a string. It is then one of the three themes. SAFE iff the upper-cased level is SAFE, LOW or LOW RISK. HIGH RISK iff it is HIGH RISK, HIGH or AVOID |
| ResultCard.ThemeIgnoresCase | client/src/components/ResultCard.jsx:16 | A verdict and its upper-case form select the same theme |
| ResultCard.SafeLabelSelectsSafe | client/src/components/ResultCard.jsx:19-25 | The verdict 'SAFE' selects the green SAFE theme |
| ResultCard.HighRiskLabelSelectsHighRisk | client/src/components/ResultCard.jsx:29-35 | The verdict 'HIGH RISK' selects the red HIGH RISK theme |
| ResultCard.CautionLabelSelectsCaution | client/src/components/ResultCard.jsx:38-44 | The verdict 'CAUTION' selects the yellow CAUTION theme |
| ResultCard.LabelIsFixedPoint | client/src/components/ResultCard.jsx:14-45 | Feeding a theme's label back as the verdict selects the same theme |
| ResultCard.DisplayConfidence | client/src/components/ResultCard.jsx:88 | Shows a truthy `confidenceScore`, otherwise 90 (so a score of 0 shows 90) |
| ResultCard.DisplayTitle | client/src/components/ResultCard.jsx:96 | Shows a truthy title, otherwise 'Analysis Complete' |
| ResultCard.RedFlagsShownWhenNonEmpty | client/src/components/ResultCard.jsx:182 | For an array of flags the section shows iff it is non-empty; a missing or falsy field never shows it |
| ResultCard.ArcOffset | client/src/components/ResultCard.jsx:123 | For a score in [0, 10] the offset lies in [0, 440], 440 at 0 and 0 at 10 |
| ResultCard.ArcOffsetDecreasing | client/src/components/ResultCard.jsx:123 | A higher score gives a smaller offset |
| Sidebar.BucketOf | client/src/components/Sidebar.jsx:14-23 | Today iff the id parses to a valid `Date` time, is less than a day old and has today's day of month. Last 7 days iff it parses to a valid time, is not today and is at most 7 days old. Older iff it does not parse, is past the `Date` range (an Invalid Date) or is more than 7 days old |
| Sidebar.YesterdayIsNotToday | client/src/components/Sidebar.jsx:17-20 | A session under a day old on another calendar day goes to last 7 days |
| Sidebar.Select | client/src/components/Sidebar.jsx:13-23 | A bucket holds exactly the sessions whose bucket it is |
| Sidebar.SelectConcat | client/src/components/Sidebar.jsx:13-23 | Bucketing distributes over concatenation: each bucket keeps the input order |
| Sidebar.BucketsPartition | client/src/components/Sidebar.jsx:13-24 | The three buckets together are a permutation of the sessions (as multisets) |
| Sidebar.BucketSizes | client/src/components/Sidebar.jsx:13-24 | The bucket sizes sum to the number of sessions |
| Sidebar.GroupSessions | client/src/components/Sidebar.jsx:8-26 | The loop's three lists are exactly the today, last-7-days and older selections of the input |

## Left out

- The Groq client and `chat.completions.create` are not modelled. The completion is the `Env.complete` input:
  the generated text, or the message of the error it throws. The model name is kept as a constant.
- The two system prompts are opaque constants, each represented by its opening sentence. Their wording carries
  no code behaviour.
- `JSON.parse` and `JSON.stringify` are inputs (`Env.parse`, `Env.stringify`). The serialised form of an
  assessment, and any round trip through it, are therefore not modelled.
- The `Math.random()` draw is the input `Env.random` in [0, 1). `Date.now()` and `new Date()` are `nat`
  parameters. `getDate` is the parameter `dayOfMonth`, so time zones are not modelled.
- `createNewSession` reads the clock twice (id and timestamp). The model uses one reading for both. `handleSend`
  reads it again for the user message; that is a separate parameter of `BeginSend`.
- A completion whose content is `null` is not modelled; generated text is always a string.
- History entries that are `null` or `undefined` throw at `msg.role`, outside the `try`. Other primitive
  entries (strings, numbers, booleans) are passed through as a message with neither role nor content. Neither
  case is modelled, because every entry is a `ChatMessage`.
- When `JSON.parse` yields an array, the source sets a `confidenceScore` property on it. JSON serialisation of
  the reply drops that property, so the model returns the array unchanged.
- Numbers are reals. NaN and the infinities are not modelled, so truthiness of NaN and a NaN score arc are out
  of scope.
- ResultCard.Upper: only ASCII letters are upper-cased, because full Unicode case mapping (for example 'ß' to
  'SS') is not modelled.
- Decimal.ParseInt: only strings that start with a digit are read. Leading whitespace, a sign, hexadecimal
  prefixes and the precision loss of very long digit strings are not modelled. Ids the application makes are
  always plain digit strings.
- `redFlags.length > 0` is modelled for numeric lengths only. JavaScript's coercion of a non-numeric `length`
  property is not modelled.
- `pdf-parse` and `console.log` calls are not modelled.
- The Express server (server/index.js) is not modelled: helmet, CORS, multer, rate limiting and its own 400
  check, which repeats the analyzer's no-content rule at the HTTP layer.
- React rendering, animation and hover state are not modelled: ChatArea, MessageBubble, Header and the JSX of
  ResultCard and Sidebar.
- The `isLoading` flag, `localStorage` persistence, `fetch` and the browser-extension URL parameter handling
  (client/src/App.jsx:148-165) are not modelled. A failed request of any kind is the reply `None`.
- React's deferred state updates are modelled as sequential assignments, applied in the order they are queued.
  A user action during a pending request is a call between `BeginSend` and `FinishSend`; the interleaving of
  several pending sends is whatever order the caller chooses.
- The network smoke-test script server/verify_fix.js is not modelled.
