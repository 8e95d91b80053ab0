# StudyBae core, modelled in Dafny

StudyBae is a browser study aid with four tools: a goal and subject planner kept in local
storage, and three AI tools (flashcards, quiz, study buddy) that send user text to a
generative-text endpoint through three Next.js route handlers. This project models the
sequential logic of that application and proves its properties:

- **Study-plan store** (`study_planner.dfy`, with `seqs.dfy` and `text.dfy`). The `Goal` and
  `StudyPlan` records. The plan updates behind the five planner handlers as pure functions:
  `AppendGoal`, `ToggleGoal` (the `map`), `DeleteGoal` and `DeleteSubject` (the `filter`s), and
  `AddSubject` (`Array.from(new Set([...subjects, name.trim()]))`, modelled by `Seqs.Dedup`,
  which keeps first occurrences in insertion order as section 24.2 of ECMA-262 requires of Set
  objects). The completed/incomplete split of the progress dashboard. A `Planner` class holds
  the component state the handlers overwrite. Each handler method states the new state as a
  function of the old one and keeps `Valid()`: goal ids distinct (given a fresh id) and subjects
  duplicate-free.
- **Upstream retry loop** (`upstream.dfy`). `CallWithRetry` is the `for` loop shared verbatim by
  the three routes (app/api/quiz/route.ts:65-93, app/api/flashcards/route.ts:54-82,
  app/api/study-buddy/route.ts:32-60). It runs over a given function from attempt index to
  outcome (`Reply(status, body)` or `TransportFailure`). It returns the number of calls, the
  back-off delays in milliseconds and the outcome, and it is proved equal to the recursive
  specification `Retry`/`Schedule`. The lemmas about `Retry` state the bounds, the stopping rule
  and which errors escape.
- **Route handlers** (`quiz_route.dfy`, `flashcards_route.dfy`, `study_buddy_route.dfy`, with
  `http.dfy` and `json.dfy`). Each `Post` validates its one field, builds the payload, calls
  `CallWithRetry` and hands the outcome to a pure `Respond` classifier. The classifier maps each
  outcome to the route's status and message.
- **Page session** (`learn_page.dfy`). A `Session` class with the page's state fields: the
  flashcard cursor, quiz selection, resolution and scoring, and the append-only chat history.
  Its `Valid()` invariant bounds the cursors and the score.

What the code does, where it differs from the intended design:

- Every failed attempt except the last is retried. This includes a non-429 status, although
  the code calls it "non-retryable" (app/api/quiz/route.ts:82-83): the `throw` sits inside the
  `try`, so the `catch` at line 85 retries it. `ForbiddenIsRetried` and `AlwaysForbidden`
  prove the consequence: a 403 followed by a success is a success after 2 calls, and a 403 on
  every attempt means 3 calls. The model follows the code.
- When the loop ends without throwing, the last response is `ok`. So the post-loop error
  "Failed to get response from LLM API after retries" is unreachable. `CallWithRetry` keeps that
  branch after its loop. Its loop invariant `i < MaxRetries` means the loop is left only by a
  `break`, after a success or with the last attempt's error. Its `ensures`, equality with
  `Retry`, which never yields that error, shows the branch is never taken.
- The routes check `!text`, `!notes` and `!question`, so a whitespace-only field is sent
  upstream. The page refuses a blank field before posting, but sends the text untrimmed
  (app/page.tsx:133, 171, 222).
- On a duplicate-free subject list, `AddSubject` keeps the existing subjects in their order and
  appends a new name at the end (`AddSubjectToNoDups`).
- The page posts questions to `/api/studybuddy` (app/page.tsx:226), but the route lives under
  `app/api/study-buddy/`. This is a routing matter, outside the model. `AskStudyBuddy` takes
  the reply as a parameter.

Inputs from outside the program are parameters:
- the outcome of each upstream call;
- `JSON.parse` (a function returning an `Option`);
- `uuidv4()` (`freshId`);
- the clock (`now`);
- the result of `new Date(d).toISOString()` (None when it throws);
- the replies the page receives from the routes.

## Model

| member | source | states |
|---|---|---|
| `Text.Trim` | components/StudyPlanner.tsx:97 | `trim()` never lengthens its input and its result, when non-empty, starts and ends with a non-whitespace character |
| `Text.IsBlank` | components/StudyPlanner.tsx:92 | `!s.trim()` holds exactly when every character of `s` is whitespace |
| `Text.TrimStartFacts` | components/StudyPlanner.tsx:97 | `TrimStart` returns a suffix of the input, everything removed is whitespace, and it does not start with whitespace |
| `Text.TrimEndFacts` | components/StudyPlanner.tsx:97 | `TrimEnd` returns a prefix of the input, everything removed is whitespace, and it does not end with whitespace |
| `Text.TrimIsInfix` | components/StudyPlanner.tsx:97 | `trim()` returns an infix of its input with only whitespace cut from both ends, and the infix has no whitespace at either end |
| `Text.BlankIffAllWhitespace` | components/StudyPlanner.tsx:92 | a string is empty after trimming exactly when all its characters are whitespace |
| `Text.TrimIdempotent` | components/StudyPlanner.tsx:163 | trimming a trimmed string changes nothing |
| `Seqs.Filter` | components/StudyPlanner.tsx:143 | `filter` returns no more elements than it got, and a value is in the result iff it was in the input and is kept |
| `Seqs.FilterCounts` | components/StudyPlanner.tsx:183 | `filter` keeps every kept value as often as it occurred and drops every other value |
| `Seqs.FilterConcat` | components/StudyPlanner.tsx:143 | `filter` keeps the order: filtering `a + b` is filtering `a` then `b` |
| `Seqs.FilterKeepsAll` | components/StudyPlanner.tsx:143 | a filter that keeps every element returns its input |
| `Seqs.FilterNoDups` | components/StudyPlanner.tsx:183 | filtering a duplicate-free list leaves it duplicate-free |
| `Seqs.Dedup` | components/StudyPlanner.tsx:168 | `Array.from(new Set(xs))` has no duplicates and has exactly the values of `xs` |
| `Seqs.DedupOfNoDups` | components/StudyPlanner.tsx:168 | a duplicate-free list passes through the Set unchanged |
| `Seqs.DedupFirstOccurrenceOrder` | components/StudyPlanner.tsx:168 | the Set lists values in the order of their first occurrence in `xs` |
| `StudyPlanner.PlanOrDefault` | components/StudyPlanner.tsx:103 | the previous plan or a default: if there is one, else a plan for the fixed user with no goals and no subjects |
| `StudyPlanner.AppendGoal` | components/StudyPlanner.tsx:102-108 | exactly one goal is appended at the end; earlier goals, user id and subjects are unchanged; the timestamp is renewed |
| `StudyPlanner.AppendGoalKeepsIdsUnique` | components/StudyPlanner.tsx:96-106 | appending a goal with a fresh id keeps goal ids pairwise distinct |
| `StudyPlanner.ToggleGoal` | components/StudyPlanner.tsx:122-124 | same length; ids, descriptions and target dates unchanged; `completed` flipped exactly on goals whose id matches |
| `StudyPlanner.ToggleGoalTwice` | components/StudyPlanner.tsx:122-124 | toggling the same id twice restores the goals |
| `StudyPlanner.ToggleGoalUnknownId` | components/StudyPlanner.tsx:122-124 | toggling an id no goal has leaves the goals unchanged |
| `StudyPlanner.ToggleGoalKeepsIdsUnique` | components/StudyPlanner.tsx:122-124 | toggling keeps goal ids distinct |
| `StudyPlanner.DeleteGoal` | components/StudyPlanner.tsx:143 | a goal remains iff it was there and has another id; no goal with the id remains |
| `StudyPlanner.DeleteGoalCounts` | components/StudyPlanner.tsx:143 | goals with the id are removed, every other goal keeps its multiplicity |
| `StudyPlanner.DeleteGoalConcat` | components/StudyPlanner.tsx:143 | the remaining goals stay in their order |
| `StudyPlanner.DeleteGoalUnknownId` | components/StudyPlanner.tsx:143 | deleting an id no goal has leaves the goals unchanged |
| `StudyPlanner.FilterKeepsIdsUnique` | components/StudyPlanner.tsx:143 | any filter of goals with distinct ids has distinct ids |
| `StudyPlanner.DeleteGoalKeepsIdsUnique` | components/StudyPlanner.tsx:143 | deleting keeps goal ids distinct |
| `StudyPlanner.AddSubject` | components/StudyPlanner.tsx:163-168 | the subjects afterwards are duplicate-free and are the old subjects plus the trimmed name |
| `StudyPlanner.AddSubjectToNoDups` | components/StudyPlanner.tsx:163-168 | on a duplicate-free list: unchanged if the trimmed name is present, else the name appended at the end |
| `StudyPlanner.AddSubjectTwice` | components/StudyPlanner.tsx:163-168 | adding the same subject twice gives the same list as adding it once |
| `StudyPlanner.DeleteSubject` | components/StudyPlanner.tsx:183 | the name no longer occurs; every other subject remains iff it was there |
| `StudyPlanner.DeleteSubjectKeepsOthers` | components/StudyPlanner.tsx:183 | every other subject keeps its multiplicity and its order |
| `StudyPlanner.DeleteSubjectKeepsNoDups` | components/StudyPlanner.tsx:183 | deleting keeps the subjects duplicate-free |
| `StudyPlanner.CompletedGoals` | components/StudyPlanner.tsx:201 | exactly the completed goals |
| `StudyPlanner.IncompleteGoals` | components/StudyPlanner.tsx:200 | exactly the goals not completed |
| `StudyPlanner.ProgressPartition` | components/StudyPlanner.tsx:199-203 | completed count + incomplete count = total count, completed count <= total, and the two lists partition the goals as multisets |
| `StudyPlanner.Planner.constructor` | components/StudyPlanner.tsx:47-52 | the initial component state: no plan, empty inputs, no error |
| `StudyPlanner.Planner.HandleAddGoal` | components/StudyPlanner.tsx:90-116 | blank description: nothing changes. Date that `toISOString` rejects: error "Failed to add goal." and nothing else changes. Otherwise the goal with the trimmed description, `completed = false` and a null date when none was entered is appended, and both inputs are cleared. Keeps `Valid()` given a fresh id |
| `StudyPlanner.Planner.HandleToggleGoalCompletion` | components/StudyPlanner.tsx:118-137 | no plan: no-op; otherwise the goals are toggled and the timestamp renewed; keeps `Valid()` |
| `StudyPlanner.Planner.HandleDeleteGoal` | components/StudyPlanner.tsx:139-156 | no plan: no-op; otherwise the goals with the id are removed; keeps `Valid()` |
| `StudyPlanner.Planner.HandleAddSubject` | components/StudyPlanner.tsx:158-177 | blank name: nothing changes; otherwise the subject is added (creating a default plan if none is loaded) and the input is cleared; keeps `Valid()` |
| `StudyPlanner.Planner.HandleDeleteSubject` | components/StudyPlanner.tsx:179-196 | no plan: no-op; otherwise every entry equal to the name is removed; keeps `Valid()` |
| `Json.Get` | app/api/quiz/route.ts:105 | a property read is defined iff the value is an object with a member of that name, and then it is the value of the last member of that name |
| `Json.Truthy` | app/api/quiz/route.ts:105 | a possibly-undefined value is truthy iff it is defined and is not `null`, `false`, `0` or `""` |
| `Http.Provided` | app/api/quiz/route.ts:10 | the `!text` guard passes exactly when the field, as a string, is truthy |
| `Http.HasContent` | app/api/quiz/route.ts:97-99 | the envelope's text counts as content exactly when it is a truthy string |
| `Upstream.IsOkStatus` | app/api/quiz/route.ts:76 | `response.ok` holds exactly for statuses 200-299, so never for 429 |
| `Upstream.Retry` | app/api/quiz/route.ts:64-89 | the whole loop makes between 1 and 3 calls and waits once fewer than it calls |
| `Upstream.Backoffs` | app/api/quiz/route.ts:78-88 | the wait after failed attempt `i` is `2^i * 1000` ms |
| `Upstream.Schedule` | app/api/quiz/route.ts:68-89 | from attempt `i` the loop makes between 1 and `3 - i` calls and waits once fewer than it calls |
| `Upstream.ScheduleFacts` | app/api/quiz/route.ts:68-89 | from attempt `i`: no success before the last call; a response is obtained iff the last call succeeds, and it is that call's body; an error escapes only from attempt 2 and is its error; the delays are `2^k * 1000` for each retried attempt `k` |
| `Upstream.CallWithRetry` | app/api/quiz/route.ts:64-93 | the loop's calls, delays and outcome are those of `Retry` |
| `Upstream.BackoffsTotal` | app/api/quiz/route.ts:80 | two waits at most add up to at most 3000 ms |
| `Upstream.RetryBounds` | app/api/quiz/route.ts:65-88 | 1 to 3 calls, delays 1000 then 2000 ms with none after the last call, at most 3000 ms in all |
| `Upstream.RetryStopsAtFirstSuccess` | app/api/quiz/route.ts:68-77 | every call before the last failed; the outcome is a response iff the last call succeeded, with its body |
| `Upstream.RetryFetchedIffSomeAttemptSucceeds` | app/api/quiz/route.ts:68-93 | a response is obtained iff one of the three attempts succeeds |
| `Upstream.RetryEscapesOnlyAfterLastAttempt` | app/api/quiz/route.ts:78-93 | an escaping error comes after exactly 3 calls, is the third call's error, and is never the post-loop "after retries" error |
| `Upstream.AlwaysRateLimited` | app/api/quiz/route.ts:78-87 | always 429: 3 calls, waits 1000 and 2000 ms, then the 429 error escapes |
| `Upstream.RateLimitedTwiceThenOk` | app/api/quiz/route.ts:76-80 | 429, 429, 200: 3 calls and the success's body |
| `Upstream.ForbiddenIsRetried` | app/api/quiz/route.ts:81-87 | 403 then 200: the 403 is retried after 1000 ms, and the result is the success after 2 calls |
| `Upstream.AlwaysForbidden` | app/api/quiz/route.ts:81-87 | always 403: 3 calls, then the 403 error escapes |
| `QuizRoute.QuizPayload` | app/api/quiz/route.ts:19-61 | the payload carries the caller's text in the quiz instructions and requests the matching quiz schema |
| `QuizRoute.Respond` | app/api/quiz/route.ts:95-129 | 200 iff the text is present, parses and has a truthy `quiz`, and then the parsed object is returned unchanged. Otherwise 500: the internal error iff an error escaped or the body was unreadable, "No content returned from LLM" iff the text is absent or empty, "LLM returned invalid JSON structure" iff the text does not parse or lacks `quiz` |
| `QuizRoute.Post` | app/api/quiz/route.ts:5-131 | an unreadable body gives the 500 internal error with no call; a missing or empty `text` gives 400 "Text is required to generate a quiz" with no call; otherwise the quiz payload is sent and the response is `Respond` of the retry loop's outcome |
| `QuizRoute.QuizAnswerNeedsSuccess` | app/api/quiz/route.ts:68-106 | a 200 answer implies some upstream call succeeded |
| `QuizRoute.UnparsableContent` | app/api/quiz/route.ts:101-116 | text that does not parse gives 500 "LLM returned invalid JSON structure" |
| `FlashcardsRoute.FlashcardsPayload` | app/api/flashcards/route.ts:18-50 | the payload carries the notes in the flashcard instructions and requests the matching flashcards schema |
| `FlashcardsRoute.Respond` | app/api/flashcards/route.ts:84-112 | 200 iff the text is present and parses, with the parsed value unchanged and no `flashcards` check. Otherwise 500: the internal error iff an error escaped or the body was unreadable, "No content returned from LLM" iff no text, "LLM returned invalid JSON structure" iff the text does not parse |
| `FlashcardsRoute.Post` | app/api/flashcards/route.ts:8-114 | an unreadable body gives the 500 internal error, not a 400; a missing or empty `notes` gives 400 "Notes are required" with no call; otherwise `Respond` of the retry loop's outcome |
| `FlashcardsRoute.AnswerIsParsedContent` | app/api/flashcards/route.ts:57-92 | a 200 answer is the parsed text of the successful last call |
| `StudyBuddyRoute.StudyBuddyPayload` | app/api/study-buddy/route.ts:17-28 | the query is exactly "Question: " followed by the question, and there is no `generationConfig` |
| `StudyBuddyRoute.Respond` | app/api/study-buddy/route.ts:62-80 | 200 `{answer: text}` iff the text is present and non-empty, verbatim. Otherwise 500: "No content returned from Study Buddy" iff no text, the internal error iff an error escaped or the body was unreadable |
| `StudyBuddyRoute.Post` | app/api/study-buddy/route.ts:5-82 | a missing or empty `question` gives 400 "Question is required" with no call; otherwise the payload is sent and the response is `Respond` of the retry loop's outcome |
| `LearnPage.Session.constructor` | app/page.tsx:58-75 | the initial page state, which satisfies `Valid()` |
| `LearnPage.Session.GenerateFlashcards` | app/page.tsx:132-153 | with non-blank notes and a truthy `flashcards` reply: the deck is replaced, `currentCard = 0`, `flipped = false`; otherwise the flashcard state is unchanged; no other field changes in either case |
| `LearnPage.Session.NextCard` | app/page.tsx:155-160 | moves forward and unflips only when `currentCard < len - 1`; a refused move changes nothing; only the cursor and `flipped` can change; keeps the cursor in range |
| `LearnPage.Session.PrevCard` | app/page.tsx:162-167 | moves back and unflips only when `currentCard > 0`; a refused move changes nothing; only the cursor and `flipped` can change; keeps the cursor in range |
| `LearnPage.Session.FlipCard` | app/page.tsx:333 | clicking the card negates `flipped` |
| `LearnPage.Session.ClearFlashcards` | app/page.tsx:355 | "New Flashcards" empties the deck |
| `LearnPage.Session.GenerateQuiz` | app/page.tsx:170-193 | with non-blank text and a truthy `quiz` reply: the quiz is replaced, `currentQuestion = 0`, `selectedAnswer = null`, `showResults = false`, `score = 0`; otherwise the quiz state is unchanged; no field outside the quiz state changes |
| `LearnPage.Session.SelectAnswer` | app/page.tsx:195-198 | ignored while an answer is selected; otherwise selects it and schedules its resolution; no other field changes |
| `LearnPage.Session.ResolveAnswer` | app/page.tsx:200-217 | adds 1 to `score` iff the answer is the question's `correct` index. Before the last question: advances and clears the selection. On the last: shows results and keeps `currentQuestion`. Keeps `score <= resolved questions` and `score <= quiz.length`. Only the quiz cursor, selection, results flag, score and the pending timer change |
| `LearnPage.Session.TakeAnotherQuiz` | app/page.tsx:400-404 | empties the quiz, hides results and zeroes the score |
| `LearnPage.Session.AskStudyBuddy` | app/page.tsx:221-243 | with a non-blank question and a non-empty answer: exactly one `{question, answer}` turn is appended, earlier turns are untouched, and the question is cleared; otherwise nothing changes; only the chat history, answer and question can change |

## Left out

- HTTP plumbing (`fetch`, `NextRequest`/`NextResponse`, `req.json()`, `response.json()`). The upstream is a function from attempt index to outcome. The envelope is an optional text. An unreadable body is a separate case.
- `JSON.parse` and `JSON.stringify`, which are foreign calls. Parsing is a function parameter returning an `Option`. JSON numbers are integers.
- Request fields that are JSON values other than strings (numbers, booleans, objects). `Http.Request` carries the field as an optional string only.
- The prompt texts, system prompts and response schemas. A payload records which template and schema it uses and the inserted text.
- Timers and `await`. Delays are recorded as values, not waited. The 1.5 s quiz timer is the `SelectAnswer`/`ResolveAnswer` pair.
- LearnPage.Session.GenerateQuiz: requires that no answer is awaiting resolution. The form that triggers it is shown only while no question is on screen, and the stale-closure race of a timer firing after a new quiz loads is not modelled.
- React scheduling and stale closures. The handlers read `studyPlan` from the closure while the setters use `prevPlan`. All handlers are modelled as sequential, so both are the same plan.
- localStorage load and save effects (components/StudyPlanner.tsx:55-88, app/page.tsx:87-118), and the `loading` flags. These are browser storage I/O and UI state.
- `uuidv4`, `Date`, `toISOString`, `toLocaleDateString`, `formatLocalDate`. They depend on randomness and the clock, so they are parameters or are omitted.
- The catch branches of toggling, deleting and adding a subject. Nothing in them can throw, so they are not modelled.
- Floating-point percentages: `progressWidth`, `toFixed`, and the quiz's `Math.round` percentage.
- Rendering, tabs, `AccentButton`, theme constants and app/layout.tsx.
- The duplicated plan state and no-op handler stubs in app/page.tsx:77-128. The planner logic lives in components/StudyPlanner.tsx.
- Server-side logging with `console.error`.
