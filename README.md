# Mood wizard: a verified model

The system is a three-step mindfulness chat wizard with a small REST backend.

The user picks a mood: happy, okay or stressed. The client then walks them through three scripted steps of messages. It records the session on the server: it is created when the mood is chosen, the current step is reported on every step change, and completion is reported when the user finishes. The server keeps sessions in an in-memory store and serves them over six routes.

The Dafny modules follow the program's files:

| module | file | models |
|---|---|---|
| `Wrappers` | `wrappers.dfy` | `Option` |
| `Schema` | `schema.dfy` | `shared/schema.ts`: moods, steps, the session record, the insert and update payloads |
| `Text` | `text.dfy` | substring search, decimal text, JavaScript `parseInt` |
| `Storage` | `storage.dfy` | `server/storage.ts`: the store as a value (`Store`) and as the class the server holds (`MemStorage`) |
| `Routes` | `routes.dfy` | `server/routes.ts`: the route table, first-match dispatch, each handler's status decision |
| `ChatContent` | `chat_content.dfy` | `client/src/data/chatContent.ts`: the three content tables and `getChatContent` |
| `ChatContainer` | `chat_container.dfy` | `client/src/components/ChatContainer.tsx`: the final-options predicate, selector versus conversation, and the `<ul>`/`<li>` extraction of `ChatBubble` |
| `NavigationControls` | `navigation.dfy` | `client/src/components/NavigationControls.tsx`: the Back/Next disabled rules and the step label |
| `ProgressTracker` | `progress_tracker.dfy` | `client/src/components/ProgressTracker.tsx`: the three progress dots |
| `MindfulChat` | `mindful_chat.dfy` | `client/src/hooks/useMindfulChat.ts`: the wizard's state, handlers, step effect, request callbacks and timers |

Each imperative part is written twice:

- **The store.** `Storage.Store` is the store's state as a value, and `Create`, `Update`, `Get`, `List` and `Select` are functions on it. `Storage.MemStorage` keeps the same state in fields: the Map, its key order and the counter. Each of its methods is proved equal to the matching function.
- **The route handlers.** `Routes.Dispatch` is the reply and the new store as a function of the request. `Routes.Serve` runs the handlers against a `MemStorage` and is proved to agree with `Dispatch`.
- **The client hook.** `MindfulChat.State` is the hook's state as a value, with one function per handler. `MindfulChat.Controller` holds the same slots as fields. Each of its methods is proved to move them as the function says. The constructor establishes the invariant `Consistent`, every handler and callback keeps it, and `RunEffect` and `ShowStatusMessage` keep it whenever it held before they ran.
- **`ChatBubble`'s item loop.** `ChatContainer.CollectItems` is the `while` loop over the regex matches. It is proved equal to `ListItems`, whose completeness and order are proved as lemmas.

Requests from the client to the backend are appended to an outbox. Their replies, and the expiry of each pending timer, are events the environment delivers in any order.

## Model

| member | source | states |
|---|---|---|
| Schema.MoodsAreExactlyThree | shared/schema.ts:6-7 | There are exactly three moods, every mood is among them, and their spellings differ. |
| Schema.ParseMood | shared/schema.ts:6-7 | Only the three mood spellings are moods; any other string is rejected. |
| Schema.ParseMoodRoundTrip | shared/schema.ts:6-7 | Every mood's spelling reads back as that mood. |
| Schema.StepsAreOneToThree | shared/schema.ts:10-11 | The steps are exactly 1, 2 and 3. |
| Text.IndexOfSpec | client/src/components/ChatContainer.tsx:38 | The search finds the first occurrence at or after the start, and fails only when there is none. |
| Text.ContainsIff | client/src/components/ChatContainer.tsx:105 | `includes` holds exactly when the pattern occurs somewhere. |
| Text.ParseInt | server/routes.ts:26-27 | `parseInt` gives NaN exactly when no decimal digit follows the optional sign. |
| Text.ParseIntText | server/routes.ts:26-27 | `parseInt` reads back every integer's decimal text, whatever non-digit follows it. |
| Text.ParseIntDecimal | server/routes.ts:26-27 | A decimal id reads back as itself. |
| Text.ParseIntRejectsWord | server/routes.ts:51-52 | A segment starting with a letter is NaN. |
| Storage.Empty | server/storage.ts:19-22 | The first store has no records and will issue id 1. |
| Storage.Create | server/storage.ts:24-36 | The record copies mood, step and completed from the payload and gets the next id, which no record had before and which exceeds every earlier id. Both timestamps are `now`. It is stored under its id, appended to the key order, and the counter goes up by one. |
| Storage.Merge | server/storage.ts:45-49 | Only the fields present in the patch change; id, mood and timestampCreated never do; timestampUpdated becomes `now`. |
| Storage.Update | server/storage.ts:38-53 | An absent id gives undefined and leaves the store as it was. A present id gets the merged record. No other record, no key, the key order and the counter change. |
| Storage.Get | server/storage.ts:55-57 | In a reachable store, a record comes back exactly for the ids issued so far (1 to nextId-1), and it carries the id it was asked for. |
| Storage.List | server/storage.ts:59-61 | One record per issued id, the i-th being the record with id i+1. |
| Storage.Select | server/storage.ts:63-73 | The filter keeps its input's order and holds exactly the matching elements. |
| Storage.ListDistinct | server/storage.ts:59-61 | No record is listed twice. |
| Storage.ListInCreationOrder | server/storage.ts:59-61 | Ids strictly increase along the listing. |
| Storage.FiltersAreExact | server/storage.ts:63-73 | Any ordered selection of the listing that holds exactly the matching records is the filter's result, so the filters give exactly the matches in list order. |
| Storage.UnsetCompletedExcluded | server/storage.ts:71-73 | A record whose completed was never set is not returned as completed. |
| Storage.IdsNeverReused | server/storage.ts:21-25 | A run of creates issues the ids nextId, nextId+1, … in order, so no id is issued twice. |
| Storage.GetAfterCreate | server/storage.ts:24-36 | After createSession returns a record, getSession of its id yields that record. |
| Storage.GetNeverIssued | server/storage.ts:55-57 | getSession of an id never issued yields undefined. |
| Storage.UpdateAbsent | server/storage.ts:38-43 | updateSession of an absent id changes nothing and returns undefined. |
| Storage.UpdateKeepsListing | server/storage.ts:51 | An update keeps the listing's length and order and changes only the listed record with that id. |
| Storage.MergeIdempotent | server/storage.ts:45-49 | The same patch, applied twice at the same instant, has the effect of applying it once. |
| Storage.MemStorage.constructor | server/storage.ts:19-22 | The new store is the empty store. |
| Storage.MemStorage.CreateSession | server/storage.ts:24-36 | It moves the fields exactly as `Create` says, returns its record, and keeps the store well formed. |
| Storage.MemStorage.UpdateSession | server/storage.ts:38-53 | It moves the fields exactly as `Update` says and returns its result. |
| Storage.MemStorage.GetSession | server/storage.ts:55-57 | It returns `Get` of the current state. |
| Storage.MemStorage.ListSessions | server/storage.ts:59-61 | It returns `List` of the current state. |
| Storage.MemStorage.GetSessionsByMood | server/storage.ts:63-65 | It returns the mood filter of the listing. |
| Storage.MemStorage.GetSessionsByStep | server/storage.ts:67-69 | It returns the step filter of the listing. |
| Storage.MemStorage.GetCompletedSessions | server/storage.ts:71-73 | It returns the completed filter of the listing. |
| Routes.Bind | server/routes.ts:24 | A path that binds has one segment per pattern segment, each fixed word equal and each parameter non-empty. |
| Routes.BindSpec | server/routes.ts:24-26 | A path binds exactly when it fits the pattern that way, and the k-th bound value is the path segment under the pattern's k-th parameter. |
| Routes.FirstMatch | server/routes.ts:9-101 | The chosen route accepts the request and is the first in the table that does; no route is chosen only when none accepts. |
| Routes.Dispatch | server/routes.ts:9-101 | Every reply is 200, 201, 400 or 404, and the store changes only on a 200 or 201 reply. Its cases are the helpers `CreateRoute`, `UpdateRoute`, `GetRoute`, `MoodRoute` and `Handle`, one per handler; the per-route lemmas below state what each answers. |
| Routes.Serve | server/routes.ts:9-101 | The handlers run against the store object agree with `Dispatch` on both the reply and the store afterwards. |
| Routes.PostInvalidBody | server/routes.ts:9-16 | A POST whose body fails validation gets 400 and leaves the store unchanged. |
| Routes.PostValidBody | server/routes.ts:9-13 | A valid POST gets 201 with the record createSession stored, under an id that was free. |
| Routes.IdRouteMatches | server/routes.ts:24-49 | PATCH or GET of any one non-empty segment under /api/sessions is taken by the `/:id` route with that segment as its parameter. |
| Routes.UnparsableId | server/routes.ts:26-29 | On PATCH or GET `/:id`, an id that parseInt rejects gets 400 before the body is looked at or the store touched. |
| Routes.PatchNumericId | server/routes.ts:31-38 | With a numeric id and a valid body: 404 and no change for an absent id; otherwise 200 with the merged record, stored by updateSession. |
| Routes.PatchInvalidBody | server/routes.ts:31-41 | With a numeric id and an invalid body: 400, and the store is unchanged. |
| Routes.GetNumericId | server/routes.ts:56-62 | GET of a numeric id: 404 for an unknown id, otherwise 200 with the record; the store is unchanged. |
| Routes.ListAlwaysOk | server/routes.ts:69-72 | GET /api/sessions always answers 200 with every record. |
| Routes.MoodListing | server/routes.ts:79-87 | GET by mood answers 400 unless the segment is a mood spelling, otherwise 200 with the store's mood filter; the store is unchanged. |
| Routes.CompletedShadowed | server/routes.ts:49-54 | As registered, GET /api/sessions/completed is answered 400 "Invalid session ID". |
| Routes.CompletedUnreachable | server/routes.ts:94-101 | As registered, no request of any verb or path reaches the completed-sessions handler. |
| Routes.CompletedServedWhenFirst | server/routes.ts:94-101 | With the completed route registered before `/:id`, the request gets 200 with exactly the completed records. |
| ChatContent.GetChatContent | client/src/data/chatContent.ts:206-215 | A step outside 1..3 gives the empty list; one in 1..3 gives the mood's table entry for it. |
| ChatContent.ContentSizes | client/src/data/chatContent.ts:10-203 | For every mood, step 1 has 3 messages, step 2 has 4, step 3 has 7 and any other step none. |
| ChatContent.ContentNonEmpty | client/src/data/chatContent.ts:206-215 | The list is non-empty exactly for steps 1 to 3. |
| ChatContent.OpeningStepsShape | client/src/data/chatContent.ts:10-41 | Steps 1 and 2 of every mood open with a system message and close with a user message. |
| ChatContent.ClosingMessage | client/src/data/chatContent.ts:67-70 | The seventh and last message of step 3 is a system message ending in the closing question. |
| ChatContent.ClosingQuestion | client/src/data/chatContent.ts:199-202 | The last step-3 message of every mood is a system message containing "Would you like to". |
| ChatContainer.ShowFinalOptions | client/src/components/ChatContainer.tsx:35-42 | The final options are never offered off step 3 or with no messages. |
| ChatContainer.FinalOptionsAtLastStep | client/src/components/ChatContainer.tsx:36-38 | With the content table, the final options are offered exactly at step 3, for every mood. |
| ChatContainer.FirstListShape | client/src/components/ChatContainer.tsx:111-112 | The block found is a match of the list regex: "<ul", then a ">", then "</ul>". |
| ChatContainer.FirstListPreferred | client/src/components/ChatContainer.tsx:111-112 | The block found is the one the lazy regex prefers: leftmost start, then shortest tag, then shortest content. |
| ChatContainer.FirstListNone | client/src/components/ChatContainer.tsx:111-112 | No block is found only when the text holds no match at all. |
| ChatContainer.OpensAtOccurs | client/src/components/ChatContainer.tsx:116 | The character test for "<li>" is the substring test. |
| ChatContainer.ClosesAtOccurs | client/src/components/ChatContainer.tsx:116 | The character test for "</li>" is the substring test. |
| ChatContainer.NextOpenSpec | client/src/components/ChatContainer.tsx:116-118 | The item search finds the leftmost "<li>" at or after lastIndex, and fails only when there is none. |
| ChatContainer.LazyCloseSpec | client/src/components/ChatContainer.tsx:116 | The lazy capture stops at the first "</li>", having crossed no other one and no line terminator; it fails only when every "</li>" from there on lies behind a line terminator. |
| ChatContainer.ItemAtIff | client/src/components/ChatContainer.tsx:116 | An item match starts at a position exactly when "<li>" is there and some "</li>" after it can be reached without crossing a line terminator, so the completeness lemmas speak of the regex itself. |
| ChatContainer.NextItemSpec | client/src/components/ChatContainer.tsx:118 | One `exec` finds a match at or after lastIndex that lies inside the text. |
| ChatContainer.NextItemLeftmost | client/src/components/ChatContainer.tsx:118 | No item match starts between lastIndex and the one `exec` finds. |
| ChatContainer.NextItemNone | client/src/components/ChatContainer.tsx:118 | `exec` fails only when no item match starts at or after lastIndex. |
| ChatContainer.ItemSpansSpec | client/src/components/ChatContainer.tsx:116-120 | Every match of the loop is inside the text, and the matches come in order of appearance without overlapping. |
| ChatContainer.ItemsFromSpans | client/src/components/ChatContainer.tsx:118-119 | One item is collected per match: the text between its tags. |
| ChatContainer.NoItemBeforeFirst | client/src/components/ChatContainer.tsx:116-120 | No item starts before the first one collected. |
| ChatContainer.NoItemAfterLast | client/src/components/ChatContainer.tsx:116-120 | No item starts after the last one collected, and none at all when nothing is collected. |
| ChatContainer.NoItemBetween | client/src/components/ChatContainer.tsx:116-120 | No item starts between two collected ones, so the loop misses none. |
| ChatContainer.ItemIsClean | client/src/components/ChatContainer.tsx:116 | A captured item holds no line terminator and no "</li>". |
| ChatContainer.ItemsAreClean | client/src/components/ChatContainer.tsx:116-120 | No collected item holds a line terminator or a "</li>". |
| ChatContainer.ItemsFromStep | client/src/components/ChatContainer.tsx:118-119 | One pass of the loop moves exactly one item from those still to come to those collected. |
| ChatContainer.CollectItems | client/src/components/ChatContainer.tsx:116-120 | The `while` loop collects exactly the items `ListItems` describes. |
| ChatContainer.RenderBubble | client/src/components/ChatContainer.tsx:101-122 | The component's processing of a message is `BubbleOf`. |
| ChatContainer.PlainTextUnchanged | client/src/components/ChatContainer.tsx:105-109 | A text without "<li>" is shown unchanged, with no list items. |
| ChatContainer.CutSpec | client/src/components/ChatContainer.tsx:115 | Cutting keeps what was before and after the cut part, in place, and loses nothing else. |
| ChatContainer.ProcessedText | client/src/components/ChatContainer.tsx:114-115 | The shown text is the message with exactly its first list block cut out, from "<ul" to the end of "</ul>". |
| ChatContainer.ProcessedItems | client/src/components/ChatContainer.tsx:114-120 | The items shown are those of that block's content. |
| ChatContainer.UnprocessedBubble | client/src/components/ChatContainer.tsx:112-114 | A text with no list block, or with an empty one, is shown unchanged and without items. |
| ChatContainer.ScreenOf | client/src/components/ChatContainer.tsx:46-63 | The mood selector is shown exactly until the session starts; then one bubble per message in message order, with the final options when they apply. |
| NavigationControls.NeverBothDisabled | client/src/components/NavigationControls.tsx:28-42 | With three steps, Back and Next are never both disabled. |
| NavigationControls.BothEnabledOnMiddleStep | client/src/components/NavigationControls.tsx:28-42 | On steps 1 to 3, Back is disabled exactly on step 1, Next exactly on step 3, and both are enabled exactly on step 2. |
| NavigationControls.StepLabelReadsBack | client/src/components/NavigationControls.tsx:34 | The label is "Step ", the current step, " of ", the total, and both numbers read back from it. |
| ProgressTracker.DotsOf | client/src/components/ProgressTracker.tsx:11 | One dot per step, in order, each the dot for that step. |
| ProgressTracker.ThreeDots | client/src/components/ProgressTracker.tsx:11 | There are always three dots, for steps 1, 2 and 3 in that order. |
| ProgressTracker.DotFilledIff | client/src/components/ProgressTracker.tsx:15-21 | Dot k is filled exactly when the wizard has started and reached step k, and enlarged exactly on step k. |
| ProgressTracker.FilledDots | client/src/components/ProgressTracker.tsx:15-16 | No dot is filled at or before step 0; after that min(currentStep, 3) are. |
| ProgressTracker.EnlargedDots | client/src/components/ProgressTracker.tsx:21 | Exactly one dot is enlarged on steps 1 to 3, and none on any other step. |
| MindfulChat.CreateBody | client/src/lib/airtable.ts:24-29 | The create request carries the mood's spelling, step 1 and completed false. |
| MindfulChat.StepReportSetsOnlyStep | client/src/hooks/useMindfulChat.ts:73-78 | On the server, a step report changes only the record's step and timestampUpdated. |
| MindfulChat.CompletionSetsOnlyCompleted | client/src/hooks/useMindfulChat.ts:117-121 | On the server, a completion report changes only completed (to true) and timestampUpdated. |
| MindfulChat.InitialIsConsistent | client/src/hooks/useMindfulChat.ts:11-19 | The wizard starts on step 0 with no mood, no session id, not started and no messages. |
| MindfulChat.AfterChangeConsistent | client/src/hooks/useMindfulChat.ts:67-80 | The effect keeps the invariant: while a session runs, the messages are the current step's content. |
| MindfulChat.MoodSelectStarts | client/src/hooks/useMindfulChat.ts:83-90 | Choosing a mood starts the session on step 1 with that content and issues exactly one create request for the mood; any further request is a step report. |
| MindfulChat.NextMoves | client/src/hooks/useMindfulChat.ts:93-97 | Next moves on exactly when the step is below 3, never past 3. A move in a running session appends one step report for the new step when a session id is known, and no other request. The mood, session id, status and timers stay as they were. |
| MindfulChat.PreviousMoves | client/src/hooks/useMindfulChat.ts:100-104 | Back moves back exactly when the step is above 1, so a running session never drops below step 1. A move in a running session appends one step report for the new step when a session id is known, and no other request. The mood, session id, status and timers stay as they were. |
| MindfulChat.BackDisabledIffPreviousIsNoOp | client/src/components/NavigationControls.tsx:28 | Back is disabled exactly when handlePrevious would do nothing. |
| MindfulChat.NextDisabledIffNextIsNoOp | client/src/components/NavigationControls.tsx:42 | Next is disabled exactly when handleNext would do nothing. |
| MindfulChat.NextReachesLastStep | client/src/hooks/useMindfulChat.ts:93-97 | Enough presses of Next reach step 3 from any step of a running session, and keep the invariant. |
| MindfulChat.RestartResets | client/src/hooks/useMindfulChat.ts:107-113 | Restart resets step, mood, started, messages and session id from any state, leaves the status, requests and timers alone, and is idempotent. |
| MindfulChat.CompleteReports | client/src/hooks/useMindfulChat.ts:116-128 | Without a session id nothing happens; with one, a completion report is issued, the success status is shown, and the hide and restart timers are armed. |
| MindfulChat.LogSessionReports | client/src/hooks/useMindfulChat.ts:131-142 | The same report without the restart, or an error status when there is no session id. |
| MindfulChat.FailuresOnlyReport | client/src/hooks/useMindfulChat.ts:28-48 | A failed create or update only shows its error status; the wizard and the requests stay as they were. |
| MindfulChat.CreateSucceededReportsStep | client/src/hooks/useMindfulChat.ts:24-27 | A successful create records the id; while the session runs, a new id triggers an immediate report of the current step. |
| MindfulChat.FireTimerConsistent | client/src/hooks/useMindfulChat.ts:56-63 | Firing any pending timer keeps the invariant. |
| MindfulChat.StatusHidesThenClears | client/src/hooks/useMindfulChat.ts:52-64 | A status is shown, then hidden by its 3000 ms timer, then cleared by the 300 ms one. |
| MindfulChat.StaleClearEmptiesNewStatus | client/src/hooks/useMindfulChat.ts:56-63 | A clear timer left over from an earlier status empties the slot of a newer status that is still meant to show. |
| MindfulChat.ConsistentScreen | client/src/components/ChatContainer.tsx:46-63 | In any consistent state the screen shows the selector before the session starts; after that it shows the step's content, with the final options exactly on step 3. |
| MindfulChat.Controller.constructor | client/src/hooks/useMindfulChat.ts:11-19 | The hook starts in the initial state. |
| MindfulChat.Controller.RunEffect | client/src/hooks/useMindfulChat.ts:67-80 | The effect moves the fields as `AfterChange` says, and keeps the invariant when it held before. |
| MindfulChat.Controller.ShowStatusMessage | client/src/hooks/useMindfulChat.ts:52-64 | Shows the status and arms the hide timer, as `ShowStatus` says, and keeps the invariant when it held before. |
| MindfulChat.Controller.HandleMoodSelect | client/src/hooks/useMindfulChat.ts:83-90 | It moves the fields as `MoodSelect` says and keeps the invariant. |
| MindfulChat.Controller.HandleNext | client/src/hooks/useMindfulChat.ts:93-97 | It moves the fields as `Next` says and keeps the invariant. |
| MindfulChat.Controller.HandlePrevious | client/src/hooks/useMindfulChat.ts:100-104 | It moves the fields as `Previous` says and keeps the invariant. |
| MindfulChat.Controller.HandleRestart | client/src/hooks/useMindfulChat.ts:107-113 | It moves the fields as `Restart` says and keeps the invariant. |
| MindfulChat.Controller.HandleComplete | client/src/hooks/useMindfulChat.ts:116-128 | It moves the fields as `Complete` says and keeps the invariant. |
| MindfulChat.Controller.LogSessionToAirtable | client/src/hooks/useMindfulChat.ts:131-142 | It moves the fields as `LogSession` says and keeps the invariant. |
| MindfulChat.Controller.OnCreateSuccess | client/src/hooks/useMindfulChat.ts:24-27 | It moves the fields as `CreateSucceeded` says and keeps the invariant. |
| MindfulChat.Controller.OnCreateError | client/src/hooks/useMindfulChat.ts:28-33 | It moves the fields as `CreateFailed` says and keeps the invariant. |
| MindfulChat.Controller.OnUpdateError | client/src/hooks/useMindfulChat.ts:43-48 | It moves the fields as `UpdateFailed` says and keeps the invariant. |
| MindfulChat.Controller.Tick | client/src/hooks/useMindfulChat.ts:56-63 | A pending timer fires as `FireTimer` says, and the invariant is kept. |

## Left out

- HTTP, Express and react-query plumbing are left out: `apiRequest`, `useMutation`, `invalidateQueries`, the JSON bodies and the server construction (server/routes.ts:104-105). A request is an entry in the outbox; a reply is an event. The update mutation's `onSuccess` only invalidates a cache, so it has no counterpart.
- The 500 replies are left out. They happen only when the store throws, and this store never throws.
- The `errors` array that zod attaches to a 400 reply is left out. Validation itself is abstract: a request carries what the insert and update schemas make of its body. What a zod schema accepts character by character is not modelled.
- Real time is not modelled. `new Date()` is a `now` parameter, so nothing is claimed about timestamps growing. Each `setTimeout` is a pending timer that the environment fires whenever it likes, in any order. Delays are named, but not measured.
- How often React re-runs the effect is not modelled. The effect runs after a handler or callback that changed one of step, mood, started or session id. Re-runs caused only by a new mutation object are left out.
- `parseInt` is modelled as an optional sign, then the longest run of decimal digits, with whatever follows ignored (so "5abc" reads as 5, as in JavaScript). Leading whitespace, a "0x" prefix, "Infinity", and precision beyond 2^53 are not modelled.
- Express path matching is simplified. Paths are given as segments. Case-insensitive matching, trailing slashes and percent-decoding are left out.
- HEAD requests are left out: Express answers them with the GET handlers, but the model has no HEAD verb.
- A `step` that is not an integer (the payload schema accepts any number) is not modelled: steps are integers.
- Presentation is left out: animations, CSS classes, scrolling, the toasts of client/src/pages/Home.tsx, and the MoodSelector and StatusMessage components. Only the decisions that choose what is shown are modelled.
- The greeting of the mood-selection screen is kept exactly as the file spells it, including the mis-encoded emoji.
- No limit on update requests in flight is modelled, because the code has none: the effect issues an update on every change, however many are still pending.
- No server-side defaults are modelled for a mood-only create, because the in-memory store applies none: a missing step or completed stays absent (`None`). The values 1 and false come from the client's request body (`MindfulChat.CreateBody`).
- Storage.IdsNeverReused: the id counter is an unbounded integer, so the 2^53 limit of the JavaScript number behind `this.currentId++` is not modelled. Past that many creates, the source would stop issuing distinct ids; the model keeps issuing them.
- The column default of `completed` (false) belongs to the database table. The in-memory store does not apply it, so `Session.completed` may be absent.

## Findings

| source | as written | input that shows it | evidently intended | confidence | as-written member | corrected member |
|---|---|---|---|---|---|---|
| server/routes.ts:49-54, server/routes.ts:94 | `/api/sessions/:id` is registered before `/api/sessions/completed`. The completed request is taken by the id route, `parseInt("completed")` is NaN, and the reply is 400 "Invalid session ID". The completed handler can never run. | GET /api/sessions/completed | 200 with the sessions whose completed is true | not executed | Routes.CompletedShadowed | Routes.CompletedServedWhenFirst |
