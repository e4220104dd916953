# Pomodoro session planner: a Dafny model of its core

The application plans a day of pomodoro sessions. There is a queue of pending
sessions. The one at the front is the session in progress, and it carries a
start date. When a session is completed, it moves to a history of completed
sessions. Each completed session is followed by a break whose length follows a
cadence: a short break, and a longer one every N-th break. When the break is
over, it is recorded in a history of breaks and attributed to the session that
preceded it. The core is:

- **The session store** (`src/stores/sessions-store.ts`). It has one write
  operation each for: moving a session within the queue, deleting a session,
  adding one, completing a session, completing a break, editing a session,
  clearing the history, clearing everything, and resetting the start times.
- **The cadence rule** (`getBreakLength` in `src/lib/utils.ts`).
- **The statistics** (`calcSessionStats` in `src/components/pomodoro-stats.tsx`):
  the planned time of a list in hours and minutes.
- **The elapsed-time hook** (`calculateElapsed` in `src/hooks/useElapsedTime.ts`),
  with its guard against a missing start.
- **The planner component** (`src/components/session-planner.tsx`): a list of
  cards to drag, dismiss, delete and add.

## How it is modelled

- **Store.** Each write operation is first a pure function `After...` from a
  `SessionState` value to the state it leaves behind. Its `ensures` say what
  changes and what does not. The class `SessionsStore.SessionStore` holds the
  stored state and performs each operation step by step, as the source does.
  Each of its methods is proved to leave exactly the state its `After...`
  function describes. The class follows the code as written, including the two
  defects listed under Findings. `SessionsStoreProperties` proves invariants
  and relations across several operations. Its `Apply` and `Run` take a
  `Version`: `AsWritten` runs the edit and the completion as the code has
  them, and `Corrected` runs the corrected ones. The run-level invariants are
  proved for both versions.
- **Planner.** The component's state (`sessions`, `newSessionTitle`,
  `draggedIndex`) becomes the fields of the class `Planner.SessionPlanner`. Each
  handler becomes a method that replaces those fields.
- **Pure code.** The cadence rule, the statistics and the elapsed time are
  pure functions.
- **Numbers.** Timestamps are integer milliseconds. `Math.floor(a / b)` with a
  positive `b` is Dafny's `/`. JavaScript's truncating `%` is
  `JsMath.Rem`. `Math.round(ms / 60000)` is `JsMath.RoundMinutes`.
- **Parameters.** The clock (`new Date()`, `Date.now()`) and the identifier
  generators (`uuidv4()`, `Date.now().toString()`) are parameters. Where one
  operation reads the clock several times, the model uses a single reading,
  `now`.

In four places the code does something other than what one might expect. The
model follows the code in each:

- One might expect deleting the session in progress to stamp the next one. It
  does not: `SessionsStoreProperties.DeleteHeadUnstamps` gives a queue whose
  new head has no start date after such a delete. The session card puts its
  delete button only on cards other than the session in progress
  (`src/components/session-card.tsx:117`), but that card's Dismiss button
  (`src/components/session-card.tsx:95-104`) calls whatever the page rendering
  it passes in, which may be the same delete; that page is not part of this
  model. `SessionsStoreProperties.RunKeepsHeadStamped` proves that every run
  with no delete of the session in progress keeps that session stamped.
- One might expect a move that takes the head away from the front to clear its
  start date. It keeps it (`SessionsStoreProperties.MoveHeadAwayKeepsItsDate`).
- One might expect a break to hold back the next session's start. Completing a
  session both stamps the next session and opens the break
  (`SessionsStoreProperties.CompletionStampsAndBreaks`).
- One might expect the statistics to follow the break cadence. They count a
  short break between every two sessions (`PomodoroStats.TotalMinutes`).

## Model

| member | source | states |
|---|---|---|
| JsMath.Rem | src/components/pomodoro-stats.tsx:30 | JavaScript's `%`: the dividend minus the result is a multiple of the divisor, the result is smaller in magnitude than the divisor and zero or of the dividend's sign; equivalently, equal to the Euclidean remainder for a non-negative dividend, and the negated remainder of the negated dividend for a negative one |
| JsMath.RoundMinutes | src/stores/sessions-store.ts:128-132 | `Math.round` of milliseconds over 60000: the result r is the nearest whole minute, with r*60000 - 30000 <= ms < r*60000 + 30000 |
| ListOps.RemoveAt | src/stores/sessions-store.ts:141-142 | `splice(i, 1)` on a copy: one element shorter, and every later element shifts down by one |
| ListOps.RemoveAtMultiset | src/stores/sessions-store.ts:141-142 | removing takes exactly one copy of the element out of the contents |
| ListOps.InsertAt | src/components/session-planner.tsx:39 | `splice(i, 0, x)`: one element longer, `x` at `i`, earlier elements in place, later ones shifted up |
| ListOps.InsertAtMultiset | src/components/session-planner.tsx:39 | inserting adds exactly one copy of the element to the contents |
| ListOps.Move | src/stores/sessions-store.ts:66-70 | `arrayMove`: same length, the moved element lands at `to`, and the contents are a permutation of the original |
| ListOps.MoveAt | src/stores/sessions-store.ts:66-70 | the exact origin index of every element after a move |
| ListOps.MoveBack | src/stores/sessions-store.ts:66-70 | moving an element back where it came from restores the list |
| ListOps.MoveInPlace | src/stores/sessions-store.ts:66-70 | a move onto the element's own index changes nothing |
| ListOps.MoveCompose | src/components/session-planner.tsx:32-43 | two moves of the same element are one move from the first origin to the last target, so a drag across several cards depends only on its ends |
| ListOps.Filter | src/stores/sessions-store.ts:87-89 | `filter`: exactly the accepted elements with their multiplicities, and the list itself when all are accepted |
| ListOps.FilterConcat | src/stores/sessions-store.ts:87-89 | filtering distributes over concatenation, so order is kept |
| ListOps.FilterIdempotent | src/stores/sessions-store.ts:87-89 | filtering twice with one test equals filtering once |
| ListOps.FindIndex | src/stores/sessions-store.ts:118-119 | `findIndex`: -1 exactly when no element matches; otherwise the index of a match with no match before it |
| Utils.GetBreakLength | src/lib/utils.ts:9-24 | the break length is 0, the short length or the long length; 0 when breaks are off; the short length when longer breaks are off |
| Utils.CadenceRule | src/lib/utils.ts:19-23 | with both kinds of break on and a positive frequency N, the break after n breaks is long exactly when N divides n+1 |
| Utils.CadenceIsPeriodic | src/lib/utils.ts:19-23 | adding N completed breaks leaves the next break's length unchanged |
| Utils.EveryNthBreakIsLong | src/lib/utils.ts:19-23 | within each run of N breaks only the last is long, for every run |
| Utils.DefaultCadence | src/lib/utils.ts:19-23 | with frequency 3 the first two breaks are short, and the third and sixth are long |
| Utils.ZeroFrequencyNeverLong | src/lib/utils.ts:19-23 | a frequency of 0 (a NaN remainder in JavaScript) never gives a long break |
| SessionsStore.StampHead | src/stores/sessions-store.ts:143-145 | restamping the head sets only the head's start date to now; the rest of the queue and what is queued are unchanged |
| SessionsStore.ActualLength | src/stores/sessions-store.ts:124-133 | when measured, the rounded elapsed minutes (within half a minute of the elapsed time); otherwise the nominal length |
| SessionsStore.AfterMove | src/stores/sessions-store.ts:58-81 | history and break unchanged; the moved session lands at the new index; the queue's contents are a permutation; in the code's two cases the head is restamped, and every other entry is the plain move's |
| SessionsStore.UnstampedMove | src/stores/sessions-store.ts:66-74 | dropping start dates commutes with a move |
| SessionsStore.AfterDelete | src/stores/sessions-store.ts:83-91 | the queue is the old queue filtered by a different identifier: every queued session with the identifier goes, every other one stays with its multiplicity, and the rest of the state is unchanged; an absent identifier changes nothing, and the head is never restamped |
| SessionsStore.AfterAdd | src/stores/sessions-store.ts:93-112 | the queue gains one entry at the end with the new identifier and data; it is stamped exactly when the queue was empty |
| SessionsStore.AfterCompleteSession | src/stores/sessions-store.ts:114-169 | an absent identifier changes nothing; otherwise the first match leaves the queue, the new head is restamped, the history gains the completion with its actual length, and a break of the cadence's length opens exactly when sessions remain |
| SessionsStore.AfterCompleteSessionIntended | src/stores/sessions-store.ts:152-168 | as written, except that a break opens only when breaks are enabled and sessions remain |
| SessionsStore.AttributeBreak | src/stores/sessions-store.ts:188-205 | the history keeps its length and identifiers; an entry changes only by becoming the last session with the break length recorded; with a unique last identifier, only the last entry changes |
| SessionsStore.AfterCompleteBreak | src/stores/sessions-store.ts:171-225 | no break, or a 0-minute one, changes nothing; otherwise the break is closed and appended with its actual length, attributed to the last session, and the head is restamped |
| SessionsStore.AfterEdit | src/stores/sessions-store.ts:227-244 | as written, the state is unchanged, because the merged queue is stored under the unused key `sessions` (line 241) |
| SessionsStore.AfterEditIntended | src/stores/sessions-store.ts:234-238 | the first match takes the given title and description and keeps its identifier and start date; everything else is unchanged |
| SessionsStore.AfterClearCompleted | src/stores/sessions-store.ts:246-253 | both histories are emptied; the queue and the break are kept |
| SessionsStore.AfterClearAll | src/stores/sessions-store.ts:255-261 | everything is emptied, and the break in progress goes too |
| SessionsStore.AfterResetStartTimes | src/stores/sessions-store.ts:263-285 | on a break, only the break's start moves to now; otherwise only the head's start date is set, if there is a head |
| SessionsStore.SessionStore.constructor | src/stores/sessions-store.ts:16-55 | the store holds the loaded state |
| SessionsStore.SessionStore.MoveSession | src/stores/sessions-store.ts:58-81 | the new state is `AfterMove` of the old |
| SessionsStore.SessionStore.DeleteSession | src/stores/sessions-store.ts:83-91 | the new state is `AfterDelete` of the old |
| SessionsStore.SessionStore.AddSession | src/stores/sessions-store.ts:93-112 | the new state is `AfterAdd` of the old |
| SessionsStore.SessionStore.CompleteSession | src/stores/sessions-store.ts:114-169 | the new state is `AfterCompleteSession` of the old |
| SessionsStore.SessionStore.CompleteBreak | src/stores/sessions-store.ts:171-225 | the new state is `AfterCompleteBreak` of the old |
| SessionsStore.SessionStore.EditSession | src/stores/sessions-store.ts:227-244 | the new state is `AfterEdit` of the old |
| SessionsStore.SessionStore.DeleteAllCompletedSessions | src/stores/sessions-store.ts:246-253 | the new state is `AfterClearCompleted` of the old |
| SessionsStore.SessionStore.DeleteAllSessions | src/stores/sessions-store.ts:255-261 | the new state is `AfterClearAll` of the old |
| SessionsStore.SessionStore.ResetStartTimes | src/stores/sessions-store.ts:263-285 | the new state is `AfterResetStartTimes` of the old |
| SessionsStoreProperties.MoveKeepsIds | src/stores/sessions-store.ts:58-81 | a move keeps the multiset of identifiers |
| SessionsStoreProperties.DeleteKeepsIds | src/stores/sessions-store.ts:83-91 | a delete only removes identifiers |
| SessionsStoreProperties.AddKeepsIds | src/stores/sessions-store.ts:93-112 | an add contributes exactly its new identifier |
| SessionsStoreProperties.CompleteKeepsIds | src/stores/sessions-store.ts:114-169 | completing moves the identifier from the queue to the history, so the multiset is unchanged |
| SessionsStoreProperties.CompleteIntendedKeepsIds | src/stores/sessions-store.ts:114-169 | the corrected completion also keeps the multiset of identifiers |
| SessionsStoreProperties.EditIntendedKeepsIds | src/stores/sessions-store.ts:234-238 | the corrected edit keeps every identifier where it is |
| SessionsStoreProperties.CompleteBreakKeepsIds | src/stores/sessions-store.ts:171-225 | ending a break keeps every identifier where it is |
| SessionsStoreProperties.ClearCompletedKeepsIds | src/stores/sessions-store.ts:246-253 | clearing the history only removes identifiers |
| SessionsStoreProperties.ApplyKeepsIdsDistinct | src/stores/sessions-store.ts:58-285 | every operation, as written or as corrected, given a fresh identifier and in-range move indices, preserves "no identifier occurs twice" |
| SessionsStoreProperties.RunKeepsIdsDistinct | src/stores/sessions-store.ts:58-285 | no sequence of operations, as written or as corrected, ever makes two sessions share an identifier |
| SessionsStoreProperties.MoveKeepsHeadStamped | src/stores/sessions-store.ts:66-74 | a move keeps the session in progress stamped: it restamps the head, or the head stays in place |
| SessionsStoreProperties.DeleteOtherKeepsHeadStamped | src/stores/sessions-store.ts:83-91 | deleting any identifier but the head's keeps the head itself, and so its start date |
| SessionsStoreProperties.CompleteKeepsHeadStamped | src/stores/sessions-store.ts:141-145 | completing a session, as written or as corrected, leaves the next head stamped |
| SessionsStoreProperties.ApplyKeepsHeadStamped | src/stores/sessions-store.ts:58-285 | every operation except deleting the head keeps the session in progress stamped, in both versions |
| SessionsStoreProperties.RunKeepsHeadStamped | src/stores/sessions-store.ts:58-285 | every run of allowed commands with no delete of the session in progress keeps the session in progress stamped, in both versions |
| SessionsStoreProperties.DeleteHeadUnstamps | src/stores/sessions-store.ts:83-91 | deleting a stamped head "a" from [a, b] leaves b in progress with no start date |
| SessionsStoreProperties.MoveHeadAwayKeepsItsDate | src/stores/sessions-store.ts:72-74 | moving the head to a later index keeps its start date unchanged and stamps the new head |
| SessionsStoreProperties.CompletionStampsAndBreaks | src/stores/sessions-store.ts:143-167 | as written, completing the head while another session waits both stamps the next head and opens a break, whatever the settings |
| SessionsStoreProperties.BreakGoesToLastSession | src/stores/sessions-store.ts:188-205 | with distinct identifiers, ending a break records its length on the last completed session and changes no other |
| SessionsStoreProperties.DeleteUndoesAdd | src/stores/sessions-store.ts:83-112 | deleting a just-added session, whose identifier was not yet queued, restores the state |
| SessionsStoreProperties.DeleteIsIdempotent | src/stores/sessions-store.ts:83-91 | deleting twice equals deleting once |
| SessionsStoreProperties.MoveBackRestoresQueue | src/stores/sessions-store.ts:58-81 | a move and the move back restore what is queued and its order; start dates may differ |
| SessionsStoreProperties.ResetIsIdempotent | src/stores/sessions-store.ts:263-285 | resetting twice at one instant equals resetting once |
| SessionsStoreProperties.CompleteVersionsAgree | src/stores/sessions-store.ts:114-169 | with breaks enabled, the completion as written equals the corrected one |
| SessionsStoreProperties.CompleteThenBreak | src/stores/sessions-store.ts:114-225 | in both versions, completing the head and then its break adds one completion and one break of the cadence's length, records that length on the completion, and restamps the next head |
| SessionsStoreProperties.OneRound | src/stores/sessions-store.ts:114-225 | in both versions, one such round removes one session and appends the cadence's next break |
| SessionsStoreProperties.CadenceBreaksSnoc | src/lib/utils.ts:19-23 | the cadence's next n+1 breaks are its next n breaks followed by one more |
| SessionsStoreProperties.FollowsCadenceStep | src/stores/sessions-store.ts:114-225 | n rounds on the cadence followed by one more make n+1 rounds |
| SessionsStoreProperties.IterateFollowsCadence | src/stores/sessions-store.ts:114-225 | any step that does one round on the cadence does n rounds when applied n times while sessions remain |
| SessionsStoreProperties.RoundsFollowCadence | src/stores/sessions-store.ts:114-225 | in both versions, n rounds of completing the head and its break leave n fewer sessions, no break running, and the cadence's next n breaks recorded |
| SessionsStoreProperties.FirstThreeBreaks | src/lib/utils.ts:19-23 | with lengths 5 and 15 and frequency 3, the first three breaks last 5, 5 and 15 minutes |
| SessionsStoreProperties.ThirdBreakIsLong | src/stores/sessions-store.ts:114-225 | in both versions, from four queued sessions, three rounds give breaks of 5, 5 and 15 minutes and leave one session |
| SessionsStoreProperties.MoveToFront | src/stores/sessions-store.ts:72-74 | moving the third session to the front stamps it, and the former head moves to index 1 with its date untouched |
| SessionsStoreProperties.ThirtyMinutesMeasured | src/stores/sessions-store.ts:124-133 | a measured session of exactly 30 minutes counts 30, whatever its nominal length |
| SessionsStoreProperties.EditIsLost | src/stores/sessions-store.ts:239-242 | an edited title is lost as written and kept by the corrected edit |
| SessionsStoreProperties.StoredDefaultsGiveZeroBreaks | src/stores/settings-store.ts:5-15 | under the stored default settings, which lack both flags, every break is 0 minutes long |
| SessionsStoreProperties.DisabledBreaksStick | src/stores/sessions-store.ts:161-174 | as written, with breaks off, completing a session opens a 0-minute break that completing a break never ends |
| SessionsStoreProperties.IntendedBreaksCanEnd | src/stores/sessions-store.ts:161-174 | with the corrected completion and positive lengths, any break it opens can be ended |
| PomodoroStats.ReduceAdds | src/components/pomodoro-stats.tsx:21-26 | the reduce from any index adds the remaining sessions and the breaks between them |
| PomodoroStats.TotalMinutes | src/components/pomodoro-stats.tsx:21-26 | the total is count*sessionLength + (count-1)*breakLength, and 0 for an empty list |
| PomodoroStats.CalcSessionStats | src/components/pomodoro-stats.tsx:17-33 | the count is the list's length; the hours are the floor of total/60; for a non-negative total, hours and minutes add back to it with 0 <= minutes < 60; for a negative one, -60 < minutes <= 0 |
| PomodoroStats.OneMoreSession | src/components/pomodoro-stats.tsx:21-26 | one more session adds a session and a break to a non-empty plan |
| PomodoroStats.FourSessions | src/components/pomodoro-stats.tsx:17-33 | four sessions at 25/5 take 1 hour and 55 minutes |
| PomodoroStats.EmptyList | src/components/pomodoro-stats.tsx:17-33 | an empty list gives 0 hours, 0 minutes and a count of 0 |
| ElapsedTime.CalculateElapsed | src/hooks/useElapsedTime.ts:25-31 | the minutes are the floor of the difference in whole minutes; for a non-negative difference, the seconds lie in 0..59 and minutes plus seconds is the difference to the second; for a negative one, the seconds lie in -60..0 |
| ElapsedTime.UseElapsedTime | src/hooks/useElapsedTime.ts:14-31 | nothing exactly when there is no start date or its timestamp is 0; otherwise the elapsed time |
| ElapsedTime.ElapsedNeverGoesBack | src/hooks/useElapsedTime.ts:25-31 | once the start has passed, the time shown never decreases as the clock advances |
| ElapsedTime.NinetySeconds | src/hooks/useElapsedTime.ts:25-31 | ninety seconds after the start it shows 1 minute 30 seconds |
| Planner.LeadingSpace | src/components/session-planner.tsx:57 | the length of the leading white space run |
| Planner.TrailingSpace | src/components/session-planner.tsx:57 | the start of the trailing white space run |
| Planner.Trim | src/components/session-planner.tsx:57 | `trim()`: the result is the part of the input between a leading and a trailing run of white space, and it has no white space at either end |
| Planner.TrimBlank | src/components/session-planner.tsx:57 | a title trims to nothing exactly when it is all white space |
| Planner.TrimIdempotent | src/components/session-planner.tsx:62 | trimming twice equals trimming once |
| Planner.NoEdgeWhitespaceTrim | src/components/session-planner.tsx:62 | a string with no white space at either end trims to itself |
| Planner.SessionPlanner.constructor | src/components/session-planner.tsx:13-26 | the given list, an empty input, and nothing dragged |
| Planner.SessionPlanner.HandleDragStart | src/components/session-planner.tsx:28-30 | only the dragged index changes, to the given one |
| Planner.SessionPlanner.HandleDragOver | src/components/session-planner.tsx:32-43 | nothing changes when nothing is dragged or the card is over itself; otherwise the list is the move of the dragged card to the index (a permutation with that card there), and the dragged index follows it |
| Planner.SessionPlanner.HandleDismiss | src/components/session-planner.tsx:45-49 | the first card goes; an empty list stays empty |
| Planner.SessionPlanner.HandleDelete | src/components/session-planner.tsx:51-53 | exactly the cards with other identifiers remain, in order |
| Planner.SessionPlanner.SetNewSessionTitle | src/components/session-planner.tsx:158 | the input holds the typed value; nothing else changes |
| Planner.SessionPlanner.HandleAddSession | src/components/session-planner.tsx:55-67 | a title that is not blank appends a card with the trimmed title and clears the input; a blank one changes nothing |

## Left out

- Persistence: `atomWithStorage`, `localStorage` and JSON (de)serialisation are not modelled. A persisted date that is read back as a string is also outside the model. The store's and the planner's initial states (the seeded sample sessions) become constructor arguments.
- The jotai atoms as a reactive graph (read atoms, subscriptions) and React's state, effects and rendering are not modelled. The planner's handlers act on the component's current field values.
- `useElapsedTime`'s `setInterval` refresh and its cleanup are I/O scheduling. The model gives the value shown at a given clock reading.
- Only one clock reading is used per operation. The source reads `new Date()` up to three times in one operation: end date, head restamp and break start.
- `arrayMove` with negative or out-of-range indices is not modelled. `MoveSession` and `AfterMove` require both indices in the queue, which is where the drag-and-drop caller takes them from.
- Planner.SessionPlanner.HandleDragOver: requires a dragged index inside the list. With a stale index past the end, the source would splice `undefined` into the list.
- SessionsStore.AfterEditIntended: an update may carry only a title and a description. The source's `Partial<PendingSession>` could also overwrite the identifier or the start date, or clear a description with `undefined`.
- The `completed` flag of a session is left out, because it is implied by the list that holds the session.
- Objects are not shared between the old and the new state. The source restamps the head by mutating an object that the previous state's queue also holds. The model builds a new value, which is the same for every reader of the new state.
- Sound, notifications, and the settings and timer dialogs are left out, because they are feeding or rendering code. The settings are passed to operations as values.
- Class-name merging (`cn`), the zod schema, the remaining components and the build configuration are not part of the core.
- Numbers are integers. Non-integral lengths, NaN and floating-point rounding are not modelled, except for the NaN remainder of a zero frequency.
- PomodoroStats.CalcSessionStats: does not pin down the exact minutes for a negative total (only the range -60 < minutes <= 0), because only negative lengths in the settings can produce such a total.

## Findings

| source | as written | input that shows it | evidently intended | confidence | as-written member | corrected member |
|---|---|---|---|---|---|---|
| src/stores/sessions-store.ts:239-242 | the edit writes the merged queue to a key `sessions`, which no reader uses, and leaves `pendingSessions` as it was | a queue holding session "a" titled "old", edited with title "new": the title stays "old" | the merged queue replaces `pendingSessions` | high; not executed | SessionsStoreProperties.EditIsLost (about SessionsStore.AfterEdit) | SessionsStore.AfterEditIntended |
| src/stores/sessions-store.ts:152-174 | with breaks disabled, completing a session while others wait opens a break of 0 minutes; completing a break returns at once when `minutesDuration` is 0, so the break never ends. The default settings object (src/stores/settings-store.ts:5-15) names neither flag, so settings taken from it as they stand are in this state | breaks disabled (as in that default object), two sessions queued, complete the first: break {now, 0} is open, and completing the break leaves the state unchanged | no break opens when breaks are disabled | medium; not executed | SessionsStoreProperties.DisabledBreaksStick (about SessionsStore.AfterCompleteSession) | SessionsStore.AfterCompleteSessionIntended, with SessionsStoreProperties.IntendedBreaksCanEnd |

The class `SessionsStore.SessionStore` follows the code as written. The command
model `SessionsStoreProperties.Apply` runs either version, selected by its
`Version` argument, and so do the round lemmas: the cadence's rounds need its
breaks to last, so breaks are enabled, and then the two completions agree
(`SessionsStoreProperties.CompleteVersionsAgree`).
