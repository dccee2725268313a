# Test-run state machine and step driver

This project models the core of a small browser-test runner in Dafny.
`lib/state_manager.js` holds one run-state record: metadata, a step history,
and three artifact lists (screenshots, errors, analysis). It changes that
record through six named actions and notifies registered observers after
each one. `lib/test_orchestrator.js` drives a test plan through the store:
START_TEST, a fixed pattern of transitions per step, and one END_TEST. Its
`stateChanged` observer answers every RECORD_ERROR with an analysis of the
error.

Everything is an immutable value.

- A transition is a pure function from a store, an action name, a payload and
  a timestamp to the next store. It also returns the error it threw, if any,
  and the callback invocations it made.
- The browser is replaced by data. Each step says how its action ended and
  how each `page.screenshot()` call ended (`StepRun`).
- The analyser is a function parameter. It maps an error record to a text, or
  to `None` when the call throws.
- Time is a parameter too: transition `n` of a run is stamped `clock(n)`.

Files:

- `wrappers.dfy`: `Option` and `Result`.
- `seqs.dfy`: `Map` and `FlatMap` over sequences.
- `state_manager.dfy` (module `StateManager`):
  - the data model and the initial state;
  - the observer registry, with `AddObserver` and `Notify`;
  - the action `switch` (`Apply`) and `transition` with its notifications
    (`Transition`);
  - `exportState`.
- `replay.dfy` (module `Replay`): applying a sequence of awaited transitions.
  After such a sequence, each list is the old list followed by what each
  request adds.
- `test_orchestrator.dfy` (module `TestOrchestrator`):
  - the step driver (`Drive`, `RunRequests`, `RunTest`);
  - reference definitions of the history and artifacts a run should leave;
  - the reaction rule (`OnStateChange`, `AnalyzeError`, `OnError`, `FollowUps`).

The model follows the code in these places, where a reader of the action names might expect otherwise:

- END_TEST has no guard. A second END_TEST overwrites the status and end time,
  and START_TEST after END_TEST puts the status back to `running`. So the
  status can leave a terminal value (`EndTestOverwrites`,
  `TerminalStatusCanRegress`).
- `notifyObservers` does not await its callbacks, and `handleStateChange` is
  `async`. The ADD_ANALYSIS reaction therefore lands after the analyser
  answers, not inside the RECORD_ERROR transition. The model computes it as a
  separate follow-up request (`FollowUps`). The driver's own transitions never
  include it. So `RunTest`, which assumes that the analyser answers only after
  `runTest` has returned, gives a state with no analysis entries on a fresh
  orchestrator (`RunTestLists`). On a used one, the analysis list is left as
  it was (`RunTestListsAnyStore`).
- The fallback text when the analyser throws is `'Error analysis failed'`.
- A screenshot that throws after a successful action goes to the same
  handler as a failing action, with the screenshot's message. A screenshot
  that throws inside the handler ends the step after `running`, with no
  screenshot, error record or `failed` entry. The run then ends `failed`.

## Model

| member | source | states |
|---|---|---|
| StateManager.NewStore | lib/state_manager.js:2-17 | A new store has no start time, end time or status, four empty lists, and no observers for any event |
| StateManager.AddObserver | lib/state_manager.js:19-24 | The callback is appended after the event's existing callbacks (an unseen event starts with an empty list); every other event's list and the state are unchanged |
| StateManager.Deliver | lib/state_manager.js:28 | `forEach` calls each callback exactly once, in list order, with the same data |
| StateManager.Notify | lib/state_manager.js:26-30 | One invocation per callback registered for the event, in registration order; none for an unregistered event |
| StateManager.NotifyAfterAddObserver | lib/state_manager.js:19-30 | After `addObserver`, a notification reaches the earlier callbacks as before, then the new one last |
| StateManager.Apply | lib/state_manager.js:36-81 | Any of the six known actions succeeds and every other name throws `Unknown action: <name>`. Only START_TEST and END_TEST change the metadata. UPDATE_STEP, CAPTURE_SCREENSHOT, RECORD_ERROR and ADD_ANALYSIS each append one record (payload fields plus `now`) to their own list, and the other lists do not change. Every success is append-only |
| StateManager.Transition | lib/state_manager.js:32-97 | A known action yields the `Apply` state and notifies `stateChanged` once, with the state before the action as `prevState` and the action name. An unknown one leaves the store unchanged, notifies `error` once with the unchanged state, and is rethrown. Observers are never changed |
| StateManager.UnknownActionChangesNothing | lib/state_manager.js:79-96 | For an unknown action the store is unchanged and the thrown message is `Unknown action: <name>`. Every invocation goes to an `error` subscriber, in order, with an error notice carrying the pre-transition state and the action |
| StateManager.StartTestSetsOnlyStart | lib/state_manager.js:37-40 | START_TEST sets `startTime` to `now` and status to `running`; end time, history and artifacts are unchanged |
| StateManager.EndTestOverwrites | lib/state_manager.js:42-45 | END_TEST is unguarded: a second END_TEST overwrites the status and end time the first one set |
| StateManager.ExportState | lib/state_manager.js:99-101 | `exportState` returns a snapshot equal to the store's current state (for an immutable value, the deep copy is the value) |
| StateManager.TerminalStatusCanRegress | lib/state_manager.js:37-45 | After END_TEST with `success`, START_TEST sets the status back to `running` |
| Replay.Run | lib/state_manager.js:36-81 | A sequence of awaited transitions succeeds exactly when every action name is known, and the result keeps every old list as a prefix |
| Replay.RunAppends | lib/state_manager.js:47-77 | After a sequence of known actions, each list is the old list followed by exactly the records the requests add, in request order and with their timestamps |
| Replay.RunKeepsMetadata | lib/state_manager.js:36-45 | A sequence without START_TEST or END_TEST leaves the metadata unchanged |
| Replay.RunStore | lib/test_orchestrator.js:53-105 | Awaiting transitions one after another on a store gives the same state or error as `Run`, and never changes the observers |
| TestOrchestrator.NewOrchestrator | lib/test_orchestrator.js:5-15 | The constructor leaves the initial state, with `handleStateChange` as the only `stateChanged` callback and `handleError` as the only `error` callback |
| TestOrchestrator.StepRequests | lib/test_orchestrator.js:57-92 | One pass of the loop body starts with `running`. It ends with `success` exactly when the action and its screenshot both succeed, and with `failed` exactly when the step failed and the handler's screenshot returned. Every action is known, and none is START_TEST or END_TEST. Partner: `StepEffects` |
| TestOrchestrator.FirstFailure | lib/test_orchestrator.js:56-95 | The index of the first step whose action or post-action screenshot throws: every earlier step completes, and that step does not |
| TestOrchestrator.Drive | lib/test_orchestrator.js:56-96 | The loop finishes without a throw exactly when every step completes. Its transitions are the per-step patterns of the steps up to and including the first failure, and nothing after. They contain only known actions and neither START_TEST nor END_TEST |
| TestOrchestrator.RunRequests | lib/test_orchestrator.js:52-106 | `runTest` issues START_TEST first, then exactly one END_TEST last, and no other START_TEST. The END_TEST carries `success` exactly when every step completes, otherwise `failed`. Every action it issues is known |
| TestOrchestrator.RunTest | lib/test_orchestrator.js:52-111 | No transition of the run throws. The returned state is the store's state at return, and the observers are unchanged |
| TestOrchestrator.StepEffects | lib/test_orchestrator.js:57-92 | A completed step adds `running` and `success` entries and its screenshot. A failed step adds `running` and its handler screenshot, then its error record (message and step name) and `failed`. If the handler screenshot throws, only `running` is added. No step adds analysis |
| TestOrchestrator.DriveEffects | lib/test_orchestrator.js:56-96 | The loop adds exactly the expected history, screenshots and errors: the completed steps' entries, then the first failing step's. These are defined from the step outcomes alone. No analysis is added |
| TestOrchestrator.RunTestMetadata | lib/test_orchestrator.js:52-106 | On any orchestrator, fresh or already used, the start time is the first timestamp of the run and the end time its last. The final status is `success` exactly when every step completes, and otherwise `failed` |
| TestOrchestrator.RunTestListsAnyStore | lib/test_orchestrator.js:53-110 | On any orchestrator, fresh or already used: START_TEST clears nothing. So the returned history, screenshots and errors are the old lists followed by the expected entries from the step outcomes, and the analysis list is unchanged |
| TestOrchestrator.RunTestLists | lib/test_orchestrator.js:53-110 | On a fresh orchestrator, the returned history, screenshots and errors match the expected ones from the step outcomes. The returned state has no analysis |
| TestOrchestrator.RunTestCounts | lib/test_orchestrator.js:62-95 | On a fresh orchestrator, there is one screenshot per executed step, the failing one included, unless the handler's screenshot threw. There is exactly one error record iff a failing step reached RECORD_ERROR, and it names that step and its message. In an all-success run, history has two entries per step and there are no errors |
| TestOrchestrator.MiddleStepFails | lib/test_orchestrator.js:56-105 | With steps A, B, C where B throws: history is `A:running`, `A:success`, `B:running`, `B:failed`. There is one error for B, screenshots of A and B's handler, and status `failed` |
| TestOrchestrator.AnalyzeError | lib/test_orchestrator.js:30-50 | Returns the analyser's text, or `'Error analysis failed'` when the analyser throws |
| TestOrchestrator.OnStateChange | lib/test_orchestrator.js:17-23 | `handleStateChange` issues a transition exactly for a `stateChanged` notice whose action is RECORD_ERROR. That transition is ADD_ANALYSIS with no step, and its content is the analysis of the newest error record in `newState`. Partners: `ReactionRule`, `RecordErrorReaction` |
| TestOrchestrator.OnError | lib/test_orchestrator.js:25-28 | `handleError` only logs, so it never issues a transition |
| TestOrchestrator.FollowUps | lib/test_orchestrator.js:13-23 | The callback invocations of a transition issue no more follow-ups than there are invocations, and every follow-up is ADD_ANALYSIS. The exact list is stated by the partners `ReactionRule` and `StoreFollowUps` |
| TestOrchestrator.ReactionRule | lib/test_orchestrator.js:17-28 | On a wired store, the follow-ups of one transition are one ADD_ANALYSIS per error record it appended. So RECORD_ERROR gets exactly one, analysing the record just added, and every other action gets none. An unknown action reaches only `handleError`, which issues nothing and leaves the store unchanged |
| TestOrchestrator.RecordErrorReaction | lib/test_orchestrator.js:17-23 | RECORD_ERROR's single follow-up is ADD_ANALYSIS whose content is the analysis of the error record `(payload.error, payload.step, now)`, with no step |
| TestOrchestrator.AnalysisLands | lib/test_orchestrator.js:19-22 | Whenever the follow-up is applied, it appends exactly one analysis entry. The entry holds the analyser's text, or the fallback if the analyser threw, and no step. It changes nothing else and triggers no further reaction |
| TestOrchestrator.StoreFollowUps | lib/test_orchestrator.js:13-23 | Across many awaited transitions on a wired store, the follow-ups are one ADD_ANALYSIS per appended error record, listed in the order the reactions are invoked |
| TestOrchestrator.RunTestFollowUps | lib/test_orchestrator.js:13-23 | On a fresh orchestrator, a whole run gets one analysis follow-up per error record it leaves, listed in the order the reactions are invoked, each analysing its own record. Such a run leaves at most one error record |

## Left out

- `server.js` (Express routes, Playwright launch, the file system, the module-level results list and the HTML report) and `tests/example.spec.js`: input/output and templating around the core, not part of this model.
- The OpenAI client and the `page` object are inputs: each step's action outcome and screenshot outcomes, and an analyser function. The prompt text, model name, temperature and the JSON encoding of the error sent to the analyser are not modelled. A returned `null` content is not distinguished from a text.
- `page.screenshot()` without options returns image bytes, and those bytes are what the source records as `path`. The model records an opaque string.
- ISO timestamp formatting: timestamps are integers from a clock parameter.
- The JSON deep copies behind `prevState` and `exportState`: with immutable values a snapshot is the value, so `ExportState` returns the state.
- Logging with `console.error` in `handleError` and `analyzeError`.
- Promise scheduling: when the un-awaited ADD_ANALYSIS lands relative to the driver's remaining transitions is not modelled. `AnalysisLands` covers whichever later state it lands on. When several analyser calls are pending at once, their ADD_ANALYSIS transitions land in the order the calls settle. That landing order, and so the order of `artifacts.analysis`, is not modelled. Follow-ups are listed in the order the reactions are invoked.
- RunTestLists: its `analysis == []` clause assumes that the analyser answers after `runTest` returns. An analyser that settles within a few microtask ticks, such as a stub that rejects at once, can let the ADD_ANALYSIS transition run before `exportState`. In that case the returned state holds that analysis entry. The model does not schedule promises.
- A callback that throws synchronously during `stateChanged` dispatch, after the state has changed: the source then notifies `error` and rethrows. Neither registered callback can throw synchronously, because both are `async`.
- Payload values outside the typed fields: a status string other than the three, or a thrown value without `message`. Absent payload fields are modelled, as `None`.
- RunTestLists, RunTestCounts, RunTestFollowUps: cover a fresh orchestrator only. START_TEST does not clear history or artifacts, so a second `runTest` on the same orchestrator adds to the first run's lists. For example, two failing runs leave two error records. `RunTestListsAnyStore` states what a run adds on any orchestrator, and `RunTestMetadata` holds on any orchestrator.
- RunTestLists: compares history, screenshots and errors by their step, status, path and message fields, not by timestamp. Timestamps are covered by `RunAppends`.
