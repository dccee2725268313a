/**
 * The run-state store of lib/state_manager.js: one `RunState` record, a
 * registry of observer callbacks per event name, and `transition`, which
 * applies one named action and then tells the observers what happened.
 *
 * The source mutates one object in place and deep-copies it for the
 * `prevState` snapshot; here a state is an immutable value, so a snapshot is
 * the value itself and a transition returns the next store.
 */
module StateManager {
  import opened Wrappers

  /** A timestamp. The source stamps records with the current time as an ISO string. */
  type Time = int

  /** The status strings 'running', 'success' and 'failed'. */
  datatype Status = Running | Success | Failed

  /** `metadata`; `None` is `null` (initially) or a status field missing from the payload. */
  datatype Metadata = Metadata(startTime: Option<Time>, endTime: Option<Time>, status: Option<Status>)

  /** One entry of `history`. */
  datatype StepRecord = StepRecord(step: Option<string>, status: Option<Status>, timestamp: Time)

  /** One entry of `artifacts.screenshots`; the path is whatever the page returned. */
  datatype Screenshot = Screenshot(path: Option<string>, step: Option<string>, timestamp: Time)

  /** One entry of `artifacts.errors`. */
  datatype ErrorRecord = ErrorRecord(error: Option<string>, step: Option<string>, timestamp: Time)

  /** One entry of `artifacts.analysis`. */
  datatype Analysis = Analysis(content: Option<string>, step: Option<string>, timestamp: Time)

  datatype Artifacts = Artifacts(screenshots: seq<Screenshot>, errors: seq<ErrorRecord>, analysis: seq<Analysis>)

  datatype RunState = RunState(metadata: Metadata, history: seq<StepRecord>, artifacts: Artifacts)

  /** The payload fields `transition` reads; a field the caller left out is `None`. */
  datatype Payload = Payload(
    step: Option<string>,
    status: Option<Status>,
    path: Option<string>,
    error: Option<string>,
    content: Option<string>)

  /** The default payload `{}`. */
  const NoPayload := Payload(None, None, None, None, None)

  const START_TEST := "START_TEST"
  const END_TEST := "END_TEST"
  const UPDATE_STEP := "UPDATE_STEP"
  const CAPTURE_SCREENSHOT := "CAPTURE_SCREENSHOT"
  const RECORD_ERROR := "RECORD_ERROR"
  const ADD_ANALYSIS := "ADD_ANALYSIS"

  /** The two event names the store publishes. */
  const STATE_CHANGED := "stateChanged"
  const ERROR := "error"

  /** The action names the `switch` has a case for. */
  predicate IsKnownAction(action: string) {
    || action == START_TEST
    || action == END_TEST
    || action == UPDATE_STEP
    || action == CAPTURE_SCREENSHOT
    || action == RECORD_ERROR
    || action == ADD_ANALYSIS
  }

  /** The message of the error thrown by the `default` case. */
  function UnknownAction(action: string): string {
    "Unknown action: " + action
  }

  /** The state a new store starts with: no times, no status, four empty lists. */
  const Initial := RunState(Metadata(None, None, None), [], Artifacts([], [], []))

  // ---------------------------------------------------------------------
  // The effect of each action, one list (or the metadata) at a time. These
  // are the reference against which the `switch` below is checked.
  // ---------------------------------------------------------------------

  /** Only START_TEST and END_TEST write the metadata. */
  function MetadataAfter(m: Metadata, action: string, p: Payload, now: Time): Metadata {
    if action == START_TEST then Metadata(Some(now), m.endTime, Some(Running))
    else if action == END_TEST then Metadata(m.startTime, Some(now), p.status)
    else m
  }

  /** What `action` appends to `history`. */
  function HistoryEntries(action: string, p: Payload, now: Time): seq<StepRecord> {
    if action == UPDATE_STEP then [StepRecord(p.step, p.status, now)] else []
  }

  /** What `action` appends to `artifacts.screenshots`. */
  function ScreenshotEntries(action: string, p: Payload, now: Time): seq<Screenshot> {
    if action == CAPTURE_SCREENSHOT then [Screenshot(p.path, p.step, now)] else []
  }

  /** What `action` appends to `artifacts.errors`. */
  function ErrorEntries(action: string, p: Payload, now: Time): seq<ErrorRecord> {
    if action == RECORD_ERROR then [ErrorRecord(p.error, p.step, now)] else []
  }

  /** What `action` appends to `artifacts.analysis`. */
  function AnalysisEntries(action: string, p: Payload, now: Time): seq<Analysis> {
    if action == ADD_ANALYSIS then [Analysis(p.content, p.step, now)] else []
  }

  /** Every list of `s` is a prefix of the same list of `s'`. */
  predicate AppendOnly(s: RunState, s': RunState) {
    && s.history <= s'.history
    && s.artifacts.screenshots <= s'.artifacts.screenshots
    && s.artifacts.errors <= s'.artifacts.errors
    && s.artifacts.analysis <= s'.artifacts.analysis
  }

  /**
   * The `switch` of `transition`: the state after `action` at time `now`,
   * or the error its `default` case throws.
   */
  function Apply(s: RunState, action: string, p: Payload, now: Time): (r: Result<RunState, string>)
    ensures r.Ok? <==> IsKnownAction(action)
    ensures r.Err? ==> r.error == UnknownAction(action)
    ensures r.Ok? ==> r.value.metadata == MetadataAfter(s.metadata, action, p, now)
    ensures r.Ok? ==> r.value.history == s.history + HistoryEntries(action, p, now)
    ensures r.Ok? ==> r.value.artifacts.screenshots == s.artifacts.screenshots + ScreenshotEntries(action, p, now)
    ensures r.Ok? ==> r.value.artifacts.errors == s.artifacts.errors + ErrorEntries(action, p, now)
    ensures r.Ok? ==> r.value.artifacts.analysis == s.artifacts.analysis + AnalysisEntries(action, p, now)
    ensures r.Ok? ==> AppendOnly(s, r.value)
  {
    if action == START_TEST then
      Ok(s.(metadata := s.metadata.(startTime := Some(now), status := Some(Running))))
    else if action == END_TEST then
      Ok(s.(metadata := s.metadata.(endTime := Some(now), status := p.status)))
    else if action == UPDATE_STEP then
      Ok(s.(history := s.history + [StepRecord(p.step, p.status, now)]))
    else if action == CAPTURE_SCREENSHOT then
      Ok(s.(artifacts := s.artifacts.(screenshots := s.artifacts.screenshots + [Screenshot(p.path, p.step, now)])))
    else if action == RECORD_ERROR then
      Ok(s.(artifacts := s.artifacts.(errors := s.artifacts.errors + [ErrorRecord(p.error, p.step, now)])))
    else if action == ADD_ANALYSIS then
      Ok(s.(artifacts := s.artifacts.(analysis := s.artifacts.analysis + [Analysis(p.content, p.step, now)])))
    else
      Err(UnknownAction(action))
  }

  // ---------------------------------------------------------------------
  // Observers
  // ---------------------------------------------------------------------

  /** `observers`: event name to callbacks, in registration order. */
  type Registry<C> = map<string, seq<C>>

  /** One callback invocation `callback(data)`. */
  datatype Delivery<C, D> = Delivery(callback: C, data: D)

  /** The callbacks registered for `event`; none when the event has no entry. */
  function Subscribers<C>(reg: Registry<C>, event: string): seq<C> {
    if event in reg then reg[event] else []
  }

  /** The `forEach` of `notifyObservers`: each callback once, in order. */
  function Deliver<C, D>(callbacks: seq<C>, data: D): (r: seq<Delivery<C, D>>)
    ensures |r| == |callbacks|
    ensures forall i :: 0 <= i < |r| ==> r[i].callback == callbacks[i] && r[i].data == data
    decreases |callbacks|
  {
    if callbacks == [] then [] else [Delivery(callbacks[0], data)] + Deliver(callbacks[1..], data)
  }

  /**
   * `notifyObservers(event, data)`: one invocation per callback registered for
   * `event`, in registration order; nothing for an event nobody registered.
   */
  function Notify<C, D>(reg: Registry<C>, event: string, data: D): (r: seq<Delivery<C, D>>)
    ensures |r| == |Subscribers(reg, event)|
    ensures forall i :: 0 <= i < |r| ==> r[i] == Delivery(Subscribers(reg, event)[i], data)
    ensures event !in reg ==> r == []
  {
    Deliver(Subscribers(reg, event), data)
  }

  /** What an observer is handed. */
  datatype Notice =
    | StateChanged(prevState: RunState, newState: RunState, action: string)
    | ErrorNotice(error: string, action: string, state: RunState)

  /** A `StateManager` instance: its state and its observers. */
  datatype Store<C> = Store(state: RunState, observers: Registry<C>)

  /** `new StateManager()`. */
  function NewStore<C>(): (st: Store<C>)
    ensures st.state.metadata == Metadata(None, None, None)
    ensures st.state.history == []
    ensures st.state.artifacts == Artifacts([], [], [])
    ensures st.observers == map[]
  {
    Store(Initial, map[])
  }

  /**
   * `addObserver(event, callback)`: the callback goes at the end of the
   * event's list; every other event keeps its list; the state is untouched.
   */
  function AddObserver<C>(st: Store<C>, event: string, callback: C): (r: Store<C>)
    ensures r.state == st.state
    ensures |Subscribers(r.observers, event)| == |Subscribers(st.observers, event)| + 1
    ensures Subscribers(r.observers, event)[..|Subscribers(st.observers, event)|] == Subscribers(st.observers, event)
    ensures Subscribers(r.observers, event)[|Subscribers(st.observers, event)|] == callback
    ensures forall e :: e != event ==> Subscribers(r.observers, e) == Subscribers(st.observers, e)
  {
    st.(observers := st.observers[event := Subscribers(st.observers, event) + [callback]])
  }

  /** A later notification of `event` reaches the new callback last, after all earlier ones. */
  lemma NotifyAfterAddObserver<C, D>(st: Store<C>, event: string, callback: C, data: D)
    ensures Notify(AddObserver(st, event, callback).observers, event, data)
         == Notify(st.observers, event, data) + [Delivery(callback, data)]
  {
    var before := Notify(st.observers, event, data);
    var after := Notify(AddObserver(st, event, callback).observers, event, data);
    assert forall i :: 0 <= i < |after| ==> after[i] == (before + [Delivery(callback, data)])[i];
  }

  /** The outcome of one `transition` call. */
  datatype Transitioned<C> = Transitioned(store: Store<C>, thrown: Option<string>, deliveries: seq<Delivery<C, Notice>>)

  /**
   * `transition(action, payload)` at time `now`. A known action replaces the
   * state and notifies `stateChanged` once, with the state before it as the
   * snapshot. An unknown one leaves the store as it was, notifies `error`
   * once with that same state, and is rethrown to the caller.
   */
  function Transition<C>(st: Store<C>, action: string, p: Payload, now: Time): (r: Transitioned<C>)
    ensures r.store.observers == st.observers
    ensures r.thrown.None? <==> IsKnownAction(action)
    ensures r.thrown.None? ==> Apply(st.state, action, p, now) == Ok(r.store.state)
    ensures r.thrown.None? ==>
      r.deliveries == Notify(st.observers, STATE_CHANGED, StateChanged(st.state, r.store.state, action))
    ensures r.thrown.Some? ==> r.store == st && r.thrown.value == UnknownAction(action)
    ensures r.thrown.Some? ==>
      r.deliveries == Notify(st.observers, ERROR, ErrorNotice(UnknownAction(action), action, st.state))
  {
    var prevState := st.state;
    match Apply(st.state, action, p, now)
    case Ok(next) =>
      Transitioned(st.(state := next), None, Notify(st.observers, STATE_CHANGED, StateChanged(prevState, next, action)))
    case Err(e) =>
      Transitioned(st, Some(e), Notify(st.observers, ERROR, ErrorNotice(e, action, st.state)))
  }

  /**
   * An unknown action changes nothing, and every callback it reaches is an
   * `error` subscriber holding the state from before the call.
   */
  lemma UnknownActionChangesNothing<C>(st: Store<C>, action: string, p: Payload, now: Time)
    requires !IsKnownAction(action)
    ensures var r := Transition(st, action, p, now);
      && r.store == st
      && r.thrown == Some("Unknown action: " + action)
      && |r.deliveries| == |Subscribers(st.observers, ERROR)|
      && forall i :: 0 <= i < |r.deliveries| ==>
           && r.deliveries[i].callback == Subscribers(st.observers, ERROR)[i]
           && r.deliveries[i].data.ErrorNotice?
           && r.deliveries[i].data.state == st.state
           && r.deliveries[i].data.action == action
  {
  }

  /** START_TEST sets the start time and the `running` status and nothing else. */
  lemma StartTestSetsOnlyStart(s: RunState, p: Payload, now: Time)
    ensures Apply(s, START_TEST, p, now).Ok?
    ensures var s' := Apply(s, START_TEST, p, now).value;
      && s'.metadata.startTime == Some(now)
      && s'.metadata.status == Some(Running)
      && s'.metadata.endTime == s.metadata.endTime
      && s'.history == s.history
      && s'.artifacts == s.artifacts
  {
  }

  /**
   * END_TEST has no guard: a second END_TEST overwrites the status and the
   * end time the first one wrote.
   */
  lemma EndTestOverwrites(s: RunState, first: Option<Status>, second: Option<Status>, t1: Time, t2: Time)
    ensures Apply(s, END_TEST, NoPayload.(status := first), t1).Ok?
    ensures var s1 := Apply(s, END_TEST, NoPayload.(status := first), t1).value;
      var s2 := Apply(s1, END_TEST, NoPayload.(status := second), t2);
      && s2.Ok?
      && s2.value.metadata.status == second
      && s2.value.metadata.endTime == Some(t2)
      && s2.value.metadata.startTime == s.metadata.startTime
  {
  }

  /** Nothing stops a terminal status from going back to `running`: START_TEST after END_TEST. */
  lemma TerminalStatusCanRegress(s: RunState, t1: Time, t2: Time)
    ensures var s1 := Apply(s, END_TEST, NoPayload.(status := Some(Success)), t1).value;
      && s1.metadata.status == Some(Success)
      && Apply(s1, START_TEST, NoPayload, t2).value.metadata.status == Some(Running)
  {
  }

  /** `exportState()`: a copy of the state, which for an immutable value is the value. */
  function ExportState<C>(st: Store<C>): (r: RunState)
    ensures r == st.state
  {
    st.state
  }
}
