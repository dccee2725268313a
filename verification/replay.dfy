/**
 * Applying a sequence of transitions in order, as a caller that awaits each
 * `transition` before issuing the next one does. The i-th transition of a
 * sequence that starts at index `t` is stamped `clock(t + i)`.
 */
module Replay {
  import opened Wrappers
  import opened StateManager

  /** One `transition(action, payload)` call. */
  datatype Request = Request(action: string, payload: Payload)

  /** The time at which the transition with a given index is applied. */
  type Clock = nat -> Time

  predicate AllKnown(trace: seq<Request>) {
    forall i :: 0 <= i < |trace| ==> IsKnownAction(trace[i].action)
  }

  /** Neither START_TEST nor END_TEST occurs in `trace`. */
  predicate KeepsMetadata(trace: seq<Request>) {
    forall i :: 0 <= i < |trace| ==> trace[i].action != START_TEST && trace[i].action != END_TEST
  }

  /** How many requests of `trace` name `action`. */
  function Count(trace: seq<Request>, action: string): nat
    decreases |trace|
  {
    if trace == [] then 0
    else (if trace[0].action == action then 1 else 0) + Count(trace[1..], action)
  }

  lemma {:induction false} CountAppend(a: seq<Request>, b: seq<Request>, action: string)
    ensures Count(a + b, action) == Count(a, action) + Count(b, action)
    decreases |a|
  {
    if a == [] {
      assert a + b == b;
    } else {
      assert (a + b)[1..] == a[1..] + b;
      CountAppend(a[1..], b, action);
    }
  }

  /** An action that never occurs is counted zero times. */
  lemma {:induction false} CountAbsent(trace: seq<Request>, action: string)
    requires forall i :: 0 <= i < |trace| ==> trace[i].action != action
    ensures Count(trace, action) == 0
    decreases |trace|
  {
    if trace != [] {
      CountAbsent(trace[1..], action);
    }
  }

  /** A trace is all known exactly when its head is known and its tail is all known. */
  lemma AllKnownCons(trace: seq<Request>)
    requires trace != []
    ensures AllKnown(trace) <==> IsKnownAction(trace[0].action) && AllKnown(trace[1..])
  {
    assert forall i :: 0 <= i < |trace[1..]| ==> trace[1..][i] == trace[i + 1];
  }

  /**
   * The state after every request of `trace`, or the error of the first
   * request the store rejects. Each step only appends to the lists.
   */
  function Run(s: RunState, trace: seq<Request>, clock: Clock, t: nat): (r: Result<RunState, string>)
    ensures r.Ok? <==> AllKnown(trace)
    ensures r.Ok? ==> AppendOnly(s, r.value)
    decreases |trace|
  {
    if trace == [] then Ok(s)
    else
      match Apply(s, trace[0].action, trace[0].payload, clock(t))
      case Err(e) => Err(e)
      case Ok(s1) =>
        AllKnownCons(trace);
        Run(s1, trace[1..], clock, t + 1)
  }

  /** One step of `Run`: apply the head, then run the tail one index later. */
  lemma RunCons(s: RunState, trace: seq<Request>, clock: Clock, t: nat)
    requires trace != []
    ensures var a := Apply(s, trace[0].action, trace[0].payload, clock(t));
      Run(s, trace, clock, t) == if a.Err? then Err(a.error) else Run(a.value, trace[1..], clock, t + 1)
  {
  }

  /** Running `a + b` is running `a`, then `b` from where `a` stopped. */
  lemma {:induction false} RunConcat(s: RunState, a: seq<Request>, b: seq<Request>, clock: Clock, t: nat)
    ensures Run(s, a, clock, t).Err? ==> Run(s, a + b, clock, t) == Run(s, a, clock, t)
    ensures Run(s, a, clock, t).Ok? ==> Run(s, a + b, clock, t) == Run(Run(s, a, clock, t).value, b, clock, t + |a|)
    decreases |a|
  {
    if a == [] {
      assert a + b == b;
    } else {
      assert (a + b)[0] == a[0];
      assert (a + b)[1..] == a[1..] + b;
      RunCons(s, a, clock, t);
      RunCons(s, a + b, clock, t);
      var r := Apply(s, a[0].action, a[0].payload, clock(t));
      if r.Ok? {
        RunConcat(r.value, a[1..], b, clock, t + 1);
      }
    }
  }

  /** When `a` succeeds, running `a + b` is running `b` from the state `a` leaves. */
  lemma RunConcatOk(s: RunState, a: seq<Request>, b: seq<Request>, clock: Clock, t: nat, s1: RunState, u: nat)
    requires Run(s, a, clock, t) == Ok(s1) && u == t + |a|
    ensures Run(s, a + b, clock, t) == Run(s1, b, clock, u)
  {
    RunConcat(s, a, b, clock, t);
  }

  /** The entries the requests of `trace` contribute to one list, stamped by `clock`. */
  function Added<X>(trace: seq<Request>, clock: Clock, t: nat, entries: (string, Payload, Time) -> seq<X>): seq<X>
    decreases |trace|
  {
    if trace == [] then []
    else entries(trace[0].action, trace[0].payload, clock(t)) + Added(trace[1..], clock, t + 1, entries)
  }

  lemma {:induction false} AddedConcat<X>(a: seq<Request>, b: seq<Request>, clock: Clock, t: nat,
                                        entries: (string, Payload, Time) -> seq<X>)
    ensures Added(a + b, clock, t, entries) == Added(a, clock, t, entries) + Added(b, clock, t + |a|, entries)
    decreases |a|
  {
    if a == [] {
      assert a + b == b;
    } else {
      assert (a + b)[0] == a[0];
      assert (a + b)[1..] == a[1..] + b;
      AddedConcat(a[1..], b, clock, t + 1, entries);
    }
  }

  lemma AddedSingle<X>(q: Request, clock: Clock, t: nat, entries: (string, Payload, Time) -> seq<X>)
    ensures Added([q], clock, t, entries) == entries(q.action, q.payload, clock(t))
  {
    assert [q][1..] == [];
  }

  /** `Added` over a literal trace of three requests. */
  lemma AddedThree<X>(a: Request, b: Request, c: Request, clock: Clock, t: nat,
                      entries: (string, Payload, Time) -> seq<X>)
    ensures Added([a, b, c], clock, t, entries)
         == entries(a.action, a.payload, clock(t)) + entries(b.action, b.payload, clock(t + 1))
          + entries(c.action, c.payload, clock(t + 2))
  {
    assert [a, b, c][1..] == [b, c];
    assert [b, c][1..] == [c];
    AddedSingle(c, clock, t + 2, entries);
    assert Added([b, c], clock, t + 1, entries)
        == entries(b.action, b.payload, clock(t + 1)) + Added([c], clock, t + 2, entries);
    assert Added([a, b, c], clock, t, entries)
        == entries(a.action, a.payload, clock(t)) + Added([b, c], clock, t + 1, entries);
  }

  /** `Added` over a literal trace of four requests. */
  lemma AddedFour<X>(a: Request, b: Request, c: Request, d: Request, clock: Clock, t: nat,
                     entries: (string, Payload, Time) -> seq<X>)
    ensures Added([a, b, c, d], clock, t, entries)
         == entries(a.action, a.payload, clock(t)) + entries(b.action, b.payload, clock(t + 1))
          + entries(c.action, c.payload, clock(t + 2)) + entries(d.action, d.payload, clock(t + 3))
  {
    assert [a, b, c, d][1..] == [b, c, d];
    AddedThree(b, c, d, clock, t + 1, entries);
    assert Added([a, b, c, d], clock, t, entries)
        == entries(a.action, a.payload, clock(t)) + Added([b, c, d], clock, t + 1, entries);
  }

  /** One step of a run of known actions: the head is applied, then the tail is run. */
  lemma RunStep(s: RunState, trace: seq<Request>, clock: Clock, t: nat)
    requires trace != [] && AllKnown(trace)
    ensures Apply(s, trace[0].action, trace[0].payload, clock(t)).Ok?
    ensures Run(s, trace, clock, t)
         == Run(Apply(s, trace[0].action, trace[0].payload, clock(t)).value, trace[1..], clock, t + 1)
  {
    AllKnownCons(trace);
  }

  function HistoryOf(s: RunState): seq<StepRecord> { s.history }
  function ScreenshotsOf(s: RunState): seq<Screenshot> { s.artifacts.screenshots }
  function ErrorsOf(s: RunState): seq<ErrorRecord> { s.artifacts.errors }
  function AnalysisOf(s: RunState): seq<Analysis> { s.artifacts.analysis }

  /** Every known transition appends to the list `get` selects exactly what `entries` gives. */
  ghost predicate StepAppends<X>(get: RunState -> seq<X>, entries: (string, Payload, Time) -> seq<X>) {
    forall s: RunState, action: string, p: Payload, now: Time :: IsKnownAction(action) ==>
      get(Apply(s, action, p, now).value) == get(s) + entries(action, p, now)
  }

  /** One list after a run of known actions: the old list, then what each request adds. */
  lemma {:induction false} RunAddsTo<X>(s: RunState, trace: seq<Request>, clock: Clock, t: nat,
                                       get: RunState -> seq<X>, entries: (string, Payload, Time) -> seq<X>)
    requires AllKnown(trace) && StepAppends(get, entries)
    ensures Run(s, trace, clock, t).Ok?
    ensures get(Run(s, trace, clock, t).value) == get(s) + Added(trace, clock, t, entries)
    decreases |trace|
  {
    if trace != [] {
      var q := trace[0];
      var s1 := Apply(s, q.action, q.payload, clock(t)).value;
      RunStep(s, trace, clock, t);
      AllKnownCons(trace);
      RunAddsTo(s1, trace[1..], clock, t + 1, get, entries);
      var added := entries(q.action, q.payload, clock(t));
      var tail := Added(trace[1..], clock, t + 1, entries);
      assert get(s1) == get(s) + added;
      assert Added(trace, clock, t, entries) == added + tail;
      assert (get(s) + added) + tail == get(s) + (added + tail);
    }
  }

  /**
   * After a run of known actions each list of the state is the old list
   * followed by exactly the entries the requests contribute, in request
   * order.
   */
  lemma RunAppends(s: RunState, trace: seq<Request>, clock: Clock, t: nat)
    requires AllKnown(trace)
    ensures Run(s, trace, clock, t).Ok?
    ensures var s' := Run(s, trace, clock, t).value;
      && s'.history == s.history + Added(trace, clock, t, HistoryEntries)
      && s'.artifacts.screenshots == s.artifacts.screenshots + Added(trace, clock, t, ScreenshotEntries)
      && s'.artifacts.errors == s.artifacts.errors + Added(trace, clock, t, ErrorEntries)
      && s'.artifacts.analysis == s.artifacts.analysis + Added(trace, clock, t, AnalysisEntries)
  {
    RunAddsTo(s, trace, clock, t, HistoryOf, HistoryEntries);
    RunAddsTo(s, trace, clock, t, ScreenshotsOf, ScreenshotEntries);
    RunAddsTo(s, trace, clock, t, ErrorsOf, ErrorEntries);
    RunAddsTo(s, trace, clock, t, AnalysisOf, AnalysisEntries);
  }

  /** A run of known actions without START_TEST or END_TEST leaves the metadata as it was. */
  lemma {:induction false} RunKeepsMetadata(s: RunState, trace: seq<Request>, clock: Clock, t: nat)
    requires AllKnown(trace) && KeepsMetadata(trace)
    ensures Run(s, trace, clock, t).Ok?
    ensures Run(s, trace, clock, t).value.metadata == s.metadata
    decreases |trace|
  {
    if trace != [] {
      var q := trace[0];
      var s1 := Apply(s, q.action, q.payload, clock(t)).value;
      RunStep(s, trace, clock, t);
      AllKnownCons(trace);
      assert q.action != START_TEST && q.action != END_TEST;
      assert KeepsMetadata(trace[1..]) by {
        forall i | 0 <= i < |trace[1..]|
          ensures trace[1..][i].action != START_TEST && trace[1..][i].action != END_TEST
        {
          assert trace[1..][i] == trace[i + 1];
        }
      }
      RunKeepsMetadata(s1, trace[1..], clock, t + 1);
    }
  }

  /** Many `transition` calls on one store, each awaited before the next. */
  function RunStore<C>(st: Store<C>, trace: seq<Request>, clock: Clock, t: nat): (r: Transitioned<C>)
    ensures r.store.observers == st.observers
    ensures r.thrown.None? ==> Run(st.state, trace, clock, t) == Ok(r.store.state)
    ensures r.thrown.Some? ==> Run(st.state, trace, clock, t) == Err(r.thrown.value)
    decreases |trace|
  {
    if trace == [] then Transitioned(st, None, [])
    else
      var o := Transition(st, trace[0].action, trace[0].payload, clock(t));
      if o.thrown.Some? then o
      else
        var rest := RunStore(o.store, trace[1..], clock, t + 1);
        Transitioned(rest.store, rest.thrown, o.deliveries + rest.deliveries)
  }
}
