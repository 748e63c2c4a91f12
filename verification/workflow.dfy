/** The Home screen over time: a session is a sequence of events, each of
    which runs one handler. `Run` gives the state after a sequence and
    `Requests` the analysis requests it sends; `Admissible` keeps only the
    sequences the rendered screen lets an operator produce (a disabled or
    hidden button cannot be pressed). */
module Workflow {
  import opened JsValues
  import opened HomeModel

  datatype Event =
    | RouteChanged(params: RouteParams)   // the capture screen navigates back
    | ResultPushed(payload: ResultPayload) // a `frontend` socket event arrives
    | RadioPressed                          // any of the three radio buttons
    | TextChanged(text: string)             // typing in the manual text field
    | RunPressed                            // Run Inspection
    | ResetPressed                          // Reset

  /** The state after one event. Pressing Run Inspection changes nothing. */
  function Step(s: State, e: Event): (r: State)
    ensures e.RunPressed? ==> r == s
    ensures SlotsWellFormed(s) ==> SlotsWellFormed(r)
  {
    match e
    case RouteChanged(p) => CommitRouteParams(s, p)
    case ResultPushed(payload) => DeliverResult(s, payload)
    case RadioPressed => ToggleRadio(s)
    case TextChanged(text) => ChangeText(s, text)
    case RunPressed => s
    case ResetPressed => Reset(s)
  }

  /** The requests one event sends: at most one, and only for Run Inspection. */
  function Issued(s: State, e: Event): (r: seq<AnalysisRequest>)
    ensures |r| <= 1
    ensures r != [] <==> e.RunPressed? && Ready(s)
  {
    if e.RunPressed? then
      match RunAnalysis(s)
      case Some(request) => [request]
      case None => []
    else
      []
  }

  /** Whether the rendered screen admits the event in state `s`. Navigation
      results, socket events and the radio buttons are always admitted; the
      text field only while editable, Run Inspection only while enabled, and
      Reset only while the results section is shown. */
  predicate Enabled(s: State, e: Event)
  {
    match e
    case TextChanged(_) => s.TextEditable()
    case RunPressed => s.RunEnabled()
    case ResetPressed => s.ResultsVisible()
    case _ => true
  }

  /** The state after a sequence of events. */
  function Run(s: State, t: seq<Event>): (r: State)
    ensures SlotsWellFormed(s) ==> SlotsWellFormed(r)
    decreases |t|
  {
    if t == [] then s else Run(Step(s, t[0]), t[1..])
  }

  /** The requests sent along a sequence of events, in order. */
  function Requests(s: State, t: seq<Event>): (r: seq<AnalysisRequest>)
    ensures |r| <= |t|
    ensures SlotsWellFormed(s) ==>
              forall q | q in r :: Truthy(q.input1Image) && (q.input2Image == Null || Truthy(q.input2Image))
    decreases |t|
  {
    if t == [] then [] else Issued(s, t[0]) + Requests(Step(s, t[0]), t[1..])
  }

  /** Every event of the sequence is admitted by the screen when it happens. */
  predicate Admissible(s: State, t: seq<Event>)
    decreases |t|
  {
    t == [] || (Enabled(s, t[0]) && Admissible(Step(s, t[0]), t[1..]))
  }

  /** The number of radio-button presses in a sequence. */
  function Toggles(t: seq<Event>): nat
  {
    if t == [] then 0 else (if t[0].RadioPressed? then 1 else 0) + Toggles(t[1..])
  }

  /** A sequence with its Run Inspection presses removed. */
  function WithoutRuns(t: seq<Event>): seq<Event>
  {
    if t == [] then [] else (if t[0].RunPressed? then [] else [t[0]]) + WithoutRuns(t[1..])
  }

  /** Running two sequences one after the other is running their concatenation. */
  lemma {:induction false} RunAppend(s: State, t: seq<Event>, u: seq<Event>)
    ensures Run(s, t + u) == Run(Run(s, t), u)
    ensures Requests(s, t + u) == Requests(s, t) + Requests(Run(s, t), u)
    decreases |t|
  {
    if t == [] {
      assert t + u == u;
    } else {
      assert (t + u)[0] == t[0];
      assert (t + u)[1..] == t[1..] + u;
      RunAppend(Step(s, t[0]), t[1..], u);
    }
  }

  /** Sending requests changes no state: a session ends in the same state
      with its Run Inspection presses taken out. */
  lemma {:induction false} SubmitChangesNothing(s: State, t: seq<Event>)
    ensures Run(s, t) == Run(s, WithoutRuns(t))
    decreases |t|
  {
    if t != [] {
      SubmitChangesNothing(Step(s, t[0]), t[1..]);
      if t[0].RunPressed? {
        assert WithoutRuns(t) == WithoutRuns(t[1..]);
      } else {
        assert WithoutRuns(t) == [t[0]] + WithoutRuns(t[1..]);
        assert WithoutRuns(t)[0] == t[0];
        assert WithoutRuns(t)[1..] == WithoutRuns(t[1..]);
      }
    }
  }

  /** The selector only ever flips on a radio press: Reset and every other
      event leave it alone, so its value is fixed by the parity of presses. */
  lemma {:induction false} SelectorParity(s: State, t: seq<Event>)
    ensures Run(s, t).isRadioButtonSelected == (s.isRadioButtonSelected != (Toggles(t) % 2 == 1))
    decreases |t|
  {
    if t != [] {
      SelectorParity(Step(s, t[0]), t[1..]);
    }
  }

  /** After any session, capture-2 is enabled iff the starting selector,
      flipped once per radio press, is on: it started on and the presses are
      even, or it started off and they are odd. Reset does not change either
      control. The last two clauses are corollaries stated for the reader:
      the text field is editable exactly when capture-2 is not, and capture-1
      is always enabled. */
  lemma CaptureControlsAfterSession(s: State, t: seq<Event>)
    ensures Run(s, t).Capture2Enabled() == (s.isRadioButtonSelected != (Toggles(t) % 2 == 1))
    ensures Run(s, t).TextEditable() == !Run(s, t).Capture2Enabled()
    ensures Run(s, t).Capture1Enabled()
  {
    SelectorParity(s, t);
  }

  /** An event that can overwrite the first slot. */
  predicate WritesFirstSlot(e: Event)
  {
    e.ResetPressed? || (e.RouteChanged? && Truthy(e.params.Filename()) && e.params.ButtonId() == Num(1))
  }

  /** An event that can overwrite the second slot. */
  predicate WritesSecondSlot(e: Event)
  {
    || e.ResetPressed?
    || (e.RouteChanged? && Truthy(e.params.Filename()) && Truthy(e.params.ButtonId())
        && e.params.ButtonId() != Num(1))
  }

  /** Captures for the second slot, results, toggles, typing and submitting
      never touch the first slot. */
  lemma {:induction false} FirstSlotCorrelation(s: State, t: seq<Event>)
    requires forall e | e in t :: !WritesFirstSlot(e)
    ensures Run(s, t).firstInputImage == s.firstInputImage
    decreases |t|
  {
    if t != [] {
      assert t[0] in t;
      assert forall e | e in t[1..] :: e in t;
      FirstSlotCorrelation(Step(s, t[0]), t[1..]);
    }
  }

  /** Captures for the first slot, results, toggles, typing and submitting
      never touch the second slot. */
  lemma {:induction false} SecondSlotCorrelation(s: State, t: seq<Event>)
    requires forall e | e in t :: !WritesSecondSlot(e)
    ensures Run(s, t).secondInputImage == s.secondInputImage
    decreases |t|
  {
    if t != [] {
      assert t[0] in t;
      assert forall e | e in t[1..] :: e in t;
      SecondSlotCorrelation(Step(s, t[0]), t[1..]);
    }
  }

  /** Once a result image path other than `null` is held, no further request
      can be sent and the result stays until a Reset or another push. */
  lemma {:induction false} NoSubmitWhileResultHeld(s: State, t: seq<Event>)
    requires s.resultantImagePath != Null
    requires Admissible(s, t)
    requires forall e | e in t :: !e.ResultPushed? && !e.ResetPressed?
    ensures Requests(s, t) == []
    ensures Run(s, t).resultantImagePath == s.resultantImagePath
    ensures Run(s, t).resultantReferencePath == s.resultantReferencePath
    ensures Run(s, t).resultantText == s.resultantText
    decreases |t|
  {
    if t != [] {
      assert t[0] in t;
      assert forall e | e in t[1..] :: e in t;
      NoSubmitWhileResultHeld(Step(s, t[0]), t[1..]);
    }
  }

  /** A result whose image path is neither `null` nor truthy (missing, empty,
      `0` or `false`) locks the screen: Run Inspection stays disabled, Reset
      stays hidden, and no request is sent until another result is pushed. */
  lemma {:induction false} FalsyResultLocksScreen(s: State, t: seq<Event>)
    requires s.resultantImagePath != Null && !Truthy(s.resultantImagePath)
    requires Admissible(s, t)
    requires forall e | e in t :: !e.ResultPushed?
    ensures Requests(s, t) == []
    ensures !Run(s, t).RunEnabled() && !Run(s, t).ResultsVisible()
    decreases |t|
  {
    if t != [] {
      assert t[0] in t;
      assert forall e | e in t[1..] :: e in t;
      FalsyResultLocksScreen(Step(s, t[0]), t[1..]);
    }
  }

  /** The same lock, starting from the push itself: after a payload whose
      `image_path` is missing or empty, whatever the operator does, nothing
      is sent until the next push. */
  lemma MissingImagePathLocksOut(s: State, payload: ResultPayload, t: seq<Event>)
    requires payload.imagePath == Undefined || payload.imagePath == Str("")
    requires Admissible(Step(s, ResultPushed(payload)), t)
    requires forall e | e in t :: !e.ResultPushed?
    ensures Admissible(s, [ResultPushed(payload)] + t)
    ensures Requests(s, [ResultPushed(payload)] + t) == []
    ensures !Run(s, [ResultPushed(payload)] + t).ResultsVisible()
  {
    var t' := [ResultPushed(payload)] + t;
    assert t'[0] == ResultPushed(payload) && t'[1..] == t;
    FalsyResultLocksScreen(Step(s, ResultPushed(payload)), t);
  }

  /** Whatever happened before, Reset brings every field but the selector
      back to its initial value; the selector keeps the value the session
      gave it. */
  lemma ResetAfterAnySession(s: State, t: seq<Event>)
    ensures Run(s, t + [ResetPressed]) == Initial.(isRadioButtonSelected := Run(s, t).isRadioButtonSelected)
    ensures Run(s, t + [ResetPressed]).isRadioButtonSelected == (s.isRadioButtonSelected != (Toggles(t) % 2 == 1))
  {
    RunAppend(s, t, [ResetPressed]);
    SelectorParity(s, t);
  }

  /** Nothing guards against a second submission: while Run Inspection is
      enabled and the inputs are ready, pressing it twice sends the same
      request twice. */
  lemma DuplicateSubmitAllowed(s: State)
    requires s.RunEnabled() && Ready(s)
    ensures Admissible(s, [RunPressed, RunPressed])
    ensures Requests(s, [RunPressed, RunPressed]) == [RunAnalysis(s).value, RunAnalysis(s).value]
  {
  }
}
