/** The state of the Home screen as a value: its seven React state fields,
    the render-time guards computed from them, and one transition function
    per handler. The class in module HomeScreen performs the same updates in
    place and is proved to agree with these functions. */
module HomeModel {
  import opened JsValues

  datatype Option<T> = None | Some(value: T)

  /** `route.params` of the Home screen: absent on first mount, otherwise the
      record the capture screen navigates back with (an uploaded `filename`
      and the `buttonId` the capture was started from). A missing key reads
      as `undefined`. */
  datatype RouteParams = NoParams | Params(filename: JsValue, buttonId: JsValue)
  {
    /** `route.params?.filename` */
    function Filename(): JsValue
    {
      if NoParams? then Undefined else filename
    }

    /** `route.params?.buttonId` */
    function ButtonId(): JsValue
    {
      if NoParams? then Undefined else buttonId
    }
  }

  /** A `frontend` push event after `JSON.parse`: the values read by
      `res?.image_path`, `res?.ref_image_path` and `res?.texts`
      (`Undefined` for a missing key or a `null` payload). */
  datatype ResultPayload = ResultPayload(imagePath: JsValue, refImagePath: JsValue, texts: JsValue)

  /** The JSON body of the analysis request. */
  datatype AnalysisRequest = AnalysisRequest(input1Image: JsValue, input2Image: JsValue, input2Text: string)

  /** The verdict label shown beside the Reset button. */
  datatype Verdict = Pass | Fail

  /** The seven state fields of the Home component. `isRadioButtonSelected`
      is one boolean shared by all three radio buttons: true selects the
      second capture, false the manual text entry. */
  datatype State = State(
    ocrTextInput: string,
    firstInputImage: JsValue,
    secondInputImage: JsValue,
    resultantImagePath: JsValue,
    resultantReferencePath: JsValue,
    resultantText: JsValue,
    isRadioButtonSelected: bool)
  {
    /** Run Inspection is enabled: it is disabled as soon as the result image
        path is anything but `null`, `undefined` included. */
    function RunEnabled(): (r: bool)
      ensures r ==> !Truthy(resultantImagePath)
      ensures resultantImagePath == Undefined ==> !r
    {
      resultantImagePath == Null
    }

    /** The results section, and with it the only Reset button, is rendered. */
    function ResultsVisible(): (r: bool)
      ensures r ==> !RunEnabled()
      ensures r ==> resultantImagePath != Undefined && resultantImagePath != Str("")
    {
      Truthy(resultantImagePath)
    }

    /** The second output image is rendered inside the results section. */
    function Output2Visible(): (r: bool)
      ensures r ==> ResultsVisible() && isRadioButtonSelected
      ensures r ==> resultantReferencePath != Null && resultantReferencePath != Undefined
    {
      ResultsVisible() && isRadioButtonSelected && Truthy(resultantReferencePath)
    }

    /** The PASS/FAIL label: PASS exactly when the result text is truthy.
        The label is rendered only inside the results section, so it is
        meaningful only when `ResultsVisible()` holds. */
    function VerdictLabel(): (v: Verdict)
      ensures v == Pass <==> Truthy(resultantText)
      ensures resultantText == Null || resultantText == Undefined || resultantText == Str("") ==> v == Fail
    {
      if Truthy(resultantText) then Pass else Fail
    }

    /** The first Capture Image button has no `disabled` property. */
    function Capture1Enabled(): bool
    {
      true
    }

    /** The second Capture Image button is enabled while the selector is on. */
    function Capture2Enabled(): bool
    {
      isRadioButtonSelected
    }

    /** The manual text field is editable while the selector is off, so
        exactly one of capture-2 and the text field is usable at a time. */
    function TextEditable(): (r: bool)
      ensures r <==> !Capture2Enabled()
    {
      !isRadioButtonSelected
    }
  }

  /** The values passed to `useState`. */
  const Initial: State := State("", Null, Null, Null, Null, Null, true)

  /** What the handlers keep true of the input slots: each is `null` or a
      truthy value (only a truthy filename is ever stored). */
  predicate SlotsWellFormed(s: State)
  {
    && (s.firstInputImage == Null || Truthy(s.firstInputImage))
    && (s.secondInputImage == Null || Truthy(s.secondInputImage))
  }

  /** The readiness test of the Run Inspection handler: a first image and
      either a second image or non-empty manual text. The selector plays no
      part: text counts while the second capture is selected, and a second
      image counts while manual entry is selected. */
  function Ready(s: State): bool
  {
    Truthy(s.firstInputImage) && (Truthy(s.secondInputImage) || |s.ocrTextInput| > 0)
  }

  /** Whether pressing Run Inspection sends a request, and its body. */
  function RunAnalysis(s: State): (r: Option<AnalysisRequest>)
    ensures r.Some? <==> Ready(s)
    ensures r.Some? ==> && r.value.input1Image == s.firstInputImage
                        && r.value.input2Image == s.secondInputImage
                        && r.value.input2Text == s.ocrTextInput
    ensures r.Some? && SlotsWellFormed(s) ==>
              && Truthy(r.value.input1Image)
              && (r.value.input2Image == Null || Truthy(r.value.input2Image))
  {
    if Ready(s) then
      Some(AnalysisRequest(s.firstInputImage, s.secondInputImage, s.ocrTextInput))
    else
      None
  }

  /** The effect that runs when `route.params` changes: a truthy filename
      with a truthy button id is committed, to the first slot for button id
      `1` (strictly) and to the second slot for any other id. */
  function CommitRouteParams(s: State, p: RouteParams): (r: State)
    ensures r.(firstInputImage := s.firstInputImage, secondInputImage := s.secondInputImage) == s
    ensures r.firstInputImage == s.firstInputImage || r.secondInputImage == s.secondInputImage
    ensures r.firstInputImage != s.firstInputImage ==> Truthy(p.Filename()) && p.ButtonId() == Num(1)
    ensures r.secondInputImage != s.secondInputImage ==>
              Truthy(p.Filename()) && Truthy(p.ButtonId()) && p.ButtonId() != Num(1)
    ensures Truthy(p.Filename()) && p.ButtonId() == Num(1) ==> r.firstInputImage == p.Filename()
    ensures Truthy(p.Filename()) && Truthy(p.ButtonId()) && p.ButtonId() != Num(1) ==>
              r.secondInputImage == p.Filename()
    ensures SlotsWellFormed(s) ==> SlotsWellFormed(r)
  {
    if Truthy(p.Filename()) && Truthy(p.ButtonId()) then
      if p.ButtonId() == Num(1) then s.(firstInputImage := p.Filename())
      else s.(secondInputImage := p.Filename())
    else
      s
  }

  /** The `frontend` socket callback: the three result fields take the
      payload's values, whatever they held before; nothing else changes. */
  function DeliverResult(s: State, payload: ResultPayload): (r: State)
    ensures && r.resultantImagePath == payload.imagePath
            && r.resultantReferencePath == payload.refImagePath
            && r.resultantText == payload.texts
    ensures r.(resultantImagePath := s.resultantImagePath,
               resultantReferencePath := s.resultantReferencePath,
               resultantText := s.resultantText) == s
  {
    s.(resultantImagePath := payload.imagePath,
       resultantReferencePath := payload.refImagePath,
       resultantText := payload.texts)
  }

  /** `toggleRadioButton`, bound to all three radio buttons: negates the one
      selector, which swaps which of capture-2 and the text field is usable. */
  function ToggleRadio(s: State): (r: State)
    ensures r.isRadioButtonSelected != s.isRadioButtonSelected
    ensures r.(isRadioButtonSelected := s.isRadioButtonSelected) == s
    ensures r.Capture2Enabled() != s.Capture2Enabled() && r.TextEditable() != s.TextEditable()
  {
    s.(isRadioButtonSelected := !s.isRadioButtonSelected)
  }

  /** The manual text field's `onChangeText`: stores the new text. */
  function ChangeText(s: State, text: string): (r: State)
    ensures r.ocrTextInput == text
    ensures r.(ocrTextInput := s.ocrTextInput) == s
  {
    s.(ocrTextInput := text)
  }

  /** `handleReset`: every field but the selector goes back to its initial
      value; the selector keeps its current value. */
  function Reset(s: State): (r: State)
    ensures r == Initial.(isRadioButtonSelected := s.isRadioButtonSelected)
    ensures r.RunEnabled() && !r.ResultsVisible() && !Ready(r) && SlotsWellFormed(r)
  {
    s.(ocrTextInput := "",
       firstInputImage := Null,
       secondInputImage := Null,
       resultantImagePath := Null,
       resultantReferencePath := Null,
       resultantText := Null)
  }

  /** The readiness decision does not look at the selector. */
  lemma ReadinessIgnoresSelector(s: State, selected: bool)
    ensures Ready(s.(isRadioButtonSelected := selected)) == Ready(s)
    ensures RunAnalysis(s.(isRadioButtonSelected := selected)) == RunAnalysis(s)
  {
  }

  /** The route effect may run again with the same parameters (the last
      write wins), which leaves the state as the first run left it. */
  lemma CommitIdempotent(s: State, p: RouteParams)
    ensures CommitRouteParams(CommitRouteParams(s, p), p) == CommitRouteParams(s, p)
  {
  }

  /** Resetting twice is resetting once. */
  lemma ResetIdempotent(s: State)
    ensures Reset(Reset(s)) == Reset(s)
  {
  }

  /** Toggling twice restores the selector and the whole state. */
  lemma ToggleInvolution(s: State)
    ensures ToggleRadio(ToggleRadio(s)) == s
  {
  }

  /** A pushed result replaces the previous one entirely: two states that
      receive the same payload show the same results. */
  lemma DeliverIgnoresPriorResult(s1: State, s2: State, payload: ResultPayload)
    ensures DeliverResult(s1, payload).resultantImagePath == DeliverResult(s2, payload).resultantImagePath
    ensures DeliverResult(s1, payload).resultantReferencePath == DeliverResult(s2, payload).resultantReferencePath
    ensures DeliverResult(s1, payload).resultantText == DeliverResult(s2, payload).resultantText
    ensures DeliverResult(s1, payload).VerdictLabel() == DeliverResult(s2, payload).VerdictLabel()
  {
  }

  /** A result whose image path is missing or empty disables Run Inspection
      and hides the results section, and with it the Reset button. */
  lemma MissingImagePathHidesReset(s: State, payload: ResultPayload)
    requires payload.imagePath == Undefined || payload.imagePath == Str("")
    ensures !DeliverResult(s, payload).RunEnabled()
    ensures !DeliverResult(s, payload).ResultsVisible()
  {
  }
}
