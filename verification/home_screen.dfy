/** The Home component as an object: its seven `useState` fields become
    fields that the handlers assign, the way the setters do. Each handler is
    proved to produce the state that the matching transition function of
    HomeModel computes, and to keep the slots well formed. */
module HomeScreen {
  import opened JsValues
  import opened HomeModel

  class Home {
    var ocrTextInput: string
    var firstInputImage: JsValue
    var secondInputImage: JsValue
    var resultantImagePath: JsValue
    var resultantReferencePath: JsValue
    var resultantText: JsValue
    var isRadioButtonSelected: bool

    /** The current field values as a HomeModel state. */
    function Snapshot(): State
      reads this
    {
      State(ocrTextInput, firstInputImage, secondInputImage,
            resultantImagePath, resultantReferencePath, resultantText,
            isRadioButtonSelected)
    }

    ghost predicate Valid()
      reads this
    {
      SlotsWellFormed(Snapshot())
    }

    /** Mounting the screen: every field takes its `useState` initial value. */
    constructor ()
      ensures Valid() && Snapshot() == Initial
    {
      ocrTextInput := "";
      firstInputImage := Null;
      secondInputImage := Null;
      resultantImagePath := Null;
      resultantReferencePath := Null;
      resultantText := Null;
      isRadioButtonSelected := true;
    }

    /** The effect on `route.params`: commits an uploaded filename to the
        slot named by the button id. */
    method OnRouteParams(params: RouteParams)
      requires Valid()
      modifies this
      ensures Valid()
      ensures Snapshot() == CommitRouteParams(old(Snapshot()), params)
    {
      if Truthy(params.Filename()) && Truthy(params.ButtonId()) {
        if params.ButtonId() == Num(1) {
          firstInputImage := params.Filename();
        } else {
          secondInputImage := params.Filename();
        }
      }
    }

    /** The `frontend` socket callback. */
    method OnResultPushed(payload: ResultPayload)
      requires Valid()
      modifies this
      ensures Valid()
      ensures Snapshot() == DeliverResult(old(Snapshot()), payload)
    {
      resultantImagePath := payload.imagePath;
      resultantReferencePath := payload.refImagePath;
      resultantText := payload.texts;
    }

    /** `toggleRadioButton`. */
    method ToggleRadioButton()
      requires Valid()
      modifies this
      ensures Valid()
      ensures Snapshot() == ToggleRadio(old(Snapshot()))
    {
      isRadioButtonSelected := !isRadioButtonSelected;
    }

    /** The manual text field's `onChangeText`. */
    method OnChangeText(text: string)
      requires Valid()
      modifies this
      ensures Valid()
      ensures Snapshot() == ChangeText(old(Snapshot()), text)
    {
      ocrTextInput := text;
    }

    /** `handleRunAnalysis`: decides whether a request is sent and builds its
        body. It assigns no field, so neither a successful nor a failed
        response changes the screen's state. */
    method HandleRunAnalysis() returns (request: Option<AnalysisRequest>)
      ensures request == RunAnalysis(Snapshot())
      ensures request.Some? <==> Truthy(firstInputImage) && (Truthy(secondInputImage) || ocrTextInput != "")
    {
      if Truthy(firstInputImage) && (Truthy(secondInputImage) || |ocrTextInput| > 0) {
        request := Some(AnalysisRequest(firstInputImage, secondInputImage, ocrTextInput));
      } else {
        request := None;
      }
    }

    /** `handleReset`. */
    method HandleReset()
      requires Valid()
      modifies this
      ensures Valid()
      ensures Snapshot() == Reset(old(Snapshot()))
    {
      ocrTextInput := "";
      firstInputImage := Null;
      secondInputImage := Null;
      resultantImagePath := Null;
      resultantReferencePath := Null;
      resultantText := Null;
    }
  }
}
