/** Concrete sessions of the Home screen, stated on the model. */
module Scenarios {
  import opened JsValues
  import opened HomeModel
  import opened Workflow

  /** A first image with manual entry selected. */
  function ManualEntry(text: string): State
  {
    Initial.(firstInputImage := Str("img_a.jpg"), isRadioButtonSelected := false, ocrTextInput := text)
  }

  /** Manual entry selected but no text typed: nothing is sent. With text,
      the body carries the text and a `null` second image. */
  lemma ManualTextScenarios()
    ensures !Ready(ManualEntry("")) && RunAnalysis(ManualEntry("")) == None
    ensures RunAnalysis(ManualEntry("ABC123")) == Some(AnalysisRequest(Str("img_a.jpg"), Null, "ABC123"))
  {
  }

  /** Typed text counts even while the second capture is selected (the
      field is then read-only, but keeps what was typed before). */
  lemma TextCountsInCaptureMode()
    ensures Ready(ManualEntry("ABC123").(isRadioButtonSelected := true))
  {
  }

  /** A result with an image and text shows PASS, with no second output
      because the reference path is missing. */
  lemma PassScenario(s: State)
    ensures var r := DeliverResult(s, ResultPayload(Str("out1.png"), Undefined, Str("OK")));
            && r.ResultsVisible() && r.VerdictLabel() == Pass && !r.Output2Visible()
            && !r.RunEnabled()
  {
  }

  /** A result with an image and no text shows FAIL. */
  lemma FailScenario(s: State)
    ensures DeliverResult(s, ResultPayload(Str("out1.png"), Undefined, Undefined)).VerdictLabel() == Fail
  {
  }

  /** Capture an image, type text, run, receive a PASS, reset: the screen is
      back to its initial state except for the manual-entry selector. */
  lemma FullSession()
    ensures var t := [RouteChanged(Params(Str("img_a.jpg"), Num(1))), RadioPressed, TextChanged("ABC123"),
                      RunPressed, ResultPushed(ResultPayload(Str("out1.png"), Undefined, Str("OK"))),
                      ResetPressed];
            && Admissible(Initial, t)
            && Requests(Initial, t) == [AnalysisRequest(Str("img_a.jpg"), Null, "ABC123")]
            && Run(Initial, t) == Initial.(isRadioButtonSelected := false)
  {
  }
}
