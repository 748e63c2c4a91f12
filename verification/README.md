# Home screen inspection workflow, modelled in Dafny

This project models the inspection workflow of the `Home` screen of a React
Native OCR client. An operator captures a first image and then either a
second image or some manual text. Pressing Run Inspection sends these to
the analysis service. The result (an annotated image, a reference image and
the extracted text) arrives later as a `frontend` socket event and is shown
with a PASS/FAIL verdict until the operator presses Reset.

The screen keeps seven React state fields (`ocrTextInput`,
`firstInputImage`, `secondInputImage`, `resultantImagePath`,
`resultantReferencePath`, `resultantText`, `isRadioButtonSelected`).
The render-time guards compare some of them strictly against `null` and
test others for truthiness. The model therefore keeps JavaScript values
apart: `undefined`, `null`, booleans, integers, strings and objects.

Modules:

- `JsValues` (`js_values.dfy`): the `JsValue` datatype and JavaScript truthiness.
- `HomeModel` (`home_model.dfy`): the state as a value `State`, with one
  function per render guard. It also has one transition function per handler,
  the readiness test and the request body.
- `HomeScreen` (`home_screen.dfy`): class `Home`. Its fields are the seven
  state fields, and its methods assign them as the handlers' setters do. Each
  method is proved to produce the state its `HomeModel` transition function
  computes, and to keep the slots well formed: each slot holds `null` or a
  truthy value.
- `Workflow` (`workflow.dfy`): a session is a sequence of events. `Run` gives
  the final state and `Requests` the requests sent. `Admissible` keeps only the
  sequences the rendered screen allows. The induction lemmas are stated over
  whole sessions.
- `Scenarios` (`scenarios.dfy`): concrete sessions.

The model follows the code, which differs in several ways from what the
three radio buttons and the Reset button suggest:

- There is one boolean selector, which all three radio buttons toggle. It is
  not a three-way choice.
- Readiness ignores the selector. Typed text counts while the second capture
  is selected, and a second image counts while manual entry is selected.
- Reset does not restore the selector.
- The first Capture Image button has no `disabled` property, so it is
  always enabled.
- There is no "submitted" state and no in-flight flag. Run Inspection stays
  enabled until a result whose `image_path` is not `null` arrives, so the same request can be sent twice.
- Run Inspection is disabled by any result image path that is not `null`,
  `undefined` included. The results section, which holds the only Reset
  button, needs a truthy path. A result with a missing or empty `image_path`
  therefore locks the screen until the next push.

## Model

| member | source | states |
|---|---|---|
| `HomeModel.State.RunEnabled` | Home.js:173-177 | Run Inspection is disabled whenever the result image path is not `null`. Any truthy path disables it, and so does `undefined`. |
| `HomeModel.State.ResultsVisible` | Home.js:181-216 | The results section and its Reset button are shown only for a truthy result path. Run Inspection is then disabled, and the path is neither missing nor empty. |
| `HomeModel.State.Output2Visible` | Home.js:192-199 | Output 2 is shown only inside a visible results section, with the selector on and a reference path that is neither `null` nor missing. |
| `HomeModel.State.VerdictLabel` | Home.js:206 | The label, rendered only inside the results section, is PASS iff the result text is truthy. Missing, `null` or empty text gives FAIL. |
| `HomeModel.State.TextEditable` | Home.js:163-170 | The manual text field is editable iff capture-2 is disabled, so exactly one of the two is usable. |
| `HomeModel.RunAnalysis` | Home.js:47-74 | A request is built iff the inputs are ready. Its body is exactly (first image, second image, possibly `null`, text). From well-formed slots, the first image is truthy and the second is `null` or truthy. |
| `HomeModel.CommitRouteParams` | Home.js:33-41 | Only the two slots can change, and at most one of them does. Slot 1 changes only for a truthy filename with button id strictly `1`. Slot 2 changes only for a truthy filename with any other truthy id. In both cases the new filename is stored (last write wins), and well-formed slots stay well formed. |
| `HomeModel.DeliverResult` | Home.js:22-27 | The three result fields take the payload's `image_path`, `ref_image_path` and `texts`. Every other field is unchanged. |
| `HomeModel.ToggleRadio` | Home.js:43-45 | The selector is negated and nothing else changes. This swaps which of capture-2 and the text field is usable. |
| `HomeModel.ChangeText` | Home.js:169 | The text field takes the typed text and nothing else changes. |
| `HomeModel.Reset` | Home.js:76-83 | The result equals the initial state except for the selector, which keeps its value. Run Inspection is then enabled, the results are hidden and nothing is ready. |
| `HomeModel.ReadinessIgnoresSelector` | Home.js:49 | Readiness and the request do not depend on the selector. |
| `HomeModel.CommitIdempotent` | Home.js:33-41 | Running the route effect again with the same parameters changes nothing more. |
| `HomeModel.ResetIdempotent` | Home.js:76-83 | Reset is idempotent. |
| `HomeModel.ToggleInvolution` | Home.js:43-45 | Toggling twice restores the state. |
| `HomeModel.DeliverIgnoresPriorResult` | Home.js:22-27 | After a push, the result fields and verdict depend only on the payload, not on the prior state. |
| `HomeModel.MissingImagePathHidesReset` | Home.js:176-181 | A payload with a missing or empty `image_path` disables Run Inspection and hides Reset. |
| `HomeScreen.Home.constructor` | Home.js:12-18 | Mounting gives every field its `useState` initial value. |
| `HomeScreen.Home.OnRouteParams` | Home.js:33-41 | The in-place update equals `CommitRouteParams` applied to the old state, and the slots stay well formed. |
| `HomeScreen.Home.OnResultPushed` | Home.js:22-27 | The in-place update equals `DeliverResult` applied to the old state. |
| `HomeScreen.Home.ToggleRadioButton` | Home.js:43-45 | The in-place update equals `ToggleRadio` applied to the old state. |
| `HomeScreen.Home.OnChangeText` | Home.js:163-170 | The in-place update equals `ChangeText` applied to the old state. |
| `HomeScreen.Home.HandleRunAnalysis` | Home.js:47-74 | Returns the request `RunAnalysis` decides on, and returns one iff the first image is truthy and (the second image is truthy or the text is non-empty). It assigns no field, whatever the response. |
| `HomeScreen.Home.HandleReset` | Home.js:76-83 | The in-place update equals `Reset` applied to the old state, and the selector is unchanged. |
| `Workflow.Step` | Home.js:33-83 | Pressing Run Inspection changes no state. Every handler keeps the slots well formed. |
| `Workflow.Issued` | Home.js:47-70 | A single event sends at most one request, and sends one iff it is Run Inspection with ready inputs. |
| `Workflow.Run` | Home.js:33-41 | Any session that starts from well-formed slots ends with well-formed slots. |
| `Workflow.Requests` | Home.js:49-56 | A session sends at most one request per event. From well-formed slots, every request has a truthy first image and a second image that is `null` or truthy. |
| `Workflow.SubmitChangesNothing` | Home.js:47-74 | A session ends in the same state with its Run Inspection presses removed. |
| `Workflow.SelectorParity` | Home.js:43-83 | After any session, the selector is its starting value flipped once per radio press. Reset never touches it. |
| `Workflow.CaptureControlsAfterSession` | Home.js:138-170 | After any session, capture-2 is enabled iff the starting selector, flipped once per radio press, is on. That means the selector started on and the press count is even, or it started off and the count is odd. The text field is editable exactly when capture-2 is not, and capture-1 stays enabled. |
| `Workflow.FirstSlotCorrelation` | Home.js:33-41 | A session with no Reset and no commit carrying button id `1` leaves the first slot unchanged. |
| `Workflow.SecondSlotCorrelation` | Home.js:33-41 | A session with no Reset and no commit carrying another truthy id leaves the second slot unchanged. |
| `Workflow.NoSubmitWhileResultHeld` | Home.js:173-177 | While a result path other than `null` is held, an admissible session with no push and no Reset sends nothing and keeps the result. |
| `Workflow.FalsyResultLocksScreen` | Home.js:173-212 | From a result path that is neither `null` nor truthy, an admissible session with no push sends nothing. Run Inspection stays disabled and Reset stays hidden. |
| `Workflow.MissingImagePathLocksOut` | Home.js:176-209 | After a push with a missing or empty `image_path`, an admissible session with no further push sends nothing and never shows Reset. |
| `Workflow.ResetAfterAnySession` | Home.js:76-83 | After any session, Reset yields the initial state except for the selector. The selector keeps the value fixed by the parity of radio presses. |
| `Workflow.DuplicateSubmitAllowed` | Home.js:173-177 | While Run Inspection is enabled and the inputs are ready, pressing it twice is admitted and sends the same request twice. |
| `Scenarios.ManualTextScenarios` | Home.js:49-56 | In manual entry with no text nothing is sent. With text `ABC123`, the body is (`img_a.jpg`, `null`, `ABC123`). |
| `Scenarios.TextCountsInCaptureMode` | Home.js:49 | Typed text makes the inputs ready even while the second capture is selected. |
| `Scenarios.PassScenario` | Home.js:181-206 | From any state, a result with an image and text shows PASS. Output 2 is hidden because there is no reference path, and Run Inspection is disabled. |
| `Scenarios.FailScenario` | Home.js:206 | A result with an image and no text shows FAIL. |
| `Scenarios.FullSession` | Home.js:12-83 | A session of capture, toggle, type, run, push and Reset is admitted and sends one request. It ends in the initial state with the selector off. |

## Left out

- The socket connection and its `disconnect` cleanup (Home.js:20-31) are network I/O and effect lifecycle. Only the delivered payload is modelled, as an event.
- `JSON.parse` of the push payload is a library call. The model takes the three values the callback reads. A missing key, or a payload that is not an object, gives `undefined`. A payload that is not valid JSON makes the parse throw before any setter runs, so the state stays as it was. The model can only show that as no event at all.
- `fetch`, `response.json()`, the console logging and the `try`/`catch` in `handleRunAnalysis` are network I/O and logging. Only the send/no-send decision and the request body are modelled. The model assigns no field on any path, so success, failure and exceptions all leave the state as it was.
- The JSON encoding of the request body is left out. The body is modelled as a record of JavaScript values.
- JSX rendering, the image viewers, the preview URLs and the styles (Home.js:85-327) are user interface. Only the guard expressions that enable or show elements are modelled.
- `Camera.js` (camera, permissions, flash, multipart upload) is I/O. The model only assumes that it returns the uploaded `filename` with the `buttonId` it was opened with. `App.js` is navigation configuration.
- Numbers are integers only. `NaN` and fractional numbers are left out of `JsValue`.
- React scheduling is left out. Setters are batched, and handlers read the values of the render that created them. The model applies each handler to the latest state, so two toggles within one render are not modelled as a stale read.
- Admissibility of events: route returns and socket events are always admitted. The model does not tie a return with button id `2` to the second capture button having been enabled when the capture started.
