# Number predictor — a Dafny model

The number predictor keeps a window of 15 numbers and asks a pre-trained model
for the 16th. The user then confirms the actual 16th number, which shifts the
window forward by one. This project models the two pieces of logic that make up
its core:

- **The inference adapter** (`lib/number-predictor.ts`), module `Inference`
  in `inference.dfy`. The module-level session cell `model` becomes the field
  of class `Predictor`. `InitModel` creates the session only when none exists,
  and keeps none after a failed creation. `PredictNumber` initialises first,
  then checks the input length, then runs the session once on a single
  `[1, 15]` tensor, then reads the first element of the tensor under the first
  output name. `GetModelInfo` reports the session's input and output names.
  The inference runtime is foreign. A session is a value holding its name lists
  and a fallible `run` function. The outcome of creating a session is a
  parameter, `created`, which is consulted only when no session exists. Ghost
  logs count creation attempts and record every request and every run, so the
  contracts can say "called once", "never run" and "no creation attempted".
  The pure functions `Infer`, `ModelAfter` and `PredictOutcome` specify the
  methods.
- **The sliding-window controller** (`components/number-predictor.tsx`). Its
  pure window operations form module `SlidingWindow` in `window.dfy`: the empty
  window, the per-slot overwrite, the shift, and reading a full window's
  numbers. The component's state and handlers form class
  `NumberPredictor.Controller` in `controller.dfy`. Its fields are `numbers`,
  `prediction`, `actualNumber`, `isShifting`, `isLoading`, `isModalOpen` and
  `modalContent`. An empty input (the empty string) is `None`, and a number is
  `Some(v)`. `HandlePredict` calls the adapter's `PredictNumber` directly.

`scenarios.dfy` (module `Scenarios`) drives the controller and the adapter on
concrete inputs against a stand-in session; each result is proved from the
contracts alone.

Behaviour of the code the model keeps:

- When a prediction fails, the code keeps whatever prediction was there before
  (components/number-predictor.tsx:34-41). It does not clear it. A second
  prediction request made while a prediction is shown therefore leaves the
  stale value on failure.
- `HandlePredict` requires both flags false because the predict button is
  disabled while `isShifting || isLoading` (components/number-predictor.tsx:97).
- `handleShift` itself does not check for a prediction. Its controls are
  rendered only while one exists (components/number-predictor.tsx:107-116), so
  `HandleShift` and `StageActual` require `prediction.Some?`.
- `outputNames[0]` on an empty list is `undefined`, which JavaScript looks up
  under the key `"undefined"` (`OutputKey`). An output tensor with no elements
  makes `toFixed` fail with a `TypeError` (`EmptyOutputError`, V8's message).

## Model

| member | source | states |
|---|---|---|
| Inference.Feed | lib/number-predictor.ts:30-34 | the session is fed exactly one tensor, under the name `input`, of shape [1, 15], holding the given numbers in order |
| Inference.Infer | lib/number-predictor.ts:24-55 | a length other than 15 is rejected before the session is used; a run fault is rethrown unchanged; no tensor under the first output name gives "No output tensor found"; success happens exactly when the run succeeded and that tensor has an element, and the result is its first element |
| Inference.ModelAfter | lib/number-predictor.ts:7-16 | an existing session is kept unchanged; with none, a session exists afterwards exactly when creation succeeded, and it is the created one |
| Inference.PredictOutcome | lib/number-predictor.ts:18-55 | an initialisation failure gives "Failed to load the prediction model" and takes precedence over the length check; otherwise the outcome is `Infer` on the session, and an existing session is used whatever creation would yield |
| Inference.OutputKey | lib/number-predictor.ts:39-42 | the lookup key is the first output name, or "undefined" when the session has no output names |
| Inference.FirstCreated | lib/number-predictor.ts:7-16 | no session exactly when every creation outcome failed; otherwise the session of the first successful one, every earlier one having failed |
| Inference.SessionNeverReplaced | lib/number-predictor.ts:4-16 | once the cell holds a session, any number of further initialisations leaves it unchanged |
| Inference.LazySession | lib/number-predictor.ts:4-16 | starting from no session, the cell after any sequence of initialisations is the session of the first successful creation, or none if all failed, so each call after a failure retries from scratch |
| Inference.PredictionDeterministic | lib/number-predictor.ts:18-55 | once a session exists, the creation outcome seen by a later call does not change the prediction outcome |
| Inference.Predictor.constructor | lib/number-predictor.ts:4 | the session cell starts empty, and nothing has been created, requested or run |
| Inference.Predictor.InitModel | lib/number-predictor.ts:7-16 | creation is attempted exactly when no session exists; the cell becomes `ModelAfter`; the call throws "Failed to load the prediction model" exactly when that creation fails |
| Inference.Predictor.PredictNumber | lib/number-predictor.ts:18-55 | the result is `PredictOutcome` of the cell before the call; the cell becomes `ModelAfter`; the request is logged once; the session runs once on `Feed(numbers)` exactly when a session exists and the length is 15, and otherwise never |
| Inference.Predictor.GetModelInfo | lib/number-predictor.ts:58-66 | initialises as `InitModel` does; it fails with the load error exactly when no session exists afterwards; otherwise it returns that session's input and output names |
| SlidingWindow.EmptyWindow | components/number-predictor.tsx:19 | 15 slots, all empty, so the window is not filled |
| SlidingWindow.Overwrite | components/number-predictor.tsx:86-88 | same length, slot `index` holds the new value, every other slot is unchanged, and a filled window stays filled |
| SlidingWindow.Shift | components/number-predictor.tsx:55 | same length; slot j holds the old slot j+1; the last slot holds the actual value; a filled window stays filled |
| SlidingWindow.Values | components/number-predictor.tsx:32 | the numbers of a filled window, one per slot, in slot order |
| SlidingWindow.FillValues | components/number-predictor.tsx:32 | filling the read-out numbers back in gives the same window |
| SlidingWindow.ValuesFill | components/number-predictor.tsx:32 | reading the numbers out of a filled-in window gives the same numbers |
| SlidingWindow.ShiftValues | components/number-predictor.tsx:55 | after a shift of a filled window, the predictor's input is the old input minus its first number, then the actual value |
| SlidingWindow.ShiftAllSlides | components/number-predictor.tsx:55 | after k <= 15 shifts, the window is its old last 15-k slots followed by the k actual values in order |
| SlidingWindow.FullTurnover | components/number-predictor.tsx:55 | after 15 shifts, the window holds exactly the 15 actual values and is filled |
| NumberPredictor.NoticeFor | components/number-predictor.tsx:36-40 | the notice for a failed prediction is the message of an `Error`, and "Error making prediction. Please try again." for any other thrown value |
| NumberPredictor.Controller.constructor | components/number-predictor.tsx:19-25 | 15 empty slots, no prediction, no staged value, both flags false, no notice |
| NumberPredictor.Controller.EditSlot | components/number-predictor.tsx:85-89 | the window becomes `Overwrite` of the old one; the prediction, the staged value, the flags and the notice are untouched, so a stale prediction survives |
| NumberPredictor.Controller.StageActual | components/number-predictor.tsx:107-113 | only while a prediction exists, the staged value becomes the number; nothing else changes |
| NumberPredictor.Controller.HandlePredict | components/number-predictor.tsx:27-49 | with an empty slot, the adapter is untouched, the prediction is kept and the incomplete-window notice is shown; with all slots filled, the adapter gets exactly one request holding the window's numbers in order, attempts creation only when it has no session, and runs the session at most once, on exactly those numbers; success stores the prediction; failure keeps the old prediction and shows the error's message, or the fallback text for a non-`Error`; the window and staged value never change; `isLoading` is false afterwards |
| NumberPredictor.Controller.HandleShift | components/number-predictor.tsx:51-64 | without a staged value, the window, prediction and staged value are unchanged and the missing-value notice is shown; with one, the window becomes `Shift` of the old one and the prediction and staged value are cleared; `isShifting` is false afterwards |
| NumberPredictor.Controller.CloseNotice | components/number-predictor.tsx:129 | closes the dialog and changes nothing else |
| Scenarios.FillAll | components/number-predictor.tsx:85-89 | 15 successive slot edits give the filled window of those numbers |
| Scenarios.PredictThenShift | components/number-predictor.tsx:27-64 | window 1..15 with a model answering 16 predicts 16; staging 16 and shifting gives window 2..16 and no prediction |
| Scenarios.IncompleteWindow | components/number-predictor.tsx:45-47 | a window missing slot 5 sends no request to the adapter and shows the incomplete-window notice |
| Scenarios.RetryAfterLoadFailure | lib/number-predictor.ts:7-16 | a failed load gives the load error; the next call creates the session and predicts |
| Scenarios.ShiftWithoutActual | components/number-predictor.tsx:60-62 | a shift with a prediction but no staged value leaves the window unchanged and shows the missing-value notice |

## Left out

- The inference runtime (session creation, `run`, tensors, name lists) is a foreign library. Each session is an opaque value with a `run` function that may throw, and the outcome of creation is a parameter.
- `run` is modelled as deterministic: the same feeds give the same outcome on every call, so a transient fault that happens on one call and not the next is not expressed.
- Rounding the prediction with `toFixed(2)` and the 32-bit float conversion of the input are floating-point work. `Infer` returns the first output element unrounded.
- `numbers.map(Number)` and `value.toString()` are string/number conversions. Slots hold numbers directly, and the empty string is `None`.
- The 500 ms timer before the shift, and the stale copy of `numbers` that the timer captures, are left out. The shift is one atomic step, so an edit made during the animation is not modelled as lost.
- async/await interleaving is left out. `HandlePredict` runs to completion, and `isLoading` is true only inside it.
- Inference.Predictor.InitModel: "an existing session is kept" holds for sequential calls only. Two overlapping first calls (`predictNumber` and `getModelInfo`, or two mounted components) each reach session creation (lib/number-predictor.ts:8-10, 20-21, 59-60), and the later creation reassigns `model`.
- The number input widget (`components/number-input.tsx`) is left out. Its parsing, NaN filter and `min`/`max`/`step` attributes belong to the browser. Any real number can be entered.
- JSX rendering, animation and `console.error` logging are left out. The dialog is modelled only as its open flag and text.
