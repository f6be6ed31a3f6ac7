# Face-analysis demo: store and overlay, in Dafny

This project models the core of a browser face-analysis demo. The demo
captures a webcam frame or an uploaded image and runs a face-detection
library on it. It keeps its state in a small store and draws boxes,
landmark dots and captions over the detected faces.

Three modules, one per core source file:

- `Types` (`types.dfy`) holds the values the store works over. These are
  `FaceDetection` (an id, a box, and optional landmarks, age, gender,
  gender probability and seven-label expressions) and `AppState`. The state
  has exactly three slices: `webcam`, `detection` and `models`. `webcam` and
  `models` have two flags each; `detection` has one flag (`isProcessing`)
  plus the face list; each slice has a nullable error.
  The module also holds the eleven action tags, their string values, the
  reducer's switch on those strings, and the closed `Action` union.
- `Store` (`store.dfy`) holds the initial state and the reducer `Reduce`,
  with runs of dispatched actions (`Run`). Its lemmas say what each action
  changes and what it leaves alone. They also cover the dispatch discipline
  of the components that call the store: the webcam toggle, the model
  loader and the frame processor.
- `FaceOverlay` (`face_overlay.dfy`) holds the strongest-expression scan
  (`TopEmotion`, a loop proved equal to the function `TopOf`, with `TopOf`
  characterised as "first position of a positive maximum"). It also holds
  the capitalised caption and the markers the overlay draws for each face.

Three invariants one might expect of the store are not kept by the code.
The model follows the code and shows each gap:

- "`isActive` and `isLoading` are never both true" fails for the trace
  WEBCAM_START, WEBCAM_START_SUCCESS, WEBCAM_START (`Store.WebcamBothFlagsReachable`).
  It holds when WEBCAM_START is dispatched only while the webcam is inactive,
  as the toggle button does (`Store.WebcamExclusiveUnderControls`).
- "Loaded models stay loaded" fails because MODELS_LOAD_FAILURE clears
  `isLoaded` unconditionally (`Store.LoadedCanBeLost`). It holds on runs with
  no load failure (`Store.LoadedStaysLoaded`). It also holds under the model
  loader's discipline (`Store.LoadedTerminalUnderLoader`).
- "A detection result arriving after the webcam stops is discarded" fails.
  The frame processor dispatches DETECTION_SUCCESS right after the detector
  returns, without looking at the webcam again, and the reducer sets the
  faces whatever the webcam state. So DETECTION_START, WEBCAM_STOP,
  DETECTION_SUCCESS ends with a stopped webcam showing the late faces
  (`Store.StaleResultApplied`).

The overlay applies no scale or offset to map boxes into screen space:
boxes are placed at the face's native coordinates, and
`FaceOverlay.Overlay` models exactly that.

## Model

| member | source | states |
|---|---|---|
| `Types.Entries` | src/store/types.ts:19-27 | an expression record has exactly seven entries, one per label neutral, happy, sad, angry, fearful, disgusted, surprised, in that order and pairwise distinct, each carrying that label's probability from the record |
| `Types.ActionOfType` | src/store/types.ts:64-75 | every one of the eleven tags has an action variant; the failure variants carry the given message and DETECTION_SUCCESS the given face list |
| `Types.ElevenActionTypes` | src/store/types.ts:48-62 | there are exactly eleven tags, every tag is listed, none twice |
| `Types.Name` | src/store/types.ts:48-62 | each tag's string value is one of the eleven case labels, and the reducer's switch on it selects that same tag, so every action of the closed union hits its own case and the `default` branch is never taken |
| `Types.SwitchCase` | src/store/store.tsx:24-130 | the switch selects a case exactly when the tag is one of the eleven case labels; every other string falls to the `default` branch |
| `Types.NameInjective` | src/store/types.ts:48-62 | two tags have the same string value if and only if they are the same tag |
| `Types.ActionUnionShape` | src/store/types.ts:64-75 | exactly WEBCAM_START_FAILURE, MODELS_LOAD_FAILURE and DETECTION_FAILURE carry a message, exactly DETECTION_SUCCESS carries faces, and each action belongs to exactly one slice's group |
| `Store.InitialStateIdle` | src/store/store.tsx:5-21 | the initial state has every flag false, no error and no faces; it satisfies both flag invariants, lets the toggle start the webcam and the loader start a load, and processes no frame; after a load start and success a frame may be processed |
| `Store.Run` | src/store/store.tsx:144 | dispatching a run in order keeps slice locality: a run of model actions leaves webcam and detection unchanged, a run without model actions leaves the models unchanged, a run of detection actions leaves webcam and models unchanged |
| `Store.Reduce` | src/store/store.tsx:23-131 | slice locality: model actions leave webcam and detection unchanged; detection actions leave webcam and models unchanged; webcam actions leave models unchanged and detection unchanged, except that WEBCAM_STOP empties the face list and keeps the rest of detection |
| `Store.WebcamStartEffect` | src/store/store.tsx:25-33 | WEBCAM_START sets `isLoading`, clears the error and keeps `isActive` |
| `Store.WebcamStartOutcomes` | src/store/store.tsx:34-51 | WEBCAM_START_SUCCESS gives webcam {active, not loading, no error}; WEBCAM_START_FAILURE(m) gives {inactive, not loading, error m} |
| `Store.WebcamStopEffect` | src/store/store.tsx:52-64 | WEBCAM_STOP gives an idle webcam and an empty face list, and keeps `isProcessing`, the detection error and the whole models slice |
| `Store.ModelsLoadEffects` | src/store/store.tsx:65-91 | MODELS_LOAD_START sets loading, clears the error and keeps `isLoaded`; SUCCESS gives {loaded, not loading, no error}; FAILURE(m) gives {not loaded, not loading, error m} |
| `Store.DetectionEffects` | src/store/store.tsx:92-118 | DETECTION_START sets processing and clears the error keeping the faces; SUCCESS(fs) gives exactly {fs, not processing, no error}; FAILURE(m) keeps the faces and gives {not processing, error m} |
| `Store.DetectionClearEffect` | src/store/store.tsx:119-127 | DETECTION_CLEAR makes the detection slice equal to the initial one |
| `Store.ReduceIdempotent` | src/store/store.tsx:23-131 | dispatching any action twice in a row gives the same state as dispatching it once (covers MODELS_LOAD_SUCCESS, DETECTION_CLEAR and WEBCAM_STOP) |
| `Store.FacesAfter` | src/store/store.tsx:52-127 | the face list after an action is the payload of DETECTION_SUCCESS, empty after WEBCAM_STOP or DETECTION_CLEAR, and unchanged after any other action |
| `Store.LoadedAfter` | src/store/store.tsx:74-91 | models are loaded after an action if and only if it is a load success, or they were loaded and it is not a load failure |
| `Store.EndToEndScenario` | src/store/store.tsx:5-64 | from the initial state, start, start success, detection start, detection success with one face, stop ends with the webcam inactive, no faces and the models slice untouched |
| `Store.StaleResultApplied` | src/pages/Index.tsx:22-24 | from any state, DETECTION_START, WEBCAM_STOP, DETECTION_SUCCESS([f]) ends with the webcam stopped and idle while the detection slice holds exactly [f], not processing, no error: the late result is not discarded (store.tsx:101-109 sets the faces unconditionally) |
| `Store.ControlsAllows` | src/components/Controls.tsx:11-17 | keeps only the `isActive` half of the toggle's guard, so it constrains only WEBCAM_START; from a state where `isActive` and `isLoading` are not both set, one action keeps that so if and only if the toggle allows it (it is not WEBCAM_START on an active webcam) |
| `Store.WebcamExclusiveUnderControls` | src/components/Controls.tsx:11-17 | when WEBCAM_START is only dispatched while inactive, as the toggle does, the two webcam flags are never both set along any run |
| `Store.WebcamBothFlagsReachable` | src/store/store.tsx:25-42 | without that discipline, start, start success, start reaches a webcam that is both active and loading |
| `Store.LoadedStaysLoaded` | src/store/store.tsx:74-91 | loaded models stay loaded along any run that contains no load failure |
| `Store.LoadedAfterLastSuccess` | src/store/store.tsx:74-91 | after a load success followed by no load failure, the models are loaded |
| `Store.LoadedCanBeLost` | src/store/store.tsx:83-91 | a load failure after a load success leaves the models not loaded |
| `Store.LoaderAllows` | src/components/ModelLoader.tsx:14-31 | the loader guards only the models actions: every other action is allowed, a start is allowed if and only if models are neither loaded nor loading, and a success or failure if and only if a load is running; an action the loader allows keeps `isLoaded` and `isLoading` from both being set, and a load failure it allows never hits loaded models |
| `Store.LoadedTerminalUnderLoader` | src/components/ModelLoader.tsx:14-31 | when loads start only while neither loaded nor loading and outcomes arrive only while loading, loaded and loading are never both set, and loaded models stay loaded |
| `Store.MayProcessFrame` | src/pages/Index.tsx:17-19 | a frame is processed if and only if the models are loaded and no detection is in flight (frames arriving otherwise are dropped) |
| `Store.DetectionCycle` | src/pages/Index.tsx:16-31 | from a state where a frame may be processed, start then success sets detection to exactly {faces, idle, no error}; start then failure keeps the old faces with the error; neither touches webcam or models; while processing no further frame may be processed, and after either outcome the next frame may be |
| `FaceOverlay.TopOf` | src/components/FaceOverlay.tsx:59-67 | the scan's maximum is never below its starting value 0 and never below the value just visited |
| `FaceOverlay.TopOfBounds` | src/components/FaceOverlay.tsx:59-67 | the scan's maximum is at least every value it visited |
| `FaceOverlay.TopOfIsFirstMax` | src/components/FaceOverlay.tsx:58-67 | the scan's maximum is at least 0 and at least every value; with no positive value the label is "" and the maximum 0; otherwise the result is the entry at the first position of the maximum |
| `FaceOverlay.FirstMaxUnique` | src/components/FaceOverlay.tsx:62-67 | the first position of the maximum is unique, so the characterisation determines the scan's result |
| `FaceOverlay.TiesKeepEarliest` | src/components/FaceOverlay.tsx:62-67 | with distinct labels, when two entries tie at the positive maximum the later one is never chosen (the comparison is strict) |
| `FaceOverlay.TopEmotion` | src/components/FaceOverlay.tsx:58-67 | the loop returns `TopOf` of the entries: the label and value of the first positive maximum, or "" and 0 when no value is positive, with the value bounding every entry |
| `FaceOverlay.UpperCase` | src/components/FaceOverlay.tsx:69 | an ASCII lower-case letter becomes the corresponding upper-case letter; every other character is unchanged |
| `FaceOverlay.Capitalize` | src/components/FaceOverlay.tsx:69 | the result has the same length, its first character upper-cased and the rest unchanged; "" stays "" |
| `FaceOverlay.CapitalizeIdempotent` | src/components/FaceOverlay.tsx:69 | capitalising twice is capitalising once |
| `FaceOverlay.CapitalizeCons` | src/components/FaceOverlay.tsx:69 | capitalising a non-empty string upper-cases its first character and keeps the rest |
| `FaceOverlay.CapitalizedLabels` | src/components/FaceOverlay.tsx:69 | the seven labels capitalise to Neutral, Happy, Sad, Angry, Fearful, Disgusted, Surprised |
| `FaceOverlay.GetTopEmotion` | src/components/FaceOverlay.tsx:58-70 | the caption is the capitalised label of the first positive maximum (or "" with maximum 0 when none is positive) |
| `FaceOverlay.CaptionOfExpressions` | src/components/FaceOverlay.tsx:35-39 | for an expression record the chosen label is "" or one of the seven labels; the chosen value is at least every one of the seven probabilities and equals the chosen label's own probability; the label is "" if and only if no probability is positive |
| `FaceOverlay.LandmarkDot` | src/components/FaceOverlay.tsx:46-49 | adding back the box origin plus 2 on each axis recovers the landmark's native point |
| `FaceOverlay.Dots` | src/components/FaceOverlay.tsx:42-51 | a face without landmarks gets no dots; otherwise one dot per landmark position, each recovering its position when the box origin plus 2 is added back |
| `FaceOverlay.ShowsGenderAge` | src/components/FaceOverlay.tsx:30 | the gender/age line is shown if and only if the gender is present and non-empty and the age is present and non-zero (both truthy) |
| `FaceOverlay.MarkerOf` | src/components/FaceOverlay.tsx:15-53 | a face's marker is keyed by its id, sits at the face's native box, shows the gender/age line if and only if gender is non-empty and age non-zero, renders the stray text "0" exactly when gender is non-empty and age is 0 (never together with the line), has an emotion caption exactly when expressions are present, and carries the face's dots |
| `FaceOverlay.StrayAgeText` | src/components/FaceOverlay.tsx:30 | `gender && age` short-circuits to a rendered "0" exactly when the gender is non-empty and the age is 0; the line and this text are exclusive, and one of them appears exactly when the gender is non-empty and an age is present |
| `Store.ToggleWebcam` | src/components/Controls.tsx:11-27 | one press dispatches nothing while loading (button disabled), WEBCAM_STOP exactly while active and WEBCAM_START exactly while inactive, and every press is one `ControlsAllows` admits |
| `FaceOverlay.Overlay` | src/components/FaceOverlay.tsx:9-54 | the overlay renders nothing if and only if there are no faces; otherwise marker i is exactly `MarkerOf(faces[i])`, so each is keyed by id and placed at the native box with no scaling or offset |

## Left out

- The React context, provider and `useStore` hook (src/store/store.tsx:133-154) are framework glue around the reducer; `Run` stands for the sequence of dispatches.
- src/components/Webcam.tsx is platform I/O (stream acquisition, track stopping, video events). Its own WEBCAM_START dispatch fires only once the webcam is already active, so it is outside the toggle discipline that `Store.WebcamExclusiveUnderControls` assumes.
- src/components/ImageUploader.tsx, src/components/FaceDetails.tsx and all markup and styling are UI. src/services/faceDetectionService.ts wraps a detection library whose behaviour is not visible. Faces arrive as a parameter.
- The awaits in src/pages/Index.tsx:16-31 and src/components/ModelLoader.tsx:14-31 are not modelled. Only their guards are modelled, as the predicates `MayProcessFrame` and `LoaderAllows`.
- Numbers are exact `real`s: floating-point rounding, NaN and infinities are not modelled. A NaN age would be falsy and render the text "NaN" in place of the gender/age line. This model has no NaN, so it treats any non-zero age as shown.
- The order of `Object.entries` is taken to be the declaration order of the expression record. The real order comes from the object the detection library builds.
- FaceOverlay.GetTopEmotion: returns the capitalised label and the maximum, not the text `Label (NN%)`. The `Math.round(maxValue * 100)` percentage formatting is floating-point display formatting.
- FaceOverlay.UpperCase: covers ASCII letters only. The host's full Unicode upper-casing (which can change a string's length) is not modelled. The seven expression labels are ASCII.
- Store.ControlsAllows: keeps only the `isActive` half of the toggle's guard. It drops the button's `disabled={state.webcam.isLoading}` (src/components/Controls.tsx:27) and the STOP-only-while-active branch. The discipline is therefore looser than the real button, so `WebcamExclusiveUnderControls` covers more runs than the button can produce. `ToggleWebcam` models the full button and stays within it.
- FaceOverlay.MarkerOf: the gender/age line's text (gender probability percentage, age in years) is not modelled, only whether it is shown. The stray "0" that `gender && age` renders for a zero age is modelled, as `strayText`. The stray "NaN" it would render for a NaN age is not, because the model has no NaN.
- The code has no webcam error classification table, no retry policy and no scale/offset overlay transform, so none is modelled.
