/** The application store: the initial state, the pure reducer over the
    three slices, runs of dispatched actions, and the dispatch discipline
    that the components calling the store follow. */
module Store {
  import opened Types

  const IdleWebcam: WebcamState := WebcamState(false, false, None)
  const IdleDetection: DetectionState := DetectionState([], false, None)
  const UnloadedModels: ModelsState := ModelsState(false, false, None)

  /** The state the store starts in: every slice idle, no faces, no errors. */
  const InitialState: AppState := AppState(IdleWebcam, IdleDetection, UnloadedModels)

  /** The reducer. Each action rewrites only its own slice, except that
      stopping the webcam also empties the face list. */
  function Reduce(s: AppState, a: Action): (r: AppState)
    ensures a.IsModelsAction() ==> r.webcam == s.webcam && r.detection == s.detection
    ensures a.IsDetectionAction() ==> r.webcam == s.webcam && r.models == s.models
    ensures a.IsWebcamAction() ==> r.models == s.models
    ensures a.IsWebcamAction() && !a.WebcamStop? ==> r.detection == s.detection
    ensures a.WebcamStop? ==> r.detection == s.detection.(faces := [])
  {
    match a
    case WebcamStart =>
      s.(webcam := s.webcam.(isLoading := true, error := None))
    case WebcamStartSuccess =>
      s.(webcam := WebcamState(true, false, None))
    case WebcamStartFailure(m) =>
      s.(webcam := WebcamState(false, false, Some(m)))
    case WebcamStop =>
      s.(webcam := WebcamState(false, false, None),
         detection := s.detection.(faces := []))
    case ModelsLoadStart =>
      s.(models := s.models.(isLoading := true, error := None))
    case ModelsLoadSuccess =>
      s.(models := ModelsState(true, false, None))
    case ModelsLoadFailure(m) =>
      s.(models := ModelsState(false, false, Some(m)))
    case DetectionStart =>
      s.(detection := s.detection.(isProcessing := true, error := None))
    case DetectionSuccess(fs) =>
      s.(detection := DetectionState(fs, false, None))
    case DetectionFailure(m) =>
      s.(detection := s.detection.(isProcessing := false, error := Some(m)))
    case DetectionClear =>
      s.(detection := DetectionState([], false, None))
  }

  /** The state after dispatching `trace` in order, starting from `s`.
      Slice locality carries over to runs: a run of model actions touches only
      the models, a run without model actions leaves the models alone, and a
      run of detection actions touches only the detection slice. */
  function Run(s: AppState, trace: seq<Action>): (r: AppState)
    ensures (forall i :: 0 <= i < |trace| ==> trace[i].IsModelsAction()) ==>
      r.webcam == s.webcam && r.detection == s.detection
    ensures (forall i :: 0 <= i < |trace| ==> !trace[i].IsModelsAction()) ==> r.models == s.models
    ensures (forall i :: 0 <= i < |trace| ==> trace[i].IsDetectionAction()) ==>
      r.webcam == s.webcam && r.models == s.models
    decreases |trace|
  {
    if trace == [] then s else Run(Reduce(s, trace[0]), trace[1..])
  }

  /** The initial state is idle in every slice and satisfies both flag
      invariants; the toggle may start the webcam and the loader may start a
      load, but no frame is processed until the models are loaded. */
  lemma InitialStateIdle()
    ensures !InitialState.webcam.isActive && !InitialState.webcam.isLoading && InitialState.webcam.error.None?
    ensures InitialState.detection.faces == [] && !InitialState.detection.isProcessing
    ensures InitialState.detection.error.None?
    ensures !InitialState.models.isLoaded && !InitialState.models.isLoading && InitialState.models.error.None?
    ensures WebcamExclusive(InitialState) && ModelsExclusive(InitialState)
    ensures ControlsAllows(InitialState, WebcamStart) && LoaderAllows(InitialState, ModelsLoadStart)
    ensures !MayProcessFrame(InitialState)
    ensures MayProcessFrame(Run(InitialState, [ModelsLoadStart, ModelsLoadSuccess]))
  {
  }

  /** Dispatching `a` first and then `trace` is running `Reduce(s, a)` on `trace`. */
  lemma RunCons(s: AppState, a: Action, trace: seq<Action>)
    ensures Run(s, [a] + trace) == Run(Reduce(s, a), trace)
  {
    assert ([a] + trace)[1..] == trace;
  }

  // ---------------------------------------------------------------------
  // What each action does

  lemma WebcamStartEffect(s: AppState)
    ensures Reduce(s, WebcamStart).webcam == WebcamState(s.webcam.isActive, true, None)
  {
  }

  lemma WebcamStartOutcomes(s: AppState, m: string)
    ensures Reduce(s, WebcamStartSuccess).webcam == WebcamState(true, false, None)
    ensures Reduce(s, WebcamStartFailure(m)).webcam == WebcamState(false, false, Some(m))
  {
  }

  /** Stopping resets the webcam, empties the faces and keeps everything else. */
  lemma WebcamStopEffect(s: AppState)
    ensures Reduce(s, WebcamStop).webcam == IdleWebcam
    ensures Reduce(s, WebcamStop).detection.faces == []
    ensures Reduce(s, WebcamStop).detection.isProcessing == s.detection.isProcessing
    ensures Reduce(s, WebcamStop).detection.error == s.detection.error
    ensures Reduce(s, WebcamStop).models == s.models
  {
  }

  lemma ModelsLoadEffects(s: AppState, m: string)
    ensures Reduce(s, ModelsLoadStart).models == ModelsState(s.models.isLoaded, true, None)
    ensures Reduce(s, ModelsLoadSuccess).models == ModelsState(true, false, None)
    ensures Reduce(s, ModelsLoadFailure(m)).models == ModelsState(false, false, Some(m))
  {
  }

  lemma DetectionEffects(s: AppState, fs: seq<FaceDetection>, m: string)
    ensures Reduce(s, DetectionStart).detection == DetectionState(s.detection.faces, true, None)
    ensures Reduce(s, DetectionSuccess(fs)).detection == DetectionState(fs, false, None)
    ensures Reduce(s, DetectionFailure(m)).detection == DetectionState(s.detection.faces, false, Some(m))
  {
  }

  /** Clearing puts the detection slice back to its initial value. */
  lemma DetectionClearEffect(s: AppState)
    ensures Reduce(s, DetectionClear).detection == InitialState.detection
  {
  }

  /** Every action sets the fields it touches to values that do not depend on
      those fields, so dispatching the same action twice is the same as once. */
  lemma ReduceIdempotent(s: AppState, a: Action)
    ensures Reduce(Reduce(s, a), a) == Reduce(s, a)
  {
  }

  /** The face list after one action, stated for every action at once. */
  lemma FacesAfter(s: AppState, a: Action)
    ensures Reduce(s, a).detection.faces ==
      match a
      case DetectionSuccess(fs) => fs
      case WebcamStop => []
      case DetectionClear => []
      case _ => s.detection.faces
  {
  }

  /** Models are loaded after an action exactly when the action is a load
      success, or they were loaded before and the action is not a load failure. */
  lemma LoadedAfter(s: AppState, a: Action)
    ensures Reduce(s, a).models.isLoaded <==>
      a.ModelsLoadSuccess? || (s.models.isLoaded && !a.ModelsLoadFailure?)
  {
  }

  // ---------------------------------------------------------------------
  // Runs of actions

  lemma {:induction false} RunAppend(s: AppState, t1: seq<Action>, t2: seq<Action>)
    ensures Run(s, t1 + t2) == Run(Run(s, t1), t2)
    decreases |t1|
  {
    if t1 == [] {
      assert t1 + t2 == t2;
    } else {
      assert (t1 + t2)[1..] == t1[1..] + t2;
      RunAppend(Reduce(s, t1[0]), t1[1..], t2);
    }
  }

  /** From the initial state: start the webcam, detect one face, stop the
      webcam. The webcam ends inactive and the face list empty. */
  lemma EndToEndScenario(faceA: FaceDetection)
    ensures var r := Run(InitialState, [WebcamStart, WebcamStartSuccess, DetectionStart,
                                        DetectionSuccess([faceA]), WebcamStop]);
      !r.webcam.isActive && r.detection.faces == [] && r.models == InitialState.models
  {
    var t := [WebcamStart, WebcamStartSuccess, DetectionStart, DetectionSuccess([faceA]), WebcamStop];
    var s1 := Reduce(InitialState, WebcamStart);
    var s2 := Reduce(s1, WebcamStartSuccess);
    var s3 := Reduce(s2, DetectionStart);
    var s4 := Reduce(s3, DetectionSuccess([faceA]));
    var s5 := Reduce(s4, WebcamStop);
    assert t[1..][1..][1..][1..][1..] == [];
    assert Run(InitialState, t) == Run(s1, t[1..]) == Run(s2, t[1..][1..])
      == Run(s3, t[1..][1..][1..]) == Run(s4, t[1..][1..][1..][1..]) == Run(s5, []) == s5;
  }

  /** A detection result that arrives after the webcam was stopped is still
      applied: nothing checks the webcam after the detector returns, so the
      faces of a stopped webcam reappear. */
  lemma StaleResultApplied(s: AppState, f: FaceDetection)
    ensures var r := Run(s, [DetectionStart, WebcamStop, DetectionSuccess([f])]);
      !r.webcam.isActive && !r.webcam.isLoading &&
      r.detection == DetectionState([f], false, None)
  {
    var t := [DetectionStart, WebcamStop, DetectionSuccess([f])];
    var s1 := Reduce(s, DetectionStart);
    var s2 := Reduce(s1, WebcamStop);
    var s3 := Reduce(s2, DetectionSuccess([f]));
    assert t[1..][1..][1..] == [];
    assert Run(s, t) == Run(s1, t[1..]) == Run(s2, t[1..][1..]) == Run(s3, []) == s3;
  }

  // ---------------------------------------------------------------------
  // The webcam flags

  /** `isActive` and `isLoading` not both set. */
  predicate WebcamExclusive(s: AppState) {
    !(s.webcam.isActive && s.webcam.isLoading)
  }

  /** The `isActive` half of the toggle button's guard: WEBCAM_START only
      while the webcam is inactive; no other action is constrained. */
  predicate ControlsAllows(s: AppState, a: Action)
    ensures !a.WebcamStart? ==> ControlsAllows(s, a)
    ensures WebcamExclusive(s) ==> (ControlsAllows(s, a) <==> WebcamExclusive(Reduce(s, a)))
  {
    (a.WebcamStart? ==> !s.webcam.isActive)
  }

  /** What one press of the toggle button dispatches: nothing while the
      webcam is loading (the button is disabled), WEBCAM_STOP while it is
      active, WEBCAM_START otherwise. Every press is one `ControlsAllows`
      admits, so the invariant below covers the real button. */
  function ToggleWebcam(s: AppState): (r: Option<Action>)
    ensures r.None? <==> s.webcam.isLoading
    ensures r.Some? ==> (r.value.WebcamStop? <==> s.webcam.isActive)
    ensures r.Some? ==> (r.value.WebcamStart? <==> !s.webcam.isActive)
    ensures r.Some? ==> ControlsAllows(s, r.value)
  {
    if s.webcam.isLoading then None
    else if s.webcam.isActive then Some(WebcamStop)
    else Some(WebcamStart)
  }

  /** Every action of `trace` is dispatched in a state the toggle allows it in. */
  predicate ControlsDisciplined(s: AppState, trace: seq<Action>)
    decreases |trace|
  {
    trace == [] ||
    (ControlsAllows(s, trace[0]) && ControlsDisciplined(Reduce(s, trace[0]), trace[1..]))
  }

  /** Under the toggle's discipline, the flags stay exclusive along any run. */
  lemma {:induction false} WebcamExclusiveUnderControls(s: AppState, trace: seq<Action>)
    requires WebcamExclusive(s)
    requires ControlsDisciplined(s, trace)
    ensures WebcamExclusive(Run(s, trace))
    decreases |trace|
  {
    if trace != [] {
      WebcamExclusiveUnderControls(Reduce(s, trace[0]), trace[1..]);
    }
  }

  /** Without the discipline the flags can both be set: start, succeed, start. */
  lemma WebcamBothFlagsReachable()
    ensures var r := Run(InitialState, [WebcamStart, WebcamStartSuccess, WebcamStart]);
      r.webcam.isActive && r.webcam.isLoading
  {
  }

  // ---------------------------------------------------------------------
  // The models' lifecycle

  /** Loaded models stay loaded along any run without a load failure. */
  lemma {:induction false} LoadedStaysLoaded(s: AppState, trace: seq<Action>)
    requires s.models.isLoaded
    requires forall i :: 0 <= i < |trace| ==> !trace[i].ModelsLoadFailure?
    ensures Run(s, trace).models.isLoaded
    decreases |trace|
  {
    if trace != [] {
      LoadedStaysLoaded(Reduce(s, trace[0]), trace[1..]);
    }
  }

  /** After a load success with no load failure following it, models are loaded. */
  lemma {:induction false} LoadedAfterLastSuccess(s: AppState, trace: seq<Action>, k: nat)
    requires k < |trace| && trace[k].ModelsLoadSuccess?
    requires forall i :: k < i < |trace| ==> !trace[i].ModelsLoadFailure?
    ensures Run(s, trace).models.isLoaded
    decreases |trace|
  {
    var rest := trace[1..];
    assert forall i :: 0 <= i < |rest| ==> rest[i] == trace[i + 1];
    if k == 0 {
      LoadedStaysLoaded(Reduce(s, trace[0]), rest);
    } else {
      LoadedAfterLastSuccess(Reduce(s, trace[0]), rest, k - 1);
    }
  }

  /** Without a guard, a load failure after a success unloads the models. */
  lemma LoadedCanBeLost()
    ensures Run(InitialState, [ModelsLoadStart, ModelsLoadSuccess]).models.isLoaded
    ensures !Run(InitialState, [ModelsLoadStart, ModelsLoadSuccess, ModelsLoadFailure("x")]).models.isLoaded
  {
  }

  /** The model loader starts a load only when models are neither loaded nor
      loading, and reports success or failure only for the load it started. */
  predicate LoaderAllows(s: AppState, a: Action)
    ensures a.ModelsLoadFailure? && LoaderAllows(s, a) && ModelsExclusive(s) ==> !s.models.isLoaded
    ensures LoaderAllows(s, a) && ModelsExclusive(s) ==> ModelsExclusive(Reduce(s, a))
    ensures !a.IsModelsAction() ==> LoaderAllows(s, a)
    ensures a.ModelsLoadStart? && !s.models.isLoaded && !s.models.isLoading ==> LoaderAllows(s, a)
    ensures (a.ModelsLoadSuccess? || a.ModelsLoadFailure?) && s.models.isLoading ==> LoaderAllows(s, a)
    ensures a.ModelsLoadStart? && LoaderAllows(s, a) ==> !s.models.isLoaded && !s.models.isLoading
    ensures (a.ModelsLoadSuccess? || a.ModelsLoadFailure?) && LoaderAllows(s, a) ==> s.models.isLoading
  {
    && (a.ModelsLoadStart? ==> !s.models.isLoaded && !s.models.isLoading)
    && (a.ModelsLoadSuccess? || a.ModelsLoadFailure? ==> s.models.isLoading)
  }

  predicate LoaderDisciplined(s: AppState, trace: seq<Action>)
    decreases |trace|
  {
    trace == [] ||
    (LoaderAllows(s, trace[0]) && LoaderDisciplined(Reduce(s, trace[0]), trace[1..]))
  }

  /** `isLoaded` and `isLoading` not both set. */
  predicate ModelsExclusive(s: AppState) {
    !(s.models.isLoaded && s.models.isLoading)
  }

  /** Under the loader's discipline the models flags stay exclusive, and once
      loaded the models stay loaded. */
  lemma {:induction false} LoadedTerminalUnderLoader(s: AppState, trace: seq<Action>)
    requires ModelsExclusive(s)
    requires LoaderDisciplined(s, trace)
    ensures ModelsExclusive(Run(s, trace))
    ensures s.models.isLoaded ==> Run(s, trace).models.isLoaded
    decreases |trace|
  {
    if trace != [] {
      LoadedTerminalUnderLoader(Reduce(s, trace[0]), trace[1..]);
    }
  }

  // ---------------------------------------------------------------------
  // Detection runs

  /** A video frame is sent to the detector only when the models are loaded
      and no detection is in flight. */
  predicate MayProcessFrame(s: AppState)
    ensures MayProcessFrame(s) ==> s.models.isLoaded
    ensures s.detection.isProcessing ==> !MayProcessFrame(s)
    ensures s.models.isLoaded && !s.detection.isProcessing ==> MayProcessFrame(s)
  {
    s.models.isLoaded && !s.detection.isProcessing
  }

  /** A detection cycle that succeeds replaces the faces and leaves the other
      slices alone; one that fails keeps the previous faces. */
  lemma DetectionCycle(s: AppState, fs: seq<FaceDetection>, m: string)
    requires MayProcessFrame(s)
    ensures var r := Run(s, [DetectionStart, DetectionSuccess(fs)]);
      r.detection == DetectionState(fs, false, None) && r.webcam == s.webcam && r.models == s.models
    ensures var r := Run(s, [DetectionStart, DetectionFailure(m)]);
      r.detection == DetectionState(s.detection.faces, false, Some(m)) &&
      r.webcam == s.webcam && r.models == s.models
    ensures MayProcessFrame(Run(s, [DetectionStart, DetectionSuccess(fs)]))
    ensures MayProcessFrame(Run(s, [DetectionStart, DetectionFailure(m)]))
    ensures !MayProcessFrame(Run(s, [DetectionStart]))
  {
    var s1 := Reduce(s, DetectionStart);
    RunCons(s1, DetectionSuccess(fs), []);
    RunCons(s1, DetectionFailure(m), []);
    RunCons(s, DetectionStart, [DetectionSuccess(fs)]);
    RunCons(s, DetectionStart, [DetectionFailure(m)]);
    RunCons(s, DetectionStart, []);
  }
}
