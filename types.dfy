/** The values the application state works over: detected faces, the three
    state slices, the action tags and the closed union of actions.
    Numbers of the host language are modelled as `real` (exact arithmetic). */
module Types {

  /** A nullable or optional field: `None` stands for `null` / absent. */
  datatype Option<+T> = None | Some(value: T)

  datatype Point = Point(x: real, y: real)

  /** Axis-aligned rectangle in the source media's native pixel coordinates. */
  datatype Box = Box(x: real, y: real, width: real, height: real)

  datatype Landmarks = Landmarks(positions: seq<Point>, jawOutline: seq<Point>)

  /** The detector's rectangle, nested as `detection.box` in the record. */
  datatype Detection = Detection(box: Box)

  /** The seven expression probabilities reported for one face. */
  datatype Expressions = Expressions(
    neutral: real,
    happy: real,
    sad: real,
    angry: real,
    fearful: real,
    disgusted: real,
    surprised: real)

  /** The fixed label set of `Expressions`, in declaration order. */
  const ExpressionLabels: seq<string> :=
    ["neutral", "happy", "sad", "angry", "fearful", "disgusted", "surprised"]

  /** One (key, value) pair of an expression record, as enumerated by the host. */
  datatype Entry = Entry(emotion: string, value: real)

  /** The key/value pairs of an expression record, in declaration order:
      exactly one entry per label of `ExpressionLabels`. */
  function Entries(e: Expressions): (r: seq<Entry>)
    ensures |r| == |ExpressionLabels| == 7
    ensures forall i :: 0 <= i < |r| ==> r[i].emotion == ExpressionLabels[i]
    ensures forall i, j :: 0 <= i < j < |r| ==> r[i].emotion != r[j].emotion
    ensures r[0].value == e.neutral && r[1].value == e.happy && r[2].value == e.sad
    ensures r[3].value == e.angry && r[4].value == e.fearful
    ensures r[5].value == e.disgusted && r[6].value == e.surprised
  {
    [Entry("neutral", e.neutral), Entry("happy", e.happy), Entry("sad", e.sad),
     Entry("angry", e.angry), Entry("fearful", e.fearful),
     Entry("disgusted", e.disgusted), Entry("surprised", e.surprised)]
  }

  /** One detected face: an id and a box are always present, everything else
      is optional. */
  datatype FaceDetection = FaceDetection(
    id: string,
    landmarks: Option<Landmarks>,
    detection: Detection,
    age: Option<real>,
    gender: Option<string>,
    genderProbability: Option<real>,
    expressions: Option<Expressions>)

  datatype WebcamState = WebcamState(isActive: bool, isLoading: bool, error: Option<string>)

  datatype DetectionState = DetectionState(faces: seq<FaceDetection>, isProcessing: bool, error: Option<string>)

  datatype ModelsState = ModelsState(isLoaded: bool, isLoading: bool, error: Option<string>)

  /** The whole application state: exactly three slices. */
  datatype AppState = AppState(webcam: WebcamState, detection: DetectionState, models: ModelsState)

  /** The action tags; each tag's string value is its own name (`Name`). */
  datatype ActionType =
    | WEBCAM_START
    | WEBCAM_START_SUCCESS
    | WEBCAM_START_FAILURE
    | WEBCAM_STOP
    | MODELS_LOAD_START
    | MODELS_LOAD_SUCCESS
    | MODELS_LOAD_FAILURE
    | DETECTION_START
    | DETECTION_SUCCESS
    | DETECTION_FAILURE
    | DETECTION_CLEAR

  /** Every tag, each once. */
  const AllActionTypes: seq<ActionType> :=
    [WEBCAM_START, WEBCAM_START_SUCCESS, WEBCAM_START_FAILURE, WEBCAM_STOP,
     MODELS_LOAD_START, MODELS_LOAD_SUCCESS, MODELS_LOAD_FAILURE,
     DETECTION_START, DETECTION_SUCCESS, DETECTION_FAILURE, DETECTION_CLEAR]

  /** The eleven case labels of the reducer's `switch`. */
  const CaseLabels: set<string> :=
    {"WEBCAM_START", "WEBCAM_START_SUCCESS", "WEBCAM_START_FAILURE", "WEBCAM_STOP",
     "MODELS_LOAD_START", "MODELS_LOAD_SUCCESS", "MODELS_LOAD_FAILURE",
     "DETECTION_START", "DETECTION_SUCCESS", "DETECTION_FAILURE", "DETECTION_CLEAR"}

  /** The string value of a tag: one of the case labels, and the one whose
      case selects that same tag. */
  function Name(t: ActionType): (r: string)
    ensures r in CaseLabels
    ensures SwitchCase(r) == Some(t)
  {
    match t
    case WEBCAM_START => "WEBCAM_START"
    case WEBCAM_START_SUCCESS => "WEBCAM_START_SUCCESS"
    case WEBCAM_START_FAILURE => "WEBCAM_START_FAILURE"
    case WEBCAM_STOP => "WEBCAM_STOP"
    case MODELS_LOAD_START => "MODELS_LOAD_START"
    case MODELS_LOAD_SUCCESS => "MODELS_LOAD_SUCCESS"
    case MODELS_LOAD_FAILURE => "MODELS_LOAD_FAILURE"
    case DETECTION_START => "DETECTION_START"
    case DETECTION_SUCCESS => "DETECTION_SUCCESS"
    case DETECTION_FAILURE => "DETECTION_FAILURE"
    case DETECTION_CLEAR => "DETECTION_CLEAR"
  }

  /** The reducer's `switch` on the string tag: the case label it selects, or
      `None` for the `default` branch. */
  function SwitchCase(tag: string): (r: Option<ActionType>)
    ensures r.Some? <==> tag in CaseLabels
  {
    if tag == "WEBCAM_START" then Some(WEBCAM_START)
    else if tag == "WEBCAM_START_SUCCESS" then Some(WEBCAM_START_SUCCESS)
    else if tag == "WEBCAM_START_FAILURE" then Some(WEBCAM_START_FAILURE)
    else if tag == "WEBCAM_STOP" then Some(WEBCAM_STOP)
    else if tag == "MODELS_LOAD_START" then Some(MODELS_LOAD_START)
    else if tag == "MODELS_LOAD_SUCCESS" then Some(MODELS_LOAD_SUCCESS)
    else if tag == "MODELS_LOAD_FAILURE" then Some(MODELS_LOAD_FAILURE)
    else if tag == "DETECTION_START" then Some(DETECTION_START)
    else if tag == "DETECTION_SUCCESS" then Some(DETECTION_SUCCESS)
    else if tag == "DETECTION_FAILURE" then Some(DETECTION_FAILURE)
    else if tag == "DETECTION_CLEAR" then Some(DETECTION_CLEAR)
    else None
  }

  /** The closed union of actions. Exactly three variants carry an error
      message and one carries a list of faces. */
  datatype Action =
    | WebcamStart
    | WebcamStartSuccess
    | WebcamStartFailure(message: string)
    | WebcamStop
    | ModelsLoadStart
    | ModelsLoadSuccess
    | ModelsLoadFailure(message: string)
    | DetectionStart
    | DetectionSuccess(faces: seq<FaceDetection>)
    | DetectionFailure(message: string)
    | DetectionClear
  {
    /** The `type` field of the action. */
    function Type(): ActionType {
      match this
      case WebcamStart => WEBCAM_START
      case WebcamStartSuccess => WEBCAM_START_SUCCESS
      case WebcamStartFailure(_) => WEBCAM_START_FAILURE
      case WebcamStop => WEBCAM_STOP
      case ModelsLoadStart => MODELS_LOAD_START
      case ModelsLoadSuccess => MODELS_LOAD_SUCCESS
      case ModelsLoadFailure(_) => MODELS_LOAD_FAILURE
      case DetectionStart => DETECTION_START
      case DetectionSuccess(_) => DETECTION_SUCCESS
      case DetectionFailure(_) => DETECTION_FAILURE
      case DetectionClear => DETECTION_CLEAR
    }

    predicate IsWebcamAction() {
      WebcamStart? || WebcamStartSuccess? || WebcamStartFailure? || WebcamStop?
    }

    predicate IsModelsAction() {
      ModelsLoadStart? || ModelsLoadSuccess? || ModelsLoadFailure?
    }

    predicate IsDetectionAction() {
      DetectionStart? || DetectionSuccess? || DetectionFailure? || DetectionClear?
    }

    /** True of the variants whose payload is an error message. */
    predicate CarriesMessage() {
      WebcamStartFailure? || ModelsLoadFailure? || DetectionFailure?
    }
  }

  /** One representative action of each tag (payloads chosen arbitrarily). */
  function ActionOfType(t: ActionType, message: string, faces: seq<FaceDetection>): (a: Action)
    ensures a.Type() == t
    ensures a.CarriesMessage() ==> a.message == message
    ensures a.DetectionSuccess? ==> a.faces == faces
  {
    match t
    case WEBCAM_START => WebcamStart
    case WEBCAM_START_SUCCESS => WebcamStartSuccess
    case WEBCAM_START_FAILURE => WebcamStartFailure(message)
    case WEBCAM_STOP => WebcamStop
    case MODELS_LOAD_START => ModelsLoadStart
    case MODELS_LOAD_SUCCESS => ModelsLoadSuccess
    case MODELS_LOAD_FAILURE => ModelsLoadFailure(message)
    case DETECTION_START => DetectionStart
    case DETECTION_SUCCESS => DetectionSuccess(faces)
    case DETECTION_FAILURE => DetectionFailure(message)
    case DETECTION_CLEAR => DetectionClear
  }

  /** There are exactly eleven tags, each listed once. */
  lemma ElevenActionTypes(t: ActionType)
    ensures |AllActionTypes| == 11
    ensures t in AllActionTypes
    ensures forall i, j :: 0 <= i < j < |AllActionTypes| ==> AllActionTypes[i] != AllActionTypes[j]
  {
  }

  /** Distinct tags have distinct strings. */
  lemma NameInjective(t1: ActionType, t2: ActionType)
    ensures Name(t1) == Name(t2) <==> t1 == t2
  {
  }

  /** Only the three failure variants carry a message, and every action lies
      in exactly one slice's group. */
  lemma ActionUnionShape(a: Action)
    ensures a.CarriesMessage() <==> a.Type() in {WEBCAM_START_FAILURE, MODELS_LOAD_FAILURE, DETECTION_FAILURE}
    ensures a.DetectionSuccess? <==> a.Type() == DETECTION_SUCCESS
    ensures a.IsWebcamAction() <==> !a.IsModelsAction() && !a.IsDetectionAction()
    ensures !(a.IsModelsAction() && a.IsDetectionAction())
  {
  }
}
