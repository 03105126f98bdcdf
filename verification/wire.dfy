/**
 * Values that travel between the three parties of a session: the backend,
 * the student page and the teacher dashboard. The backend writes them with
 * `send_json`, the pages read them with `JSON.parse`; here they are typed.
 */
module Wire {
  import opened Wrappers

  /** A clock reading in seconds. The wire carries ISO-8601 text. */
  type Time = real

  /**
   * The identity of something the environment hands out: a socket, a camera
   * stream, an interval timer. Only equality matters.
   */
  type Handle = nat

  /** The human-readable `message` an analysis may carry. */
  datatype Notice =
    | NoFace            // "No face detected in frame"
    | MultipleFaces     // "Multiple faces detected"
    | LookingAway(seconds: real)  // "Looking away for <seconds>s"
    | Confused          // "Student appears confused"
    | LandmarksUnclear  // "Face detected but landmarks unclear"

  /**
   * The analysis dictionary built by the analyzer for one frame. Keys that the
   * analyzer sets only on some paths (`message`, `gaze_away`,
   * `confusion_indicators`) and the two keys the endpoint stamps afterwards
   * (`student_id`, `timestamp`) are optional.
   */
  datatype Analysis = Analysis(
    faceCount: nat,
    faceDetected: bool,
    multipleFaces: bool,
    landmarksDetected: bool,
    status: string,
    alertType: Option<string>,
    confidence: real,
    gazeDirection: string,
    emotion: string,
    confusionScore: real,
    engagementLevel: string,
    message: Option<Notice>,
    gazeAway: Option<bool>,
    confusionIndicators: Option<seq<string>>,
    studentId: Option<string>,
    timestamp: Option<Time>)

  /**
   * One student's entry, as the backend's state snapshot writes it and as the
   * dashboard stores it. `latestAnalysis == None` is the empty object `{}`
   * the snapshot uses for a student with no analysis yet.
   */
  datatype StudentEntry = StudentEntry(
    studentId: Option<string>,
    latestAnalysis: Option<Analysis>,
    lastUpdate: Option<Time>)

  /** Every message the backend sends, to either kind of client. */
  datatype Message =
    | AnalysisResult(data: Analysis)
    | StudentUpdate(data: Analysis)
    | StudentDisconnected(studentId: string, at: Time)
    | InitialState(snapshot: map<string, StudentEntry>)
    | StateUpdate(snapshot: map<string, StudentEntry>)
    | Pong

  /** A message that reached the socket `to`. */
  datatype Delivery = Delivery(to: Handle, msg: Message)

  /** The connection status a page shows: 'disconnected', 'connected' or 'error'. */
  datatype ConnStatus = Disconnected | Connected | Error
}
