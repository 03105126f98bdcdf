# SmartSession session protocol in Dafny

SmartSession lets a teacher watch a class of students through their webcams.
Each student page streams a camera frame every 200 ms to the backend over a
websocket. The backend's video analyzer grades the frame (no face, several
faces, looking away, confused, happy or focused) and sends the analysis back
to the student. It also broadcasts the analysis to every connected teacher
dashboard, which keeps one card per student.

This project models the protocol between the three parties and proves what
each step does:

- `wire.dfy` (module `Wire`): the values that travel between the parties — the
  analysis record, a dashboard entry, the messages, and a delivery of a
  message to a socket.
- `analyzer.dfy` (module `Analyzer`): the discrete logic of the video analyzer.
  This covers the precedence of the frame verdicts, the per-student records,
  the gaze history bounded at 30 samples, the length of the current
  look-away, and the confusion-score aggregation over exact reals. The class
  `VideoAnalyzer` holds the two dictionaries the analyzer updates in place.
- `connections.dfy` (module `Connections`): the backend's registry of student
  and teacher sockets. Its two-loop broadcast prunes the teachers whose send
  failed.
- `server.dfy` (module `Server`): one iteration of the student and the teacher
  websocket loops. Every message sent is appended to an outbox. The iteration
  also covers the handlers that end a loop.
- `dashboard.dfy` (module `Dashboard`): the teacher page. It has:
  - the reducer that rebuilds the `students` map from messages;
  - the connection status callbacks;
  - the active and alert counts;
  - the colour and icon of a card;
  - the indicator labels.
- `portal.dfy` (module `Portal`): the student page as a state machine over its
  status, its single analysis slot and its three handles (camera stream,
  socket, interval timer). The transitions are functions. The class
  `StudentPortal` performs each transition as a method on fields.
- `session.dfy` (module `Session`): the parties together. The backend's outbox
  is delivered to a dashboard, and facts that only show across components are
  stated on whole runs. For example, a student who has left is still listed
  for a teacher who joins later.

Sockets, camera streams and timers are plain handles (`nat`). Whether a send
on a socket raises is given by a set `failing` of handles. The clock is a
parameter `now`. Decoding a frame and what the vision engine then reports are
given by an oracle `decode`, or directly as an `EngineOutput`.

Three behaviours of the code worth knowing:

- Any exception other than a disconnect ends the receive loop and removes the
  client, including malformed JSON.
- The pages' status takes the three values `disconnected`, `connected` and
  `error`.
- Stopping the student page a second time clears the interval, stops the
  tracks and closes the socket again, because the refs are never reset.

## Model

| member | source | states |
|---|---|---|
| Analyzer.AnalyzeGaze | backend/video_analyzer.py:232-248 | away holds iff the direction is not "center"; an iris position below 0.45 gives "up" and above 0.55 gives "down", overriding left/right; inside that band "left" iff the ratio is below 0.35 and "right" iff above 0.65 |
| Analyzer.SmileScore | backend/video_analyzer.py:265-268 | the score is at most 1, non-negative for a non-negative aspect ratio, and exceeds the 0.6 threshold iff the aspect ratio exceeds 0.21 |
| Analyzer.ConfusionScore | backend/video_analyzer.py:206-211 | the score lies in [0, 1] (in fact at most 0.96); it is 0 iff no indicator fired; three or more indicators always exceed the 0.6 threshold; a single indicator exceeds it iff it is brow furrowing or eye squinting |
| Analyzer.Collect | backend/video_analyzer.py:176-178 | one test appends its name and weight exactly when it fires |
| Analyzer.CollectCues | backend/video_analyzer.py:176-204 | the five tests yield the indicator names in test order, one weight per name, and the weights sum to those of the cues that fired |
| Analyzer.DetectConfusion | backend/video_analyzer.py:142-216 | the five tests, run one after another, collect exactly the names of the fired cues in order, and the aggregated score equals ConfusionScore |
| Analyzer.PushBounded | backend/video_analyzer.py:284-288 | appending to a deque with maxlen 30: never more than 30 samples, the new sample last, the length grows by one until the bound, and the samples before it are the most recent earlier samples in order |
| Analyzer.AwayRunStart | backend/video_analyzer.py:296-303 | every sample from the returned index on is away, and the sample just before it (if any) is not |
| Analyzer.AwayRunStartUnique | backend/video_analyzer.py:296-303 | the trailing run of away samples is determined by those two properties |
| Analyzer.AwayFor | backend/video_analyzer.py:290-305 | the look-away lasts 0 when the history is empty or its newest sample is not away, and is never negative when no sample lies in the future |
| Analyzer.LookingBackResets | backend/video_analyzer.py:290-305 | recording a sample in which the student looks at the screen resets the look-away to 0 |
| Analyzer.VerdictSpec | backend/video_analyzer.py:66-137 | the face flags follow the face count; the status is alert, warning or good, and alert iff the face count is not 1 or the student has looked away for over 4 s; no face and several faces alert before any landmark work; missing landmarks give "warning" with confidence 0.3; a long look-away alerts with "gaze_away" and skips confusion; otherwise confidence 0.85 and the indicators reported; confusion above 0.6 gives "warning", emotion and alert type "confused", the confused message and "struggling"; otherwise no alert and status "good", with emotion and engagement "happy"/"engaged" iff the smile exceeds 0.6 and "focused"/"focused" otherwise |
| Analyzer.VideoAnalyzer.constructor | backend/video_analyzer.py:41-47 | the analyzer starts with no student records and no histories |
| Analyzer.VideoAnalyzer.InitializeStudentState | backend/video_analyzer.py:271-278 | the student gets a fresh record stamped with the time and an empty history; other students are untouched |
| Analyzer.VideoAnalyzer.UpdateStudentState | backend/video_analyzer.py:280-282 | only the student's last update and latest analysis change |
| Analyzer.VideoAnalyzer.UpdateGazeHistory | backend/video_analyzer.py:284-288 | only the student's history changes, by a bounded push of the new sample |
| Analyzer.VideoAnalyzer.ContinuousGazeAwayDuration | backend/video_analyzer.py:290-305 | the backwards walk over the history returns AwayFor of the history |
| Analyzer.VideoAnalyzer.AnalyzeFrame | backend/video_analyzer.py:54-140 | a record is created on first sighting and never deleted; other students are untouched; an engine fault returns nothing after that creation; a gaze sample is pushed only with one face and landmarks; the result is the Verdict for the look-away measured after that push, and it is stored as the latest analysis |
| Analyzer.VideoAnalyzer.ReadLandmarks | backend/video_analyzer.py:94-132 | the one-face, landmarks-found branch pushes exactly one gaze sample and yields the Verdict for the resulting look-away |
| Analyzer.VideoAnalyzer.StampLatest | backend/main.py:69-71 | the stamp with the student id and the time is written into the analysis the analyzer stores, since both are the same dictionary |
| Analyzer.VideoAnalyzer.AllStudentsState | backend/video_analyzer.py:307-315 | one entry per student ever seen, departed students included, carrying that id, the stored analysis and the last update |
| Connections.PrunedNothing | backend/connection_manager.py:33-45 | when no send fails, the broadcast keeps every teacher |
| Connections.SentIsBroadcast | backend/connection_manager.py:36-41 | the sends of the first loop reach each teacher whose socket works exactly once and no other socket |
| Connections.ConnectionManager.constructor | backend/connection_manager.py:9-11 | both registries start empty |
| Connections.ConnectionManager.ConnectStudent | backend/connection_manager.py:13-16 | the id maps to the new socket, replacing an earlier one; the count grows by one only for a new id; teachers are untouched |
| Connections.ConnectionManager.DisconnectStudent | backend/connection_manager.py:18-21 | exactly that id is removed, whatever socket it had; an absent id is a no-op; teachers are untouched |
| Connections.ConnectionManager.ConnectTeacher | backend/connection_manager.py:23-26 | the id maps to the new socket, replacing an earlier one; students are untouched |
| Connections.ConnectionManager.DisconnectTeacher | backend/connection_manager.py:28-31 | exactly that id is removed; an absent id is a no-op; students are untouched |
| Connections.ConnectionManager.SendToAllTeachers | backend/connection_manager.py:36-41 | one send per teacher whose socket works, each to that teacher's socket; the failed teachers are collected; nothing is removed yet |
| Connections.ConnectionManager.BroadcastToTeachers | backend/connection_manager.py:33-45 | the teachers afterwards are exactly those whose send did not fail; every such teacher got the message once; students are untouched |
| Connections.ConnectionManager.DisconnectTeachers | backend/connection_manager.py:43-45 | removing the collected teachers leaves exactly the teachers whose socket works |
| Connections.ConnectionManager.SendToStudent | backend/connection_manager.py:47-53 | an absent id sends nothing and changes nothing; a failed send removes that student; otherwise one delivery to its socket |
| Connections.ConnectionManager.StudentIds | backend/connection_manager.py:61-62 | exactly the registered ids, each once, as many as the student count |
| Server.StripDataUrl | backend/main.py:64 | a frame without a comma is decoded whole; otherwise the payload is the text between the first comma and the next comma (or the end), and it has no comma |
| Server.StripDataUrlRoundTrip | backend/main.py:64 | `header,payload` with comma-free parts gives back `payload` |
| Server.Backend.constructor | backend/main.py:29-30 | one empty registry and one empty analyzer, nothing sent |
| Server.Backend.StudentConnects | backend/main.py:52-54 | the student is registered under its id |
| Server.Backend.StudentReceives | backend/main.py:57-102 | a disconnect removes the student and broadcasts `student_disconnected`; any other exception removes it and sends nothing; `ping` gets one `pong`; a decoded frame pushes the gaze sample as HistoryAfter says, stores the stamped Verdict and keeps every other student's record; every case but a decoded frame leaves the analyzer's records and gaze histories as they were; other types are ignored; sent messages are only ever appended |
| Server.Backend.StudentPings | backend/main.py:85-86 | exactly one `pong` to the student, or, if that send raises, the student is removed |
| Server.Backend.StudentLeaves | backend/main.py:88-98 | the student is removed and `student_disconnected` with its id and the time is broadcast to the teachers |
| Server.Backend.StudentSendsFrame | backend/main.py:62-83 | an undecodable payload ends the loop and removes the student; a non-image sends nothing and leaves the analyzer's records and gaze histories as they were; an image updates the student's gaze history as HistoryAfter says; an image's analysis is the analyzer's Verdict stamped with the id and the time, stored, sent to the student first and then to every working teacher; other students' records and histories are kept |
| Server.Backend.StudentFrameAnalysed | backend/main.py:68-83 | the loop ends iff the engine faults or the send to the student fails; the student's gaze history becomes HistoryAfter of the old one and the stored analysis is the Verdict for the frame, with its look-away time read from that history, stamped with the student's id and the time; when the loop goes on, the student gets it as `analysis_result` first and the teachers as `student_update`; records are only ever added and other students' records are kept |
| Server.LookingFrameDoesNotAlert | backend/video_analyzer.py:97-104 | a frame whose single face looks at the screen ends the look-away, so its Verdict over the history after the frame is not an alert |
| Server.Backend.AnalyseAndStamp | backend/main.py:69-71 | nothing iff the engine faults; otherwise the analyzer's Verdict for the frame stamped with the id and the time, which is also what the analyzer stores; the student's gaze history gains one sample exactly when one face's landmarks were read (HistoryAfter) and the Verdict's look-away time is read from that history; other students' records and histories are kept |
| Server.Backend.DeliverAnalysis | backend/main.py:73-81 | the student's send comes first; if it fails, the student is removed and no teacher hears anything |
| Server.Backend.TeacherConnects | backend/main.py:104-113 | the teacher is registered and its first message is `initial_state` carrying the whole analyzer state; a failure of that send leaves it registered |
| Server.Backend.AnswerTeacher | backend/main.py:120-127 | exactly one reply to the teacher, or, if that send raises, the teacher is removed |
| Server.Backend.TeacherReceives | backend/main.py:115-135 | `ping` gets a `pong`; `request_state` gets a `state_update`, not an `initial_state`; a disconnect or any exception removes only that teacher; students are never touched |
| Dashboard.JsKey | frontend/src/pages/TeacherDashboard.jsx:39 | an analysis carrying an id is stored under that id; the key is "undefined" iff the id is missing or is that very text |
| Dashboard.AnonymousUpdateOverwrites | frontend/src/pages/TeacherDashboard.jsx:39 | an update without an id overwrites the card of the student whose id is "undefined" |
| Dashboard.Reduce | frontend/src/pages/TeacherDashboard.jsx:30-52 | `initial_state` replaces the map; `student_update` upserts one entry from its data and keeps every other key; `student_disconnected` deletes exactly that id, and an absent id leaves the map as it was; any other type changes nothing |
| Dashboard.LastWriteWins | frontend/src/pages/TeacherDashboard.jsx:35-44 | after a run of updates each id holds its last update, and ids no update named are untouched |
| Dashboard.ThreeUpdates | frontend/src/pages/TeacherDashboard.jsx:35-44 | `[s1, s2, s1]` leaves exactly s1's second data and s2's data |
| Dashboard.InitialStateForgets | frontend/src/pages/TeacherDashboard.jsx:33-34 | nothing received before an `initial_state` survives it |
| Dashboard.UnhandledIgnored | frontend/src/pages/TeacherDashboard.jsx:30-52 | any run of `state_update`, `pong` and other unhandled messages leaves the map unchanged |
| Dashboard.DisconnectIdempotent | frontend/src/pages/TeacherDashboard.jsx:45-50 | removing a student twice is removing it once |
| Dashboard.ActiveCountMoves | frontend/src/pages/TeacherDashboard.jsx:94 | the active count (ActiveCount, one card per entry of the map) moves with each message: an update of a new id raises the active count by one and of a known id leaves it; a disconnect of a listed id lowers it by one and of an absent id leaves it; an `initial_state` sets it to the snapshot's size; other messages leave it |
| Dashboard.AlertingBounds | frontend/src/pages/TeacherDashboard.jsx:99 | the alerting ids are a subset of the entries, so no more than them; they are empty iff no entry alerts, and all of them iff every entry alerts |
| Dashboard.AlertCount | frontend/src/pages/TeacherDashboard.jsx:99 | the alert count never exceeds the active count; it is 0 iff no latest analysis is an alert, and equals the active count when all are |
| Dashboard.StatusColor | frontend/src/pages/TeacherDashboard.jsx:63-70 | good, warning and alert give success, warning and danger, each iff; anything else, undefined included, gives secondary |
| Dashboard.StatusIcon | frontend/src/pages/TeacherDashboard.jsx:72-79 | the icon is "?" iff the colour is secondary |
| Dashboard.IconFollowsColor | frontend/src/pages/TeacherDashboard.jsx:63-79 | two statuses share an icon iff they share a colour, so the three named icons are distinct |
| Dashboard.DangerIsAlert | frontend/src/pages/TeacherDashboard.jsx:120 | a card is coloured danger iff its entry is counted as an alert |
| Dashboard.IndicatorLabel | frontend/src/pages/TeacherDashboard.jsx:186 | the label has the same length, and only the first underscore becomes a space |
| Dashboard.LabelDropsOneUnderscore | frontend/src/pages/TeacherDashboard.jsx:186 | a label has one underscore fewer than its name when the name has any, so later underscores stay |
| Dashboard.IndicatorNames | backend/video_analyzer.py:176-204 | every indicator the analyzer reports is one of its five names |
| Dashboard.AnalyzerLabelsClean | frontend/src/pages/TeacherDashboard.jsx:184-188 | every indicator the analyzer can report is shown without an underscore |
| Dashboard.TeacherDashboard.Mount | frontend/src/pages/TeacherDashboard.jsx:9-24 | mounting opens one socket; the map is empty and the status 'disconnected' |
| Dashboard.TeacherDashboard.OnOpen | frontend/src/pages/TeacherDashboard.jsx:26-28 | the status becomes 'connected' and nothing else changes |
| Dashboard.TeacherDashboard.OnMessage | frontend/src/pages/TeacherDashboard.jsx:30-52 | the map becomes Reduce of the old map; the status never changes |
| Dashboard.TeacherDashboard.OnError | frontend/src/pages/TeacherDashboard.jsx:54-56 | the status becomes 'error' and nothing else changes |
| Dashboard.TeacherDashboard.OnClose | frontend/src/pages/TeacherDashboard.jsx:58-60 | the status becomes 'disconnected' and nothing else changes |
| Dashboard.TeacherDashboard.Unmount | frontend/src/pages/TeacherDashboard.jsx:15-19 | the socket in the ref, if any, is closed |
| Portal.Mounted | frontend/src/pages/StudentPortal.jsx:9-17 | the page starts disconnected, not streaming, with no analysis, no handles and no live timer |
| Portal.Started | frontend/src/pages/StudentPortal.jsx:25-64 | a refused camera sets status 'error' and changes nothing else; a granted one keeps a new stream and a new, not yet open socket in the refs, distinct from every live timer and from the previous socket; handles stay valid |
| Portal.Opened | frontend/src/pages/StudentPortal.jsx:39-43 | status 'connected', streaming, and a new live interval in the ref; handles stay valid |
| Portal.Received | frontend/src/pages/StudentPortal.jsx:45-50 | an `analysis_result` replaces the analysis slot; any other type changes nothing |
| Portal.Errored | frontend/src/pages/StudentPortal.jsx:52-54 | only the status changes, to 'error' |
| Portal.Closed | frontend/src/pages/StudentPortal.jsx:56-59 | 'disconnected' and not streaming, while the interval stays live and the camera is not stopped |
| Portal.Ticked | frontend/src/pages/StudentPortal.jsx:68-90 | a tick sends exactly one frame on the socket in the ref when video, canvas and an open socket are there, and otherwise changes nothing |
| Portal.Stopped | frontend/src/pages/StudentPortal.jsx:93-108 | from any state: 'disconnected', not streaming, the interval in the ref no longer live, and the clear, stop and close calls made for each set ref; the refs keep their handles |
| Portal.StopTwice | frontend/src/pages/StudentPortal.jsx:19-23 | a second stop (unmount after End Session) leaves the same state and repeats only the browser calls |
| Portal.NoFrameAfterStop | frontend/src/pages/StudentPortal.jsx:69 | after a stop no tick sends a frame |
| Portal.DeniedCameraStartsNothing | frontend/src/pages/StudentPortal.jsx:61-64 | a refused camera creates no socket, does not start streaming, and starts no timer |
| Portal.LastResultWins | frontend/src/pages/StudentPortal.jsx:45-50 | after any run of messages the slot holds the last `analysis_result`, or its old value if none came |
| Portal.IntervalSurvivesRestart | frontend/src/pages/StudentPortal.jsx:56-59 | after the server closes the socket and the student starts again, two intervals are live and both send on the new socket; End Session clears only the newer one |
| Portal.StatusColor | frontend/src/pages/StudentPortal.jsx:110-119 | no analysis gives tertiary; good, warning and alert give success, warning and danger, each iff; any other status gives tertiary |
| Portal.StudentPortal.constructor | frontend/src/pages/StudentPortal.jsx:9-17 | the component's state is Mounted |
| Portal.StudentPortal.StartStreaming | frontend/src/pages/StudentPortal.jsx:25-64 | the new state is Started of the old |
| Portal.StudentPortal.OnOpen | frontend/src/pages/StudentPortal.jsx:39-43 | the new state is Opened of the old |
| Portal.StudentPortal.StartSendingFrames | frontend/src/pages/StudentPortal.jsx:67-68 | a fresh timer goes into the ref and becomes live, and nothing else changes |
| Portal.StudentPortal.OnMessage | frontend/src/pages/StudentPortal.jsx:45-50 | the new state is Received of the old |
| Portal.StudentPortal.OnError | frontend/src/pages/StudentPortal.jsx:52-54 | the new state is Errored of the old |
| Portal.StudentPortal.OnClose | frontend/src/pages/StudentPortal.jsx:56-59 | the new state is Closed of the old |
| Portal.StudentPortal.Tick | frontend/src/pages/StudentPortal.jsx:68-90 | only a live timer ticks, and the new state is Ticked of the old |
| Portal.StudentPortal.StopStreaming | frontend/src/pages/StudentPortal.jsx:93-108 | the step-by-step release yields Stopped of the old state |
| Session.Inbox | backend/main.py:73-81 | the messages a socket receives are exactly those delivered to it |
| Session.DeliverTo | frontend/src/pages/TeacherDashboard.jsx:30-52 | a dashboard handling its socket's deliveries one by one ends with ReduceAll over them |
| Session.FrameWatchedByOne | backend/main.py:69-81 | with one working teacher, a frame yields exactly two deliveries: `analysis_result` to the student, then `student_update` to the teacher |
| Session.LeaveWatchedByOne | backend/main.py:88-102 | with one teacher, a disconnect sends it one `student_disconnected`; any other exception sends nothing |
| Session.VisitThenLeave | backend/video_analyzer.py:271-282 | after a student's frame and disconnect the student is unregistered, but the analyzer keeps its record and analysis |
| Session.TeacherJoins | backend/main.py:106-113 | a joining teacher's dashboard holds exactly the analyzer's snapshot |
| Session.AskForState | backend/main.py:122-127 | asking for the state leaves the dashboard unchanged, because the reply's type is ignored |
| Session.FrameSeenBy | backend/main.py:78-81 | the watching teacher's dashboard gets exactly one change: the student's card now holds the broadcast analysis, which is the one the analyzer stores |
| Session.LeaveSeenBy | backend/main.py:88-102 | a disconnect removes the card; any other exception leaves the dashboard as it was |
| Session.DepartedStudentListed | backend/main.py:109-113 | a student who left is still in a later teacher's `initial_state` and on its dashboard, and `request_state` does not change that |
| Session.CardAfterStudentLeaves | backend/main.py:100-102 | a student whose connection ends with an error other than a disconnect is unregistered, yet its card stays on the dashboard; after a disconnect the card goes |
| Session.ColoursAgree | frontend/src/pages/StudentPortal.jsx:110-119 | the student's indicator and the teacher's card agree on the colour of every analysis |

## Left out

- Camera access, canvas capture, the data-URL encoding of a frame and real timers are events and handles, not browser calls. The asynchronous encode-then-send inside a tick is taken to complete within the tick.
- Base64 and image decoding and the vision engine (face detection and face mesh) are inputs: `decode` and `EngineOutput`. The landmark geometry of the confusion, gaze and smile tests (ratios, the `1e-6` guards) is left out as floating-point work. Only the threshold decisions and the aggregation are modelled, over exact reals.
- Analyzer.VideoAnalyzer.AnalyzeFrame: an engine that cannot start is one `EngineFault` raised after the student record is created. Colour conversion of the frame, which runs before that, is not modelled.
- Analyzer.VideoAnalyzer.AnalyzeFrame: the clock is read once per call; the source reads it separately for the gaze sample, the look-away and the record.
- The `datetime` values are seconds as reals; ISO formatting of timestamps is not modelled.
- An entry without an analysis is `None`; the source sends an empty dictionary there.
- `emotion_history` is created but never read, so it is not modelled. `is_ready`, the HTTP routes, CORS and server start-up are not modelled either.
- Logging is not modelled.
- Connections.ConnectionManager.BroadcastToTeachers: dictionary iteration order is not modelled; teachers are visited in an arbitrary order.
- Concurrency is not modelled. Each handler step runs alone; interleavings of awaits across connections are not modelled.
- Connections.ConnectionManager.StudentCount and TeacherCount are the dictionary sizes. They carry no contract of their own; the connect and disconnect methods state how they change.
- Server.Backend.StudentReceives: a send that raises is modelled as a generic exception, even where the framework would raise a disconnect. What a decoded frame sends (the order of the deliveries and the broadcast) is stated by StudentSendsFrame, not repeated here.
- Portal.Closed: events from a socket the page has already replaced are attributed to the current socket.
- Dashboard.TeacherDashboard: re-running the effect when the teacher id in the route changes is not modelled.
- The JSX trees, CSS classes, badge text, emotion icons, `toLocaleTimeString` and the percentage rendering are presentation.
- `frontend/src/pages/HomePage.jsx` and `frontend/src/App.jsx` hold only inputs, links and routes, and are not part of this model.
