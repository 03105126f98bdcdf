/**
 * The two websocket endpoints of the backend, one receive-loop iteration at
 * a time. Every message that reaches a socket is appended to `outbox`.
 * Decoding a frame (base64, then the image decoder) and what the vision
 * engine then sees are given by the oracle `decode`; which sockets fail to
 * send by the set `failing`; the clock by `now`.
 */
module Server {
  import opened Wrappers
  import opened Wire
  import opened Analyzer
  import opened Connections

  /** What `receive_text` and `json.loads` yield for one iteration of a loop. */
  datatype Inbound =
    | Gone                      // the client disconnected (`WebSocketDisconnect`)
    | Garbled                   // unparsable JSON, or a missing `type` or `frame` key
    | VideoFrame(frame: string)
    | Ping
    | RequestState
    | Unlisted(msgType: string) // any other `type`

  /** What decoding a frame payload yields. */
  datatype Decoded =
    | Undecodable               // the base64 decoder raises
    | NotAnImage                // the image decoder returns `None`
    | Image(out: EngineOutput)

  /** Whether the endpoint goes on receiving after this iteration. */
  datatype Loop = Listening | Finished

  function IndexOf(s: string, c: char): (i: nat)
    ensures i <= |s|
    ensures i < |s| ==> s[i] == c
    ensures c !in s[..i]
    ensures i == |s| <==> c !in s
  {
    if s == [] then 0
    else if s[0] == c then 0
    else
      var k := IndexOf(s[1..], c);
      assert s[..k + 1] == [s[0]] + s[1..][..k];
      k + 1
  }

  /**
   * Strips a data-URL header: the text between the first and the second
   * comma (or the end), or the whole frame when it has no comma.
   */
  function StripDataUrl(frame: string): (payload: string)
    ensures ',' !in payload
    ensures ',' !in frame ==> payload == frame
    ensures ',' in frame ==>
      var i := IndexOf(frame, ',');
      && i + 1 + |payload| <= |frame|
      && payload == frame[i + 1..i + 1 + |payload|]
      && (i + 1 + |payload| == |frame| || frame[i + 1 + |payload|] == ',')
  {
    var i := IndexOf(frame, ',');
    if i == |frame| then frame
    else
      var rest := frame[i + 1..];
      var j := IndexOf(rest, ',');
      assert frame[i + 1..i + 1 + j] == rest[..j];
      rest[..j]
  }

  /** A data URL's payload comes back out whole: `header,payload` gives `payload`. */
  lemma {:induction false} StripDataUrlRoundTrip(header: string, payload: string)
    requires ',' !in header && ',' !in payload
    ensures StripDataUrl(header + "," + payload) == payload
  {
    var frame := header + "," + payload;
    assert frame[..|header|] == header;
    assert frame[|header|] == ',';
    IndexOfFirst(frame, ',', |header|);
    assert frame[|header| + 1..] == payload;
    IndexOfFirst(payload, ',', |payload|);
  }

  lemma IndexOfFirst(s: string, c: char, i: nat)
    requires i <= |s| && c !in s[..i]
    requires i < |s| ==> s[i] == c
    ensures IndexOf(s, c) == i
  {
  }

  /** An analysis as the endpoint forwards it: stamped with the student's id and the time. */
  function Stamp(a: Analysis, studentId: string, now: Time): (r: Analysis)
    ensures r.studentId == Some(studentId) && r.timestamp == Some(now)
    ensures r.(studentId := a.studentId, timestamp := a.timestamp) == a
  {
    a.(studentId := Some(studentId), timestamp := Some(now))
  }

  /**
   * Student `id`'s gaze history after a frame: one sample pushed when a single
   * face's landmarks were read, the history as it was otherwise.
   */
  function HistoryAfter(history: map<string, seq<GazeSample>>, id: string, out: EngineOutput, now: Time)
    : seq<GazeSample>
  {
    var before := if id in history then history[id] else [];
    if out.Reading? && out.faceCount == 1 && out.landmarks.Some?
    then PushBounded(before, GazeSample(AnalyzeGaze(out.landmarks.value.ratioX, out.landmarks.value.irisY).away, now))
    else before
  }

  /**
   * A frame whose single face looks at the screen ends any look-away, so the
   * verdict the endpoint stores for it is not an alert.
   */
  lemma LookingFrameDoesNotAlert(history: map<string, seq<GazeSample>>, id: string,
                                 lm: LandmarkReading, now: Time)
    requires !AnalyzeGaze(lm.ratioX, lm.irisY).away
    ensures Verdict(1, Some(lm), AwayFor(HistoryAfter(history, id, Reading(1, Some(lm)), now), now)).status
            != "alert"
  {
    var before := if id in history then history[id] else [];
    LookingBackResets(before, now, now);
    VerdictSpec(1, Some(lm), 0.0);
  }

  /**
   * The analyzer's records after a frame of `id`: the known ids plus `id`,
   * and every other student's record and history as they were.
   */
  ghost predicate KeepsOthers(states: map<string, StudentRecord>, history: map<string, seq<GazeSample>>,
                              states': map<string, StudentRecord>, history': map<string, seq<GazeSample>>,
                              id: string)
  {
    && states'.Keys == states.Keys + {id}
    && forall other :: other in states && other != id ==>
         && states'[other] == states[other]
         && other in history && other in history' && history'[other] == history[other]
  }

  class Backend {
    const manager: ConnectionManager
    const analyzer: VideoAnalyzer
    var outbox: seq<Delivery>

    ghost predicate Valid()
      reads this, analyzer
    {
      analyzer.Valid()
    }

    constructor ()
      ensures Valid() && fresh(manager) && fresh(analyzer)
      ensures manager.studentConnections == map[] && manager.teacherConnections == map[]
      ensures analyzer.studentStates == map[]
      ensures outbox == []
    {
      manager := new ConnectionManager();
      analyzer := new VideoAnalyzer();
      outbox := [];
    }

    /** The student endpoint accepts socket `ws` for `studentId`. */
    method StudentConnects(studentId: string, ws: Handle)
      modifies manager
      ensures manager.studentConnections == old(manager.studentConnections)[studentId := ws]
      ensures manager.teacherConnections == old(manager.teacherConnections)
    {
      manager.ConnectStudent(ws, studentId);
    }

    /**
     * One iteration of the student loop, including the handler that ends it.
     * A valid frame is analysed, stamped with the student's id and the time,
     * sent back to the student first and then broadcast to the teachers. A
     * disconnect is broadcast; any other exception ends the loop silently.
     * What a decoded frame sends is stated by `StudentSendsFrame`.
     */
    method StudentReceives(studentId: string, ws: Handle, event: Inbound,
                           decode: string -> Decoded, failing: set<Handle>, now: Time)
      returns (next: Loop)
      requires Valid()
      modifies this, manager, analyzer
      ensures Valid()
      ensures |old(outbox)| <= |outbox| && outbox[..|old(outbox)|] == old(outbox)
      ensures match event
        case Gone =>
          && next == Finished
          && manager.studentConnections == old(manager.studentConnections) - {studentId}
          && manager.teacherConnections == Pruned(old(manager.teacherConnections), failing)
          && IsBroadcast(old(manager.teacherConnections), failing, outbox[|old(outbox)|..],
                         StudentDisconnected(studentId, now))
          && analyzer.studentStates == old(analyzer.studentStates)
          && analyzer.gazeHistory == old(analyzer.gazeHistory)
        case Garbled =>
          && next == Finished
          && manager.studentConnections == old(manager.studentConnections) - {studentId}
          && manager.teacherConnections == old(manager.teacherConnections)
          && outbox == old(outbox) && analyzer.studentStates == old(analyzer.studentStates)
          && analyzer.gazeHistory == old(analyzer.gazeHistory)
        case Ping =>
          && (next == Finished <==> ws in failing)
          && manager.studentConnections ==
               (if ws in failing then old(manager.studentConnections) - {studentId}
                else old(manager.studentConnections))
          && manager.teacherConnections == old(manager.teacherConnections)
          && outbox == old(outbox) + (if ws in failing then [] else [Delivery(ws, Pong)])
          && analyzer.studentStates == old(analyzer.studentStates)
          && analyzer.gazeHistory == old(analyzer.gazeHistory)
        case VideoFrame(frame) =>
          var decoded := decode(StripDataUrl(frame));
          && (next == Finished <==>
                decoded.Undecodable? || (decoded.Image? && (decoded.out.EngineFault? || ws in failing)))
          && (next == Finished ==>
                manager.studentConnections == old(manager.studentConnections) - {studentId})
          && (next == Listening ==>
                manager.studentConnections == old(manager.studentConnections))
          && (manager.teacherConnections ==
                if next == Listening && decoded.Image?
                then Pruned(old(manager.teacherConnections), failing)
                else old(manager.teacherConnections))
          && (!decoded.Image? ==>
                && outbox == old(outbox) && analyzer.studentStates == old(analyzer.studentStates)
                && analyzer.gazeHistory == old(analyzer.gazeHistory))
          && (decoded.Image? ==>
                && studentId in analyzer.studentStates && studentId in analyzer.gazeHistory
                && analyzer.gazeHistory[studentId] == HistoryAfter(old(analyzer.gazeHistory), studentId, decoded.out, now)
                && KeepsOthers(old(analyzer.studentStates), old(analyzer.gazeHistory),
                               analyzer.studentStates, analyzer.gazeHistory, studentId))
          && (decoded.Image? && decoded.out.Reading? ==>
                analyzer.studentStates[studentId].latestAnalysis ==
                  Some(Stamp(Verdict(decoded.out.faceCount, decoded.out.landmarks,
                                     AwayFor(analyzer.gazeHistory[studentId], now)), studentId, now)))
        case _ =>
          && next == Listening
          && manager.studentConnections == old(manager.studentConnections)
          && manager.teacherConnections == old(manager.teacherConnections)
          && outbox == old(outbox) && analyzer.studentStates == old(analyzer.studentStates)
          && analyzer.gazeHistory == old(analyzer.gazeHistory)
    {
      match event {
        case Gone =>
          next := StudentLeaves(studentId, failing, now);
        case Garbled =>
          manager.DisconnectStudent(studentId);
          return Finished;
        case VideoFrame(frame) =>
          next := StudentSendsFrame(studentId, ws, frame, decode, failing, now);
        case Ping =>
          next := StudentPings(studentId, ws, failing);
        case RequestState =>
          return Listening;
        case Unlisted(_) =>
          return Listening;
      }
    }

    /** A `ping` is answered with a `pong`; a failed send ends the loop. */
    method StudentPings(studentId: string, ws: Handle, failing: set<Handle>) returns (next: Loop)
      modifies this, manager
      ensures next == Finished <==> ws in failing
      ensures manager.studentConnections ==
        (if ws in failing then old(manager.studentConnections) - {studentId}
         else old(manager.studentConnections))
      ensures manager.teacherConnections == old(manager.teacherConnections)
      ensures outbox == old(outbox) + (if ws in failing then [] else [Delivery(ws, Pong)])
    {
      if ws in failing {
        manager.DisconnectStudent(studentId);
        return Finished;
      }
      outbox := outbox + [Delivery(ws, Pong)];
      return Listening;
    }

    /**
     * The client went away: unregister the student and tell every teacher,
     * pruning the teachers whose send raised.
     */
    method StudentLeaves(studentId: string, failing: set<Handle>, now: Time) returns (next: Loop)
      requires Valid()
      modifies this, manager
      ensures Valid() && next == Finished
      ensures manager.studentConnections == old(manager.studentConnections) - {studentId}
      ensures manager.teacherConnections == Pruned(old(manager.teacherConnections), failing)
      ensures |old(outbox)| <= |outbox| && outbox[..|old(outbox)|] == old(outbox)
      ensures IsBroadcast(old(manager.teacherConnections), failing, outbox[|old(outbox)|..],
                          StudentDisconnected(studentId, now))
    {
      manager.DisconnectStudent(studentId);
      var sent, _ := manager.BroadcastToTeachers(StudentDisconnected(studentId, now), failing);
      outbox := outbox + sent;
      assert outbox[|old(outbox)|..] == sent;
      return Finished;
    }

    /**
     * The `video_frame` branch of the student loop. Only a decodable image
     * reaches the analyzer; its stamped analysis goes to the student first,
     * then to the teachers. An undecodable payload, an engine fault or a
     * failed send to the student is an exception: the student is removed and
     * nothing is broadcast.
     */
    method StudentSendsFrame(studentId: string, ws: Handle, frame: string,
                             decode: string -> Decoded, failing: set<Handle>, now: Time)
      returns (next: Loop)
      requires Valid()
      modifies this, manager, analyzer
      ensures Valid()
      ensures |old(outbox)| <= |outbox| && outbox[..|old(outbox)|] == old(outbox)
      ensures
        var decoded := decode(StripDataUrl(frame));
        && (next == Finished <==>
              decoded.Undecodable? || (decoded.Image? && (decoded.out.EngineFault? || ws in failing)))
        && (next == Finished ==>
              manager.studentConnections == old(manager.studentConnections) - {studentId})
        && (next == Listening ==>
              manager.studentConnections == old(manager.studentConnections))
        && (manager.teacherConnections ==
              if next == Listening && decoded.Image?
              then Pruned(old(manager.teacherConnections), failing)
              else old(manager.teacherConnections))
        && (!decoded.Image? ==>
              && outbox == old(outbox) && analyzer.studentStates == old(analyzer.studentStates)
              && analyzer.gazeHistory == old(analyzer.gazeHistory))
        && (decoded.Image? ==> studentId in analyzer.studentStates && studentId in analyzer.gazeHistory)
        && (decoded.Image? ==>
              analyzer.gazeHistory[studentId] == HistoryAfter(old(analyzer.gazeHistory), studentId, decoded.out, now))
        && (decoded.Image? ==>
              KeepsOthers(old(analyzer.studentStates), old(analyzer.gazeHistory),
                          analyzer.studentStates, analyzer.gazeHistory, studentId))
        && (decoded.Image? && decoded.out.Reading? ==>
              analyzer.studentStates[studentId].latestAnalysis ==
                Some(Stamp(Verdict(decoded.out.faceCount, decoded.out.landmarks,
                                   AwayFor(analyzer.gazeHistory[studentId], now)), studentId, now)))
        && (decoded.Image? && next == Finished ==> outbox == old(outbox))
        && (decoded.Image? && next == Listening ==>
              var stamped := analyzer.studentStates[studentId].latestAnalysis;
              && stamped.Some?
              && stamped.value.studentId == Some(studentId) && stamped.value.timestamp == Some(now)
              && |outbox| > |old(outbox)|
              && outbox[|old(outbox)|] == Delivery(ws, AnalysisResult(stamped.value))
              && IsBroadcast(old(manager.teacherConnections), failing, outbox[|old(outbox)| + 1..],
                             StudentUpdate(stamped.value)))
    {
      var decoded := decode(StripDataUrl(frame));
      match decoded {
        case Undecodable =>
          manager.DisconnectStudent(studentId);
          return Finished;
        case NotAnImage =>
          return Listening;
        case Image(out) =>
          next := StudentFrameAnalysed(studentId, ws, out, failing, now);
      }
    }

    /**
     * A decoded frame: analyse it and stamp the stored analysis with the
     * student's id and the time, then deliver it. An engine fault removes
     * the student.
     */
    method StudentFrameAnalysed(studentId: string, ws: Handle, out: EngineOutput,
                                failing: set<Handle>, now: Time)
      returns (next: Loop)
      requires Valid()
      modifies this, manager, analyzer
      ensures Valid()
      ensures |old(outbox)| <= |outbox| && outbox[..|old(outbox)|] == old(outbox)
      ensures studentId in analyzer.studentStates && studentId in analyzer.gazeHistory
      ensures analyzer.gazeHistory[studentId] == HistoryAfter(old(analyzer.gazeHistory), studentId, out, now)
      ensures out.Reading? ==>
        analyzer.studentStates[studentId].latestAnalysis ==
          Some(Stamp(Verdict(out.faceCount, out.landmarks, AwayFor(analyzer.gazeHistory[studentId], now)),
                     studentId, now))
      ensures KeepsOthers(old(analyzer.studentStates), old(analyzer.gazeHistory),
                          analyzer.studentStates, analyzer.gazeHistory, studentId)
      ensures next == Finished <==> out.EngineFault? || ws in failing
      ensures next == Finished ==>
        && manager.studentConnections == old(manager.studentConnections) - {studentId}
        && manager.teacherConnections == old(manager.teacherConnections)
        && outbox == old(outbox)
      ensures next == Listening ==>
        var stamped := analyzer.studentStates[studentId].latestAnalysis;
        && manager.studentConnections == old(manager.studentConnections)
        && manager.teacherConnections == Pruned(old(manager.teacherConnections), failing)
        && stamped.Some?
        && stamped.value.studentId == Some(studentId) && stamped.value.timestamp == Some(now)
        && |outbox| > |old(outbox)|
        && outbox[|old(outbox)|] == Delivery(ws, AnalysisResult(stamped.value))
        && IsBroadcast(old(manager.teacherConnections), failing, outbox[|old(outbox)| + 1..],
                       StudentUpdate(stamped.value))
    {
      var stamped := AnalyseAndStamp(studentId, out, now);
      if stamped.None? {
        manager.DisconnectStudent(studentId);
        return Finished;
      }
      next := DeliverAnalysis(studentId, ws, stamped.value, failing);
    }

    /**
     * The analyzer's verdict on the frame, stamped in place with the
     * student's id and the time; `None` when the engine faults.
     */
    method AnalyseAndStamp(studentId: string, out: EngineOutput, now: Time)
      returns (stamped: Option<Analysis>)
      requires Valid()
      modifies analyzer
      ensures Valid()
      ensures studentId in analyzer.studentStates
      ensures studentId in analyzer.gazeHistory
      ensures analyzer.gazeHistory[studentId] == HistoryAfter(old(analyzer.gazeHistory), studentId, out, now)
      ensures stamped.None? <==> out.EngineFault?
      ensures stamped.Some? ==>
        && analyzer.studentStates[studentId].latestAnalysis == stamped
        && stamped.value.studentId == Some(studentId) && stamped.value.timestamp == Some(now)
      ensures out.Reading? ==>
        stamped == Some(Stamp(Verdict(out.faceCount, out.landmarks, AwayFor(analyzer.gazeHistory[studentId], now)),
                              studentId, now))
      ensures KeepsOthers(old(analyzer.studentStates), old(analyzer.gazeHistory),
                          analyzer.studentStates, analyzer.gazeHistory, studentId)
    {
      var result := analyzer.AnalyzeFrame(studentId, out, now);
      if result.None? {
        return None;
      }
      var latest := analyzer.StampLatest(studentId, now);
      stamped := Some(latest);
    }

    /**
     * The stamped analysis goes to the student first and then to every
     * teacher. A failed send to the student removes it before the broadcast.
     */
    method DeliverAnalysis(studentId: string, ws: Handle, stamped: Analysis, failing: set<Handle>)
      returns (next: Loop)
      modifies this, manager
      ensures next == Finished <==> ws in failing
      ensures next == Finished ==>
        && manager.studentConnections == old(manager.studentConnections) - {studentId}
        && manager.teacherConnections == old(manager.teacherConnections)
        && outbox == old(outbox)
      ensures next == Listening ==>
        && manager.studentConnections == old(manager.studentConnections)
        && manager.teacherConnections == Pruned(old(manager.teacherConnections), failing)
        && |outbox| > |old(outbox)|
        && outbox[..|old(outbox)|] == old(outbox)
        && outbox[|old(outbox)|] == Delivery(ws, AnalysisResult(stamped))
        && IsBroadcast(old(manager.teacherConnections), failing, outbox[|old(outbox)| + 1..],
                       StudentUpdate(stamped))
    {
      if ws in failing {
        manager.DisconnectStudent(studentId);
        return Finished;
      }
      outbox := outbox + [Delivery(ws, AnalysisResult(stamped))];
      var sent, _ := manager.BroadcastToTeachers(StudentUpdate(stamped), failing);
      outbox := outbox + sent;
      assert outbox[|old(outbox)| + 1..] == sent;
      return Listening;
    }

    /**
     * The teacher endpoint accepts `ws` for `teacherId` and sends it the
     * analyzer's whole state. That send is outside the handler's `try`: if it
     * raises, the endpoint ends and the teacher stays registered.
     */
    method TeacherConnects(teacherId: string, ws: Handle, failing: set<Handle>)
      returns (next: Loop)
      requires Valid()
      modifies this, manager
      ensures Valid()
      ensures manager.teacherConnections == old(manager.teacherConnections)[teacherId := ws]
      ensures manager.studentConnections == old(manager.studentConnections)
      ensures next == Finished <==> ws in failing
      ensures outbox == old(outbox) +
        (if ws in failing then [] else [Delivery(ws, InitialState(analyzer.AllStudentsState()))])
    {
      manager.ConnectTeacher(ws, teacherId);
      var currentState := analyzer.AllStudentsState();
      if ws in failing {
        return Finished;
      }
      outbox := outbox + [Delivery(ws, InitialState(currentState))];
      return Listening;
    }

    /** Sends `reply` to the teacher; a failed send ends the teacher's loop. */
    method AnswerTeacher(teacherId: string, ws: Handle, reply: Message, failing: set<Handle>)
      returns (next: Loop)
      modifies this, manager
      ensures next == Finished <==> ws in failing
      ensures manager.studentConnections == old(manager.studentConnections)
      ensures manager.teacherConnections ==
        (if ws in failing then old(manager.teacherConnections) - {teacherId}
         else old(manager.teacherConnections))
      ensures outbox == old(outbox) + (if ws in failing then [] else [Delivery(ws, reply)])
    {
      if ws in failing {
        manager.DisconnectTeacher(teacherId);
        return Finished;
      }
      outbox := outbox + [Delivery(ws, reply)];
      return Listening;
    }

    /**
     * One iteration of the teacher loop. `request_state` is answered with a
     * `state_update`; a disconnect or any exception removes only this teacher.
     */
    method TeacherReceives(teacherId: string, ws: Handle, event: Inbound, failing: set<Handle>)
      returns (next: Loop)
      requires Valid()
      modifies this, manager
      ensures Valid()
      ensures manager.studentConnections == old(manager.studentConnections)
      ensures next == Finished <==>
        event.Gone? || event.Garbled? || ((event.Ping? || event.RequestState?) && ws in failing)
      ensures next == Finished ==>
        manager.teacherConnections == old(manager.teacherConnections) - {teacherId}
      ensures next == Listening ==>
        manager.teacherConnections == old(manager.teacherConnections)
      ensures outbox == old(outbox) +
        (if next == Finished || !(event.Ping? || event.RequestState?) then []
         else if event.Ping? then [Delivery(ws, Pong)]
         else [Delivery(ws, StateUpdate(analyzer.AllStudentsState()))])
    {
      match event {
        case Ping =>
          next := AnswerTeacher(teacherId, ws, Pong, failing);
        case RequestState =>
          var currentState := analyzer.AllStudentsState();
          next := AnswerTeacher(teacherId, ws, StateUpdate(currentState), failing);
        case Gone =>
          manager.DisconnectTeacher(teacherId);
          return Finished;
        case Garbled =>
          manager.DisconnectTeacher(teacherId);
          return Finished;
        case VideoFrame(_) =>
          return Listening;
        case Unlisted(_) =>
          return Listening;
      }
    }
  }

}
