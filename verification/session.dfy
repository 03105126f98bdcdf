/**
 * The three parties together: the backend's outbox is delivered to a
 * teacher's dashboard, and the facts that only show across components are
 * stated on whole runs of the protocol.
 */
module Session {
  import opened Wrappers
  import opened Wire
  import opened Analyzer
  import opened Connections
  import opened Server
  import opened Dashboard
  import Portal

  /** The messages that reached socket `ws`, in the order they were sent. */
  function Inbox(deliveries: seq<Delivery>, ws: Handle): (msgs: seq<Message>)
    ensures |msgs| <= |deliveries|
    ensures forall m :: m in msgs <==> Delivery(ws, m) in deliveries
    decreases |deliveries|
  {
    if deliveries == [] then []
    else
      var last := deliveries[|deliveries| - 1];
      var init := deliveries[..|deliveries| - 1];
      assert deliveries == init + [last];
      Inbox(init, ws) + (if last.to == ws then [last.msg] else [])
  }

  lemma {:induction false} InboxAppend(a: seq<Delivery>, b: seq<Delivery>, ws: Handle)
    ensures Inbox(a + b, ws) == Inbox(a, ws) + Inbox(b, ws)
    decreases |b|
  {
    if b != [] {
      var init := b[..|b| - 1];
      var last := b[|b| - 1];
      assert (a + b)[..|a + b| - 1] == a + init;
      assert (a + b)[|a + b| - 1] == last;
      InboxAppend(a, init, ws);
    } else {
      assert a + b == a;
    }
  }

  /** The dashboard on socket `ws` handles, in order, every message sent to `ws`. */
  method DeliverTo(dashboard: TeacherDashboard, deliveries: seq<Delivery>, ws: Handle)
    modifies dashboard
    ensures dashboard.students == ReduceAll(old(dashboard.students), Inbox(deliveries, ws))
    ensures dashboard.status == old(dashboard.status)
  {
    for i := 0 to |deliveries|
      invariant dashboard.students == ReduceAll(old(dashboard.students), Inbox(deliveries[..i], ws))
      invariant dashboard.status == old(dashboard.status)
    {
      var d := deliveries[i];
      assert deliveries[..i + 1] == deliveries[..i] + [d];
      InboxAppend(deliveries[..i], [d], ws);
      assert [d][..0] == [];
      if d.to == ws {
        ReduceAllAppend(old(dashboard.students), Inbox(deliveries[..i], ws), d.msg);
        dashboard.OnMessage(d.msg);
      } else {
        assert Inbox(deliveries[..i + 1], ws) == Inbox(deliveries[..i], ws) + [];
        assert Inbox(deliveries[..i], ws) + [] == Inbox(deliveries[..i], ws);
      }
    }
    assert deliveries[..|deliveries|] == deliveries;
  }

  /** A broadcast to a single reachable teacher is one delivery to its socket. */
  lemma BroadcastToOne(tid: string, tws: Handle, sent: seq<Delivery>, msg: Message)
    requires IsBroadcast(map[tid := tws], {}, sent, msg)
    ensures sent == [Delivery(tws, msg)]
  {
    assert Reachable(map[tid := tws], {}) == {tid};
    assert Delivery(tws, msg) in sent;
  }

  /** The backend's handling of a readable frame with no failing socket: the reply, then the broadcast. */
  method FrameAnswered(backend: Backend, sid: string, sws: Handle, out: EngineOutput, now: Time)
    returns (stamped: Analysis)
    requires backend.Valid() && out.Reading?
    modifies backend, backend.manager, backend.analyzer
    ensures backend.Valid()
    ensures backend.manager.teacherConnections == Pruned(old(backend.manager.teacherConnections), {})
    ensures backend.manager.studentConnections == old(backend.manager.studentConnections)
    ensures stamped.studentId == Some(sid)
    ensures sid in backend.analyzer.studentStates
    ensures backend.analyzer.studentStates[sid].latestAnalysis == Some(stamped)
    ensures |backend.outbox| > |old(backend.outbox)|
    ensures backend.outbox[..|old(backend.outbox)|] == old(backend.outbox)
    ensures backend.outbox[|old(backend.outbox)|] == Delivery(sws, AnalysisResult(stamped))
    ensures IsBroadcast(old(backend.manager.teacherConnections), {}, backend.outbox[|old(backend.outbox)| + 1..],
                        StudentUpdate(stamped))
  {
    var step := backend.StudentFrameAnalysed(sid, sws, out, {}, now);
    stamped := backend.analyzer.studentStates[sid].latestAnalysis.value;
  }

  /** A frame from student `sid` while the single teacher `tid` watches. */
  method FrameWatchedByOne(backend: Backend, sid: string, sws: Handle, tid: string, tws: Handle,
                           out: EngineOutput, now: Time)
    returns (stamped: Analysis)
    requires backend.Valid() && out.Reading?
    requires backend.manager.teacherConnections == map[tid := tws]
    modifies backend, backend.manager, backend.analyzer
    ensures backend.Valid()
    ensures backend.manager.teacherConnections == map[tid := tws]
    ensures backend.manager.studentConnections == old(backend.manager.studentConnections)
    ensures stamped.studentId == Some(sid)
    ensures sid in backend.analyzer.studentStates
    ensures backend.analyzer.studentStates[sid].latestAnalysis == Some(stamped)
    ensures backend.outbox ==
      old(backend.outbox) + [Delivery(sws, AnalysisResult(stamped)), Delivery(tws, StudentUpdate(stamped))]
  {
    var start := |backend.outbox|;
    stamped := FrameAnswered(backend, sid, sws, out, now);
    PrunedNothing(map[tid := tws]);
    var sent := backend.outbox;
    var broadcast := sent[start + 1..];
    BroadcastToOne(tid, tws, broadcast, StudentUpdate(stamped));
    assert sent == sent[..start] + [sent[start]] + broadcast;
  }

  /** Student `sid`'s connection ends while the single teacher `tid` watches. */
  method LeaveWatchedByOne(backend: Backend, sid: string, sws: Handle, tid: string, tws: Handle,
                           garbled: bool, now: Time)
    requires backend.Valid()
    requires backend.manager.teacherConnections == map[tid := tws]
    modifies backend, backend.manager, backend.analyzer
    ensures backend.Valid()
    ensures backend.manager.teacherConnections == map[tid := tws]
    ensures backend.manager.studentConnections == old(backend.manager.studentConnections) - {sid}
    ensures backend.analyzer.studentStates == old(backend.analyzer.studentStates)
    ensures backend.outbox ==
      old(backend.outbox) + (if garbled then [] else [Delivery(tws, StudentDisconnected(sid, now))])
  {
    var start := |backend.outbox|;
    var quit := backend.StudentReceives(sid, sws, if garbled then Garbled else Gone, _ => NotAnImage, {}, now);
    PrunedNothing(map[tid := tws]);
    if !garbled {
      BroadcastToOne(tid, tws, backend.outbox[start..], StudentDisconnected(sid, now));
      assert backend.outbox == backend.outbox[..start] + backend.outbox[start..];
    }
  }

  /** Student `sid` connects, sends one frame and disconnects. */
  method VisitThenLeave(backend: Backend, sid: string, sws: Handle, out: EngineOutput, now: Time)
    requires backend.Valid() && out.Reading?
    modifies backend, backend.manager, backend.analyzer
    ensures backend.Valid()
    ensures sid !in backend.manager.studentConnections
    ensures sid in backend.analyzer.studentStates
    ensures backend.analyzer.studentStates[sid].latestAnalysis.Some?
  {
    backend.StudentConnects(sid, sws);
    var step := backend.StudentFrameAnalysed(sid, sws, out, {}, now);
    var quit := backend.StudentReceives(sid, sws, Gone, _ => NotAnImage, {}, now);
  }

  /**
   * Teacher `tid` connects on `tws`; its new dashboard handles what it is
   * sent, the `initial_state`.
   */
  method TeacherJoins(backend: Backend, tid: string, tws: Handle)
    returns (dashboard: TeacherDashboard, snapshot: map<string, StudentEntry>)
    requires backend.Valid()
    modifies backend, backend.manager
    ensures backend.Valid() && fresh(dashboard)
    ensures backend.manager.teacherConnections == old(backend.manager.teacherConnections)[tid := tws]
    ensures snapshot == backend.analyzer.AllStudentsState()
    ensures dashboard.students == snapshot
  {
    var start := |backend.outbox|;
    var welcomed := backend.TeacherConnects(tid, tws, {});
    snapshot := backend.analyzer.AllStudentsState();
    dashboard := new TeacherDashboard.Mount(tws);
    InboxOfOne(Delivery(tws, InitialState(snapshot)), tws);
    assert [InitialState(snapshot)][1..] == [];
    assert backend.outbox[start..] == [Delivery(tws, InitialState(snapshot))];
    DeliverTo(dashboard, backend.outbox[start..], tws);
  }

  /** Teacher `tid` sends `request_state`; its dashboard handles the reply. */
  method AskForState(backend: Backend, tid: string, tws: Handle, dashboard: TeacherDashboard)
    requires backend.Valid()
    modifies backend, backend.manager, dashboard
    ensures backend.Valid()
    ensures dashboard.students == old(dashboard.students)
  {
    var asked := |backend.outbox|;
    var answered := backend.TeacherReceives(tid, tws, RequestState, {});
    var reply := StateUpdate(backend.analyzer.AllStudentsState());
    InboxOfOne(Delivery(tws, reply), tws);
    assert [reply][1..] == [];
    assert backend.outbox[asked..] == [Delivery(tws, reply)];
    DeliverTo(dashboard, backend.outbox[asked..], tws);
  }

  /** A message for socket `ws`, and one for another socket, as the dashboard on `ws` gets them. */
  lemma InboxOfTwo(d1: Delivery, d2: Delivery, ws: Handle)
    ensures Inbox([d1, d2], ws) ==
      (if d1.to == ws then [d1.msg] else []) + (if d2.to == ws then [d2.msg] else [])
  {
    assert [d1, d2][..1] == [d1];
    assert [d1][..0] == [];
  }

  lemma InboxOfOne(d: Delivery, ws: Handle)
    ensures Inbox([d], ws) == if d.to == ws then [d.msg] else []
  {
    assert [d][..0] == [];
  }

  /** A frame from `sid` as the dashboard of the single teacher `tid` sees it. */
  method FrameSeenBy(backend: Backend, dashboard: TeacherDashboard, sid: string, sws: Handle,
                     tid: string, tws: Handle, out: EngineOutput, now: Time)
    returns (stamped: Analysis)
    requires backend.Valid() && out.Reading? && sws != tws
    requires backend.manager.teacherConnections == map[tid := tws]
    modifies backend, backend.manager, backend.analyzer, dashboard
    ensures backend.Valid()
    ensures backend.manager.teacherConnections == map[tid := tws]
    ensures backend.manager.studentConnections == old(backend.manager.studentConnections)
    ensures sid in backend.analyzer.studentStates
    ensures backend.analyzer.studentStates[sid].latestAnalysis == Some(stamped)
    ensures dashboard.students == old(dashboard.students)[sid := EntryOf(stamped)]
  {
    var start := |backend.outbox|;
    stamped := FrameWatchedByOne(backend, sid, sws, tid, tws, out, now);
    InboxOfTwo(Delivery(sws, AnalysisResult(stamped)), Delivery(tws, StudentUpdate(stamped)), tws);
    assert backend.outbox[start..] == [Delivery(sws, AnalysisResult(stamped)), Delivery(tws, StudentUpdate(stamped))];
    DeliverTo(dashboard, backend.outbox[start..], tws);
    assert [StudentUpdate(stamped)][1..] == [];
    assert dashboard.students == Reduce(old(dashboard.students), StudentUpdate(stamped));
  }

  /** `sid` leaves, as the dashboard of the single teacher `tid` sees it. */
  method LeaveSeenBy(backend: Backend, dashboard: TeacherDashboard, sid: string, sws: Handle,
                     tid: string, tws: Handle, garbled: bool, now: Time)
    requires backend.Valid()
    requires backend.manager.teacherConnections == map[tid := tws]
    modifies backend, backend.manager, backend.analyzer, dashboard
    ensures backend.Valid()
    ensures sid !in backend.manager.studentConnections
    ensures garbled ==> dashboard.students == old(dashboard.students)
    ensures !garbled ==> sid !in dashboard.students
  {
    var mid := |backend.outbox|;
    LeaveWatchedByOne(backend, sid, sws, tid, tws, garbled, now);
    if !garbled {
      InboxOfOne(Delivery(tws, StudentDisconnected(sid, now)), tws);
      assert [StudentDisconnected(sid, now)][1..] == [];
    }
    assert backend.outbox[mid..] ==
      if garbled then [] else [Delivery(tws, StudentDisconnected(sid, now))];
    DeliverTo(dashboard, backend.outbox[mid..], tws);
  }

  /**
   * A student who has left is still listed. After the student sends one
   * frame and then disconnects, the registry no longer has the student, but
   * a teacher who connects afterwards gets the student in its `initial_state`
   * and shows a card for it; asking for the state again changes nothing on
   * the dashboard.
   */
  method DepartedStudentListed(sid: string, sws: Handle, tid: string, tws: Handle,
                               out: EngineOutput, now: Time)
    returns (registered: bool, snapshot: map<string, StudentEntry>, view: Students,
             refreshed: Students)
    requires out.Reading?
    ensures !registered
    ensures sid in snapshot && snapshot[sid].latestAnalysis.Some?
    ensures sid in view && view == snapshot
    ensures refreshed == view
  {
    var backend := new Backend();
    VisitThenLeave(backend, sid, sws, out, now);
    registered := sid in backend.manager.studentConnections;

    var dashboard;
    dashboard, snapshot := TeacherJoins(backend, tid, tws);
    view := dashboard.students;
    AskForState(backend, tid, tws, dashboard);
    refreshed := dashboard.students;
  }

  /**
   * Only a disconnect is announced. A teacher sees a student's frame; then
   * the student's connection ends. If it ends with a disconnect the card goes
   * away; if it ends with any other error (`garbled`) the card stays, stale,
   * although the student is no longer registered.
   */
  method CardAfterStudentLeaves(sid: string, sws: Handle, tid: string, tws: Handle,
                                out: EngineOutput, now: Time, garbled: bool)
    returns (registered: bool, view: Students)
    requires out.Reading? && sws != tws
    ensures !registered
    ensures garbled ==> sid in view && view[sid].latestAnalysis.Some?
    ensures !garbled ==> sid !in view
  {
    var backend := new Backend();
    var welcomed := backend.TeacherConnects(tid, tws, {});
    var dashboard := new TeacherDashboard.Mount(tws);
    dashboard.OnMessage(InitialState(backend.analyzer.AllStudentsState()));
    assert dashboard.students == map[];

    backend.StudentConnects(sid, sws);
    var stamped := FrameSeenBy(backend, dashboard, sid, sws, tid, tws, out, now);
    LeaveSeenBy(backend, dashboard, sid, sws, tid, tws, garbled, now);
    registered := sid in backend.manager.studentConnections;
    view := dashboard.students;
  }

  /**
   * The student's indicator and the teacher's card agree on colour: a status
   * the page shows in the tertiary colour the dashboard shows as secondary.
   */
  lemma ColoursAgree(analysis: Analysis)
    ensures Portal.StatusColor(Some(analysis)) ==
      match Dashboard.StatusColor(Some(analysis.status))
      case Success => Portal.Success
      case Warning => Portal.Warning
      case Danger => Portal.Danger
      case Secondary => Portal.Tertiary
  {
  }
}
