/**
 * The student page: its displayed status, its streaming flag, the single
 * latest analysis, and the three resource handles it keeps in refs (camera
 * stream, socket, interval timer). Browser calls it makes (clearing a
 * timer, stopping the camera's tracks, closing the socket, sending a frame)
 * are appended to `effects`. Handles are handed out in increasing order from
 * `nextHandle`, which starts at 1 as browser timer ids do.
 *
 * The transitions are the functions below; the class `StudentPortal` holds
 * the same state in fields and each of its methods performs one transition.
 */
module Portal {
  import opened Wrappers
  import opened Wire

  /** A browser call the page makes. */
  datatype Effect =
    | SendFrame(socket: Handle, frame: string)
    | ClearInterval(timer: Handle)
    | StopTracks(stream: Handle)
    | CloseSocket(socket: Handle)

  datatype PortalState = PortalState(
    status: ConnStatus,
    analysis: Option<Analysis>,
    isStreaming: bool,
    streamRef: Option<Handle>,
    wsRef: Option<Handle>,
    intervalRef: Option<Handle>,
    socketOpen: bool,          // the socket in `wsRef` is in the OPEN state
    liveTimers: set<Handle>,   // intervals set and not yet cleared
    nextHandle: Handle,
    effects: seq<Effect>)

  /** Every handle was handed out before, and none is 0 (so every ref is truthy). */
  ghost predicate Valid(p: PortalState) {
    && 1 <= p.nextHandle
    && (p.streamRef.Some? ==> 1 <= p.streamRef.value < p.nextHandle)
    && (p.wsRef.Some? ==> 1 <= p.wsRef.value < p.nextHandle)
    && (p.intervalRef.Some? ==> 1 <= p.intervalRef.value < p.nextHandle)
    && (forall t :: t in p.liveTimers ==> 1 <= t < p.nextHandle)
  }

  /** The page as first rendered. */
  function Mounted(): (p: PortalState)
    ensures Valid(p)
    ensures p.status == Disconnected && !p.isStreaming && p.analysis == None
    ensures p.streamRef == None && p.wsRef == None && p.intervalRef == None
    ensures p.liveTimers == {} && p.effects == []
  {
    PortalState(Disconnected, None, false, None, None, None, false, {}, 1, [])
  }

  /**
   * Start Session. `granted` says whether the camera was granted. Without it
   * only the status changes, to error; with it a stream and a new, not yet
   * open socket are kept in the refs.
   */
  function Started(p: PortalState, granted: bool): (r: PortalState)
    ensures Valid(p) ==> Valid(r)
    ensures !granted ==> r == p.(status := Error)
    ensures granted ==>
      && r.streamRef == Some(p.nextHandle) && r.wsRef == Some(p.nextHandle + 1)
      && !r.socketOpen
      && r.status == p.status && r.isStreaming == p.isStreaming && r.analysis == p.analysis
      && r.intervalRef == p.intervalRef && r.liveTimers == p.liveTimers && r.effects == p.effects
    ensures granted && Valid(p) ==>
      && r.streamRef.value !in p.liveTimers && r.wsRef.value !in p.liveTimers
      && (p.wsRef.Some? ==> r.wsRef != p.wsRef)
  {
    if !granted then p.(status := Error)
    else
      p.(streamRef := Some(p.nextHandle), wsRef := Some(p.nextHandle + 1),
         socketOpen := false, nextHandle := p.nextHandle + 2)
  }

  /** The socket's `onopen`: connected, streaming, and a new 200 ms interval. */
  function Opened(p: PortalState): (r: PortalState)
    ensures Valid(p) ==> Valid(r)
    ensures r.status == Connected && r.isStreaming && r.socketOpen
    ensures r.intervalRef == Some(p.nextHandle)
    ensures r.liveTimers == p.liveTimers + {p.nextHandle}
    ensures Valid(p) ==> p.nextHandle !in p.liveTimers
    ensures r.analysis == p.analysis && r.streamRef == p.streamRef && r.wsRef == p.wsRef
    ensures r.effects == p.effects
  {
    p.(status := Connected, isStreaming := true, socketOpen := true,
       intervalRef := Some(p.nextHandle), liveTimers := p.liveTimers + {p.nextHandle},
       nextHandle := p.nextHandle + 1)
  }

  /** The socket's `onmessage`: only an `analysis_result` is kept. */
  function Received(p: PortalState, msg: Message): (r: PortalState)
    ensures Valid(p) ==> Valid(r)
    ensures msg.AnalysisResult? ==> r.analysis == Some(msg.data)
    ensures !msg.AnalysisResult? ==> r == p
    ensures r == p.(analysis := r.analysis)
  {
    if msg.AnalysisResult? then p.(analysis := Some(msg.data)) else p
  }

  /** The socket's `onerror` changes the status and nothing else. */
  function Errored(p: PortalState): (r: PortalState)
    ensures Valid(p) ==> Valid(r)
    ensures r.status == Error
    ensures r == p.(status := r.status)
  {
    p.(status := Error)
  }

  /**
   * The socket's `onclose`: disconnected and not streaming. The interval is
   * not cleared and the camera is not stopped.
   */
  function Closed(p: PortalState): (r: PortalState)
    ensures Valid(p) ==> Valid(r)
    ensures r.status == Disconnected && !r.isStreaming && !r.socketOpen
    ensures r.liveTimers == p.liveTimers && r.intervalRef == p.intervalRef
    ensures r.streamRef == p.streamRef && r.wsRef == p.wsRef
    ensures r.analysis == p.analysis && r.effects == p.effects
  {
    p.(status := Disconnected, isStreaming := false, socketOpen := false)
  }

  /** Whether an interval tick sends a frame: video, canvas and an open socket. */
  predicate CanSend(p: PortalState, videoReady: bool, canvasReady: bool) {
    videoReady && canvasReady && p.wsRef.Some? && p.socketOpen
  }

  /**
   * One tick of an interval, of whichever timer: it sends the captured
   * `frame` as one `video_frame` message on the socket in `wsRef` when it
   * can, and otherwise does nothing.
   */
  function Ticked(p: PortalState, videoReady: bool, canvasReady: bool, frame: string): (r: PortalState)
    ensures Valid(p) ==> Valid(r)
    ensures CanSend(p, videoReady, canvasReady) ==>
      r.effects == p.effects + [SendFrame(p.wsRef.value, frame)]
    ensures !CanSend(p, videoReady, canvasReady) ==> r == p
    ensures r == p.(effects := r.effects)
  {
    if CanSend(p, videoReady, canvasReady)
    then p.(effects := p.effects + [SendFrame(p.wsRef.value, frame)])
    else p
  }

  /** The browser calls `stopStreaming` makes: each ref that is set, in order. */
  function StopEffects(p: PortalState): seq<Effect> {
    (if p.intervalRef.Some? then [ClearInterval(p.intervalRef.value)] else [])
    + (if p.streamRef.Some? then [StopTracks(p.streamRef.value)] else [])
    + (if p.wsRef.Some? then [CloseSocket(p.wsRef.value)] else [])
  }

  /**
   * End Session, and the unmount cleanup: clear the interval in the ref,
   * stop the tracks, close the socket; then not streaming and disconnected.
   * The refs keep their handles.
   */
  function Stopped(p: PortalState): (r: PortalState)
    ensures Valid(p) ==> Valid(r)
    ensures r.status == Disconnected && !r.isStreaming && !r.socketOpen
    ensures r.effects == p.effects + StopEffects(p)
    ensures r.liveTimers ==
      if p.intervalRef.Some? then p.liveTimers - {p.intervalRef.value} else p.liveTimers
    ensures r.streamRef == p.streamRef && r.wsRef == p.wsRef && r.intervalRef == p.intervalRef
    ensures r.analysis == p.analysis
  {
    var cleared := if p.intervalRef.Some? then p.liveTimers - {p.intervalRef.value} else p.liveTimers;
    p.(status := Disconnected, isStreaming := false, socketOpen := false,
       liveTimers := cleared, effects := p.effects + StopEffects(p))
  }

  /**
   * Stopping twice (End Session, then unmount) leaves the page as stopping
   * once does; only the browser calls are made a second time.
   */
  lemma StopTwice(p: PortalState)
    ensures Stopped(Stopped(p)) == Stopped(p).(effects := Stopped(p).effects + StopEffects(p))
  {
  }

  /** After a stop no tick sends anything until the socket opens again. */
  lemma NoFrameAfterStop(p: PortalState, videoReady: bool, canvasReady: bool, frame: string)
    ensures Ticked(Stopped(p), videoReady, canvasReady, frame) == Stopped(p)
  {
  }

  /** A refused camera creates no socket and does not start streaming. */
  lemma DeniedCameraStartsNothing(p: PortalState)
    ensures var r := Started(p, false);
      r.status == Error && r.wsRef == p.wsRef && r.isStreaming == p.isStreaming
      && r.liveTimers == p.liveTimers && r.effects == p.effects
  {
  }

  /** The messages handled in arrival order. */
  function ReceivedAll(p: PortalState, msgs: seq<Message>): PortalState
    decreases |msgs|
  {
    if msgs == [] then p else ReceivedAll(Received(p, msgs[0]), msgs[1..])
  }

  /** The data of the last `analysis_result` among `msgs`, if any. */
  function LastResult(msgs: seq<Message>): Option<Analysis>
    decreases |msgs|
  {
    if msgs == [] then None
    else if msgs[|msgs| - 1].AnalysisResult? then Some(msgs[|msgs| - 1].data)
    else LastResult(msgs[..|msgs| - 1])
  }

  lemma {:induction false} ReceivedAllAppend(p: PortalState, msgs: seq<Message>, msg: Message)
    ensures ReceivedAll(p, msgs + [msg]) == Received(ReceivedAll(p, msgs), msg)
    decreases |msgs|
  {
    if msgs != [] {
      assert (msgs + [msg])[1..] == msgs[1..] + [msg];
      ReceivedAllAppend(Received(p, msgs[0]), msgs[1..], msg);
    }
  }

  /**
   * The single analysis slot holds the last `analysis_result` to arrive;
   * with none, it keeps what it had. Nothing else changes.
   */
  lemma {:induction false} LastResultWins(p: PortalState, msgs: seq<Message>)
    ensures ReceivedAll(p, msgs) ==
      p.(analysis := if LastResult(msgs).Some? then LastResult(msgs) else p.analysis)
    decreases |msgs|
  {
    if msgs != [] {
      var init := msgs[..|msgs| - 1];
      assert msgs == init + [msgs[|msgs| - 1]];
      ReceivedAllAppend(p, init, msgs[|msgs| - 1]);
      LastResultWins(p, init);
    }
  }

  /**
   * When the server closes the socket, `onclose` leaves the interval live.
   * Starting again sets a second interval over the first: both then tick and
   * both send on the new socket, and End Session clears only the second.
   */
  lemma IntervalSurvivesRestart(p: PortalState, videoReady: bool, canvasReady: bool, frame: string)
    requires Valid(p)
    ensures var first := Opened(Started(p, true));
      var second := Opened(Started(Closed(first), true));
      var stale := first.intervalRef.value;
      && second.intervalRef.value != stale
      && {stale, second.intervalRef.value} <= second.liveTimers
      && stale in Stopped(second).liveTimers
      && (videoReady && canvasReady ==>
            Ticked(second, videoReady, canvasReady, frame).effects
              == second.effects + [SendFrame(second.wsRef.value, frame)]
            && second.wsRef != first.wsRef)
  {
  }

  /** The colour of the page's status indicator. */
  datatype Shade = Success | Warning | Danger | Tertiary

  /** No analysis, or a status other than good/warning/alert, gives the tertiary colour. */
  function StatusColor(analysis: Option<Analysis>): (s: Shade)
    ensures s == Success <==> analysis.Some? && analysis.value.status == "good"
    ensures s == Warning <==> analysis.Some? && analysis.value.status == "warning"
    ensures s == Danger <==> analysis.Some? && analysis.value.status == "alert"
    ensures s == Tertiary <==>
      analysis.None? || analysis.value.status !in {"good", "warning", "alert"}
  {
    if analysis.None? then Tertiary
    else match analysis.value.status
      case "good" => Success
      case "warning" => Warning
      case "alert" => Danger
      case _ => Tertiary
  }

  /**
   * The page's component state. Each method performs one transition; the
   * refs keep their handles after a stop, as in the page.
   */
  class StudentPortal {
    var status: ConnStatus
    var analysis: Option<Analysis>
    var isStreaming: bool
    var streamRef: Option<Handle>
    var wsRef: Option<Handle>
    var intervalRef: Option<Handle>
    var socketOpen: bool
    var liveTimers: set<Handle>
    var nextHandle: Handle
    var effects: seq<Effect>

    function State(): PortalState
      reads this
    {
      PortalState(status, analysis, isStreaming, streamRef, wsRef, intervalRef,
                  socketOpen, liveTimers, nextHandle, effects)
    }

    constructor ()
      ensures State() == Mounted()
    {
      status := Disconnected;
      analysis := None;
      isStreaming := false;
      streamRef := None;
      wsRef := None;
      intervalRef := None;
      socketOpen := false;
      liveTimers := {};
      nextHandle := 1;
      effects := [];
    }

    method StartStreaming(granted: bool)
      modifies this
      ensures State() == Started(old(State()), granted)
    {
      if !granted {
        status := Error;
        return;
      }
      var stream := nextHandle;
      streamRef := Some(stream);
      var ws := nextHandle + 1;
      wsRef := Some(ws);
      socketOpen := false;
      nextHandle := nextHandle + 2;
    }

    method OnOpen()
      modifies this
      ensures State() == Opened(old(State()))
    {
      status := Connected;
      isStreaming := true;
      socketOpen := true;
      StartSendingFrames();
    }

    method StartSendingFrames()
      modifies this
      ensures intervalRef == Some(old(nextHandle)) && nextHandle == old(nextHandle) + 1
      ensures liveTimers == old(liveTimers) + {old(nextHandle)}
      ensures status == old(status) && analysis == old(analysis) && isStreaming == old(isStreaming)
      ensures streamRef == old(streamRef) && wsRef == old(wsRef) && socketOpen == old(socketOpen)
      ensures effects == old(effects)
    {
      var timer := nextHandle;
      nextHandle := nextHandle + 1;
      intervalRef := Some(timer);
      liveTimers := liveTimers + {timer};
    }

    method OnMessage(msg: Message)
      modifies this
      ensures State() == Received(old(State()), msg)
    {
      if msg.AnalysisResult? {
        analysis := Some(msg.data);
      }
    }

    method OnError()
      modifies this
      ensures State() == Errored(old(State()))
    {
      status := Error;
    }

    method OnClose()
      modifies this
      ensures State() == Closed(old(State()))
    {
      status := Disconnected;
      isStreaming := false;
      socketOpen := false;
    }

    /** A tick of `timer`; a cleared interval no longer ticks. */
    method Tick(timer: Handle, videoReady: bool, canvasReady: bool, frame: string)
      requires timer in liveTimers
      modifies this
      ensures State() == Ticked(old(State()), videoReady, canvasReady, frame)
    {
      if videoReady && canvasReady && wsRef.Some? && socketOpen {
        effects := effects + [SendFrame(wsRef.value, frame)];
      }
    }

    /** End Session; the unmount cleanup calls the same routine. */
    method StopStreaming()
      modifies this
      ensures State() == Stopped(old(State()))
    {
      ghost var before := State();
      if intervalRef.Some? {
        effects := effects + [ClearInterval(intervalRef.value)];
        liveTimers := liveTimers - {intervalRef.value};
      }
      if streamRef.Some? {
        effects := effects + [StopTracks(streamRef.value)];
      }
      if wsRef.Some? {
        effects := effects + [CloseSocket(wsRef.value)];
      }
      isStreaming := false;
      status := Disconnected;
      socketOpen := false;
      assert effects == before.effects + StopEffects(before);
    }
  }
}
