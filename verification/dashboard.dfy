/**
 * The teacher dashboard: the `students` map it rebuilds from the backend's
 * messages, the connection status its socket callbacks set, the counts it
 * shows, and the colour, icon and label mappings of a student card.
 */
module Dashboard {
  import opened Wrappers
  import opened Wire
  import Analyzer

  /** The dashboard's `students` object, keyed by student id. */
  type Students = map<string, StudentEntry>

  /**
   * The key an object literal gets from `[data.student_id]`: the id itself,
   * or the text "undefined" when the analysis carries no id.
   */
  function JsKey(id: Option<string>): (key: string)
    ensures id.Some? ==> key == id.value
    ensures key == "undefined" <==> id.None? || id == Some("undefined")
  {
    match id
    case Some(s) => s
    case None => "undefined"
  }

  /** The entry a `student_update` stores for its analysis. */
  function EntryOf(data: Analysis): StudentEntry {
    StudentEntry(data.studentId, Some(data), data.timestamp)
  }

  /** Whether a message is one of the three kinds the dashboard handles. */
  predicate Handled(msg: Message) {
    msg.InitialState? || msg.StudentUpdate? || msg.StudentDisconnected?
  }

  /** The `onmessage` reconciliation: the new `students` after one message. */
  function Reduce(students: Students, msg: Message): (r: Students)
    ensures msg.InitialState? ==> r == msg.snapshot
    ensures msg.StudentUpdate? ==>
      var key := JsKey(msg.data.studentId);
      && r.Keys == students.Keys + {key}
      && r[key] == EntryOf(msg.data)
      && r[key].latestAnalysis == Some(msg.data)
      && forall k :: k in students && k != key ==> r[k] == students[k]
    ensures msg.StudentDisconnected? ==>
      && r.Keys == students.Keys - {msg.studentId}
      && (forall k :: k in r ==> r[k] == students[k])
      && (msg.studentId !in students ==> r == students)
    ensures !Handled(msg) ==> r == students
  {
    match msg
    case InitialState(snapshot) => snapshot
    case StudentUpdate(data) => students[JsKey(data.studentId) := EntryOf(data)]
    case StudentDisconnected(id, _) => students - {id}
    case _ => students
  }

  /** The messages applied in arrival order. */
  function ReduceAll(students: Students, msgs: seq<Message>): Students
    decreases |msgs|
  {
    if msgs == [] then students else ReduceAll(Reduce(students, msgs[0]), msgs[1..])
  }

  lemma {:induction false} ReduceAllAppend(students: Students, msgs: seq<Message>, msg: Message)
    ensures ReduceAll(students, msgs + [msg]) == Reduce(ReduceAll(students, msgs), msg)
    decreases |msgs|
  {
    if msgs != [] {
      assert (msgs + [msg])[1..] == msgs[1..] + [msg];
      ReduceAllAppend(Reduce(students, msgs[0]), msgs[1..], msg);
    }
  }

  /** The analysis of the last `student_update` for `id` among `msgs`, if any. */
  function LastUpdateFor(msgs: seq<Message>, id: string): Option<Analysis>
    decreases |msgs|
  {
    if msgs == [] then None
    else
      var last := msgs[|msgs| - 1];
      if last.StudentUpdate? && JsKey(last.data.studentId) == id then Some(last.data)
      else LastUpdateFor(msgs[..|msgs| - 1], id)
  }

  /**
   * Updates are last-write-wins per id: after a run of `student_update`s an
   * id holds the entry of its last update, and an id no update named keeps
   * its earlier entry (or stays absent).
   */
  lemma {:induction false} LastWriteWins(students: Students, msgs: seq<Message>, id: string)
    requires forall i :: 0 <= i < |msgs| ==> msgs[i].StudentUpdate?
    ensures var r := ReduceAll(students, msgs);
      match LastUpdateFor(msgs, id)
      case Some(data) => id in r && r[id] == EntryOf(data)
      case None => (id in r <==> id in students) && (id in r ==> r[id] == students[id])
    decreases |msgs|
  {
    if msgs != [] {
      var init := msgs[..|msgs| - 1];
      var last := msgs[|msgs| - 1];
      assert msgs == init + [last];
      ReduceAllAppend(students, init, last);
      LastWriteWins(students, init, id);
    }
  }

  /** The sequence `[s1, s2, s1]` leaves exactly the second `s1` and `s2`. */
  lemma ThreeUpdates(a1: Analysis, b: Analysis, a2: Analysis)
    requires a1.studentId.Some? && a2.studentId == a1.studentId
    requires b.studentId.Some? && b.studentId != a1.studentId
    ensures ReduceAll(map[], [StudentUpdate(a1), StudentUpdate(b), StudentUpdate(a2)])
      == map[a1.studentId.value := EntryOf(a2), b.studentId.value := EntryOf(b)]
  {
    var msgs := [StudentUpdate(a1), StudentUpdate(b), StudentUpdate(a2)];
    var r := ReduceAll(map[], msgs);
    var expected := map[a1.studentId.value := EntryOf(a2), b.studentId.value := EntryOf(b)];
    assert msgs[..2] == [StudentUpdate(a1), StudentUpdate(b)];
    assert msgs[..2][..1] == [StudentUpdate(a1)];
    forall id | true
      ensures id in r <==> id in expected
      ensures id in r ==> r[id] == expected[id]
    {
      LastWriteWins(map[], msgs, id);
      var m1 := [StudentUpdate(a1)];
      assert LastUpdateFor(m1, id) == if id == a1.studentId.value then Some(a1) else None by {
        assert m1[..0] == [];
      }
      assert LastUpdateFor(msgs[..2], id) ==
        if id == b.studentId.value then Some(b) else LastUpdateFor(m1, id);
    }
  }

  /**
   * An `initial_state` wipes out whatever came before it: the map after it
   * depends only on the snapshot and the messages that follow.
   */
  lemma {:induction false} InitialStateForgets(students: Students, before: seq<Message>,
                                               snapshot: Students, after: seq<Message>)
    ensures ReduceAll(students, before + [InitialState(snapshot)] + after)
      == ReduceAll(snapshot, after)
    decreases |before|
  {
    if before == [] {
      assert ([] + [InitialState(snapshot)] + after)[1..] == after;
    } else {
      assert (before + [InitialState(snapshot)] + after)[1..] == before[1..] + [InitialState(snapshot)] + after;
      InitialStateForgets(Reduce(students, before[0]), before[1..], snapshot, after);
    }
  }

  /** Messages of the other kinds (`state_update`, `pong`, ...) change nothing. */
  lemma {:induction false} UnhandledIgnored(students: Students, msgs: seq<Message>)
    requires forall i :: 0 <= i < |msgs| ==> !Handled(msgs[i])
    ensures ReduceAll(students, msgs) == students
    decreases |msgs|
  {
    if msgs != [] {
      UnhandledIgnored(students, msgs[1..]);
    }
  }

  /**
   * An update whose analysis carries no id lands under "undefined": it
   * overwrites the card of a student whose id is that very text.
   */
  lemma AnonymousUpdateOverwrites(students: Students, named: Analysis, anonymous: Analysis)
    requires named.studentId == Some("undefined") && anonymous.studentId.None?
    ensures var r := Reduce(Reduce(students, StudentUpdate(named)), StudentUpdate(anonymous));
      && "undefined" in r && r["undefined"] == EntryOf(anonymous)
      && r.Keys == students.Keys + {"undefined"}
  {
  }

  /** Removing a student twice is the same as removing it once. */
  lemma DisconnectIdempotent(students: Students, id: string, at1: Time, at2: Time)
    ensures Reduce(Reduce(students, StudentDisconnected(id, at1)), StudentDisconnected(id, at2))
      == Reduce(students, StudentDisconnected(id, at1))
  {
  }

  /** The number of cards shown, one per entry. */
  function ActiveCount(students: Students): nat
  {
    |students|
  }

  /**
   * How each message moves the active count: an update of a new id adds one,
   * of a known id none; a disconnect of a listed id removes one; an
   * `initial_state` sets it to the size of the snapshot.
   */
  lemma ActiveCountMoves(students: Students, msg: Message)
    ensures msg.InitialState? ==> ActiveCount(Reduce(students, msg)) == |msg.snapshot|
    ensures msg.StudentUpdate? ==>
      ActiveCount(Reduce(students, msg)) ==
        ActiveCount(students) + (if JsKey(msg.data.studentId) in students then 0 else 1)
    ensures msg.StudentDisconnected? ==>
      ActiveCount(Reduce(students, msg)) ==
        ActiveCount(students) - (if msg.studentId in students then 1 else 0)
    ensures !Handled(msg) ==> ActiveCount(Reduce(students, msg)) == ActiveCount(students)
  {
    if msg.StudentDisconnected? {
      var r := Reduce(students, msg);
      assert r.Keys == students.Keys - {msg.studentId};
    } else if msg.StudentUpdate? {
      var r := Reduce(students, msg);
      assert r.Keys == students.Keys + {JsKey(msg.data.studentId)};
    }
  }

  predicate IsAlert(e: StudentEntry) {
    e.latestAnalysis.Some? && e.latestAnalysis.value.status == "alert"
  }

  /** The ids whose latest analysis has status "alert". */
  function Alerting(students: Students): set<string> {
    set k | k in students && IsAlert(students[k])
  }

  lemma {:induction false} SubsetCard<T>(a: set<T>, b: set<T>)
    requires a <= b
    ensures |a| <= |b|
    decreases |b|
  {
    if b != {} {
      var x :| x in b;
      SubsetCard(a - {x}, b - {x});
    }
  }

  /** The number of entries whose latest analysis is an alert. */
  function AlertCount(students: Students): (n: nat)
    ensures n <= ActiveCount(students)
    ensures n == 0 <==> forall k :: k in students ==> !IsAlert(students[k])
    ensures (forall k :: k in students ==> IsAlert(students[k])) ==> n == ActiveCount(students)
  {
    AlertingBounds(students);
    |Alerting(students)|
  }

  lemma AlertingBounds(students: Students)
    ensures |Alerting(students)| <= |students.Keys|
    ensures Alerting(students) == {} <==> forall k :: k in students ==> !IsAlert(students[k])
    ensures Alerting(students) <= students.Keys
    ensures Alerting(students) == students.Keys <==> forall k :: k in students ==> IsAlert(students[k])
  {
    SubsetCard(Alerting(students), students.Keys);
    forall k | k in students && IsAlert(students[k])
      ensures k in Alerting(students)
    {
    }
  }

  /** The tone of a card: Bootstrap-like colour names. */
  datatype Tone = Success | Warning | Danger | Secondary

  /** The colour of a card from its analysis status (`None` is `undefined`). */
  function StatusColor(status: Option<string>): (t: Tone)
    ensures t == Success <==> status == Some("good")
    ensures t == Warning <==> status == Some("warning")
    ensures t == Danger <==> status == Some("alert")
    ensures t == Secondary <==> status !in {Some("good"), Some("warning"), Some("alert")}
  {
    match status
    case Some("good") => Success
    case Some("warning") => Warning
    case Some("alert") => Danger
    case _ => Secondary
  }

  /** The icon of a card's badge: a check mark, a warning sign, a cross, or "?". */
  function StatusIcon(status: Option<string>): (icon: string)
    ensures icon == "?" <==> StatusColor(status) == Secondary
  {
    match status
    case Some("good") => "\U{2713}"
    case Some("warning") => "\U{26A0}"
    case Some("alert") => "\U{2715}"
    case _ => "?"
  }

  /** Colour and icon always agree: two statuses share an icon iff they share a colour. */
  lemma IconFollowsColor(s1: Option<string>, s2: Option<string>)
    ensures StatusIcon(s1) == StatusIcon(s2) <==> StatusColor(s1) == StatusColor(s2)
  {
  }

  /** The status of an entry's card; an entry without analysis has none. */
  function CardStatus(e: StudentEntry): Option<string> {
    if e.latestAnalysis.Some? then Some(e.latestAnalysis.value.status) else None
  }

  /** A card is red exactly when the entry counts as an alert. */
  lemma DangerIsAlert(e: StudentEntry)
    ensures StatusColor(CardStatus(e)) == Danger <==> IsAlert(e)
  {
  }

  /** The label of an indicator tag: its first underscore becomes a space. */
  function IndicatorLabel(s: string): (tag: string)
    ensures |tag| == |s|
    ensures forall i :: 0 <= i < |s| ==>
      tag[i] == if s[i] == '_' && '_' !in s[..i] then ' ' else s[i]
  {
    if s == [] then []
    else if s[0] == '_' then [' '] + s[1..]
    else
      var rest := IndicatorLabel(s[1..]);
      assert forall i :: 1 <= i < |s| ==> s[1..][..i - 1] == s[1..i];
      [s[0]] + rest
  }

  /** The number of underscores in `s`. */
  function Underscores(s: string): nat {
    if s == [] then 0 else (if s[0] == '_' then 1 else 0) + Underscores(s[1..])
  }

  /** Only the first underscore is replaced: a tag keeps every later one. */
  lemma {:induction false} LabelDropsOneUnderscore(s: string)
    ensures Underscores(IndicatorLabel(s)) == Underscores(s) - (if '_' in s then 1 else 0)
  {
    if s != [] {
      if s[0] == '_' {
        assert IndicatorLabel(s)[1..] == s[1..];
      } else {
        assert IndicatorLabel(s)[1..] == IndicatorLabel(s[1..]);
        LabelDropsOneUnderscore(s[1..]);
        assert '_' in s <==> '_' in s[1..];
      }
    }
  }

  /** A name with exactly one underscore gets a tag without any. */
  lemma SingleUnderscoreClean(s: string, i: nat)
    requires i < |s| && s[i] == '_' && '_' !in s[..i] && '_' !in s[i + 1..]
    ensures '_' !in IndicatorLabel(s)
  {
    var tag := IndicatorLabel(s);
    forall j | 0 <= j < |s|
      ensures tag[j] != '_'
    {
      if j > i {
        assert s[j] == s[i + 1..][j - i - 1];
      } else if j < i {
        assert s[j] == s[..i][j];
      }
    }
  }

  lemma IndicatorNames(c: Analyzer.ConfusionCues, name: string)
    requires name in Analyzer.Indicators(c)
    ensures name in ["brow_furrowing", "no_smile", "head_tilt", "eye_squinting", "mouth_tension"]
  {
  }

  /** `head_tail` with no other underscore gets a tag without any. */
  lemma JoinedClean(s: string, head: string, tail: string)
    requires s == head + "_" + tail && '_' !in head && '_' !in tail
    ensures '_' !in IndicatorLabel(s)
  {
    assert s[..|head|] == head && s[|head| + 1..] == tail;
    SingleUnderscoreClean(s, |head|);
  }

  /** Each of the five indicator names has exactly one underscore. */
  lemma KnownNamesClean(name: string)
    requires name in ["brow_furrowing", "no_smile", "head_tilt", "eye_squinting", "mouth_tension"]
    ensures '_' !in IndicatorLabel(name)
  {
    if name == "brow_furrowing" {
      JoinedClean(name, "brow", "furrowing");
    } else if name == "no_smile" {
      JoinedClean(name, "no", "smile");
    } else if name == "head_tilt" {
      JoinedClean(name, "head", "tilt");
    } else if name == "eye_squinting" {
      JoinedClean(name, "eye", "squinting");
    } else {
      JoinedClean(name, "mouth", "tension");
    }
  }

  /** Every indicator the analyzer reports has one underscore, so its tag has none. */
  lemma AnalyzerLabelsClean(c: Analyzer.ConfusionCues, name: string)
    requires name in Analyzer.Indicators(c)
    ensures '_' !in IndicatorLabel(name)
  {
    IndicatorNames(c, name);
    KnownNamesClean(name);
  }

  /**
   * The dashboard component: its `students` map, its connection `status`,
   * the socket held in `wsRef`, and the sockets it has closed.
   */
  class TeacherDashboard {
    var students: Students
    var status: ConnStatus
    var socket: Option<Handle>
    var closed: seq<Handle>

    /** Mounting opens socket `ws`; nothing is known yet and the status is 'disconnected'. */
    constructor Mount(ws: Handle)
      ensures students == map[] && status == Disconnected
      ensures socket == Some(ws) && closed == []
    {
      students := map[];
      status := Disconnected;
      socket := Some(ws);
      closed := [];
    }

    method OnOpen()
      modifies this
      ensures status == Connected
      ensures students == old(students) && socket == old(socket) && closed == old(closed)
    {
      status := Connected;
    }

    /** A message reconciles `students` and never touches the status. */
    method OnMessage(msg: Message)
      modifies this
      ensures students == Reduce(old(students), msg)
      ensures status == old(status) && socket == old(socket) && closed == old(closed)
    {
      students := Reduce(students, msg);
    }

    method OnError()
      modifies this
      ensures status == Error
      ensures students == old(students) && socket == old(socket) && closed == old(closed)
    {
      status := Error;
    }

    method OnClose()
      modifies this
      ensures status == Disconnected
      ensures students == old(students) && socket == old(socket) && closed == old(closed)
    {
      status := Disconnected;
    }

    /** The effect's cleanup closes the socket in `wsRef`, if any. */
    method Unmount()
      modifies this
      ensures closed == old(closed) + (if old(socket).Some? then [old(socket).value] else [])
      ensures students == old(students) && status == old(status) && socket == old(socket)
    {
      if socket.Some? {
        closed := closed + [socket.value];
      }
    }
  }
}
