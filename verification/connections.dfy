/**
 * The backend's registry of open sockets: one dictionary for students and one
 * for teachers, each from the client's id to its socket. A socket is a
 * `Handle`; whether a send on it raises is given by the set `failing`.
 */
module Connections {
  import opened Wire

  /** The teachers whose socket does not fail. */
  ghost function Reachable(teachers: map<string, Handle>, failing: set<Handle>): set<string> {
    set t | t in teachers && teachers[t] !in failing
  }

  /** The teacher registry after the failed teachers have been pruned. */
  function Pruned(teachers: map<string, Handle>, failing: set<Handle>): map<string, Handle> {
    map t | t in teachers && teachers[t] !in failing :: teachers[t]
  }

  /** When no send fails, pruning keeps every teacher. */
  lemma PrunedNothing(teachers: map<string, Handle>)
    ensures Pruned(teachers, {}) == teachers
  {
  }

  /**
   * `sent` is a broadcast of `msg` over `teachers`: it reaches every teacher
   * whose socket does not fail, one delivery each, and no other socket.
   */
  ghost predicate IsBroadcast(teachers: map<string, Handle>, failing: set<Handle>, sent: seq<Delivery>, msg: Message) {
    && |sent| == |Reachable(teachers, failing)|
    && (forall t :: t in Reachable(teachers, failing) ==> Delivery(teachers[t], msg) in sent)
    && (forall d :: d in sent ==>
          d.msg == msg && d.to in (set t | t in Reachable(teachers, failing) :: teachers[t]))
  }

  /** A sequence without repetitions has as many elements as its set. */
  lemma {:induction false} DistinctCard<T>(s: seq<T>)
    requires forall i, j :: 0 <= i < j < |s| ==> s[i] != s[j]
    ensures |set x | x in s| == |s|
  {
    if s != [] {
      var init := s[..|s| - 1];
      DistinctCard(init);
      assert (set x | x in s) == (set x | x in init) + {s[|s| - 1]};
    }
  }

  /** The deliveries of the first loop of a broadcast form a broadcast. */
  lemma SentIsBroadcast(teachers: map<string, Handle>, failing: set<Handle>,
                        sent: seq<Delivery>, reached: seq<string>, msg: Message)
    requires |sent| == |reached|
    requires forall i :: 0 <= i < |reached| ==>
      reached[i] in teachers && sent[i] == Delivery(teachers[reached[i]], msg)
    requires forall i, j :: 0 <= i < j < |reached| ==> reached[i] != reached[j]
    requires forall t :: t in reached <==> t in teachers && teachers[t] !in failing
    ensures IsBroadcast(teachers, failing, sent, msg)
  {
    DistinctCard(reached);
    assert (set x | x in reached) == Reachable(teachers, failing);
    forall t | t in Reachable(teachers, failing)
      ensures Delivery(teachers[t], msg) in sent
    {
      var i :| 0 <= i < |reached| && reached[i] == t;
      assert sent[i] == Delivery(teachers[t], msg);
    }
  }

  class ConnectionManager {
    var studentConnections: map<string, Handle>
    var teacherConnections: map<string, Handle>

    constructor ()
      ensures studentConnections == map[] && teacherConnections == map[]
    {
      studentConnections := map[];
      teacherConnections := map[];
    }

    /** Registers `ws` under `id`, replacing whatever socket had that id. */
    method ConnectStudent(ws: Handle, id: string)
      modifies this
      ensures studentConnections == old(studentConnections)[id := ws]
      ensures StudentCount() == old(StudentCount()) + (if id in old(studentConnections) then 0 else 1)
      ensures teacherConnections == old(teacherConnections)
    {
      studentConnections := studentConnections[id := ws];
    }

    /** Removes `id` whatever socket it maps to; an absent id changes nothing. */
    method DisconnectStudent(id: string)
      modifies this
      ensures studentConnections == old(studentConnections) - {id}
      ensures id !in old(studentConnections) ==> studentConnections == old(studentConnections)
      ensures StudentCount() == old(StudentCount()) - (if id in old(studentConnections) then 1 else 0)
      ensures teacherConnections == old(teacherConnections)
    {
      if id in studentConnections {
        studentConnections := studentConnections - {id};
      }
    }

    method ConnectTeacher(ws: Handle, id: string)
      modifies this
      ensures teacherConnections == old(teacherConnections)[id := ws]
      ensures TeacherCount() == old(TeacherCount()) + (if id in old(teacherConnections) then 0 else 1)
      ensures studentConnections == old(studentConnections)
    {
      teacherConnections := teacherConnections[id := ws];
    }

    method DisconnectTeacher(id: string)
      modifies this
      ensures teacherConnections == old(teacherConnections) - {id}
      ensures id !in old(teacherConnections) ==> teacherConnections == old(teacherConnections)
      ensures TeacherCount() == old(TeacherCount()) - (if id in old(teacherConnections) then 1 else 0)
      ensures studentConnections == old(studentConnections)
    {
      if id in teacherConnections {
        teacherConnections := teacherConnections - {id};
      }
    }

    /**
     * The first loop of the broadcast: try the send to every registered
     * teacher, collecting the deliveries that went through and the teachers
     * whose send raised. `reached` names the teacher of each delivery. The
     * order in which teachers are visited is not modelled.
     */
    method SendToAllTeachers(msg: Message, failing: set<Handle>)
      returns (sent: seq<Delivery>, ghost reached: seq<string>, disconnected: seq<string>)
      ensures |sent| == |reached|
      ensures forall i :: 0 <= i < |reached| ==>
        reached[i] in teacherConnections && sent[i] == Delivery(teacherConnections[reached[i]], msg)
      ensures forall i, j :: 0 <= i < j < |reached| ==> reached[i] != reached[j]
      ensures forall t :: t in reached <==> t in teacherConnections && teacherConnections[t] !in failing
      ensures forall t :: t in disconnected <==> t in teacherConnections && teacherConnections[t] in failing
    {
      sent, reached, disconnected := [], [], [];
      var pending := teacherConnections.Keys;
      while pending != {}
        invariant pending <= teacherConnections.Keys
        invariant |sent| == |reached|
        invariant forall i :: 0 <= i < |reached| ==>
          reached[i] in teacherConnections && reached[i] !in pending
          && sent[i] == Delivery(teacherConnections[reached[i]], msg)
        invariant forall i, j :: 0 <= i < j < |reached| ==> reached[i] != reached[j]
        invariant forall t :: t in reached <==>
          t in teacherConnections && t !in pending && teacherConnections[t] !in failing
        invariant forall t :: t in disconnected <==>
          t in teacherConnections && t !in pending && teacherConnections[t] in failing
        decreases pending
      {
        var t :| t in pending;
        var connection := teacherConnections[t];
        if connection in failing {
          disconnected := disconnected + [t];
        } else {
          sent := sent + [Delivery(connection, msg)];
          reached := reached + [t];
        }
        pending := pending - {t};
      }
    }

    /**
     * Sends `msg` to every registered teacher and then disconnects exactly
     * the teachers whose send raised; one failure does not stop the others.
     */
    method BroadcastToTeachers(msg: Message, failing: set<Handle>)
      returns (sent: seq<Delivery>, ghost reached: seq<string>)
      modifies this
      ensures teacherConnections == Pruned(old(teacherConnections), failing)
      ensures studentConnections == old(studentConnections)
      ensures IsBroadcast(old(teacherConnections), failing, sent, msg)
      ensures |sent| == |reached|
      ensures forall i :: 0 <= i < |reached| ==>
        reached[i] in old(teacherConnections) && sent[i] == Delivery(old(teacherConnections)[reached[i]], msg)
      ensures forall i, j :: 0 <= i < j < |reached| ==> reached[i] != reached[j]
      ensures forall t :: t in reached <==> t in old(teacherConnections) && old(teacherConnections)[t] !in failing
    {
      var disconnected;
      sent, reached, disconnected := SendToAllTeachers(msg, failing);
      SentIsBroadcast(teacherConnections, failing, sent, reached, msg);
      DisconnectTeachers(disconnected, failing);
    }

    /**
     * The second loop of the broadcast: remove each teacher whose send
     * failed, which are exactly those whose socket is in `failing`.
     */
    method DisconnectTeachers(disconnected: seq<string>, failing: set<Handle>)
      requires forall t :: t in disconnected <==> t in teacherConnections && teacherConnections[t] in failing
      modifies this
      ensures teacherConnections == Pruned(old(teacherConnections), failing)
      ensures studentConnections == old(studentConnections)
    {
      ghost var before := teacherConnections;
      for i := 0 to |disconnected|
        invariant studentConnections == old(studentConnections)
        invariant forall t :: t in teacherConnections <==> t in before && t !in disconnected[..i]
        invariant forall t :: t in teacherConnections ==> teacherConnections[t] == before[t]
      {
        DisconnectTeacher(disconnected[i]);
      }
      assert disconnected[..|disconnected|] == disconnected;
    }

    /** Sends to one student if registered; a failed send unregisters it. */
    method SendToStudent(id: string, msg: Message, failing: set<Handle>) returns (sent: seq<Delivery>)
      modifies this
      ensures id !in old(studentConnections) ==> sent == [] && studentConnections == old(studentConnections)
      ensures id in old(studentConnections) && old(studentConnections)[id] in failing ==>
        sent == [] && studentConnections == old(studentConnections) - {id}
      ensures id in old(studentConnections) && old(studentConnections)[id] !in failing ==>
        sent == [Delivery(old(studentConnections)[id], msg)] && studentConnections == old(studentConnections)
      ensures teacherConnections == old(teacherConnections)
    {
      sent := [];
      if id in studentConnections {
        var ws := studentConnections[id];
        if ws in failing {
          DisconnectStudent(id);
        } else {
          sent := [Delivery(ws, msg)];
        }
      }
    }

    function StudentCount(): nat
      reads this
    {
      |studentConnections|
    }

    function TeacherCount(): nat
      reads this
    {
      |teacherConnections|
    }

    /** The registered student ids, each once. */
    method StudentIds() returns (ids: seq<string>)
      ensures |ids| == StudentCount()
      ensures forall id :: id in ids <==> id in studentConnections
      ensures forall i, j :: 0 <= i < j < |ids| ==> ids[i] != ids[j]
    {
      ids := [];
      var pending := studentConnections.Keys;
      while pending != {}
        invariant pending <= studentConnections.Keys
        invariant forall id :: id in ids <==> id in studentConnections && id !in pending
        invariant forall i, j :: 0 <= i < j < |ids| ==> ids[i] != ids[j]
        invariant |ids| + |pending| == |studentConnections.Keys|
        decreases pending
      {
        var id :| id in pending;
        ids := ids + [id];
        pending := pending - {id};
      }
    }
  }
}
