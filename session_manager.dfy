/**
 * `SessionManager` (`app/session_manager.py`): the active sessions, each with
 * a status and an append-only message history.
 *
 * The dictionary of active sessions is the map `sessions` together with
 * `order`, the order its keys were inserted in, which `list_active_sessions`
 * reports. Clock readings are the parameter `now`; the id an `AgentSession`
 * generates for itself is the parameter `generatedId`. The Agno session that
 * mirrors each history is outside the model: a failure to update it is
 * ignored by the source anyway.
 */
module SessionManager {
  import opened Wrappers

  datatype SessionStatus = Active | Completed | Failed | Paused

  datatype Message = Message(role: string, content: string, timestamp: string)

  datatype Session = Session(createdAt: string, updatedAt: string, status: SessionStatus,
                             userId: Option<string>, history: seq<Message>)

  /** `order` without `id`, the rest in place. */
  function Without(order: seq<string>, id: string): (r: seq<string>)
    ensures forall x :: x in r <==> x in order && x != id
    ensures |r| <= |order|
  {
    if order == [] then []
    else if order[0] == id then Without(order[1..], id)
    else [order[0]] + Without(order[1..], id)
  }

  /** No element occurs twice. */
  predicate Distinct(order: seq<string>) {
    forall i, j :: 0 <= i < j < |order| ==> order[i] != order[j]
  }

  /** Removing an id keeps the others distinct. */
  lemma {:induction false} WithoutDistinct(order: seq<string>, id: string)
    requires Distinct(order)
    ensures Distinct(Without(order, id))
  {
    if order != [] {
      assert Distinct(order[1..]) by {
        forall i, j | 0 <= i < j < |order[1..]|
          ensures order[1..][i] != order[1..][j]
        {
          assert order[1..][i] == order[i + 1] && order[1..][j] == order[j + 1];
        }
      }
      WithoutDistinct(order[1..], id);
      var rest := Without(order[1..], id);
      if order[0] == id {
        assert Without(order, id) == rest;
      } else {
        assert order[0] !in order[1..];
        assert order[0] !in rest;
        var r := [order[0]] + rest;
        forall i, j | 0 <= i < j < |r|
          ensures r[i] != r[j]
        {
          if i == 0 {
            assert r[j] == rest[j - 1] && rest[j - 1] in rest;
          } else {
            assert r[i] == rest[i - 1] && r[j] == rest[j - 1];
          }
        }
        assert Without(order, id) == r;
      }
    }
  }

  class SessionManager {
    var sessions: map<string, Session>
    var order: seq<string>

    /** The insertion order lists every active id exactly once. */
    ghost predicate Valid()
      reads this
    {
      (forall id :: id in order <==> id in sessions)
      && Distinct(order)
    }

    constructor ()
      ensures Valid() && sessions == map[] && order == []
    {
      sessions := map[];
      order := [];
    }

    /** `get_session`: the record, or None. */
    function GetSession(sessionId: string): (r: Option<Session>)
      reads this
      ensures r.Some? <==> sessionId in sessions
      ensures r.Some? ==> r.value == sessions[sessionId]
    {
      if sessionId in sessions then Some(sessions[sessionId]) else None
    }

    /**
     * `create_session`: the requested id when one is given, else the one the
     * new agent session generated; the record starts ACTIVE with an empty
     * history and replaces any record under that id.
     */
    method CreateSession(sessionId: Option<string>, generatedId: string, userId: Option<string>, now: string)
      returns (id: string)
      requires Valid()
      modifies this
      ensures Valid()
      ensures id == if Truthy(sessionId) then sessionId.value else generatedId
      ensures sessions == old(sessions)[id := Session(now, now, Active, userId, [])]
      ensures order == if id in old(sessions) then old(order) else old(order) + [id]
    {
      id := if Truthy(sessionId) then sessionId.value else generatedId;
      if id !in sessions {
        order := order + [id];
      }
      sessions := sessions[id := Session(now, now, Active, userId, [])];
    }

    /**
     * `add_message_to_session`: an unknown id changes nothing and gives
     * false; a known one gets exactly one message at the end of its history.
     */
    method AddMessageToSession(sessionId: string, role: string, content: string, now: string)
      returns (ok: bool)
      requires Valid()
      modifies this
      ensures Valid() && order == old(order)
      ensures ok <==> sessionId in old(sessions)
      ensures !ok ==> sessions == old(sessions)
      ensures ok ==> sessions == old(sessions)[sessionId := old(sessions)[sessionId].(
        history := old(sessions)[sessionId].history + [Message(role, content, now)], updatedAt := now)]
    {
      var sessionData := GetSession(sessionId);
      if sessionData.None? {
        return false;
      }
      var s := sessionData.value;
      sessions := sessions[sessionId := s.(history := s.history + [Message(role, content, now)], updatedAt := now)];
      return true;
    }

    /** `get_session_history`: the history of a known id, else empty. */
    function GetSessionHistory(sessionId: string): (h: seq<Message>)
      reads this
      ensures sessionId !in sessions ==> h == []
      ensures sessionId in sessions ==> h == sessions[sessionId].history
    {
      var sessionData := GetSession(sessionId);
      if sessionData.Some? then sessionData.value.history else []
    }

    /** `update_session_status`: false for an unknown id; otherwise the status is set. */
    method UpdateSessionStatus(sessionId: string, status: SessionStatus, now: string) returns (ok: bool)
      requires Valid()
      modifies this
      ensures Valid() && order == old(order)
      ensures ok <==> sessionId in old(sessions)
      ensures !ok ==> sessions == old(sessions)
      ensures ok ==> sessions == old(sessions)[sessionId := old(sessions)[sessionId].(status := status, updatedAt := now)]
    {
      var sessionData := GetSession(sessionId);
      if sessionData.None? {
        return false;
      }
      sessions := sessions[sessionId := sessionData.value.(status := status, updatedAt := now)];
      return true;
    }

    /**
     * `end_session`: for a known id the status is set and the record leaves
     * the active sessions; an unknown id changes nothing.
     */
    method EndSession(sessionId: string, status: SessionStatus, now: string) returns (ok: bool)
      requires Valid()
      modifies this
      ensures Valid()
      ensures ok <==> sessionId in old(sessions)
      ensures !ok ==> sessions == old(sessions) && order == old(order)
      ensures ok ==> sessions == old(sessions) - {sessionId} && order == Without(old(order), sessionId)
      ensures sessionId !in sessions
    {
      var success := UpdateSessionStatus(sessionId, status, now);
      if success {
        var sessionData := GetSession(sessionId);
        sessions := sessions - {sessionId};
        WithoutDistinct(order, sessionId);
        order := Without(order, sessionId);
        return sessionData.Some?;
      }
      return false;
    }

    /** `list_active_sessions`: every active id once, in insertion order. */
    function ListActiveSessions(): (ids: seq<string>)
      reads this
      requires Valid()
      ensures forall id :: id in ids <==> id in sessions
      ensures Distinct(ids)
    {
      order
    }
  }

  /** `end_session`'s default status. */
  const DefaultEndStatus := Completed
}
