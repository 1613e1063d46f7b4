/**
 * The in-memory session manager: a map from session id to session and
 * the list of ids ordered by activity, both updated in place. Each
 * method's postcondition gives the new state as a function of the old
 * one (see SessionState), together with the invariant it keeps.
 *
 * The wall clock is an explicit `now` per call, and ClockOk(now) is the
 * assumption that it has not gone back. The random session token is an
 * id supplied by the caller, required to be unused.
 */
module Sessions {
  import opened Wrappers
  import opened Json
  import opened SessionState

  /** Time is counted in microseconds, the resolution of Python's datetime. */
  const MicrosPerHour: int := 3_600_000_000

  /**
   * The hours timedelta(hours=...) accepts: at most 999999999 days either
   * way; beyond them it raises OverflowError and the backend does not start.
   */
  const MinTimeoutHours := -23_999_999_976
  const MaxTimeoutHours := 23_999_999_999

  class SessionManager {
    var sessions: map<string, Session>
    /** session_activity_order: ids ordered old to recent activity. */
    var activityOrder: seq<string>
    /** session_timeout, in microseconds. */
    const timeout: int
    const proactiveCleanup: bool

    function State(): Store
      reads this
    {
      Store(sessions, activityOrder)
    }

    ghost predicate Valid()
      reads this
    {
      Invariant(State())
    }

    /** No stored session was active later than now. */
    ghost predicate ClockOk(now: int)
      reads this
    {
      NotAfter(State(), now)
    }

    /** _is_session_active */
    predicate IsSessionActive(id: string, now: int)
      reads this
    {
      Active(State(), timeout, id, now)
    }

    /** A state after the progressive cleanup, if that is enabled. */
    function Prepared(st: Store, now: int): Store {
      Prepare(st, timeout, proactiveCleanup, now)
    }

    constructor (sessionTimeoutHours: int, proactiveCleanup: bool)
      requires MinTimeoutHours <= sessionTimeoutHours <= MaxTimeoutHours
      ensures Valid()
      ensures sessions == map[] && activityOrder == []
      ensures timeout == sessionTimeoutHours * MicrosPerHour
      ensures this.proactiveCleanup == proactiveCleanup
    {
      sessions := map[];
      activityOrder := [];
      timeout := sessionTimeoutHours * MicrosPerHour;
      this.proactiveCleanup := proactiveCleanup;
    }

    /** _delete_session: the removed session, if the id was stored. */
    method DeleteEntry(id: string) returns (removed: Option<Session>)
      requires Valid()
      modifies this
      ensures Valid()
      ensures State() == Drop(old(State()), id)
      ensures removed == if id in old(sessions) then Some(old(sessions)[id]) else None
      ensures id !in sessions && id !in activityOrder
    {
      DropInvariant(State(), id);
      activityOrder := RemoveFirst(activityOrder, id);
      removed := if id in sessions then Some(sessions[id]) else None;
      sessions := sessions - {id};
    }

    /**
     * _cleanup_expired_sessions: removes expired ids from the front of the
     * activity list, in order, and returns them. Afterwards every
     * remaining session is active and unchanged.
     */
    method CleanupExpiredSessions(now: int) returns (expired: seq<string>)
      requires Valid()
      modifies this
      ensures Valid()
      ensures State() == Sweep(old(State()), timeout, now)
      ensures expired == SweptIds(old(State()), timeout, now)
    {
      ghost var st0 := State();
      expired := [];
      if sessions != map[] {
        while activityOrder != [] && !IsSessionActive(activityOrder[0], now)
          invariant Valid()
          invariant SweepFront(State(), timeout, now) == SweepFront(st0, timeout, now)
          invariant expired + SweptFrontIds(State(), timeout, now) == SweptFrontIds(st0, timeout, now)
          decreases |activityOrder|
        {
          SweepLoopStep(st0, expired, State(), timeout, now);
          var oldest := activityOrder[0];
          var removed := DeleteEntry(oldest);
          expired := expired + [oldest];
        }
        SweepFrontStep(State(), timeout, now);
      }
    }

    /** _get_session_or_delete: an active session is returned, anything else is deleted. */
    method GetSessionOrDelete(id: string, now: int) returns (s: Option<Session>)
      requires Valid()
      modifies this
      ensures Valid()
      ensures old(IsSessionActive(id, now)) ==> s == Some(old(sessions)[id]) && State() == old(State())
      ensures !old(IsSessionActive(id, now)) ==> s == None && State() == Drop(old(State()), id)
    {
      if IsSessionActive(id, now) {
        s := Some(sessions[id]);
      } else {
        var removed := DeleteEntry(id);
        s := None;
      }
    }

    /**
     * update_activity: an active session moves to the end of the list with
     * last activity now; a missing or expired one is deleted and False returned.
     */
    method UpdateActivity(id: string, now: int) returns (ok: bool)
      requires Valid() && ClockOk(now)
      modifies this
      ensures Valid() && ClockOk(now)
      ensures ok == old(IsSessionActive(id, now))
      ensures State() == Access(Prepared(old(State()), now), timeout, id, now)
      ensures ok ==> id in sessions && sessions[id] == Session(now, old(sessions)[id].data)
      ensures ok ==> IsSessionActive(id, now)
      ensures ok ==> activityOrder != [] && activityOrder[|activityOrder| - 1] == id
      ensures ok ==> id !in activityOrder[..|activityOrder| - 1]
      ensures !ok ==> id !in sessions && id !in activityOrder
    {
      PrepareFacts(State(), timeout, proactiveCleanup, now, id);
      if proactiveCleanup {
        var expired := CleanupExpiredSessions(now);
      }
      ghost var prepared := State();
      var s := GetSessionOrDelete(id, now);
      if s.None? {
        return false;
      }
      TouchInvariant(prepared, id, now);
      TouchMovesToBack(prepared, id, now);
      activityOrder := RemoveFirst(activityOrder, id) + [id];
      sessions := sessions[id := Session(now, sessions[id].data)];
      ok := true;
    }

    /**
     * get_session: the session if it is active (refreshed first when
     * asked to), and None otherwise, in which case it has been deleted.
     */
    method GetSession(id: string, now: int, updateActivity: bool) returns (s: Option<Session>)
      requires Valid() && ClockOk(now)
      modifies this
      ensures Valid() && ClockOk(now)
      ensures s.Some? <==> old(IsSessionActive(id, now))
      ensures updateActivity ==> State() == Access(Prepared(old(State()), now), timeout, id, now)
      ensures !updateActivity && s.Some? ==> State() == Prepared(old(State()), now)
      ensures s.Some? ==> id in sessions && s.value == sessions[id] && s.value.data == old(sessions)[id].data
      ensures s.Some? && updateActivity ==> s.value.lastActivity == now
      ensures s.Some? ==> IsSessionActive(id, now)
      ensures s.None? ==> State() == Drop(Prepared(old(State()), now), id)
      ensures s.None? ==> id !in sessions && id !in activityOrder
    {
      PrepareFacts(State(), timeout, proactiveCleanup, now, id);
      PrepareIdempotent(State(), timeout, proactiveCleanup, now);
      if proactiveCleanup {
        var expired := CleanupExpiredSessions(now);
      }
      s := GetSessionOrDelete(id, now);
      if s.None? {
        return;
      }
      if updateActivity {
        var refreshed := UpdateActivity(id, now);
        // The caller holds the very dict that update_activity has just stamped.
        s := Some(sessions[id]);
      }
    }

    /** get_session_data: the data of an active session, refreshed; None otherwise. */
    method GetSessionData(id: string, now: int) returns (d: Option<map<string, Json>>)
      requires Valid() && ClockOk(now)
      modifies this
      ensures Valid() && ClockOk(now)
      ensures d.Some? <==> old(IsSessionActive(id, now))
      ensures State() == Access(Prepared(old(State()), now), timeout, id, now)
      ensures d.Some? ==> d.value == old(sessions)[id].data && id in sessions && sessions[id].lastActivity == now
      ensures d.Some? ==> IsSessionActive(id, now)
      ensures d.None? ==> id !in sessions && id !in activityOrder
    {
      PrepareFacts(State(), timeout, proactiveCleanup, now, id);
      PrepareIdempotent(State(), timeout, proactiveCleanup, now);
      if proactiveCleanup {
        var expired := CleanupExpiredSessions(now);
      }
      var s := GetSessionOrDelete(id, now);
      if s.None? {
        return None;
      }
      var refreshed := UpdateActivity(id, now);
      d := Some(s.value.data);
    }

    /**
     * set_session_data: merges the supplied keys into an active session
     * and refreshes it; False, with the session deleted, when it is
     * missing or expired.
     */
    method SetSessionData(id: string, data: map<string, Json>, now: int) returns (ok: bool)
      requires Valid() && ClockOk(now)
      modifies this
      ensures Valid() && ClockOk(now)
      ensures ok == old(IsSessionActive(id, now))
      ensures ok ==> id in Prepared(old(State()), now).sessions
      ensures ok ==> State() == Touch(Merge(Prepared(old(State()), now), id, data), id, now)
      ensures !ok ==> State() == Drop(Prepared(old(State()), now), id)
      ensures ok ==> id in sessions && sessions[id] == Session(now, old(sessions)[id].data + data)
      ensures ok ==> IsSessionActive(id, now)
      ensures ok ==> forall other :: other in sessions && other != id ==>
        other in old(sessions) && sessions[other] == old(sessions)[other]
      ensures !ok ==> id !in sessions && id !in activityOrder
    {
      PrepareFacts(State(), timeout, proactiveCleanup, now, id);
      ghost var st0 := State();
      if proactiveCleanup {
        var expired := CleanupExpiredSessions(now);
      }
      ghost var prepared := State();
      var s := GetSessionOrDelete(id, now);
      if s.None? {
        return false;
      }
      SetDataFacts(st0, timeout, proactiveCleanup, id, data, now);
      assert s.value == prepared.sessions[id];
      sessions := sessions[id := Session(s.value.lastActivity, s.value.data + data)];
      assert State() == Merge(prepared, id, data);
      var refreshed := UpdateActivity(id, now);
      ok := true;
    }

    /** delete_session: the deleted session, if the id was stored after the cleanup. */
    method DeleteSession(id: string, now: int) returns (removed: Option<Session>)
      requires Valid()
      modifies this
      ensures Valid()
      ensures State() == Drop(Prepared(old(State()), now), id)
      ensures removed.Some? <==> id in Prepared(old(State()), now).sessions
      ensures removed.Some? ==> id in old(sessions) && removed.value == old(sessions)[id]
      ensures id !in sessions && id !in activityOrder
    {
      PrepareFacts(State(), timeout, proactiveCleanup, now, id);
      if proactiveCleanup {
        var expired := CleanupExpiredSessions(now);
      }
      removed := DeleteEntry(id);
    }

    /**
     * create_session: the new id maps to the given data (or no data) with
     * last activity now, and is appended as the most recent.
     */
    method CreateSession(id: string, data: Option<map<string, Json>>, now: int) returns (sid: string)
      requires Valid() && ClockOk(now)
      requires id !in sessions
      modifies this
      ensures Valid() && ClockOk(now)
      ensures sid == id
      ensures State() == Insert(Prepared(old(State()), now), id, data.GetOr(map[]), now)
      ensures sessions[id] == Session(now, data.GetOr(map[]))
      ensures activityOrder != [] && activityOrder[|activityOrder| - 1] == id
    {
      PrepareFacts(State(), timeout, proactiveCleanup, now, id);
      if proactiveCleanup {
        var expired := CleanupExpiredSessions(now);
      }
      InsertInvariant(State(), id, data.GetOr(map[]), now);
      sessions := sessions[id := Session(now, data.GetOr(map[]))];
      activityOrder := activityOrder + [id];
      sid := id;
    }

    /**
     * get_session_count_info: the number of stored sessions and of those
     * active at now; nothing is cleaned up or changed.
     */
    method GetSessionCountInfo(now: int) returns (total: nat, active: nat)
      ensures total == |sessions|
      ensures active == |ActiveIds(State(), timeout, now)|
      ensures active <= total
    {
      total := |sessions|;
      active := 0;
      var remaining := sessions.Keys;
      ghost var counted: set<string> := {};
      while remaining != {}
        invariant remaining <= sessions.Keys
        invariant counted == set x | x in sessions.Keys - remaining && IsSessionActive(x, now)
        invariant active == |counted|
        decreases remaining
      {
        var sid :| sid in remaining;
        if IsSessionActive(sid, now) {
          active := active + 1;
          counted := counted + {sid};
        }
        remaining := remaining - {sid};
      }
      assert counted == ActiveIds(State(), timeout, now);
      ActiveIdsBound(State(), timeout, now);
    }
  }
}
