/**
 * The state of the in-memory session store as a value: the sessions by
 * id, and the list of ids ordered from oldest to most recent activity.
 * Every mutation the session manager performs is a function here, and the
 * lemmas state what the manager promises about them: the activity list
 * holds exactly the stored ids, once each, ordered by last activity, and
 * a sweep removes exactly the expired sessions.
 *
 * Times are integers (microseconds); a session is active while
 * lastActivity + timeout > now.
 */
module SessionState {
  import opened Json

  /** One stored session: the time of its last activity and its data. */
  datatype Session = Session(lastActivity: int, data: map<string, Json>)

  /** sessions, and session_activity_order (old to recent activity). */
  datatype Store = Store(sessions: map<string, Session>, order: seq<string>)

  // ----- list.remove ------------------------------------------------------

  /** The position of the first occurrence of x. */
  function IndexOf(s: seq<string>, x: string): (i: nat)
    requires x in s
    ensures i < |s| && s[i] == x && x !in s[..i]
  {
    if s[0] == x then 0
    else
      var j := IndexOf(s[1..], x);
      assert s[..j + 1] == [s[0]] + s[1..][..j];
      1 + j
  }

  /** list.remove(x), with the ValueError of a missing x ignored. */
  function RemoveFirst(s: seq<string>, x: string): seq<string> {
    if x in s then s[..IndexOf(s, x)] + s[IndexOf(s, x) + 1..] else s
  }

  lemma RemoveFirstAt(s: seq<string>, x: string)
    requires x in s
    ensures var i, r := IndexOf(s, x), RemoveFirst(s, x);
      |r| == |s| - 1 &&
      (forall k :: 0 <= k < i ==> r[k] == s[k]) &&
      (forall k :: i <= k < |r| ==> r[k] == s[k + 1])
  {
    var i := IndexOf(s, x);
    assert RemoveFirst(s, x) == s[..i] + s[i + 1..];
  }

  /** Removing the head of the list leaves its tail. */
  lemma RemoveHead(s: seq<string>)
    requires s != []
    ensures RemoveFirst(s, s[0]) == s[1..]
  {
  }

  // ----- the state and its invariant ---------------------------------------

  /** _is_session_active: the id is stored and its timeout has not run out (strictly). */
  predicate Active(st: Store, timeout: int, id: string, now: int) {
    id in st.sessions && st.sessions[id].lastActivity + timeout > now
  }

  /**
   * A session is active strictly before lastActivity + timeout; from that
   * instant on it is expired, and it stays expired as the clock advances.
   */
  lemma ExpiryIsPermanent(st: Store, timeout: int, id: string, now: int, later: int)
    requires id in st.sessions && now <= later
    ensures Active(st, timeout, id, now) <==> now < st.sessions[id].lastActivity + timeout
    ensures !Active(st, timeout, id, st.sessions[id].lastActivity + timeout)
    ensures !Active(st, timeout, id, now) ==> !Active(st, timeout, id, later)
    ensures Active(st, timeout, id, later) ==> Active(st, timeout, id, now)
  {
  }

  ghost predicate NoDuplicates(s: seq<string>) {
    forall i, j :: 0 <= i < j < |s| ==> s[i] != s[j]
  }

  /**
   * The activity list is a duplicate-free listing of exactly the stored
   * ids, ordered by last activity from old to recent.
   */
  ghost predicate Invariant(st: Store) {
    NoDuplicates(st.order) && ListsKeys(st.order, st.sessions) && SortedByActivity(st.order, st.sessions)
  }

  /** The list names exactly the stored ids. */
  ghost predicate ListsKeys(o: seq<string>, m: map<string, Session>) {
    (forall i :: 0 <= i < |o| ==> o[i] in m) && (forall id :: id in m ==> id in o)
  }

  /** Along the list, last activity never decreases. */
  ghost predicate SortedByActivity(o: seq<string>, m: map<string, Session>) {
    forall i, j :: 0 <= i < j < |o| && o[i] in m && o[j] in m ==> m[o[i]].lastActivity <= m[o[j]].lastActivity
  }

  /** The clock has not gone back: no session's last activity is later than now. */
  ghost predicate NotAfter(st: Store, now: int) {
    forall id :: id in st.sessions ==> st.sessions[id].lastActivity <= now
  }

  /** The ids of the sessions that are active at now. */
  function ActiveIds(st: Store, timeout: int, now: int): set<string> {
    set id | id in st.sessions && Active(st, timeout, id, now)
  }

  // ----- the primitive mutations --------------------------------------------

  /** create_session: a new entry at now, appended as the most recent. */
  function Insert(st: Store, id: string, data: map<string, Json>, now: int): Store {
    Store(st.sessions[id := Session(now, data)], st.order + [id])
  }

  /** _delete_session: remove the id from the list (if there) and the map. */
  function Drop(st: Store, id: string): Store {
    Store(st.sessions - {id}, RemoveFirst(st.order, id))
  }

  /** update_activity on a stored id: move it to the end and stamp it with now. */
  function Touch(st: Store, id: string, now: int): Store
    requires id in st.sessions
  {
    Store(st.sessions[id := Session(now, st.sessions[id].data)], RemoveFirst(st.order, id) + [id])
  }

  /** session["data"].update(data): the supplied keys overwrite, the others stay. */
  function Merge(st: Store, id: string, data: map<string, Json>): (r: Store)
    requires id in st.sessions
    ensures r.order == st.order && r.sessions.Keys == st.sessions.Keys
    ensures r.sessions[id].lastActivity == st.sessions[id].lastActivity
    ensures r.sessions[id].data.Keys == st.sessions[id].data.Keys + data.Keys
    ensures forall k :: k in data ==> r.sessions[id].data[k] == data[k]
    ensures forall k :: k in st.sessions[id].data && k !in data ==>
      r.sessions[id].data[k] == st.sessions[id].data[k]
    ensures forall other :: other in st.sessions && other != id ==> r.sessions[other] == st.sessions[other]
  {
    var s := st.sessions[id];
    Store(st.sessions[id := Session(s.lastActivity, s.data + data)], st.order)
  }

  /** The while loop of _cleanup_expired_sessions: drop the head while it is not active. */
  function SweepFront(st: Store, timeout: int, now: int): Store
    decreases |st.order|
  {
    if st.order != [] && !Active(st, timeout, st.order[0], now) then
      RemoveHead(st.order);
      SweepFront(Drop(st, st.order[0]), timeout, now)
    else st
  }

  /** The ids that loop removes, in the order it removes them. */
  function SweptFrontIds(st: Store, timeout: int, now: int): seq<string>
    decreases |st.order|
  {
    if st.order != [] && !Active(st, timeout, st.order[0], now) then
      RemoveHead(st.order);
      [st.order[0]] + SweptFrontIds(Drop(st, st.order[0]), timeout, now)
    else []
  }

  /** _cleanup_expired_sessions' effect: nothing when no session is stored. */
  function Sweep(st: Store, timeout: int, now: int): Store {
    if st.sessions == map[] then st else SweepFront(st, timeout, now)
  }

  /** _cleanup_expired_sessions' result. */
  function SweptIds(st: Store, timeout: int, now: int): seq<string> {
    if st.sessions == map[] then [] else SweptFrontIds(st, timeout, now)
  }

  /** The progressive cleanup every public operation starts with, when enabled. */
  function Prepare(st: Store, timeout: int, cleanup: bool, now: int): Store {
    if cleanup then Sweep(st, timeout, now) else st
  }

  /** _get_session_or_delete followed by the refresh of an active session. */
  function Access(st: Store, timeout: int, id: string, now: int): Store {
    if Active(st, timeout, id, now) then Touch(st, id, now) else Drop(st, id)
  }

  // ----- the invariant is kept ---------------------------------------------

  /** Removing an element keeps a duplicate-free list duplicate-free, and removes just that element. */
  lemma RemoveFirstMembers(s: seq<string>, x: string)
    requires NoDuplicates(s)
    ensures NoDuplicates(RemoveFirst(s, x))
    ensures forall y :: y in RemoveFirst(s, x) <==> y in s && y != x
  {
    if x in s {
      var i, r := IndexOf(s, x), RemoveFirst(s, x);
      RemoveFirstAt(s, x);
      forall p, q | 0 <= p < q < |r| ensures r[p] != r[q] {
        var p' := if p < i then p else p + 1;
        var q' := if q < i then q else q + 1;
        assert r[p] == s[p'] && r[q] == s[q'];
      }
      forall y ensures y in r <==> y in s && y != x {
        if y in r {
          var k :| 0 <= k < |r| && r[k] == y;
          var k' := if k < i then k else k + 1;
          assert s[k'] == y && k' != i;
        }
        if y in s && y != x {
          var k :| 0 <= k < |s| && s[k] == y;
          var k' := if k < i then k else k - 1;
          assert r[k'] == y;
        }
      }
    }
  }

  /** Removing an element keeps the list ordered. */
  lemma RemoveFirstSorted(s: seq<string>, x: string, m: map<string, Session>)
    requires SortedByActivity(s, m)
    ensures SortedByActivity(RemoveFirst(s, x), m)
  {
    if x in s {
      var i, r := IndexOf(s, x), RemoveFirst(s, x);
      RemoveFirstAt(s, x);
      forall p, q | 0 <= p < q < |r| && r[p] in m && r[q] in m
        ensures m[r[p]].lastActivity <= m[r[q]].lastActivity
      {
        var p' := if p < i then p else p + 1;
        var q' := if q < i then q else q + 1;
        assert r[p] == s[p'] && r[q] == s[q'];
      }
    }
  }

  /** Deleting keeps the invariant and leaves the id nowhere. */
  lemma DropInvariant(st: Store, id: string)
    requires Invariant(st)
    ensures Invariant(Drop(st, id))
    ensures id !in Drop(st, id).sessions && id !in Drop(st, id).order
  {
    var r := Drop(st, id);
    RemoveFirstMembers(st.order, id);
    RemoveFirstSorted(st.order, id, st.sessions);
    assert SortedByActivity(r.order, r.sessions) by {
      forall p, q | 0 <= p < q < |r.order| && r.order[p] in r.sessions && r.order[q] in r.sessions
        ensures r.sessions[r.order[p]].lastActivity <= r.sessions[r.order[q]].lastActivity
      {
        assert r.order[p] in st.sessions && r.order[q] in st.sessions;
      }
    }
    assert ListsKeys(r.order, r.sessions) by {
      forall i | 0 <= i < |r.order| ensures r.order[i] in r.sessions {
        assert r.order[i] in r.order;
      }
    }
  }

  /** Appending a fresh id stamped with a time no earlier than any other keeps the invariant. */
  lemma InsertInvariant(st: Store, id: string, data: map<string, Json>, now: int)
    requires Invariant(st) && NotAfter(st, now) && id !in st.sessions
    ensures Invariant(Insert(st, id, data, now)) && NotAfter(Insert(st, id, data, now), now)
  {
    var r := Insert(st, id, data, now);
    assert id !in st.order;
    forall i, j | 0 <= i < j < |r.order|
      ensures r.order[i] != r.order[j]
      ensures r.sessions[r.order[i]].lastActivity <= r.sessions[r.order[j]].lastActivity
    {
      assert r.order[i] == st.order[i] && st.order[i] in st.sessions;
      assert r.sessions[st.order[i]] == st.sessions[st.order[i]];
      if j < |st.order| {
        assert r.order[j] == st.order[j] && st.order[j] in st.sessions;
        assert r.sessions[st.order[j]] == st.sessions[st.order[j]];
      } else {
        assert r.order[j] == id;
      }
    }
    assert ListsKeys(r.order, r.sessions);
  }

  /** Refreshing is deleting then re-creating the id with its own data. */
  lemma TouchIsDropThenInsert(st: Store, id: string, now: int)
    requires id in st.sessions
    ensures Touch(st, id, now) == Insert(Drop(st, id), id, st.sessions[id].data, now)
  {
    assert (st.sessions - {id})[id := Session(now, st.sessions[id].data)]
        == st.sessions[id := Session(now, st.sessions[id].data)];
  }

  lemma TouchInvariant(st: Store, id: string, now: int)
    requires Invariant(st) && NotAfter(st, now) && id in st.sessions
    ensures Invariant(Touch(st, id, now)) && NotAfter(Touch(st, id, now), now)
  {
    TouchIsDropThenInsert(st, id, now);
    DropInvariant(st, id);
    InsertInvariant(Drop(st, id), id, st.sessions[id].data, now);
  }

  /**
   * After a refresh the id is stored once, at the end of the list, with
   * last activity now and its data unchanged; every other session is as before.
   */
  lemma TouchMovesToBack(st: Store, id: string, now: int)
    requires Invariant(st) && NotAfter(st, now) && id in st.sessions
    ensures var t := Touch(st, id, now);
      && |t.order| == |st.order|
      && t.order[|t.order| - 1] == id
      && id !in t.order[..|t.order| - 1]
      && t.sessions[id] == Session(now, st.sessions[id].data)
      && t.sessions.Keys == st.sessions.Keys
      && (forall other :: other in st.sessions && other != id ==> t.sessions[other] == st.sessions[other])
  {
    var t := Touch(st, id, now);
    DropInvariant(st, id);
    RemoveFirstAt(st.order, id);
    assert t.order[..|t.order| - 1] == Drop(st, id).order;
  }

  lemma MergeInvariant(st: Store, id: string, data: map<string, Json>, now: int)
    requires Invariant(st) && NotAfter(st, now) && id in st.sessions
    ensures Invariant(Merge(st, id, data)) && NotAfter(Merge(st, id, data), now)
  {
    var r := Merge(st, id, data);
    assert forall x :: x in r.sessions ==> r.sessions[x].lastActivity == st.sessions[x].lastActivity;
  }

  /**
   * Merging data into an active session and then refreshing it (what
   * set_session_data does): the invariant holds, the session holds the
   * merged data with activity now, and no other session changes.
   */
  lemma MergeThenTouch(st: Store, timeout: int, id: string, data: map<string, Json>, now: int)
    requires Invariant(st) && NotAfter(st, now) && Active(st, timeout, id, now)
    ensures var m := Merge(st, id, data);
      && Invariant(m) && NotAfter(m, now) && Active(m, timeout, id, now)
      && Access(m, timeout, id, now) == Touch(m, id, now)
      && Invariant(Touch(m, id, now)) && NotAfter(Touch(m, id, now), now)
      && Touch(m, id, now).sessions[id] == Session(now, st.sessions[id].data + data)
      && Touch(m, id, now).sessions.Keys == st.sessions.Keys
      && (forall other :: other in st.sessions && other != id ==>
            Touch(m, id, now).sessions[other] == st.sessions[other])
  {
    MergeInvariant(st, id, data, now);
    TouchInvariant(Merge(st, id, data), id, now);
    TouchMovesToBack(Merge(st, id, data), id, now);
  }

  // ----- the sweep -------------------------------------------------------

  /** Dropping the head of the list. */
  lemma DropHead(st: Store)
    requires st.order != []
    ensures Drop(st, st.order[0]) == Store(st.sessions - {st.order[0]}, st.order[1..])
  {
    RemoveHead(st.order);
  }

  /** One turn of the sweep loop, or its exit. */
  lemma SweepFrontStep(st: Store, timeout: int, now: int)
    ensures st.order != [] && !Active(st, timeout, st.order[0], now) ==>
      && SweepFront(st, timeout, now) == SweepFront(Drop(st, st.order[0]), timeout, now)
      && SweptFrontIds(st, timeout, now) == [st.order[0]] + SweptFrontIds(Drop(st, st.order[0]), timeout, now)
    ensures st.order == [] || Active(st, timeout, st.order[0], now) ==>
      SweepFront(st, timeout, now) == st && SweptFrontIds(st, timeout, now) == []
  {
  }

  /** What one turn of the sweep loop keeps: the final state, and the ids removed so far. */
  lemma SweepLoopStep(st0: Store, done: seq<string>, cur: Store, timeout: int, now: int)
    requires cur.order != [] && !Active(cur, timeout, cur.order[0], now)
    requires SweepFront(cur, timeout, now) == SweepFront(st0, timeout, now)
    requires done + SweptFrontIds(cur, timeout, now) == SweptFrontIds(st0, timeout, now)
    ensures SweepFront(Drop(cur, cur.order[0]), timeout, now) == SweepFront(st0, timeout, now)
    ensures (done + [cur.order[0]]) + SweptFrontIds(Drop(cur, cur.order[0]), timeout, now) == SweptFrontIds(st0, timeout, now)
  {
    SweepFrontStep(cur, timeout, now);
    var rest := SweptFrontIds(Drop(cur, cur.order[0]), timeout, now);
    assert (done + [cur.order[0]]) + rest == done + ([cur.order[0]] + rest);
  }

  /** The sweep loop stops at an empty list or an active head. */
  lemma {:induction false} SweepFrontSettled(st: Store, timeout: int, now: int)
    ensures var r := SweepFront(st, timeout, now);
      r.order == [] || Active(r, timeout, r.order[0], now)
    decreases |st.order|
  {
    if st.order != [] && !Active(st, timeout, st.order[0], now) {
      DropHead(st);
      SweepFrontSettled(Drop(st, st.order[0]), timeout, now);
    }
  }

  /** The loop removes a prefix of the list and returns it. */
  lemma {:induction false} SweepFrontShape(st: Store, timeout: int, now: int)
    ensures var ids := SweptFrontIds(st, timeout, now);
      |ids| <= |st.order| && ids == st.order[..|ids|]
    decreases |st.order|
  {
    if st.order != [] && !Active(st, timeout, st.order[0], now) {
      var d := Drop(st, st.order[0]);
      DropHead(st);
      SweepFrontStep(st, timeout, now);
      SweepFrontShape(d, timeout, now);
      var ids' := SweptFrontIds(d, timeout, now);
      assert ids' == st.order[1..][..|ids'|];
      assert [st.order[0]] + st.order[1..][..|ids'|] == st.order[..|ids'| + 1];
    }
  }

  /** The list the loop leaves is what follows the removed ids. */
  lemma {:induction false} SweepFrontRest(st: Store, timeout: int, now: int)
    ensures |SweptFrontIds(st, timeout, now)| <= |st.order|
    ensures SweepFront(st, timeout, now).order == st.order[|SweptFrontIds(st, timeout, now)|..]
    decreases |st.order|
  {
    if st.order != [] && !Active(st, timeout, st.order[0], now) {
      var d := Drop(st, st.order[0]);
      DropHead(st);
      SweepFrontRest(d, timeout, now);
      var n := |SweptFrontIds(d, timeout, now)|;
      SweepFrontShape(d, timeout, now);
      assert st.order[n + 1..] == d.order[n..];
    }
  }

  /** The loop removes from the map exactly the ids it returns. */
  lemma {:induction false} SweepFrontSessions(st: Store, timeout: int, now: int)
    ensures SweepFront(st, timeout, now).sessions == st.sessions - (set x | x in SweptFrontIds(st, timeout, now))
    decreases |st.order|
  {
    if st.order != [] && !Active(st, timeout, st.order[0], now) {
      var h, d := st.order[0], Drop(st, st.order[0]);
      DropHead(st);
      SweepFrontSessions(d, timeout, now);
      var ids' := SweptFrontIds(d, timeout, now);
      assert (set x | x in [h] + ids') == {h} + (set x | x in ids');
    }
  }

  /** Every id the loop removes was not active. */
  lemma {:induction false} SweepFrontIdsInactive(st: Store, timeout: int, now: int)
    ensures forall x :: x in SweptFrontIds(st, timeout, now) ==> !Active(st, timeout, x, now)
    decreases |st.order|
  {
    if st.order != [] && !Active(st, timeout, st.order[0], now) {
      var h, d := st.order[0], Drop(st, st.order[0]);
      DropHead(st);
      SweepFrontIdsInactive(d, timeout, now);
      assert SweptFrontIds(st, timeout, now) == [h] + SweptFrontIds(d, timeout, now);
      forall x | x in SweptFrontIds(d, timeout, now) ensures !Active(st, timeout, x, now) {
        assert !Active(d, timeout, x, now);
        if x != h {
          assert x in d.sessions <==> x in st.sessions;
        }
      }
    }
  }

  lemma {:induction false} SweepFrontInvariant(st: Store, timeout: int, now: int)
    requires Invariant(st)
    ensures Invariant(SweepFront(st, timeout, now))
    decreases |st.order|
  {
    if st.order != [] && !Active(st, timeout, st.order[0], now) {
      DropInvariant(st, st.order[0]);
      SweepFrontInvariant(Drop(st, st.order[0]), timeout, now);
    }
  }

  /** Under the invariant, an active head means every stored session is active. */
  lemma SettledAllActive(st: Store, timeout: int, now: int)
    requires Invariant(st)
    requires st.order == [] || Active(st, timeout, st.order[0], now)
    ensures forall id :: id in st.sessions ==> Active(st, timeout, id, now)
  {
    forall id | id in st.sessions ensures Active(st, timeout, id, now) {
      var k :| 0 <= k < |st.order| && st.order[k] == id;
      assert k == 0 || st.sessions[st.order[0]].lastActivity <= st.sessions[st.order[k]].lastActivity;
    }
  }

  /** Under the invariant, the map is empty exactly when the list is. */
  lemma EmptyStore(st: Store)
    requires Invariant(st)
    ensures st.sessions == map[] <==> st.order == []
  {
    if st.order != [] {
      assert st.order[0] in st.sessions;
    }
  }

  /**
   * Under the invariant the sweep keeps exactly the active sessions,
   * unchanged, and keeps the invariant.
   */
  lemma SweepKeepsExactlyActive(st: Store, timeout: int, now: int)
    requires Invariant(st)
    ensures Invariant(Sweep(st, timeout, now))
    ensures forall id :: id in Sweep(st, timeout, now).sessions <==> Active(st, timeout, id, now)
    ensures forall id :: id in Sweep(st, timeout, now).sessions ==>
      id in st.sessions && Sweep(st, timeout, now).sessions[id] == st.sessions[id]
  {
    if st.sessions != map[] {
      var r := SweepFront(st, timeout, now);
      SweepFrontSettled(st, timeout, now);
      SweepFrontSessions(st, timeout, now);
      SweepFrontIdsInactive(st, timeout, now);
      SweepFrontInvariant(st, timeout, now);
      SettledAllActive(r, timeout, now);
      forall id | Active(st, timeout, id, now) ensures id in r.sessions {
        assert id !in SweptFrontIds(st, timeout, now);
      }
    }
  }

  /** After every session has been swept once, no remaining session is expired. */
  lemma SweepLeavesOnlyActive(st: Store, timeout: int, now: int)
    requires Invariant(st)
    ensures forall id :: id in Sweep(st, timeout, now).sessions ==> Active(Sweep(st, timeout, now), timeout, id, now)
  {
    SweepKeepsExactlyActive(st, timeout, now);
  }

  /** The ids a sweep returns are the expired prefix of the list, in order. */
  lemma SweptIdsArePrefix(st: Store, timeout: int, now: int)
    requires Invariant(st)
    ensures var ids := SweptIds(st, timeout, now);
      && |ids| <= |st.order| && ids == st.order[..|ids|]
      && Sweep(st, timeout, now).order == st.order[|ids|..]
      && (forall x :: x in ids ==> x in st.sessions && !Active(st, timeout, x, now))
  {
    SweepFrontShape(st, timeout, now);
    SweepFrontRest(st, timeout, now);
    SweepFrontIdsInactive(st, timeout, now);
    SweepFrontSessions(st, timeout, now);
    if st.sessions == map[] {
      EmptyStore(st);
    } else {
      forall x | x in SweptIds(st, timeout, now) ensures x in st.sessions {
        var k :| 0 <= k < |SweptIds(st, timeout, now)| && SweptIds(st, timeout, now)[k] == x;
        assert x == st.order[k];
      }
    }
  }

  /** A state whose list is empty or starts with an active id is left as it is by a sweep. */
  lemma SettledSweepIsIdentity(st: Store, timeout: int, now: int)
    requires st.order == [] || Active(st, timeout, st.order[0], now)
    ensures Sweep(st, timeout, now) == st
  {
  }

  /** A swept state that still stores a session is settled. */
  lemma SweepSettles(st: Store, timeout: int, now: int)
    ensures var r := Sweep(st, timeout, now);
      r.sessions != map[] ==> r.order == [] || Active(r, timeout, r.order[0], now)
  {
    SweepFrontSettled(st, timeout, now);
  }

  /** Sweeping twice at the same instant is sweeping once. */
  lemma SweepIdempotent(st: Store, timeout: int, now: int)
    ensures Sweep(Sweep(st, timeout, now), timeout, now) == Sweep(st, timeout, now)
  {
    SweepSettles(st, timeout, now);
  }

  // ----- what the public operations rely on ---------------------------

  /** The optional cleanup keeps the invariant and the clock, and changes no one's activity. */
  lemma PrepareFacts(st: Store, timeout: int, cleanup: bool, now: int, id: string)
    requires Invariant(st)
    ensures var p := Prepare(st, timeout, cleanup, now);
      && Invariant(p)
      && (NotAfter(st, now) ==> NotAfter(p, now))
      && (Active(p, timeout, id, now) <==> Active(st, timeout, id, now))
      && (Active(st, timeout, id, now) ==> p.sessions[id] == st.sessions[id])
      && (forall x :: x in p.sessions ==> x in st.sessions && p.sessions[x] == st.sessions[x])
  {
    if cleanup {
      SweepKeepsExactlyActive(st, timeout, now);
    }
  }

  lemma PrepareIdempotent(st: Store, timeout: int, cleanup: bool, now: int)
    ensures Prepare(Prepare(st, timeout, cleanup, now), timeout, cleanup, now) == Prepare(st, timeout, cleanup, now)
  {
    if cleanup {
      SweepIdempotent(st, timeout, now);
    }
  }

  /** Merging data into an active session of a cleaned-up state needs no further cleanup. */
  lemma PrepareAfterMerge(st: Store, timeout: int, cleanup: bool, now: int, id: string, data: map<string, Json>)
    requires Active(Prepare(st, timeout, cleanup, now), timeout, id, now)
    ensures var p := Prepare(st, timeout, cleanup, now);
      Prepare(Merge(p, id, data), timeout, cleanup, now) == Merge(p, id, data)
  {
    if cleanup {
      var p := Sweep(st, timeout, now);
      SweepSettles(st, timeout, now);
      var m := Merge(p, id, data);
      assert m.order == [] || Active(m, timeout, m.order[0], now);
      SettledSweepIsIdentity(m, timeout, now);
    }
  }

  /**
   * set_session_data on a session that survives the optional cleanup: the
   * cleanup, the merge and the refresh together keep the invariant; the
   * session then holds its old data plus the supplied keys, stamped now,
   * and every other remaining session is one of the old ones, unchanged.
   */
  lemma SetDataFacts(st: Store, timeout: int, cleanup: bool, id: string, data: map<string, Json>, now: int)
    requires Invariant(st) && NotAfter(st, now) && Active(Prepare(st, timeout, cleanup, now), timeout, id, now)
    ensures var m := Merge(Prepare(st, timeout, cleanup, now), id, data);
      && Invariant(m) && NotAfter(m, now)
      && Access(Prepare(m, timeout, cleanup, now), timeout, id, now) == Touch(m, id, now)
    ensures var t := Touch(Merge(Prepare(st, timeout, cleanup, now), id, data), id, now);
      && Invariant(t) && NotAfter(t, now)
      && id in st.sessions && id in t.sessions
      && t.sessions[id] == Session(now, st.sessions[id].data + data)
      && Active(t, timeout, id, now)
      && (forall other :: other in t.sessions && other != id ==>
            other in st.sessions && t.sessions[other] == st.sessions[other])
  {
    var p := Prepare(st, timeout, cleanup, now);
    PrepareFacts(st, timeout, cleanup, now, id);
    MergeThenTouch(p, timeout, id, data, now);
    PrepareAfterMerge(st, timeout, cleanup, now, id, data);
    var t := Touch(Merge(p, id, data), id, now);
    forall other | other in t.sessions && other != id
      ensures other in st.sessions && t.sessions[other] == st.sessions[other]
    {
      assert other in p.sessions;
    }
  }

  lemma AccessInvariant(st: Store, timeout: int, id: string, now: int)
    requires Invariant(st) && NotAfter(st, now)
    ensures Invariant(Access(st, timeout, id, now)) && NotAfter(Access(st, timeout, id, now), now)
  {
    if Active(st, timeout, id, now) {
      TouchInvariant(st, id, now);
    } else {
      DropInvariant(st, id);
    }
  }

  /** get_session_count_info: never more active sessions than stored ones. */
  lemma ActiveIdsBound(st: Store, timeout: int, now: int)
    ensures ActiveIds(st, timeout, now) <= st.sessions.Keys
    ensures |ActiveIds(st, timeout, now)| <= |st.sessions|
  {
    var a, k := ActiveIds(st, timeout, now), st.sessions.Keys;
    assert k == a + (k - a);
    assert |k| == |a| + |k - a|;
  }
}
