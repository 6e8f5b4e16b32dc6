/** The in-memory chat history: a dictionary from session id to the ordered
    list of that session's messages, shared by all requests of the process.
    The helper functions that read and update it are the same, line for line,
    in both chat versions. */
module ChatStore {
  import opened Services

  const UserRole: string := "user"
  const AssistantRole: string := "assistant"

  /** One stored message: `{"role", "content", "timestamp"}`. */
  datatype Message = Message(role: string, content: string, timestamp: Timestamp)

  /** One entry of `get_all_sessions()`. */
  datatype SessionSummary = SessionSummary(
    sessionId: string, messageCount: nat, createdAt: Timestamp, updatedAt: Timestamp)

  predicate Distinct(ids: seq<string>) {
    forall i, j :: 0 <= i < j < |ids| ==> ids[i] != ids[j]
  }

  /** The dictionary as Python keeps it: `order` lists its keys once each,
      and every list in it is non-empty (a list is created only to receive a
      message, and removed whole). That `order` is the insertion order is
      what `RecordOrder` (a new key goes last) and `Without` (the others keep
      their order) state of the two operations that change it. */
  ghost predicate WellFormed(order: seq<string>, sessions: map<string, seq<Message>>) {
    && Distinct(order)
    && (forall id :: id in order <==> id in sessions)
    && (forall id :: id in sessions ==> sessions[id] != [])
  }

  /** `order` after `del store[x]`: `x` is gone, the rest keeps its order. */
  function Without(ids: seq<string>, x: string): (r: seq<string>)
    ensures forall y :: y in r <==> y in ids && y != x
    ensures Distinct(ids) ==> Distinct(r)
    ensures x !in ids ==> r == ids
    ensures Distinct(ids) && x in ids ==> r == ids[..IndexOf(ids, x)] + ids[IndexOf(ids, x) + 1..]
  {
    if ids == [] then []
    else if ids[0] == x then
      assert Distinct(ids) ==> x !in ids[1..];
      Without(ids[1..], x)
    else
      var rest := Without(ids[1..], x);
      assert Distinct(ids) ==> ids[0] !in ids[1..];
      DistinctCons(ids[0], rest);
      if Distinct(ids) && x in ids then
        DistinctCons(ids[0], ids[1..]);
        assert x in ids[1..];
        SplitAfterHead(ids, IndexOf(ids[1..], x));
        [ids[0]] + rest
      else
        [ids[0]] + rest
  }

  /** The first position of `x` in `ids`. */
  function IndexOf(ids: seq<string>, x: string): (k: nat)
    requires x in ids
    ensures k < |ids| && ids[k] == x && x !in ids[..k]
  {
    if ids[0] == x then 0 else 1 + IndexOf(ids[1..], x)
  }

  /** Cutting position `j + 1` out of `ids` keeps its head, then cuts `j`
      out of its tail. */
  lemma SplitAfterHead(ids: seq<string>, j: nat)
    requires j + 1 < |ids|
    ensures [ids[0]] + (ids[1..][..j] + ids[1..][j + 1..]) == ids[..j + 1] + ids[j + 2..]
  {
    assert [ids[0]] + ids[1..][..j] == ids[..j + 1];
    assert ids[1..][j + 1..] == ids[j + 2..];
  }

  lemma DistinctCons(a: string, s: seq<string>)
    ensures Distinct([a] + s) <==> a !in s && Distinct(s)
  {
    var t := [a] + s;
    if Distinct(t) {
      forall j | 0 <= j < |s| ensures s[j] != a {
        assert t[0] == a && t[j + 1] == s[j];
      }
      forall i, j | 0 <= i < j < |s| ensures s[i] != s[j] {
        assert t[i + 1] == s[i] && t[j + 1] == s[j];
      }
    }
    if a !in s && Distinct(s) {
      forall i, j | 0 <= i < j < |t| ensures t[i] != t[j] {
        if i == 0 { assert t[j] == s[j - 1]; } else { assert t[i] == s[i - 1] && t[j] == s[j - 1]; }
      }
    }
  }

  /** What a summary says of a session's messages: their number, and the
      timestamps of the first and of the last. */
  predicate Describes(s: SessionSummary, messages: seq<Message>) {
    && messages != []
    && s.messageCount == |messages|
    && s.createdAt == messages[0].timestamp
    && s.updatedAt == messages[|messages| - 1].timestamp
  }

  /** The summaries of the sessions `ids`, in that order, skipping those
      whose list is empty. */
  function Summaries(ids: seq<string>, sessions: map<string, seq<Message>>): (r: seq<SessionSummary>)
    requires forall id :: id in ids ==> id in sessions
    ensures |r| <= |ids|
    ensures forall k :: 0 <= k < |r| ==>
      r[k].sessionId in ids && Describes(r[k], sessions[r[k].sessionId])
  {
    if ids == [] then []
    else
      var id := ids[|ids| - 1];
      var messages := sessions[id];
      Summaries(ids[..|ids| - 1], sessions)
      + if messages == [] then []
        else [SessionSummary(id, |messages|, messages[0].timestamp, messages[|messages| - 1].timestamp)]
  }

  /** In a well-formed store no list is empty, so the summaries name every
      session, each exactly once. */
  lemma {:induction false} SummariesListEverySession(order: seq<string>, sessions: map<string, seq<Message>>)
    requires WellFormed(order, sessions)
    ensures |Summaries(order, sessions)| == |order| == |sessions|
    ensures forall k :: 0 <= k < |order| ==> Summaries(order, sessions)[k].sessionId == order[k]
  {
    SummariesOfNonEmpty(order, sessions);
    DistinctKeysCount(order, sessions.Keys);
  }

  /** Every session in `ids` whose list is not empty has its summary. */
  lemma {:induction false} SummariesComplete(ids: seq<string>, sessions: map<string, seq<Message>>, id: string)
    requires forall i :: i in ids ==> i in sessions
    requires id in ids && sessions[id] != []
    ensures exists k :: 0 <= k < |Summaries(ids, sessions)| && Summaries(ids, sessions)[k].sessionId == id
  {
    var prefix := ids[..|ids| - 1];
    var r := Summaries(ids, sessions);
    var p := Summaries(prefix, sessions);
    assert r[..|p|] == p;
    if id == ids[|ids| - 1] {
      assert r[|p|].sessionId == id;
    } else {
      var j :| 0 <= j < |ids| && ids[j] == id;
      assert prefix[j] == id;
      SummariesComplete(prefix, sessions, id);
      var k :| 0 <= k < |p| && p[k].sessionId == id;
      assert r[k] == p[k];
    }
  }

  lemma {:induction false} SummariesOfNonEmpty(ids: seq<string>, sessions: map<string, seq<Message>>)
    requires forall id :: id in ids ==> id in sessions && sessions[id] != []
    ensures |Summaries(ids, sessions)| == |ids|
    ensures forall k :: 0 <= k < |ids| ==> Summaries(ids, sessions)[k].sessionId == ids[k]
  {
    if ids != [] {
      var prefix := ids[..|ids| - 1];
      var id := ids[|ids| - 1];
      var messages := sessions[id];
      SummariesOfNonEmpty(prefix, sessions);
      var p := Summaries(prefix, sessions);
      assert Summaries(ids, sessions) == p + [SessionSummary(id, |messages|, messages[0].timestamp, messages[|messages| - 1].timestamp)];
      forall k | 0 <= k < |ids| ensures Summaries(ids, sessions)[k].sessionId == ids[k] {
        if k < |prefix| { assert prefix[k] == ids[k]; }
      }
    }
  }

  /** A list of distinct ids that names exactly the keys has as many entries as there are keys. */
  lemma {:induction false} DistinctKeysCount(ids: seq<string>, keys: set<string>)
    requires Distinct(ids)
    requires forall id :: id in ids <==> id in keys
    ensures |ids| == |keys|
  {
    if ids != [] {
      var rest := ids[1..];
      assert forall id :: id in rest <==> id in keys - {ids[0]} by {
        forall id ensures id in rest <==> id in keys - {ids[0]} {
          if id in rest {
            var j :| 0 <= j < |rest| && rest[j] == id;
            assert ids[j + 1] == id;
          }
          if id in ids && id != ids[0] {
            var j :| 0 <= j < |ids| && ids[j] == id;
            assert rest[j - 1] == id;
          }
        }
      }
      DistinctKeysCount(rest, keys - {ids[0]});
    }
  }

  /** The list kept for `sid`, or the empty list when there is none. */
  function Lookup(sessions: map<string, seq<Message>>, sid: string): seq<Message> {
    if sid in sessions then sessions[sid] else []
  }

  /** The dictionary after `ms` are appended, in order, to the list of `sid`
      (created if absent, and only if something is appended): that list
      grows by exactly `ms`, and no other list changes. */
  function Record(sessions: map<string, seq<Message>>, sid: string, ms: seq<Message>): (r: map<string, seq<Message>>)
    ensures Lookup(r, sid) == Lookup(sessions, sid) + ms
    ensures forall other :: other != sid ==> Lookup(r, other) == Lookup(sessions, other)
    ensures r.Keys == if ms == [] then sessions.Keys else sessions.Keys + {sid}
  {
    if ms == [] then sessions else sessions[sid := Lookup(sessions, sid) + ms]
  }

  /** The key order after that append: a session created by it goes last. */
  function RecordOrder(order: seq<string>, sessions: map<string, seq<Message>>, sid: string, ms: seq<Message>): seq<string> {
    if ms == [] || sid in sessions then order else order + [sid]
  }

  /** Appending `a` then `b` is appending `a + b`. */
  lemma RecordTwice(order: seq<string>, sessions: map<string, seq<Message>>, sid: string, a: seq<Message>, b: seq<Message>)
    ensures Record(Record(sessions, sid, a), sid, b) == Record(sessions, sid, a + b)
    ensures RecordOrder(RecordOrder(order, sessions, sid, a), Record(sessions, sid, a), sid, b)
            == RecordOrder(order, sessions, sid, a + b)
  {
    if a == [] {
      assert a + b == b;
    } else if b == [] {
      assert a + b == a;
    } else {
      assert Lookup(sessions, sid) + a + b == Lookup(sessions, sid) + (a + b);
    }
  }

  /** Appending keeps the dictionary well formed: a new key is not yet in
      the order, so adding it last keeps the keys distinct. */
  lemma RecordKeepsWellFormed(order: seq<string>, sessions: map<string, seq<Message>>, sid: string, ms: seq<Message>)
    requires WellFormed(order, sessions)
    ensures WellFormed(RecordOrder(order, sessions, sid, ms), Record(sessions, sid, ms))
  {
    if ms != [] && sid !in sessions {
      DistinctSnoc(order, sid);
    }
  }

  lemma DistinctSnoc(s: seq<string>, a: string)
    requires Distinct(s) && a !in s
    ensures Distinct(s + [a])
  {
    var t := s + [a];
    forall i, j | 0 <= i < j < |t| ensures t[i] != t[j] {
      if j < |s| { assert t[i] == s[i] && t[j] == s[j]; } else { assert t[i] == s[i]; }
    }
  }

  /** Removing a session keeps the dictionary well formed. */
  lemma ClearKeepsWellFormed(order: seq<string>, sessions: map<string, seq<Message>>, sid: string)
    requires WellFormed(order, sessions)
    ensures WellFormed(if sid in sessions then Without(order, sid) else order, sessions - {sid})
  {
  }

  /** The store, `chat_history_store`, with the five helpers that use it.
      Each helper states its whole effect on the two fields, and the two that
      change them keep the dictionary well formed (`RecordKeepsWellFormed`,
      `ClearKeepsWellFormed`). */
  class ChatHistoryStore {
    var order: seq<string>
    var sessions: map<string, seq<Message>>

    ghost predicate Valid()
      reads this
    {
      WellFormed(order, sessions)
    }

    /** The list kept for `sid`, or the empty list when there is none. */
    function History(sid: string): seq<Message>
      reads this
    {
      Lookup(sessions, sid)
    }

    constructor ()
      ensures Valid() && order == [] && sessions == map[]
    {
      order := [];
      sessions := map[];
    }

    /** `get_chat_history(session_id)`: the stored list, or `[]` for an
        unknown session. */
    method GetChatHistory(sid: string) returns (h: seq<Message>)
      ensures sid in sessions ==> h == sessions[sid]
      ensures sid !in sessions ==> h == []
    {
      if sid in sessions {
        h := sessions[sid];
      } else {
        h := [];
      }
    }

    /** `add_message_to_history(session_id, role, content)`, with `now` the
        time it reads: the session's list, created if absent, gains exactly
        one message at its end; no other session changes. */
    method AddMessage(sid: string, role: string, content: string, now: Timestamp)
      modifies this
      ensures sessions == Record(old(sessions), sid, [Message(role, content, now)])
      ensures order == RecordOrder(old(order), old(sessions), sid, [Message(role, content, now)])
      ensures old(Valid()) ==> Valid()
    {
      ghost var wasValid, oldOrder, oldSessions := Valid(), order, sessions;
      if sid !in sessions {
        sessions := sessions[sid := []];
        order := order + [sid];
      }
      sessions := sessions[sid := sessions[sid] + [Message(role, content, now)]];
      if wasValid {
        RecordKeepsWellFormed(oldOrder, oldSessions, sid, [Message(role, content, now)]);
      }
    }

    /** `clear_chat_history(session_id)`: removes the session and reports
        whether it was there; no other session changes. */
    method ClearChatHistory(sid: string) returns (existed: bool)
      modifies this
      ensures existed == (sid in old(sessions))
      ensures sessions == old(sessions) - {sid}
      ensures order == if existed then Without(old(order), sid) else old(order)
      ensures old(Valid()) ==> Valid()
    {
      ghost var wasValid, oldOrder, oldSessions := Valid(), order, sessions;
      if wasValid {
        ClearKeepsWellFormed(oldOrder, oldSessions, sid);
      }
      if sid in sessions {
        sessions := sessions - {sid};
        order := Without(order, sid);
        existed := true;
      } else {
        existed := false;
      }
    }

    /** `get_session_message_count(session_id)`: the length of the stored
        list, 0 for an unknown session. */
    method GetSessionMessageCount(sid: string) returns (n: nat)
      ensures sid in sessions ==> n == |sessions[sid]|
      ensures sid !in sessions ==> n == 0
    {
      if sid in sessions {
        n := |sessions[sid]|;
      } else {
        n := 0;
      }
    }

    /** `get_all_sessions()`: one summary per session with messages, in the
        dictionary's order. */
    method GetAllSessions() returns (summaries: seq<SessionSummary>)
      requires Valid()
      ensures summaries == Summaries(order, sessions)
    {
      summaries := [];
      var i := 0;
      while i < |order|
        invariant 0 <= i <= |order|
        invariant summaries == Summaries(order[..i], sessions)
      {
        var id := order[i];
        var messages := sessions[id];
        if messages != [] {
          summaries := summaries + [SessionSummary(id, |messages|, messages[0].timestamp, messages[|messages| - 1].timestamp)];
        }
        assert order[..i + 1][..i] == order[..i];
        i := i + 1;
      }
      assert order[..i] == order;
    }
  }

  /** Clearing a session twice: the first call reports whether it had
      history, the second always reports that it had none. */
  method ClearTwice(store: ChatHistoryStore, sid: string) returns (first: bool, second: bool)
    modifies store
    ensures first == (sid in old(store.sessions))
    ensures !second
    ensures store.sessions == old(store.sessions) - {sid}
  {
    first := store.ClearChatHistory(sid);
    second := store.ClearChatHistory(sid);
  }
}
