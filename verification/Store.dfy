/** The host's event log, its cached session row and the snapshot derived from the log. */
module Store {
  import opened Protocol

  /** State materialized from a log, with the pending maps the host keeps. */
  datatype ServerView = ServerView(
    status: string,
    mode: string,
    permissions: map<string, PermissionView>,
    questions: map<string, QuestionView>)

  /** What one event does to the materialized state. */
  function ServerStep(v: ServerView, body: Body): ServerView {
    match body
    case StatusChange(status) => v.(status := status)
    case ModeChanged(mode, _) => v.(mode := mode)
    case PermissionRequest(id, kind, summary) =>
      v.(permissions := v.permissions[id := PermissionView(id, kind, summary)])
    case PermissionResolved(id, _, _) => v.(permissions := v.permissions - {id})
    case QuestionAsked(id, text) => v.(questions := v.questions[id := QuestionView(id, text)])
    case QuestionResolved(id, _, _) => v.(questions := v.questions - {id})
    case _ => v
  }

  function Fold(start: ServerView, log: seq<Event>): ServerView {
    if log == [] then start
    else ServerStep(Fold(start, log[..|log| - 1]), log[|log| - 1].body)
  }

  function StartView(status: string): ServerView {
    ServerView(status, "", map[], map[])
  }

  /** The state a log stands for: a new session is idle, has no mode and nothing pending. */
  function ServerFold(log: seq<Event>): ServerView {
    Fold(StartView("idle"), log)
  }

  predicate NoStatusChange(log: seq<Event>) {
    forall k :: 0 <= k < |log| ==> !log[k].body.StatusChange?
  }

  lemma FoldAppend(start: ServerView, log: seq<Event>, ev: Event)
    ensures Fold(start, log + [ev]) == ServerStep(Fold(start, log), ev.body)
  {
  }

  /** A pending permission is the body of a logged request, filed under its own id. */
  lemma {:induction false} PendingPermissionIsLogged(log: seq<Event>, id: string)
    requires id in ServerFold(log).permissions
    ensures var v := ServerFold(log).permissions[id];
            v.requestId == id && exists k :: 0 <= k < |log| && log[k].body == PermissionRequest(id, v.kind, v.summary)
  {
    var n := |log| - 1;
    if log[n].body.PermissionRequest? && log[n].body.requestId == id {
      assert log[n].body == PermissionRequest(id, log[n].body.kind, log[n].body.summary);
    } else {
      PendingPermissionIsLogged(log[..n], id);
      var v := ServerFold(log[..n]).permissions[id];
      var k :| 0 <= k < n && log[..n][k].body == PermissionRequest(id, v.kind, v.summary);
      assert log[k].body == PermissionRequest(id, v.kind, v.summary);
    }
  }

  /** A pending question is the body of a logged question, filed under its own id. */
  lemma {:induction false} PendingQuestionIsLogged(log: seq<Event>, id: string)
    requires id in ServerFold(log).questions
    ensures var v := ServerFold(log).questions[id];
            v.questionId == id && exists k :: 0 <= k < |log| && log[k].body == QuestionAsked(id, v.text)
  {
    var n := |log| - 1;
    if log[n].body.QuestionAsked? && log[n].body.questionId == id {
      assert log[n].body == QuestionAsked(id, log[n].body.text);
    } else {
      PendingQuestionIsLogged(log[..n], id);
      var v := ServerFold(log[..n]).questions[id];
      var k :| 0 <= k < n && log[..n][k].body == QuestionAsked(id, v.text);
      assert log[k].body == QuestionAsked(id, v.text);
    }
  }

  // --- The session row and its cached status ---

  /** The row of the sessions table: `status` is a cache, `lastSeq` the number of the newest event. */
  datatype SessionRow = SessionRow(status: string, lastSeq: nat)

  /** What the database does to an append: nothing unusual, refuse the transaction, or lose only the
      update of the cached status, whose error the host ignores. */
  datatype Fault = NoFault | Refused | StatusUpdateLost

  function NextEvent(log: seq<Event>, ts: int, body: Body): Event {
    Event(|log| + 1, ts, body)
  }

  function NextCache(cached: string, body: Body, fault: Fault): string {
    if body.StatusChange? && fault != StatusUpdateLost then body.status else cached
  }

  /** A row that may sit beside a log: it numbers the log's end, and until the log records a status
      it still holds the initial one. */
  predicate RowFits(row: SessionRow, log: seq<Event>) {
    row.lastSeq == |log| && (NoStatusChange(log) ==> row.status == "idle")
  }

  lemma RowFitsAppend(row: SessionRow, log: seq<Event>, ts: int, body: Body, fault: Fault)
    requires RowFits(row, log)
    ensures RowFits(SessionRow(NextCache(row.status, body, fault), |log| + 1), log + [NextEvent(log, ts, body)])
  {
    var longer := log + [NextEvent(log, ts, body)];
    if NoStatusChange(longer) {
      assert longer[|log|].body == body;
      assert forall k :: 0 <= k < |log| ==> log[k] == longer[k];
    }
  }

  datatype Append = Append(ts: int, body: Body, fault: Fault)

  function LogAfter(appends: seq<Append>): seq<Event> {
    if appends == [] then []
    else
      var before := LogAfter(appends[..|appends| - 1]);
      var a := appends[|appends| - 1];
      if a.fault.Refused? then before else before + [NextEvent(before, a.ts, a.body)]
  }

  function CacheAfter(appends: seq<Append>): string {
    if appends == [] then "idle"
    else
      var before := CacheAfter(appends[..|appends| - 1]);
      var a := appends[|appends| - 1];
      if a.fault.Refused? then before else NextCache(before, a.body, a.fault)
  }

  /** A session as the database holds it: its row with the counter, and its events by primary key. */
  datatype Table = Table(row: SessionRow, rows: map<nat, Event>)

  /** An append takes its number from the counter, never from the rows. */
  function TableAfter(appends: seq<Append>): Table {
    if appends == [] then Table(SessionRow("idle", 0), map[])
    else
      var before := TableAfter(appends[..|appends| - 1]);
      var a := appends[|appends| - 1];
      if a.fault.Refused? then before
      else
        var n := before.row.lastSeq + 1;
        Table(SessionRow(NextCache(before.row.status, a.body, a.fault), n), before.rows[n := Event(n, a.ts, a.body)])
  }

  /** After any sequence of appends, whichever of them failed, the counter stands at the number of rows, the
      keys are exactly 1..counter, each row is numbered by its key, and in key order they are the log. */
  lemma {:induction false} CounterKeepsLogDense(appends: seq<Append>)
    ensures var t, log := TableAfter(appends), LogAfter(appends);
            t.row == SessionRow(CacheAfter(appends), |log|) && |t.rows| == |log| && Dense(log) &&
            (forall n :: n in t.rows <==> 1 <= n <= t.row.lastSeq) &&
            forall n :: n in t.rows ==> t.rows[n].seqNo == n && t.rows[n] == log[n - 1]
  {
    if appends != [] {
      var earlier, a := appends[..|appends| - 1], appends[|appends| - 1];
      CounterKeepsLogDense(earlier);
      if !a.fault.Refused? {
        hide TableAfter, LogAfter, NextCache;
        TableGrows(TableAfter(earlier), LogAfter(earlier), NextEvent(LogAfter(earlier), a.ts, a.body));
      }
    }
  }

  /** One more row extends both. */
  lemma TableGrows(t: Table, log: seq<Event>, ev: Event)
    requires TableHolds(t, log) && ev.seqNo == |log| + 1
    ensures TableHolds(Table(SessionRow(t.row.status, |log| + 1), t.rows[|log| + 1 := ev]), log + [ev])
  {
  }

  ghost predicate TableHolds(t: Table, log: seq<Event>) {
    t.row.lastSeq == |log| == |t.rows| && Dense(log) &&
    (forall n :: n in t.rows <==> 1 <= n <= t.row.lastSeq) &&
    forall n :: n in t.rows ==> t.rows[n].seqNo == n && t.rows[n] == log[n - 1]
  }

  /** The last logged status change found its cache update lost to a different cached value. */
  predicate CacheStale(appends: seq<Append>) {
    appends != [] &&
    var earlier := appends[..|appends| - 1];
    var a := appends[|appends| - 1];
    if a.fault.Refused? || !a.body.StatusChange? then CacheStale(earlier)
    else a.fault.StatusUpdateLost? && a.body.status != CacheAfter(earlier)
  }

  /** The cached status is the folded status exactly when the last status change reached the cache. */
  lemma {:induction false} CacheAgreesUnlessLost(appends: seq<Append>)
    ensures CacheAfter(appends) == ServerFold(LogAfter(appends)).status <==> !CacheStale(appends)
  {
    if appends != [] {
      var n := |appends| - 1;
      var earlier, a := appends[..n], appends[n];
      CacheAgreesUnlessLost(earlier);
      var before := LogAfter(earlier);
      if !a.fault.Refused? {
        FoldAppend(StartView("idle"), before, NextEvent(before, a.ts, a.body));
        assert LogAfter(appends) == before + [NextEvent(before, a.ts, a.body)];
        assert ServerFold(LogAfter(appends)) == ServerStep(ServerFold(before), a.body);
      }
    }
  }

  /** A lost update really does leave the cache behind the log. */
  lemma CacheCanGoStale()
    ensures var appends := [Append(0, StatusChange("running"), StatusUpdateLost)];
            CacheAfter(appends) == "idle" && ServerFold(LogAfter(appends)).status == "running"
  {
  }

  // --- Snapshots ---

  datatype Snapshot = Snapshot(
    sessionId: string,
    status: string,
    mode: string,
    lastSeq: nat,
    pendingPermissions: seq<PermissionView>,
    pendingQuestions: seq<QuestionView>)

  /** The sequence lists the map's values once each, in some order. */
  ghost predicate Lists<V>(views: seq<V>, m: map<string, V>, key: V -> string) {
    (forall i :: 0 <= i < |views| ==> key(views[i]) in m && m[key(views[i])] == views[i]) &&
    (forall i, j :: 0 <= i < j < |views| ==> key(views[i]) != key(views[j])) &&
    (forall id :: id in m ==> m[id] in views)
  }

  /** `snap` can result from reading the session row and then the log. The fold starts from the row's
      cached status. */
  ghost predicate SnapshotFrom(snap: Snapshot, sessionId: string, row: SessionRow, log: seq<Event>) {
    var v := Fold(StartView(row.status), log);
    snap.sessionId == sessionId &&
    snap.status == v.status &&
    snap.mode == v.mode &&
    snap.lastSeq == (if log == [] then row.lastSeq else log[|log| - 1].seqNo) &&
    Lists(snap.pendingPermissions, v.permissions, RequestIdOf()) &&
    Lists(snap.pendingQuestions, v.questions, QuestionIdOf())
  }

  /** The snapshot says what the log says. */
  ghost predicate SnapshotOf(snap: Snapshot, sessionId: string, log: seq<Event>) {
    var v := ServerFold(log);
    snap.sessionId == sessionId &&
    snap.status == v.status &&
    snap.mode == v.mode &&
    snap.lastSeq == |log| &&
    Lists(snap.pendingPermissions, v.permissions, RequestIdOf()) &&
    Lists(snap.pendingQuestions, v.questions, QuestionIdOf())
  }

  /** Only the status can depend on where the fold started, and one status change ends that. */
  lemma {:induction false} FoldForgetsStart(a: string, b: string, log: seq<Event>)
    ensures Fold(StartView(a), log).(status := b) == Fold(StartView(b), log).(status := b)
    ensures !NoStatusChange(log) ==> Fold(StartView(a), log) == Fold(StartView(b), log)
  {
    if log != [] {
      var n := |log| - 1;
      FoldForgetsStart(a, b, log[..n]);
      if !NoStatusChange(log) && !log[n].body.StatusChange? {
        var k :| 0 <= k < |log| && log[k].body.StatusChange?;
        assert log[..n][k].body.StatusChange?;
      }
    }
  }

  /** The two reads behind a snapshot are not one transaction: events may be appended in between, and
      the cached status may be stale. The snapshot is still exactly the state of the log as it was at
      the second read. */
  lemma SnapshotSurvivesRace(
    snap: Snapshot, sessionId: string, row: SessionRow, atRow: seq<Event>, atEvents: seq<Event>)
    requires RowFits(row, atRow) && atRow <= atEvents && Dense(atEvents)
    requires SnapshotFrom(snap, sessionId, row, atEvents)
    ensures SnapshotOf(snap, sessionId, atEvents)
  {
    FoldForgetsStart(row.status, "idle", atEvents);
    if NoStatusChange(atEvents) {
      assert forall k :: 0 <= k < |atRow| ==> atRow[k] == atEvents[k];
      assert row.status == "idle";
    }
  }

  /** The snapshot as it goes on the wire, where an empty mode is left out. */
  function OnWire(snap: Snapshot, devices: seq<DeviceView>): SnapshotPayload {
    SnapshotPayload(snap.sessionId, snap.status, if snap.mode == "" then None else Some(snap.mode), snap.lastSeq,
                    snap.pendingPermissions, snap.pendingQuestions, devices)
  }

  // --- The store object ---

  datatype Stored = Stored(event: Event) | Failed

  type Sessions = map<string, SessionRow>

  type Rows = map<(string, nat), Event>

  /** The primary keys of each session's rows are exactly 1..lastSeq. */
  ghost predicate RowsDense(sessions: Sessions, rows: Rows) {
    (forall id: string, n: nat :: (id, n) in rows <==> id in sessions && 1 <= n <= sessions[id].lastSeq) &&
    (forall k :: k in rows ==> rows[k].seqNo == k.1)
  }

  /** The first n rows of a session, in order. */
  function LogOf(rows: Rows, id: string, n: nat): (log: seq<Event>)
    requires forall k: nat :: 1 <= k <= n ==> (id, k) in rows
    ensures |log| == n
    ensures forall k :: 0 <= k < n ==> log[k] == rows[(id, k + 1)]
  {
    if n == 0 then [] else LogOf(rows, id, n - 1) + [rows[(id, n)]]
  }

  /** The part of a log numbered above a sequence number, which may be negative or past the end. */
  function Since(log: seq<Event>, sinceSeq: int): seq<Event> {
    if sinceSeq <= 0 then log else if sinceSeq > |log| then [] else log[sinceSeq..]
  }

  /** Nothing numbered above the given sequence number is missed and nothing else is returned. */
  lemma SinceIsExact(log: seq<Event>, sinceSeq: int, ev: Event)
    requires Dense(log)
    ensures ev in Since(log, sinceSeq) <==> ev in log && ev.seqNo > sinceSeq
    ensures forall i, j :: 0 <= i < j < |Since(log, sinceSeq)| ==>
              Since(log, sinceSeq)[i].seqNo < Since(log, sinceSeq)[j].seqNo
  {
  }

  /** Inserting the next row extends that session's log and leaves the others alone. */
  lemma InsertExtendsLog(sessions: Sessions, rows: Rows, id: string, row: SessionRow, ev: Event)
    requires RowsDense(sessions, rows) && id in sessions
    requires row.lastSeq == ev.seqNo == sessions[id].lastSeq + 1
    ensures (id, ev.seqNo) !in rows
    ensures RowsDense(sessions[id := row], rows[(id, ev.seqNo) := ev])
    ensures LogOf(rows[(id, ev.seqNo) := ev], id, row.lastSeq) == LogOf(rows, id, sessions[id].lastSeq) + [ev]
    ensures forall other :: other in sessions && other != id ==>
              LogOf(rows[(id, ev.seqNo) := ev], other, sessions[other].lastSeq) ==
              LogOf(rows, other, sessions[other].lastSeq)
  {
  }

  class Store {
    var sessions: Sessions
    var rows: Rows

    ghost function Log(id: string): (log: seq<Event>)
      requires RowsDense(sessions, rows) && id in sessions
      reads this
      ensures Dense(log) && |log| == sessions[id].lastSeq
    {
      LogOf(rows, id, sessions[id].lastSeq)
    }

    ghost predicate Valid()
      reads this
    {
      RowsDense(sessions, rows) && forall id :: id in sessions ==> RowFits(sessions[id], Log(id))
    }

    constructor ()
      ensures Valid() && sessions == map[]
    {
      sessions := map[];
      rows := map[];
    }

    method CreateSession(id: string)
      requires Valid() && id !in sessions
      modifies this
      ensures Valid()
      ensures sessions == old(sessions)[id := SessionRow("idle", 0)] && Log(id) == []
      ensures forall other :: other in old(sessions) ==> Log(other) == old(Log(other))
    {
      sessions := sessions[id := SessionRow("idle", 0)];
      assert forall other :: other in old(sessions) ==> Log(other) == old(Log(other));
    }

    /** One transaction: number the event, insert it and refresh the cached status, or change nothing. */
    method AppendEvent(id: string, ts: int, body: Body, fault: Fault) returns (r: Stored)
      requires Valid()
      modifies this
      ensures Valid()
      ensures r.Failed? <==> id !in old(sessions) || fault.Refused?
      ensures r.Failed? ==> sessions == old(sessions) && rows == old(rows)
      ensures r.Stored? ==>
                r.event == NextEvent(old(Log(id)), ts, body) &&
                id in sessions && Log(id) == old(Log(id)) + [r.event] &&
                sessions[id].status == NextCache(old(sessions[id].status), body, fault)
      ensures sessions.Keys == old(sessions.Keys)
      ensures forall other :: other in sessions && other != id ==>
                sessions[other] == old(sessions[other]) && Log(other) == old(Log(other))
    {
      if id !in sessions || fault.Refused? {
        return Failed;
      }
      var row := sessions[id];
      var seqNo := row.lastSeq + 1;
      var ev := Event(seqNo, ts, body);
      var status := row.status;
      if body.StatusChange? && fault != StatusUpdateLost {
        status := body.status;
      }
      RowFitsAppend(row, Log(id), ts, body, fault);
      InsertExtendsLog(sessions, rows, id, SessionRow(status, seqNo), ev);
      sessions := sessions[id := SessionRow(status, seqNo)];
      rows := rows[(id, seqNo) := ev];
      r := Stored(ev);
    }

    /** The rows numbered above `sinceSeq`, in order; a positive limit keeps only the first of them. */
    method GetEventsSince(id: string, sinceSeq: int, limit: int) returns (events: seq<Event>)
      requires Valid()
      ensures var all := if id in sessions then Since(Log(id), sinceSeq) else [];
              events == if 0 < limit < |all| then all[..limit] else all
    {
      events := [];
      if id !in sessions {
        return;
      }
      ghost var log := Log(id);
      var n: nat := if sinceSeq < 0 then 0 else sinceSeq;
      if n > sessions[id].lastSeq {
        return;
      }
      ghost var from := n;
      while n < sessions[id].lastSeq && (limit <= 0 || |events| < limit)
        invariant from <= n <= |log|
        invariant events == log[from..n]
        invariant limit > 0 ==> |events| <= limit
      {
        assert log[from..n + 1] == log[from..n] + [log[n]];
        events := events + [rows[(id, n + 1)]];
        n := n + 1;
      }
      assert log[from..|log|] == log[from..];
    }

    method GetSnapshot(id: string) returns (snap: Option<Snapshot>)
      requires Valid()
      ensures snap.None? <==> id !in sessions
      ensures snap.Some? ==> SnapshotOf(snap.value, id, Log(id))
    {
      if id !in sessions {
        return None;
      }
      var row := sessions[id];
      var events := GetEventsSince(id, 0, 0);
      var s := Materialize(id, row, events);
      SnapshotSurvivesRace(s, id, row, Log(id), Log(id));
      snap := Some(s);
    }

    /** The loop over the log that builds a snapshot from a session row read earlier. */
    static method Materialize(id: string, row: SessionRow, events: seq<Event>) returns (snap: Snapshot)
      ensures SnapshotFrom(snap, id, row, events)
    {
      var status, mode, lastSeq := row.status, "", row.lastSeq;
      var pending: map<string, PermissionView> := map[];
      var pendingQ: map<string, QuestionView> := map[];
      for i := 0 to |events|
        invariant ServerView(status, mode, pending, pendingQ) == Fold(StartView(row.status), events[..i])
        invariant lastSeq == if i == 0 then row.lastSeq else events[i - 1].seqNo
        invariant forall k :: k in pending ==> pending[k].requestId == k
        invariant forall k :: k in pendingQ ==> pendingQ[k].questionId == k
      {
        assert events[..i + 1] == events[..i] + [events[i]];
        FoldAppend(StartView(row.status), events[..i], events[i]);
        lastSeq := events[i].seqNo;
        match events[i].body {
          case StatusChange(s) => status := s;
          case ModeChanged(m, _) => mode := m;
          case PermissionRequest(r, k, t) => pending := pending[r := PermissionView(r, k, t)];
          case PermissionResolved(r, _, _) => pending := pending - {r};
          case QuestionAsked(q, t) => pendingQ := pendingQ[q := QuestionView(q, t)];
          case QuestionResolved(q, _, _) => pendingQ := pendingQ - {q};
          case _ =>
        }
      }
      assert events[..|events|] == events;
      var permissions := ListValues(pending, RequestIdOf());
      var questions := ListValues(pendingQ, QuestionIdOf());
      snap := Snapshot(id, status, mode, lastSeq, permissions, questions);
    }

    /** Collect the values of a map, in whatever order they come. */
    static method ListValues<V(==)>(m: map<string, V>, key: V -> string) returns (views: seq<V>)
      requires forall k :: k in m ==> key(m[k]) == k
      ensures Lists(views, m, key)
    {
      views := [];
      var rest := m.Keys;
      while rest != {}
        invariant rest <= m.Keys
        invariant forall i :: 0 <= i < |views| ==> key(views[i]) in m.Keys - rest && m[key(views[i])] == views[i]
        invariant forall i, j :: 0 <= i < j < |views| ==> key(views[i]) != key(views[j])
        invariant forall k :: k in m.Keys - rest ==> m[k] in views
        decreases |rest|
      {
        var k :| k in rest;
        views := views + [m[k]];
        rest := rest - {k};
      }
    }
  }
}
