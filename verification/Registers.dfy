/** The host's fold and the client's fold compared. Each is read through independent last-writer
    registers: the status, the mode, and for every card whether it is pending. */
module Registers {
  import opened Protocol
  import opened Store
  import opened Reducer

  datatype Register = StatusRegister | ModeRegister | CardRegister(card: Card)

  datatype Reading = Label(text: string) | Pending(yes: bool)

  /** What an event writes to a register, if anything. */
  function Written(body: Body, reg: Register): Option<Reading> {
    match reg
    case StatusRegister => if body.StatusChange? then Some(Label(body.status)) else None
    case ModeRegister => if body.ModeChanged? then Some(Label(body.mode)) else None
    case CardRegister(card) =>
      if Opens(body) == Some(card) then Some(Pending(true))
      else if Closes(body) == Some(card) then Some(Pending(false))
      else None
  }

  function LastWrite(events: seq<Event>, reg: Register): Option<Reading> {
    if events == [] then None
    else
      var last := Written(events[|events| - 1].body, reg);
      if last.Some? then last else LastWrite(events[..|events| - 1], reg)
  }

  function Initially(reg: Register): Reading {
    match reg
    case StatusRegister => Label("idle")
    case ModeRegister => Label("")
    case CardRegister(_) => Pending(false)
  }

  /** The reference meaning of a log: each register holds what was written to it last. */
  function Meaning(log: seq<Event>, reg: Register): Reading {
    LastWrite(log, reg).GetOr(Initially(reg))
  }

  function ReadServer(v: ServerView, reg: Register): Reading {
    match reg
    case StatusRegister => Label(v.status)
    case ModeRegister => Label(v.mode)
    case CardRegister(PermissionCard(id)) => Pending(id in v.permissions)
    case CardRegister(QuestionCard(id)) => Pending(id in v.questions)
  }

  function ReadClient(s: SessionState, reg: Register): Reading {
    match reg
    case StatusRegister => Label(s.status)
    case ModeRegister => Label(s.mode)
    case CardRegister(PermissionCard(id)) => Pending(id in KeysOf(s.pendingPermissions, RequestIdOf()))
    case CardRegister(QuestionCard(id)) => Pending(id in KeysOf(s.pendingQuestions, QuestionIdOf()))
  }

  /** The client ignores requests and questions whose id is empty; the host does not. */
  predicate Visible(reg: Register) {
    reg.CardRegister? ==> reg.card.id != ""
  }

  lemma {:induction false} LastWriteConcat(a: seq<Event>, b: seq<Event>, reg: Register)
    ensures LastWrite(a + b, reg) == if LastWrite(b, reg).Some? then LastWrite(b, reg) else LastWrite(a, reg)
  {
    if b == [] {
      assert a + b == a;
    } else {
      LastWriteConcat(a, b[..|b| - 1], reg);
      assert (a + b)[..|a| + |b| - 1] == a + b[..|b| - 1];
    }
  }

  // --- Each fold implements the registers ---

  /** The host's fold of a log is the meaning of the log, register by register. */
  lemma {:induction false} ServerFoldMeans(log: seq<Event>, reg: Register)
    ensures ReadServer(ServerFold(log), reg) == Meaning(log, reg)
  {
    if log != [] {
      ServerFoldMeans(log[..|log| - 1], reg);
    }
  }

  lemma NextPermissionsKeys(views: seq<PermissionView>, body: Body)
    ensures KeysOf(NextPermissions(views, body), RequestIdOf()) ==
            if body.PermissionRequest? && body.requestId != "" then KeysOf(views, RequestIdOf()) + {body.requestId}
            else if body.PermissionResolved? then KeysOf(views, RequestIdOf()) - {body.requestId}
            else KeysOf(views, RequestIdOf())
  {
    if body.PermissionRequest? && body.requestId != "" {
      var view := PermissionView(body.requestId, body.kind, body.summary);
      DedupedKeepsKeys(views + [view], RequestIdOf());
      KeysAppend(views, view, RequestIdOf());
    } else if body.PermissionResolved? {
      WithoutRemovesKey(views, RequestIdOf(), body.requestId);
    }
  }

  lemma NextQuestionsKeys(views: seq<QuestionView>, body: Body)
    ensures KeysOf(NextQuestions(views, body), QuestionIdOf()) ==
            if body.QuestionAsked? && body.questionId != "" then KeysOf(views, QuestionIdOf()) + {body.questionId}
            else if body.QuestionResolved? then KeysOf(views, QuestionIdOf()) - {body.questionId}
            else KeysOf(views, QuestionIdOf())
  {
    if body.QuestionAsked? && body.questionId != "" {
      var view := QuestionView(body.questionId, body.text);
      DedupedKeepsKeys(views + [view], QuestionIdOf());
      KeysAppend(views, view, QuestionIdOf());
    } else if body.QuestionResolved? {
      WithoutRemovesKey(views, QuestionIdOf(), body.questionId);
    }
  }

  /** One event through the client's reducer writes exactly what the event writes. */
  lemma ApplyEventWrites(s: SessionState, ev: Event, maxItems: Option<nat>, reg: Register)
    requires Visible(reg)
    ensures ReadClient(Trimmed(ApplyEvent(s, ev), maxItems), reg) ==
            Written(ev.body, reg).GetOr(ReadClient(s, reg))
  {
    NextPermissionsKeys(s.pendingPermissions, ev.body);
    NextQuestionsKeys(s.pendingQuestions, ev.body);
  }

  lemma {:induction false} ReplayReads(s: SessionState, events: seq<Event>, maxItems: Option<nat>, reg: Register)
    requires Visible(reg)
    ensures ReadClient(Replay(s, events, maxItems), reg) == LastWrite(events, reg).GetOr(ReadClient(s, reg))
  {
    if events != [] {
      var n := |events| - 1;
      ReplayReads(s, events[..n], maxItems, reg);
      ApplyEventWrites(Replay(s, events[..n], maxItems), events[n], maxItems, reg);
    }
  }

  /** An event stream alone never makes a card with an empty id pending. */
  lemma {:induction false} EmptyIdNeverPending(log: seq<Event>, maxItems: Option<nat>, card: Card)
    requires card.id == ""
    ensures ReadClient(Replay(NEW_SESSION, log, maxItems), CardRegister(card)) == Pending(false)
  {
    if log != [] {
      var n := |log| - 1;
      EmptyIdNeverPending(log[..n], maxItems, card);
      NextPermissionsKeys(Replay(NEW_SESSION, log[..n], maxItems).pendingPermissions, log[n].body);
      NextQuestionsKeys(Replay(NEW_SESSION, log[..n], maxItems).pendingQuestions, log[n].body);
    }
  }

  /** The two folds agree on every register of every log, except that a card with an empty id can be
      pending on the host alone. */
  lemma FoldsAgreeExactly(log: seq<Event>, maxItems: Option<nat>, reg: Register)
    ensures ReadClient(Replay(NEW_SESSION, log, maxItems), reg) == ReadServer(ServerFold(log), reg) <==>
            Visible(reg) || ReadServer(ServerFold(log), reg) == Pending(false)
  {
    if Visible(reg) {
      ReplayReads(NEW_SESSION, log, maxItems, reg);
      ServerFoldMeans(log, reg);
    } else {
      EmptyIdNeverPending(log, maxItems, reg.card);
    }
  }

  /** A request with an empty id is such a card. */
  lemma EmptyIdSplitsFolds(ev: Event, kind: string, summary: string, maxItems: Option<nat>)
    requires ev.body == PermissionRequest("", kind, summary)
    ensures var reg := CardRegister(PermissionCard(""));
            ReadServer(ServerFold([ev]), reg) == Pending(true) &&
            ReadClient(Replay(NEW_SESSION, [ev], maxItems), reg) == Pending(false)
  {
    ServerFoldMeans([ev], CardRegister(PermissionCard("")));
    EmptyIdNeverPending([ev], maxItems, PermissionCard(""));
  }

  /** The folds written in two languages give the same status, mode and pending ids at every log. */
  lemma FoldsAgree(log: seq<Event>, maxItems: Option<nat>)
    ensures var client := Replay(NEW_SESSION, log, maxItems);
            var server := ServerFold(log);
            client.status == server.status && client.mode == server.mode &&
            KeysOf(client.pendingPermissions, RequestIdOf()) == server.permissions.Keys - {""} &&
            KeysOf(client.pendingQuestions, QuestionIdOf()) == server.questions.Keys - {""}
  {
    var client, server := Replay(NEW_SESSION, log, maxItems), ServerFold(log);
    FoldsAgreeExactly(log, maxItems, StatusRegister);
    FoldsAgreeExactly(log, maxItems, ModeRegister);
    forall id: string
      ensures id in KeysOf(client.pendingPermissions, RequestIdOf()) <==> id in server.permissions.Keys - {""}
      ensures id in KeysOf(client.pendingQuestions, QuestionIdOf()) <==> id in server.questions.Keys - {""}
    {
      FoldsAgreeExactly(log, maxItems, CardRegister(PermissionCard(id)));
      FoldsAgreeExactly(log, maxItems, CardRegister(QuestionCard(id)));
      if id == "" {
        EmptyIdNeverPending(log, maxItems, PermissionCard(id));
        EmptyIdNeverPending(log, maxItems, QuestionCard(id));
      }
    }
  }

  // --- Windows of a log ---

  lemma WindowSplit(log: seq<Event>, a: nat, b: nat, c: nat, reg: Register)
    requires a <= b <= c <= |log|
    ensures LastWrite(log[a..c], reg) ==
            if LastWrite(log[b..c], reg).Some? then LastWrite(log[b..c], reg) else LastWrite(log[a..b], reg)
  {
    assert log[a..c] == log[a..b] + log[b..c];
    LastWriteConcat(log[a..b], log[b..c], reg);
  }

  lemma WindowOfOne(log: seq<Event>, a: nat, reg: Register)
    requires a < |log|
    ensures LastWrite(log[a..a + 1], reg) == Written(log[a].body, reg)
  {
  }

  lemma MeaningSplit(log: seq<Event>, a: nat, b: nat, reg: Register)
    requires a <= b <= |log|
    ensures Meaning(log[..b], reg) == LastWrite(log[a..b], reg).GetOr(Meaning(log[..a], reg))
  {
    WindowSplit(log, 0, a, b, reg);
    assert log[..b] == log[0..b] && log[..a] == log[0..a];
  }

  // --- Replaying a tail over a state that already contains it ---

  /** A snapshot of log[..tip] jumps the view ahead; replaying log[from..upTo] on top re-adds requests
      already resolved and re-applies resolutions, and still ends in the state of log[..upTo]. */
  lemma ReplayAbsorption(
    s: SessionState, log: seq<Event>, from: nat, tip: nat, upTo: nat, maxItems: Option<nat>, reg: Register)
    requires from <= tip <= upTo <= |log|
    requires Visible(reg) && ReadClient(s, reg) == Meaning(log[..tip], reg)
    ensures ReadClient(Replay(s, log[from..upTo], maxItems), reg) == Meaning(log[..upTo], reg)
  {
    ReplayReads(s, log[from..upTo], maxItems, reg);
    WindowSplit(log, from, tip, upTo, reg);
    MeaningSplit(log, from, tip, reg);
    MeaningSplit(log, from, upTo, reg);
  }

  function Later(a: nat, b: nat): nat {
    if a < b then b else a
  }

  /** The register already shows the state at the horizon, or will be overwritten on the way there. */
  ghost predicate RegisterConverges(shown: Reading, log: seq<Event>, at: nat, horizon: nat, reg: Register)
    requires at <= horizon <= |log|
  {
    LastWrite(log[at..horizon], reg).Some? || shown == Meaning(log[..horizon], reg)
  }

  /** The view a client holds between a snapshot and the end of its catch-up. */
  ghost predicate Converging(s: SessionState, log: seq<Event>) {
    var horizon := Later(s.tipSeq, s.lastSeq);
    horizon <= |log| &&
    forall reg :: Visible(reg) ==> RegisterConverges(ReadClient(s, reg), log, s.lastSeq, horizon, reg)
  }

  /** The client shows what the host's fold of log[..lastSeq] says. */
  ghost predicate InSync(s: SessionState, log: seq<Event>) {
    s.lastSeq <= |log| &&
    forall reg :: Visible(reg) ==> ReadClient(s, reg) == ReadServer(ServerFold(log[..s.lastSeq]), reg)
  }

  /** Once the tip is reached there is nothing left to overwrite. */
  lemma ConvergedAtTip(s: SessionState, log: seq<Event>)
    requires Converging(s, log) && s.lastSeq >= s.tipSeq
    ensures InSync(s, log)
  {
    forall reg | Visible(reg)
      ensures ReadClient(s, reg) == ReadServer(ServerFold(log[..s.lastSeq]), reg)
    {
      assert RegisterConverges(ReadClient(s, reg), log, s.lastSeq, s.lastSeq, reg);
      assert LastWrite(log[s.lastSeq..s.lastSeq], reg).None?;
      ServerFoldMeans(log[..s.lastSeq], reg);
    }
  }

  lemma ConvergingNewSession(log: seq<Event>)
    ensures Converging(NEW_SESSION, log)
  {
  }

  lemma ConvergingLogGrows(s: SessionState, log: seq<Event>, longer: seq<Event>)
    requires Converging(s, log) && log <= longer
    ensures Converging(s, longer)
  {
    var horizon := Later(s.tipSeq, s.lastSeq);
    assert longer[..horizon] == log[..horizon];
    assert longer[s.lastSeq..horizon] == log[s.lastSeq..horizon];
    forall reg | Visible(reg)
      ensures RegisterConverges(ReadClient(s, reg), longer, s.lastSeq, horizon, reg)
    {
      assert RegisterConverges(ReadClient(s, reg), log, s.lastSeq, horizon, reg);
    }
  }

  /** Applying the next event keeps a register converging, whether or not the event lies beyond the tip. */
  lemma RegisterConvergesEvent(shown: Reading, log: seq<Event>, at: nat, horizon: nat, reg: Register)
    requires at <= horizon <= |log| && at < |log|
    requires RegisterConverges(shown, log, at, horizon, reg)
    ensures RegisterConverges(Written(log[at].body, reg).GetOr(shown), log, at + 1, Later(horizon, at + 1), reg)
  {
    var later := Later(horizon, at + 1);
    WindowOfOne(log, at, reg);
    WindowSplit(log, at, at + 1, later, reg);
    MeaningSplit(log, at, later, reg);
    if horizon == at {
      assert log[at..at] == [];
    }
  }

  lemma ConvergingEvent(s: SessionState, log: seq<Event>, ev: Event, maxItems: Option<nat>)
    requires Converging(s, log) && Genuine(ev, log) && ev.seqNo == s.lastSeq + 1
    ensures Converging(Trimmed(ApplyEvent(s, ev), maxItems), log)
  {
    var t := Trimmed(ApplyEvent(s, ev), maxItems);
    var horizon := Later(s.tipSeq, s.lastSeq);
    forall reg | Visible(reg)
      ensures RegisterConverges(ReadClient(t, reg), log, t.lastSeq, Later(t.tipSeq, t.lastSeq), reg)
    {
      ApplyEventWrites(s, ev, maxItems, reg);
      assert RegisterConverges(ReadClient(s, reg), log, s.lastSeq, horizon, reg);
      RegisterConvergesEvent(ReadClient(s, reg), log, s.lastSeq, horizon, reg);
    }
  }

  /** A register the wire left out is kept, and kept rightly if nothing was written to it since. */
  lemma RegisterConvergesKept(shown: Reading, log: seq<Event>, at: nat, horizon: nat, tip: nat, reg: Register)
    requires at <= horizon <= tip <= |log|
    requires RegisterConverges(shown, log, at, horizon, reg) && Meaning(log[..tip], reg) == Initially(reg)
    ensures RegisterConverges(shown, log, at, tip, reg)
  {
    WindowSplit(log, at, horizon, tip, reg);
    MeaningSplit(log, horizon, tip, reg);
  }

  /** The wire form of a snapshot of log[..tip] seeds every register that it carries. */
  lemma SnapshotSeeds(s: SessionState, log: seq<Event>, snap: Snapshot, devices: seq<DeviceView>, reg: Register)
    requires SnapshotOf(snap, snap.sessionId, log)
    requires reg.ModeRegister? ==> snap.mode != ""
    ensures ReadClient(ApplySnapshot(s, OnWire(snap, devices)), reg) == Meaning(log, reg)
  {
    ServerFoldMeans(log, reg);
    PendingFiledById(log);
    ListedKeys(snap.pendingPermissions, ServerFold(log).permissions, RequestIdOf());
    DedupedKeepsKeys(snap.pendingPermissions, RequestIdOf());
    ListedKeys(snap.pendingQuestions, ServerFold(log).questions, QuestionIdOf());
    DedupedKeepsKeys(snap.pendingQuestions, QuestionIdOf());
  }

  /** A snapshot taken at or after everything the client has seen keeps the view converging, even when
      the wire leaves the empty mode out and the client keeps its own. */
  lemma ConvergingSnapshot(s: SessionState, log: seq<Event>, tip: nat, snap: Snapshot, devices: seq<DeviceView>)
    requires Converging(s, log)
    requires s.lastSeq <= tip <= |log| && (snap.mode == "" ==> s.tipSeq <= tip)
    requires SnapshotOf(snap, snap.sessionId, log[..tip])
    ensures Converging(ApplySnapshot(s, OnWire(snap, devices)), log)
  {
    var base := if IsOtherSession(s, OnWire(snap, devices)) then NEW_SESSION else s;
    ConvergingNewSession(log);
    var t := ApplySnapshot(s, OnWire(snap, devices));
    forall reg | Visible(reg)
      ensures RegisterConverges(ReadClient(t, reg), log, t.lastSeq, tip, reg)
    {
      if reg.ModeRegister? && snap.mode == "" {
        ServerFoldMeans(log[..tip], reg);
        var horizon := Later(base.tipSeq, base.lastSeq);
        assert RegisterConverges(ReadClient(base, reg), log, base.lastSeq, horizon, reg);
        RegisterConvergesKept(ReadClient(base, reg), log, base.lastSeq, horizon, tip, reg);
      } else {
        SnapshotSeeds(s, log[..tip], snap, devices, reg);
      }
    }
  }

  lemma PendingFiledById(log: seq<Event>)
    ensures forall id :: id in ServerFold(log).permissions ==> ServerFold(log).permissions[id].requestId == id
    ensures forall id :: id in ServerFold(log).questions ==> ServerFold(log).questions[id].questionId == id
  {
    forall id | id in ServerFold(log).permissions
      ensures ServerFold(log).permissions[id].requestId == id
    {
      PendingPermissionIsLogged(log, id);
    }
    forall id | id in ServerFold(log).questions
      ensures ServerFold(log).questions[id].questionId == id
    {
      PendingQuestionIsLogged(log, id);
    }
  }

  lemma ListedKeys<V>(views: seq<V>, m: map<string, V>, key: V -> string)
    requires Lists(views, m, key) && forall k :: k in m ==> key(m[k]) == k
    ensures KeysOf(views, key) == m.Keys
  {
  }
}
