/** What a live client shows of a pending card, beyond its id. */
module SystemViews {
  import opened Protocol
  import opened Store
  import opened Counting
  import opened Reducer
  import opened Registers
  import opened Views
  import opened ClientModel
  import opened ClientRuns
  import HubModel
  import opened HubStreams
  import opened SystemModel
  import opened SystemSync

  // --- Every view shown was asked for in the log ---

  ghost predicate PermissionLogged(v: PermissionView, log: seq<Event>) {
    exists k :: 0 <= k < |log| && log[k].body == PermissionRequest(v.requestId, v.kind, v.summary)
  }

  ghost predicate QuestionLogged(v: QuestionView, log: seq<Event>) {
    exists k :: 0 <= k < |log| && log[k].body == QuestionAsked(v.questionId, v.text)
  }

  ghost predicate ViewsLogged(s: SessionState, log: seq<Event>) {
    (forall v :: v in s.pendingPermissions ==> PermissionLogged(v, log)) &&
    (forall v :: v in s.pendingQuestions ==> QuestionLogged(v, log))
  }

  lemma {:induction false} DedupedSelects<T>(views: seq<T>, key: T -> string, v: T)
    requires v in Deduped(views, key)
    ensures v in views
  {
    var n := |views| - 1;
    if v in Deduped(views[..n], key) {
      DedupedSelects(views[..n], key, v);
    }
  }

  lemma {:induction false} WithoutKeeps<T>(views: seq<T>, key: T -> string, id: string, v: T)
    requires v in Without(views, key, id)
    ensures v in views
  {
    var n := |views| - 1;
    if v in Without(views[..n], key, id) {
      WithoutKeeps(views[..n], key, id, v);
    }
  }

  lemma LoggedGrows(s: SessionState, log: seq<Event>, longer: seq<Event>)
    requires ViewsLogged(s, log) && log <= longer
    ensures ViewsLogged(s, longer)
  {
    forall v | v in s.pendingPermissions
      ensures PermissionLogged(v, longer)
    {
      var k :| 0 <= k < |log| && log[k].body == PermissionRequest(v.requestId, v.kind, v.summary);
      assert longer[k] == log[k];
    }
    forall v | v in s.pendingQuestions
      ensures QuestionLogged(v, longer)
    {
      var k :| 0 <= k < |log| && log[k].body == QuestionAsked(v.questionId, v.text);
      assert longer[k] == log[k];
    }
  }

  lemma EventLogs(s: SessionState, log: seq<Event>, ev: Event, maxItems: Option<nat>)
    requires ViewsLogged(s, log) && Genuine(ev, log)
    ensures ViewsLogged(Trimmed(ApplyEvent(s, ev), maxItems), log)
  {
    hide NextItems;
    forall v | v in NextPermissions(s.pendingPermissions, ev.body)
      ensures PermissionLogged(v, log)
    {
      match ev.body {
        case PermissionRequest(id, kind, summary) =>
          if id != "" {
            DedupedSelects(s.pendingPermissions + [PermissionView(id, kind, summary)], RequestIdOf(), v);
            assert log[ev.seqNo - 1].body == PermissionRequest(id, kind, summary);
          }
        case PermissionResolved(id, _, _) => WithoutKeeps(s.pendingPermissions, RequestIdOf(), id, v);
        case _ =>
      }
    }
    forall v | v in NextQuestions(s.pendingQuestions, ev.body)
      ensures QuestionLogged(v, log)
    {
      match ev.body {
        case QuestionAsked(id, text) =>
          if id != "" {
            DedupedSelects(s.pendingQuestions + [QuestionView(id, text)], QuestionIdOf(), v);
            assert log[ev.seqNo - 1].body == QuestionAsked(id, text);
          }
        case QuestionResolved(id, _, _) => WithoutKeeps(s.pendingQuestions, QuestionIdOf(), id, v);
        case _ =>
      }
    }
  }

  /** What the host holds was asked for. */
  lemma HeldIsLogged(log: seq<Event>, tip: nat)
    requires tip <= |log|
    ensures forall id :: id in ServerFold(log[..tip]).permissions ==>
              PermissionLogged(ServerFold(log[..tip]).permissions[id], log) &&
              ServerFold(log[..tip]).permissions[id].requestId == id
    ensures forall id :: id in ServerFold(log[..tip]).questions ==>
              QuestionLogged(ServerFold(log[..tip]).questions[id], log) &&
              ServerFold(log[..tip]).questions[id].questionId == id
  {
    hide ServerFold;
    forall id | id in ServerFold(log[..tip]).permissions
      ensures PermissionLogged(ServerFold(log[..tip]).permissions[id], log)
      ensures ServerFold(log[..tip]).permissions[id].requestId == id
    {
      PendingPermissionIsLogged(log[..tip], id);
      var v := ServerFold(log[..tip]).permissions[id];
      var k :| 0 <= k < tip && log[..tip][k].body == PermissionRequest(id, v.kind, v.summary);
      assert log[k].body == PermissionRequest(v.requestId, v.kind, v.summary);
    }
    forall id | id in ServerFold(log[..tip]).questions
      ensures QuestionLogged(ServerFold(log[..tip]).questions[id], log)
      ensures ServerFold(log[..tip]).questions[id].questionId == id
    {
      PendingQuestionIsLogged(log[..tip], id);
      var v := ServerFold(log[..tip]).questions[id];
      var k :| 0 <= k < tip && log[..tip][k].body == QuestionAsked(id, v.text);
      assert log[k].body == QuestionAsked(v.questionId, v.text);
    }
  }

  lemma SnapshotLogs(s: SessionState, log: seq<Event>, tip: nat, snap: Snapshot, devices: seq<DeviceView>)
    requires tip <= |log| && SnapshotOf(snap, snap.sessionId, log[..tip])
    ensures ViewsLogged(ApplySnapshot(s, OnWire(snap, devices)), log)
  {
    hide ServerFold, PermissionLogged, QuestionLogged;
    HeldIsLogged(log, tip);
    forall v | v in Deduped(snap.pendingPermissions, RequestIdOf())
      ensures PermissionLogged(v, log)
    {
      DedupedSelects(snap.pendingPermissions, RequestIdOf(), v);
    }
    forall v | v in Deduped(snap.pendingQuestions, QuestionIdOf())
      ensures QuestionLogged(v, log)
    {
      DedupedSelects(snap.pendingQuestions, QuestionIdOf(), v);
    }
  }

  // --- Over runs ---

  lemma HandledEventLogs(c: Client, log: seq<Event>, ev: Event)
    requires ViewsLogged(c.session, log) && Genuine(ev, log)
    ensures ViewsLogged(HandleEvent(c, ev).session, log)
  {
    hide ViewsLogged, ApplyEvent, Trimmed;
    if ev.seqNo == c.session.lastSeq + 1 {
      EventLogs(c.session, log, ev, c.maxItems);
      EventEffect(c, ev);
    }
  }

  lemma QueuedFrameLogs(c: Client, h: HubModel.Hub, n: nat, i: nat)
    requires Sound(h) && ViewsLogged(c.session, h.log) && n < |h.conns| && i < |h.conns[n].queue|
    ensures ViewsLogged(HandleFrame(c, h.conns[n].queue[i]).session, h.log)
  {
    hide ViewsLogged, ApplySnapshot, SnapshotOf, HandleSnapshot, HandleEvent, Settle, HandleError;
    var frame := h.conns[n].queue[i];
    assert ConnSound(h.conns[n], h.sessionId, h.log);
    QueueIsGenuine(h, n, i);
    if i == 0 {
      var tip := h.conns[n].tip;
      var snap, devices :| SnapshotOf(snap, h.sessionId, h.log[..tip]) && frame.snapshot == OnWire(snap, devices);
      SnapshotNamesSession(snap, h.sessionId, h.log[..tip]);
      SnapshotLogs(c.session, h.log, tip, snap, devices);
      SnapshotSession(c, frame.snapshot);
    } else if frame.EventFrame? {
      HandledEventLogs(c, h.log, frame.event);
    } else {
      AckedSession(c, frame);
    }
  }

  lemma NewSessionLogs(log: seq<Event>)
    ensures ViewsLogged(NEW_SESSION, log)
  {
  }

  lemma ViewsStep(s: System, move: Move)
    requires Sound(s.hub) && ViewsLogged(s.client.session, s.hub.log)
    ensures ViewsLogged(Go(s, move).client.session, Go(s, move).hub.log)
  {
    hide Sound, ViewsLogged, HandleFrame, HubModel.Next, NEW_SESSION;
    if InputOf(s, move).Some? {
      if move.FrameDelivered? {
        QueuedFrameLogs(s.client, s.hub, s.link.conn, s.link.seen);
      } else {
        LocalSession(s.client, InputOf(s, move).value);
        NewSessionLogs(s.hub.log);
      }
    }
    if StepOf(s, move).Some? {
      LogGrows(s.hub, StepOf(s, move).value);
      LoggedGrows(s.client.session, s.hub.log, Go(s, move).hub.log);
    }
  }

  lemma {:induction false} AlwaysLogged(scene: Scene, moves: seq<Move>)
    ensures ViewsLogged(Play(Resume(scene), moves).client.session, Play(Resume(scene), moves).hub.log)
  {
    if moves != [] {
      hide Sound, ViewsLogged, Go, HubModel.Exec;
      AlwaysLogged(scene, moves[..|moves| - 1]);
      HubIsSound(scene, moves[..|moves| - 1]);
      ViewsStep(Play(Resume(scene), moves[..|moves| - 1]), moves[|moves| - 1]);
    }
  }

  // --- Live ---

  /** With a fresh id there is only one view to show. */
  lemma OnePermission(log: seq<Event>, v: PermissionView, w: PermissionView)
    requires PermissionLogged(v, log) && PermissionLogged(w, log) && v.requestId == w.requestId
    requires Tally(log, AsksFor(PermissionCard(v.requestId))) <= 1
    ensures v == w
  {
    var i :| 0 <= i < |log| && log[i].body == PermissionRequest(v.requestId, v.kind, v.summary);
    var j :| 0 <= j < |log| && log[j].body == PermissionRequest(w.requestId, w.kind, w.summary);
    TallyUnique(log, i, j, AsksFor(PermissionCard(v.requestId)));
  }

  lemma OneQuestion(log: seq<Event>, v: QuestionView, w: QuestionView)
    requires QuestionLogged(v, log) && QuestionLogged(w, log) && v.questionId == w.questionId
    requires Tally(log, AsksFor(QuestionCard(v.questionId))) <= 1
    ensures v == w
  {
    var i :| 0 <= i < |log| && log[i].body == QuestionAsked(v.questionId, v.text);
    var j :| 0 <= j < |log| && log[j].body == QuestionAsked(w.questionId, w.text);
    TallyUnique(log, i, j, AsksFor(QuestionCard(v.questionId)));
  }

  /** A session in sync shows, of a card with a fresh id, exactly the host's view. */
  lemma InSyncShowsHeld(s: SessionState, log: seq<Event>, card: Card, view: CardView)
    requires InSync(s, log) && ViewsLogged(s, log) && card.id != "" && Tally(log, AsksFor(card)) <= 1
    ensures Shows(s, card, view) <==> Held(ServerFold(log[..s.lastSeq]), card) == Some(view)
  {
    hide ServerFold, PermissionLogged, QuestionLogged;
    var truth := ServerFold(log[..s.lastSeq]);
    assert ReadClient(s, CardRegister(card)) == ReadServer(truth, CardRegister(card));
    HeldIsLogged(log, s.lastSeq);
    match card {
      case PermissionCard(id) =>
        if id in truth.permissions {
          var i := KeyFound(s.pendingPermissions, id, RequestIdOf());
          assert s.pendingPermissions[i] in s.pendingPermissions;
          OnePermission(log, s.pendingPermissions[i], truth.permissions[id]);
          if view.PermissionShown? && view.permission in s.pendingPermissions && view.permission.requestId == id {
            OnePermission(log, view.permission, truth.permissions[id]);
          }
        } else if view.PermissionShown? && view.permission in s.pendingPermissions {
          assert RequestIdOf()(view.permission) in KeysOf(s.pendingPermissions, RequestIdOf());
        }
      case QuestionCard(id) =>
        if id in truth.questions {
          var i := KeyFound(s.pendingQuestions, id, QuestionIdOf());
          assert s.pendingQuestions[i] in s.pendingQuestions;
          OneQuestion(log, s.pendingQuestions[i], truth.questions[id]);
          if view.QuestionShown? && view.question in s.pendingQuestions && view.question.questionId == id {
            OneQuestion(log, view.question, truth.questions[id]);
          }
        } else if view.QuestionShown? && view.question in s.pendingQuestions {
          assert QuestionIdOf()(view.question) in KeysOf(s.pendingQuestions, QuestionIdOf());
        }
    }
  }

  /** In every run of the system a live client shows, of every card whose id was used once, exactly the view that
      the host's fold of log[..lastSeq] holds, and nothing if it holds none. */
  lemma LiveViewsAreHeld(scene: Scene, moves: seq<Move>, card: Card, view: CardView)
    requires scene.restored <= |HubBefore(scene).log| && Play(Resume(scene), moves).client.phase.Live?
    requires card.id != "" && Tally(Play(Resume(scene), moves).hub.log, AsksFor(card)) <= 1
    ensures var s := Play(Resume(scene), moves);
            s.client.session.lastSeq <= |s.hub.log| &&
            (Shows(s.client.session, card, view) <==>
             Held(ServerFold(s.hub.log[..s.client.session.lastSeq]), card) == Some(view))
  {
    hide Play, ServerFold, ViewsLogged, Shows, Held;
    SyncConvergence(scene, moves);
    AlwaysLogged(scene, moves);
    var s := Play(Resume(scene), moves);
    InSyncShowsHeld(s.client.session, s.hub.log, card, view);
  }
}
