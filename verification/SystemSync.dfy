/** Sync convergence: whatever the hub, the agent, the other devices and the network do, a live client shows
    what the host's fold of the log up to the client's position says. */
module SystemSync {
  import opened Protocol
  import opened Store
  import opened Counting
  import opened Shape
  import opened Reducer
  import opened Registers
  import opened Names
  import opened Stream
  import opened Bounds
  import Shown
  import opened ClientModel
  import opened ClientRuns
  import opened ClientGaps
  import HubModel
  import opened HubStreams
  import opened HubFrames
  import opened SystemModel

  /** Until its first frame is seen, a connection was opened at or after everything the client knows. */
  ghost predicate LinkSound(s: System) {
    s.link.Attached? ==>
      IsOfDevice(s, s.link.conn) && s.link.seen <= |s.hub.conns[s.link.conn].queue| &&
      (s.link.seen == 0 ==>
        s.client.session.lastSeq <= s.hub.conns[s.link.conn].openedAt &&
        s.client.session.tipSeq <= s.hub.conns[s.link.conn].openedAt)
  }

  /** The client has restored a position and seen nothing since. */
  ghost predicate Unseeded(c: Client, log: seq<Event>) {
    c.session == NEW_SESSION.(lastSeq := c.session.lastSeq) && c.session.lastSeq <= |log| && !c.phase.Live?
  }

  ghost predicate Placed(c: Client, link: Link, log: seq<Event>) {
    Converging(c.session, log) || (Unseeded(c, log) && (link.Attached? ==> link.seen == 0))
  }

  ghost predicate InStep(s: System) {
    Sound(s.hub) && Placed(s.client, s.link, s.hub.log) && LinkSound(s)
  }

  // --- Moves of the client ---

  /** Nothing but a frame changes a session, except that it can be forgotten. */
  lemma LocalSession(c: Client, input: Input)
    requires !input.FrameArrives?
    ensures Step(c, input).session == c.session || Step(c, input).session == NEW_SESSION
  {
    hide NEW_SESSION, HandleFrame, OpenSocket;
    if input.UserConnects? {
      OpenSession(c.(closedByUser := false, gapCount := 0, retryAttempt := 0, timerSet := false), input.created);
    } else if input.TimerFires? {
      OpenSession(c.(timerSet := false), input.created);
    }
  }

  lemma OpenSession(c: Client, created: bool)
    ensures OpenSocket(c, created).session == c.session || OpenSocket(c, created).session == NEW_SESSION
  {
  }

  lemma AckedSession(c: Client, frame: Frame)
    requires frame.AckFrame? || frame.ErrorFrame?
    ensures HandleFrame(c, frame).session == c.session
  {
  }

  lemma EventConverges(c: Client, log: seq<Event>, ev: Event)
    requires Converging(c.session, log) && Genuine(ev, log)
    ensures Converging(HandleEvent(c, ev).session, log)
  {
    hide Converging, ApplyEvent, Trimmed;
    if ev.seqNo == c.session.lastSeq + 1 {
      ConvergingEvent(c.session, log, ev, c.maxItems);
      EventEffect(c, ev);
    }
  }

  lemma SnapshotSession(c: Client, snap: SnapshotPayload)
    ensures HandleSnapshot(c, snap).session == ApplySnapshot(c.session, snap)
  {
  }

  lemma FirstFrameConverges(c: Client, frame: Frame, h: HubModel.Hub, n: nat)
    requires Sound(h) && n < |h.conns| && h.conns[n].queue != [] && frame == h.conns[n].queue[0]
    requires Converging(c.session, h.log) || c.session == NEW_SESSION.(lastSeq := c.session.lastSeq)
    requires c.session.lastSeq <= h.conns[n].openedAt && c.session.tipSeq <= h.conns[n].openedAt
    ensures Converging(HandleFrame(c, frame).session, h.log)
  {
    hide Converging, ApplySnapshot, SnapshotOf, HandleSnapshot, HandleEvent;
    assert ConnSound(h.conns[n], h.sessionId, h.log);
    QueueIsGenuine(h, n, 0);
    var tip := h.conns[n].tip;
    var snap, devices :| SnapshotOf(snap, h.sessionId, h.log[..tip]) && frame.snapshot == OnWire(snap, devices);
    assert snap.sessionId == h.sessionId by { SnapshotNamesSession(snap, h.sessionId, h.log[..tip]); }
    if Converging(c.session, h.log) {
      ConvergingSnapshot(c.session, h.log, tip, snap, devices);
    } else {
      RestoredConverges(c.session, h.log, tip, snap, devices);
    }
    SnapshotSession(c, frame.snapshot);
  }

  /** The first snapshot puts a client that has only restored a position on its way. */
  lemma RestoredConverges(s: SessionState, log: seq<Event>, tip: nat, snap: Snapshot, devices: seq<DeviceView>)
    requires s == NEW_SESSION.(lastSeq := s.lastSeq) && s.lastSeq <= tip <= |log|
    requires SnapshotOf(snap, snap.sessionId, log[..tip])
    ensures Converging(ApplySnapshot(s, OnWire(snap, devices)), log)
  {
    var t := ApplySnapshot(s, OnWire(snap, devices));
    forall reg | Visible(reg)
      ensures RegisterConverges(ReadClient(t, reg), log, t.lastSeq, tip, reg)
    {
      if reg.ModeRegister? && snap.mode == "" {
        ServerFoldMeans(log[..tip], reg);
      } else {
        SnapshotSeeds(s, log[..tip], snap, devices, reg);
      }
    }
  }

  lemma SnapshotNamesSession(snap: Snapshot, sessionId: string, log: seq<Event>)
    requires SnapshotOf(snap, sessionId, log)
    ensures snap.sessionId == sessionId
  {
  }

  lemma LaterFrameConverges(c: Client, frame: Frame, log: seq<Event>)
    requires Converging(c.session, log) && IsLive(frame, log)
    ensures Converging(HandleFrame(c, frame).session, log)
  {
    hide Converging, HandleEvent, Settle, HandleError;
    if frame.EventFrame? {
      EventConverges(c, log, frame.event);
    } else {
      AckedSession(c, frame);
    }
  }

  /** Nothing but a frame makes a client live. */
  lemma LocalPhase(c: Client, input: Input)
    requires !input.FrameArrives? && !c.phase.Live?
    ensures !Step(c, input).phase.Live?
  {
    hide NEW_SESSION, HandleFrame, OpenSocket;
    if input.UserConnects? {
      OpenPhase(c.(closedByUser := false, gapCount := 0, retryAttempt := 0, timerSet := false), input.created);
    } else if input.TimerFires? {
      OpenPhase(c.(timerSet := false), input.created);
    }
  }

  lemma OpenPhase(c: Client, created: bool)
    ensures !OpenSocket(c, created).phase.Live?
  {
    hide NEW_SESSION;
  }

  lemma FrameConverges(s: System)
    requires InStep(s) && HasFrame(s)
    ensures Converging(HandleFrame(s.client, s.hub.conns[s.link.conn].queue[s.link.seen]).session, s.hub.log)
  {
    hide Converging, HandleFrame, Sound;
    var frame := s.hub.conns[s.link.conn].queue[s.link.seen];
    QueueIsGenuine(s.hub, s.link.conn, s.link.seen);
    if s.link.seen == 0 {
      FirstFrameConverges(s.client, frame, s.hub, s.link.conn);
    } else {
      LaterFrameConverges(s.client, frame, s.hub.log);
    }
  }

  lemma ClientPlaced(s: System, move: Move)
    requires InStep(s) && InputOf(s, move).Some?
    ensures var c := Step(s.client, InputOf(s, move).value); Placed(c, NextLink(s, move, c), s.hub.log)
  {
    hide Converging, HandleFrame, Sound, LinkSound, NEW_SESSION;
    var input := InputOf(s, move).value;
    if move.FrameDelivered? {
      FrameConverges(s);
    } else {
      LocalSession(s.client, input);
      ConvergingNewSession(s.hub.log);
      if !s.client.phase.Live? {
        LocalPhase(s.client, input);
      }
    }
  }

  lemma PlacedIsBounded(s: System)
    requires Placed(s.client, s.link, s.hub.log)
    ensures s.client.session.lastSeq <= |s.hub.log| && s.client.session.tipSeq <= |s.hub.log|
  {
  }

  lemma LinkStep(s: System, move: Move)
    requires InStep(s)
    ensures LinkSound(Go(s, move))
  {
    hide Converging, HandleFrame, Sound, HubModel.Next, Step;
    var d := Go(s, move);
    PlacedIsBounded(s);
    if StepOf(s, move).Some? {
      StepFollows(s.hub, StepOf(s, move).value);
      if move.HelloArrives? {
        DialOpens(s.hub, s.device, s.link.hello);
      }
    }
    if InputOf(s, move).Some? && !move.FrameDelivered? {
      LocalSession(s.client, InputOf(s, move).value);
    }
  }

  lemma DialOpens(h: HubModel.Hub, device: DeviceId, hello: int)
    ensures var d := HubModel.Next(h, HubModel.DialStep(device, hello));
            |d.conns| == |h.conns| + 1 && d.conns[|h.conns|].device == device && d.conns[|h.conns|].openedAt == |h.log|
  {
  }

  /** A longer log, and a hello that arrives, leave the client where it is. */
  lemma HubPlaced(s: System, move: Move)
    requires InStep(s) && InputOf(s, move).None?
    ensures Placed(s.client, NextLink(s, move, s.client), Go(s, move).hub.log)
  {
    hide Converging, LinkSound, Sound, HubModel.Next, Step, NEW_SESSION;
    if StepOf(s, move).Some? {
      LogGrows(s.hub, StepOf(s, move).value);
      if Converging(s.client.session, s.hub.log) {
        ConvergingLogGrows(s.client.session, s.hub.log, Go(s, move).hub.log);
      }
    }
  }

  lemma InStepKept(s: System, move: Move)
    requires InStep(s)
    ensures InStep(Go(s, move))
  {
    LinkStep(s, move);
    hide Placed, LinkSound, Sound, HubModel.Next, Step;
    if InputOf(s, move).Some? {
      ClientPlaced(s, move);
    } else {
      HubPlaced(s, move);
    }
    if StepOf(s, move).Some? {
      SoundStep(s.hub, StepOf(s, move).value);
    }
  }

  lemma {:induction false} AlwaysInStep(scene: Scene, moves: seq<Move>)
    requires scene.restored <= |HubBefore(scene).log|
    ensures InStep(Play(Resume(scene), moves))
  {
    hide HubModel.Exec, Sound, NEW_SESSION;
    if moves == [] {
      HubIsSound(scene, []);
      assert Unseeded(Resume(scene).client, HubBefore(scene).log);
    } else {
      hide InStep, Go;
      var n := |moves| - 1;
      AlwaysInStep(scene, moves[..n]);
      InStepKept(Play(Resume(scene), moves[..n]), moves[n]);
    }
  }

  // --- Sync convergence ---

  /** In every run of the system, a live client has reached the tip of its snapshot and shows, register by
      register, what the host's fold of log[..lastSeq] says. */
  lemma SyncConvergence(scene: Scene, moves: seq<Move>)
    requires scene.restored <= |HubBefore(scene).log| && Play(Resume(scene), moves).client.phase.Live?
    ensures var s := Play(Resume(scene), moves);
            s.client.session.lastSeq >= s.client.session.tipSeq && InSync(s.client.session, s.hub.log)
  {
    hide Play, Converging, InSync, Run, LinkSound, Sound;
    AlwaysInStep(scene, moves);
    var inputs := ClientRunsAlone(scene, moves);
    GapsStaySound(scene.maxItems, scene.restored, inputs);
    var s := Play(Resume(scene), moves);
    ConvergedAtTip(s.client.session, s.hub.log);
  }

  /** The same in terms of the status, the mode and the sets of pending ids. An id that is the empty string
      is pending on the host and may or may not be on the client. */
  lemma LiveViewIsServerView(scene: Scene, moves: seq<Move>)
    requires scene.restored <= |HubBefore(scene).log| && Play(Resume(scene), moves).client.phase.Live?
    ensures var s := Play(Resume(scene), moves);
            s.client.session.lastSeq <= |s.hub.log|
    ensures var s := Play(Resume(scene), moves);
            var view, truth := s.client.session, ServerFold(s.hub.log[..s.client.session.lastSeq]);
            view.status == truth.status && view.mode == truth.mode &&
            KeysOf(view.pendingPermissions, RequestIdOf()) - {""} == truth.permissions.Keys - {""} &&
            KeysOf(view.pendingQuestions, QuestionIdOf()) - {""} == truth.questions.Keys - {""}
  {
    hide Play, ServerFold;
    SyncConvergence(scene, moves);
    var s := Play(Resume(scene), moves);
    var view, truth := s.client.session, ServerFold(s.hub.log[..s.client.session.lastSeq]);
    assert ReadClient(view, StatusRegister) == ReadServer(truth, StatusRegister);
    assert ReadClient(view, ModeRegister) == ReadServer(truth, ModeRegister);
    forall id | id != ""
      ensures id in KeysOf(view.pendingPermissions, RequestIdOf()) <==> id in truth.permissions
      ensures id in KeysOf(view.pendingQuestions, QuestionIdOf()) <==> id in truth.questions
    {
      assert ReadClient(view, CardRegister(PermissionCard(id))) == ReadServer(truth, CardRegister(PermissionCard(id)));
      assert ReadClient(view, CardRegister(QuestionCard(id))) == ReadServer(truth, CardRegister(QuestionCard(id)));
    }
  }

  /** And in every run, live or not, its stream is the fold of exactly log[base..lastSeq], where the base is
      the restored position or 0. */
  lemma StreamIsPrefixOfLog(scene: Scene, moves: seq<Move>)
    requires scene.restored <= |HubBefore(scene).log|
    ensures var s := Play(Resume(scene), moves); HoldsPrefix(s.client, s.hub.log, scene.restored)
  {
    hide Play, HoldsPrefix, Run, HubBefore;
    var inputs := ClientRunsAlone(scene, moves);
    LogOutlives(scene, moves);
    PrefixSafety(Play(Resume(scene), moves).hub.log, scene.maxItems, scene.restored, inputs);
  }

  ghost predicate WellKept(items: seq<Item>, bound: nat) {
    (forall i, j :: 0 <= i < j < |items| ==> items[i].seqNo < items[j].seqNo && items[i].id != items[j].id) &&
    (forall i :: 0 <= i < |items| ==> items[i].seqNo <= bound && Fits(items[i]))
  }

  lemma AlikeWellKept(a: seq<Item>, b: seq<Item>, bound: nat)
    requires Alike(a, b) && WellKept(b, bound)
    ensures WellKept(a, bound)
  {
    hide Nameless, Fits;
    forall x
      ensures Nameless(x).seqNo == x.seqNo && Nameless(x).id == x.id && (Fits(Nameless(x)) <==> Fits(x))
    {
      NamelessKeeps(x);
    }
  }

  lemma NamelessKeeps(x: Item)
    ensures Nameless(x).seqNo == x.seqNo && Nameless(x).id == x.id && (Fits(Nameless(x)) <==> Fits(x))
  {
  }

  /** In every reachable state the items are in log order up to `lastSeq`, their ids are distinct, and no
      assistant text exceeds the byte bound. */
  lemma ReachableStreamWellKept(scene: Scene, moves: seq<Move>)
    requires scene.restored <= |HubBefore(scene).log|
    ensures var session := Play(Resume(scene), moves).client.session;
            WellKept(session.items, session.lastSeq)
  {
    hide Play, Replay, ConnsSound, Fits, Run, WellKept;
    var s := Play(Resume(scene), moves);
    StreamIsPrefixOfLog(scene, moves);
    HubIsSound(scene, moves);
    var c := s.client;
    ReplayWellKept(c.history.applied, c.history.base, c.maxItems);
    AlikeWellKept(c.session.items, Replay(NEW_SESSION, c.history.applied, c.maxItems).items, c.session.lastSeq);
  }

  lemma ReplayWellKept(piece: seq<Event>, base: nat, maxItems: Option<nat>)
    requires Numbered(piece, base)
    ensures WellKept(Replay(NEW_SESSION, piece, maxItems).items, base + |piece|)
  {
    hide Replay, Fits;
    StreamIsOrdered(piece, base, maxItems);
    AssistantTextBounded(piece, maxItems);
    assert forall x :: FitsBound()(x) ==> Fits(x);
  }

  lemma NamelessRecords(x: Item, log: seq<Event>)
    ensures Records(Nameless(x), log) <==> Records(x, log)
  {
    hide Subsequence, DeltaText, LastDecision, LastAnswer, EndLogged;
  }

  /** And every item is a faithful record of the log up to `lastSeq`. */
  lemma ReachableStreamRecordsLog(scene: Scene, moves: seq<Move>)
    requires scene.restored <= |HubBefore(scene).log|
    ensures var s := Play(Resume(scene), moves);
            s.client.session.lastSeq <= |s.hub.log| &&
            forall x :: x in s.client.session.items ==> Records(x, s.hub.log[..s.client.session.lastSeq])
  {
    hide Play, Replay, ConnsSound, Run, Records;
    var s := Play(Resume(scene), moves);
    StreamIsPrefixOfLog(scene, moves);
    HubIsSound(scene, moves);
    var c, log := s.client, s.hub.log[..s.client.session.lastSeq];
    StreamRecordsLog(log, c.history.base, c.maxItems);
    assert log[c.history.base..] == c.history.applied;
    AlikeRecords(c.session.items, Replay(NEW_SESSION, c.history.applied, c.maxItems).items, log);
  }

  lemma AlikeRecords(a: seq<Item>, b: seq<Item>, log: seq<Event>)
    requires Alike(a, b) && forall x :: x in b ==> Records(x, log)
    ensures forall x :: x in a ==> Records(x, log)
  {
    hide Nameless, Records;
    forall i | 0 <= i < |a|
      ensures Records(a[i], log)
    {
      assert b[i] in b;
      NamelessRecords(a[i], log);
      NamelessRecords(b[i], log);
    }
  }

  lemma ReachableNotices(scene: Scene, moves: seq<Move>)
    requires scene.restored <= |HubBefore(scene).log|
    ensures NoticeCount(Play(Resume(scene), moves).client.session.items) <= MAX_NOTICES
  {
    hide Play, Replay, Run, Notices;
    StreamIsPrefixOfLog(scene, moves);
    var c := Play(Resume(scene), moves).client;
    var folded := Replay(NEW_SESSION, c.history.applied, c.maxItems).items;
    TrimmedNoticesAreNewest(c.history.applied, c.maxItems);
    NoticeCountIsLength(folded);
    AlikeDropNotices(c.session.items, folded, 0);
  }

  /** In every reachable state with a full stream, the next event that adds an item leaves a full stream with that
      item last; and unless it is an error notice, only the oldest item goes for it. */
  lemma ReachableStreamStaysFull(scene: Scene, moves: seq<Move>, ev: Event, m: nat)
    requires scene.restored <= |HubBefore(scene).log|
    requires var c := Play(Resume(scene), moves).client;
             c.maxItems == Some(m) && 0 < m == |c.session.items| && ev.seqNo == c.session.lastSeq + 1 &&
             Added(c.session.items, ev).Some?
    ensures var c := Play(Resume(scene), moves).client;
            var before, after := c.session.items, Step(c, FrameArrives(EventFrame(ev))).session.items;
            |after| == m && after[m - 1] == Added(before, ev).value &&
            (!ev.body.AgentError? ==> forall i :: 0 <= i < m - 1 ==> SameIdentity(before[i + 1], after[i]))
  {
    hide Play, Added, ApplyEvent, Trimmed;
    var c := Play(Resume(scene), moves).client;
    ReachableNotices(scene, moves);
    EventEffect(c, ev);
    Shown.FullStreamStaysFull(c.session, ev, m);
  }

  // --- Agreement ---

  /** Every event frame the client is given was accepted by some connection's queue. */
  ghost predicate FedFrom(h: HubModel.Hub, inputs: seq<Input>) {
    forall i :: 0 <= i < |inputs| && inputs[i].FrameArrives? && inputs[i].frame.EventFrame? ==>
      exists c, k :: 0 <= c < |h.conns| && 0 <= k < |h.conns[c].queue| && h.conns[c].queue[k] == inputs[i].frame
  }

  lemma FedIsGenuine(h: HubModel.Hub, inputs: seq<Input>, i: nat)
    requires Sound(h) && FedFrom(h, inputs) && i < |inputs|
    ensures IsGenuine(inputs[i], h.log)
  {
    hide Sound;
    if inputs[i].FrameArrives? && inputs[i].frame.EventFrame? {
      var c, k :| 0 <= c < |h.conns| && 0 <= k < |h.conns[c].queue| && h.conns[c].queue[k] == inputs[i].frame;
      QueueIsGenuine(h, c, k);
    }
  }

  /** Take any run of the hub and any two clients fed from its queues, restored at any positions within its
      log, through whatever appends, broadcasts out of order, overflows, reconnects, losses and duplicates: the
      pieces of the log they have applied agree. */
  lemma ClientsOfOneHubAgree(
    sessionId: string, steps: seq<HubModel.Step>, maxA: Option<nat>, restoredA: nat, inputsA: seq<Input>,
    maxB: Option<nat>, restoredB: nat, inputsB: seq<Input>)
    requires FedFrom(HubModel.Exec(HubModel.Start(sessionId), steps), inputsA)
    requires FedFrom(HubModel.Exec(HubModel.Start(sessionId), steps), inputsB)
    requires restoredA <= |HubModel.Exec(HubModel.Start(sessionId), steps).log|
    requires restoredB <= |HubModel.Exec(HubModel.Start(sessionId), steps).log|
    ensures var log := HubModel.Exec(HubModel.Start(sessionId), steps).log;
            var a, b := Run(Boot(maxA, restoredA), inputsA), Run(Boot(maxB, restoredB), inputsB);
            HoldsPrefix(a, log, restoredA) && HoldsPrefix(b, log, restoredB) && PiecesAgree(a.history, b.history)
  {
    hide Run, HubModel.Exec, Sound, FedFrom, IsGenuine, HoldsPrefix, PiecesAgree;
    var h := HubModel.Exec(HubModel.Start(sessionId), steps);
    HubStaysSound(sessionId, steps);
    forall i | 0 <= i < |inputsA|
      ensures IsGenuine(inputsA[i], h.log)
    {
      FedIsGenuine(h, inputsA, i);
    }
    forall i | 0 <= i < |inputsB|
      ensures IsGenuine(inputsB[i], h.log)
    {
      FedIsGenuine(h, inputsB, i);
    }
    PrefixSafety(h.log, maxA, restoredA, inputsA);
    PrefixSafety(h.log, maxB, restoredB, inputsB);
    Agreement(h.log, maxA, restoredA, inputsA, maxB, restoredB, inputsB);
  }
}
