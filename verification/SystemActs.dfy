/** The client's acts over whole runs of the system: commands are written, and a lost socket is replaced. */
module SystemActs {
  import opened Protocol
  import opened Store
  import opened Reducer
  import opened ClientModel
  import opened ClientGaps
  import opened ClientOutbox
  import opened ClientActs
  import HubModel
  import opened HubStreams
  import opened HubProvenance
  import opened SystemModel
  import opened SystemCommands

  /** The last thing the user said of connections: connect, or nothing yet, or close. */
  predicate WantsConnection(moves: seq<Move>) {
    moves != [] &&
    var move := moves[|moves| - 1];
    if move.ClientActs? && move.input.UserConnects? then true
    else if move.ClientActs? && move.input.UserCloses? then false
    else WantsConnection(moves[..|moves| - 1])
  }

  /** The link is the client's own socket; while it is being set up the client is not live, and a live client has
      written every command of its outbox. */
  predicate LinkHeld(c: Client, link: Link) {
    (link.Opening? || link.Greeting? || link.Attached? ==> c.hasSocket) &&
    (link.Greeting? || link.Attached? ==> c.socketReady) &&
    (link.Opening? || link.Greeting? ==> !c.phase.Live?) &&
    (link.Attached? && c.phase.Live? ==> forall x :: x in c.outbox ==> x in c.history.sent)
  }

  /** A client that wants a connection has one, or a timer that will try for one, unless the host refused it; one
      that wants none has neither. */
  predicate Minded(c: Client, link: Link, wants: bool) {
    if wants then !c.closedByUser && (c.hasSocket || c.timerSet) && (link.Down? ==> c.timerSet || c.phase.Unauthorized?)
    else link.Down? && !c.hasSocket && !c.timerSet
  }

  // --- Frames ---

  /** The hub sends no error code that ends a client. */
  lemma HubErrorsAreNotTerminal(code: string)
    requires IsHubCode(code)
    ensures !IsTerminal(code)
  {
    assert "server_error"[0] != "unauthorized"[0];
  }

  predicate AllSent(c: Client) {
    forall x :: x in c.outbox ==> x in c.history.sent
  }

  /** What a frame of the hub leaves of a client on an attached link. */
  predicate AfterFrame(c: Client, d: Client) {
    d.closedByUser == c.closedByUser &&
    (if d.hasSocket then d.socketReady == c.socketReady && (c.timerSet ==> d.timerSet)
     else c.closedByUser || d.timerSet) &&
    (d.hasSocket && d.phase.Live? ==> AllSent(d))
  }

  lemma SnapshotActs(c: Client, snap: SnapshotPayload)
    requires c.hasSocket && c.socketReady
    ensures AfterFrame(c, HandleSnapshot(c, snap))
  {
    hide HandleSnapshot, AllSent;
    SnapshotWrites(c, snap);
    SnapshotKeepsSocket(c, snap);
    if HandleSnapshot(c, snap).phase.Live? {
      WrittenIsSent(c, HandleSnapshot(c, snap));
    }
  }

  lemma SnapshotKeepsSocket(c: Client, snap: SnapshotPayload)
    ensures var d := HandleSnapshot(c, snap);
            d.hasSocket == c.hasSocket && d.socketReady == c.socketReady && d.timerSet == c.timerSet &&
            d.closedByUser == c.closedByUser
  {
    hide ApplySnapshot, IsOtherSession;
  }

  lemma WrittenIsSent(c: Client, d: Client)
    requires d.history.sent == c.history.sent + d.outbox
    ensures AllSent(d)
  {
  }

  lemma EventKeepsSocket(c: Client, ev: Event)
    requires !IsGap(c, ev)
    ensures var d := HandleEvent(c, ev);
            d.hasSocket == c.hasSocket && d.socketReady == c.socketReady && d.timerSet == c.timerSet &&
            d.closedByUser == c.closedByUser && d.outbox == c.outbox
  {
    hide ApplyEvent, Trimmed;
  }

  lemma GapClosed(c: Client, ev: Event)
    requires IsGap(c, ev)
    ensures HandleEvent(c, ev).closedByUser == c.closedByUser
  {
    hide ApplyEvent, Trimmed;
  }

  lemma EventActs(c: Client, ev: Event)
    requires c.hasSocket && c.socketReady && (c.phase.Live? ==> AllSent(c))
    ensures AfterFrame(c, HandleEvent(c, ev))
  {
    hide HandleEvent, Step;
    StepIs(c, FrameArrives(EventFrame(ev)));
    if IsGap(c, ev) {
      GapReconnects(c, ev);
      GapClosed(c, ev);
    } else {
      EventWrites(c, ev);
      EventKeepsSocket(c, ev);
    }
  }

  lemma AnswerActs(c: Client, frame: Frame)
    requires frame.AckFrame? || (frame.ErrorFrame? && IsHubCode(frame.code))
    requires c.hasSocket && c.socketReady && (c.phase.Live? ==> AllSent(c))
    ensures AfterFrame(c, HandleFrame(c, frame))
  {
    hide RemoveCommand, IsTerminal, IsHubCode;
    if frame.ErrorFrame? {
      HubErrorsAreNotTerminal(frame.code);
    }
    RemoveCommandSelects(c.outbox, frame.commandId);
  }

  lemma FrameActs(c: Client, h: HubModel.Hub, n: nat, i: nat)
    requires Sound(h) && Honest(h) && n < |h.conns| && i < |h.conns[n].queue|
    requires c.hasSocket && c.socketReady && (c.phase.Live? ==> AllSent(c))
    ensures AfterFrame(c, HandleFrame(c, h.conns[n].queue[i]))
  {
    hide Sound, AfterFrame, HandleSnapshot, HandleEvent, Settle, HandleError, IsHubCode, AllSent;
    var frame := h.conns[n].queue[i];
    match frame {
      case SnapshotFrame(snap) => SnapshotActs(c, snap);
      case EventFrame(ev) => EventActs(c, ev);
      case AckFrame(_, _) => AnswerActs(c, frame);
      case ErrorFrame(_, _) =>
        QueueIsOffered(h, n, i);
        assert ConnHonest(h.conns[n], h.log, h.origins);
        AnswerActs(c, frame);
    }
  }

  // --- Moves ---

  function Wants(wants: bool, move: Move): bool {
    if move.ClientActs? && move.input.UserConnects? then true
    else if move.ClientActs? && move.input.UserCloses? then false
    else wants
  }

  predicate Acts(c: Client, link: Link, wants: bool) {
    LinkHeld(c, link) && Minded(c, link, wants)
  }

  lemma DeliveredActs(s: System, wants: bool)
    requires Sound(s.hub) && Honest(s.hub) && Acts(s.client, s.link, wants) && HasFrame(s)
    ensures Acts(Go(s, FrameDelivered).client, Go(s, FrameDelivered).link, wants)
  {
    hide Sound, Honest, HandleFrame, AllSent;
    if s.client.phase.Live? {
      HeldIsSent(s.client, s.link);
    }
    FrameActs(s.client, s.hub, s.link.conn, s.link.seen);
    SentIsHeld(Go(s, FrameDelivered).client);
  }

  lemma HeldIsSent(c: Client, link: Link)
    requires LinkHeld(c, link) && link.Attached? && c.phase.Live?
    ensures AllSent(c)
  {
  }

  lemma SentIsHeld(c: Client)
    ensures AllSent(c) ==> forall x :: x in c.outbox ==> x in c.history.sent
  {
  }

  lemma OpeningActs(c: Client, link: Link, created: bool)
    requires LinkHeld(c, link) && !c.closedByUser
    ensures Acts(OpenSocket(c, created), if created then Opening else link, true)
  {
    hide OpenSocket;
    AttemptResumes(c, created);
    AttemptKeeps(c, created);
  }

  lemma AttemptKeeps(c: Client, created: bool)
    requires !c.closedByUser
    ensures var d := OpenSocket(c, created);
            !d.closedByUser && (!created ==> d.socketReady == c.socketReady) && d.history.sent == c.history.sent
  {
    hide NEW_SESSION;
  }

  lemma SendingActs(c: Client, link: Link, id: string, request: Request, wants: bool)
    requires Acts(c, link, wants)
    ensures Acts(SendCommand(c, id, request), link, wants)
  {
    hide SendCommand;
    SendWrites(c, id, request);
    SendKeeps(c, id, request);
  }

  lemma SendKeeps(c: Client, id: string, request: Request)
    ensures var d := SendCommand(c, id, request);
            d.hasSocket == c.hasSocket && d.socketReady == c.socketReady && d.timerSet == c.timerSet &&
            d.closedByUser == c.closedByUser && d.phase == c.phase && (|c.outbox| >= MAX_OUTBOX ==> d == c)
  {
  }

  lemma LocalActs(s: System, input: Input, wants: bool)
    requires Acts(s.client, s.link, wants) && IsLocal(input)
    ensures var d := Go(s, ClientActs(input)); Acts(d.client, d.link, Wants(wants, ClientActs(input)))
  {
    hide Step, OpenSocket, SendCommand, NEW_SESSION;
    StepIs(s.client, input);
    match input {
      case UserConnects(created) =>
        ConnectAttempts(s.client, created);
        OpeningActs(s.client.(closedByUser := false, gapCount := 0, retryAttempt := 0, timerSet := false), s.link,
                    created);
      case TimerFires(created) =>
        ConnectAttempts(s.client, created);
        if s.client.timerSet {
          OpeningActs(s.client.(timerSet := false), s.link, created);
        }
      case UserSends(id, request) => SendingActs(s.client, s.link, id, request, wants);
      case UserCloses =>
        CloseAndReset(s.client);
      case UserResets =>
        CloseAndReset(s.client);
        ResetSendsNothing(s.client);
    }
  }

  lemma ResetSendsNothing(c: Client)
    ensures Step(c, UserResets).history.sent == c.history.sent
  {
    hide NEW_SESSION;
  }

  lemma SocketActs(s: System, move: Move, wants: bool)
    requires Acts(s.client, s.link, wants) && (move.SocketOpened? || move.LinkLost?)
    ensures Acts(Go(s, move).client, Go(s, move).link, wants)
  {
    if move.LinkLost? {
      CloseReconnects(s.client, true, move.code);
    }
  }

  lemma HubActs(s: System, move: Move, wants: bool)
    requires Acts(s.client, s.link, wants) && InputOf(s, move).None?
    ensures Acts(Go(s, move).client, Go(s, move).link, Wants(wants, move))
  {
    hide HubModel.Next, Step;
  }

  lemma ActsStep(s: System, move: Move, wants: bool)
    requires Sound(s.hub) && Honest(s.hub) && Acts(s.client, s.link, wants)
    ensures Acts(Go(s, move).client, Go(s, move).link, Wants(wants, move))
  {
    hide Sound, Honest, Acts, Go;
    if InputOf(s, move).None? {
      HubActs(s, move, wants);
    } else {
      match move {
        case ClientActs(input) => LocalActs(s, input, wants);
        case FrameDelivered => DeliveredActs(s, wants);
        case _ => SocketActs(s, move, wants);
      }
    }
  }

  lemma {:induction false} AlwaysActs(scene: Scene, moves: seq<Move>)
    ensures Acts(Play(Resume(scene), moves).client, Play(Resume(scene), moves).link, WantsConnection(moves))
  {
    hide Sound, Honest, HubModel.Exec, Go;
    if moves != [] {
      hide Acts;
      var n := |moves| - 1;
      AlwaysActs(scene, moves[..n]);
      HubIsSound(scene, moves[..n]);
      var steps := HubRunsAlone(scene, moves[..n]);
      HubStaysHonest(scene.sessionId, steps);
      ActsStep(Play(Resume(scene), moves[..n]), moves[n], WantsConnection(moves[..n]));
    }
  }

  // --- What it means ---

  /** In every run, a client that is live on its link has written every command of its outbox. */
  lemma LiveHasSentEverything(scene: Scene, moves: seq<Move>, command: Command)
    requires var s := Play(Resume(scene), moves);
             s.link.Attached? && s.client.phase.Live? && command in s.client.outbox
    ensures command in Play(Resume(scene), moves).client.history.sent
  {
    hide Play;
    AlwaysActs(scene, moves);
  }

  /** In every run, a client has a socket or a timer that will try for one if and only if the user last asked to
      connect and has not closed since; and then, whenever it has no link, the timer is set unless the host has
      refused it. */
  lemma LostLinkIsRetried(scene: Scene, moves: seq<Move>)
    ensures var s := Play(Resume(scene), moves);
            (WantsConnection(moves) <==> s.client.hasSocket || s.client.timerSet) &&
            (WantsConnection(moves) && s.link.Down? ==> s.client.timerSet || s.client.phase.Unauthorized?)
  {
    hide Play;
    AlwaysActs(scene, moves);
  }
}
