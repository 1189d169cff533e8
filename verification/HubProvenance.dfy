/** Where things come from: every logged event names its command, every positive ack names its command's
    own event, and every call to the agent repeats the command whose event the log holds. */
module HubProvenance {
  import opened Protocol
  import opened Store
  import opened Counting
  import opened HubModel
  import opened HubTokens

  /** What is read back from a logged body is what the command asked for: the same decision on the same id, the
      same text, the same mode, by the device that sent it. A request the host cannot use has no such body. */
  predicate Tells(body: Body, request: Request, device: string) {
    match request
    case SendPrompt(text) => body.UserPrompt? && body.text == text && body.byDevice == device
    case AnswerPermission(id, allow, _) =>
      body.PermissionResolved? && body.requestId == id && body.allow == allow && body.byDevice == device
    case AnswerQuestion(id, text) =>
      body.QuestionResolved? && body.questionId == id && body.text == text && body.byDevice == device
    case SetMode(mode) => mode != "" && body.ModeChanged? && body.mode == mode && body.modeByDevice == device
    case Interrupt => body.StatusChange? && body.status == "idle"
    case BadPayload => false
    case Unsupported(_) => false
  }

  /** The event made for a command is the one body that tells what the command asked for. */
  lemma EventTells(request: Request, device: string, body: Body)
    ensures EventFor(request, device) == Some(body) <==> Tells(body, request, device)
  {
  }

  ghost predicate OriginHonest(origin: Origin, body: Body) {
    match origin
    case FromAgent => Closes(body).None?
    case FromCommand(key, device, command) =>
      key == IdempotencyKey(device, command.idempotencyKey) && Tells(body, command.request, device)
  }

  ghost predicate OriginsHonest(log: seq<Event>, origins: seq<Origin>) {
    Dense(log) && |origins| == |log| && forall n :: 0 <= n < |log| ==> OriginHonest(origins[n], log[n].body)
  }

  /** The log has this command of the device. */
  ghost predicate IsLogged(id: string, device: DeviceId, origins: seq<Origin>) {
    exists n ::
      0 <= n < |origins| && origins[n].FromCommand? && origins[n].command.id == id && origins[n].device == device
  }

  /** The codes of the errors that the hub offers to a connection it serves. */
  predicate IsHubCode(code: string) {
    code in {"bad_request", "unsupported_command", "already_resolved", "server_error", "agent_error"}
  }

  /** An ack with a positive number names the event of the acked command, sent by the acked device, and only
      a command in the log can fail at the agent. */
  ghost predicate FrameHonest(frame: Frame, device: DeviceId, origins: seq<Origin>) {
    (frame.AckFrame? && frame.seqNo > 0 ==>
      frame.seqNo <= |origins| && origins[frame.seqNo - 1].FromCommand? &&
      origins[frame.seqNo - 1].command.id == frame.commandId && origins[frame.seqNo - 1].device == device) &&
    (frame.ErrorFrame? && frame.code == "agent_error" ==> IsLogged(frame.commandId, device, origins)) &&
    (frame.ErrorFrame? ==> IsHubCode(frame.code))
  }

  ghost predicate FramesHonest(frames: seq<Frame>, device: DeviceId, origins: seq<Origin>) {
    forall f :: f in frames ==> FrameHonest(f, device, origins)
  }

  /** A handler past its append holds the event the log has for its command. */
  ghost predicate WorkHonest(conn: Conn, log: seq<Event>, origins: seq<Origin>) {
    conn.work.Logged? || conn.work.Acked? || conn.work.FanningOut? ==>
      1 <= conn.work.event.seqNo <= |log| && |origins| == |log| && log[conn.work.event.seqNo - 1] == conn.work.event &&
      origins[conn.work.event.seqNo - 1] == FromCommand(KeyOf(conn, conn.work.command), conn.device, conn.work.command)
  }

  ghost predicate ConnHonest(conn: Conn, log: seq<Event>, origins: seq<Origin>) {
    FramesHonest(conn.offered, conn.device, origins) && WorkHonest(conn, log, origins)
  }

  /** The agent was called for a logged event, with the very request the event was made from. */
  ghost predicate CallHonest(call: Call, origins: seq<Origin>) {
    1 <= call.seqNo <= |origins| &&
    var origin := origins[call.seqNo - 1];
    origin.FromCommand? && origin.key == call.key && origin.command.request == call.request
  }

  ghost predicate Honest(h: Hub) {
    OriginsHonest(h.log, h.origins) &&
    (forall c :: 0 <= c < |h.conns| ==> ConnHonest(h.conns[c], h.log, h.origins)) &&
    (forall call :: call in h.calls ==> CallHonest(call, h.origins))
  }

  lemma UpdateHonest(h: Hub, d: Hub, c: nat)
    requires Honest(h) && c < |h.conns| == |d.conns| && d.conns == h.conns[c := d.conns[c]]
    requires d.log == h.log && d.origins == h.origins && d.calls == h.calls
    requires ConnHonest(d.conns[c], h.log, h.origins)
    ensures Honest(d)
  {
  }

  lemma OfferHonest(conn: Conn, log: seq<Event>, origins: seq<Origin>, frame: Frame, room: bool)
    requires ConnHonest(conn, log, origins) && FrameHonest(frame, conn.device, origins)
    ensures ConnHonest(Offer(conn, frame, room), log, origins)
  {
  }

  lemma OfferEventsHonest(conn: Conn, log: seq<Event>, origins: seq<Origin>, events: seq<Event>, room: seq<bool>)
    requires ConnHonest(conn, log, origins)
    ensures ConnHonest(OfferEvents(conn, events, room), log, origins)
  {
    OfferEventsEffect(conn, events, room);
  }

  /** More of the log changes nothing that was honest before. */
  lemma ConnHonestGrows(conn: Conn, log: seq<Event>, origins: seq<Origin>, ev: Event, origin: Origin)
    requires ConnHonest(conn, log, origins)
    ensures ConnHonest(conn, log + [ev], origins + [origin])
  {
    forall f | f in conn.offered
      ensures FrameHonest(f, conn.device, origins + [origin])
    {
      assert FrameHonest(f, conn.device, origins);
      if f.ErrorFrame? && f.code == "agent_error" {
        var n :| 0 <= n < |origins| && origins[n].FromCommand? && origins[n].command.id == f.commandId &&
                 origins[n].device == conn.device;
        assert (origins + [origin])[n] == origins[n];
      }
    }
  }

  lemma AppendHonest(h: Hub, ts: int, body: Body, fault: Fault, origin: Origin)
    requires Honest(h) && OriginHonest(origin, body)
    ensures Honest(AppendToLog(h, ts, body, fault, origin))
  {
    hide ConnHonest, OriginHonest;
    var d := AppendToLog(h, ts, body, fault, origin);
    forall c | 0 <= c < |h.conns|
      ensures ConnHonest(h.conns[c], d.log, d.origins)
    {
      ConnHonestGrows(h.conns[c], h.log, h.origins, NextEvent(h.log, ts, body), origin);
    }
  }

  lemma DialHonest(h: Hub, device: DeviceId, hello: int)
    requires Honest(h)
    ensures Honest(Dial(h, device, hello))
  {
  }

  lemma ReadHonest(h: Hub, c: nat, snap: Snapshot)
    requires Honest(h)
    ensures Honest(ReadRow(h, c)) && Honest(ReadLog(h, c, snap)) && Honest(ReadTail(h, c)) && Honest(HangUp(h, c))
  {
    hide CallHonest, OriginsHonest, SnapshotFrom, Since;
    if c < |h.conns| {
      assert ConnHonest(h.conns[c], h.log, h.origins);
    }
  }

  lemma RegisterHonest(h: Hub, c: nat, devices: seq<DeviceView>, room: seq<bool>)
    requires Honest(h)
    ensures Honest(Register(h, c, devices, room))
  {
    hide CallHonest, OriginsHonest, OfferEvents, Offer;
    if c < |h.conns| && h.conns[c].setup.Registering? {
      var conn := h.conns[c];
      assert ConnHonest(conn, h.log, h.origins);
      var frame := SnapshotFrame(OnWire(conn.setup.snap, devices));
      OfferHonest(Joined(conn, |h.log|), h.log, h.origins, frame, true);
      OfferEventsHonest(Offer(Joined(conn, |h.log|), frame, true), h.log, h.origins, conn.setup.tail, room);
      OfferEventsEffect(Offer(Joined(conn, |h.log|), frame, true), conn.setup.tail, room);
      UpdateHonest(h, Register(h, c, devices, room), c);
    }
  }

  lemma RefuseHonest(h: Hub, c: nat, code: string, room: bool)
    requires Honest(h) && c < |h.conns| && !h.conns[c].work.Waiting? && IsHubCode(code)
    requires code == "agent_error" ==> h.conns[c].work.FanningOut?
    ensures Honest(Refuse(h, c, code, room))
  {
  }

  lemma ReceiveHonest(h: Hub, c: nat, command: Command, room: bool)
    requires Honest(h)
    ensures Honest(Receive(h, c, command, room))
  {
  }

  lemma ClaimHonest(h: Hub, c: nat, room: bool)
    requires Honest(h)
    ensures Honest(Claim(h, c, room))
  {
  }

  lemma TakeHonest(h: Hub, c: nat, room: bool)
    requires Honest(h)
    ensures Honest(Take(h, c, room))
  {
    hide CallHonest, OriginsHonest, PendingCards, Refuse, EventFor;
    if c < |h.conns| && h.conns[c].work.Claimed? {
      assert ConnHonest(h.conns[c], h.log, h.origins);
      assert "bad_request"[0] != "agent_error"[0];
      var command := h.conns[c].work.command;
      RefuseHonest(h, c, RefusalCode(command.request), room);
      RefuseHonest(h, c, "already_resolved", room);
      var conn := h.conns[c].(work := Taken(command));
      assert ConnHonest(conn, h.log, h.origins);
      UpdateHonest(h, WithConn(h, c, conn), c);
    }
  }

  lemma AppendCommandHonest(h: Hub, c: nat, ts: int, fault: Fault, room: bool)
    requires Honest(h)
    ensures Honest(AppendCommand(h, c, ts, fault, room))
  {
    hide CallHonest, OriginsHonest, Refuse, EventFor, IdempotencyKey, NextCache;
    if c < |h.conns| && ReadyToAppend(h.conns[c].work, h.conns[c].device) {
      var conn := h.conns[c];
      var command := conn.work.command;
      if fault.Refused? {
        RefuseHonest(h, c, "server_error", room);
      } else {
        var body := EventFor(command.request, conn.device).value;
        var origin := FromCommand(KeyOf(conn, command), conn.device, command);
        EventTells(command.request, conn.device, body);
        AppendHonest(h, ts, body, fault, origin);
        var grown := AppendToLog(h, ts, body, fault, origin);
        assert ConnHonest(grown.conns[c], grown.log, grown.origins);
        assert |h.origins| == |h.log| by { OriginsCover(h); }
        UpdateHonest(grown, AppendCommand(h, c, ts, fault, room), c);
      }
    }
  }

  lemma OriginsCover(h: Hub)
    requires Honest(h)
    ensures |h.origins| == |h.log|
  {
  }

  lemma BroadcastHonest(h: Hub, c: nat, room: bool)
    requires Honest(h)
    ensures Honest(Acknowledge(h, c, room)) && Honest(CopyClients(h, c))
  {
    hide CallHonest, OriginsHonest, IdempotencyKey;
    if c < |h.conns| && h.conns[c].work.Logged? {
      var conn := h.conns[c];
      assert ConnHonest(conn, h.log, h.origins);
      OfferHonest(conn.(work := Acked(conn.work.command, conn.work.event)), h.log, h.origins,
                  AckFrame(conn.work.command.id, conn.work.event.seqNo), room);
      UpdateHonest(h, Acknowledge(h, c, room), c);
    } else if c < |h.conns| && h.conns[c].work.Acked? {
      assert ConnHonest(h.conns[c], h.log, h.origins);
      UpdateHonest(h, CopyClients(h, c), c);
    }
  }

  lemma FanHonest(h: Hub, c: nat, target: nat, room: bool)
    requires Honest(h)
    ensures Honest(Fan(h, c, target, room))
  {
    hide CallHonest, OriginsHonest, IdempotencyKey;
    if c < |h.conns| && target < |h.conns| && h.conns[c].work.FanningOut? && target in h.conns[c].work.targets {
      var conn := h.conns[c];
      assert ConnHonest(conn, h.log, h.origins);
      var h1 := WithConn(h, c, conn.(work := conn.work.(targets := conn.work.targets - {target})));
      UpdateHonest(h, h1, c);
      assert ConnHonest(h1.conns[target], h.log, h.origins);
      OfferHonest(h1.conns[target], h.log, h.origins, EventFrame(conn.work.event), room);
      UpdateHonest(h1, Fan(h, c, target, room), target);
    }
  }

  /** The call repeats the request whose event the handler holds. */
  lemma CallAdded(h: Hub, c: nat, call: Call)
    requires Honest(h) && c < |h.conns| && h.conns[c].work.FanningOut?
    requires call == Call(KeyOf(h.conns[c], h.conns[c].work.command), h.conns[c].work.event.seqNo,
                          h.conns[c].work.command.request)
    ensures Honest(h.(calls := h.calls + [call]))
  {
    hide OriginsHonest, IdempotencyKey, FramesHonest;
    assert ConnHonest(h.conns[c], h.log, h.origins);
    assert CallHonest(call, h.origins);
  }

  lemma ForwardHonest(h: Hub, c: nat, accepted: bool, room: bool)
    requires Honest(h)
    ensures Honest(Forward(h, c, accepted, room))
  {
    hide CallHonest, OriginsHonest, IdempotencyKey, Refuse;
    if c < |h.conns| && h.conns[c].work.FanningOut? && h.conns[c].work.targets == {} {
      var conn := h.conns[c];
      var call := Call(KeyOf(conn, conn.work.command), conn.work.event.seqNo, conn.work.command.request);
      var d := h.(calls := h.calls + [call]);
      CallAdded(h, c, call);
      RefuseHonest(d, c, "agent_error", room);
      assert ConnHonest(conn, d.log, d.origins);
      UpdateHonest(d, WithConn(d, c, conn.(work := Waiting)), c);
    }
  }

  lemma IngestHonest(h: Hub, ts: int, body: Body, fault: Fault, target: nat, room: bool)
    requires Honest(h)
    ensures Honest(AgentEmits(h, ts, body, fault)) && Honest(FileRequest(h)) && Honest(CopyForIngest(h))
    ensures Honest(Spread(h, target, room)) && Honest(Listen(h))
  {
    hide CallHonest, OriginsHonest, ConnHonest, AppendToLog;
    if h.ingest.Listening? && Closes(body).None? && !fault.Refused? {
      AppendHonest(h, ts, body, fault, FromAgent);
      SameButIngest(AppendToLog(h, ts, body, fault, FromAgent), AgentEmits(h, ts, body, fault));
    }
    if h.ingest.Spreading? && target in h.ingest.targets && target < |h.conns| {
      OfferHonest(h.conns[target], h.log, h.origins, EventFrame(h.ingest.event), room);
      UpdateHonest(h, Spread(h, target, room), target);
    }
  }

  lemma SameButIngest(h: Hub, d: Hub)
    requires Honest(h) && d.log == h.log && d.origins == h.origins && d.calls == h.calls && d.conns == h.conns
    ensures Honest(d)
  {
  }

  lemma HonestStep(h: Hub, step: Step)
    requires Honest(h)
    ensures Honest(Next(h, step))
  {
    hide Honest, Dial, ReadRow, ReadLog, ReadTail, Register, HangUp, Receive, Claim, Take, AppendCommand, Acknowledge,
         CopyClients, Fan, Forward, AgentEmits, FileRequest, CopyForIngest, Spread, Listen;
    var none := Snapshot("", "", "", 0, [], []);
    match step {
      case DialStep(device, hello) => DialHonest(h, device, hello);
      case ReadRowStep(c) => ReadHonest(h, c, none);
      case ReadTailStep(c) => ReadHonest(h, c, none);
      case ReadLogStep(c, snap) => ReadHonest(h, c, snap);
      case HangUpStep(c) => ReadHonest(h, c, none);
      case RegisterStep(c, devices, rooms) => RegisterHonest(h, c, devices, rooms);
      case ReceiveStep(c, command, room) => ReceiveHonest(h, c, command, room);
      case ClaimStep(c, room) => ClaimHonest(h, c, room);
      case TakeStep(c, room) => TakeHonest(h, c, room);
      case AppendStep(c, ts, fault, room) => AppendCommandHonest(h, c, ts, fault, room);
      case AckStep(c, room) => BroadcastHonest(h, c, room);
      case CopyStep(c) => BroadcastHonest(h, c, true);
      case FanStep(c, target, room) => FanHonest(h, c, target, room);
      case ForwardStep(c, accepted, room) => ForwardHonest(h, c, accepted, room);
      case EmitStep(ts, body, fault) => IngestHonest(h, ts, body, fault, 0, true);
      case FileStep => IngestHonest(h, 0, TurnComplete, NoFault, 0, true);
      case IngestCopyStep => IngestHonest(h, 0, TurnComplete, NoFault, 0, true);
      case SpreadStep(target, room) => IngestHonest(h, 0, TurnComplete, NoFault, target, room);
      case ListenStep => IngestHonest(h, 0, TurnComplete, NoFault, 0, true);
    }
  }

  /** Every reachable state of the hub is honest about where its events, acks and calls come from. */
  lemma {:induction false} HubStaysHonest(sessionId: string, steps: seq<Step>)
    ensures Honest(Exec(Start(sessionId), steps))
  {
    if steps != [] {
      hide Honest, Next;
      HubStaysHonest(sessionId, steps[..|steps| - 1]);
      HonestStep(Exec(Start(sessionId), steps[..|steps| - 1]), steps[|steps| - 1]);
    }
  }

  /** The agent is called only for a logged event, and what is read back from the event is the call's own
      request: a forwarded answer carries the id and the decision that the log holds, and the log names the
      device whose command it was. */
  lemma AgentHearsWhatIsLogged(sessionId: string, steps: seq<Step>, call: Call)
    requires call in Exec(Start(sessionId), steps).calls
    ensures var h := Exec(Start(sessionId), steps);
            1 <= call.seqNo <= |h.log| == |h.origins| &&
            h.origins[call.seqNo - 1].FromCommand? && h.origins[call.seqNo - 1].key == call.key &&
            Tells(h.log[call.seqNo - 1].body, call.request, h.origins[call.seqNo - 1].device)
  {
    hide Exec, Tells, IdempotencyKey;
    HubStaysHonest(sessionId, steps);
    var h := Exec(Start(sessionId), steps);
    assert CallHonest(call, h.origins);
    assert OriginHonest(h.origins[call.seqNo - 1], h.log[call.seqNo - 1].body);
  }

  /** Every log entry that a command made tells, read back, what the command asked for and which device sent it. */
  lemma CommandIsLoggedAsSent(sessionId: string, steps: seq<Step>, n: nat)
    requires n < |Exec(Start(sessionId), steps).origins| && Exec(Start(sessionId), steps).origins[n].FromCommand?
    ensures var h := Exec(Start(sessionId), steps);
            n < |h.log| && Tells(h.log[n].body, h.origins[n].command.request, h.origins[n].device)
  {
    hide Exec, Tells, IdempotencyKey;
    HubStaysHonest(sessionId, steps);
    var h := Exec(Start(sessionId), steps);
    assert OriginHonest(h.origins[n], h.log[n].body);
  }

  /** An ack with a positive number, wherever it is offered, names the event of the acked command itself,
      issued by the device it is acked to. */
  lemma AckNamesOwnEvent(sessionId: string, steps: seq<Step>, c: nat, ack: Frame)
    requires c < |Exec(Start(sessionId), steps).conns| && ack in Exec(Start(sessionId), steps).conns[c].offered
    requires ack.AckFrame? && ack.seqNo > 0
    ensures var h := Exec(Start(sessionId), steps);
            ack.seqNo <= |h.log| == |h.origins| &&
            exists command: Command :: command.id == ack.commandId &&
              Tells(h.log[ack.seqNo - 1].body, command.request, h.conns[c].device) &&
              h.origins[ack.seqNo - 1] ==
              FromCommand(IdempotencyKey(h.conns[c].device, command.idempotencyKey), h.conns[c].device, command)
  {
    hide Exec, Tells, IdempotencyKey;
    HubStaysHonest(sessionId, steps);
    var h := Exec(Start(sessionId), steps);
    assert ConnHonest(h.conns[c], h.log, h.origins);
    assert FrameHonest(ack, h.conns[c].device, h.origins);
    assert OriginHonest(h.origins[ack.seqNo - 1], h.log[ack.seqNo - 1].body);
    assert h.origins[ack.seqNo - 1].command.id == ack.commandId;
  }

  // --- Devices and keys ---

  lemma SlotSplits(device: DeviceId, key: string)
    ensures var slot := IdempotencyKey(device, key);
            slot[|device|] == ':' && forall i :: 0 <= i < |device| ==> slot[i] != ':'
  {
  }

  /** Two commands share a slot in the host's table exactly when they are the same device's use of the same
      key, colons in the key included. */
  lemma SlotsAreDistinct(deviceA: DeviceId, keyA: string, deviceB: DeviceId, keyB: string)
    ensures IdempotencyKey(deviceA, keyA) == IdempotencyKey(deviceB, keyB) <==> deviceA == deviceB && keyA == keyB
  {
    var a, b := IdempotencyKey(deviceA, keyA), IdempotencyKey(deviceB, keyB);
    if a == b {
      SlotSplits(deviceA, keyA);
      SlotSplits(deviceB, keyB);
      assert deviceA == a[..|deviceA|] && deviceB == b[..|deviceB|];
      assert keyA == a[|deviceA| + 1..] && keyB == b[|deviceB| + 1..];
    }
  }

  /** Each device's use of a key reaches the log at most once. */
  lemma OneEventPerKey(sessionId: string, steps: seq<Step>, i: nat, j: nat)
    requires var origins := Exec(Start(sessionId), steps).origins;
             i < |origins| && j < |origins| && origins[i].FromCommand? && origins[j].FromCommand? &&
             origins[i].device == origins[j].device &&
             origins[i].command.idempotencyKey == origins[j].command.idempotencyKey
    ensures i == j
  {
    hide Exec, IdempotencyKey;
    HubStaysHonest(sessionId, steps);
    var h := Exec(Start(sessionId), steps);
    assert OriginHonest(h.origins[i], h.log[i].body) && OriginHonest(h.origins[j], h.log[j].body);
    AtMostOnce(sessionId, steps, h.origins[i].key);
    TallyUnique(h.origins, i, j, SpentOn(h.origins[i].key));
  }

  /** The agent is called at most once per logged event. */
  lemma OneCallPerEvent(sessionId: string, steps: seq<Step>, i: nat, j: nat)
    requires var calls := Exec(Start(sessionId), steps).calls;
             i < |calls| && j < |calls| && calls[i].seqNo == calls[j].seqNo
    ensures i == j
  {
    hide Exec, IdempotencyKey;
    HubStaysHonest(sessionId, steps);
    var h := Exec(Start(sessionId), steps);
    assert CallHonest(h.calls[i], h.origins) && CallHonest(h.calls[j], h.origins);
    AtMostOnce(sessionId, steps, h.calls[i].key);
    TallyUnique(h.calls, i, j, CallFor(h.calls[i].key));
  }
}
