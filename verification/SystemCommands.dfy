/** Commands end to end: what the client's promises say about the log, and what the log says about the
    client's commands, through any reconnects, resends and duplicates. */
module SystemCommands {
  import opened Protocol
  import opened Counting
  import opened ClientModel
  import opened ClientOutbox
  import HubModel
  import opened HubStreams
  import opened HubTokens
  import opened HubFrames
  import opened HubProvenance
  import opened HubRefusals
  import opened HubFates
  import opened SystemModel
  import opened SystemSync
  import opened Registers

  // --- The hub's side ---

  /** Whatever the device's connections are working on, and whatever the log has from it, is one of the
      given commands. */
  ghost predicate WorkTraced(conn: HubModel.Conn, device: DeviceId, issued: seq<Command>) {
    conn.device == device && !conn.work.Waiting? ==> conn.work.command in issued && conn.work.command.id != ""
  }

  ghost predicate OriginTraced(origin: HubModel.Origin, device: DeviceId, issued: seq<Command>) {
    origin.FromCommand? && origin.device == device ==> origin.command in issued
  }

  ghost predicate HubTraced(h: HubModel.Hub, device: DeviceId, issued: seq<Command>) {
    (forall c :: 0 <= c < |h.conns| ==> WorkTraced(h.conns[c], device, issued)) &&
    (forall n :: 0 <= n < |h.origins| ==> OriginTraced(h.origins[n], device, issued))
  }

  lemma HubTracedStep(h: HubModel.Hub, step: HubModel.Step, device: DeviceId, issued: seq<Command>)
    requires HubTraced(h, device, issued)
    requires Handed(h, step, device).Some? ==>
               Handed(h, step, device).value in issued && Handed(h, step, device).value.id != ""
    ensures HubTraced(HubModel.Next(h, step), device, issued)
    ensures h.origins <= HubModel.Next(h, step).origins
  {
    hide HubModel.Next, Handed;
    StepFollows(h, step);
    OriginsFollow(h, step);
    var d := HubModel.Next(h, step);
    forall c | 0 <= c < |d.conns|
      ensures WorkTraced(d.conns[c], device, issued)
    {
      if c < |h.conns| {
        assert WorkTraced(h.conns[c], device, issued);
        assert ConnFollows(h.conns[c], d.conns[c], Handed(h, step, h.conns[c].device));
      }
    }
    if LogsWork(h, d, step) {
      assert WorkTraced(h.conns[step.c], device, issued);
    }
  }

  // --- The client's side ---

  lemma SendIssues(c: Client, id: string, request: Request)
    ensures c.history.issued <= SendCommand(c, id, request).history.issued
    ensures SendCommand(c, id, request).history.settled == c.history.settled
  {
  }

  /** A frame settles the promise of the command it names, with what it says, or none. */
  lemma FrameSettles(c: Client, frame: Frame)
    ensures var d := HandleFrame(c, frame).history;
            d.issued == c.history.issued &&
            (d.settled == c.history.settled ||
             (frame.AckFrame? &&
              d.settled == c.history.settled + [Settlement(frame.commandId, Resolved(frame.seqNo))]) ||
             (frame.ErrorFrame? && frame.commandId != "" &&
              d.settled == c.history.settled + [Settlement(frame.commandId, Rejected(frame.code))]))
  {
    hide HandleSnapshot, HandleEvent, IsTerminal, RemoveCommand;
    match frame {
      case SnapshotFrame(snap) => SnapshotSettlesNothing(c, snap);
      case EventFrame(ev) => EventSettlesNothing(c, ev);
      case _ =>
    }
  }

  lemma SnapshotSettlesNothing(c: Client, snap: SnapshotPayload)
    ensures HandleSnapshot(c, snap).history.issued == c.history.issued
    ensures HandleSnapshot(c, snap).history.settled == c.history.settled
  {
  }

  lemma EventSettlesNothing(c: Client, ev: Event)
    ensures HandleEvent(c, ev).history.issued == c.history.issued
    ensures HandleEvent(c, ev).history.settled == c.history.settled
  {
  }

  lemma LocalIssues(c: Client, input: Input)
    requires !input.FrameArrives?
    ensures c.history.issued <= Step(c, input).history.issued
    ensures Step(c, input).history.settled == c.history.settled
  {
    hide HandleFrame, SendCommand;
    if input.UserSends? {
      SendIssues(c, input.id, input.request);
    }
  }

  // --- Both sides ---

  /** A promise resolved with a positive number was resolved by the number of the command's own event, and
      one rejected with an agent error is of a command in the log. */
  ghost predicate SettlementTraced(x: Settlement, device: DeviceId, origins: seq<HubModel.Origin>) {
    (x.outcome.Resolved? && x.outcome.seqNo > 0 ==>
      x.outcome.seqNo <= |origins| && origins[x.outcome.seqNo - 1].FromCommand? &&
      origins[x.outcome.seqNo - 1].device == device && origins[x.outcome.seqNo - 1].command.id == x.id) &&
    (x.outcome == Rejected("agent_error") ==> IsLogged(x.id, device, origins))
  }

  ghost predicate Traced(s: System) {
    HubTraced(s.hub, s.device, s.client.history.issued) &&
    forall x :: x in s.client.history.settled ==> SettlementTraced(x, s.device, s.hub.origins)
  }

  ghost predicate Settled(s: System) {
    Sound(s.hub) && Honest(s.hub) && Accounted(s.client) && Traced(s) &&
    (s.link.Attached? ==> IsOfDevice(s, s.link.conn))
  }

  lemma QueueIsOffered(h: HubModel.Hub, c: nat, i: nat)
    requires Sound(h) && c < |h.conns| && i < |h.conns[c].queue|
    ensures h.conns[c].queue[i] in h.conns[c].offered
  {
    hide Subsequence, SetupShape;
    var conn := h.conns[c];
    assert ConnSound(conn, h.sessionId, h.log);
    if i > 0 {
      SubsequenceMember(conn.queue[1..], conn.offered[1..], i - 1);
    }
  }

  lemma DeliveredIsHonest(s: System, frame: Frame)
    requires Settled(s) && HasFrame(s) && frame == s.hub.conns[s.link.conn].queue[s.link.seen]
    ensures FrameHonest(frame, s.device, s.hub.origins)
  {
    hide Sound, Accounted, Traced, FrameHonest;
    QueueIsOffered(s.hub, s.link.conn, s.link.seen);
    assert ConnHonest(s.hub.conns[s.link.conn], s.hub.log, s.hub.origins);
  }

  lemma HandedIsIssued(s: System, move: Move)
    requires Accounted(s.client)
    ensures StepOf(s, move).Some? && Handed(s.hub, StepOf(s, move).value, s.device).Some? ==>
              Handed(s.hub, StepOf(s, move).value, s.device).value in s.client.history.issued &&
              Handed(s.hub, StepOf(s, move).value, s.device).value.id != ""
  {
  }

  lemma HubTracedWiden(h: HubModel.Hub, device: DeviceId, issued: seq<Command>, more: seq<Command>)
    requires HubTraced(h, device, issued) && issued <= more
    ensures HubTraced(h, device, more)
  {
  }

  /** The client's half of a move: at most one more settlement, and that one traced. */
  lemma ClientTraced(s: System, move: Move)
    requires Settled(s) && InputOf(s, move).Some?
    ensures var d := Step(s.client, InputOf(s, move).value);
            s.client.history.issued <= d.history.issued &&
            forall x :: x in d.history.settled ==> SettlementTraced(x, s.device, s.hub.origins)
  {
    hide Sound, Honest, Accounted, HubTraced, SettlementTraced;
    var input := InputOf(s, move).value;
    if input.FrameArrives? {
      hide HandleFrame;
      FrameSettles(s.client, input.frame);
      DeliveredIsHonest(s, input.frame);
      SettlementTraces(input.frame, s.device, s.hub.origins);
    } else {
      LocalIssues(s.client, input);
    }
  }

  /** What an honest frame settles is traced. */
  lemma SettlementTraces(frame: Frame, device: DeviceId, origins: seq<HubModel.Origin>)
    requires FrameHonest(frame, device, origins)
    ensures frame.AckFrame? ==>
              SettlementTraced(Settlement(frame.commandId, Resolved(frame.seqNo)), device, origins)
    ensures frame.ErrorFrame? ==>
              SettlementTraced(Settlement(frame.commandId, Rejected(frame.code)), device, origins)
  {
  }

  lemma SettlementTracedWiden(
    x: Settlement, device: DeviceId, origins: seq<HubModel.Origin>, more: seq<HubModel.Origin>)
    requires SettlementTraced(x, device, origins) && origins <= more
    ensures SettlementTraced(x, device, more)
  {
    if x.outcome == Rejected("agent_error") {
      var n :| 0 <= n < |origins| && origins[n].FromCommand? && origins[n].command.id == x.id &&
               origins[n].device == device;
      assert more[n] == origins[n];
    }
  }

  lemma TracedStep(s: System, move: Move)
    requires Settled(s)
    ensures Traced(Go(s, move)) && Go(s, move).device == s.device
  {
    hide Sound, Honest, Accounted, HubTraced, Step, HubModel.Next, Handed, InputOf, StepOf, NextLink,
         SettlementTraced;
    var d := Go(s, move);
    if StepOf(s, move).Some? {
      HandedIsIssued(s, move);
      HubTracedStep(s.hub, StepOf(s, move).value, s.device, s.client.history.issued);
    }
    if InputOf(s, move).Some? {
      ClientTraced(s, move);
    }
    HubTracedWiden(d.hub, s.device, s.client.history.issued, d.client.history.issued);
    forall x | x in d.client.history.settled
      ensures SettlementTraced(x, d.device, d.hub.origins)
    {
      SettlementTracedWiden(x, s.device, s.hub.origins, d.hub.origins);
    }
  }

  /** The device has not connected to the hub before, and no log entry is from it. */
  ghost predicate IsNew(h: HubModel.Hub, device: DeviceId) {
    (forall c :: 0 <= c < |h.conns| ==> h.conns[c].device != device) &&
    (forall n :: 0 <= n < |h.origins| ==> !IsFrom(h.origins[n], device))
  }

  ghost predicate FirstUse(scene: Scene) {
    scene.restored <= |HubBefore(scene).log| && IsNew(HubBefore(scene), scene.device)
  }

  lemma {:induction false} AlwaysSettled(scene: Scene, moves: seq<Move>)
    requires FirstUse(scene)
    ensures Settled(Play(Resume(scene), moves))
    ensures Play(Resume(scene), moves).device == scene.device
  {
    hide Sound, Honest, Accounted, Traced, HubModel.Exec, Run, Placed, Go;
    var s := Play(Resume(scene), moves);
    var steps := HubRunsAlone(scene, moves);
    HubStaysSound(scene.sessionId, steps);
    HubStaysHonest(scene.sessionId, steps);
    var inputs := ClientRunsAlone(scene, moves);
    OutboxAccounted(scene.maxItems, scene.restored, inputs);
    AlwaysInStep(scene, moves);
    if moves == [] {
      ResumesTraced(scene);
    } else {
      var n := |moves| - 1;
      AlwaysSettled(scene, moves[..n]);
      TracedStep(Play(Resume(scene), moves[..n]), moves[n]);
    }
  }

  lemma ResumesTraced(scene: Scene)
    requires FirstUse(scene)
    ensures Traced(Resume(scene))
  {
    hide HubModel.Exec;
  }

  // --- The promises ---

  predicate IsFrom(origin: HubModel.Origin, device: DeviceId) {
    origin.FromCommand? && origin.device == device
  }

  /** A command the client issued that reached the log is there once, as the event it asks for, and nothing
      else in the log claims to be from the device. */
  lemma EachCommandOnce(scene: Scene, moves: seq<Move>, i: nat)
    requires FirstUse(scene)
    requires var origins := Play(Resume(scene), moves).hub.origins;
             i < |origins| && IsFrom(origins[i], scene.device)
    ensures var s := Play(Resume(scene), moves);
            var command := s.hub.origins[i].command;
            command in s.client.history.issued && |s.hub.log| == |s.hub.origins| &&
            Tells(s.hub.log[i].body, command.request, scene.device) &&
            forall j :: 0 <= j < |s.hub.origins| && j != i && IsFrom(s.hub.origins[j], scene.device) ==>
              s.hub.origins[j].command.id != command.id
  {
    hide Play, Sound, Accounted, HubModel.Exec, Tells;
    AlwaysSettled(scene, moves);
    var s := Play(Resume(scene), moves);
    var command := s.hub.origins[i].command;
    assert OriginTraced(s.hub.origins[i], scene.device, s.client.history.issued);
    assert OriginHonest(s.hub.origins[i], s.hub.log[i].body);
    var steps := HubRunsAlone(scene, moves);
    forall j | 0 <= j < |s.hub.origins| && j != i && IsFrom(s.hub.origins[j], scene.device)
      ensures s.hub.origins[j].command.id != command.id
    {
      assert OriginTraced(s.hub.origins[j], scene.device, s.client.history.issued);
      IssuedKeys(s.client, command);
      IssuedKeys(s.client, s.hub.origins[j].command);
      if s.hub.origins[j].command.id == command.id {
        OneEventPerKey(scene.sessionId, steps, i, j);
      }
    }
  }

  lemma IssuedKeys(c: Client, command: Command)
    requires Accounted(c) && command in c.history.issued
    ensures command.id == command.idempotencyKey
  {
  }

  lemma IssuedIds(c: Client, a: Command, b: Command)
    requires Accounted(c) && a in c.history.issued && b in c.history.issued && a.id == b.id
    ensures a == b
  {
  }

  /** A promise that resolved with a positive number names the log's event of that very command, whatever
      was lost, resent or duplicated in between. */
  lemma PromiseNamesItsEvent(scene: Scene, moves: seq<Move>, command: Command, n: nat)
    requires FirstUse(scene)
    requires var h := Play(Resume(scene), moves).client.history;
             command in h.issued && Settlement(command.id, Resolved(n)) in h.settled && n > 0
    ensures var s := Play(Resume(scene), moves);
            n <= |s.hub.log| && Tells(s.hub.log[n - 1].body, command.request, scene.device)
  {
    hide Play, Sound, Accounted, HubModel.Exec, Tells;
    AlwaysSettled(scene, moves);
    var s := Play(Resume(scene), moves);
    assert SettlementTraced(Settlement(command.id, Resolved(n)), scene.device, s.hub.origins);
    assert OriginTraced(s.hub.origins[n - 1], scene.device, s.client.history.issued);
    assert OriginHonest(s.hub.origins[n - 1], s.hub.log[n - 1].body);
    IssuedIds(s.client, command, s.hub.origins[n - 1].command);
  }

  /** Each command the client issued calls the agent at most once, with the command's own request, and after
      the event that records it. */
  lemma AgentHearsEachCommandOnce(
    scene: Scene, moves: seq<Move>, command: Command, i: nat, j: nat)
    requires FirstUse(scene)
    requires var s := Play(Resume(scene), moves);
             command in s.client.history.issued &&
             i < |s.hub.calls| && j < |s.hub.calls| &&
             s.hub.calls[i].key == s.hub.calls[j].key == HubModel.IdempotencyKey(scene.device, command.id)
    ensures i == j
    ensures var s := Play(Resume(scene), moves);
            var call := s.hub.calls[i];
            call.request == command.request && 1 <= call.seqNo <= |s.hub.log| &&
            Tells(s.hub.log[call.seqNo - 1].body, command.request, scene.device)
  {
    hide Play, Sound, Accounted, HubModel.Exec, Tells, HubModel.IdempotencyKey;
    AlwaysSettled(scene, moves);
    var s := Play(Resume(scene), moves);
    var call := s.hub.calls[i];
    assert CallHonest(call, s.hub.origins);
    var origin := s.hub.origins[call.seqNo - 1];
    assert OriginHonest(origin, s.hub.log[call.seqNo - 1].body);
    SlotsAreDistinct(origin.device, origin.command.idempotencyKey, scene.device, command.id);
    assert OriginTraced(origin, scene.device, s.client.history.issued);
    IssuedKeys(s.client, origin.command);
    IssuedIds(s.client, command, origin.command);
    var steps := HubRunsAlone(scene, moves);
    AtMostOnce(scene.sessionId, steps, call.key);
    TallyUnique(s.hub.calls, i, j, CallFor(call.key));
  }

  // --- What a settled promise says ---

  /** Every refusal on the device's connections and every rejected promise is final, every ack and every
      resolved promise is of a claimed key, and every claimed key is spent, held or refused. */
  ghost predicate PromiseKept(x: Settlement, device: DeviceId, h: HubModel.Hub) {
    var key := HubModel.IdempotencyKey(device, x.id);
    (x.id != "" && x.outcome.Rejected? && x.outcome.code != "agent_error" ==> IsDead(h, key)) &&
    (x.outcome.Resolved? ==> key in h.idempotency)
  }

  ghost predicate PromisesKept(s: System) {
    AllRefusalsFinal(s.hub, s.device) && AcksClaimed(s.hub, s.device) &&
    (forall id :: FateKnown(s.hub, s.device, id)) &&
    forall x :: x in s.client.history.settled ==> PromiseKept(x, s.device, s.hub)
  }

  lemma DeviceKeyedById(s: System)
    requires Settled(s)
    ensures KeyedById(s.hub.conns, s.device)
  {
  }

  lemma ClientKept(s: System, move: Move)
    requires Settled(s) && PromisesKept(s) && InputOf(s, move).Some?
    ensures forall x :: x in Step(s.client, InputOf(s, move).value).history.settled ==> PromiseKept(x, s.device, s.hub)
  {
    hide Sound, Honest, Accounted, Traced, IsDead, HandleFrame, HubModel.IdempotencyKey;
    var input := InputOf(s, move).value;
    if input.FrameArrives? {
      FrameSettles(s.client, input.frame);
      QueueIsOffered(s.hub, s.link.conn, s.link.seen);
      assert RefusalsFinal(s.hub, s.device, s.hub.conns[s.link.conn].offered);
    } else {
      LocalIssues(s.client, input);
    }
  }

  lemma PromiseStaysKept(x: Settlement, device: DeviceId, h: HubModel.Hub, step: HubModel.Step)
    requires PromiseKept(x, device, h)
    ensures PromiseKept(x, device, HubModel.Next(h, step))
  {
    hide IsDead, HubModel.Next, HubModel.IdempotencyKey;
    StepFollows(h, step);
    if IsDead(h, HubModel.IdempotencyKey(device, x.id)) {
      DeadStaysDead(h, step, HubModel.IdempotencyKey(device, x.id));
    }
  }

  lemma PromisesStep(s: System, move: Move)
    requires Settled(s) && PromisesKept(s)
    requires forall key :: KeyBalance(s.hub, key)
    ensures PromisesKept(Go(s, move))
  {
    hide Settled, PromiseKept, AcksClaimed, FateKnown, Step, HubModel.Next, InputOf, StepOf, NextLink, KeyBalance;
    DeviceKeyedById(s);
    var d := Go(s, move);
    if InputOf(s, move).Some? {
      ClientKept(s, move);
    }
    if StepOf(s, move).Some? {
      RefusalsStep(s.hub, StepOf(s, move).value, s.device);
      AcksStep(s.hub, StepOf(s, move).value, s.device);
      forall id
        ensures FateKnown(d.hub, s.device, id)
      {
        FateStep(s.hub, StepOf(s, move).value, s.device, id);
      }
      forall x | x in d.client.history.settled
        ensures PromiseKept(x, s.device, d.hub)
      {
        PromiseStaysKept(x, s.device, s.hub, StepOf(s, move).value);
      }
    }
  }

  lemma KeysBalance(scene: Scene, moves: seq<Move>, key: string)
    ensures KeyBalance(Play(Resume(scene), moves).hub, key)
  {
    hide Play, HubModel.Exec, KeyBalance;
    var steps := HubRunsAlone(scene, moves);
    AtMostOnce(scene.sessionId, steps, key);
  }

  lemma NewHasNoFate(scene: Scene, id: string)
    requires FirstUse(scene)
    ensures FateKnown(HubBefore(scene), scene.device, id)
  {
    hide HubModel.Exec, HubModel.IdempotencyKey;
    if HubModel.IdempotencyKey(scene.device, id) in HubBefore(scene).idempotency {
      ClaimedHasConn(scene.sessionId, scene.before, scene.device, id);
    }
  }

  lemma {:induction false} PromisesAlwaysKept(scene: Scene, moves: seq<Move>)
    requires FirstUse(scene)
    ensures PromisesKept(Play(Resume(scene), moves))
  {
    hide Settled, HubModel.Exec, Go, KeyBalance;
    if moves != [] {
      hide PromisesKept, FirstUse;
      var n := |moves| - 1;
      AlwaysSettled(scene, moves[..n]);
      PromisesAlwaysKept(scene, moves[..n]);
      forall key
        ensures KeyBalance(Play(Resume(scene), moves[..n]).hub, key)
      {
        KeysBalance(scene, moves[..n], key);
      }
      PromisesStep(Play(Resume(scene), moves[..n]), moves[n]);
    } else {
      forall id
        ensures FateKnown(HubBefore(scene), scene.device, id)
      {
        NewHasNoFate(scene, id);
      }
    }
  }

  /** A settled promise stays settled as it is, and an issued command stays issued. */
  lemma {:induction false} HistoryForGood(scene: Scene, moves: seq<Move>, more: seq<Move>)
    ensures Play(Resume(scene), moves).client.history.settled <=
            Play(Resume(scene), moves + more).client.history.settled
    ensures Play(Resume(scene), moves).client.history.issued <=
            Play(Resume(scene), moves + more).client.history.issued
  {
    hide InputOf, StepOf, NextLink, HubModel.Next, Step, HubModel.Exec;
    if more == [] {
      assert moves + more == moves;
    } else {
      var n := |more| - 1;
      HistoryForGood(scene, moves, more[..n]);
      assert (moves + more)[..|moves| + n] == moves + more[..n];
      var s := Play(Resume(scene), moves + more[..n]);
      if InputOf(s, more[n]).Some? {
        HistoryGrows(s.client, InputOf(s, more[n]).value);
      }
    }
  }

  lemma HistoryGrows(c: Client, input: Input)
    ensures c.history.settled <= Step(c, input).history.settled
    ensures c.history.issued <= Step(c, input).history.issued
  {
    hide HandleFrame;
    if input.FrameArrives? {
      FrameSettles(c, input.frame);
    } else {
      LocalIssues(c, input);
    }
  }

  lemma SpentByCommand(scene: Scene, moves: seq<Move>, command: Command, n: nat)
    requires FirstUse(scene)
    requires var s := Play(Resume(scene), moves);
             command in s.client.history.issued && n < |s.hub.origins| &&
             SpentOn(HubModel.IdempotencyKey(scene.device, command.id))(s.hub.origins[n])
    ensures IsFrom(Play(Resume(scene), moves).hub.origins[n], scene.device)
    ensures Play(Resume(scene), moves).hub.origins[n].command == command
  {
    hide Play, Sound, Accounted, HubModel.IdempotencyKey, Tells, HubModel.Exec;
    AlwaysSettled(scene, moves);
    var s := Play(Resume(scene), moves);
    var origin := s.hub.origins[n];
    assert OriginHonest(origin, s.hub.log[n].body);
    SlotsAreDistinct(origin.device, origin.command.idempotencyKey, scene.device, command.id);
    assert OriginTraced(origin, scene.device, s.client.history.issued);
    IssuedKeys(s.client, origin.command);
    IssuedIds(s.client, command, origin.command);
  }

  /** A promise rejected with anything but an agent error is of a command that is in the log in no state from
      then on; one rejected with an agent error is of a command that is in the log. */
  lemma RejectionTellsTheLog(scene: Scene, moves: seq<Move>, more: seq<Move>, id: string, code: string)
    requires FirstUse(scene) && id != ""
    requires Settlement(id, Rejected(code)) in Play(Resume(scene), moves).client.history.settled
    ensures IsLogged(id, scene.device, Play(Resume(scene), moves + more).hub.origins) <==> code == "agent_error"
  {
    hide Play, Sound, Accounted, IsDead, HubModel.IdempotencyKey, Tells, HubModel.Exec;
    HistoryForGood(scene, moves, more);
    PromisesAlwaysKept(scene, moves + more);
    AlwaysSettled(scene, moves + more);
    var s := Play(Resume(scene), moves + more);
    var x := Settlement(id, Rejected(code));
    assert PromiseKept(x, scene.device, s.hub) && SettlementTraced(x, scene.device, s.hub.origins);
    if code != "agent_error" && IsLogged(id, scene.device, s.hub.origins) {
      var n :| 0 <= n < |s.hub.origins| && s.hub.origins[n].FromCommand? && s.hub.origins[n].command.id == id &&
               s.hub.origins[n].device == scene.device;
      DeadIsNotLogged(s.hub, HubModel.IdempotencyKey(scene.device, id), n);
      assert OriginTraced(s.hub.origins[n], scene.device, s.client.history.issued);
      assert OriginHonest(s.hub.origins[n], s.hub.log[n].body);
      IssuedKeys(s.client, s.hub.origins[n].command);
      assert false;
    }
  }

  /** A promise that resolved without a number tells the log too: in that state and in every later one, the
      command is in the log if and only if no handler holds it and the device was not told that it is refused. */
  lemma ZeroAckTellsTheLog(scene: Scene, moves: seq<Move>, more: seq<Move>, command: Command)
    requires FirstUse(scene)
    requires var h := Play(Resume(scene), moves).client.history;
             command in h.issued && Settlement(command.id, Resolved(0)) in h.settled
    ensures var s := Play(Resume(scene), moves + more);
            IsLogged(command.id, scene.device, s.hub.origins) <==>
            !IsHeld(s.hub, HubModel.IdempotencyKey(scene.device, command.id)) &&
            !WasRefused(s.hub, scene.device, command.id)
  {
    hide Play, Sound, Accounted, IsHeld, IsSpent, WasRefused, HubModel.IdempotencyKey, Tells, HubModel.Exec,
         KeyBalance;
    HistoryForGood(scene, moves, more);
    PromisesAlwaysKept(scene, moves + more);
    AlwaysSettled(scene, moves + more);
    var s, key := Play(Resume(scene), moves + more), HubModel.IdempotencyKey(scene.device, command.id);
    assert PromiseKept(Settlement(command.id, Resolved(0)), scene.device, s.hub);
    assert FateKnown(s.hub, scene.device, command.id);
    KeysBalance(scene, moves + more, key);
    SpentExcludesHeld(s.hub, key);
    DeadMeansRefused(s.hub, scene.device, command.id);
    DeadIsNotSpent(s.hub, key);
    SpentIsLogged(scene, moves + more, command);
  }

  lemma SpentExcludesHeld(h: HubModel.Hub, key: string)
    requires KeyBalance(h, key)
    ensures !(IsSpent(h, key) && IsHeld(h, key))
  {
    TallyExists(h.origins, SpentOn(key));
    TallyExists(h.conns, HoldsKey(key));
  }

  lemma DeadIsNotSpent(h: HubModel.Hub, key: string)
    ensures IsDead(h, key) ==> !IsSpent(h, key)
  {
    TallyExists(h.origins, SpentOn(key));
  }

  lemma SpentIsLogged(scene: Scene, moves: seq<Move>, command: Command)
    requires FirstUse(scene) && command in Play(Resume(scene), moves).client.history.issued
    ensures var s := Play(Resume(scene), moves);
            IsSpent(s.hub, HubModel.IdempotencyKey(scene.device, command.id)) <==>
            IsLogged(command.id, scene.device, s.hub.origins)
  {
    hide Play, Sound, Accounted, HubModel.IdempotencyKey, Tells, HubModel.Exec;
    var s, key := Play(Resume(scene), moves), HubModel.IdempotencyKey(scene.device, command.id);
    AlwaysSettled(scene, moves);
    if IsSpent(s.hub, key) {
      var n :| 0 <= n < |s.hub.origins| && SpentOn(key)(s.hub.origins[n]);
      SpentByCommand(scene, moves, command, n);
    }
    if IsLogged(command.id, scene.device, s.hub.origins) {
      var n :| 0 <= n < |s.hub.origins| && s.hub.origins[n].FromCommand? &&
               s.hub.origins[n].command.id == command.id && s.hub.origins[n].device == scene.device;
      assert OriginTraced(s.hub.origins[n], scene.device, s.client.history.issued);
      assert OriginHonest(s.hub.origins[n], s.hub.log[n].body);
      IssuedKeys(s.client, s.hub.origins[n].command);
      assert SpentOn(key)(s.hub.origins[n]);
    }
  }
}
