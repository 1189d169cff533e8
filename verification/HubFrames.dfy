/** What a step of the hub leaves alone: a connection keeps its device and the moment it was opened, its queue
    only grows, it takes up no command but the one it receives, and it refuses none but the one it gives up. */
module HubFrames {
  import opened Protocol
  import opened Store
  import opened HubModel
  import opened HubTokens

  /** The command a step hands to a connection of the device. */
  function Handed(h: Hub, step: Step, device: DeviceId): Option<Command> {
    if step.ReceiveStep? && step.c < |h.conns| && h.conns[step.c].device == device && step.command.id != ""
    then Some(Keyed(step.command)) else None
  }

  /** An error frame that turns a command down before anything was logged for it. */
  predicate IsRefusal(frame: Frame) {
    frame.ErrorFrame? && frame.commandId != "" && frame.code != "agent_error"
  }

  /** The handler drops a command that it had claimed and not logged. */
  predicate GivesUp(a: Conn, b: Conn, id: string) {
    (a.work.Claimed? || a.work.Taken?) && b.work.Waiting? && a.work.command.id == id
  }

  predicate RefusalsFollow(a: Conn, b: Conn) {
    forall f :: f in b.offered && IsRefusal(f) ==> f in a.offered || GivesUp(a, b, f.commandId)
  }

  /** An ack answers the command at hand, when it is found to be a replay or when its event is logged. */
  predicate AcksFollow(a: Conn, b: Conn) {
    forall f :: f in b.offered && f.AckFrame? ==>
      f in a.offered ||
      (((a.work.Received? && b.work.Waiting?) || a.work.Logged?) && f.commandId == a.work.command.id)
  }

  predicate ConnFollows(a: Conn, b: Conn, handed: Option<Command>) {
    b.device == a.device && b.openedAt == a.openedAt && a.queue <= b.queue && a.offered <= b.offered &&
    (b.work.Waiting? || (!a.work.Waiting? && b.work.command == a.work.command) || handed == Some(b.work.command)) &&
    RefusalsFollow(a, b) && AcksFollow(a, b)
  }

  /** Claimed keys stay claimed, and a command does not get past its claim without its key being one. */
  predicate KeysFollow(h: Hub, d: Hub) {
    h.idempotency <= d.idempotency && |h.conns| <= |d.conns| &&
    forall c :: 0 <= c < |h.conns| && h.conns[c].work.Received? ==>
      d.conns[c].work == h.conns[c].work || KeyOf(h.conns[c], h.conns[c].work.command) in d.idempotency
  }

  ghost predicate ConnsFollow(h: Hub, d: Hub, step: Step) {
    KeysFollow(h, d) &&
    (forall c :: 0 <= c < |h.conns| ==> ConnFollows(h.conns[c], d.conns[c], Handed(h, step, h.conns[c].device))) &&
    (forall c :: |h.conns| <= c < |d.conns| ==> d.conns[c].work.Waiting? && d.conns[c].offered == [])
  }

  lemma DialFollows(h: Hub, device: DeviceId, hello: int)
    ensures ConnsFollow(h, Dial(h, device, hello), DialStep(device, hello))
  {
    hide IdempotencyKey, Keyed;
  }

  lemma ReadFollows(h: Hub, step: Step)
    requires step.ReadRowStep? || step.ReadLogStep? || step.ReadTailStep? || step.HangUpStep?
    ensures ConnsFollow(h, Next(h, step), step)
  {
    hide SnapshotFrom, Since, Keyed, IdempotencyKey;
  }

  lemma RegisterFollows(h: Hub, c: nat, devices: seq<DeviceView>, room: seq<bool>)
    ensures ConnsFollow(h, Register(h, c, devices, room), RegisterStep(c, devices, room))
  {
    hide OfferEvents, OnWire, Keyed;
    if c < |h.conns| && h.conns[c].setup.Registering? {
      var conn := h.conns[c];
      var frame := SnapshotFrame(OnWire(conn.setup.snap, devices));
      OfferEventsEffect(Offer(Joined(conn, |h.log|), frame, true), conn.setup.tail, room);
    }
  }

  lemma ReceiveFollows(h: Hub, c: nat, command: Command, room: bool)
    ensures ConnsFollow(h, Receive(h, c, command, room), ReceiveStep(c, command, room))
  {
  }

  lemma ClaimFollows(h: Hub, c: nat, room: bool)
    ensures ConnsFollow(h, Claim(h, c, room), ClaimStep(c, room))
  {
    hide IdempotencyKey, Keyed;
  }

  lemma RefuseFollows(h: Hub, c: nat, code: string, room: bool, step: Step)
    requires c < |h.conns| && !h.conns[c].work.Waiting?
    requires h.conns[c].work.Claimed? || h.conns[c].work.Taken? ||
             (h.conns[c].work.FanningOut? && code == "agent_error")
    ensures ConnsFollow(h, Refuse(h, c, code, room), step)
  {
  }

  lemma TakeFollows(h: Hub, c: nat, room: bool)
    ensures ConnsFollow(h, Take(h, c, room), TakeStep(c, room))
  {
    hide EventFor, PendingCards, RefusalCode, Keyed, Refuse;
    if c < |h.conns| && h.conns[c].work.Claimed? {
      RefuseFollows(h, c, RefusalCode(h.conns[c].work.command.request), room, TakeStep(c, room));
      RefuseFollows(h, c, "already_resolved", room, TakeStep(c, room));
    }
  }

  lemma AppendFollows(h: Hub, c: nat, ts: int, fault: Fault, room: bool)
    ensures ConnsFollow(h, AppendCommand(h, c, ts, fault, room), AppendStep(c, ts, fault, room))
  {
    hide EventFor, NextCache, NextEvent, IdempotencyKey, Keyed;
  }

  lemma AckFollows(h: Hub, c: nat, room: bool)
    ensures ConnsFollow(h, Acknowledge(h, c, room), AckStep(c, room))
    ensures ConnsFollow(h, CopyClients(h, c), CopyStep(c))
  {
    hide Keyed;
  }

  lemma ForwardFollows(h: Hub, c: nat, accepted: bool, room: bool)
    ensures ConnsFollow(h, Forward(h, c, accepted, room), ForwardStep(c, accepted, room))
  {
  }

  lemma FanFollows(h: Hub, c: nat, target: nat, room: bool)
    ensures ConnsFollow(h, Fan(h, c, target, room), FanStep(c, target, room))
  {
    hide Keyed;
  }

  lemma StepFollows(h: Hub, step: Step)
    ensures ConnsFollow(h, Next(h, step), step)
  {
    hide ConnsFollow, Dial, ReadRow, ReadLog, ReadTail, Register, HangUp, Receive, Claim, Take, AppendCommand,
         Acknowledge, CopyClients, Fan, Forward, AgentEmits, FileRequest, CopyForIngest, Spread, Listen;
    match step {
      case DialStep(device, hello) => DialFollows(h, device, hello);
      case ReadRowStep(_) => ReadFollows(h, step);
      case ReadLogStep(_, _) => ReadFollows(h, step);
      case ReadTailStep(_) => ReadFollows(h, step);
      case HangUpStep(_) => ReadFollows(h, step);
      case SpreadStep(target, room) => SpreadFollows(h, target, room);
      case RegisterStep(c, devices, rooms) => RegisterFollows(h, c, devices, rooms);
      case ReceiveStep(c, command, room) => ReceiveFollows(h, c, command, room);
      case ClaimStep(c, room) => ClaimFollows(h, c, room);
      case TakeStep(c, room) => TakeFollows(h, c, room);
      case AppendStep(c, ts, fault, room) => AppendFollows(h, c, ts, fault, room);
      case AckStep(c, room) => AckFollows(h, c, room);
      case CopyStep(c) => AckFollows(h, c, true);
      case ForwardStep(c, accepted, room) => ForwardFollows(h, c, accepted, room);
      case FanStep(c, target, room) => FanFollows(h, c, target, room);
      case _ => IngestFollows(h, step);
    }
  }

  lemma SpreadFollows(h: Hub, target: nat, room: bool)
    ensures ConnsFollow(h, Spread(h, target, room), SpreadStep(target, room))
  {
    hide Keyed, IdempotencyKey;
  }

  lemma IngestFollows(h: Hub, step: Step)
    requires step.EmitStep? || step.FileStep? || step.IngestCopyStep? || step.ListenStep?
    ensures ConnsFollow(h, Next(h, step), step)
  {
    hide NextCache, NextEvent, Keyed, IdempotencyKey;
  }

  // --- The log and its origins ---

  /** An append of a command's event. */
  predicate LogsWork(h: Hub, d: Hub, step: Step) {
    step.AppendStep? && step.c < |h.conns| && !h.conns[step.c].work.Waiting? &&
    |d.origins| == |h.origins| + 1 && d.origins[..|h.origins|] == h.origins &&
    var origin := d.origins[|h.origins|];
    origin.FromCommand? && origin.device == h.conns[step.c].device && origin.command == h.conns[step.c].work.command
  }

  /** Only the append of a command's event adds an origin that is not the agent's. */
  lemma OriginsFollow(h: Hub, step: Step)
    ensures var d := Next(h, step);
            d.origins == h.origins || d.origins == h.origins + [FromAgent] || LogsWork(h, d, step)
  {
    hide SameHoldings, Offer, OfferEvents, SnapshotFrom, Since, OnWire, EventFor, PendingCards, RefusalCode, NextCache,
         IdempotencyKey, Keyed, AppendCommand;
    if step.AppendStep? {
      AppendOrigins(h, step);
    }
  }

  lemma AppendOrigins(h: Hub, step: Step)
    requires step.AppendStep?
    ensures var d := Next(h, step); d.origins == h.origins || LogsWork(h, d, step)
  {
  }
}
