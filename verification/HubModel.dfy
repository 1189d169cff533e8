/** The hub as a concurrent step system. Every database transaction, every section under the hub's lock
    and every enqueue is one atomic step; connections, command handlers and the ingest loop interleave in
    any order. A step whose guard does not hold leaves the state alone, so every sequence of steps is a
    run. */
module HubModel {
  import opened Protocol
  import opened Store

  // --- Program counters ---

  /** How far a connection's setup has come. */
  datatype Setup =
    | ReadingRow
    | ReadingLog(row: SessionRow)
    | ReadingTail(snap: Snapshot)
    | Registering(snap: Snapshot, tail: seq<Event>)
    | Serving
    | Closed

  /** How far the connection's current command has come. A connection handles one command at a time. */
  datatype Work =
    | Waiting
    | Received(command: Command)
    | Claimed(command: Command)
    | Taken(command: Command)
    | Logged(command: Command, event: Event)
    | Acked(command: Command, event: Event)
    | FanningOut(command: Command, event: Event, targets: set<nat>)

  /** How far the ingest loop has come with the agent's latest event. */
  datatype Ingest =
    | Listening
    | Appended(event: Event)
    | Filed(event: Event)
    | Spreading(event: Event, targets: set<nat>)

  // --- State ---

  /** `queue` is everything the connection's outbound queue ever accepted, in order. The last five fields
      are history that no step reads. */
  datatype Conn = Conn(
    device: DeviceId,
    hello: int,
    setup: Setup,
    work: Work,
    queue: seq<Frame>,
    overflowed: bool,
    offered: seq<Frame>,    // everything anyone tried to enqueue
    openedAt: nat,          // the length of the log when the hello arrived
    tip: nat,               // the length of the log its snapshot shows
    caughtUpTo: nat,        // the length of the log its catch-up was read from
    joinedAt: nat)          // the length of the log when it joined the clients

  /** Where a logged event came from. */
  datatype Origin = FromAgent | FromCommand(key: string, device: DeviceId, command: Command)

  /** A command handed to the agent, whatever came of it, with the number of the event logged for it. */
  datatype Call = Call(key: string, seqNo: nat, request: Request)

  datatype Hub = Hub(
    sessionId: string,
    log: seq<Event>,
    cachedStatus: string,
    pending: map<string, PermissionView>,
    pendingQuestions: map<string, QuestionView>,
    idempotency: set<string>,
    clients: set<nat>,
    conns: seq<Conn>,
    ingest: Ingest,
    origins: seq<Origin>,   // history, one per log entry
    calls: seq<Call>,       // history
    lost: set<Card>)        // history: cards taken by an answer whose append then failed

  function Start(sessionId: string): Hub {
    Hub(sessionId, [], "idle", map[], map[], {}, {}, [], Listening, [], [], {})
  }

  // --- Pieces of the handlers ---

  function IdempotencyKey(device: DeviceId, key: string): string {
    device + ":" + key
  }

  /** The event a command puts into the log. */
  function EventFor(request: Request, device: string): Option<Body> {
    match request
    case SendPrompt(text) => Some(UserPrompt(text, device))
    case AnswerPermission(id, allow, _) => Some(PermissionResolved(id, allow, device))
    case AnswerQuestion(id, text) => Some(QuestionResolved(id, text, device))
    case SetMode(mode) => if mode == "" then None else Some(ModeChanged(mode, device))
    case Interrupt => Some(StatusChange("idle"))
    case BadPayload => None
    case Unsupported(_) => None
  }

  function RefusalCode(request: Request): string {
    if request.Unsupported? then "unsupported_command" else "bad_request"
  }

  /** Try to enqueue a frame; `room` is whether the queue had room for it. */
  function Offer(conn: Conn, frame: Frame, room: bool): Conn {
    conn.(
      offered := conn.offered + [frame],
      queue := if room then conn.queue + [frame] else conn.queue,
      overflowed := conn.overflowed || !room)
  }

  function OfferEvents(conn: Conn, events: seq<Event>, room: seq<bool>): Conn {
    if events == [] then conn
    else
      var n := |events| - 1;
      Offer(OfferEvents(conn, events[..n], room), EventFrame(events[n]), n < |room| && room[n])
  }

  function EventFrames(events: seq<Event>): (frames: seq<Frame>)
    ensures |frames| == |events| && forall i :: 0 <= i < |events| ==> frames[i] == EventFrame(events[i])
  {
    seq(|events|, i requires 0 <= i < |events| => EventFrame(events[i]))
  }

  /** Nothing but the queue changes: it is offered the events in order, and only grows. */
  lemma {:induction false} OfferEventsEffect(conn: Conn, events: seq<Event>, room: seq<bool>)
    ensures var d := OfferEvents(conn, events, room);
            d == conn.(offered := conn.offered + EventFrames(events), queue := d.queue, overflowed := d.overflowed) &&
            conn.queue <= d.queue
  {
    if events == [] {
      assert conn.offered + EventFrames(events) == conn.offered;
    } else {
      var n := |events| - 1;
      OfferEventsEffect(conn, events[..n], room);
      assert EventFrames(events) == EventFrames(events[..n]) + [EventFrame(events[n])];
    }
  }

  function PendingCards(h: Hub): set<Card> {
    (set id | id in h.pending :: PermissionCard(id)) + (set id | id in h.pendingQuestions :: QuestionCard(id))
  }

  /** Remove a card from the map that holds it. */
  function Unfile(h: Hub, card: Card): Hub {
    match card
    case PermissionCard(id) => h.(pending := h.pending - {id})
    case QuestionCard(id) => h.(pendingQuestions := h.pendingQuestions - {id})
  }

  /** Put the card that the event asks for into the map that holds it. */
  function File(h: Hub, body: Body): Hub {
    match body
    case PermissionRequest(id, kind, summary) => h.(pending := h.pending[id := PermissionView(id, kind, summary)])
    case QuestionAsked(id, text) => h.(pendingQuestions := h.pendingQuestions[id := QuestionView(id, text)])
    case _ => h
  }

  function WithConn(h: Hub, c: nat, conn: Conn): Hub
    requires c < |h.conns|
  {
    h.(conns := h.conns[c := conn])
  }

  /** The handler of connection c is done with its command and tells the client why. */
  function Refuse(h: Hub, c: nat, code: string, room: bool): Hub
    requires c < |h.conns| && !h.conns[c].work.Waiting?
  {
    WithConn(h, c, Offer(h.conns[c].(work := Waiting), ErrorFrame(h.conns[c].work.command.id, code), room))
  }

  function AppendToLog(h: Hub, ts: int, body: Body, fault: Fault, origin: Origin): Hub {
    h.(log := h.log + [NextEvent(h.log, ts, body)],
       cachedStatus := NextCache(h.cachedStatus, body, fault),
       origins := h.origins + [origin])
  }

  // --- Connection setup ---

  function Dial(h: Hub, device: DeviceId, hello: int): Hub {
    h.(conns := h.conns + [Conn(device, hello, ReadingRow, Waiting, [], false, [], |h.log|, 0, 0, 0)])
  }

  function ReadRow(h: Hub, c: nat): Hub {
    if c < |h.conns| && h.conns[c].setup.ReadingRow?
    then WithConn(h, c, h.conns[c].(setup := ReadingLog(SessionRow(h.cachedStatus, |h.log|))))
    else h
  }

  /** `snap` is the result of the fold; the order of its pending lists is whatever the maps yield. */
  ghost function ReadLog(h: Hub, c: nat, snap: Snapshot): Hub {
    if c < |h.conns| && h.conns[c].setup.ReadingLog? && SnapshotFrom(snap, h.sessionId, h.conns[c].setup.row, h.log)
    then WithConn(h, c, h.conns[c].(setup := ReadingTail(snap), tip := |h.log|))
    else h
  }

  function ReadTail(h: Hub, c: nat): Hub {
    if c < |h.conns| && h.conns[c].setup.ReadingTail?
    then
      var conn := h.conns[c];
      WithConn(h, c, conn.(setup := Registering(conn.setup.snap, Since(h.log, conn.hello)), caughtUpTo := |h.log|))
    else h
  }

  function Joined(conn: Conn, at: nat): Conn {
    conn.(setup := Serving, joinedAt := at)
  }

  /** Under the lock: join the clients, then enqueue the snapshot and the catch-up. The queue is empty, so
      the snapshot always fits. */
  function Register(h: Hub, c: nat, devices: seq<DeviceView>, room: seq<bool>): Hub {
    if c < |h.conns| && h.conns[c].setup.Registering?
    then
      var conn := h.conns[c];
      var first := Offer(Joined(conn, |h.log|), SnapshotFrame(OnWire(conn.setup.snap, devices)), true);
      WithConn(h, c, OfferEvents(first, conn.setup.tail, room)).(clients := h.clients + {c})
    else h
  }

  /** The connection ends, during setup or between commands. */
  function HangUp(h: Hub, c: nat): Hub {
    if c < |h.conns| && h.conns[c].work.Waiting?
    then WithConn(h, c, h.conns[c].(setup := Closed)).(clients := h.clients - {c})
    else h
  }

  // --- Command handling ---

  /** A command without an idempotency key uses its id as one. */
  function Keyed(command: Command): Command {
    if command.idempotencyKey == "" then command.(idempotencyKey := command.id) else command
  }

  function Receive(h: Hub, c: nat, command: Command, room: bool): Hub {
    if c < |h.conns| && h.conns[c].setup.Serving? && h.conns[c].work.Waiting?
    then
      var conn := h.conns[c];
      if command.id == "" then WithConn(h, c, Offer(conn, ErrorFrame("", "bad_request"), room))
      else
        WithConn(h, c, conn.(work := Received(Keyed(command))))
    else h
  }

  /** Under the lock: the first holder of the key goes on, any other is acked without a sequence number. */
  function Claim(h: Hub, c: nat, room: bool): Hub {
    if c < |h.conns| && h.conns[c].work.Received?
    then
      var conn := h.conns[c];
      var command := conn.work.command;
      var key := IdempotencyKey(conn.device, command.idempotencyKey);
      if key in h.idempotency then WithConn(h, c, Offer(conn.(work := Waiting), AckFrame(command.id, 0), room))
      else WithConn(h, c, conn.(work := Claimed(command))).(idempotency := h.idempotency + {key})
    else h
  }

  /** Under the lock: an answer takes its card, once; a request the host cannot use is refused. */
  function Take(h: Hub, c: nat, room: bool): Hub {
    if c < |h.conns| && h.conns[c].work.Claimed?
    then
      var command := h.conns[c].work.command;
      if EventFor(command.request, h.conns[c].device).None? then Refuse(h, c, RefusalCode(command.request), room)
      else
        match Answers(command.request)
        case None => h
        case Some(card) =>
          if card in PendingCards(h) then Unfile(WithConn(h, c, h.conns[c].(work := Taken(command))), card)
          else Refuse(h, c, "already_resolved", room)
    else h
  }

  predicate ReadyToAppend(work: Work, device: string) {
    (work.Taken? || (work.Claimed? && Answers(work.command.request).None?)) &&
    EventFor(work.command.request, device).Some?
  }

  function AppendCommand(h: Hub, c: nat, ts: int, fault: Fault, room: bool): Hub {
    if c < |h.conns| && ReadyToAppend(h.conns[c].work, h.conns[c].device)
    then
      var conn := h.conns[c];
      var command := conn.work.command;
      if fault.Refused? then
        var lost := if Answers(command.request).Some? then {Answers(command.request).value} else {};
        Refuse(h, c, "server_error", room).(lost := h.lost + lost)
      else
        var body := EventFor(command.request, conn.device).value;
        var origin := FromCommand(IdempotencyKey(conn.device, command.idempotencyKey), conn.device, command);
        AppendToLog(WithConn(h, c, conn.(work := Logged(command, NextEvent(h.log, ts, body)))), ts, body, fault, origin)
    else h
  }

  function Acknowledge(h: Hub, c: nat, room: bool): Hub {
    if c < |h.conns| && h.conns[c].work.Logged?
    then
      var conn := h.conns[c];
      WithConn(h, c, Offer(conn.(work := Acked(conn.work.command, conn.work.event)),
                           AckFrame(conn.work.command.id, conn.work.event.seqNo), room))
    else h
  }

  /** Under the lock: copy the set of clients to broadcast to. */
  function CopyClients(h: Hub, c: nat): Hub {
    if c < |h.conns| && h.conns[c].work.Acked?
    then
      var conn := h.conns[c];
      WithConn(h, c, conn.(work := FanningOut(conn.work.command, conn.work.event, h.clients)))
    else h
  }

  function Fan(h: Hub, c: nat, target: nat, room: bool): Hub {
    if c < |h.conns| && target < |h.conns| && h.conns[c].work.FanningOut? && target in h.conns[c].work.targets
    then
      var conn := h.conns[c];
      var h1 := WithConn(h, c, conn.(work := conn.work.(targets := conn.work.targets - {target})));
      WithConn(h1, target, Offer(h1.conns[target], EventFrame(conn.work.event), room))
    else h
  }

  /** The broadcast is over; hand the command to the agent. Whether it took the command or failed, perhaps
      halfway through, the call has been made; of a failure the client is told. */
  function Forward(h: Hub, c: nat, accepted: bool, room: bool): Hub {
    if c < |h.conns| && h.conns[c].work.FanningOut? && h.conns[c].work.targets == {}
    then
      var conn := h.conns[c];
      var key := IdempotencyKey(conn.device, conn.work.command.idempotencyKey);
      var d := h.(calls := h.calls + [Call(key, conn.work.event.seqNo, conn.work.command.request)]);
      if accepted then WithConn(d, c, conn.(work := Waiting)) else Refuse(d, c, "agent_error", room)
    else h
  }

  // --- Ingest ---

  /** The agent emits an event. Agents never emit resolutions. */
  function AgentEmits(h: Hub, ts: int, body: Body, fault: Fault): Hub {
    if h.ingest.Listening? && Closes(body).None? && !fault.Refused?
    then AppendToLog(h, ts, body, fault, FromAgent).(ingest := Appended(NextEvent(h.log, ts, body)))
    else h
  }

  /** Under the lock: a request or question goes into its pending map. */
  function FileRequest(h: Hub): Hub {
    if h.ingest.Appended? then File(h, h.ingest.event.body).(ingest := Filed(h.ingest.event)) else h
  }

  function CopyForIngest(h: Hub): Hub {
    if h.ingest.Filed? then h.(ingest := Spreading(h.ingest.event, h.clients)) else h
  }

  function Spread(h: Hub, target: nat, room: bool): Hub {
    if h.ingest.Spreading? && target in h.ingest.targets && target < |h.conns|
    then
      WithConn(h, target, Offer(h.conns[target], EventFrame(h.ingest.event), room)).(
        ingest := Spreading(h.ingest.event, h.ingest.targets - {target}))
    else h
  }

  function Listen(h: Hub): Hub {
    if h.ingest.Spreading? && h.ingest.targets == {} then h.(ingest := Listening) else h
  }

  // --- Runs ---

  datatype Step =
    | DialStep(device: DeviceId, hello: int)
    | ReadRowStep(c: nat)
    | ReadLogStep(c: nat, snap: Snapshot)
    | ReadTailStep(c: nat)
    | RegisterStep(c: nat, devices: seq<DeviceView>, rooms: seq<bool>)
    | HangUpStep(c: nat)
    | ReceiveStep(c: nat, command: Command, room: bool)
    | ClaimStep(c: nat, room: bool)
    | TakeStep(c: nat, room: bool)
    | AppendStep(c: nat, ts: int, fault: Fault, room: bool)
    | AckStep(c: nat, room: bool)
    | CopyStep(c: nat)
    | FanStep(c: nat, target: nat, room: bool)
    | ForwardStep(c: nat, accepted: bool, room: bool)
    | EmitStep(ts: int, body: Body, fault: Fault)
    | FileStep
    | IngestCopyStep
    | SpreadStep(target: nat, room: bool)
    | ListenStep

  ghost function Next(h: Hub, step: Step): Hub {
    match step
    case DialStep(device, hello) => Dial(h, device, hello)
    case ReadRowStep(c) => ReadRow(h, c)
    case ReadLogStep(c, snap) => ReadLog(h, c, snap)
    case ReadTailStep(c) => ReadTail(h, c)
    case RegisterStep(c, devices, rooms) => Register(h, c, devices, rooms)
    case HangUpStep(c) => HangUp(h, c)
    case ReceiveStep(c, command, room) => Receive(h, c, command, room)
    case ClaimStep(c, room) => Claim(h, c, room)
    case TakeStep(c, room) => Take(h, c, room)
    case AppendStep(c, ts, fault, room) => AppendCommand(h, c, ts, fault, room)
    case AckStep(c, room) => Acknowledge(h, c, room)
    case CopyStep(c) => CopyClients(h, c)
    case FanStep(c, target, room) => Fan(h, c, target, room)
    case ForwardStep(c, accepted, room) => Forward(h, c, accepted, room)
    case EmitStep(ts, body, fault) => AgentEmits(h, ts, body, fault)
    case FileStep => FileRequest(h)
    case IngestCopyStep => CopyForIngest(h)
    case SpreadStep(target, room) => Spread(h, target, room)
    case ListenStep => Listen(h)
  }

  ghost function Exec(h: Hub, steps: seq<Step>): Hub {
    if steps == [] then h
    else Next(Exec(h, steps[..|steps| - 1]), steps[|steps| - 1])
  }
}
