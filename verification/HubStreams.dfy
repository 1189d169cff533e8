/** What every run of the hub keeps about its log and about the stream of each connection. */
module HubStreams {
  import opened Protocol
  import opened Store
  import opened Counting
  import opened HubModel

  // --- The invariant ---

  /** The frame is the wire form of a snapshot of exactly this log. */
  ghost predicate ShowsLog(frame: Frame, sessionId: string, log: seq<Event>) {
    frame.SnapshotFrame? &&
    exists snap, devices :: SnapshotOf(snap, sessionId, log) && frame.snapshot == OnWire(snap, devices)
  }

  /** What may follow the catch-up: acks, errors and genuine events. */
  ghost predicate IsLive(frame: Frame, log: seq<Event>) {
    !frame.SnapshotFrame? && (frame.EventFrame? ==> Genuine(frame.event, log))
  }

  /** How a connection's view of the log was put together: `tip` and `caughtUpTo` are the lengths of the
      log that its snapshot and its catch-up were read from. */
  datatype Reads = Reads(openedAt: nat, tip: nat, caughtUpTo: nat, hello: int)

  function ReadsOf(conn: Conn): Reads {
    Reads(conn.openedAt, conn.tip, conn.caughtUpTo, conn.hello)
  }

  /** First a snapshot, then exactly the log above the hello's lastSeq, then live frames. */
  ghost predicate StreamShape(offered: seq<Frame>, r: Reads, sessionId: string, log: seq<Event>) {
    r.openedAt <= r.tip <= r.caughtUpTo <= |log| &&
    var tail := Since(log[..r.caughtUpTo], r.hello);
    var live := 1 + |tail|;
    |offered| >= live &&
    ShowsLog(offered[0], sessionId, log[..r.tip]) &&
    offered[1..live] == EventFrames(tail) &&
    forall i :: live <= i < |offered| ==> IsLive(offered[i], log)
  }

  /** The queue is what was offered, less what overflowed; the snapshot never does. */
  ghost predicate QueueShape(queue: seq<Frame>, offered: seq<Frame>, overflowed: bool) {
    if offered == [] then queue == [] && !overflowed
    else
      queue != [] && queue[0] == offered[0] &&
      Subsequence(queue[1..], offered[1..]) &&
      (!overflowed ==> queue == offered)
  }

  ghost predicate SetupShape(conn: Conn, sessionId: string, log: seq<Event>) {
    match conn.setup
    case ReadingRow => conn.offered == []
    case ReadingLog(row) =>
      conn.offered == [] && conn.openedAt <= row.lastSeq <= |log| && RowFits(row, log[..row.lastSeq])
    case ReadingTail(snap) =>
      conn.offered == [] && conn.openedAt <= conn.tip <= |log| && SnapshotOf(snap, sessionId, log[..conn.tip])
    case Registering(snap, tail) =>
      conn.offered == [] && conn.openedAt <= conn.tip <= conn.caughtUpTo <= |log| &&
      SnapshotOf(snap, sessionId, log[..conn.tip]) && tail == Since(log[..conn.caughtUpTo], conn.hello)
    case Serving => conn.offered != [] && StreamShape(conn.offered, ReadsOf(conn), sessionId, log)
    case Closed => conn.offered == [] || StreamShape(conn.offered, ReadsOf(conn), sessionId, log)
  }

  ghost predicate WorkHolds(work: Work, log: seq<Event>) {
    work.Logged? || work.Acked? || work.FanningOut? ==> Genuine(work.event, log)
  }

  ghost predicate ConnSound(conn: Conn, sessionId: string, log: seq<Event>) {
    conn.openedAt <= |log| && QueueShape(conn.queue, conn.offered, conn.overflowed) &&
    SetupShape(conn, sessionId, log) && WorkHolds(conn.work, log) &&
    (conn.offered == [] ==> conn.work.Waiting?)
  }

  predicate IsRegistered(conns: seq<Conn>, t: nat) {
    t < |conns| && conns[t].offered != []
  }

  predicate AllRegistered(conns: seq<Conn>, targets: set<nat>) {
    forall t :: t in targets ==> IsRegistered(conns, t)
  }

  function WorkTargets(work: Work): set<nat> {
    if work.FanningOut? then work.targets else {}
  }

  function IngestTargets(ingest: Ingest): set<nat> {
    if ingest.Spreading? then ingest.targets else {}
  }

  ghost predicate LogSound(log: seq<Event>, origins: seq<Origin>, cached: string) {
    Dense(log) && |origins| == |log| && RowFits(SessionRow(cached, |log|), log)
  }

  ghost predicate ConnsSound(conns: seq<Conn>, sessionId: string, log: seq<Event>) {
    forall c :: 0 <= c < |conns| ==>
      ConnSound(conns[c], sessionId, log) && AllRegistered(conns, WorkTargets(conns[c].work))
  }

  ghost predicate Sound(h: Hub) {
    LogSound(h.log, h.origins, h.cachedStatus) &&
    ConnsSound(h.conns, h.sessionId, h.log) &&
    AllRegistered(h.conns, h.clients) &&
    AllRegistered(h.conns, IngestTargets(h.ingest)) &&
    (h.ingest.Listening? || Genuine(h.ingest.event, h.log))
  }

  // --- Single connections ---

  lemma OfferQueueShape(conn: Conn, frame: Frame, room: bool)
    requires QueueShape(conn.queue, conn.offered, conn.overflowed) && conn.offered != []
    ensures var d := Offer(conn, frame, room); QueueShape(d.queue, d.offered, d.overflowed)
  {
    hide Subsequence;
    assert (conn.offered + [frame])[1..] == conn.offered[1..] + [frame];
    assert (conn.queue + [frame])[1..] == conn.queue[1..] + [frame];
    SubsequenceExtend(conn.queue[1..], conn.offered[1..], frame);
  }

  lemma OfferStreamShape(conn: Conn, sessionId: string, log: seq<Event>, frame: Frame, room: bool)
    requires StreamShape(conn.offered, ReadsOf(conn), sessionId, log) && IsLive(frame, log)
    ensures StreamShape(Offer(conn, frame, room).offered, ReadsOf(conn), sessionId, log)
  {
  }

  lemma OfferSound(conn: Conn, sessionId: string, log: seq<Event>, frame: Frame, room: bool)
    requires ConnSound(conn, sessionId, log) && conn.offered != [] && IsLive(frame, log)
    ensures ConnSound(Offer(conn, frame, room), sessionId, log)
  {
    hide StreamShape, QueueShape;
    OfferQueueShape(conn, frame, room);
    OfferStreamShape(conn, sessionId, log, frame, room);
  }

  lemma ShapeGrows(conn: Conn, sessionId: string, log: seq<Event>, ev: Event)
    requires StreamShape(conn.offered, ReadsOf(conn), sessionId, log)
    ensures StreamShape(conn.offered, ReadsOf(conn), sessionId, log + [ev])
  {
    assert (log + [ev])[..conn.caughtUpTo] == log[..conn.caughtUpTo];
    assert (log + [ev])[..conn.tip] == log[..conn.tip];
  }

  lemma ConnGrows(conn: Conn, sessionId: string, log: seq<Event>, ev: Event)
    requires ConnSound(conn, sessionId, log)
    ensures ConnSound(conn, sessionId, log + [ev])
  {
    match conn.setup {
      case ReadingRow =>
      case ReadingLog(row) => assert (log + [ev])[..row.lastSeq] == log[..row.lastSeq];
      case ReadingTail(_) => assert (log + [ev])[..conn.tip] == log[..conn.tip];
      case Registering(_, _) =>
        assert (log + [ev])[..conn.tip] == log[..conn.tip];
        assert (log + [ev])[..conn.caughtUpTo] == log[..conn.caughtUpTo];
      case Serving => ShapeGrows(conn, sessionId, log, ev);
      case Closed =>
        if conn.offered != [] {
          ShapeGrows(conn, sessionId, log, ev);
        }
    }
  }

  /** Catch-up frames go in one by one after the snapshot. */
  lemma {:induction false} OfferEventsShape(conn: Conn, events: seq<Event>, room: seq<bool>)
    requires conn.offered != [] && QueueShape(conn.queue, conn.offered, conn.overflowed)
    ensures var d := OfferEvents(conn, events, room);
            QueueShape(d.queue, d.offered, d.overflowed)
  {
    hide QueueShape;
    if events != [] {
      var n := |events| - 1;
      OfferEventsShape(conn, events[..n], room);
      OfferEventsEffect(conn, events[..n], room);
      OfferQueueShape(OfferEvents(conn, events[..n], room), EventFrame(events[n]), n < |room| && room[n]);
    }
  }

  /** What a registration offers has the shape of a stream. */
  lemma FirstStream(frame: Frame, r: Reads, sessionId: string, log: seq<Event>)
    requires r.openedAt <= r.tip <= r.caughtUpTo <= |log| && ShowsLog(frame, sessionId, log[..r.tip])
    ensures StreamShape([frame] + EventFrames(Since(log[..r.caughtUpTo], r.hello)), r, sessionId, log)
  {
    hide ShowsLog, Since;
    var events := Since(log[..r.caughtUpTo], r.hello);
    assert ([frame] + EventFrames(events))[1..1 + |events|] == EventFrames(events);
  }

  lemma OneFrameQueue(frame: Frame)
    ensures QueueShape([frame], [frame], false)
  {
  }

  lemma ServingSound(conn: Conn, d: Conn, sessionId: string, log: seq<Event>)
    requires ConnSound(conn, sessionId, log) && conn.setup.Registering? && conn.work.Waiting?
    requires d == conn.(setup := Serving, joinedAt := d.joinedAt, offered := d.offered, queue := d.queue,
                        overflowed := d.overflowed)
    requires d.offered != [] && QueueShape(d.queue, d.offered, d.overflowed)
    requires StreamShape(d.offered, ReadsOf(conn), sessionId, log)
    ensures ConnSound(d, sessionId, log)
  {
    hide QueueShape, StreamShape;
  }

  lemma RegisteringSound(conn: Conn, sessionId: string, log: seq<Event>)
    requires ConnSound(conn, sessionId, log) && conn.setup.Registering?
    ensures conn.offered == [] && conn.queue == [] && !conn.overflowed && conn.work.Waiting?
    ensures conn.openedAt <= conn.tip <= conn.caughtUpTo <= |log|
    ensures SnapshotOf(conn.setup.snap, sessionId, log[..conn.tip])
    ensures conn.setup.tail == Since(log[..conn.caughtUpTo], conn.hello)
  {
    hide SnapshotOf, Since, StreamShape;
  }

  lemma RegisterConnSound(conn: Conn, sessionId: string, log: seq<Event>, devices: seq<DeviceView>, room: seq<bool>)
    requires ConnSound(conn, sessionId, log) && conn.setup.Registering?
    ensures var first := Offer(Joined(conn, |log|), SnapshotFrame(OnWire(conn.setup.snap, devices)), true);
            var d := OfferEvents(first, conn.setup.tail, room);
            ConnSound(d, sessionId, log) && d.offered != [] && d.work.Waiting?
  {
    hide ConnSound, OnWire, SnapshotOf, StreamShape, Since, QueueShape, OfferEvents, EventFrames;
    var frame := SnapshotFrame(OnWire(conn.setup.snap, devices));
    var first := Offer(Joined(conn, |log|), frame, true);
    RegisteringSound(conn, sessionId, log);
    assert first.offered == [frame] && first.queue == [frame];
    OneFrameQueue(frame);
    OfferEventsShape(first, conn.setup.tail, room);
    OfferEventsEffect(first, conn.setup.tail, room);
    FirstStream(frame, ReadsOf(conn), sessionId, log);
    ServingSound(conn, OfferEvents(first, conn.setup.tail, room), sessionId, log);
  }

  // --- Steps ---

  lemma UpdateSound(h: Hub, c: nat, conn: Conn)
    requires Sound(h) && c < |h.conns| && ConnSound(conn, h.sessionId, h.log)
    requires h.conns[c].offered != [] ==> conn.offered != []
    requires AllRegistered(h.conns, WorkTargets(conn.work))
    ensures Sound(WithConn(h, c, conn))
  {
    hide ConnSound, LogSound;
    var d := WithConn(h, c, conn);
    assert forall t :: IsRegistered(h.conns, t) ==> IsRegistered(d.conns, t);
  }

  /** Only the program counters of the connection move. */
  lemma ProgressSound(h: Hub, c: nat, conn: Conn)
    requires Sound(h) && c < |h.conns|
    requires var was := h.conns[c];
             conn == was.(work := conn.work) && WorkHolds(conn.work, h.log) &&
             (was.offered == [] ==> conn.work.Waiting?) &&
             AllRegistered(h.conns, WorkTargets(conn.work))
    ensures Sound(WithConn(h, c, conn))
  {
    assert ConnSound(h.conns[c], h.sessionId, h.log);
    UpdateSound(h, c, conn);
  }

  lemma OfferStepSound(h: Hub, c: nat, work: Work, frame: Frame, room: bool)
    requires Sound(h) && c < |h.conns| && h.conns[c].offered != [] && IsLive(frame, h.log)
    requires WorkHolds(work, h.log) && !work.FanningOut?
    ensures Sound(WithConn(h, c, Offer(h.conns[c].(work := work), frame, room)))
  {
    hide StreamShape, QueueShape;
    assert ConnSound(h.conns[c], h.sessionId, h.log);
    OfferSound(h.conns[c].(work := work), h.sessionId, h.log, frame, room);
    UpdateSound(h, c, Offer(h.conns[c].(work := work), frame, room));
  }

  lemma RefuseSound(h: Hub, c: nat, code: string, room: bool)
    requires Sound(h) && c < |h.conns| && !h.conns[c].work.Waiting?
    ensures Sound(Refuse(h, c, code, room))
  {
    assert ConnSound(h.conns[c], h.sessionId, h.log);
    OfferStepSound(h, c, Waiting, ErrorFrame(h.conns[c].work.command.id, code), room);
  }

  /** Appending an event numbers it next and leaves every stream in shape. */
  lemma AppendToLogSound(h: Hub, ts: int, body: Body, fault: Fault, origin: Origin)
    requires Sound(h)
    ensures Sound(AppendToLog(h, ts, body, fault, origin))
    ensures Genuine(NextEvent(h.log, ts, body), AppendToLog(h, ts, body, fault, origin).log)
  {
    hide ConnSound, RowFits;
    var ev := NextEvent(h.log, ts, body);
    RowFitsAppend(SessionRow(h.cachedStatus, |h.log|), h.log, ts, body, fault);
    forall c | 0 <= c < |h.conns|
      ensures ConnSound(h.conns[c], h.sessionId, h.log + [ev])
    {
      ConnGrows(h.conns[c], h.sessionId, h.log, ev);
    }
  }

  lemma SetupStepSound(h: Hub, c: nat, device: DeviceId, hello: int)
    requires Sound(h)
    ensures Sound(Dial(h, device, hello)) && Sound(ReadRow(h, c)) && Sound(ReadTail(h, c))
  {
    hide StreamShape, Subsequence;
    var d := Dial(h, device, hello);
    assert forall t :: IsRegistered(h.conns, t) ==> IsRegistered(d.conns, t);
    if c < |h.conns| {
      assert ConnSound(h.conns[c], h.sessionId, h.log);
      assert h.log[..|h.log|] == h.log;
      if h.conns[c].setup.ReadingRow? {
        UpdateSound(h, c, h.conns[c].(setup := ReadingLog(SessionRow(h.cachedStatus, |h.log|))));
      } else if h.conns[c].setup.ReadingTail? {
        var conn := h.conns[c];
        var setup := Registering(conn.setup.snap, Since(h.log, conn.hello));
        UpdateSound(h, c, conn.(setup := setup, caughtUpTo := |h.log|));
      }
    }
  }

  /** Whatever was appended since the session row was read, the snapshot shows the log as it is now. */
  lemma ReadLogSound(h: Hub, c: nat, snap: Snapshot)
    requires Sound(h)
    ensures Sound(ReadLog(h, c, snap))
  {
    hide StreamShape, Subsequence, SnapshotFrom, SnapshotOf;
    if ReadLog(h, c, snap) != h {
      var conn := h.conns[c];
      var row := conn.setup.row;
      assert ConnSound(conn, h.sessionId, h.log);
      SnapshotSurvivesRace(snap, h.sessionId, row, h.log[..row.lastSeq], h.log);
      assert h.log[..|h.log|] == h.log;
      UpdateSound(h, c, conn.(setup := ReadingTail(snap), tip := |h.log|));
    }
  }

  lemma RegisterSound(h: Hub, c: nat, devices: seq<DeviceView>, room: seq<bool>)
    requires Sound(h)
    ensures Sound(Register(h, c, devices, room))
  {
    hide ConnSound;
    if c < |h.conns| && h.conns[c].setup.Registering? {
      assert ConnSound(h.conns[c], h.sessionId, h.log);
      RegisterConnSound(h.conns[c], h.sessionId, h.log, devices, room);
      var conn := h.conns[c];
      var first := Offer(Joined(conn, |h.log|), SnapshotFrame(OnWire(conn.setup.snap, devices)), true);
      var d := OfferEvents(first, conn.setup.tail, room);
      UpdateSound(h, c, d);
      assert IsRegistered(WithConn(h, c, d).conns, c);
    }
  }

  lemma HangUpSound(h: Hub, c: nat)
    requires Sound(h)
    ensures Sound(HangUp(h, c))
  {
    hide StreamShape, QueueShape;
    if c < |h.conns| && h.conns[c].work.Waiting? {
      assert ConnSound(h.conns[c], h.sessionId, h.log);
      UpdateSound(h, c, h.conns[c].(setup := Closed));
    }
  }

  lemma ReceiveSound(h: Hub, c: nat, command: Command, room: bool)
    requires Sound(h)
    ensures Sound(Receive(h, c, command, room))
  {
    if c < |h.conns| && h.conns[c].setup.Serving? && h.conns[c].work.Waiting? {
      assert ConnSound(h.conns[c], h.sessionId, h.log);
      ProgressSound(h, c, h.conns[c].(work := Received(Keyed(command))));
      OfferStepSound(h, c, Waiting, ErrorFrame("", "bad_request"), room);
    }
  }

  lemma ClaimSound(h: Hub, c: nat, room: bool)
    requires Sound(h)
    ensures Sound(Claim(h, c, room))
  {
    if c < |h.conns| && h.conns[c].work.Received? {
      assert ConnSound(h.conns[c], h.sessionId, h.log);
      var command := h.conns[c].work.command;
      ProgressSound(h, c, h.conns[c].(work := Claimed(command)));
      OfferStepSound(h, c, Waiting, AckFrame(command.id, 0), room);
    }
  }

  lemma TakeSound(h: Hub, c: nat, room: bool)
    requires Sound(h)
    ensures Sound(Take(h, c, room))
  {
    if c < |h.conns| && h.conns[c].work.Claimed? {
      assert ConnSound(h.conns[c], h.sessionId, h.log);
      var command := h.conns[c].work.command;
      ProgressSound(h, c, h.conns[c].(work := Taken(command)));
      RefuseSound(h, c, RefusalCode(command.request), room);
      RefuseSound(h, c, "already_resolved", room);
    }
  }

  lemma AppendCommandSound(h: Hub, c: nat, ts: int, fault: Fault, room: bool)
    requires Sound(h)
    ensures Sound(AppendCommand(h, c, ts, fault, room))
  {
    hide ConnSound, RefusalCode;
    if c < |h.conns| && ReadyToAppend(h.conns[c].work, h.conns[c].device) {
      var conn := h.conns[c];
      var command := conn.work.command;
      if fault.Refused? {
        RefuseSound(h, c, "server_error", room);
      } else {
        var body := EventFor(command.request, conn.device).value;
        var origin := FromCommand(IdempotencyKey(conn.device, command.idempotencyKey), conn.device, command);
        AppendToLogSound(h, ts, body, fault, origin);
        var grown := AppendToLog(h, ts, body, fault, origin);
        WorkingIsRegistered(h, c);
        ProgressSound(grown, c, conn.(work := Logged(command, NextEvent(h.log, ts, body))));
      }
    }
  }

  lemma WorkingIsRegistered(h: Hub, c: nat)
    requires Sound(h) && c < |h.conns| && !h.conns[c].work.Waiting?
    ensures IsRegistered(h.conns, c)
  {
  }

  lemma AcknowledgeSound(h: Hub, c: nat, room: bool)
    requires Sound(h)
    ensures Sound(Acknowledge(h, c, room)) && Sound(CopyClients(h, c))
  {
    if c < |h.conns| && (h.conns[c].work.Logged? || h.conns[c].work.Acked?) {
      var conn := h.conns[c];
      assert ConnSound(conn, h.sessionId, h.log);
      if conn.work.Logged? {
        OfferStepSound(h, c, Acked(conn.work.command, conn.work.event),
                       AckFrame(conn.work.command.id, conn.work.event.seqNo), room);
      } else {
        ProgressSound(h, c, conn.(work := FanningOut(conn.work.command, conn.work.event, h.clients)));
      }
    }
  }

  lemma FanSound(h: Hub, c: nat, target: nat, room: bool)
    requires Sound(h)
    ensures Sound(Fan(h, c, target, room))
  {
    hide QueueShape, StreamShape;
    if c < |h.conns| && target < |h.conns| && h.conns[c].work.FanningOut? && target in h.conns[c].work.targets {
      var conn := h.conns[c];
      assert ConnSound(conn, h.sessionId, h.log);
      var work := conn.work.(targets := conn.work.targets - {target});
      ProgressSound(h, c, conn.(work := work));
      var h1 := WithConn(h, c, conn.(work := work));
      assert IsRegistered(h.conns, target);
      assert ConnSound(h1.conns[target], h.sessionId, h.log);
      OfferSound(h1.conns[target], h.sessionId, h.log, EventFrame(conn.work.event), room);
      UpdateSound(h1, target, Offer(h1.conns[target], EventFrame(conn.work.event), room));
    }
  }

  lemma ForwardSound(h: Hub, c: nat, accepted: bool, room: bool)
    requires Sound(h)
    ensures Sound(Forward(h, c, accepted, room))
  {
    if c < |h.conns| && h.conns[c].work.FanningOut? && h.conns[c].work.targets == {} {
      RefuseSound(h, c, "agent_error", room);
      ProgressSound(h, c, h.conns[c].(work := Waiting));
    }
  }

  lemma SpreadSound(h: Hub, target: nat, room: bool)
    requires Sound(h)
    ensures Sound(Spread(h, target, room))
  {
    hide QueueShape, StreamShape;
    if h.ingest.Spreading? && target in h.ingest.targets && target < |h.conns| {
      assert IsRegistered(h.conns, target);
      assert ConnSound(h.conns[target], h.sessionId, h.log);
      OfferSound(h.conns[target], h.sessionId, h.log, EventFrame(h.ingest.event), room);
      UpdateSound(h, target, Offer(h.conns[target], EventFrame(h.ingest.event), room));
    }
  }

  lemma IngestSound(h: Hub, ts: int, body: Body, fault: Fault)
    requires Sound(h)
    ensures Sound(AgentEmits(h, ts, body, fault)) && Sound(FileRequest(h))
    ensures Sound(CopyForIngest(h)) && Sound(Listen(h))
  {
    hide ConnSound;
    AppendToLogSound(h, ts, body, fault, FromAgent);
  }

  lemma SoundStep(h: Hub, step: Step)
    requires Sound(h)
    ensures Sound(Next(h, step))
  {
    hide Sound, Dial, ReadRow, ReadLog, ReadTail, Register, HangUp, Receive, Claim, Take, AppendCommand, Acknowledge,
         CopyClients, Fan, Forward, AgentEmits, FileRequest, CopyForIngest, Spread, Listen;
    match step {
      case DialStep(device, hello) => SetupStepSound(h, 0, device, hello);
      case ReadRowStep(c) => SetupStepSound(h, c, "", 0);
      case ReadTailStep(c) => SetupStepSound(h, c, "", 0);
      case ReadLogStep(c, snap) => ReadLogSound(h, c, snap);
      case RegisterStep(c, devices, rooms) => RegisterSound(h, c, devices, rooms);
      case HangUpStep(c) => HangUpSound(h, c);
      case ReceiveStep(c, command, room) => ReceiveSound(h, c, command, room);
      case ClaimStep(c, room) => ClaimSound(h, c, room);
      case TakeStep(c, room) => TakeSound(h, c, room);
      case AppendStep(c, ts, fault, room) => AppendCommandSound(h, c, ts, fault, room);
      case AckStep(c, room) => AcknowledgeSound(h, c, room);
      case CopyStep(c) => AcknowledgeSound(h, c, true);
      case FanStep(c, target, room) => FanSound(h, c, target, room);
      case ForwardStep(c, accepted, room) => ForwardSound(h, c, accepted, room);
      case EmitStep(ts, body, fault) => IngestSound(h, ts, body, fault);
      case FileStep => IngestSound(h, 0, TurnComplete, NoFault);
      case IngestCopyStep => IngestSound(h, 0, TurnComplete, NoFault);
      case SpreadStep(target, room) => SpreadSound(h, target, room);
      case ListenStep => IngestSound(h, 0, TurnComplete, NoFault);
    }
  }

  /** Every reachable state of the hub is sound, in every interleaving of its goroutines. */
  lemma {:induction false} HubStaysSound(sessionId: string, steps: seq<Step>)
    ensures Sound(Exec(Start(sessionId), steps))
  {
    if steps != [] {
      hide Sound, Next;
      HubStaysSound(sessionId, steps[..|steps| - 1]);
      SoundStep(Exec(Start(sessionId), steps[..|steps| - 1]), steps[|steps| - 1]);
    }
  }

  /** A connection of a reachable hub: its queue starts with a snapshot, taken no earlier than the hello;
      what was offered to it is that snapshot, then exactly the log above the hello's lastSeq as it was no
      earlier than the snapshot, then only acks, errors and genuine events; and without an overflow the
      queue is all of that, with one a part of it in the same order. */
  lemma ConnectionStream(sessionId: string, steps: seq<Step>, c: nat)
    requires c < |Exec(Start(sessionId), steps).conns| && Exec(Start(sessionId), steps).conns[c].queue != []
    ensures var h := Exec(Start(sessionId), steps);
            var conn := h.conns[c];
            conn.openedAt <= conn.tip <= conn.caughtUpTo <= |h.log| &&
            1 + |Since(h.log[..conn.caughtUpTo], conn.hello)| <= |conn.offered|
    ensures var h := Exec(Start(sessionId), steps);
            var conn := h.conns[c];
            var tail := Since(h.log[..conn.caughtUpTo], conn.hello);
            var live := conn.offered[1 + |tail|..];
            ShowsLog(conn.queue[0], h.sessionId, h.log[..conn.tip]) &&
            conn.offered == [conn.queue[0]] + EventFrames(tail) + live &&
            (forall f :: f in live ==> IsLive(f, h.log)) &&
            Subsequence(conn.queue[1..], conn.offered[1..]) &&
            (!conn.overflowed ==> conn.queue == conn.offered)
  {
    hide Exec, Subsequence, ShowsLog;
    HubStaysSound(sessionId, steps);
    var h := Exec(Start(sessionId), steps);
    var conn := h.conns[c];
    assert ConnSound(conn, h.sessionId, h.log);
    var live := 1 + |Since(h.log[..conn.caughtUpTo], conn.hello)|;
    assert conn.offered == [conn.offered[0]] + conn.offered[1..live] + conn.offered[live..];
  }

  lemma SinceIsGenuine(log: seq<Event>, upTo: nat, hello: int, i: nat)
    requires Dense(log) && upTo <= |log| && i < |Since(log[..upTo], hello)|
    ensures Genuine(Since(log[..upTo], hello)[i], log)
  {
  }

  /** Behind the snapshot a queue holds nothing but acks, errors and genuine events. */
  lemma QueueIsGenuine(h: Hub, c: nat, i: nat)
    requires Sound(h) && c < |h.conns| && i < |h.conns[c].queue|
    ensures if i == 0 then ShowsLog(h.conns[c].queue[i], h.sessionId, h.log[..h.conns[c].tip])
            else IsLive(h.conns[c].queue[i], h.log)
  {
    hide Subsequence, ShowsLog, Since;
    var conn := h.conns[c];
    assert ConnSound(conn, h.sessionId, h.log);
    if i > 0 {
      SubsequenceMember(conn.queue[1..], conn.offered[1..], i - 1);
      var k :| 1 <= k < |conn.offered| && conn.offered[k] == conn.queue[i];
      var tail := Since(h.log[..conn.caughtUpTo], conn.hello);
      if k < 1 + |tail| {
        assert conn.offered[1..1 + |tail|][k - 1] == EventFrame(tail[k - 1]);
        SinceIsGenuine(h.log, conn.caughtUpTo, conn.hello, k - 1);
      }
    }
  }
}
