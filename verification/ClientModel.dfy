/** The reconnecting client as a state machine on values: one function per handler. */
module ClientModel {
  import opened Protocol
  import opened Reducer

  const MAX_OUTBOX := 32

  datatype Phase = Idle | Connecting | Syncing | Live | Reconnecting | Unauthorized

  datatype Outcome = Resolved(seqNo: nat) | Rejected(code: string)

  /** A command's promise being settled. */
  datatype Settlement = Settlement(id: string, outcome: Outcome)

  /** What the handlers leave behind for an observer; no handler reads it. */
  datatype History = History(
    base: nat,                   // the lastSeq the stream of items starts from
    applied: seq<Event>,         // events applied since then
    hellos: seq<nat>,            // the lastSeq of every hello sent
    issued: seq<Command>,        // commands accepted into the outbox
    sent: seq<Command>,          // command frames written
    settled: seq<Settlement>,
    orphaned: set<string>)       // waiting commands whose outbox entry a session change cleared

  datatype Client = Client(
    session: SessionState,
    phase: Phase,
    hasSocket: bool,
    socketReady: bool,
    timerSet: bool,
    closedByUser: bool,
    gapSeq: Option<nat>,
    gapCount: nat,
    fullResync: bool,
    syncBase: nat,
    retryAttempt: nat,
    outbox: seq<Command>,
    waiting: set<string>,
    error: Option<string>,
    maxItems: Option<nat>,
    history: History)

  /** A client as constructed, after restoring a persisted `lastSeq` if there is one. */
  function Boot(maxItems: Option<nat>, base: nat): Client {
    Client(NEW_SESSION.(lastSeq := base), Idle, false, false, false, false, None, 0, false, 0, 0, [], {}, None,
           maxItems, History(base, [], [], [], [], [], {}))
  }

  predicate IsTerminal(code: string) {
    code in {"auth_required", "pairing_denied", "device_mismatch", "unauthorized"}
  }

  function IdsOf(commands: seq<Command>): set<string> {
    set c | c in commands :: c.id
  }

  function RemoveCommand(commands: seq<Command>, id: string): seq<Command> {
    if commands == [] then []
    else
      var n := |commands| - 1;
      RemoveCommand(commands[..n], id) + (if commands[n].id != id then [commands[n]] else [])
  }

  // --- Sockets ---

  function ScheduleReconnect(c: Client): Client {
    if c.closedByUser then c
    else c.(retryAttempt := c.retryAttempt + 1, phase := Reconnecting, timerSet := true)
  }

  /** Drop the accumulated session, as a full resync and a reset do. */
  function ForgetSession(c: Client): Client {
    c.(session := NEW_SESSION, history := c.history.(base := 0, applied := []))
  }

  /** A new attempt begins, from a new session if a full resync is due. */
  function StartAttempt(c: Client): Client {
    c.(phase := if c.session.sessionId.None? then Connecting else Reconnecting,
       session := if c.fullResync then NEW_SESSION else c.session,
       history := if c.fullResync then c.history.(base := 0, applied := []) else c.history,
       fullResync := false)
  }

  /** `created` is whether the platform managed to create a socket. */
  function OpenSocket(c: Client, created: bool): Client {
    var d := StartAttempt(c);
    if created then d.(hasSocket := true, socketReady := false)
    else ScheduleReconnect(d.(error := Some("socket_error")))
  }

  function Connect(c: Client, created: bool): Client {
    OpenSocket(c.(closedByUser := false, gapCount := 0, retryAttempt := 0, timerSet := false), created)
  }

  function Close(c: Client): Client {
    c.(closedByUser := true, timerSet := false, hasSocket := false, socketReady := false, phase := Idle)
  }

  function Reset(c: Client): Client {
    ForgetSession(c).(closedByUser := false, error := None, gapCount := 0, gapSeq := None, fullResync := false)
  }

  function OnTimer(c: Client, created: bool): Client {
    if !c.timerSet then c
    else
      var c1 := c.(timerSet := false);
      if c1.closedByUser then c1 else OpenSocket(c1, created)
  }

  /** A socket opens and carries the hello. `current` tells the client's own socket from one left over. */
  function OnOpen(c: Client, current: bool): Client {
    c.(socketReady := c.socketReady || (current && c.hasSocket),
       history := c.history.(hellos := c.history.hellos + [c.session.lastSeq]))
  }

  function OnClose(c: Client, current: bool, code: nat): Client {
    var c1 := c.(socketReady := c.socketReady && !current);
    if c1.closedByUser then c1
    else if code == 1008 || code == 4001 then c1.(phase := Unauthorized)
    else if c1.phase.Unauthorized? then c1
    else ScheduleReconnect(c1)
  }

  function Detach(c: Client): Client {
    c.(hasSocket := false, socketReady := false)
  }

  // --- Commands ---

  /** What a flush writes: the whole outbox, if the client is live and its socket is open. */
  function Flushed(c: Client): seq<Command> {
    if c.phase.Live? && c.hasSocket && c.socketReady then c.outbox else []
  }

  function FlushOutbox(c: Client): Client {
    c.(history := c.history.(sent := c.history.sent + Flushed(c)))
  }

  /** Flushing changes nothing but what has been sent. */
  lemma FlushOnlySends(c: Client)
    ensures var d := FlushOutbox(c);
            d.session == c.session && d.phase == c.phase && d.gapSeq == c.gapSeq && d.gapCount == c.gapCount &&
            d.fullResync == c.fullResync && d.maxItems == c.maxItems && d.outbox == c.outbox &&
            d.waiting == c.waiting &&
            d.history == c.history.(sent := d.history.sent)
  {
  }

  /** `id` is the fresh identifier drawn for the command; it also serves as the idempotency key. */
  function SendCommand(c: Client, id: string, request: Request): Client {
    if |c.outbox| >= MAX_OUTBOX then c
    else
      var command := Command(id, id, request);
      FlushOutbox(c.(
        outbox := c.outbox + [command],
        waiting := c.waiting + {id},
        history := c.history.(issued := c.history.issued + [command])))
  }

  function Settle(c: Client, id: string, outcome: Outcome): Client {
    if id !in c.waiting then c
    else c.(
      waiting := c.waiting - {id},
      outbox := RemoveCommand(c.outbox, id),
      history := c.history.(settled := c.history.settled + [Settlement(id, outcome)],
                            orphaned := c.history.orphaned - {id}))
  }

  // --- Frames ---

  function HandleSnapshot(c: Client, snap: SnapshotPayload): Client {
    var different := IsOtherSession(c.session, snap);
    var session := ApplySnapshot(c.session, snap);
    var caughtUp := session.lastSeq >= session.tipSeq;
    var d := c.(
      session := session,
      phase := if caughtUp then Live else Syncing,
      syncBase := session.lastSeq,
      retryAttempt := 0,
      outbox := if different then [] else c.outbox,
      history := if different then Orphaned(c) else c.history);
    if caughtUp then FlushOutbox(d) else d
  }

  /** Another session begins: the outbox is dropped, its promises are not. */
  function Orphaned(c: Client): History {
    c.history.(base := 0, applied := [], orphaned := c.history.orphaned + IdsOf(c.outbox))
  }

  function NoteGap(c: Client, seqNo: nat): Client {
    var count := if c.gapSeq == Some(seqNo) then c.gapCount + 1 else 1;
    var escalates := count >= 3;
    ScheduleReconnect(Detach(c.(
      fullResync := c.fullResync || escalates,
      gapCount := if escalates then 0 else count,
      gapSeq := if escalates then None else Some(seqNo))))
  }

  function HandleEvent(c: Client, ev: Event): Client {
    if ev.seqNo <= c.session.lastSeq then c
    else if ev.seqNo > c.session.lastSeq + 1 then NoteGap(c, ev.seqNo)
    else
      var session := Trimmed(ApplyEvent(c.session, ev), c.maxItems);
      var goesLive := session.lastSeq >= session.tipSeq && !c.phase.Live?;
      var d := c.(
        session := session,
        phase := if goesLive then Live else c.phase,
        gapSeq := None,
        gapCount := 0,
        history := c.history.(applied := c.history.applied + [ev]));
      if goesLive then FlushOutbox(d) else d
  }

  function HandleError(c: Client, id: string, code: string): Client {
    if IsTerminal(code) && id == "" then
      c.(error := Some(code), closedByUser := true, hasSocket := false, socketReady := false, phase := Unauthorized)
    else if id == "" then c.(error := Some(code))
    else Settle(c, id, Rejected(code))
  }

  function HandleFrame(c: Client, frame: Frame): Client {
    match frame
    case SnapshotFrame(snap) => HandleSnapshot(c, snap)
    case EventFrame(ev) => HandleEvent(c, ev)
    case AckFrame(id, n) => Settle(c, id, Resolved(n))
    case ErrorFrame(id, code) => HandleError(c, id, code)
  }

  // --- Runs ---

  /** Everything that can happen to a client: calls by the user, timers, and whatever any socket does. */
  datatype Input =
    | UserConnects(created: bool)
    | UserCloses
    | UserResets
    | UserSends(id: string, request: Request)
    | TimerFires(created: bool)
    | SocketOpens(current: bool)
    | SocketCloses(current: bool, code: nat)
    | FrameArrives(frame: Frame)

  /** A drawn identifier never repeats; an input that says otherwise does nothing. */
  function Step(c: Client, input: Input): Client {
    match input
    case UserConnects(created) => Connect(c, created)
    case UserCloses => Close(c)
    case UserResets => Reset(c)
    case UserSends(id, request) => if id in IdsOf(c.history.issued) then c else SendCommand(c, id, request)
    case TimerFires(created) => OnTimer(c, created)
    case SocketOpens(current) => OnOpen(c, current)
    case SocketCloses(current, code) => OnClose(c, current, code)
    case FrameArrives(frame) => HandleFrame(c, frame)
  }

  function Run(c: Client, inputs: seq<Input>): Client {
    if inputs == [] then c
    else Step(Run(c, inputs[..|inputs| - 1]), inputs[|inputs| - 1])
  }
}
