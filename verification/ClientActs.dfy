/** What the client's handlers do, as opposed to what they may not do: when commands are written, when promises
    settle, when the client goes live, and how it comes back after a gap or a close. */
module ClientActs {
  import opened Protocol
  import opened Reducer
  import opened ClientModel
  import opened ClientGaps
  import opened ClientOutbox

  // --- Commands ---

  predicate CanWrite(c: Client) {
    c.phase.Live? && c.hasSocket && c.socketReady
  }

  predicate Accepts(c: Client, input: Input) {
    input.UserSends? && input.id !in IdsOf(c.history.issued) && |c.outbox| < MAX_OUTBOX
  }

  /** A command was just accepted, a snapshot left the client live, or an event made it live. */
  predicate Occasion(c: Client, input: Input) {
    Accepts(c, input) ||
    (input.FrameArrives? && input.frame.SnapshotFrame?) ||
    (input.FrameArrives? && input.frame.EventFrame? && !c.phase.Live?)
  }

  lemma SendWrites(c: Client, id: string, request: Request)
    ensures var d := SendCommand(c, id, request);
            d.history.sent == c.history.sent + (if |c.outbox| < MAX_OUTBOX && CanWrite(d) then d.outbox else [])
  {
  }

  lemma SnapshotWrites(c: Client, snap: SnapshotPayload)
    ensures var d := HandleSnapshot(c, snap);
            d.history.sent == c.history.sent + (if CanWrite(d) then d.outbox else [])
  {
    hide ApplySnapshot, IsOtherSession;
  }

  lemma EventWrites(c: Client, ev: Event)
    ensures var d := HandleEvent(c, ev);
            d.history.sent == c.history.sent + (if !c.phase.Live? && CanWrite(d) then d.outbox else [])
  {
    hide ApplyEvent, Trimmed;
  }

  lemma OtherFrameWritesNothing(c: Client, frame: Frame)
    requires frame.AckFrame? || frame.ErrorFrame?
    ensures HandleFrame(c, frame).history.sent == c.history.sent
  {
    hide RemoveCommand, IsTerminal;
  }

  lemma OpeningWritesNothing(c: Client, created: bool)
    ensures OpenSocket(c, created).history.sent == c.history.sent
  {
    hide NEW_SESSION;
  }

  lemma LocalWritesNothing(c: Client, input: Input)
    requires !input.FrameArrives? && !input.UserSends?
    ensures Step(c, input).history.sent == c.history.sent
  {
    hide HandleFrame, SendCommand, OpenSocket, NEW_SESSION;
    match input {
      case UserConnects(created) =>
        OpeningWritesNothing(c.(closedByUser := false, gapCount := 0, retryAttempt := 0, timerSet := false), created);
      case TimerFires(created) => OpeningWritesNothing(c.(timerSet := false), created);
      case _ =>
    }
  }

  /** On each of these occasions a client that is then live on an open socket writes its whole outbox, in order;
      and it never writes anything else. */
  lemma WritesExactly(c: Client, input: Input)
    ensures var d := Step(c, input);
            d.history.sent == if Occasion(c, input) && CanWrite(d) then c.history.sent + d.outbox else c.history.sent
  {
    hide Step, HandleFrame, HandleSnapshot, HandleEvent, SendCommand, CanWrite;
    StepIs(c, input);
    match input {
      case UserSends(id, request) => SendWrites(c, id, request);
      case FrameArrives(SnapshotFrame(snap)) => SnapshotWrites(c, snap);
      case FrameArrives(EventFrame(ev)) => EventWrites(c, ev);
      case FrameArrives(frame) => OtherFrameWritesNothing(c, frame);
      case _ => LocalWritesNothing(c, input);
    }
  }

  /** What a step is for the inputs that can write. */
  lemma StepIs(c: Client, input: Input)
    ensures input.UserSends? ==>
              Step(c, input) ==
              if input.id in IdsOf(c.history.issued) then c else SendCommand(c, input.id, input.request)
    ensures input.FrameArrives? && input.frame.SnapshotFrame? ==>
              Step(c, input) == HandleSnapshot(c, input.frame.snapshot)
    ensures input.FrameArrives? && input.frame.EventFrame? ==> Step(c, input) == HandleEvent(c, input.frame.event)
    ensures input.FrameArrives? ==> Step(c, input) == HandleFrame(c, input.frame)
  {
    hide HandleSnapshot, HandleEvent, SendCommand, Settle, HandleError;
  }

  /** An accepted command waits, last in the outbox and under its own id as key; at 32 commands none is. */
  lemma SendingQueues(c: Client, id: string, request: Request)
    ensures var d := SendCommand(c, id, request);
            if |c.outbox| < 32 then
              d.outbox == c.outbox + [Command(id, id, request)] && d.waiting == c.waiting + {id} &&
              d.history.issued == c.history.issued + [Command(id, id, request)]
            else d == c
  {
  }

  // --- Promises ---

  /** The promise of that id, and no other, is settled with the outcome, and its command is forgotten. */
  ghost predicate Settles(c: Client, d: Client, id: string, outcome: Outcome) {
    d.waiting == c.waiting - {id} && d.history.settled == c.history.settled + [Settlement(id, outcome)] &&
    forall x :: x in d.outbox <==> x in c.outbox && x.id != id
  }

  /** An ack settles a waiting promise with its number, an error that names a command rejects it with its code, and
      either does nothing to a promise that does not wait. */
  lemma AnswersSettle(c: Client, id: string, n: nat, code: string)
    ensures var d := Step(c, FrameArrives(AckFrame(id, n)));
            if id in c.waiting then Settles(c, d, id, Resolved(n)) else d == c
    ensures id != "" ==>
              var d := Step(c, FrameArrives(ErrorFrame(id, code)));
              if id in c.waiting then Settles(c, d, id, Rejected(code)) else d == c
  {
    hide RemoveCommand, IsTerminal;
    RemoveCommandSelects(c.outbox, id);
  }

  /** An error that names no command is shown; one of the four terminal codes ends the client. */
  lemma GlobalErrors(c: Client, code: string)
    ensures var d := Step(c, FrameArrives(ErrorFrame("", code)));
            d.error == Some(code) && d.outbox == c.outbox && d.waiting == c.waiting &&
            if code in {"auth_required", "pairing_denied", "device_mismatch", "unauthorized"}
            then d.closedByUser && !d.hasSocket && !d.socketReady && d.phase.Unauthorized?
            else d == c.(error := Some(code))
  {
  }

  // --- Phases ---

  /** After a snapshot the client is live exactly if it has nothing to catch up with. */
  lemma SnapshotPhase(c: Client, snap: SnapshotPayload)
    ensures var d := Step(c, FrameArrives(SnapshotFrame(snap)));
            d.phase == (if d.session.lastSeq >= snap.lastSeq then Live else Syncing) &&
            d.retryAttempt == 0 && d.syncBase == d.session.lastSeq && d.gapSeq == c.gapSeq && d.gapCount == c.gapCount
  {
    hide ApplySnapshot, IsOtherSession;
    SnapshotKeepsStream(c.session, snap);
  }

  /** The next event advances the client by one, ends any gap on record, and makes it live once the tip is reached;
      an event seen before changes nothing. */
  lemma EventAdvances(c: Client, ev: Event)
    ensures var d := Step(c, FrameArrives(EventFrame(ev)));
            if ev.seqNo == c.session.lastSeq + 1 then
              d.session.lastSeq == c.session.lastSeq + 1 && d.gapSeq.None? && d.gapCount == 0 &&
              d.phase == (if d.session.lastSeq >= d.session.tipSeq then Live else c.phase)
            else ev.seqNo <= c.session.lastSeq ==> d == c
  {
    hide ApplyEvent, Trimmed, NoteGap;
    EventMovesLastSeq(c.session, ev, c.maxItems);
  }

  // --- Coming back ---

  /** The client has armed its timer for another attempt. */
  predicate Retries(c: Client, d: Client) {
    d.timerSet && d.phase.Reconnecting? && d.retryAttempt == c.retryAttempt + 1
  }

  /** After a gap the client has dropped its socket, and unless it was closed it will try again. */
  lemma GapReconnects(c: Client, ev: Event)
    requires IsGap(c, ev)
    ensures var d := Step(c, FrameArrives(EventFrame(ev)));
            !d.hasSocket && !d.socketReady && d.session == c.session && d.outbox == c.outbox &&
            if c.closedByUser then d.phase == c.phase && d.timerSet == c.timerSet else Retries(c, d)
  {
    hide ApplyEvent, Trimmed;
  }

  /** After a close: nothing if the client was closed; no retry on the codes 1008 and 4001, nor once unauthorized;
      and otherwise a retry. */
  lemma CloseReconnects(c: Client, current: bool, code: nat)
    ensures var d := Step(c, SocketCloses(current, code));
            d.session == c.session && d.outbox == c.outbox && (current ==> !d.socketReady) &&
            if c.closedByUser then d.phase == c.phase && d.timerSet == c.timerSet
            else if code in {1008, 4001} then d.phase.Unauthorized? && d.timerSet == c.timerSet
            else if c.phase.Unauthorized? then d.phase.Unauthorized? && d.timerSet == c.timerSet
            else Retries(c, d)
  {
  }

  /** The view and the position survive an attempt unless a full resync is due; the attempt has a socket, or has
      armed the timer for another, and a full resync is due no longer. */
  lemma AttemptResumes(c: Client, created: bool)
    requires !c.closedByUser
    ensures var d := OpenSocket(c, created);
            d.session == (if c.fullResync then NEW_SESSION else c.session) && !d.fullResync && d.outbox == c.outbox &&
            if created
            then d.hasSocket && !d.socketReady &&
                 d.phase == (if c.session.sessionId.None? then Connecting else Reconnecting)
            else Retries(c, d) && d.hasSocket == c.hasSocket && d.error == Some("socket_error")
  {
    hide NEW_SESSION;
  }

  /** A socket that opens says hello with the position that the client has reached by then; only the client's own
      counts as open. */
  lemma HelloResumes(c: Client, current: bool)
    ensures var d := Step(c, SocketOpens(current));
            d.history.hellos == c.history.hellos + [c.session.lastSeq] && d.session == c.session &&
            d.hasSocket == c.hasSocket && d.phase == c.phase && d.timerSet == c.timerSet &&
            (d.socketReady <==> c.socketReady || (current && c.hasSocket))
  {
  }

  /** A connect by the user forgets retries, the timer and the number of gaps, but not where the last gap was, and
      makes an attempt; a due timer makes one too, unless the client was closed. */
  lemma ConnectAttempts(c: Client, created: bool)
    ensures Step(c, UserConnects(created)) ==
            OpenSocket(c.(closedByUser := false, gapCount := 0, retryAttempt := 0, timerSet := false), created)
    ensures c.timerSet ==>
              Step(c, TimerFires(created)) ==
              if c.closedByUser then c.(timerSet := false) else OpenSocket(c.(timerSet := false), created)
    ensures !c.timerSet ==> Step(c, TimerFires(created)) == c
  {
    hide OpenSocket;
  }

  /** A close by the user ends the socket and the timer for good; a reset forgets the session, gaps and error, and
      leaves the socket, the timer, the outbox and the promises alone. */
  lemma CloseAndReset(c: Client)
    ensures var d := Step(c, UserCloses);
            d.closedByUser && !d.timerSet && !d.hasSocket && !d.socketReady && d.phase.Idle? &&
            d.session == c.session && d.outbox == c.outbox && d.waiting == c.waiting
    ensures var d := Step(c, UserResets);
            d.session == NEW_SESSION && !d.closedByUser && d.error.None? && d.gapSeq.None? && d.gapCount == 0 &&
            !d.fullResync && d.hasSocket == c.hasSocket && d.socketReady == c.socketReady &&
            d.timerSet == c.timerSet && d.phase == c.phase && d.outbox == c.outbox && d.waiting == c.waiting
  {
    hide NEW_SESSION;
  }
}
