/** The reconnecting client as the object it is: fields updated in place by the handlers of its sockets and
    timers. Every method is proved against the step of the same name on values, so that what holds of every
    run of the values holds of the object. */
module HarnessClient {
  import opened Protocol
  import opened Reducer
  import opened ClientModel

  class HarnessClient {
    const maxItems: Option<nat>
    var session: SessionState
    var phase: Phase
    var hasSocket: bool
    var socketReady: bool
    var timerSet: bool
    var closedByUser: bool
    var gapSeq: Option<nat>
    var gapCount: nat
    var fullResync: bool
    var syncBase: nat
    var retryAttempt: nat
    var outbox: seq<Command>     // in insertion order, one entry per id
    var pending: set<string>     // the ids of the commands whose promise is not settled
    var error: Option<string>
    var history: History         // what sockets were given and promises were told

    ghost function Model(): Client
      reads this
    {
      Client(session, phase, hasSocket, socketReady, timerSet, closedByUser, gapSeq, gapCount, fullResync, syncBase,
             retryAttempt, outbox, pending, error, maxItems, history)
    }

    constructor (maxItems: Option<nat>)
      ensures Model() == Boot(maxItems, 0)
    {
      this.maxItems := maxItems;
      session, phase, error := NEW_SESSION, Idle, None;
      hasSocket, socketReady, timerSet, closedByUser := false, false, false, false;
      gapSeq, gapCount, fullResync := None, 0, false;
      syncBase, retryAttempt := 0, 0;
      outbox, pending := [], {};
      history := History(0, [], [], [], [], [], {});
    }

    /** Restore a persisted position before connecting. Only a greater one is taken. */
    method SetLastSeq(seqNo: int)
      modifies this
      ensures Model() ==
              if seqNo <= old(session.lastSeq) then old(Model())
              else old(Model()).(session := old(session).(lastSeq := seqNo),
                                 history := old(history).(base := seqNo, applied := []))
    {
      if seqNo <= session.lastSeq {
        return;
      }
      session := session.(lastSeq := seqNo);
      history := history.(base := seqNo, applied := []);
    }

    // --- Lifecycle ---

    method Reset()
      modifies this
      ensures Model() == ClientModel.Reset(old(Model()))
    {
      hide NEW_SESSION;
      ForgetTrouble();
      StartOver();
    }

    method ForgetTrouble()
      modifies this`closedByUser, this`error, this`gapSeq, this`gapCount, this`fullResync
      ensures Model() == old(Model()).(closedByUser := false, error := None, gapSeq := None, gapCount := 0,
                                       fullResync := false)
    {
      closedByUser := false;
      error := None;
      ClearGaps();
      fullResync := false;
    }

    method ClearGaps()
      modifies this`gapSeq, this`gapCount
      ensures gapSeq.None? && gapCount == 0
    {
      gapSeq := None;
      gapCount := 0;
    }

    method StartOver()
      modifies this`session, this`history
      ensures session == NEW_SESSION && history == old(history).(base := 0, applied := [])
    {
      session := NEW_SESSION;
      history := history.(base := 0, applied := []);
    }

    method Connect(created: bool)
      modifies this
      ensures Model() == ClientModel.Connect(old(Model()), created)
    {
      hide OpenSocket;
      closedByUser := false;
      gapCount := 0;
      retryAttempt := 0;
      timerSet := false;
      OpenNormalSocket(created);
    }

    method Close()
      modifies this
      ensures Model() == ClientModel.Close(old(Model()))
    {
      closedByUser := true;
      timerSet := false;
      hasSocket, socketReady := false, false;
      phase := Idle;
    }

    // --- Commands ---

    method SendCommand(id: string, request: Request) returns (accepted: bool)
      modifies this
      ensures Model() == ClientModel.SendCommand(old(Model()), id, request)
      ensures accepted <==> |old(outbox)| < MAX_OUTBOX
    {
      if |outbox| >= MAX_OUTBOX {
        return false;
      }
      var command := Command(id, id, request);
      outbox := outbox + [command];
      pending := pending + {id};
      history := history.(issued := history.issued + [command]);
      FlushOutbox();
      return true;
    }

    /** Write every command of the outbox to the socket, in order. */
    method FlushOutbox()
      modifies this`history
      ensures Model() == ClientModel.FlushOutbox(old(Model()))
    {
      if !phase.Live? || !hasSocket || !socketReady {
        return;
      }
      for i := 0 to |outbox|
        invariant history == old(history).(sent := old(history.sent) + outbox[..i])
      {
        history := history.(sent := history.sent + [outbox[i]]);
        assert outbox[..i + 1] == outbox[..i] + [outbox[i]];
      }
      assert outbox[..|outbox|] == outbox;
    }

    /** Drop a command from the outbox, which holds at most one of its id or keeps none of them. */
    method ForgetCommand(id: string)
      modifies this`outbox
      ensures outbox == RemoveCommand(old(outbox), id)
    {
      var kept: seq<Command> := [];
      for i := 0 to |outbox|
        invariant kept == RemoveCommand(outbox[..i], id)
      {
        assert outbox[..i + 1][..i] == outbox[..i];
        if outbox[i].id != id {
          kept := kept + [outbox[i]];
        }
      }
      assert outbox[..|outbox|] == outbox;
      outbox := kept;
    }

    // --- Sockets ---

    method OpenNormalSocket(created: bool)
      modifies this
      ensures Model() == OpenSocket(old(Model()), created)
    {
      hide ClientModel.ScheduleReconnect, ClientModel.StartAttempt;
      StartAttempt();
      if !created {
        error := Some("socket_error");
        ScheduleReconnect();
        return;
      }
      hasSocket, socketReady := true, false;
    }

    method StartAttempt()
      modifies this`phase, this`session, this`history, this`fullResync
      ensures Model() == ClientModel.StartAttempt(old(Model()))
    {
      hide NEW_SESSION;
      phase := if session.sessionId.None? then Connecting else Reconnecting;
      if fullResync {
        StartOver();
        fullResync := false;
      }
    }

    method OnOpen(current: bool)
      modifies this
      ensures Model() == ClientModel.OnOpen(old(Model()), current)
    {
      if current && hasSocket {
        socketReady := true;
      }
      history := history.(hellos := history.hellos + [session.lastSeq]);
    }

    method OnClose(current: bool, code: nat)
      modifies this
      ensures Model() == ClientModel.OnClose(old(Model()), current, code)
    {
      if current {
        socketReady := false;
      }
      if closedByUser {
        return;
      }
      if code == 1008 || code == 4001 {
        phase := Unauthorized;
        return;
      }
      if phase.Unauthorized? {
        return;
      }
      ScheduleReconnect();
    }

    method ScheduleReconnect()
      modifies this
      ensures Model() == ClientModel.ScheduleReconnect(old(Model()))
    {
      if closedByUser {
        return;
      }
      retryAttempt := retryAttempt + 1;
      phase := Reconnecting;
      timerSet := true;
    }

    method OnTimer(created: bool)
      modifies this
      ensures Model() == ClientModel.OnTimer(old(Model()), created)
    {
      if !timerSet {
        return;
      }
      timerSet := false;
      if !closedByUser {
        OpenNormalSocket(created);
      }
    }

    method DetachAndClose()
      modifies this`hasSocket, this`socketReady
      ensures Model() == Detach(old(Model()))
    {
      hasSocket, socketReady := false, false;
    }

    // --- Frames ---

    method HandleEnvelope(frame: Frame)
      modifies this
      ensures Model() == HandleFrame(old(Model()), frame)
    {
      match frame {
        case SnapshotFrame(snap) => HandleSnapshot(snap);
        case EventFrame(ev) => HandleEvent(ev);
        case AckFrame(id, n) => HandleAck(id, n);
        case ErrorFrame(id, code) => HandleError(id, code);
      }
    }

    method HandleSnapshot(snap: SnapshotPayload)
      modifies this
      ensures Model() == ClientModel.HandleSnapshot(old(Model()), snap)
    {
      hide NEW_SESSION, ApplySnapshot, IsOtherSession, ClientModel.FlushOutbox;
      TakeSnapshot(snap);
      if session.lastSeq >= session.tipSeq {
        GoLive();
      } else {
        phase := Syncing;
      }
    }

    method TakeSnapshot(snap: SnapshotPayload)
      modifies this`session, this`outbox, this`history, this`syncBase, this`retryAttempt
      ensures var c := old(Model());
              var d := c.(session := ApplySnapshot(c.session, snap), retryAttempt := 0,
                          syncBase := ApplySnapshot(c.session, snap).lastSeq);
              Model() == if !IsOtherSession(c.session, snap) then d
                         else d.(outbox := [], history := c.history.(base := 0, applied := [],
                                                            orphaned := c.history.orphaned + IdsOf(c.outbox)))
    {
      hide NEW_SESSION, ApplySnapshot, IsOtherSession;
      var wasDifferent := IsOtherSession(session, snap);
      session := SeedFromSnapshot(session, snap);
      if wasDifferent {
        ClearOutbox();
      }
      syncBase := session.lastSeq;
      retryAttempt := 0;
    }

    /** Another session's commands are dropped; their promises stay unsettled. */
    method ClearOutbox()
      modifies this`outbox, this`history
      ensures outbox == []
      ensures history == old(history).(base := 0, applied := [], orphaned := old(history.orphaned) + IdsOf(old(outbox)))
    {
      history := history.(base := 0, applied := [], orphaned := history.orphaned + IdsOf(outbox));
      outbox := [];
    }

    method GoLive()
      modifies this`phase, this`history
      ensures Model() == ClientModel.FlushOutbox(old(Model()).(phase := Live))
    {
      phase := Live;
      FlushOutbox();
    }

    method HandleEvent(ev: Event)
      modifies this
      ensures Model() == ClientModel.HandleEvent(old(Model()), ev)
    {
      hide NEW_SESSION, ApplyEvent, Trimmed, ClientModel.FlushOutbox, ClientModel.NoteGap;
      if ev.seqNo <= session.lastSeq {
        return;
      }
      if ev.seqNo > session.lastSeq + 1 {
        NoteGap(ev.seqNo);
        return;
      }
      TakeEvent(ev);
      if session.lastSeq >= session.tipSeq && !phase.Live? {
        GoLive();
      }
    }

    method TakeEvent(ev: Event)
      modifies this`session, this`history, this`gapSeq, this`gapCount
      ensures Model() == old(Model()).(session := Trimmed(ApplyEvent(old(session), ev), maxItems),
                                       gapSeq := None, gapCount := 0,
                                       history := old(history).(applied := old(history).applied + [ev]))
    {
      hide NEW_SESSION, ApplyEvent;
      session := AdvanceByEvent(session, ev);
      if maxItems.Some? && |session.items| > maxItems.value {
        session := session.(items := TrimItems(session.items, maxItems.value));
      }
      history := history.(applied := history.applied + [ev]);
      ClearGaps();
    }

    method NoteGap(seqNo: nat)
      modifies this
      ensures Model() == ClientModel.NoteGap(old(Model()), seqNo)
    {
      if gapSeq == Some(seqNo) {
        gapCount := gapCount + 1;
      } else {
        gapSeq := Some(seqNo);
        gapCount := 1;
      }
      if gapCount >= 3 {
        fullResync := true;
        gapCount := 0;
        gapSeq := None;
      }
      DetachAndClose();
      if !closedByUser {
        ScheduleReconnect();
      }
    }

    method HandleAck(id: string, seqNo: nat)
      modifies this
      ensures Model() == Settle(old(Model()), id, Resolved(seqNo))
    {
      if id !in pending {
        return;
      }
      SettlePromise(id, Resolved(seqNo));
    }

    method SettlePromise(id: string, outcome: Outcome)
      requires id in pending
      modifies this
      ensures Model() == Settle(old(Model()), id, outcome)
    {
      pending := pending - {id};
      ForgetCommand(id);
      history := history.(settled := history.settled + [Settlement(id, outcome)], orphaned := history.orphaned - {id});
    }

    method HandleError(id: string, code: string)
      modifies this
      ensures Model() == ClientModel.HandleError(old(Model()), id, code)
    {
      hide IsTerminal;
      if IsTerminal(code) && id == "" {
        error := Some(code);
        closedByUser := true;
        DetachAndClose();
        phase := Unauthorized;
        return;
      }
      if id == "" {
        error := Some(code);
        return;
      }
      if id !in pending {
        return;
      }
      SettlePromise(id, Rejected(code));
    }

    /** Whatever happens to the object is one step of the machine that the run theorems are about. */
    method Perform(input: Input)
      modifies this
      ensures Model() == Step(old(Model()), input)
    {
      hide ClientModel.Connect, ClientModel.Close, ClientModel.Reset, ClientModel.SendCommand, ClientModel.OnTimer,
           ClientModel.OnOpen, ClientModel.OnClose, HandleFrame;
      match input {
        case UserConnects(created) => Connect(created);
        case UserCloses => Close();
        case UserResets => Reset();
        case UserSends(id, request) =>
          if id !in IdsOf(history.issued) {
            var _ := SendCommand(id, request);
          }
        case TimerFires(created) => OnTimer(created);
        case SocketOpens(current) => OnOpen(current);
        case SocketCloses(current, code) => OnClose(current, code);
        case FrameArrives(frame) => HandleEnvelope(frame);
      }
    }

    /** A whole life of the object: a restored position, then anything at all, in any order. */
    method LiveThrough(restored: nat, inputs: seq<Input>)
      requires Model() == Boot(maxItems, 0)
      modifies this
      ensures Model() == Run(Boot(maxItems, restored), inputs)
    {
      hide Step;
      SetLastSeq(restored);
      for i := 0 to |inputs|
        invariant Model() == Run(Boot(maxItems, restored), inputs[..i])
      {
        assert inputs[..i + 1][..i] == inputs[..i];
        Perform(inputs[i]);
      }
      assert inputs[..|inputs|] == inputs;
    }
  }
}
