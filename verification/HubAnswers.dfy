/** What the hub says to a hello and to a command, and why; and that every command it receives is answered. */
module HubAnswers {
  import opened Protocol
  import opened Store
  import opened HubModel
  import opened HubTokens
  import opened HubFrames
  import opened HubReach
  import opened HubProgress

  // --- Hellos ---

  /** A connection is for the device and the position that its hello named; its first frame lists the devices. */
  lemma HelloIsHeard(h: Hub, device: DeviceId, hello: int, c: nat, devices: seq<DeviceView>, room: seq<bool>)
    ensures var d := Dial(h, device, hello);
            |d.conns| == |h.conns| + 1 && d.conns[..|h.conns|] == h.conns &&
            d.conns[|h.conns|].device == device && d.conns[|h.conns|].hello == hello
    ensures c < |h.conns| && h.conns[c].setup.Registering? ==>
              var offered := Register(h, c, devices, room).conns[c].offered;
              |offered| > |h.conns[c].offered| && offered[|h.conns[c].offered|].SnapshotFrame? &&
              offered[|h.conns[c].offered|].snapshot.devices == devices
  {
    hide OfferEvents;
    if c < |h.conns| && h.conns[c].setup.Registering? {
      var conn := h.conns[c];
      var frame := SnapshotFrame(OnWire(conn.setup.snap, devices));
      OfferEventsEffect(Offer(Joined(conn, |h.log|), frame, true), conn.setup.tail, room);
    }
  }

  // --- Which answer ---

  /** The same connection, with one more frame offered. */
  predicate Said(a: Conn, b: Conn, frame: Frame) {
    b.offered == a.offered + [frame]
  }

  /** A command without an id is turned down at once; any other is taken up under its own key, or its id. */
  lemma ReceivedAs(h: Hub, c: nat, command: Command, room: bool)
    requires c < |h.conns| && h.conns[c].setup.Serving? && h.conns[c].work.Waiting?
    ensures c < |Receive(h, c, command, room).conns|
    ensures var b := Receive(h, c, command, room).conns[c];
            if command.id == "" then b.work.Waiting? && Said(h.conns[c], b, ErrorFrame("", "bad_request"))
            else
              b.work.Received? && b.offered == h.conns[c].offered && b.work.command.id == command.id &&
              b.work.command.request == command.request &&
              b.work.command.idempotencyKey ==
              (if command.idempotencyKey != "" then command.idempotencyKey else command.id)
  {
  }

  /** A key that was seen before gets the ack without a number. */
  lemma ReplayIsAcked(h: Hub, c: nat, room: bool)
    requires c < |h.conns| && h.conns[c].work.Received?
    ensures c < |Claim(h, c, room).conns|
    ensures var a, b := h.conns[c], Claim(h, c, room).conns[c];
            if KeyOf(a, a.work.command) in h.idempotency
            then b.work.Waiting? && Said(a, b, AckFrame(a.work.command.id, 0))
            else b.work == Claimed(a.work.command) && b.offered == a.offered
  {
    hide IdempotencyKey;
  }

  /** A claimed command is turned down exactly if the host cannot use it, or it answers a card that is not pending,
      and is told which. */
  lemma TurnedDownWhy(h: Hub, c: nat, room: bool)
    requires c < |h.conns| && h.conns[c].work.Claimed?
    ensures c < |Take(h, c, room).conns|
    ensures var a, b := h.conns[c], Take(h, c, room).conns[c];
            var request, card := a.work.command.request, Answers(a.work.command.request);
            if Usable(request) && (card.Some? ==> card.value in PendingCards(h))
            then b.work == (if card.Some? then Taken(a.work.command) else a.work) && b.offered == a.offered
            else b.work.Waiting? && Said(a, b, ErrorFrame(a.work.command.id,
                   if request.Unsupported? then "unsupported_command"
                   else if !Usable(request) then "bad_request" else "already_resolved"))
  {
    hide PendingCards;
  }

  /** The append logs the command, or its failure is told. */
  lemma AppendFailureIsTold(h: Hub, c: nat, ts: int, fault: Fault, room: bool)
    requires c < |h.conns| && ReadyToAppend(h.conns[c].work, h.conns[c].device)
    ensures var a, d := h.conns[c], AppendCommand(h, c, ts, fault, room);
            c < |d.conns| &&
            var b := d.conns[c];
            if fault.Refused?
            then d.log == h.log && b.work.Waiting? && Said(a, b, ErrorFrame(a.work.command.id, "server_error"))
            else |d.log| == |h.log| + 1 && b.work == Logged(a.work.command, d.log[|h.log|]) && b.offered == a.offered
  {
    hide EventFor, NextCache, IdempotencyKey;
  }

  /** A failure of the agent is told, and nothing else about a call is. */
  lemma AgentFailureIsTold(h: Hub, c: nat, accepted: bool, room: bool)
    requires c < |h.conns| && h.conns[c].work.FanningOut? && h.conns[c].work.targets == {}
    ensures var a, b := h.conns[c], Forward(h, c, accepted, room).conns[c];
            b.work.Waiting? &&
            if accepted then b.offered == a.offered
            else Said(a, b, ErrorFrame(a.work.command.id, "agent_error"))
  {
    hide IdempotencyKey;
  }

  // --- Every command ---

  predicate Names(frame: Frame, id: string) {
    (frame.AckFrame? || frame.ErrorFrame?) && frame.commandId == id
  }

  /** From the given frame on, some ack or error offered to the connection names the command. */
  predicate AnsweredFrom(conn: Conn, from: nat, id: string) {
    exists j :: from <= j < |conn.offered| && Names(conn.offered[j], id)
  }

  predicate InHand(work: Work, id: string) {
    Unacked(work) && work.command.id == id
  }

  predicate AnswersOrWill(conn: Conn, from: nat, id: string) {
    from <= |conn.offered| && (InHand(conn.work, id) || AnsweredFrom(conn, from, id))
  }

  lemma SaidAnswers(a: Conn, b: Conn, frame: Frame, from: nat, id: string)
    requires Said(a, b, frame) && Names(frame, id) && from <= |a.offered|
    ensures AnswersOrWill(b, from, id)
  {
    assert b.offered[|a.offered|] == frame;
  }

  lemma AckAnswers(h: Hub, c: nat, room: bool)
    requires c < |h.conns| && h.conns[c].work.Logged?
    ensures c < |Acknowledge(h, c, room).conns|
    ensures var a, b := h.conns[c], Acknowledge(h, c, room).conns[c];
            Said(a, b, AckFrame(a.work.command.id, a.work.event.seqNo))
  {
  }

  /** A step of the handler at the wrong moment does nothing. */
  lemma OwnStepWaits(h: Hub, step: Step, c: nat)
    requires c < |h.conns| && Unacked(h.conns[c].work) && OwnStep(step, c)
    requires step.ClaimStep? ==> !h.conns[c].work.Received?
    requires step.TakeStep? ==> !h.conns[c].work.Claimed?
    requires step.AppendStep? ==> !ReadyToAppend(h.conns[c].work, h.conns[c].device)
    requires step.AckStep? ==> !h.conns[c].work.Logged?
    ensures Next(h, step) == h
  {
    hide ReadyToAppend, PendingCards, EventFor, IdempotencyKey, NextCache, NextEvent;
  }

  lemma OwnStepAnswers(h: Hub, step: Step, c: nat, from: nat, id: string)
    requires c < |h.conns| && InHand(h.conns[c].work, id) && OwnStep(step, c) && from <= |h.conns[c].offered|
    ensures c < |Next(h, step).conns| && AnswersOrWill(Next(h, step).conns[c], from, id)
  {
    hide Claim, Take, AppendCommand, Acknowledge, ReadyToAppend, PendingCards, IdempotencyKey, AnsweredFrom;
    var a := h.conns[c];
    if step.ClaimStep? && a.work.Received? {
      ReplayIsAcked(h, c, step.room);
      var b := Next(h, step).conns[c];
      if b.work.Waiting? {
        SaidAnswers(a, b, AckFrame(id, 0), from, id);
      }
    } else if step.TakeStep? && a.work.Claimed? {
      TurnedDownWhy(h, c, step.room);
      var b := Next(h, step).conns[c];
      if b.work.Waiting? {
        SaidAnswers(a, b, b.offered[|b.offered| - 1], from, id);
      }
    } else if step.AppendStep? && ReadyToAppend(a.work, a.device) {
      AppendFailureIsTold(h, c, step.ts, step.fault, step.room);
      var b := Next(h, step).conns[c];
      if step.fault.Refused? {
        SaidAnswers(a, b, ErrorFrame(id, "server_error"), from, id);
      }
    } else if step.AckStep? && a.work.Logged? {
      AckAnswers(h, c, step.room);
      SaidAnswers(a, Next(h, step).conns[c], AckFrame(id, a.work.event.seqNo), from, id);
    } else {
      OwnStepWaits(h, step, c);
    }
  }

  lemma AnswersStep(h: Hub, step: Step, c: nat, from: nat, id: string)
    requires c < |h.conns| && AnswersOrWill(h.conns[c], from, id)
    ensures c < |Next(h, step).conns| && AnswersOrWill(Next(h, step).conns[c], from, id)
  {
    hide Next, Unacked, Handed, Names;
    StepFollows(h, step);
    var a, b := h.conns[c], Next(h, step).conns[c];
    assert ConnFollows(a, b, Handed(h, step, a.device));
    if AnsweredFrom(a, from, id) {
      var j :| from <= j < |a.offered| && Names(a.offered[j], id);
      assert b.offered[j] == a.offered[j];
    } else if OwnStep(step, c) {
      OwnStepAnswers(h, step, c, from, id);
    } else {
      UnackedLeft(h, step, c);
    }
  }

  /** In every interleaving, every command that a connection has received is in its handler's hands, or was answered
      since with an ack or an error that names it. */
  lemma {:induction false} EveryCommandIsAnswered(
    sessionId: string, steps: seq<Step>, i: nat, c: nat, command: Command, room: bool)
    requires i < |steps| && steps[i] == ReceiveStep(c, command, room)
    requires var h := Exec(Start(sessionId), steps[..i]);
             c < |h.conns| && h.conns[c].setup.Serving? && h.conns[c].work.Waiting?
    ensures var h, d := Exec(Start(sessionId), steps[..i]), Exec(Start(sessionId), steps);
            c < |d.conns| && AnswersOrWill(d.conns[c], |h.conns[c].offered|, command.id)
  {
    hide Next, AnswersOrWill;
    var n := |steps| - 1;
    var h := Exec(Start(sessionId), steps[..i]);
    if i == n {
      ReceivedStep(h, c, command, room);
    } else {
      assert steps[..n][..i] == steps[..i];
      EveryCommandIsAnswered(sessionId, steps[..n], i, c, command, room);
      AnswersStep(Exec(Start(sessionId), steps[..n]), steps[n], c, |h.conns[c].offered|, command.id);
    }
  }

  lemma ReceivedStep(h: Hub, c: nat, command: Command, room: bool)
    requires c < |h.conns| && h.conns[c].setup.Serving? && h.conns[c].work.Waiting?
    ensures var d := Next(h, ReceiveStep(c, command, room));
            c < |d.conns| && AnswersOrWill(d.conns[c], |h.conns[c].offered|, command.id)
  {
    hide Receive, AnswersOrWill, Said;
    ReceivedAs(h, c, command, room);
    var b := Next(h, ReceiveStep(c, command, room)).conns[c];
    if command.id == "" {
      SaidAnswers(h.conns[c], b, ErrorFrame("", "bad_request"), |h.conns[c].offered|, "");
    } else {
      InHandWill(b, |h.conns[c].offered|, command.id);
    }
  }

  lemma InHandWill(conn: Conn, from: nat, id: string)
    requires from <= |conn.offered| && InHand(conn.work, id)
    ensures AnswersOrWill(conn, from, id)
  {
  }
}
