/** The hub as the object it is: maps and sets under one lock, updated in place by the goroutines that serve
    connections and by the ingest loop, over the event store. Each method is one atomic section, proved
    against the step of the same name; goroutines interleave by calling them in any order. */
module SyncHub {
  import opened Protocol
  import opened Store
  import opened HubModel
  import opened HubStreams
  import opened HubTokens
  import opened HubProvenance

  class Hub {
    const sessionId: string
    const store: Store
    var pending: map<string, PermissionView>
    var pendingQuestions: map<string, QuestionView>
    var idempotency: set<string>
    var clients: set<nat>
    var conns: seq<Conn>
    var ingest: Ingest
    var origins: seq<Origin>
    var calls: seq<Call>
    var lost: set<Card>

    ghost predicate Valid()
      reads this, store
    {
      store.Valid() && sessionId in store.sessions
    }

    ghost function State(): HubModel.Hub
      requires Valid()
      reads this, store
    {
      HubModel.Hub(sessionId, store.Log(sessionId), store.sessions[sessionId].status, pending, pendingQuestions,
                   idempotency, clients, conns, ingest, origins, calls, lost)
    }

    constructor (sessionId: string, store: Store)
      requires store.Valid() && sessionId !in store.sessions
      modifies store
      ensures Valid() && State() == Start(sessionId)
      ensures this.store == store
    {
      this.sessionId := sessionId;
      this.store := store;
      pending, pendingQuestions := map[], map[];
      idempotency, clients, conns, ingest := {}, {}, [], Listening;
      origins, calls, lost := [], [], {};
      new;
      store.CreateSession(sessionId);
    }

    // --- Connection setup ---

    /** A hello under a credential of the device. If it names another device it is refused, and there is no
        connection. */
    method Dial(device: DeviceId, claimed: string, hello: int) returns (accepted: bool)
      requires Valid()
      modifies this`conns
      ensures accepted <==> claimed == "" || claimed == device
      ensures Valid() && State() == if accepted then HubModel.Dial(old(State()), device, hello) else old(State())
    {
      var named := if claimed == "" then device else claimed;
      if named != device {
        return false;
      }
      var n := store.sessions[sessionId].lastSeq;
      conns := conns + [Conn(device, hello, ReadingRow, Waiting, [], false, [], n, 0, 0, 0)];
      return true;
    }

    method ReadRow(c: nat)
      requires Valid()
      modifies this`conns
      ensures Valid() && State() == HubModel.ReadRow(old(State()), c)
    {
      if c < |conns| && conns[c].setup.ReadingRow? {
        var row := store.sessions[sessionId];
        conns := conns[c := conns[c].(setup := ReadingLog(SessionRow(row.status, row.lastSeq)))];
      }
    }

    /** The second read behind a snapshot, and the fold over it. */
    method ReadLog(c: nat) returns (snap: Snapshot)
      requires Valid()
      modifies this`conns
      ensures Valid() && State() == HubModel.ReadLog(old(State()), c, snap)
      ensures c < |old(conns)| && old(conns)[c].setup.ReadingLog? ==> conns[c].setup == ReadingTail(snap)
    {
      if c >= |conns| || !conns[c].setup.ReadingLog? {
        return Snapshot(sessionId, "", "", 0, [], []);
      }
      var events := store.GetEventsSince(sessionId, 0, 0);
      snap := Store.Materialize(sessionId, conns[c].setup.row, events);
      conns := conns[c := conns[c].(setup := ReadingTail(snap), tip := |events|)];
    }

    method ReadTail(c: nat)
      requires Valid()
      modifies this`conns
      ensures Valid() && State() == HubModel.ReadTail(old(State()), c)
    {
      if c < |conns| && conns[c].setup.ReadingTail? {
        var events := store.GetEventsSince(sessionId, conns[c].hello, 0);
        var n := store.sessions[sessionId].lastSeq;
        conns := conns[c := conns[c].(setup := Registering(conns[c].setup.snap, events), caughtUpTo := n)];
      }
    }

    /** Under the lock: join the clients, enqueue the snapshot, then the catch-up one by one. */
    method Register(c: nat, devices: seq<DeviceView>, room: seq<bool>)
      requires Valid()
      modifies this`conns, this`clients
      ensures Valid() && State() == HubModel.Register(old(State()), c, devices, room)
    {
      if c >= |conns| || !conns[c].setup.Registering? {
        return;
      }
      var snap, tail := conns[c].setup.snap, conns[c].setup.tail;
      clients := clients + {c};
      var n := store.sessions[sessionId].lastSeq;
      var first := Offer(Joined(conns[c], n), SnapshotFrame(OnWire(snap, devices)), true);
      var conn := EnqueueAll(first, tail, room);
      conns := conns[c := conn];
    }

    static method EnqueueAll(first: Conn, events: seq<Event>, room: seq<bool>) returns (conn: Conn)
      ensures conn == OfferEvents(first, events, room)
    {
      conn := first;
      for i := 0 to |events|
        invariant conn == OfferEvents(first, events[..i], room)
      {
        assert events[..i + 1][..i] == events[..i];
        conn := Offer(conn, EventFrame(events[i]), i < |room| && room[i]);
      }
      assert events[..|events|] == events;
    }

    method HangUp(c: nat)
      requires Valid()
      modifies this`conns, this`clients
      ensures Valid() && State() == HubModel.HangUp(old(State()), c)
    {
      if c < |conns| && conns[c].work.Waiting? {
        conns := conns[c := conns[c].(setup := Closed)];
        clients := clients - {c};
      }
    }

    // --- Command handling ---

    method Receive(c: nat, command: Command, room: bool)
      requires Valid()
      modifies this`conns
      ensures Valid() && State() == HubModel.Receive(old(State()), c, command, room)
    {
      if c >= |conns| || !conns[c].setup.Serving? || !conns[c].work.Waiting? {
        return;
      }
      if command.id == "" {
        conns := conns[c := Offer(conns[c], ErrorFrame("", "bad_request"), room)];
        return;
      }
      var keyed := command;
      if keyed.idempotencyKey == "" {
        keyed := keyed.(idempotencyKey := keyed.id);
      }
      conns := conns[c := conns[c].(work := Received(keyed))];
    }

    /** Under the lock: check and claim the idempotency key. */
    method Claim(c: nat, room: bool)
      requires Valid()
      modifies this`conns, this`idempotency
      ensures Valid() && State() == HubModel.Claim(old(State()), c, room)
    {
      if c >= |conns| || !conns[c].work.Received? {
        return;
      }
      var command := conns[c].work.command;
      var key := IdempotencyKey(conns[c].device, command.idempotencyKey);
      var seen := key in idempotency;
      if !seen {
        idempotency := idempotency + {key};
      }
      conns := conns[c := if seen then Offer(conns[c].(work := Waiting), AckFrame(command.id, 0), room)
                          else conns[c].(work := Claimed(command))];
    }

    /** Under the lock: check and take the pending entry that the command answers. */
    method Take(c: nat, room: bool)
      requires Valid()
      modifies this`conns, this`pending, this`pendingQuestions
      ensures Valid() && State() == HubModel.Take(old(State()), c, room)
    {
      if c >= |conns| || !conns[c].work.Claimed? {
        return;
      }
      hide HubModel.Refuse, RefusalCode, EventFor, PendingCards, Unfile;
      var command := conns[c].work.command;
      if EventFor(command.request, conns[c].device).None? {
        Refuse(c, RefusalCode(command.request), room);
        return;
      }
      match Answers(command.request) {
        case None =>
        case Some(card) =>
          var taken := Remove(card);
          if taken {
            conns := conns[c := conns[c].(work := Taken(command))];
          } else {
            Refuse(c, "already_resolved", room);
          }
      }
    }

    /** Remove a card from the map that holds it, if it is there. */
    method Remove(card: Card) returns (found: bool)
      requires Valid()
      modifies this`pending, this`pendingQuestions
      ensures found <==> card in PendingCards(old(State()))
      ensures Valid() && State() == if found then Unfile(old(State()), card) else old(State())
    {
      match card {
        case PermissionCard(id) =>
          found := id in pending;
          if found {
            pending := pending - {id};
          }
        case QuestionCard(id) =>
          found := id in pendingQuestions;
          if found {
            pendingQuestions := pendingQuestions - {id};
          }
      }
    }

    method Refuse(c: nat, code: string, room: bool)
      requires Valid() && c < |conns| && !conns[c].work.Waiting?
      modifies this`conns
      ensures Valid() && State() == HubModel.Refuse(old(State()), c, code, room)
    {
      conns := conns[c := Offer(conns[c].(work := Waiting), ErrorFrame(conns[c].work.command.id, code), room)];
    }

    /** One transaction of the store: the command's event, or an error to the client. */
    method AppendCommand(c: nat, ts: int, fault: Fault, room: bool)
      requires Valid()
      modifies this`conns, this`origins, this`lost, store
      ensures Valid() && State() == HubModel.AppendCommand(old(State()), c, ts, fault, room)
    {
      hide EventFor, NextCache, NextEvent, IdempotencyKey, HubModel.Refuse, Answers;
      if c >= |conns| || !ReadyToAppend(conns[c].work, conns[c].device) {
        return;
      }
      var conn := conns[c];
      var command := conn.work.command;
      var stored := store.AppendEvent(sessionId, ts, EventFor(command.request, conn.device).value, fault);
      match stored {
        case Failed =>
          Abandon(c, room);
        case Stored(ev) =>
          conns := conns[c := conn.(work := Logged(command, ev))];
          origins := origins + [FromCommand(IdempotencyKey(conn.device, command.idempotencyKey), conn.device, command)];
      }
    }

    /** The append failed: the client is told, and a card the command had taken is gone from its map. */
    method Abandon(c: nat, room: bool)
      requires Valid() && c < |conns| && !conns[c].work.Waiting?
      modifies this`conns, this`lost
      ensures var request := old(conns[c]).work.command.request;
              Valid() && State() == HubModel.Refuse(old(State()), c, "server_error", room).(
                lost := old(lost) + if Answers(request).Some? then {Answers(request).value} else {})
    {
      var card := Answers(conns[c].work.command.request);
      Refuse(c, "server_error", room);
      if card.Some? {
        lost := lost + {card.value};
      }
    }

    method Acknowledge(c: nat, room: bool)
      requires Valid()
      modifies this`conns
      ensures Valid() && State() == HubModel.Acknowledge(old(State()), c, room)
    {
      if c < |conns| && conns[c].work.Logged? {
        var command, ev := conns[c].work.command, conns[c].work.event;
        conns := conns[c := Offer(conns[c].(work := Acked(command, ev)), AckFrame(command.id, ev.seqNo), room)];
      }
    }

    /** Under the read lock: copy the clients to broadcast to. */
    method CopyClients(c: nat)
      requires Valid()
      modifies this`conns
      ensures Valid() && State() == HubModel.CopyClients(old(State()), c)
    {
      if c < |conns| && conns[c].work.Acked? {
        conns := conns[c := conns[c].(work := FanningOut(conns[c].work.command, conns[c].work.event, clients))];
      }
    }

    method Fan(c: nat, target: nat, room: bool)
      requires Valid()
      modifies this`conns
      ensures Valid() && State() == HubModel.Fan(old(State()), c, target, room)
    {
      if c >= |conns| || target >= |conns| || !conns[c].work.FanningOut? || target !in conns[c].work.targets {
        return;
      }
      var work := conns[c].work;
      conns := conns[c := conns[c].(work := work.(targets := work.targets - {target}))];
      conns := conns[target := Offer(conns[target], EventFrame(work.event), room)];
    }

    method Forward(c: nat, accepted: bool, room: bool)
      requires Valid()
      modifies this`conns, this`calls
      ensures Valid() && State() == HubModel.Forward(old(State()), c, accepted, room)
    {
      if c >= |conns| || !conns[c].work.FanningOut? || conns[c].work.targets != {} {
        return;
      }
      var command, ev := conns[c].work.command, conns[c].work.event;
      calls := calls + [Call(IdempotencyKey(conns[c].device, command.idempotencyKey), ev.seqNo, command.request)];
      if accepted {
        conns := conns[c := conns[c].(work := Waiting)];
      } else {
        Refuse(c, "agent_error", room);
      }
    }

    // --- Ingest ---

    /** An event the store refuses is dropped. */
    method AgentEmits(ts: int, body: Body, fault: Fault)
      requires Valid()
      modifies this`ingest, this`origins, store
      ensures Valid() && State() == HubModel.AgentEmits(old(State()), ts, body, fault)
    {
      hide NextCache, NextEvent;
      if !ingest.Listening? || Closes(body).Some? {
        return;
      }
      var stored := store.AppendEvent(sessionId, ts, body, fault);
      if stored.Stored? {
        ingest := Appended(stored.event);
        origins := origins + [FromAgent];
      }
    }

    /** Under the lock: a request or a question becomes pending. */
    method FileRequest()
      requires Valid()
      modifies this`ingest, this`pending, this`pendingQuestions
      ensures Valid() && State() == HubModel.FileRequest(old(State()))
    {
      hide HubModel.File;
      if !ingest.Appended? {
        return;
      }
      File(ingest.event.body);
      ingest := Filed(ingest.event);
    }

    method File(body: Body)
      requires Valid()
      modifies this`pending, this`pendingQuestions
      ensures Valid() && State() == HubModel.File(old(State()), body)
    {
      match body {
        case PermissionRequest(id, kind, summary) => pending := pending[id := PermissionView(id, kind, summary)];
        case QuestionAsked(id, text) => pendingQuestions := pendingQuestions[id := QuestionView(id, text)];
        case _ =>
      }
    }

    method CopyForIngest()
      requires Valid()
      modifies this`ingest
      ensures Valid() && State() == HubModel.CopyForIngest(old(State()))
    {
      if ingest.Filed? {
        ingest := Spreading(ingest.event, clients);
      }
    }

    /** Enqueue the event for every copied client, in any order, and listen again. Handlers and setups may
        run between two enqueues; here none does. */
    method Broadcast(room: map<nat, bool>)
      requires Valid() && ingest.Spreading? && forall t :: t in ingest.targets ==> t < |conns|
      modifies this`ingest, this`conns
      ensures Valid() && ingest.Listening?
      ensures |conns| == |old(conns)|
      ensures forall t :: 0 <= t < |conns| ==>
                conns[t] == if t in old(ingest.targets)
                            then Offer(old(conns[t]), EventFrame(old(ingest.event)), t in room && room[t])
                            else old(conns[t])
      ensures State() == old(State()).(conns := conns, ingest := Listening)
    {
      var ev, targets := ingest.event, ingest.targets;
      while targets != {}
        invariant Valid() && targets <= old(ingest.targets) && |conns| == |old(conns)|
        invariant State() == old(State()).(conns := conns, ingest := ingest)
        invariant forall t :: 0 <= t < |conns| ==>
                    conns[t] == if t in old(ingest.targets) - targets
                                then Offer(old(conns[t]), EventFrame(ev), t in room && room[t])
                                else old(conns[t])
        decreases |targets|
      {
        var t :| t in targets;
        targets := targets - {t};
        conns := conns[t := Offer(conns[t], EventFrame(ev), t in room && room[t])];
      }
      ingest := Listening;
    }

    method Spread(target: nat, room: bool)
      requires Valid()
      modifies this`ingest, this`conns
      ensures Valid() && State() == HubModel.Spread(old(State()), target, room)
    {
      if ingest.Spreading? && target in ingest.targets && target < |conns| {
        conns := conns[target := Offer(conns[target], EventFrame(ingest.event), room)];
        ingest := Spreading(ingest.event, ingest.targets - {target});
      }
    }

    method Listen()
      requires Valid()
      modifies this`ingest
      ensures Valid() && State() == HubModel.Listen(old(State()))
    {
      if ingest.Spreading? && ingest.targets == {} {
        ingest := Listening;
      }
    }

    /** Whatever a goroutine does next is one step of the machine that the run theorems are about. Which
        snapshot a read of the log yields is up to the hub. */
    method Perform(step: Step) returns (done: Step)
      requires Valid()
      modifies this, store
      ensures Valid() && State() == Next(old(State()), done)
      ensures IsDoing(done, step)
    {
      hide Next;
      done := step;
      if IsSetup(step) {
        done := PerformSetup(step);
      } else if IsCommand(step) {
        PerformCommand(step);
      } else {
        PerformIngest(step);
      }
    }

    method PerformSetup(step: Step) returns (done: Step)
      requires Valid() && IsSetup(step)
      modifies this`conns, this`clients
      ensures Valid() && State() == Next(old(State()), done)
      ensures IsDoing(done, step)
    {
      hide HubModel.Dial, HubModel.ReadRow, HubModel.ReadLog, HubModel.ReadTail, HubModel.Register, HubModel.HangUp;
      done := step;
      match step {
        case DialStep(device, hello) => var _ := Dial(device, device, hello);
        case ReadRowStep(c) => ReadRow(c);
        case ReadLogStep(c, _) =>
          var snap := ReadLog(c);
          done := ReadLogStep(c, snap);
        case ReadTailStep(c) => ReadTail(c);
        case RegisterStep(c, devices, rooms) => Register(c, devices, rooms);
        case HangUpStep(c) => HangUp(c);
      }
    }

    method PerformCommand(step: Step)
      requires Valid() && IsCommand(step)
      modifies this, store
      ensures Valid() && State() == Next(old(State()), step)
    {
      hide HubModel.Receive, HubModel.Claim, HubModel.Take, HubModel.AppendCommand, HubModel.Acknowledge,
           HubModel.CopyClients, HubModel.Fan, HubModel.Forward;
      match step {
        case ReceiveStep(c, command, room) => Receive(c, command, room);
        case ClaimStep(c, room) => Claim(c, room);
        case TakeStep(c, room) => Take(c, room);
        case AppendStep(c, ts, fault, room) => AppendCommand(c, ts, fault, room);
        case AckStep(c, room) => Acknowledge(c, room);
        case CopyStep(c) => CopyClients(c);
        case FanStep(c, target, room) => Fan(c, target, room);
        case ForwardStep(c, accepted, room) => Forward(c, accepted, room);
      }
    }

    method PerformIngest(step: Step)
      requires Valid() && !IsSetup(step) && !IsCommand(step)
      modifies this, store
      ensures Valid() && State() == Next(old(State()), step)
    {
      hide HubModel.AgentEmits, HubModel.FileRequest, HubModel.CopyForIngest, HubModel.Spread, HubModel.Listen;
      match step {
        case EmitStep(ts, body, fault) => AgentEmits(ts, body, fault);
        case FileStep => FileRequest();
        case IngestCopyStep => CopyForIngest();
        case SpreadStep(target, room) => Spread(target, room);
        case ListenStep => Listen();
      }
    }

    /** A whole life of the object: its goroutines' steps interleaved in any order are a run, and so it keeps
        what every run keeps. */
    method LiveThrough(steps: seq<Step>) returns (done: seq<Step>)
      requires Valid() && State() == Start(sessionId)
      modifies this, store
      ensures Valid() && State() == Exec(Start(sessionId), done)
      ensures |done| == |steps| && forall i :: 0 <= i < |steps| ==> IsDoing(done[i], steps[i])
      ensures Sound(State()) && Honest(State())
      ensures forall key :: KeyBalance(State(), key)
      ensures forall card :: CardBalance(State(), card)
    {
      hide Next, Sound, Honest, KeyBalance, CardBalance;
      done := [];
      for i := 0 to |steps|
        invariant Valid() && |done| == i && State() == Exec(Start(sessionId), done)
        invariant forall k :: 0 <= k < i ==> IsDoing(done[k], steps[k])
      {
        var step := Perform(steps[i]);
        assert (done + [step])[..|done|] == done;
        done := done + [step];
      }
      HubStaysSound(sessionId, done);
      HubStaysHonest(sessionId, done);
      forall key
        ensures KeyBalance(State(), key)
      {
        AtMostOnce(sessionId, done, key);
      }
      forall card
        ensures CardBalance(State(), card)
      {
        FirstWriteWins(sessionId, done, card);
      }
    }
  }

  /** The steps of a connection's setup and end. */
  predicate IsSetup(step: Step) {
    step.DialStep? || step.ReadRowStep? || step.ReadLogStep? || step.ReadTailStep? || step.RegisterStep? ||
    step.HangUpStep?
  }

  /** The steps of a command's handler. */
  predicate IsCommand(step: Step) {
    step.ReceiveStep? || step.ClaimStep? || step.TakeStep? || step.AppendStep? || step.AckStep? || step.CopyStep? ||
    step.FanStep? || step.ForwardStep?
  }

  /** The same step, except that a read of the log may have yielded another listing of the snapshot. */
  predicate IsDoing(done: Step, step: Step) {
    done == step || (done.ReadLogStep? && step.ReadLogStep? && done.c == step.c)
  }
}
