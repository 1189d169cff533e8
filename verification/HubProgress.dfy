/** What the goroutines get done when nothing disturbs them: a usable command is logged, acked, offered to every
    client and handed to the agent; an agent's event is logged, filed and offered to every client. */
module HubProgress {
  import opened Protocol
  import opened Store
  import opened HubModel
  import opened HubTokens
  import opened HubProvenance
  import opened HubReach

  lemma Push(h: Hub, steps: seq<Step>, step: Step) returns (longer: seq<Step>)
    ensures Exec(h, longer) == Next(Exec(h, steps), step)
  {
    longer := steps + [step];
    assert longer[..|steps|] == steps;
  }

  /** A request the host can act on. */
  predicate Usable(request: Request) {
    !request.BadPayload? && !request.Unsupported? && (request.SetMode? ==> request.mode != "")
  }

  /** The connections are the same up to what they were offered, and their queues took all of it in order. */
  predicate OnlyOffered(a: seq<Conn>, b: seq<Conn>) {
    |a| == |b| &&
    forall t :: 0 <= t < |a| ==>
      b[t] == a[t].(queue := b[t].queue, offered := b[t].offered, work := b[t].work) && a[t].queue <= b[t].queue
  }

  // --- A broadcast ---

  /** Connection c's handler has offered the event to all that it copied, and changed nothing else. */
  ghost predicate FannedOut(h: Hub, d: Hub, c: nat)
    requires c < |h.conns| && h.conns[c].work.FanningOut?
  {
    var work := h.conns[c].work;
    OnlyOffered(h.conns, d.conns) && d == h.(conns := d.conns) &&
    d.conns[c].work == work.(targets := {}) &&
    forall t :: t in work.targets && t < |h.conns| ==> EventFrame(work.event) in d.conns[t].queue
  }

  lemma FanOne(h: Hub, c: nat, t: nat)
    requires c < |h.conns| && h.conns[c].work.FanningOut? && t in h.conns[c].work.targets && t < |h.conns|
    ensures var d := Fan(h, c, t, true);
            OnlyOffered(h.conns, d.conns) && d == h.(conns := d.conns) &&
            d.conns[c].work == h.conns[c].work.(targets := h.conns[c].work.targets - {t}) &&
            EventFrame(h.conns[c].work.event) in d.conns[t].queue
  {
    var d := Fan(h, c, t, true);
    assert d.conns[t].queue[|d.conns[t].queue| - 1] == EventFrame(h.conns[c].work.event);
  }

  lemma OnlyOfferedTwice(a: seq<Conn>, b: seq<Conn>, d: seq<Conn>)
    requires OnlyOffered(a, b) && OnlyOffered(b, d)
    ensures OnlyOffered(a, d)
  {
  }

  lemma FanAll(start: Hub, before: seq<Step>, c: nat) returns (steps: seq<Step>)
    requires var h := Exec(start, before);
             c < |h.conns| && h.conns[c].work.FanningOut? && forall t :: t in h.conns[c].work.targets ==> t < |h.conns|
    ensures FannedOut(Exec(start, before), Exec(start, steps), c)
    decreases Exec(start, before).conns[c].work.targets
  {
    hide Exec, Fan;
    var h := Exec(start, before);
    if h.conns[c].work.targets == {} {
      return before;
    }
    var t :| t in h.conns[c].work.targets;
    var next := Push(start, before, FanStep(c, t, true));
    FanOne(h, c, t);
    var d := Exec(start, next);
    assert d == Fan(h, c, t, true);
    steps := FanAll(start, next, c);
    OnlyOfferedTwice(h.conns, d.conns, Exec(start, steps).conns);
  }

  // --- A command ---

  /** Connection c has logged, and acked, the command's event, and nothing else has happened. */
  ghost predicate LoggedAndAcked(h: Hub, d: Hub, c: nat, command: Command, ts: int)
    requires c < |h.conns|
  {
    |d.log| == |h.log| + 1 && d.log[..|h.log|] == h.log && d.log[|h.log|].seqNo == |h.log| + 1 &&
    d.log[|h.log|].ts == ts && Tells(d.log[|h.log|].body, command.request, h.conns[c].device) &&
    OnlyOffered(h.conns, d.conns) && AckFrame(command.id, |h.log| + 1) in d.conns[c].queue &&
    d.conns[c].work == Acked(Keyed(command), d.log[|h.log|]) &&
    d.clients == h.clients && d.calls == h.calls && d.ingest == h.ingest &&
    (Answers(command.request).Some? ==> Answers(command.request).value !in PendingCards(d))
  }

  /** The handler has claimed the key and, for an answer, taken the card. */
  ghost predicate ReadyFor(h: Hub, d: Hub, c: nat, command: Command)
    requires c < |h.conns|
  {
    d == h.(conns := d.conns, idempotency := d.idempotency, pending := d.pending,
            pendingQuestions := d.pendingQuestions) &&
    OnlyOffered(h.conns, d.conns) && ReadyToAppend(d.conns[c].work, h.conns[c].device) &&
    d.conns[c].work.command == Keyed(command) &&
    (Answers(command.request).Some? ==> Answers(command.request).value !in PendingCards(d))
  }

  lemma ClaimAndTake(h: Hub, c: nat, command: Command)
    requires c < |h.conns| && h.conns[c].setup.Serving? && h.conns[c].work.Waiting? && command.id != ""
    requires Usable(command.request) && KeyOf(h.conns[c], Keyed(command)) !in h.idempotency
    requires Answers(command.request).Some? ==> Answers(command.request).value in PendingCards(h)
    ensures ReadyFor(h, Take(Claim(Receive(h, c, command, true), c, true), c, true), c, command)
  {
    hide IdempotencyKey, PendingCards, Unfile;
    var h1 := Receive(h, c, command, true);
    var h2 := Claim(h1, c, true);
    assert h2.conns[c].work == Claimed(Keyed(command));
    SamePending(h, h2);
    if Answers(command.request).Some? {
      var card := Answers(command.request).value;
      var h3 := WithConn(h2, c, h2.conns[c].(work := Taken(Keyed(command))));
      SamePending(h2, h3);
      UnfileRemoves(h3, card, card);
      UnfileOnlyMaps(h3, card);
    }
  }

  lemma UnfileOnlyMaps(h: Hub, card: Card)
    ensures Unfile(h, card) ==
            h.(pending := Unfile(h, card).pending, pendingQuestions := Unfile(h, card).pendingQuestions)
  {
  }

  lemma LogAndAck(h: Hub, d: Hub, c: nat, command: Command, ts: int)
    requires c < |h.conns| && ReadyFor(h, d, c, command)
    ensures LoggedAndAcked(h, Acknowledge(AppendCommand(d, c, ts, NoFault, true), c, true), c, command, ts)
  {
    hide IdempotencyKey, PendingCards, EventFor, Tells, Keyed, NextCache;
    var device := h.conns[c].device;
    var body := EventFor(Keyed(command).request, device).value;
    KeyedKeepsRequest(command);
    EventTells(command.request, device, body);
    var e := AppendCommand(d, c, ts, NoFault, true);
    var f := Acknowledge(e, c, true);
    SamePending(d, f);
    assert f.conns[c].queue[|f.conns[c].queue| - 1] == AckFrame(command.id, |h.log| + 1);
  }

  lemma KeyedKeepsRequest(command: Command)
    ensures Keyed(command).request == command.request && Keyed(command).id == command.id
  {
  }

  /** What an undisturbed handler gets done. */
  ghost predicate CommandDone(h: Hub, d: Hub, c: nat, command: Command, ts: int)
    requires c < |h.conns|
  {
    |d.log| == |h.log| + 1 && d.log[..|h.log|] == h.log && d.log[|h.log|].seqNo == |h.log| + 1 &&
    d.log[|h.log|].ts == ts && Tells(d.log[|h.log|].body, command.request, h.conns[c].device) &&
    c < |d.conns| == |h.conns| && d.conns[c].work.Waiting? &&
    AckFrame(command.id, |h.log| + 1) in d.conns[c].queue &&
    (forall t :: t in h.clients && t < |d.conns| ==> EventFrame(d.log[|h.log|]) in d.conns[t].queue) &&
    d.calls == h.calls + [Call(KeyOf(h.conns[c], Keyed(command)), |h.log| + 1, command.request)] &&
    (Answers(command.request).Some? ==> Answers(command.request).value !in PendingCards(d))
  }

  lemma ForwardDone(h: Hub, e: Hub, f: Hub, c: nat, command: Command, ts: int)
    requires c < |h.conns| && ServingAreClients(h) && LoggedAndAcked(h, e, c, command, ts)
    requires CopyClients(e, c).conns[c].work.FanningOut? && FannedOut(CopyClients(e, c), f, c)
    ensures CommandDone(h, Forward(f, c, true, true), c, command, ts)
  {
    hide IdempotencyKey, PendingCards, Tells, Keyed;
    KeyedKeepsRequest(command);
    SamePending(e, f);
    SamePending(f, Forward(f, c, true, true));
    OnlyOfferedTwice(h.conns, e.conns, CopyClients(e, c).conns);
    OnlyOfferedTwice(h.conns, CopyClients(e, c).conns, f.conns);
  }

  /** The connection is served and idle, and the command is one the host can act on now. */
  predicate CanRun(h: Hub, c: nat, command: Command) {
    c < |h.conns| && h.conns[c].setup.Serving? && h.conns[c].work.Waiting? &&
    command.id != "" && Usable(command.request) && KeyOf(h.conns[c], Keyed(command)) !in h.idempotency &&
    (Answers(command.request).Some? ==> Answers(command.request).value in PendingCards(h))
  }

  lemma RunToAck(start: Hub, before: seq<Step>, c: nat, command: Command, ts: int) returns (steps: seq<Step>)
    requires CanRun(Exec(start, before), c, command)
    ensures LoggedAndAcked(Exec(start, before), Exec(start, steps), c, command, ts)
  {
    hide Exec, Receive, Claim, Take, AppendCommand, Acknowledge, IdempotencyKey, PendingCards, Keyed, ReadyFor,
         LoggedAndAcked;
    var h := Exec(start, before);
    ClaimAndTake(h, c, command);
    steps := Push(start, before, ReceiveStep(c, command, true));
    steps := Push(start, steps, ClaimStep(c, true));
    steps := Push(start, steps, TakeStep(c, true));
    LogAndAck(h, Exec(start, steps), c, command, ts);
    steps := Push(start, steps, AppendStep(c, ts, NoFault, true));
    steps := Push(start, steps, AckStep(c, true));
  }

  /** From any state in which the connection is served and idle, a usable command under an unclaimed key, whose card
      is pending if it answers one, can run through: it is logged as sent, acked with its number, offered to every
      client, handed to the agent once, and its card is gone. */
  lemma CommandRunsThrough(start: Hub, before: seq<Step>, c: nat, command: Command, ts: int)
    returns (steps: seq<Step>)
    requires ServingAreClients(Exec(start, before)) && CanRun(Exec(start, before), c, command)
    ensures CommandDone(Exec(start, before), Exec(start, steps), c, command, ts)
  {
    hide Exec, CopyClients, Forward, CanRun, LoggedAndAcked, CommandDone, FannedOut, ServingAreClients;
    var h := Exec(start, before);
    assert c < |h.conns| by { RunnableIsConn(h, c, command); }
    steps := RunToAck(start, before, c, command, ts);
    var e := Exec(start, steps);
    Copied(h, e, c, command, ts);
    steps := Push(start, steps, CopyStep(c));
    steps := FanAll(start, steps, c);
    ForwardDone(h, e, Exec(start, steps), c, command, ts);
    steps := Push(start, steps, ForwardStep(c, true, true));
  }

  lemma RunnableIsConn(h: Hub, c: nat, command: Command)
    requires CanRun(h, c, command)
    ensures c < |h.conns|
  {
    hide PendingCards;
  }

  lemma Copied(h: Hub, e: Hub, c: nat, command: Command, ts: int)
    requires c < |h.conns| && ServingAreClients(h) && LoggedAndAcked(h, e, c, command, ts)
    ensures var f := CopyClients(e, c);
            c < |f.conns| && f.conns[c].work.FanningOut? && forall t :: t in f.conns[c].work.targets ==> t < |f.conns|
  {
    hide Tells, PendingCards;
  }

  // --- An agent's event ---

  /** What the ingest loop gets done, undisturbed. */
  ghost predicate EventDone(h: Hub, d: Hub, ts: int, body: Body) {
    d.log == h.log + [Event(|h.log| + 1, ts, body)] && d.ingest.Listening? && |d.conns| == |h.conns| &&
    (forall t :: t in h.clients && t < |d.conns| ==> EventFrame(d.log[|h.log|]) in d.conns[t].queue) &&
    (Opens(body).Some? ==> Opens(body).value in PendingCards(d))
  }

  /** The ingest loop has offered its event to all that it copied, and changed nothing else. */
  ghost predicate SpreadOut(h: Hub, d: Hub)
    requires h.ingest.Spreading?
  {
    OnlyOffered(h.conns, d.conns) && d == h.(conns := d.conns, ingest := Spreading(h.ingest.event, {})) &&
    forall t :: t in h.ingest.targets && t < |h.conns| ==> EventFrame(h.ingest.event) in d.conns[t].queue
  }

  lemma SpreadOne(h: Hub, t: nat)
    requires h.ingest.Spreading? && t in h.ingest.targets && t < |h.conns|
    ensures var d := Spread(h, t, true);
            OnlyOffered(h.conns, d.conns) && EventFrame(h.ingest.event) in d.conns[t].queue &&
            d == h.(conns := d.conns, ingest := Spreading(h.ingest.event, h.ingest.targets - {t}))
  {
    var d := Spread(h, t, true);
    assert d.conns[t].queue[|d.conns[t].queue| - 1] == EventFrame(h.ingest.event);
  }

  lemma SpreadAll(start: Hub, before: seq<Step>) returns (steps: seq<Step>)
    requires var h := Exec(start, before); h.ingest.Spreading? && forall t :: t in h.ingest.targets ==> t < |h.conns|
    ensures SpreadOut(Exec(start, before), Exec(start, steps))
    decreases Exec(start, before).ingest.targets
  {
    hide Exec, Spread;
    var h := Exec(start, before);
    if h.ingest.targets == {} {
      return before;
    }
    var t :| t in h.ingest.targets;
    var next := Push(start, before, SpreadStep(t, true));
    SpreadOne(h, t);
    var d := Exec(start, next);
    assert d == Spread(h, t, true);
    steps := SpreadAll(start, next);
    OnlyOfferedTwice(h.conns, d.conns, Exec(start, steps).conns);
  }

  lemma EmitAndFile(h: Hub, ts: int, body: Body)
    requires h.ingest.Listening? && Closes(body).None? && ServingAreClients(h)
    ensures var e := CopyForIngest(FileRequest(AgentEmits(h, ts, body, NoFault)));
            var ev := Event(|h.log| + 1, ts, body);
            e.log == h.log + [ev] && e.conns == h.conns && e.ingest == Spreading(ev, h.clients) &&
            (Opens(body).Some? ==> Opens(body).value in PendingCards(e))
  {
    hide PendingCards, NextCache;
    var d := AgentEmits(h, ts, body, NoFault);
    if Opens(body).Some? {
      FileAdds(d, body, Opens(body).value);
      SamePending(File(d, body), CopyForIngest(FileRequest(d)));
    }
  }

  /** From any state in which the ingest loop listens, an event of the agent can run through: it is logged, what it
      asks for becomes pending, and every client is offered it. */
  lemma EventRunsThrough(start: Hub, before: seq<Step>, ts: int, body: Body) returns (steps: seq<Step>)
    requires var h := Exec(start, before); h.ingest.Listening? && Closes(body).None? && ServingAreClients(h)
    ensures EventDone(Exec(start, before), Exec(start, steps), ts, body)
  {
    hide Exec, AgentEmits, FileRequest, CopyForIngest, PendingCards, Closes, Opens;
    var h := Exec(start, before);
    EmitAndFile(h, ts, body);
    steps := Push(start, before, EmitStep(ts, body, NoFault));
    steps := Push(start, steps, FileStep);
    steps := Push(start, steps, IngestCopyStep);
    var e := Exec(start, steps);
    steps := SpreadAll(start, steps);
    var f := Exec(start, steps);
    steps := Push(start, steps, ListenStep);
    SamePending(e, Exec(start, steps));
  }
}
