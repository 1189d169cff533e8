/** Runs of the hub that reach what the theorems about failures speak of. */
module HubWitnesses {
  import opened Protocol
  import opened Store
  import opened Counting
  import opened HubModel
  import opened HubTokens
  import opened HubPending
  import HubFrames
  import HubRefusals
  import HubFates

  const DEVICE: DeviceId := "d"

  lemma Push(sessionId: string, steps: seq<Step>, step: Step) returns (longer: seq<Step>)
    ensures Exec(Start(sessionId), longer) == Next(Exec(Start(sessionId), steps), step)
  {
    longer := steps + [step];
    assert longer[..|steps|] == steps;
  }

  /** A hub that has done nothing but register one connection. */
  ghost predicate JustServing(h: Hub, sessionId: string) {
    |h.conns| == 1 && h.conns[0].setup.Serving? && h.conns[0].work.Waiting? && h.conns[0].device == DEVICE &&
    h == Start(sessionId).(conns := h.conns, clients := {0})
  }

  lemma Serve(sessionId: string) returns (steps: seq<Step>)
    ensures JustServing(Exec(Start(sessionId), steps), sessionId)
  {
    hide Exec;
    var snap := Snapshot(sessionId, "idle", "", 0, [], []);
    steps := [];
    assert Exec(Start(sessionId), steps) == Start(sessionId) by { NothingYet(sessionId); }
    steps := Push(sessionId, steps, DialStep(DEVICE, 0));
    steps := Push(sessionId, steps, ReadRowStep(0));
    steps := Push(sessionId, steps, ReadLogStep(0, snap));
    assert Exec(Start(sessionId), steps).conns[0].setup == ReadingTail(snap);
    steps := Push(sessionId, steps, ReadTailStep(0));
    steps := Push(sessionId, steps, RegisterStep(0, [], []));
  }

  lemma NothingYet(sessionId: string)
    ensures Exec(Start(sessionId), []) == Start(sessionId)
  {
  }

  /** A command the host does not support, sent twice: the first is refused, the second acked with 0, and the
      log stays empty for good. */
  lemma UnsupportedTwice(sessionId: string) returns (steps: seq<Step>)
    ensures var h := Exec(Start(sessionId), steps);
            |h.conns| == 1 && h.conns[0].device == DEVICE && AckFrame("x", 0) in h.conns[0].queue &&
            h.log == [] && HubRefusals.IsDead(h, IdempotencyKey(DEVICE, "x")) &&
            HubFates.WasRefused(h, DEVICE, "x")
  {
    hide Exec, IdempotencyKey;
    var command := Command("x", "x", Unsupported("fly"));
    steps := Serve(sessionId);
    steps := Push(sessionId, steps, ReceiveStep(0, command, true));
    steps := Push(sessionId, steps, ClaimStep(0, true));
    steps := Push(sessionId, steps, TakeStep(0, true));
    assert Exec(Start(sessionId), steps).idempotency == {IdempotencyKey(DEVICE, "x")};
    var refused := Exec(Start(sessionId), steps).conns[0].queue;
    assert refused[|refused| - 1] == ErrorFrame("x", "unsupported_command");
    steps := Push(sessionId, steps, ReceiveStep(0, command, true));
    steps := Push(sessionId, steps, ClaimStep(0, true));
    var h := Exec(Start(sessionId), steps);
    assert h.conns[0].queue[|h.conns[0].queue| - 1] == AckFrame("x", 0);
    assert HubFrames.IsRefusal(ErrorFrame("x", "unsupported_command"));
    TallyZero(h.conns, HoldsKey(IdempotencyKey(DEVICE, "x")));
    TallyZero(h.origins, SpentOn(IdempotencyKey(DEVICE, "x")));
  }

  const ASK := PermissionRequest("r", "tool", "ls")

  const ANSWER := Command("x", "x", AnswerPermission("r", true, false))

  /** One request is logged, and a handler has taken it. */
  ghost predicate AskedAndTaken(h: Hub) {
    |h.conns| == 1 && h.conns[0].device == DEVICE && h.conns[0].work == Taken(ANSWER) && h.ingest.Listening? &&
    h.pending == map[] && h.lost == {} && |h.log| == 1 && h.log[0].body == ASK
  }

  /** One request is logged and pending, and the ingest loop has come as far as this. */
  ghost predicate AskedAt(h: Hub, ingest: Ingest) {
    |h.conns| == 1 && h.conns[0].device == DEVICE && h.conns[0].setup.Serving? && h.conns[0].work.Waiting? &&
    h.clients == {0} && h.ingest == ingest && h.pending.Keys == {"r"} && h.idempotency == {} && h.lost == {} &&
    |h.log| == 1 && h.log[0].body == ASK
  }

  lemma AskAndFile(sessionId: string) returns (steps: seq<Step>, ev: Event)
    ensures AskedAt(Exec(Start(sessionId), steps), Filed(ev))
  {
    hide Exec;
    ev := Event(1, 0, ASK);
    steps := Serve(sessionId);
    steps := Push(sessionId, steps, EmitStep(0, ASK, NoFault));
    steps := Push(sessionId, steps, FileStep);
  }

  lemma Ask(sessionId: string) returns (steps: seq<Step>)
    ensures AskedAt(Exec(Start(sessionId), steps), Listening)
  {
    hide Exec;
    var ev;
    steps, ev := AskAndFile(sessionId);
    steps := Push(sessionId, steps, IngestCopyStep);
    assert AskedAt(Exec(Start(sessionId), steps), Spreading(ev, {0}));
    steps := Push(sessionId, steps, SpreadStep(0, true));
    assert AskedAt(Exec(Start(sessionId), steps), Spreading(ev, {}));
    steps := Push(sessionId, steps, ListenStep);
  }

  lemma AskAndTake(sessionId: string) returns (steps: seq<Step>)
    ensures AskedAndTaken(Exec(Start(sessionId), steps))
  {
    hide Exec, IdempotencyKey;
    steps := Ask(sessionId);
    steps := Push(sessionId, steps, ReceiveStep(0, ANSWER, true));
    steps := Push(sessionId, steps, ClaimStep(0, true));
    steps := Push(sessionId, steps, TakeStep(0, true));
  }

  /** A request with a fresh id, answered while the database refuses the append: the hub comes to rest with
      the card lost. */
  lemma AnswerLost(sessionId: string) returns (steps: seq<Step>)
    ensures var h := Exec(Start(sessionId), steps);
            AtRest(h) && (forall card :: Fresh(h.log, card)) && h.lost == {PermissionCard("r")}
  {
    hide Exec, IdempotencyKey;
    steps := Serve(sessionId);
    steps := AskAndTake(sessionId);
    steps := Push(sessionId, steps, AppendStep(0, 0, Refused, true));
    var h := Exec(Start(sessionId), steps);
    forall card
      ensures Fresh(h.log, card)
    {
      assert h.log == [] + [h.log[0]];
      TallyAppend([], h.log[0], AsksFor(card));
    }
  }

  /** A request whose id is used again while an answer to it is on its way: the answer lands in the log after the
      second request and resolves both there, and the hub's map keeps the second. */
  lemma ReaskedWhileTaken(sessionId: string) returns (steps: seq<Step>)
    ensures var h := Exec(Start(sessionId), steps);
            AtRest(h) && h.lost == {} && h.pending.Keys == {"r"} && ServerFold(h.log).permissions == map[]
  {
    hide Exec, IdempotencyKey, ServerFold;
    steps := AskAndTake(sessionId);
    steps := Push(sessionId, steps, EmitStep(0, ASK, NoFault));
    steps := Push(sessionId, steps, FileStep);
    var before := Exec(Start(sessionId), steps);
    assert before.pending.Keys == {"r"};
    steps := Push(sessionId, steps, AppendStep(0, 0, NoFault, true));
    var h := Exec(Start(sessionId), steps);
    assert h.log == before.log + [h.log[2]];
    AskAskResolve(before.log, h.log[2]);
  }

  lemma AskAskResolve(asks: seq<Event>, answer: Event)
    requires |asks| == 2 && answer.body.PermissionResolved? && answer.body.requestId == "r"
    requires forall k :: 0 <= k < 2 ==> asks[k].body == ASK
    ensures ServerFold(asks + [answer]).permissions == map[]
  {
    assert asks == [] + [asks[0]] + [asks[1]];
    FoldAppend(StartView("idle"), [], asks[0]);
    FoldAppend(StartView("idle"), [] + [asks[0]], asks[1]);
    FoldAppend(StartView("idle"), asks, answer);
  }
}
