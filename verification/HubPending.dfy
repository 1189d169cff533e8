/** The hub's pending maps compared with what the log says is pending. */
module HubPending {
  import opened Protocol
  import opened Store
  import opened Counting
  import opened Registers
  import opened HubModel
  import opened HubTokens
  import opened HubStreams

  ghost predicate PendingInLog(log: seq<Event>, card: Card) {
    ReadServer(ServerFold(log), CardRegister(card)) == Pending(true)
  }

  /** The card is asked for at most once. */
  ghost predicate Fresh(log: seq<Event>, card: Card) {
    Tally(log, AsksFor(card)) <= 1
  }

  // --- Where a fresh card's token is ---

  /** The token of a fresh card that the log has opened and not resolved is in exactly one place: awaiting
      insertion, in its pending map, in the hands of one handler, or lost to a failed append. */
  ghost predicate CardPlaced(h: Hub, card: Card) {
    Fresh(h.log, card) ==>
      Tally(h.log, AsksFor(card)) ==
      Tally(h.log, Resolves(card)) + Count(AwaitsFiling(h, card)) + Count(card in PendingCards(h)) +
      Tally(h.conns, HoldsCard(card)) + Count(card in h.lost)
  }

  lemma SameHoldingsPlaced(h: Hub, d: Hub, card: Card)
    requires SameHoldings(h, d) && CardPlaced(h, card)
    ensures CardPlaced(d, card)
  {
    TallySame(h.conns, d.conns, HoldsCard(card));
    SamePending(h, d);
  }

  lemma DialPlaced(h: Hub, device: DeviceId, hello: int, card: Card)
    requires CardPlaced(h, card)
    ensures CardPlaced(Dial(h, device, hello), card)
  {
  }

  /** One connection changes without taking up or putting down a card. */
  lemma ConnPlaced(h: Hub, d: Hub, c: nat, card: Card)
    requires c < |h.conns| && CardPlaced(h, card) && |d.conns| == |h.conns| && d.conns == h.conns[c := d.conns[c]]
    requires HoldsCard(card)(d.conns[c]) == HoldsCard(card)(h.conns[c])
    requires d.log == h.log && d.ingest == h.ingest && d.lost == h.lost
    requires d.pending == h.pending && d.pendingQuestions == h.pendingQuestions
    ensures CardPlaced(d, card)
  {
    hide PendingCards;
    TallyUpdate(h.conns, c, d.conns[c], HoldsCard(card));
    SamePending(h, d);
  }

  lemma ClaimPlaced(h: Hub, c: nat, room: bool, card: Card)
    requires CardPlaced(h, card)
    ensures CardPlaced(Claim(h, c, room), card)
  {
    hide IdempotencyKey, CardPlaced;
    if c < |h.conns| && h.conns[c].work.Received? {
      ConnPlaced(h, Claim(h, c, room), c, card);
    }
  }

  lemma TakenPlaced(h: Hub, c: nat, taken: Card, card: Card)
    requires CardPlaced(h, card) && c < |h.conns| && h.conns[c].work.Claimed?
    requires Answers(h.conns[c].work.command.request) == Some(taken) && taken in PendingCards(h)
    ensures CardPlaced(Unfile(WithConn(h, c, h.conns[c].(work := Taken(h.conns[c].work.command))), taken), card)
  {
    hide PendingCards;
    var h1 := WithConn(h, c, h.conns[c].(work := Taken(h.conns[c].work.command)));
    TallyUpdate(h.conns, c, h1.conns[c], HoldsCard(card));
    UnfileRemoves(h1, taken, card);
    SamePending(h, h1);
  }

  lemma TakePlaced(h: Hub, c: nat, room: bool, card: Card)
    requires CardPlaced(h, card)
    ensures CardPlaced(Take(h, c, room), card)
  {
    hide RefusalCode, PendingCards, Unfile, CardPlaced;
    if c < |h.conns| && h.conns[c].work.Claimed? {
      var command := h.conns[c].work.command;
      ConnPlaced(h, Refuse(h, c, RefusalCode(command.request), room), c, card);
      ConnPlaced(h, Refuse(h, c, "already_resolved", room), c, card);
      if Answers(command.request).Some? && Answers(command.request).value in PendingCards(h) {
        TakenPlaced(h, c, Answers(command.request).value, card);
      }
    }
  }

  /** A failed append loses the card that its answer had taken. */
  lemma RefusedPlaced(h: Hub, c: nat, ts: int, room: bool, card: Card)
    requires CardPlaced(h, card) && c < |h.conns| && ReadyToAppend(h.conns[c].work, h.conns[c].device)
    ensures CardPlaced(AppendCommand(h, c, ts, Refused, room), card)
  {
    hide PendingCards, EventFor;
    var d := AppendCommand(h, c, ts, Refused, room);
    TallyUpdate(h.conns, c, d.conns[c], HoldsCard(card));
    if HoldsCard(card)(h.conns[c]) {
      TallyPositive(h.conns, c, HoldsCard(card));
    }
    SamePending(h, d);
  }

  lemma LoggedPlaced(h: Hub, c: nat, ts: int, fault: Fault, room: bool, card: Card)
    requires CardPlaced(h, card) && !fault.Refused?
    requires c < |h.conns| && ReadyToAppend(h.conns[c].work, h.conns[c].device)
    ensures CardPlaced(AppendCommand(h, c, ts, fault, room), card)
  {
    hide PendingCards, EventFor, NextCache, IdempotencyKey;
    var d := AppendCommand(h, c, ts, fault, room);
    CommandEventsClose(h.conns[c].work.command.request, h.conns[c].device);
    TallyUpdate(h.conns, c, d.conns[c], HoldsCard(card));
    TallyAppend(h.log, d.log[|h.log|], Resolves(card));
    TallyAppend(h.log, d.log[|h.log|], AsksFor(card));
    SamePending(h, d);
  }

  lemma AppendPlaced(h: Hub, c: nat, ts: int, fault: Fault, room: bool, card: Card)
    requires CardPlaced(h, card)
    ensures CardPlaced(AppendCommand(h, c, ts, fault, room), card)
  {
    hide CardPlaced;
    if c < |h.conns| && ReadyToAppend(h.conns[c].work, h.conns[c].device) {
      if fault.Refused? {
        RefusedPlaced(h, c, ts, room, card);
      } else {
        LoggedPlaced(h, c, ts, fault, room, card);
      }
    }
  }

  lemma ForwardPlaced(h: Hub, c: nat, accepted: bool, room: bool, card: Card)
    requires CardPlaced(h, card)
    ensures CardPlaced(Forward(h, c, accepted, room), card)
  {
    hide IdempotencyKey, CardPlaced;
    if c < |h.conns| && h.conns[c].work.FanningOut? && h.conns[c].work.targets == {} {
      ConnPlaced(h, Forward(h, c, accepted, room), c, card);
    }
  }

  lemma EmitPlaced(h: Hub, ts: int, body: Body, fault: Fault, card: Card)
    requires CardPlaced(h, card)
    ensures CardPlaced(AgentEmits(h, ts, body, fault), card)
  {
  }

  lemma FilePlaced(h: Hub, card: Card)
    requires CardPlaced(h, card)
    ensures CardPlaced(FileRequest(h), card)
  {
    hide PendingCards;
    if h.ingest.Appended? {
      FileAdds(h, h.ingest.event.body, card);
      SamePending(File(h, h.ingest.event.body), FileRequest(h));
    }
  }

  lemma PlacedStep(h: Hub, step: Step, card: Card)
    requires CardPlaced(h, card)
    ensures CardPlaced(Next(h, step), card)
  {
    hide CardPlaced, SameHoldings, Dial, Claim, Take, AppendCommand, Forward, AgentEmits, FileRequest;
    if MovesNoToken(step) {
      NoTokenMoved(h, step);
      SameHoldingsPlaced(h, Next(h, step), card);
    } else {
      match step {
        case DialStep(device, hello) => DialPlaced(h, device, hello, card);
        case ClaimStep(c, room) => ClaimPlaced(h, c, room, card);
        case TakeStep(c, room) => TakePlaced(h, c, room, card);
        case AppendStep(c, ts, fault, room) => AppendPlaced(h, c, ts, fault, room, card);
        case ForwardStep(c, accepted, room) => ForwardPlaced(h, c, accepted, room, card);
        case EmitStep(ts, body, fault) => EmitPlaced(h, ts, body, fault, card);
        case FileStep => FilePlaced(h, card);
      }
    }
  }

  lemma {:induction false} CardsStayPlaced(sessionId: string, steps: seq<Step>, card: Card)
    ensures CardPlaced(Exec(Start(sessionId), steps), card)
  {
    if steps != [] {
      hide Next, CardPlaced;
      CardsStayPlaced(sessionId, steps[..|steps| - 1], card);
      PlacedStep(Exec(Start(sessionId), steps[..|steps| - 1]), steps[|steps| - 1], card);
    }
  }

  // --- The log's side ---

  ghost predicate Regular(log: seq<Event>, card: Card) {
    forall k :: 0 <= k <= |log| ==> Tally(log[..k], Resolves(card)) <= Tally(log[..k], AsksFor(card))
  }

  /** In a log that never resolves more than it asked for, a card asked for once is pending exactly until
      it is resolved. */
  lemma {:induction false} FreshPending(log: seq<Event>, card: Card)
    requires Fresh(log, card) && Regular(log, card)
    ensures PendingInLog(log, card) <==> Tally(log, AsksFor(card)) == Tally(log, Resolves(card)) + 1
  {
    if log != [] {
      var n := |log| - 1;
      assert forall k :: 0 <= k <= n ==> log[..n][..k] == log[..k];
      assert log[..|log|] == log;
      FreshPending(log[..n], card);
      ServerFoldMeans(log, CardRegister(card));
      ServerFoldMeans(log[..n], CardRegister(card));
    }
  }

  lemma LogIsRegular(sessionId: string, steps: seq<Step>, card: Card)
    ensures Regular(Exec(Start(sessionId), steps).log, card)
  {
    hide Exec;
    forall k | 0 <= k <= |Exec(Start(sessionId), steps).log|
      ensures var log := Exec(Start(sessionId), steps).log;
              Tally(log[..k], Resolves(card)) <= Tally(log[..k], AsksFor(card))
    {
      EveryPrefixResolvesOnce(sessionId, steps, card, k);
    }
  }

  predicate IsHeld(conns: seq<Conn>, card: Card) {
    exists c :: 0 <= c < |conns| && HoldsCard(card)(conns[c])
  }

  /** With a fresh id, in every reachable state: a card is in the hub's map exactly when the log says it is
      pending and it neither awaits insertion, nor is in the hands of a handler, nor was lost to a failed
      append. */
  lemma MapTracksLog(sessionId: string, steps: seq<Step>, card: Card)
    requires Fresh(Exec(Start(sessionId), steps).log, card)
    ensures var h := Exec(Start(sessionId), steps);
            card in PendingCards(h) <==>
            PendingInLog(h.log, card) && !AwaitsFiling(h, card) && !IsHeld(h.conns, card) && card !in h.lost
  {
    hide Exec, PendingCards, AwaitsFiling, PendingInLog;
    var h := Exec(Start(sessionId), steps);
    CardsStayPlaced(sessionId, steps, card);
    LogIsRegular(sessionId, steps, card);
    FreshPending(h.log, card);
    TallyExists(h.conns, HoldsCard(card));
  }

  // --- At rest ---

  /** Every entry of the maps is the body of a logged request, filed under its own id. */
  ghost predicate PermissionsFiled(pending: map<string, PermissionView>, log: seq<Event>) {
    forall id :: id in pending ==>
      pending[id].requestId == id &&
      exists k :: 0 <= k < |log| && log[k].body == PermissionRequest(id, pending[id].kind, pending[id].summary)
  }

  ghost predicate QuestionsFiled(questions: map<string, QuestionView>, log: seq<Event>) {
    forall id :: id in questions ==>
      questions[id].questionId == id &&
      exists k :: 0 <= k < |log| && log[k].body == QuestionAsked(id, questions[id].text)
  }

  ghost predicate FiledFromLog(h: Hub) {
    PermissionsFiled(h.pending, h.log) && QuestionsFiled(h.pendingQuestions, h.log)
  }

  ghost predicate MapsShrink(h: Hub, d: Hub) {
    h.log <= d.log &&
    (forall id :: id in d.pending ==> id in h.pending && d.pending[id] == h.pending[id]) &&
    (forall id :: id in d.pendingQuestions ==>
      id in h.pendingQuestions && d.pendingQuestions[id] == h.pendingQuestions[id])
  }

  lemma ShrunkStaysFiled(h: Hub, d: Hub)
    requires FiledFromLog(h) && MapsShrink(h, d)
    ensures FiledFromLog(d)
  {
  }

  lemma TakeShrinks(h: Hub, c: nat, room: bool)
    ensures MapsShrink(h, Take(h, c, room))
  {
    hide EventFor, PendingCards, RefusalCode;
  }

  lemma OnlyFilingAdds(h: Hub, step: Step)
    requires !step.FileStep?
    ensures MapsShrink(h, Next(h, step))
  {
    hide Offer, EventFor, NextCache, IdempotencyKey, Take, Next;
    if MovesNoToken(step) {
      NoTokenMoved(h, step);
    } else if step.TakeStep? {
      NextTakes(h, step);
      TakeShrinks(h, step.c, step.room);
    } else {
      OtherTokenStepsShrink(h, step);
    }
  }

  lemma NextTakes(h: Hub, step: Step)
    requires step.TakeStep?
    ensures Next(h, step) == Take(h, step.c, step.room)
  {
  }

  lemma OtherTokenStepsShrink(h: Hub, step: Step)
    requires step.DialStep? || step.ClaimStep? || step.AppendStep? || step.ForwardStep? || step.EmitStep?
    ensures MapsShrink(h, Next(h, step))
  {
    hide Offer, EventFor, NextCache, IdempotencyKey;
  }

  lemma FiledStep(h: Hub, step: Step)
    requires FiledFromLog(h) && Sound(h)
    ensures FiledFromLog(Next(h, step))
  {
    hide ConnsSound, FiledFromLog;
    if step.FileStep? {
      FileFiles(h);
    } else {
      hide Next;
      OnlyFilingAdds(h, step);
      ShrunkStaysFiled(h, Next(h, step));
    }
  }

  lemma FileFiles(h: Hub)
    requires FiledFromLog(h) && (h.ingest.Listening? || Genuine(h.ingest.event, h.log))
    ensures FiledFromLog(FileRequest(h))
  {
    if h.ingest.Appended? {
      var body := h.ingest.event.body;
      assert h.log[h.ingest.event.seqNo - 1].body == body;
      PermissionFiles(h.pending, h.log, body);
      QuestionFiles(h.pendingQuestions, h.log, body);
    }
  }

  lemma PermissionFiles(pending: map<string, PermissionView>, log: seq<Event>, body: Body)
    requires PermissionsFiled(pending, log) && exists k :: 0 <= k < |log| && log[k].body == body
    ensures body.PermissionRequest? ==>
              PermissionsFiled(pending[body.requestId := PermissionView(body.requestId, body.kind, body.summary)], log)
  {
  }

  lemma QuestionFiles(questions: map<string, QuestionView>, log: seq<Event>, body: Body)
    requires QuestionsFiled(questions, log) && exists k :: 0 <= k < |log| && log[k].body == body
    ensures body.QuestionAsked? ==>
              QuestionsFiled(questions[body.questionId := QuestionView(body.questionId, body.text)], log)
  {
  }

  lemma {:induction false} MapsStayFiled(sessionId: string, steps: seq<Step>)
    ensures FiledFromLog(Exec(Start(sessionId), steps))
  {
    if steps != [] {
      hide Next, FiledFromLog, Sound;
      HubStaysSound(sessionId, steps[..|steps| - 1]);
      MapsStayFiled(sessionId, steps[..|steps| - 1]);
      FiledStep(Exec(Start(sessionId), steps[..|steps| - 1]), steps[|steps| - 1]);
    }
  }

  /** No handler is between taking a card and its append, and no request awaits insertion. */
  predicate AtRest(h: Hub) {
    !h.ingest.Appended? && forall c :: 0 <= c < |h.conns| ==> !h.conns[c].work.Taken?
  }

  /** A fresh request was logged once, so the map and the fold hold the same view of it. */
  lemma SamePermission(h: Hub, id: string)
    requires FiledFromLog(h) && Fresh(h.log, PermissionCard(id))
    requires id in h.pending && id in ServerFold(h.log).permissions
    ensures h.pending[id] == ServerFold(h.log).permissions[id]
  {
    hide ServerFold, QuestionsFiled;
    PendingPermissionIsLogged(h.log, id);
    var a, b := h.pending[id], ServerFold(h.log).permissions[id];
    var i :| 0 <= i < |h.log| && h.log[i].body == PermissionRequest(id, a.kind, a.summary);
    var j :| 0 <= j < |h.log| && h.log[j].body == PermissionRequest(id, b.kind, b.summary);
    TallyUnique(h.log, i, j, AsksFor(PermissionCard(id)));
  }

  lemma SameQuestion(h: Hub, id: string)
    requires FiledFromLog(h) && Fresh(h.log, QuestionCard(id))
    requires id in h.pendingQuestions && id in ServerFold(h.log).questions
    ensures h.pendingQuestions[id] == ServerFold(h.log).questions[id]
  {
    hide ServerFold, PermissionsFiled;
    PendingQuestionIsLogged(h.log, id);
    var a, b := h.pendingQuestions[id], ServerFold(h.log).questions[id];
    var i :| 0 <= i < |h.log| && h.log[i].body == QuestionAsked(id, a.text);
    var j :| 0 <= j < |h.log| && h.log[j].body == QuestionAsked(id, b.text);
    TallyUnique(h.log, i, j, AsksFor(QuestionCard(id)));
  }

  lemma LostGrows(h: Hub, step: Step)
    ensures h.lost <= Next(h, step).lost
  {
    hide Offer, EventFor, NextCache, IdempotencyKey, PendingCards, RefusalCode, Next;
    if MovesNoToken(step) {
      NoTokenMoved(h, step);
    } else {
      TokenStepKeepsLost(h, step);
    }
  }

  lemma TokenStepKeepsLost(h: Hub, step: Step)
    requires !MovesNoToken(step)
    ensures h.lost <= Next(h, step).lost
  {
    hide Offer, EventFor, NextCache, IdempotencyKey, PendingCards, RefusalCode;
  }

  lemma {:induction false} LostForGood(sessionId: string, steps: seq<Step>, more: seq<Step>)
    ensures Exec(Start(sessionId), steps).lost <= Exec(Start(sessionId), steps + more).lost
  {
    hide Next;
    if more == [] {
      assert steps + more == steps;
    } else {
      var n := |more| - 1;
      LostForGood(sessionId, steps, more[..n]);
      assert (steps + more)[..|steps| + n] == steps + more[..n];
      LostGrows(Exec(Start(sessionId), steps + more[..n]), more[n]);
    }
  }

  /** A card lost to a failed append stays pending in the log and out of the map in every later state, until
      its id is used again. */
  lemma LostStaysPending(sessionId: string, steps: seq<Step>, more: seq<Step>, card: Card)
    requires card in Exec(Start(sessionId), steps).lost
    requires Fresh(Exec(Start(sessionId), steps + more).log, card)
    ensures var h := Exec(Start(sessionId), steps + more); PendingInLog(h.log, card) && card !in PendingCards(h)
  {
    hide Exec, PendingCards, AwaitsFiling, PendingInLog;
    LostForGood(sessionId, steps, more);
    CardsStayPlaced(sessionId, steps + more, card);
    LogIsRegular(sessionId, steps + more, card);
    FreshPending(Exec(Start(sessionId), steps + more).log, card);
  }

  /** With fresh ids and the hub at rest, its maps are the log's pending maps exactly when no append that
      answered a card ever failed. */
  lemma MapsAgreeAtRest(sessionId: string, steps: seq<Step>)
    requires forall card :: Fresh(Exec(Start(sessionId), steps).log, card)
    requires AtRest(Exec(Start(sessionId), steps))
    ensures var h := Exec(Start(sessionId), steps);
            h.pending == ServerFold(h.log).permissions && h.pendingQuestions == ServerFold(h.log).questions <==>
            h.lost == {}
  {
    hide Exec, ServerFold, FiledFromLog, Fresh;
    var h := Exec(Start(sessionId), steps);
    MapsStayFiled(sessionId, steps);
    if h.lost == {} {
      forall id: string
        ensures id in h.pending <==> id in ServerFold(h.log).permissions
        ensures id in h.pendingQuestions <==> id in ServerFold(h.log).questions
        ensures id in h.pending ==> h.pending[id] == ServerFold(h.log).permissions[id]
        ensures id in h.pendingQuestions ==> h.pendingQuestions[id] == ServerFold(h.log).questions[id]
      {
        assert Fresh(h.log, PermissionCard(id)) && Fresh(h.log, QuestionCard(id));
        MapTracksLog(sessionId, steps, PermissionCard(id));
        MapTracksLog(sessionId, steps, QuestionCard(id));
        if id in h.pending {
          SamePermission(h, id);
        }
        if id in h.pendingQuestions {
          SameQuestion(h, id);
        }
      }
    } else {
      var card :| card in h.lost;
      assert Fresh(h.log, card);
      assert steps + [] == steps;
      LostStaysPending(sessionId, steps, [], card);
    }
  }
}
