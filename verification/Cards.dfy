/** What the client shows for one permission or question refines a four-state automaton. */
module Cards {
  import opened Protocol
  import opened Counting
  import opened Reducer
  import opened Registers
  import opened Shape

  /** `Reopened` is a card asked for again after an answer: pending, while its item still shows the answer. */
  datatype CardState = Absent | Open | Closed | Reopened

  function CardStep(state: CardState, body: Body, card: Card): CardState {
    if Opens(body) == Some(card) then
      match state
      case Absent => Open
      case Open => Open
      case Closed => Reopened
      case Reopened => Reopened
    else if Closes(body) == Some(card) then
      match state
      case Absent => Absent
      case Open => Closed
      case Closed => Closed
      case Reopened => Closed
    else state
  }

  function CardFold(log: seq<Event>, card: Card): CardState {
    if log == [] then Absent
    else CardStep(CardFold(log[..|log| - 1], card), log[|log| - 1].body, card)
  }

  predicate IsPending(state: CardState) {
    state.Open? || state.Reopened?
  }

  predicate IsAnswered(state: CardState) {
    state.Closed? || state.Reopened?
  }

  /** The item is the card's entry in the stream. */
  predicate ShowsCard(item: Item, card: Card) {
    (item.PermissionItem? && card == PermissionCard(item.requestId)) ||
    (item.QuestionItem? && card == QuestionCard(item.questionId))
  }

  predicate Resolved(item: Item) {
    (item.PermissionItem? && item.resolved.Some?) || (item.QuestionItem? && item.answered.Some?)
  }

  /** There is an entry exactly when the card was asked for, and it is resolved exactly when answered. */
  ghost predicate StreamShows(items: seq<Item>, card: Card, state: CardState) {
    (state.Absent? <==> forall x :: x in items ==> !ShowsCard(x, card)) &&
    (forall x :: x in items && ShowsCard(x, card) ==> (Resolved(x) <==> IsAnswered(state)))
  }

  lemma RewrittenCard(items: seq<Item>, i: nat, ev: Event, names: map<string, string>, card: Card)
    requires i < |items|
    ensures var item := Rewritten(items, i, ev, names);
            (ShowsCard(item, card) <==> ShowsCard(items[i], card)) &&
            (ShowsCard(item, card) ==> (Resolved(item) <==> Resolved(items[i]) || Closes(ev.body) == Some(card)))
  {
  }

  lemma AddedCard(items: seq<Item>, ev: Event, card: Card)
    requires card.id != ""
    ensures Added(items, ev).Some? && ShowsCard(Added(items, ev).value, card) <==>
            Opens(ev.body) == Some(card) && forall x :: x in items ==> !ShowsCard(x, card)
    ensures Added(items, ev).Some? && ShowsCard(Added(items, ev).value, card) ==> !Resolved(Added(items, ev).value)
  {
    var shown := exists k :: 0 <= k < |items| && ShowsCard(items[k], card);
    assert shown <==> exists x :: x in items && ShowsCard(x, card);
    if card.PermissionCard? {
      assert shown <==> HasPermission(items, card.id);
    } else {
      assert shown <==> HasQuestion(items, card.id);
    }
  }

  lemma ChangedShows(
    changed: seq<Item>, items: seq<Item>, ev: Event, names: map<string, string>, card: Card, state: CardState)
    requires |changed| == |items| && forall i :: 0 <= i < |items| ==> changed[i] == Rewritten(items, i, ev, names)
    requires StreamShows(items, card, state)
    ensures state.Absent? <==> forall x :: x in changed ==> !ShowsCard(x, card)
    ensures forall x :: x in changed && ShowsCard(x, card) ==>
              (Resolved(x) <==> IsAnswered(state) || Closes(ev.body) == Some(card))
  {
    forall i | 0 <= i < |items|
      ensures ShowsCard(changed[i], card) <==> ShowsCard(items[i], card)
      ensures ShowsCard(changed[i], card) ==>
                (Resolved(changed[i]) <==> Resolved(items[i]) || Closes(ev.body) == Some(card))
    {
      RewrittenCard(items, i, ev, names, card);
    }
    if !state.Absent? {
      var x :| x in items && ShowsCard(x, card);
      var i :| 0 <= i < |items| && items[i] == x;
      assert changed[i] in changed;
    }
  }

  lemma GrownShows(
    grown: seq<Item>, items: seq<Item>, ev: Event, names: map<string, string>, card: Card, state: CardState)
    requires Extends(grown, items, ev, names) && StreamShows(items, card, state) && card.id != ""
    ensures StreamShows(grown, card, CardStep(state, ev.body, card))
  {
    var changed := GrownSplit(grown, items, ev, names);
    ChangedShows(changed, items, ev, names, card, state);
    AddedCard(items, ev, card);
    assert forall x :: x in grown <==> x in changed || x in Tail(Added(items, ev));
    if Added(items, ev).Some? {
      assert Added(items, ev).value in grown;
    }
  }

  lemma SurvivorsShow(next: seq<Item>, grown: seq<Item>, body: Body, card: Card, state: CardState)
    requires Survives(next, grown, body) && StreamShows(grown, card, state)
    ensures StreamShows(next, card, state)
  {
    SurvivorsSelected(next, grown, body);
    if !state.Absent? {
      var x :| x in grown && ShowsCard(x, card);
      assert x in next;
    }
  }

  /** Over any event sequence, what the client shows for a card is the automaton's state: pending when it
      is open or reopened, an entry once asked for, and the entry resolved once answered. */
  lemma {:induction false} CardsRefineAutomaton(log: seq<Event>, card: Card)
    requires card.id != ""
    ensures var s := Replay(NEW_SESSION, log, None);
            StreamShows(s.items, card, CardFold(log, card)) &&
            ReadClient(s, CardRegister(card)) == Pending(IsPending(CardFold(log, card)))
  {
    if log != [] {
      var earlier, ev := log[..|log| - 1], log[|log| - 1];
      CardsRefineAutomaton(earlier, card);
      var s := Replay(NEW_SESSION, earlier, None);
      var state := CardFold(earlier, card);
      var grown := NextItemsSteps(s.items, ev, s.deviceNames);
      GrownShows(grown, s.items, ev, s.deviceNames, card, state);
      SurvivorsShow(NextItems(s.items, ev, s.deviceNames), grown, ev.body, card, CardStep(state, ev.body, card));
      ReplayItems(log);
      ReplayLast(NEW_SESSION, log, None);
      ApplyEventWrites(s, ev, None, CardRegister(card));
    }
  }

  /** A card asked for at most once is never reopened. */
  lemma {:induction false} FreshNeverReopened(log: seq<Event>, card: Card)
    requires Tally(log, AsksFor(card)) <= 1
    ensures !CardFold(log, card).Reopened?
    ensures CardFold(log, card).Absent? <==> Tally(log, AsksFor(card)) == 0
  {
    if log != [] {
      FreshNeverReopened(log[..|log| - 1], card);
    }
  }

  /** With fresh ids, a card is pending exactly when it has an entry that is not resolved. */
  lemma PendingMeansUnresolved(log: seq<Event>, card: Card)
    requires card.id != "" && Tally(log, AsksFor(card)) <= 1
    ensures var s := Replay(NEW_SESSION, log, None);
            ReadClient(s, CardRegister(card)) == Pending(true) <==>
            exists x :: x in s.items && ShowsCard(x, card) && !Resolved(x)
  {
    CardsRefineAutomaton(log, card);
    FreshNeverReopened(log, card);
  }

  /** A pending card whose entry is already resolved is precisely a reopened one. */
  lemma MismatchMeansReopened(log: seq<Event>, card: Card)
    requires card.id != ""
    ensures var s := Replay(NEW_SESSION, log, None);
            (ReadClient(s, CardRegister(card)) == Pending(true) &&
             exists x :: x in s.items && ShowsCard(x, card) && Resolved(x)) <==>
            CardFold(log, card).Reopened?
  {
    CardsRefineAutomaton(log, card);
  }

  /** Re-using a request id after it was answered does reopen the card. */
  lemma ReusedIdReopens(a: Event, b: Event, c: Event)
    requires a.body == c.body == PermissionRequest("r", "bash", "git push")
    requires b.body == PermissionResolved("r", true, "phone")
    ensures CardFold([a, b, c], PermissionCard("r")) == Reopened
  {
    var card := PermissionCard("r");
    assert [a, b, c][..2] == [a, b] && [a, b][..1] == [a] && [a][..0] == [];
    assert CardFold([a], card) == Open;
    assert CardFold([a, b], card) == Closed;
  }
}
