/** The stream of items over whole runs: order, identity and provenance. */
module Stream {
  import opened Protocol
  import opened Text
  import opened Counting
  import opened Reducer
  import opened Shape

  // --- Identifiers ---

  lemma {:induction false} DecimalInjective(a: nat, b: nat)
    requires Decimal(a) == Decimal(b)
    ensures a == b
  {
    if a < 10 || b < 10 {
      assert |Decimal(a)| == 1 || |Decimal(b)| == 1;
    } else {
      var x, y := Decimal(a / 10), Decimal(b / 10);
      assert Decimal(a)[..|x|] == x && Decimal(b)[..|y|] == y;
      DecimalInjective(a / 10, b / 10);
      assert Decimal(a)[|x|] == Digit(a % 10) && Decimal(b)[|y|] == Digit(b % 10);
    }
  }

  /** The identifier an item must carry. */
  function IdOf(item: Item): string {
    match item
    case PromptItem(_, n, _, _, _) => "prompt-" + Decimal(n)
    case AssistantItem(_, n, _, _, _) => "assistant-" + Decimal(n)
    case ToolItem(_, n, _, _, _, _, _) => "tool-" + Decimal(n)
    case PermissionItem(_, _, _, id, _, _, _) => "perm-" + id
    case QuestionItem(_, _, _, id, _, _) => "q-" + id
    case NoticeItem(_, n, _, _, _) => "notice-" + Decimal(n)
  }

  predicate SameKind(a: Item, b: Item) {
    (a.PromptItem? && b.PromptItem?) || (a.AssistantItem? && b.AssistantItem?) || (a.ToolItem? && b.ToolItem?) ||
    (a.PermissionItem? && b.PermissionItem?) || (a.QuestionItem? && b.QuestionItem?) ||
    (a.NoticeItem? && b.NoticeItem?)
  }

  /** Two items whose identifiers coincide are of one kind and agree on what the identifier encodes. */
  lemma IdOfInjective(a: Item, b: Item)
    requires IdOf(a) == IdOf(b)
    ensures SameKind(a, b)
    ensures a.PermissionItem? ==> a.requestId == b.requestId
    ensures a.QuestionItem? ==> a.questionId == b.questionId
    ensures !a.PermissionItem? && !a.QuestionItem? ==> a.seqNo == b.seqNo
  {
    assert IdOf(a)[0] == IdOf(b)[0] && IdOf(a)[1] == IdOf(b)[1];
    assert SameKind(a, b);
    var prefix := match a
      case PromptItem(_, _, _, _, _) => 7
      case AssistantItem(_, _, _, _, _) => 10
      case ToolItem(_, _, _, _, _, _, _) => 5
      case PermissionItem(_, _, _, _, _, _, _) => 5
      case QuestionItem(_, _, _, _, _, _) => 2
      case NoticeItem(_, _, _, _, _) => 7;
    assert IdOf(a)[prefix..] == IdOf(b)[prefix..];
    if !a.PermissionItem? && !a.QuestionItem? {
      assert IdOf(a)[prefix..] == Decimal(a.seqNo) && IdOf(b)[prefix..] == Decimal(b.seqNo);
      DecimalInjective(a.seqNo, b.seqNo);
    } else {
      assert a.PermissionItem? ==> IdOf(a)[prefix..] == a.requestId && IdOf(b)[prefix..] == b.requestId;
      assert a.QuestionItem? ==> IdOf(a)[prefix..] == a.questionId && IdOf(b)[prefix..] == b.questionId;
    }
  }

  // --- Order ---

  predicate SameCard(a: Item, b: Item) {
    (a.PermissionItem? && b.PermissionItem? && a.requestId == b.requestId) ||
    (a.QuestionItem? && b.QuestionItem? && a.questionId == b.questionId)
  }

  /** Strictly increasing in sequence number up to a bound, properly named, one item per card. */
  ghost predicate Ordered(items: seq<Item>, bound: nat) {
    (forall i, j :: 0 <= i < j < |items| ==> items[i].seqNo < items[j].seqNo && !SameCard(items[i], items[j])) &&
    (forall i :: 0 <= i < |items| ==> items[i].seqNo <= bound && items[i].id == IdOf(items[i]))
  }

  lemma OrderedIdsDistinct(items: seq<Item>, bound: nat, i: nat, j: nat)
    requires Ordered(items, bound) && i < j < |items|
    ensures items[i].id != items[j].id
  {
    if items[i].id == items[j].id {
      IdOfInjective(items[i], items[j]);
      assert false;
    }
  }

  /** The two items differ in nothing that order or identity looks at. */
  predicate SameIdentity(a: Item, b: Item) {
    a.id == b.id && a.seqNo == b.seqNo && SameKind(a, b) &&
    (a.PermissionItem? ==> a.requestId == b.requestId) && (a.QuestionItem? ==> a.questionId == b.questionId)
  }

  lemma RewrittenKeepsIdentity(items: seq<Item>, i: nat, ev: Event, names: map<string, string>)
    requires i < |items|
    ensures SameIdentity(items[i], Rewritten(items, i, ev, names))
  {
  }

  lemma AddedIsNew(items: seq<Item>, ev: Event)
    requires Added(items, ev).Some?
    ensures var item := Added(items, ev).value;
            item.seqNo == ev.seqNo && item.id == IdOf(item) &&
            forall i :: 0 <= i < |items| ==> !SameCard(items[i], item)
  {
  }

  lemma OrderedUpdate(items: seq<Item>, changed: seq<Item>, bound: nat)
    requires Ordered(items, bound) && |changed| == |items|
    requires forall i :: 0 <= i < |items| ==> SameIdentity(items[i], changed[i])
    ensures Ordered(changed, bound)
  {
  }

  lemma OrderedAppend(items: seq<Item>, bound: nat, item: Item)
    requires Ordered(items, bound) && item.seqNo > bound && item.id == IdOf(item)
    requires forall i :: 0 <= i < |items| ==> !SameCard(items[i], item)
    ensures Ordered(items + [item], item.seqNo)
  {
  }

  /** Every kind of event, tool completion and re-issued requests included, keeps the stream ordered. */
  lemma GrownOrdered(grown: seq<Item>, items: seq<Item>, ev: Event, names: map<string, string>)
    requires ev.seqNo >= 1 && Ordered(items, ev.seqNo - 1) && Extends(grown, items, ev, names)
    ensures Ordered(grown, ev.seqNo)
  {
    var changed := grown[..|items|];
    forall i | 0 <= i < |items|
      ensures SameIdentity(items[i], changed[i])
      ensures Added(items, ev).Some? ==> !SameCard(changed[i], Added(items, ev).value)
    {
      RewrittenKeepsIdentity(items, i, ev, names);
      if Added(items, ev).Some? {
        AddedIsNew(items, ev);
      }
    }
    OrderedUpdate(items, changed, ev.seqNo - 1);
    if Added(items, ev).Some? {
      AddedIsNew(items, ev);
      OrderedAppend(changed, ev.seqNo - 1, Added(items, ev).value);
      assert grown == changed + [Added(items, ev).value];
    } else {
      assert grown == changed;
    }
  }

  /** Whatever is kept of the earlier items comes before the last. */
  lemma KeptPrecedesLast(kept: seq<Item>, items: seq<Item>, bound: nat)
    requires items != [] && Ordered(items, bound) && forall x :: x in kept ==> x in items[..|items| - 1]
    ensures forall i :: 0 <= i < |kept| ==>
              kept[i].seqNo < items[|items| - 1].seqNo && !SameCard(kept[i], items[|items| - 1])
  {
    hide SameCard;
    var n := |items| - 1;
    forall i | 0 <= i < |kept|
      ensures kept[i].seqNo < items[n].seqNo && !SameCard(kept[i], items[n])
    {
      assert kept[i] in kept;
      var k :| 0 <= k < n && items[..n][k] == kept[i];
      assert items[k] == kept[i];
    }
  }

  lemma {:induction false} OrderedDropNotices(items: seq<Item>, bound: nat, drop: nat)
    requires Ordered(items, bound)
    ensures Ordered(DropNotices(items, drop), bound)
  {
    if items != [] {
      hide SameCard;
      var n := |items| - 1;
      OrderedDropNotices(items[..n], bound, drop);
      DropNoticesSelects(items[..n], drop);
      KeptPrecedesLast(DropNotices(items[..n], drop), items, bound);
    }
  }

  lemma OrderedSurvivors(next: seq<Item>, grown: seq<Item>, body: Body, bound: nat)
    requires Ordered(grown, bound) && Survives(next, grown, body)
    ensures Ordered(next, bound)
  {
    hide Ordered, DropNotices, NoticeCount;
    if body.AgentError? && NoticeCount(grown) > MAX_NOTICES {
      OrderedDropNotices(grown, bound, NoticeCount(grown) - MAX_NOTICES);
    }
  }

  lemma OrderedTrim(s: SessionState, maxItems: Option<nat>, bound: nat)
    requires Ordered(s.items, bound)
    ensures Ordered(Trimmed(s, maxItems).items, bound)
  {
  }

  lemma OrderedStep(s: SessionState, ev: Event, maxItems: Option<nat>)
    requires ev.seqNo >= 1 && Ordered(s.items, ev.seqNo - 1)
    ensures Ordered(Trimmed(ApplyEvent(s, ev), maxItems).items, ev.seqNo)
  {
    var grown := NextItemsSteps(s.items, ev, s.deviceNames);
    GrownOrdered(grown, s.items, ev, s.deviceNames);
    OrderedSurvivors(NextItems(s.items, ev, s.deviceNames), grown, ev.body, ev.seqNo);
    OrderedTrim(ApplyEvent(s, ev), maxItems, ev.seqNo);
  }

  /** Applying any consecutive piece of a log, whatever the trimming, leaves items in log order with
      distinct ids. */
  lemma {:induction false} StreamIsOrdered(piece: seq<Event>, base: nat, maxItems: Option<nat>)
    requires Numbered(piece, base)
    ensures var items := Replay(NEW_SESSION, piece, maxItems).items;
            Ordered(items, base + |piece|) && forall i, j :: 0 <= i < j < |items| ==> items[i].id != items[j].id
  {
    if piece != [] {
      var n := |piece| - 1;
      StreamIsOrdered(piece[..n], base, maxItems);
      OrderedStep(Replay(NEW_SESSION, piece[..n], maxItems), piece[n], maxItems);
    }
    var items := Replay(NEW_SESSION, piece, maxItems).items;
    forall i, j | 0 <= i < j < |items|
      ensures items[i].id != items[j].id
    {
      OrderedIdsDistinct(items, base + |piece|, i, j);
    }
  }

  // --- Provenance ---

  /** The last decision about a permission among these events. */
  function LastDecision(events: seq<Event>, id: string): Option<(bool, string)> {
    if events == [] then None
    else
      var body := events[|events| - 1].body;
      if body.PermissionResolved? && body.requestId == id then Some((body.allow, body.byDevice))
      else LastDecision(events[..|events| - 1], id)
  }

  /** The last answer to a question among these events. */
  function LastAnswer(events: seq<Event>, id: string): Option<(string, string)> {
    if events == [] then None
    else
      var body := events[|events| - 1].body;
      if body.QuestionResolved? && body.questionId == id then Some((body.text, body.byDevice))
      else LastAnswer(events[..|events| - 1], id)
  }

  function Decision(resolved: Option<Resolution>): Option<(bool, string)> {
    if resolved.Some? then Some((resolved.value.allow, resolved.value.byDevice)) else None
  }

  function Reply(answered: Option<Answer>): Option<(string, string)> {
    if answered.Some? then Some((answered.value.text, answered.value.byDevice)) else None
  }

  /** A tool end with this name and output is logged at or after position `from`. */
  ghost predicate EndLogged(log: seq<Event>, from: nat, name: string, output: Option<string>) {
    exists k :: from <= k < |log| && log[k].body == ToolCallEnd(name, output)
  }

  /** The item says what the log says at the item's own number, an assistant's text is taken in order from the
      deltas logged from there on, a finished tool carries the output of a later end, and a card shows the last
      decision the log records after it. */
  ghost predicate Records(item: Item, log: seq<Event>) {
    1 <= item.seqNo <= |log| &&
    var source := log[item.seqNo - 1];
    item.ts == source.ts &&
    match item
    case PromptItem(_, _, _, text, byDevice) => source.body == UserPrompt(text, byDevice)
    case AssistantItem(_, n, _, content, _) =>
      source.body.TextDelta? && source.body.content != [] && Subsequence(content, DeltaText(log[n - 1..]))
    case ToolItem(_, _, _, name, input, output, done) =>
      (source.body == ToolCallStart(name, input) &&
       if done then EndLogged(log, item.seqNo, name, output) else output.None?) ||
      (source.body == ToolCallEnd(name, output) && input.None? && done)
    case PermissionItem(_, n, _, id, kind, summary, resolved) =>
      source.body == PermissionRequest(id, kind, summary) && Decision(resolved) == LastDecision(log[n..], id)
    case QuestionItem(_, n, _, id, text, answered) =>
      source.body == QuestionAsked(id, text) && Reply(answered) == LastAnswer(log[n..], id)
    case NoticeItem(_, _, _, text, isError) =>
      source.body.AgentError? && text == source.body.message.GetOr("agent error") && isError
  }

  /** Of the log from an item's number on, one more event is the end. */
  lemma LaterLog(log: seq<Event>, ev: Event, n: nat)
    requires 1 <= n <= |log|
    ensures (log + [ev])[n - 1] == log[n - 1]
    ensures (log + [ev])[n..] == log[n..] + [ev] && (log + [ev])[n - 1..] == log[n - 1..] + [ev]
    ensures (log[n..] + [ev])[..|log| - n] == log[n..]
  {
  }

  /** One more event, applied to a tool already in the stream. */
  lemma ToolRewritten(items: seq<Item>, i: nat, log: seq<Event>, ev: Event, names: map<string, string>)
    requires i < |items| && items[i].ToolItem? && Records(items[i], log)
    ensures Records(Rewritten(items, i, ev, names), log + [ev])
  {
    var n := items[i].seqNo;
    LaterLog(log, ev, n);
    var item := Rewritten(items, i, ev, names);
    if items[i].done && EndLogged(log, n, items[i].name, items[i].output) {
      var k :| n <= k < |log| && log[k].body == ToolCallEnd(item.name, item.output);
      assert (log + [ev])[k].body == ToolCallEnd(item.name, item.output);
    } else if item != items[i] {
      assert (log + [ev])[|log|].body == ToolCallEnd(item.name, item.output);
    }
  }

  /** A card already in the stream. */
  lemma CardRewritten(items: seq<Item>, i: nat, log: seq<Event>, ev: Event, names: map<string, string>)
    requires i < |items| && (items[i].PermissionItem? || items[i].QuestionItem?) && Records(items[i], log)
    ensures Records(Rewritten(items, i, ev, names), log + [ev])
  {
    LaterLog(log, ev, items[i].seqNo);
  }

  /** An assistant's text already in the stream. */
  lemma AssistantRewritten(items: seq<Item>, i: nat, log: seq<Event>, ev: Event, names: map<string, string>)
    requires i < |items| && items[i].AssistantItem? && Records(items[i], log)
    ensures Records(Rewritten(items, i, ev, names), log + [ev])
  {
    hide Subsequence, DeltaText;
    var n, was, now := items[i].seqNo, items[i].content, Rewritten(items, i, ev, names).content;
    var added := if ev.body.TextDelta? then ev.body.content else [];
    LaterLog(log, ev, n);
    DeltaTextAppend(log[n - 1..], ev);
    SubsequenceConcat(was, DeltaText(log[n - 1..]), added);
    if now != was {
      PieceIsSubsequence(was + added, 0, |now|);
      assert now == (was + added)[0..|now|];
      SubsequenceTrans(now, was + added, DeltaText(log[n - 1..]) + added);
    }
  }

  /** One more event, applied to any item already in the stream. */
  lemma RecordsRewritten(items: seq<Item>, i: nat, log: seq<Event>, ev: Event, names: map<string, string>)
    requires i < |items| && Records(items[i], log)
    ensures Records(Rewritten(items, i, ev, names), log + [ev])
  {
    hide Rewritten, Records;
    match items[i] {
      case ToolItem(_, _, _, _, _, _, _) => ToolRewritten(items, i, log, ev, names);
      case PermissionItem(_, _, _, _, _, _, _) => CardRewritten(items, i, log, ev, names);
      case QuestionItem(_, _, _, _, _, _) => CardRewritten(items, i, log, ev, names);
      case AssistantItem(_, _, _, _, _) => AssistantRewritten(items, i, log, ev, names);
      case _ => OtherRewritten(items, i, log, ev, names);
    }
  }

  lemma OtherRewritten(items: seq<Item>, i: nat, log: seq<Event>, ev: Event, names: map<string, string>)
    requires i < |items| && (items[i].PromptItem? || items[i].NoticeItem?) && Records(items[i], log)
    ensures Records(Rewritten(items, i, ev, names), log + [ev])
  {
  }

  lemma ClampedIsSubsequence(text: Text)
    ensures Subsequence(ClampText(text), text)
  {
    var clamped := ClampText(text);
    assert clamped == text[0..|clamped|];
    PieceIsSubsequence(text, 0, |clamped|);
  }

  lemma RecordsAdded(items: seq<Item>, log: seq<Event>, ev: Event)
    requires ev.seqNo == |log| + 1 && Added(items, ev).Some?
    ensures Records(Added(items, ev).value, log + [ev])
  {
    hide Subsequence, DeltaText, ClampText;
    assert (log + [ev])[ev.seqNo..] == [];
    assert (log + [ev])[ev.seqNo - 1..] == [] + [ev];
    if ev.body.TextDelta? {
      ClampedIsSubsequence(ev.body.content);
      DeltaTextAppend([], ev);
      NoDeltas();
      assert [] + ev.body.content == ev.body.content;
    }
  }

  lemma NoDeltas()
    ensures DeltaText([]) == []
  {
  }

  ghost function RecordedIn(log: seq<Event>): Item -> bool {
    (x: Item) => Records(x, log)
  }

  lemma RecordsStep(s: SessionState, log: seq<Event>, ev: Event, maxItems: Option<nat>)
    requires ev.seqNo == |log| + 1 && forall x :: x in s.items ==> Records(x, log)
    ensures forall x :: x in Trimmed(ApplyEvent(s, ev), maxItems).items ==> Records(x, log + [ev])
  {
    hide Records, ApplyEvent, Trimmed, Rewritten, Added;
    forall i | 0 <= i < |s.items| && RecordedIn(log)(s.items[i])
      ensures RecordedIn(log + [ev])(Rewritten(s.items, i, ev, s.deviceNames))
    {
      RecordsRewritten(s.items, i, log, ev, s.deviceNames);
    }
    if Added(s.items, ev).Some? {
      RecordsAdded(s.items, log, ev);
    }
    EveryItemStep(s, ev, maxItems, RecordedIn(log), RecordedIn(log + [ev]));
    forall x | x in Trimmed(ApplyEvent(s, ev), maxItems).items
      ensures Records(x, log + [ev])
    {
      assert RecordedIn(log + [ev])(x);
    }
  }

  /** Whichever consecutive piece of a log is applied up to its end, and whatever the trimming, every item is a
      faithful record of the whole log. */
  lemma {:induction false} StreamRecordsLog(log: seq<Event>, base: nat, maxItems: Option<nat>)
    requires Dense(log) && base <= |log|
    ensures forall x :: x in Replay(NEW_SESSION, log[base..], maxItems).items ==> Records(x, log)
    decreases |log|
  {
    if base < |log| {
      hide Records, ApplyEvent, Trimmed;
      var n := |log| - 1;
      var earlier, ev := log[..n], log[n];
      StreamRecordsLog(earlier, base, maxItems);
      RecordsStep(Replay(NEW_SESSION, earlier[base..], maxItems), earlier, ev, maxItems);
      assert log == earlier + [ev] && log[base..] == earlier[base..] + [ev];
      ReplayAppend(NEW_SESSION, earlier[base..], ev, maxItems);
    }
  }
}
