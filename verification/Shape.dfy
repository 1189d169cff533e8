/** A normal form for the reducer: every event rewrites some items in place, appends at most one item,
    and only an error notice can push old notices out. */
module Shape {
  import opened Protocol
  import opened Text
  import opened Reducer

  /** All assistant text in the log. */
  function DeltaText(log: seq<Event>): Text {
    if log == [] then []
    else
      var last := log[|log| - 1].body;
      DeltaText(log[..|log| - 1]) + (if last.TextDelta? then last.content else [])
  }

  lemma DeltaTextAppend(log: seq<Event>, ev: Event)
    ensures DeltaText(log + [ev]) == DeltaText(log) + (if ev.body.TextDelta? then ev.body.content else [])
  {
    assert (log + [ev])[..|log|] == log;
  }

  /** What the event turns the item at position i into. */
  function Rewritten(items: seq<Item>, i: nat, ev: Event, names: map<string, string>): Item
    requires i < |items|
  {
    var item := items[i];
    var openLast := i == |items| - 1 && OpenAssistantLast(items);
    match ev.body
    case UserPrompt(_, _) => if openLast then item.(sealed := true) else item
    case TurnComplete => if openLast then item.(sealed := true) else item
    case TextDelta(content) =>
      if openLast && content != [] then item.(content := ClampText(item.content + content)) else item
    case ToolCallEnd(name, output) =>
      if OpenTool(items, name) == Some(i) then Finished(item, output) else item
    case PermissionResolved(id, allow, byDevice) =>
      if item.PermissionItem? && item.requestId == id
      then item.(resolved := Some(Resolution(allow, byDevice, NameFor(names, byDevice)))) else item
    case QuestionResolved(id, text, byDevice) =>
      if item.QuestionItem? && item.questionId == id
      then item.(answered := Some(Answer(text, byDevice, NameFor(names, byDevice)))) else item
    case _ => item
  }

  /** The item the event appends, if it appends one. */
  function Added(items: seq<Item>, ev: Event): Option<Item> {
    var n := ev.seqNo;
    match ev.body
    case UserPrompt(text, byDevice) => Some(PromptItem("prompt-" + Decimal(n), n, ev.ts, text, byDevice))
    case TextDelta(content) =>
      if content == [] || OpenAssistantLast(items) then None
      else Some(AssistantItem("assistant-" + Decimal(n), n, ev.ts, ClampText(content), false))
    case ToolCallStart(name, input) => Some(ToolItem("tool-" + Decimal(n), n, ev.ts, name, input, None, false))
    case ToolCallEnd(name, output) =>
      if OpenTool(items, name).Some? then None
      else Some(ToolItem("tool-" + Decimal(n), n, ev.ts, name, None, output, true))
    case PermissionRequest(id, kind, summary) =>
      if id == "" || HasPermission(items, id) then None
      else Some(PermissionItem("perm-" + id, n, ev.ts, id, kind, summary, None))
    case QuestionAsked(id, text) =>
      if id == "" || HasQuestion(items, id) then None
      else Some(QuestionItem("q-" + id, n, ev.ts, id, text, None))
    case AgentError(message) =>
      Some(NoticeItem("notice-" + Decimal(n), n, ev.ts, message.GetOr("agent error"), true))
    case _ => None
  }

  /** The items before any notice is pushed out: the first |items| are the old ones rewritten. */
  ghost predicate Extends(grown: seq<Item>, items: seq<Item>, ev: Event, names: map<string, string>) {
    |grown| == |items| + (if Added(items, ev).Some? then 1 else 0) &&
    (forall i :: 0 <= i < |items| ==> grown[i] == Rewritten(items, i, ev, names)) &&
    (Added(items, ev).Some? ==> grown[|items|] == Added(items, ev).value)
  }

  /** `next` is what remains of the grown stream when at most MAX_NOTICES notices may stay. */
  ghost predicate Survives(next: seq<Item>, grown: seq<Item>, body: Body) {
    next == if body.AgentError? && NoticeCount(grown) > MAX_NOTICES
            then DropNotices(grown, NoticeCount(grown) - MAX_NOTICES) else grown
  }

  ghost predicate Steps(next: seq<Item>, grown: seq<Item>, items: seq<Item>, ev: Event, names: map<string, string>) {
    Extends(grown, items, ev, names) && Survives(next, grown, ev.body)
  }

  function Tail(added: Option<Item>): seq<Item> {
    if added.Some? then [added.value] else []
  }

  lemma GrownSplit(grown: seq<Item>, items: seq<Item>, ev: Event, names: map<string, string>)
    returns (changed: seq<Item>)
    requires Extends(grown, items, ev, names)
    ensures |changed| == |items| && forall i :: 0 <= i < |items| ==> changed[i] == Rewritten(items, i, ev, names)
    ensures grown == changed + Tail(Added(items, ev))
  {
    changed := grown[..|items|];
  }

  lemma TextEventSteps(items: seq<Item>, ev: Event, names: map<string, string>)
    requires ev.body.UserPrompt? || ev.body.TurnComplete? || ev.body.TextDelta?
    ensures Steps(NextItems(items, ev, names), NextItems(items, ev, names), items, ev, names)
  {
  }

  lemma ToolEventSteps(items: seq<Item>, ev: Event, names: map<string, string>)
    requires ev.body.ToolCallStart? || ev.body.ToolCallEnd?
    ensures Steps(NextItems(items, ev, names), NextItems(items, ev, names), items, ev, names)
  {
  }

  lemma CardEventSteps(items: seq<Item>, ev: Event, names: map<string, string>)
    requires Opens(ev.body).Some? || Closes(ev.body).Some?
    ensures Steps(NextItems(items, ev, names), NextItems(items, ev, names), items, ev, names)
  {
  }

  /** Every event of every kind steps the stream in the normal form. */
  lemma NextItemsSteps(items: seq<Item>, ev: Event, names: map<string, string>) returns (grown: seq<Item>)
    ensures Steps(NextItems(items, ev, names), grown, items, ev, names)
  {
    grown := NextItems(items, ev, names);
    if ev.body.UserPrompt? || ev.body.TurnComplete? || ev.body.TextDelta? {
      TextEventSteps(items, ev, names);
    } else if ev.body.ToolCallStart? || ev.body.ToolCallEnd? {
      ToolEventSteps(items, ev, names);
    } else if Opens(ev.body).Some? || Closes(ev.body).Some? {
      CardEventSteps(items, ev, names);
    } else if ev.body.AgentError? {
      grown := items + [Added(items, ev).value];
    }
  }

  // --- Selecting items ---

  lemma {:induction false} DropNoticesSelects(items: seq<Item>, drop: nat)
    ensures forall x :: x in DropNotices(items, drop) ==> x in items
    ensures forall x :: x in items && !x.NoticeItem? ==> x in DropNotices(items, drop)
  {
    if items != [] {
      var n := |items| - 1;
      DropNoticesSelects(items[..n], drop);
      assert items == items[..n] + [items[n]];
    }
  }

  lemma SurvivorsSelected(next: seq<Item>, grown: seq<Item>, body: Body)
    requires Survives(next, grown, body)
    ensures forall x :: x in next ==> x in grown
    ensures forall x :: x in grown && !x.NoticeItem? ==> x in next
  {
    if body.AgentError? && NoticeCount(grown) > MAX_NOTICES {
      DropNoticesSelects(grown, NoticeCount(grown) - MAX_NOTICES);
    }
  }

  lemma TrimSelects(s: SessionState, maxItems: Option<nat>)
    ensures forall x :: x in Trimmed(s, maxItems).items ==> x in s.items
  {
  }

  lemma EveryGrownItem(
    grown: seq<Item>, items: seq<Item>, ev: Event, names: map<string, string>,
    before: Item -> bool, after: Item -> bool)
    requires Extends(grown, items, ev, names)
    requires forall x :: x in items ==> before(x)
    requires forall i :: 0 <= i < |items| && before(items[i]) ==> after(Rewritten(items, i, ev, names))
    requires Added(items, ev).Some? ==> after(Added(items, ev).value)
    ensures forall x :: x in grown ==> after(x)
  {
  }

  /** A property of single items, relative to the log, that survives every step. */
  lemma EveryItemStep(
    s: SessionState, ev: Event, maxItems: Option<nat>, before: Item -> bool, after: Item -> bool)
    requires forall x :: x in s.items ==> before(x)
    requires forall i :: 0 <= i < |s.items| && before(s.items[i]) ==>
               after(Rewritten(s.items, i, ev, s.deviceNames))
    requires Added(s.items, ev).Some? ==> after(Added(s.items, ev).value)
    ensures forall x :: x in Trimmed(ApplyEvent(s, ev), maxItems).items ==> after(x)
  {
    var grown := NextItemsSteps(s.items, ev, s.deviceNames);
    EveryGrownItem(grown, s.items, ev, s.deviceNames, before, after);
    SurvivorsSelected(ApplyEvent(s, ev).items, grown, ev.body);
    TrimSelects(ApplyEvent(s, ev), maxItems);
  }
}
