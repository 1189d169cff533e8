/** The client's reducer: how a snapshot seeds the session state and how each event advances it. */
module Reducer {
  import opened Protocol
  import opened Text
  import opened Counting

  const MAX_NOTICES := 50

  datatype Resolution = Resolution(allow: bool, byDevice: string, byName: string)

  datatype Answer = Answer(text: string, byDevice: string, byName: string)

  datatype Item =
    | PromptItem(id: string, seqNo: nat, ts: int, text: string, byDevice: string)
    | AssistantItem(id: string, seqNo: nat, ts: int, content: Text, sealed: bool)
    | ToolItem(id: string, seqNo: nat, ts: int, name: string, input: Option<string>, output: Option<string>, done: bool)
    | PermissionItem(id: string, seqNo: nat, ts: int, requestId: string, kind: string, summary: string,
                     resolved: Option<Resolution>)
    | QuestionItem(id: string, seqNo: nat, ts: int, questionId: string, text: string, answered: Option<Answer>)
    | NoticeItem(id: string, seqNo: nat, ts: int, text: string, isError: bool)

  datatype Usage = Usage(inputTokens: int, outputTokens: int)

  datatype SessionState = SessionState(
    sessionId: Option<string>,
    status: string,
    mode: string,
    tipSeq: nat,
    lastSeq: nat,
    items: seq<Item>,
    pendingPermissions: seq<PermissionView>,
    pendingQuestions: seq<QuestionView>,
    devices: seq<DeviceView>,
    deviceNames: map<string, string>,
    usage: Option<Usage>,
    turnActive: bool)

  const NEW_SESSION := SessionState(None, "idle", "", 0, 0, [], [], [], [], map[], None, false)

  // --- Item identifiers ---

  function Digit(d: nat): char
    requires d < 10
  {
    "0123456789"[d]
  }

  function Decimal(n: nat): (s: string)
    ensures s != []
  {
    if n < 10 then [Digit(n)] else Decimal(n / 10) + [Digit(n % 10)]
  }

  // --- Text ---

  predicate OpenAssistantLast(items: seq<Item>) {
    items != [] && items[|items| - 1].AssistantItem? && !items[|items| - 1].sealed
  }

  function AppendAssistant(items: seq<Item>, seqNo: nat, ts: int, content: Text): seq<Item> {
    if OpenAssistantLast(items) then
      var n := |items| - 1;
      items[..n] + [items[n].(content := ClampText(items[n].content + content))]
    else
      items + [AssistantItem("assistant-" + Decimal(seqNo), seqNo, ts, ClampText(content), false)]
  }

  function SealOpenAssistant(items: seq<Item>): seq<Item> {
    if OpenAssistantLast(items) then
      var n := |items| - 1;
      items[..n] + [items[n].(sealed := true)]
    else items
  }

  // --- Tools ---

  predicate IsOpenTool(item: Item, name: string) {
    item.ToolItem? && !item.done && item.name == name
  }

  /** The position of the last unfinished tool of that name. */
  function OpenTool(items: seq<Item>, name: string): (at: Option<nat>)
    ensures at.Some? ==> at.value < |items| && IsOpenTool(items[at.value], name)
    ensures at.Some? ==> forall k :: at.value < k < |items| ==> !IsOpenTool(items[k], name)
    ensures at.None? ==> forall k :: 0 <= k < |items| ==> !IsOpenTool(items[k], name)
  {
    if items == [] then None
    else if IsOpenTool(items[|items| - 1], name) then Some(|items| - 1)
    else OpenTool(items[..|items| - 1], name)
  }

  function Finished(item: Item, output: Option<string>): Item
    requires item.ToolItem?
  {
    item.(done := true, output := if output.Some? then output else item.output)
  }

  function ToolFinished(items: seq<Item>, name: string, output: Option<string>): seq<Item>
    requires OpenTool(items, name).Some?
  {
    var at := OpenTool(items, name).value;
    items[at := Finished(items[at], output)]
  }

  /** Scan backwards for the last unfinished tool of that name and finish it. */
  method FinishTool(items: seq<Item>, name: string, output: Option<string>)
    returns (finished: seq<Item>, matched: bool)
    ensures matched <==> OpenTool(items, name).Some?
    ensures finished == if matched then ToolFinished(items, name, output) else items
  {
    var i := |items|;
    while i > 0
      invariant 0 <= i <= |items|
      invariant forall k :: i <= k < |items| ==> !IsOpenTool(items[k], name)
    {
      i := i - 1;
      if IsOpenTool(items[i], name) {
        return items[..i] + [Finished(items[i], output)] + items[i + 1..], true;
      }
    }
    return items, false;
  }

  // --- Notices ---

  function NoticeCount(items: seq<Item>): nat {
    if items == [] then 0
    else NoticeCount(items[..|items| - 1]) + (if items[|items| - 1].NoticeItem? then 1 else 0)
  }

  /** Leave out the oldest `drop` notices. */
  function DropNotices(items: seq<Item>, drop: nat): seq<Item> {
    if items == [] then []
    else
      var n := |items| - 1;
      var kept := DropNotices(items[..n], drop);
      if items[n].NoticeItem? && NoticeCount(items[..n]) < drop then kept else kept + [items[n]]
  }

  function NoticePushed(items: seq<Item>, notice: Item): seq<Item>
    requires notice.NoticeItem?
  {
    var all := items + [notice];
    if NoticeCount(all) <= MAX_NOTICES then all else DropNotices(all, NoticeCount(all) - MAX_NOTICES)
  }

  /** The positions of the notices, in order. */
  function NoticeIndexes(items: seq<Item>): (indexes: seq<nat>)
    ensures |indexes| == NoticeCount(items)
    ensures forall i :: i in indexes ==> i < |items|
  {
    if items == [] then []
    else
      var n := |items| - 1;
      NoticeIndexes(items[..n]) + (if items[n].NoticeItem? then [n] else [])
  }

  lemma {:induction false} NoticeIndexesRank(items: seq<Item>, i: nat, drop: nat)
    requires i < |items| && drop <= NoticeCount(items)
    ensures i in NoticeIndexes(items)[..drop] <==> items[i].NoticeItem? && NoticeCount(items[..i]) < drop
  {
    var n := |items| - 1;
    var earlier := NoticeIndexes(items[..n]);
    if i == n {
      assert drop <= |earlier| ==> NoticeIndexes(items)[..drop] == earlier[..drop];
      assert n !in earlier;
      if drop == |earlier| + 1 {
        assert NoticeIndexes(items)[..drop][|earlier|] == n;
      }
    } else {
      assert items[..n][..i] == items[..i];
      if drop <= |earlier| {
        NoticeIndexesRank(items[..n], i, drop);
        assert NoticeIndexes(items)[..drop] == earlier[..drop];
      } else {
        NoticeIndexesRank(items[..n], i, drop - 1);
        assert NoticeIndexes(items)[..drop] == earlier[..drop - 1] + [n];
        NoticeCountMonotone(items[..n], i);
      }
    }
  }

  lemma {:induction false} NoticeCountMonotone(items: seq<Item>, i: nat)
    requires i < |items|
    ensures NoticeCount(items[..i]) + (if items[i].NoticeItem? then 1 else 0) <= NoticeCount(items)
  {
    var n := |items| - 1;
    if i < n {
      NoticeCountMonotone(items[..n], i);
      assert items[..n][..i] == items[..i];
    }
  }

  method FindNotices(items: seq<Item>) returns (indexes: seq<nat>)
    ensures indexes == NoticeIndexes(items)
  {
    indexes := [];
    for i := 0 to |items|
      invariant indexes == NoticeIndexes(items[..i])
    {
      assert items[..i + 1][..i] == items[..i];
      if items[i].NoticeItem? {
        indexes := indexes + [i];
      }
    }
    assert items[..|items|] == items;
  }

  /** Append a notice, then filter out the positions of the notices that are too many. */
  method PushNotice(items: seq<Item>, notice: Item) returns (kept: seq<Item>)
    requires notice.NoticeItem?
    ensures kept == NoticePushed(items, notice)
  {
    var all := items + [notice];
    var indexes := FindNotices(all);
    if |indexes| <= MAX_NOTICES {
      return all;
    }
    var excess := |indexes| - MAX_NOTICES;
    var drop := indexes[..excess];
    kept := [];
    for i := 0 to |all|
      invariant kept == DropNotices(all[..i], excess)
    {
      assert all[..i + 1][..i] == all[..i];
      NoticeIndexesRank(all, i, excess);
      if i !in drop {
        kept := kept + [all[i]];
      }
    }
    assert all[..|all|] == all;
  }

  // --- Pending lists ---

  function KeysOf<T(==)>(views: seq<T>, key: T -> string): set<string> {
    set v | v in views :: key(v)
  }

  /** The first view of each key, in order. */
  function Deduped<T(==)>(views: seq<T>, key: T -> string): seq<T> {
    if views == [] then []
    else
      var n := |views| - 1;
      var kept := Deduped(views[..n], key);
      if key(views[n]) in KeysOf(kept, key) then kept else kept + [views[n]]
  }

  method DedupeBy<T(==)>(views: seq<T>, key: T -> string) returns (out: seq<T>)
    ensures out == Deduped(views, key)
  {
    var seen: set<string> := {};
    out := [];
    for i := 0 to |views|
      invariant out == Deduped(views[..i], key)
      invariant seen == KeysOf(out, key)
    {
      assert views[..i + 1][..i] == views[..i];
      if key(views[i]) !in seen {
        seen := seen + {key(views[i])};
        out := out + [views[i]];
      }
    }
    assert views[..|views|] == views;
  }

  function Without<T>(views: seq<T>, key: T -> string, id: string): seq<T> {
    if views == [] then []
    else
      var n := |views| - 1;
      Without(views[..n], key, id) + (if key(views[n]) != id then [views[n]] else [])
  }

  // --- Attribution ---

  function NameFor(names: map<string, string>, deviceId: string): string {
    if deviceId == "" then "unknown"
    else if deviceId in names then names[deviceId]
    else if |deviceId| <= 8 then deviceId else deviceId[..8]
  }

  function ResolvePermission(items: seq<Item>, id: string, resolution: Resolution): (out: seq<Item>)
    ensures |out| == |items|
    ensures forall k :: 0 <= k < |items| ==>
              out[k] == if items[k].PermissionItem? && items[k].requestId == id
                        then items[k].(resolved := Some(resolution)) else items[k]
  {
    seq(|items|, k requires 0 <= k < |items| =>
      if items[k].PermissionItem? && items[k].requestId == id
      then items[k].(resolved := Some(resolution)) else items[k])
  }

  function AnswerQuestion(items: seq<Item>, id: string, answer: Answer): (out: seq<Item>)
    ensures |out| == |items|
    ensures forall k :: 0 <= k < |items| ==>
              out[k] == if items[k].QuestionItem? && items[k].questionId == id
                        then items[k].(answered := Some(answer)) else items[k]
  {
    seq(|items|, k requires 0 <= k < |items| =>
      if items[k].QuestionItem? && items[k].questionId == id
      then items[k].(answered := Some(answer)) else items[k])
  }

  predicate HasPermission(items: seq<Item>, id: string) {
    exists k :: 0 <= k < |items| && items[k].PermissionItem? && items[k].requestId == id
  }

  predicate HasQuestion(items: seq<Item>, id: string) {
    exists k :: 0 <= k < |items| && items[k].QuestionItem? && items[k].questionId == id
  }

  // --- The reducer ---

  function NamesAfter(names: map<string, string>, devices: seq<DeviceView>): map<string, string> {
    if devices == [] then names
    else NamesAfter(names, devices[..|devices| - 1])[devices[|devices| - 1].deviceId := devices[|devices| - 1].name]
  }

  predicate IsOtherSession(state: SessionState, snap: SnapshotPayload) {
    state.sessionId.Some? && state.sessionId.value != snap.sessionId
  }

  /** Seed status, mode, tip, pending lists and device names. Items and `lastSeq` stay, unless the
      snapshot belongs to another session. */
  function ApplySnapshot(state: SessionState, snap: SnapshotPayload): SessionState {
    var base := if IsOtherSession(state, snap) then NEW_SESSION else state;
    base.(
      sessionId := Some(snap.sessionId),
      status := snap.status,
      mode := snap.mode.GetOr(base.mode),
      tipSeq := snap.lastSeq,
      pendingPermissions := Deduped(snap.pendingPermissions, RequestIdOf()),
      pendingQuestions := Deduped(snap.pendingQuestions, QuestionIdOf()),
      devices := snap.devices,
      deviceNames := NamesAfter(base.deviceNames, snap.devices))
  }

  /** What one event does to the stream of items. */
  function NextItems(items: seq<Item>, ev: Event, names: map<string, string>): seq<Item> {
    var n := ev.seqNo;
    match ev.body
    case UserPrompt(text, byDevice) =>
      SealOpenAssistant(items) + [PromptItem("prompt-" + Decimal(n), n, ev.ts, text, byDevice)]
    case TextDelta(content) =>
      if content == [] then items else AppendAssistant(items, n, ev.ts, content)
    case TurnComplete => SealOpenAssistant(items)
    case ToolCallStart(name, input) =>
      items + [ToolItem("tool-" + Decimal(n), n, ev.ts, name, input, None, false)]
    case ToolCallEnd(name, output) =>
      if OpenTool(items, name).Some? then ToolFinished(items, name, output)
      else items + [ToolItem("tool-" + Decimal(n), n, ev.ts, name, None, output, true)]
    case PermissionRequest(id, kind, summary) =>
      if id == "" || HasPermission(items, id) then items
      else items + [PermissionItem("perm-" + id, n, ev.ts, id, kind, summary, None)]
    case PermissionResolved(id, allow, byDevice) =>
      ResolvePermission(items, id, Resolution(allow, byDevice, NameFor(names, byDevice)))
    case QuestionAsked(id, text) =>
      if id == "" || HasQuestion(items, id) then items
      else items + [QuestionItem("q-" + id, n, ev.ts, id, text, None)]
    case QuestionResolved(id, text, byDevice) =>
      AnswerQuestion(items, id, Answer(text, byDevice, NameFor(names, byDevice)))
    case AgentError(message) =>
      NoticePushed(items, NoticeItem("notice-" + Decimal(n), n, ev.ts, message.GetOr("agent error"), true))
    case _ => items
  }

  function NextPermissions(views: seq<PermissionView>, body: Body): seq<PermissionView> {
    match body
    case PermissionRequest(id, kind, summary) =>
      if id == "" then views else Deduped(views + [PermissionView(id, kind, summary)], RequestIdOf())
    case PermissionResolved(id, _, _) => Without(views, RequestIdOf(), id)
    case _ => views
  }

  function NextQuestions(views: seq<QuestionView>, body: Body): seq<QuestionView> {
    match body
    case QuestionAsked(id, text) =>
      if id == "" then views else Deduped(views + [QuestionView(id, text)], QuestionIdOf())
    case QuestionResolved(id, _, _) => Without(views, QuestionIdOf(), id)
    case _ => views
  }

  function NextTurnActive(turnActive: bool, body: Body): bool {
    match body
    case UserPrompt(_, _) => true
    case TurnComplete => false
    case StatusChange(status) => status == "running"
    case _ => turnActive
  }

  /** Apply one event. The caller has already checked that its number is the next one. */
  function ApplyEvent(state: SessionState, ev: Event): SessionState {
    state.(
      lastSeq := ev.seqNo,
      items := NextItems(state.items, ev, state.deviceNames),
      status := if ev.body.StatusChange? then ev.body.status else state.status,
      mode := if ev.body.ModeChanged? then ev.body.mode else state.mode,
      usage := if ev.body.UsageUpdate? then Some(Usage(ev.body.inputTokens, ev.body.outputTokens)) else state.usage,
      pendingPermissions := NextPermissions(state.pendingPermissions, ev.body),
      pendingQuestions := NextQuestions(state.pendingQuestions, ev.body),
      turnActive := NextTurnActive(state.turnActive, ev.body))
  }

  // --- The reducer as it computes, with its loops ---

  method CollectNames(names: map<string, string>, devices: seq<DeviceView>) returns (all: map<string, string>)
    ensures all == NamesAfter(names, devices)
  {
    all := names;
    for i := 0 to |devices|
      invariant all == NamesAfter(names, devices[..i])
    {
      assert devices[..i + 1][..i] == devices[..i];
      all := all[devices[i].deviceId := devices[i].name];
    }
    assert devices[..|devices|] == devices;
  }

  method SeedFromSnapshot(state: SessionState, snap: SnapshotPayload) returns (next: SessionState)
    ensures next == ApplySnapshot(state, snap)
  {
    var base := if IsOtherSession(state, snap) then NEW_SESSION else state;
    var names := CollectNames(base.deviceNames, snap.devices);
    var permissions := DedupeBy(snap.pendingPermissions, RequestIdOf());
    var questions := DedupeBy(snap.pendingQuestions, QuestionIdOf());
    next := base.(sessionId := Some(snap.sessionId), status := snap.status, mode := snap.mode.GetOr(base.mode),
                  tipSeq := snap.lastSeq, pendingPermissions := permissions, pendingQuestions := questions,
                  devices := snap.devices, deviceNames := names);
  }

  method AppendDelta(items: seq<Item>, seqNo: nat, ts: int, content: Text) returns (next: seq<Item>)
    ensures next == AppendAssistant(items, seqNo, ts, content)
  {
    if OpenAssistantLast(items) {
      var n := |items| - 1;
      var text := Clamp(items[n].content + content);
      next := items[..n] + [items[n].(content := text)];
    } else {
      var text := Clamp(content);
      next := items + [AssistantItem("assistant-" + Decimal(seqNo), seqNo, ts, text, false)];
    }
  }

  method EndTool(items: seq<Item>, seqNo: nat, ts: int, name: string, output: Option<string>)
    returns (next: seq<Item>)
    ensures forall names :: next == NextItems(items, Event(seqNo, ts, ToolCallEnd(name, output)), names)
  {
    var finished, matched := FinishTool(items, name, output);
    next := if matched then finished
            else items + [ToolItem("tool-" + Decimal(seqNo), seqNo, ts, name, None, output, true)];
  }

  /** Apply one event. The caller has already checked that its number is the next one. */
  method AdvanceByEvent(state: SessionState, ev: Event) returns (next: SessionState)
    ensures next == ApplyEvent(state, ev)
  {
    var n, items := ev.seqNo, state.items;
    next := state.(lastSeq := n);
    match ev.body {
      case UserPrompt(text, byDevice) =>
        var prompt := PromptItem("prompt-" + Decimal(n), n, ev.ts, text, byDevice);
        next := next.(items := SealOpenAssistant(items) + [prompt], turnActive := true);
      case TextDelta(content) =>
        if content != [] {
          items := AppendDelta(items, n, ev.ts, content);
          next := next.(items := items);
        }
      case TurnComplete =>
        next := next.(items := SealOpenAssistant(items), turnActive := false);
      case StatusChange(status) =>
        next := next.(status := status, turnActive := status == "running");
      case ModeChanged(mode, _) =>
        next := next.(mode := mode);
      case UsageUpdate(inputTokens, outputTokens) =>
        next := next.(usage := Some(Usage(inputTokens, outputTokens)));
      case ToolCallStart(name, input) =>
        next := next.(items := items + [ToolItem("tool-" + Decimal(n), n, ev.ts, name, input, None, false)]);
      case ToolCallEnd(name, output) =>
        items := EndTool(items, n, ev.ts, name, output);
        next := next.(items := items);
      case PermissionRequest(id, kind, summary) =>
        if id != "" {
          var pending := DedupeBy(state.pendingPermissions + [PermissionView(id, kind, summary)], RequestIdOf());
          next := next.(pendingPermissions := pending,
                        items := if HasPermission(items, id) then items
                                 else items + [PermissionItem("perm-" + id, n, ev.ts, id, kind, summary, None)]);
        }
      case PermissionResolved(id, allow, byDevice) =>
        var resolution := Resolution(allow, byDevice, NameFor(state.deviceNames, byDevice));
        next := next.(pendingPermissions := Without(state.pendingPermissions, RequestIdOf(), id),
                      items := ResolvePermission(items, id, resolution));
      case QuestionAsked(id, text) =>
        if id != "" {
          var pending := DedupeBy(state.pendingQuestions + [QuestionView(id, text)], QuestionIdOf());
          next := next.(pendingQuestions := pending,
                        items := if HasQuestion(items, id) then items
                                 else items + [QuestionItem("q-" + id, n, ev.ts, id, text, None)]);
        }
      case QuestionResolved(id, text, byDevice) =>
        var answer := Answer(text, byDevice, NameFor(state.deviceNames, byDevice));
        next := next.(pendingQuestions := Without(state.pendingQuestions, QuestionIdOf(), id),
                      items := AnswerQuestion(items, id, answer));
      case AgentError(message) =>
        var notice := NoticeItem("notice-" + Decimal(n), n, ev.ts, message.GetOr("agent error"), true);
        items := PushNotice(items, notice);
        next := next.(items := items);
      case OtherKind(_) =>
    }
  }

  /** Keep the newest `max` items. */
  function TrimItems(items: seq<Item>, max: nat): seq<Item> {
    if |items| <= max then items else items[|items| - max..]
  }

  function Trimmed(state: SessionState, maxItems: Option<nat>): SessionState {
    if maxItems.Some? && |state.items| > maxItems.value
    then state.(items := TrimItems(state.items, maxItems.value)) else state
  }

  function Reduce(maxItems: Option<nat>): (SessionState, Event) -> SessionState {
    (s: SessionState, ev: Event) => Trimmed(ApplyEvent(s, ev), maxItems)
  }

  /** Apply a run of events one by one, trimming after each. */
  function Replay(state: SessionState, events: seq<Event>, maxItems: Option<nat>): SessionState {
    FoldLeft(Reduce(maxItems), state, events)
  }

  lemma ReplayAppend(state: SessionState, events: seq<Event>, ev: Event, maxItems: Option<nat>)
    ensures Replay(state, events + [ev], maxItems) ==
            Trimmed(ApplyEvent(Replay(state, events, maxItems), ev), maxItems)
  {
  }

  lemma ReplayLast(state: SessionState, log: seq<Event>, maxItems: Option<nat>)
    requires log != []
    ensures Replay(state, log, maxItems) ==
            Trimmed(ApplyEvent(Replay(state, log[..|log| - 1], maxItems), log[|log| - 1]), maxItems)
  {
  }

  lemma ReplayItems(log: seq<Event>)
    requires log != []
    ensures var s := Replay(NEW_SESSION, log[..|log| - 1], None);
            Replay(NEW_SESSION, log, None).items == NextItems(s.items, log[|log| - 1], s.deviceNames)
  {
  }

  // --- What the reducers leave alone ---

  /** A snapshot never touches the stream or `lastSeq`, unless it starts another session. */
  lemma SnapshotKeepsStream(state: SessionState, snap: SnapshotPayload)
    ensures var base := if IsOtherSession(state, snap) then NEW_SESSION else state;
            var after := ApplySnapshot(state, snap);
            after.lastSeq == base.lastSeq && after.items == base.items && after.usage == base.usage &&
            after.turnActive == base.turnActive && after.tipSeq == snap.lastSeq &&
            after.sessionId == Some(snap.sessionId)
  {
  }

  /** An event moves `lastSeq` to its own number and never touches the tip or the session. */
  lemma EventMovesLastSeq(state: SessionState, ev: Event, maxItems: Option<nat>)
    ensures var after := Trimmed(ApplyEvent(state, ev), maxItems);
            after.lastSeq == ev.seqNo && after.tipSeq == state.tipSeq && after.sessionId == state.sessionId
  {
  }

  // --- Facts about the pending lists ---

  lemma KeysAppend<T>(views: seq<T>, v: T, key: T -> string)
    ensures KeysOf(views + [v], key) == KeysOf(views, key) + {key(v)}
  {
  }

  lemma KeyFound<T>(views: seq<T>, id: string, key: T -> string) returns (i: nat)
    requires id in KeysOf(views, key)
    ensures i < |views| && key(views[i]) == id
  {
    var v :| v in views && key(v) == id;
    i :| i < |views| && views[i] == v;
  }

  /** Deduplication keeps the set of keys. */
  lemma {:induction false} DedupedKeepsKeys<T>(views: seq<T>, key: T -> string)
    ensures KeysOf(Deduped(views, key), key) == KeysOf(views, key)
  {
    if views != [] {
      var earlier, last := views[..|views| - 1], views[|views| - 1];
      DedupedKeepsKeys(earlier, key);
      assert views == earlier + [last];
      KeysAppend(earlier, last, key);
      KeysAppend(Deduped(earlier, key), last, key);
    }
  }

  /** Deduplication lists each key once. */
  lemma {:induction false} DedupedIsDistinct<T>(views: seq<T>, key: T -> string, i: nat, j: nat)
    requires i < j < |Deduped(views, key)|
    ensures key(Deduped(views, key)[i]) != key(Deduped(views, key)[j])
  {
    var kept := Deduped(views[..|views| - 1], key);
    if j < |kept| {
      DedupedIsDistinct(views[..|views| - 1], key, i, j);
    } else {
      assert kept[i] in kept;
    }
  }

  /** Deduplication keeps the first view of each key. */
  lemma {:induction false} DedupedKeepsFirst<T>(views: seq<T>, key: T -> string, i: nat)
    requires i < |views| && forall j :: 0 <= j < i ==> key(views[j]) != key(views[i])
    ensures views[i] in Deduped(views, key)
  {
    var n := |views| - 1;
    if i < n {
      assert forall j :: 0 <= j < i ==> key(views[..n][j]) != key(views[..n][i]);
      DedupedKeepsFirst(views[..n], key, i);
    } else if key(views[n]) in KeysOf(Deduped(views[..n], key), key) {
      DedupedKeepsKeys(views[..n], key);
      var j := KeyFound(views[..n], key(views[n]), key);
      assert false;
    }
  }

  lemma {:induction false} WithoutRemovesKey<T>(views: seq<T>, key: T -> string, id: string)
    ensures KeysOf(Without(views, key, id), key) == KeysOf(views, key) - {id}
  {
    if views != [] {
      var earlier, last := views[..|views| - 1], views[|views| - 1];
      WithoutRemovesKey(earlier, key, id);
      assert views == earlier + [last];
      KeysAppend(earlier, last, key);
      KeysAppend(Without(earlier, key, id), last, key);
      assert Without(earlier, key, id) + [] == Without(earlier, key, id);
    }
  }
}
