/** What the stream and the view are sure to show: nothing that was added is lost but surplus notices and what
    trimming takes from the front. */
module Shown {
  import opened Protocol
  import opened Text
  import opened Store
  import opened Reducer
  import opened Shape
  import opened Stream

  // --- Trimming ---

  /** Trimming keeps the newest items, as many as allowed, and nothing else changes. */
  lemma TrimKeepsNewest(s: SessionState, m: nat)
    ensures var t := Trimmed(s, Some(m));
            t == s.(items := t.items) && |t.items| == (if |s.items| <= m then |s.items| else m) &&
            t.items == s.items[|s.items| - |t.items|..]
    ensures Trimmed(s, None) == s
  {
  }

  lemma {:induction false} DropNoticesLength(items: seq<Item>, drop: nat)
    ensures |DropNotices(items, drop)| == |items| - (if drop <= NoticeCount(items) then drop else NoticeCount(items))
  {
    if items != [] {
      DropNoticesLength(items[..|items| - 1], drop);
    }
  }

  /** Of at most one notice too many, the oldest goes and the new one stays. */
  lemma NoticePushedLast(items: seq<Item>, notice: Item)
    requires notice.NoticeItem? && NoticeCount(items) <= MAX_NOTICES
    ensures var all := NoticePushed(items, notice);
            |items| <= |all| <= |items| + 1 && all != [] && all[|all| - 1] == notice
  {
    var all := items + [notice];
    assert all[..|items|] == items;
    if NoticeCount(all) > MAX_NOTICES {
      DropNoticesLength(all, NoticeCount(all) - MAX_NOTICES);
    }
  }

  /** The items an event leaves end with the one it adds, and are as many as before or one more; but for error
      notices they are all the earlier ones and then that. */
  lemma AddedComesLast(items: seq<Item>, ev: Event, names: map<string, string>)
    requires Added(items, ev).Some? && NoticeCount(items) <= MAX_NOTICES
    ensures var next := NextItems(items, ev, names);
            |items| <= |next| <= |items| + 1 && next != [] && next[|next| - 1] == Added(items, ev).value &&
            (!ev.body.AgentError? ==>
               |next| == |items| + 1 && forall i :: 0 <= i < |items| ==> SameIdentity(items[i], next[i]))
  {
    hide NextItems, SameIdentity;
    var grown := NextItemsSteps(items, ev, names);
    if ev.body.AgentError? {
      NoticePushedNext(items, ev, names);
    } else {
      forall i | 0 <= i < |items|
        ensures SameIdentity(items[i], grown[i])
      {
        RewrittenKeepsIdentity(items, i, ev, names);
      }
    }
  }

  lemma NoticePushedNext(items: seq<Item>, ev: Event, names: map<string, string>)
    requires ev.body.AgentError? && NoticeCount(items) <= MAX_NOTICES
    ensures var next := NextItems(items, ev, names);
            |items| <= |next| <= |items| + 1 && next != [] && next[|next| - 1] == Added(items, ev).value
  {
    NoticePushedLast(items, Added(items, ev).value);
  }

  /** A full stream stays full: an event that adds an item leaves as many as allowed, the added one last; and unless
      it is an error notice, only the oldest item goes for it. */
  lemma FullStreamStaysFull(s: SessionState, ev: Event, m: nat)
    requires 0 < m == |s.items| && Added(s.items, ev).Some? && NoticeCount(s.items) <= MAX_NOTICES
    ensures var after := Trimmed(ApplyEvent(s, ev), Some(m)).items;
            |after| == m && after[m - 1] == Added(s.items, ev).value &&
            (!ev.body.AgentError? ==> forall i :: 0 <= i < m - 1 ==> SameIdentity(s.items[i + 1], after[i]))
  {
    hide NextItems, Added, SameIdentity;
    AddedComesLast(s.items, ev, s.deviceNames);
    TrimKeepsNewest(ApplyEvent(s, ev), m);
  }

  // --- Nothing added is lost ---

  predicate ShowsEntry(items: seq<Item>, n: nat) {
    exists i :: 0 <= i < |items| && items[i].seqNo == n && !items[i].NoticeItem?
  }

  lemma {:induction false} DropNoticesKeepsOthers(items: seq<Item>, drop: nat, n: nat)
    requires ShowsEntry(items, n)
    ensures ShowsEntry(DropNotices(items, drop), n)
  {
    var i :| 0 <= i < |items| && items[i].seqNo == n && !items[i].NoticeItem?;
    var last := |items| - 1;
    var kept := DropNotices(items[..last], drop);
    if i < last {
      assert items[..last][i] == items[i];
      DropNoticesKeepsOthers(items[..last], drop, n);
      var j :| 0 <= j < |kept| && kept[j].seqNo == n && !kept[j].NoticeItem?;
      assert DropNotices(items, drop)[j] == kept[j];
    } else {
      assert DropNotices(items, drop)[|kept|] == items[last];
    }
  }

  lemma GrownShowsEntry(grown: seq<Item>, items: seq<Item>, ev: Event, names: map<string, string>, n: nat)
    requires Extends(grown, items, ev, names)
    requires ShowsEntry(items, n) || (Added(items, ev).Some? && ev.seqNo == n && !ev.body.AgentError?)
    ensures ShowsEntry(grown, n)
  {
    if ShowsEntry(items, n) {
      var i :| 0 <= i < |items| && items[i].seqNo == n && !items[i].NoticeItem?;
      RewrittenKeepsIdentity(items, i, ev, names);
      assert grown[i].seqNo == n && !grown[i].NoticeItem?;
    } else {
      AddedIsNew(items, ev);
      assert grown[|items|].seqNo == n && !grown[|items|].NoticeItem?;
    }
  }

  lemma EntryStep(items: seq<Item>, ev: Event, names: map<string, string>, n: nat)
    requires ShowsEntry(items, n) || (Added(items, ev).Some? && ev.seqNo == n && !ev.body.AgentError?)
    ensures ShowsEntry(NextItems(items, ev, names), n)
  {
    hide NextItems, Added, ShowsEntry;
    var grown := NextItemsSteps(items, ev, names);
    GrownShowsEntry(grown, items, ev, names, n);
    if ev.body.AgentError? && NoticeCount(grown) > MAX_NOTICES {
      DropNoticesKeepsOthers(grown, NoticeCount(grown) - MAX_NOTICES, n);
    }
  }

  /** Without trimming, every event that adds an item, but for error notices, has it in the stream for good. */
  lemma {:induction false} EveryAdditionStays(log: seq<Event>, k: nat)
    requires k < |log| && !log[k].body.AgentError?
    requires Added(Replay(NEW_SESSION, log[..k], None).items, log[k]).Some?
    ensures ShowsEntry(Replay(NEW_SESSION, log, None).items, log[k].seqNo)
  {
    hide Replay, ShowsEntry, Added;
    var n := |log| - 1;
    var s := Replay(NEW_SESSION, log[..n], None);
    if k < n {
      assert log[..n][..k] == log[..k];
      EveryAdditionStays(log[..n], k);
    }
    EntryStep(s.items, log[n], s.deviceNames, log[k].seqNo);
    ReplayItems(log);
  }

  /** In particular every prompt is shown, with its text and its device. */
  lemma EveryPromptIsShown(log: seq<Event>, k: nat)
    requires Dense(log) && k < |log| && log[k].body.UserPrompt?
    ensures exists i ::
              0 <= i < |Replay(NEW_SESSION, log, None).items| &&
              var x := Replay(NEW_SESSION, log, None).items[i];
              x.PromptItem? && x.seqNo == k + 1 && x.ts == log[k].ts && x.text == log[k].body.text &&
              x.byDevice == log[k].body.byDevice
  {
    hide Replay;
    EveryAdditionStays(log, k);
    var items := Replay(NEW_SESSION, log, None).items;
    var i :| 0 <= i < |items| && items[i].seqNo == k + 1 && !items[i].NoticeItem?;
    StreamRecordsLog(log, 0, None);
    assert log[0..] == log && items[i] in items;
    assert Records(items[i], log);
  }

  // --- Assistant texts ---

  /** After a turn ends or a prompt comes, the next delta opens an item of its own; right after a delta it joins. */
  lemma DeltasFollowTurns(items: seq<Item>, first: Event, delta: Event, names: map<string, string>)
    requires delta.body.TextDelta? && delta.body.content != []
    ensures var before := NextItems(items, first, names);
            var after := NextItems(before, delta, names);
            (first.body.TurnComplete? || first.body.UserPrompt? ==>
              |after| == |before| + 1 && after[..|before|] == before && after[|before|].AssistantItem? &&
              after[|before|].seqNo == delta.seqNo && after[|before|].content == ClampText(delta.body.content)) &&
            (first.body.TextDelta? && first.body.content != [] ==>
              |after| == |before| > 0 && after[..|before| - 1] == before[..|before| - 1] &&
              before[|before| - 1].AssistantItem? &&
              after[|before| - 1] == before[|before| - 1].(
                content := ClampText(before[|before| - 1].content + delta.body.content)))
  {
    hide ClampText, Decimal;
  }

  // --- Turns and usage ---

  predicate BeginsTurn(body: Body) {
    body.UserPrompt? || body == StatusChange("running")
  }

  predicate EndsTurn(body: Body) {
    body.TurnComplete? || (body.StatusChange? && body.status != "running")
  }

  /** Something in the log began a turn, and nothing has ended it since. */
  predicate InTurn(log: seq<Event>) {
    exists k :: 0 <= k < |log| && BeginsTurn(log[k].body) && forall j :: k < j < |log| ==> !EndsTurn(log[j].body)
  }

  lemma InTurnStep(log: seq<Event>)
    requires log != []
    ensures var n := |log| - 1;
            InTurn(log) <==> BeginsTurn(log[n].body) || (InTurn(log[..n]) && !EndsTurn(log[n].body))
  {
    hide BeginsTurn, EndsTurn;
    var n := |log| - 1;
    var before := log[..n];
    if InTurn(before) && !EndsTurn(log[n].body) {
      var k :| 0 <= k < n && BeginsTurn(before[k].body) && forall j :: k < j < n ==> !EndsTurn(before[j].body);
      assert BeginsTurn(log[k].body);
      assert forall j :: k < j < |log| ==> j < n ==> log[j] == before[j];
    }
    if InTurn(log) && !BeginsTurn(log[n].body) {
      var k :| 0 <= k < |log| && BeginsTurn(log[k].body) && forall j :: k < j < |log| ==> !EndsTurn(log[j].body);
      assert BeginsTurn(before[k].body);
      assert InTurn(before);
    }
  }

  lemma TurnStep(s: SessionState, ev: Event, maxItems: Option<nat>)
    ensures Trimmed(ApplyEvent(s, ev), maxItems).turnActive <==>
            BeginsTurn(ev.body) || (s.turnActive && !EndsTurn(ev.body))
  {
    hide NextItems, TrimItems;
  }

  /** A turn is active exactly if something in the log began one and nothing has ended it since. */
  lemma {:induction false} TurnIsActive(log: seq<Event>, maxItems: Option<nat>)
    ensures Replay(NEW_SESSION, log, maxItems).turnActive <==> InTurn(log)
  {
    hide Trimmed, ApplyEvent, BeginsTurn, EndsTurn;
    if log != [] {
      hide InTurn;
      var n := |log| - 1;
      TurnIsActive(log[..n], maxItems);
      ReplayLast(NEW_SESSION, log, maxItems);
      TurnStep(Replay(NEW_SESSION, log[..n], maxItems), log[n], maxItems);
      InTurnStep(log);
    }
  }

  predicate NoUsageFrom(log: seq<Event>, k: int) {
    forall j :: 0 <= j < |log| && k <= j ==> !log[j].body.UsageUpdate?
  }

  /** What the usage updates of the log say in the end. */
  predicate UsageOf(usage: Option<Usage>, log: seq<Event>) {
    match usage
    case None => NoUsageFrom(log, 0)
    case Some(u) =>
      exists k :: 0 <= k < |log| && log[k].body == UsageUpdate(u.inputTokens, u.outputTokens) && NoUsageFrom(log, k + 1)
  }

  lemma NoUsageStep(log: seq<Event>, k: int)
    requires log != [] && NoUsageFrom(log[..|log| - 1], k) && !log[|log| - 1].body.UsageUpdate?
    ensures NoUsageFrom(log, k)
  {
  }

  lemma UsageOfStep(usage: Option<Usage>, log: seq<Event>)
    requires log != [] && UsageOf(usage, log[..|log| - 1])
    ensures var body := log[|log| - 1].body;
            UsageOf(if body.UsageUpdate? then Some(Usage(body.inputTokens, body.outputTokens)) else usage, log)
  {
    var n := |log| - 1;
    var before := log[..n];
    if log[n].body.UsageUpdate? {
      assert NoUsageFrom(log, n + 1);
      assert log[n].body == UsageUpdate(log[n].body.inputTokens, log[n].body.outputTokens);
    } else {
      hide NoUsageFrom;
      if usage.Some? {
        var k :| 0 <= k < n && before[k].body == UsageUpdate(usage.value.inputTokens, usage.value.outputTokens) &&
                 NoUsageFrom(before, k + 1);
        NoUsageStep(log, k + 1);
        assert log[k] == before[k];
      } else {
        NoUsageStep(log, 0);
      }
    }
  }

  lemma UsageStep(s: SessionState, ev: Event, maxItems: Option<nat>)
    ensures Trimmed(ApplyEvent(s, ev), maxItems).usage ==
            if ev.body.UsageUpdate? then Some(Usage(ev.body.inputTokens, ev.body.outputTokens)) else s.usage
  {
    hide NextItems, TrimItems;
  }

  /** The usage shown is that of the last update in the log. */
  lemma {:induction false} UsageIsLast(log: seq<Event>, maxItems: Option<nat>)
    ensures UsageOf(Replay(NEW_SESSION, log, maxItems).usage, log)
  {
    hide Trimmed, ApplyEvent;
    if log != [] {
      hide UsageOf;
      var n := |log| - 1;
      UsageIsLast(log[..n], maxItems);
      var s := Replay(NEW_SESSION, log[..n], maxItems);
      ReplayLast(NEW_SESSION, log, maxItems);
      UsageStep(s, log[n], maxItems);
      UsageOfStep(s.usage, log);
    }
  }

  // --- Names ---

  /** The name shown for a device: its own if a snapshot gave one, else the head of its id. */
  predicate IsNameOf(name: string, device: string, names: map<string, string>) {
    if device == "" then name == "unknown"
    else if device in names then name == names[device]
    else name <= device && |name| == (if |device| < 8 then |device| else 8)
  }

  /** A resolution marks every item of its card, and no other, with the decision, the device and its name. */
  lemma ResolutionMarks(items: seq<Item>, ev: Event, names: map<string, string>, i: nat)
    requires ev.body.PermissionResolved? && i < |items|
    ensures var next := NextItems(items, ev, names);
            |next| == |items| &&
            if items[i].PermissionItem? && items[i].requestId == ev.body.requestId then
              next[i].PermissionItem? && next[i] == items[i].(resolved := next[i].resolved) && next[i].resolved.Some? &&
              next[i].resolved.value.allow == ev.body.allow && next[i].resolved.value.byDevice == ev.body.byDevice &&
              IsNameOf(next[i].resolved.value.byName, ev.body.byDevice, names)
            else next[i] == items[i]
  {
  }

  lemma AnswerMarks(items: seq<Item>, ev: Event, names: map<string, string>, i: nat)
    requires ev.body.QuestionResolved? && i < |items|
    ensures var next := NextItems(items, ev, names);
            |next| == |items| &&
            if items[i].QuestionItem? && items[i].questionId == ev.body.questionId then
              next[i].QuestionItem? && next[i] == items[i].(answered := next[i].answered) && next[i].answered.Some? &&
              next[i].answered.value.text == ev.body.text && next[i].answered.value.byDevice == ev.body.byDevice &&
              IsNameOf(next[i].answered.value.byName, ev.body.byDevice, names)
            else next[i] == items[i]
  {
  }

  predicate ListedLast(devices: seq<DeviceView>, id: string, k: nat) {
    k < |devices| && devices[k].deviceId == id && forall j :: k < j < |devices| ==> devices[j].deviceId != id
  }

  predicate Unlisted(devices: seq<DeviceView>, id: string) {
    forall j :: 0 <= j < |devices| ==> devices[j].deviceId != id
  }

  /** Of several names of a device in a snapshot the last counts. */
  lemma {:induction false} LastNameCounts(names: map<string, string>, devices: seq<DeviceView>, id: string, k: nat)
    requires ListedLast(devices, id, k)
    ensures id in NamesAfter(names, devices) && NamesAfter(names, devices)[id] == devices[k].name
  {
    if k < |devices| - 1 {
      LastNameCounts(names, devices[..|devices| - 1], id, k);
    }
  }

  lemma {:induction false} UnlistedKeepsName(names: map<string, string>, devices: seq<DeviceView>, id: string)
    requires Unlisted(devices, id)
    ensures id in NamesAfter(names, devices) <==> id in names
    ensures id in names ==> NamesAfter(names, devices)[id] == names[id]
  {
    if devices != [] {
      UnlistedKeepsName(names, devices[..|devices| - 1], id);
    }
  }

  /** A snapshot brings its devices, and adds their names to those known of the session. */
  lemma SnapshotBringsDevices(s: SessionState, snap: SnapshotPayload, id: string, k: nat)
    ensures var t := ApplySnapshot(s, snap);
            t.devices == snap.devices &&
            (ListedLast(snap.devices, id, k) ==> id in t.deviceNames && t.deviceNames[id] == snap.devices[k].name)
    ensures var t := ApplySnapshot(s, snap);
            Unlisted(snap.devices, id) ==>
              (id in t.deviceNames <==> id in s.deviceNames && !IsOtherSession(s, snap)) &&
              (id in t.deviceNames ==> t.deviceNames[id] == s.deviceNames[id])
  {
    var names := if IsOtherSession(s, snap) then map[] else s.deviceNames;
    if ListedLast(snap.devices, id, k) {
      LastNameCounts(names, snap.devices, id, k);
    }
    if Unlisted(snap.devices, id) {
      UnlistedKeepsName(names, snap.devices, id);
    }
  }
}
