/** Memory bounds of the stream over whole runs, and exactly what they cost in lost text. */
module Bounds {
  import opened Protocol
  import opened Text
  import opened Counting
  import opened Reducer
  import opened Shape

  // --- Assistant text ---

  predicate Fits(x: Item) {
    x.AssistantItem? ==> Utf8Length(x.content) <= MAX_TEXT_BYTES
  }

  function FitsBound(): Item -> bool {
    (x: Item) => Fits(x)
  }

  lemma RewrittenFits(items: seq<Item>, i: nat, ev: Event, names: map<string, string>)
    requires i < |items| && Fits(items[i])
    ensures Fits(Rewritten(items, i, ev, names))
  {
  }

  lemma AddedFits(items: seq<Item>, ev: Event)
    requires Added(items, ev).Some?
    ensures Fits(Added(items, ev).value)
  {
  }

  lemma FitsStep(s: SessionState, ev: Event, maxItems: Option<nat>)
    requires forall x :: x in s.items ==> FitsBound()(x)
    ensures forall x :: x in Trimmed(ApplyEvent(s, ev), maxItems).items ==> FitsBound()(x)
  {
    forall i | 0 <= i < |s.items| && FitsBound()(s.items[i])
      ensures FitsBound()(Rewritten(s.items, i, ev, s.deviceNames))
    {
      RewrittenFits(s.items, i, ev, s.deviceNames);
    }
    if Added(s.items, ev).Some? {
      AddedFits(s.items, ev);
    }
    EveryItemStep(s, ev, maxItems, FitsBound(), FitsBound());
  }

  /** No assistant item ever exceeds the byte bound. */
  lemma {:induction false} AssistantTextBounded(log: seq<Event>, maxItems: Option<nat>)
    ensures forall x :: x in Replay(NEW_SESSION, log, maxItems).items ==> FitsBound()(x)
  {
    if log != [] {
      AssistantTextBounded(log[..|log| - 1], maxItems);
      FitsStep(Replay(NEW_SESSION, log[..|log| - 1], maxItems), log[|log| - 1], maxItems);
      ReplayLast(NEW_SESSION, log, maxItems);
    }
  }

  /** All assistant text on display, in stream order. */
  function StreamText(items: seq<Item>): Text {
    if items == [] then []
    else
      var last := items[|items| - 1];
      StreamText(items[..|items| - 1]) + (if last.AssistantItem? then last.content else [])
  }

  /** The delta takes the item it lands in over the byte bound. */
  predicate Overflows(items: seq<Item>, body: Body) {
    body.TextDelta? && body.content != [] &&
    Utf8Length((if OpenAssistantLast(items) then items[|items| - 1].content else []) + body.content) > MAX_TEXT_BYTES
  }

  lemma {:induction false} StreamTextSame(a: seq<Item>, b: seq<Item>)
    requires |a| == |b|
    requires forall i :: 0 <= i < |a| ==> (a[i].AssistantItem? <==> b[i].AssistantItem?) &&
                                          (a[i].AssistantItem? ==> a[i].content == b[i].content)
    ensures StreamText(a) == StreamText(b)
  {
    if a != [] {
      StreamTextSame(a[..|a| - 1], b[..|b| - 1]);
    }
  }

  lemma StreamTextAppend(items: seq<Item>, item: Item)
    ensures StreamText(items + [item]) == StreamText(items) + (if item.AssistantItem? then item.content else [])
  {
  }

  lemma {:induction false} StreamTextDropNotices(items: seq<Item>, drop: nat)
    ensures StreamText(DropNotices(items, drop)) == StreamText(items)
  {
    if items != [] {
      var n := |items| - 1;
      StreamTextDropNotices(items[..n], drop);
      StreamTextAppend(DropNotices(items[..n], drop), items[n]);
      assert StreamText(items[..n]) + [] == StreamText(items[..n]);
    }
  }

  lemma ClampShortens(text: Text)
    ensures if Utf8Length(text) <= MAX_TEXT_BYTES then ClampText(text) == text else |ClampText(text)| < |text|
  {
  }

  lemma DeltaIntoOpenItem(items: seq<Item>, seqNo: nat, ts: int, content: Text)
    requires OpenAssistantLast(items) && content != []
    ensures var next := AppendAssistant(items, seqNo, ts, content);
            if Overflows(items, TextDelta(content)) then |StreamText(next)| < |StreamText(items)| + |content|
            else StreamText(next) == StreamText(items) + content
  {
  }

  lemma DeltaIntoNewItem(items: seq<Item>, seqNo: nat, ts: int, content: Text)
    requires !OpenAssistantLast(items) && content != []
    ensures var next := AppendAssistant(items, seqNo, ts, content);
            if Overflows(items, TextDelta(content)) then |StreamText(next)| < |StreamText(items)| + |content|
            else StreamText(next) == StreamText(items) + content
  {
    assert [] + content == content;
    ClampShortens(content);
    StreamTextAppend(items, AssistantItem("assistant-" + Decimal(seqNo), seqNo, ts, ClampText(content), false));
  }

  lemma RewrittenKeepsText(items: seq<Item>, i: nat, ev: Event, names: map<string, string>)
    requires i < |items| && !ev.body.TextDelta?
    ensures var item := Rewritten(items, i, ev, names);
            (item.AssistantItem? <==> items[i].AssistantItem?) &&
            (item.AssistantItem? ==> item.content == items[i].content)
  {
  }

  lemma GrownKeepsText(grown: seq<Item>, items: seq<Item>, ev: Event, names: map<string, string>)
    requires Extends(grown, items, ev, names) && !ev.body.TextDelta?
    ensures StreamText(grown) == StreamText(items)
  {
    var changed := grown[..|items|];
    forall i | 0 <= i < |items|
      ensures (changed[i].AssistantItem? <==> items[i].AssistantItem?) &&
              (changed[i].AssistantItem? ==> changed[i].content == items[i].content)
    {
      RewrittenKeepsText(items, i, ev, names);
    }
    StreamTextSame(changed, items);
    if Added(items, ev).Some? {
      assert grown == changed + [Added(items, ev).value];
      StreamTextAppend(changed, Added(items, ev).value);
      assert StreamText(changed) + [] == StreamText(changed);
    } else {
      assert grown == changed;
    }
  }

  lemma SurvivorsKeepText(next: seq<Item>, grown: seq<Item>, body: Body)
    requires Survives(next, grown, body)
    ensures StreamText(next) == StreamText(grown)
  {
    if body.AgentError? && NoticeCount(grown) > MAX_NOTICES {
      StreamTextDropNotices(grown, NoticeCount(grown) - MAX_NOTICES);
    }
  }

  lemma TextStep(s: SessionState, ev: Event)
    ensures var after := StreamText(NextItems(s.items, ev, s.deviceNames));
            var added := if ev.body.TextDelta? then ev.body.content else [];
            if Overflows(s.items, ev.body) then |after| < |StreamText(s.items)| + |added|
            else after == StreamText(s.items) + added
  {
    if ev.body.TextDelta? {
      if ev.body.content == [] {
        assert StreamText(s.items) + [] == StreamText(s.items);
      } else if OpenAssistantLast(s.items) {
        DeltaIntoOpenItem(s.items, ev.seqNo, ev.ts, ev.body.content);
      } else {
        DeltaIntoNewItem(s.items, ev.seqNo, ev.ts, ev.body.content);
      }
    } else {
      var grown := NextItemsSteps(s.items, ev, s.deviceNames);
      GrownKeepsText(grown, s.items, ev, s.deviceNames);
      SurvivorsKeepText(NextItems(s.items, ev, s.deviceNames), grown, ev.body);
      assert StreamText(s.items) + [] == StreamText(s.items);
    }
  }

  /** No delta of the log is clamped. */
  predicate NothingClamped(log: seq<Event>) {
    log == [] ||
    (NothingClamped(log[..|log| - 1]) &&
     !Overflows(Replay(NEW_SESSION, log[..|log| - 1], None).items, log[|log| - 1].body))
  }

  /** Without trimming, the displayed text is the logged text, nothing lost, doubled or reordered,
      exactly when no delta is clamped; otherwise it is shorter. */
  lemma {:induction false} TextConserved(log: seq<Event>)
    ensures var shown := StreamText(Replay(NEW_SESSION, log, None).items);
            if NothingClamped(log) then shown == DeltaText(log) else |shown| < |DeltaText(log)|
  {
    if log != [] {
      var earlier, ev := log[..|log| - 1], log[|log| - 1];
      TextConserved(earlier);
      var s := Replay(NEW_SESSION, earlier, None);
      TextStep(s, ev);
      ReplayItems(log);
    }
  }

  /** Clamped or not, an event adds to the text only what it logs, at the end. */
  lemma TextGrowsInOrder(s: SessionState, ev: Event)
    ensures var added := if ev.body.TextDelta? then ev.body.content else [];
            Subsequence(StreamText(NextItems(s.items, ev, s.deviceNames)), StreamText(s.items) + added)
  {
    hide NextItems;
    var text, next := StreamText(s.items), StreamText(NextItems(s.items, ev, s.deviceNames));
    if ev.body.TextDelta? {
      var content := ev.body.content;
      var n := |s.items| - 1;
      TextStep(s, ev);
      if !Overflows(s.items, ev.body) {
        assert next == next[0..|next|];
        PieceIsSubsequence(next, 0, |next|);
      } else if OpenAssistantLast(s.items) {
        OpenDeltaClamped(s.items, ev, s.deviceNames);
        PieceIsSubsequence(text + content, 0, |next|);
        assert next == (text + content)[0..|next|];
      } else {
        NewDeltaClamped(s.items, ev, s.deviceNames);
        PieceIsSubsequence(text + content, 0, |next|);
        assert next == (text + content)[0..|next|];
      }
    } else {
      TextStep(s, ev);
      assert next == text == text + [] == next[0..|next|];
      PieceIsSubsequence(next, 0, |next|);
    }
  }

  lemma OpenDeltaClamped(items: seq<Item>, ev: Event, names: map<string, string>)
    requires ev.body.TextDelta? && ev.body.content != [] && OpenAssistantLast(items)
    ensures StreamText(NextItems(items, ev, names)) <= StreamText(items) + ev.body.content
  {
    var n := |items| - 1;
    var item := items[n].(content := ClampText(items[n].content + ev.body.content));
    StreamTextAppend(items[..n], item);
    assert StreamText(items) + ev.body.content == StreamText(items[..n]) + (items[n].content + ev.body.content);
  }

  lemma NewDeltaClamped(items: seq<Item>, ev: Event, names: map<string, string>)
    requires ev.body.TextDelta? && ev.body.content != [] && !OpenAssistantLast(items)
    ensures StreamText(NextItems(items, ev, names)) <= StreamText(items) + ev.body.content
  {
    var item := AssistantItem("assistant-" + Decimal(ev.seqNo), ev.seqNo, ev.ts, ClampText(ev.body.content), false);
    StreamTextAppend(items, item);
  }

  lemma {:induction false} TextOfTail(items: seq<Item>, from: nat)
    requires from <= |items|
    ensures |StreamText(items[from..])| <= |StreamText(items)|
    ensures StreamText(items)[|StreamText(items)| - |StreamText(items[from..])|..] == StreamText(items[from..])
  {
    if from < |items| {
      var n := |items| - 1;
      TextOfTail(items[..n], from);
      assert items[from..][..n - from] == items[..n][from..];
    }
  }

  lemma TextOfTrimmed(s: SessionState, maxItems: Option<nat>)
    ensures Subsequence(StreamText(Trimmed(s, maxItems).items), StreamText(s.items))
  {
    var from := if maxItems.Some? && |s.items| > maxItems.value then |s.items| - maxItems.value else 0;
    assert Trimmed(s, maxItems).items == s.items[from..];
    TextOfTail(s.items, from);
    var text, kept := StreamText(s.items), StreamText(s.items[from..]);
    PieceIsSubsequence(text, |text| - |kept|, |text|);
    assert text[|text| - |kept|..|text|] == kept;
  }

  /** Whatever is clamped and trimmed, the text on display is the logged text with pieces left out: nothing
      is invented, doubled or out of order. */
  lemma {:induction false} TextIsLogged(log: seq<Event>, maxItems: Option<nat>)
    ensures Subsequence(StreamText(Replay(NEW_SESSION, log, maxItems).items), DeltaText(log))
  {
    if log != [] {
      hide Subsequence, StreamText, NextItems, Trimmed, Replay;
      var n := |log| - 1;
      TextIsLogged(log[..n], maxItems);
      var s := Replay(NEW_SESSION, log[..n], maxItems);
      var next := ApplyEvent(s, log[n]);
      var added := if log[n].body.TextDelta? then log[n].body.content else [];
      TextGrowsInOrder(s, log[n]);
      SubsequenceConcat(StreamText(s.items), DeltaText(log[..n]), added);
      TextOfTrimmed(next, maxItems);
      SubsequenceTrans(StreamText(Trimmed(next, maxItems).items), StreamText(next.items), StreamText(s.items) + added);
      SubsequenceTrans(StreamText(Trimmed(next, maxItems).items), StreamText(s.items) + added,
                       DeltaText(log[..n]) + added);
      ReplayLast(NEW_SESSION, log, maxItems);
    } else {
      NothingShown(maxItems);
    }
  }

  lemma NothingShown(maxItems: Option<nat>)
    ensures StreamText(Replay(NEW_SESSION, [], maxItems).items) == []
  {
  }

  lemma {:induction false} AsciiLength(n: nat)
    ensures Utf8Length(seq(n, _ => 0x61)) == n
  {
    if n > 0 {
      AsciiLength(n - 1);
      assert seq(n, _ => 0x61 as CodeUnit)[1..] == seq(n - 1, _ => 0x61 as CodeUnit);
    }
  }

  /** One delta over the byte bound is clamped. */
  lemma LongDeltaIsClamped(ev: Event)
    requires ev.body == TextDelta(seq(MAX_TEXT_BYTES + 1, _ => 0x61))
    ensures !NothingClamped([ev])
  {
    hide Replay;
    AsciiLength(MAX_TEXT_BYTES + 1);
    EmptyStream();
    assert [ev][..0] == [];
    assert [] + ev.body.content == ev.body.content;
  }

  lemma EmptyStream()
    ensures Replay(NEW_SESSION, [], None).items == []
  {
  }

  // --- Notices ---

  function Notices(items: seq<Item>): seq<Item> {
    if items == [] then []
    else
      var last := items[|items| - 1];
      Notices(items[..|items| - 1]) + (if last.NoticeItem? then [last] else [])
  }

  function Others(items: seq<Item>): seq<Item> {
    if items == [] then []
    else
      var last := items[|items| - 1];
      Others(items[..|items| - 1]) + (if last.NoticeItem? then [] else [last])
  }

  function Newest<T>(s: seq<T>, k: nat): seq<T> {
    if |s| <= k then s else s[|s| - k..]
  }

  lemma NoticesAppend(items: seq<Item>, item: Item)
    ensures Notices(items + [item]) == Notices(items) + (if item.NoticeItem? then [item] else [])
    ensures Others(items + [item]) == Others(items) + (if item.NoticeItem? then [] else [item])
    ensures NoticeCount(items + [item]) == NoticeCount(items) + (if item.NoticeItem? then 1 else 0)
  {
  }

  lemma {:induction false} NoticeCountIsLength(items: seq<Item>)
    ensures NoticeCount(items) == |Notices(items)|
  {
    if items != [] {
      NoticeCountIsLength(items[..|items| - 1]);
    }
  }

  function After<T>(s: seq<T>, k: nat): seq<T> {
    if |s| <= k then [] else s[k..]
  }

  lemma {:induction false} DropNoticesDropsOldest(items: seq<Item>, drop: nat)
    ensures Notices(DropNotices(items, drop)) == After(Notices(items), drop)
    ensures Others(DropNotices(items, drop)) == Others(items)
  {
    if items != [] {
      var earlier, last := items[..|items| - 1], items[|items| - 1];
      NoticeCountIsLength(earlier);
      DropNoticesDropsOldest(earlier, drop);
      NoticesAppend(DropNotices(earlier, drop), last);
    }
  }

  /** Pushing a notice keeps the newest notices, at most MAX_NOTICES of them, and every other item. */
  lemma NoticePushedKeepsNewest(items: seq<Item>, notice: Item)
    requires notice.NoticeItem?
    ensures Notices(NoticePushed(items, notice)) == Newest(Notices(items) + [notice], MAX_NOTICES)
    ensures Others(NoticePushed(items, notice)) == Others(items)
  {
    var all := items + [notice];
    NoticesAppend(items, notice);
    NoticeCountIsLength(all);
    var excess := NoticeCount(all) - MAX_NOTICES;
    if excess > 0 {
      DropNoticesDropsOldest(all, excess);
      assert After(Notices(all), excess) == Newest(Notices(all), MAX_NOTICES);
    }
  }

  function SeqsOf(items: seq<Item>): (seqs: seq<nat>)
    ensures |seqs| == |items| && forall i :: 0 <= i < |items| ==> seqs[i] == items[i].seqNo
  {
    seq(|items|, i requires 0 <= i < |items| => items[i].seqNo)
  }

  /** The sequence numbers of the error events of a log. */
  function ErrorSeqs(log: seq<Event>): seq<nat> {
    if log == [] then []
    else
      var last := log[|log| - 1];
      ErrorSeqs(log[..|log| - 1]) + (if last.body.AgentError? then [last.seqNo] else [])
  }

  lemma {:induction false} NoticesSame(a: seq<Item>, b: seq<Item>)
    requires |a| == |b|
    requires forall i :: 0 <= i < |a| ==>
               (a[i].NoticeItem? <==> b[i].NoticeItem?) && (a[i].NoticeItem? ==> a[i] == b[i])
    ensures Notices(a) == Notices(b)
  {
    if a != [] {
      NoticesSame(a[..|a| - 1], b[..|b| - 1]);
    }
  }

  lemma RewrittenKeepsNotice(items: seq<Item>, i: nat, ev: Event, names: map<string, string>)
    requires i < |items|
    ensures var item := Rewritten(items, i, ev, names);
            (item.NoticeItem? <==> items[i].NoticeItem?) && (item.NoticeItem? ==> item == items[i])
  {
  }

  lemma GrownNotices(grown: seq<Item>, items: seq<Item>, ev: Event, names: map<string, string>)
    requires Extends(grown, items, ev, names) && !ev.body.AgentError?
    ensures Notices(grown) == Notices(items)
  {
    var changed := grown[..|items|];
    forall i | 0 <= i < |items|
      ensures (changed[i].NoticeItem? <==> items[i].NoticeItem?) && (changed[i].NoticeItem? ==> changed[i] == items[i])
    {
      RewrittenKeepsNotice(items, i, ev, names);
    }
    NoticesSame(changed, items);
    if Added(items, ev).Some? {
      assert grown == changed + [Added(items, ev).value];
      NoticesAppend(changed, Added(items, ev).value);
    } else {
      assert grown == changed;
    }
  }

  lemma NewestAgain<T>(s: seq<T>, x: T, k: nat)
    ensures Newest(Newest(s, k) + [x], k) == Newest(s + [x], k)
  {
  }

  lemma SeqsOfNewest(items: seq<Item>, notice: Item, k: nat)
    ensures SeqsOf(Newest(items + [notice], k)) == Newest(SeqsOf(items) + [notice.seqNo], k)
  {
  }

  lemma NoticeStep(items: seq<Item>, ev: Event, names: map<string, string>)
    ensures SeqsOf(Notices(NextItems(items, ev, names))) ==
            if ev.body.AgentError? then Newest(SeqsOf(Notices(items)) + [ev.seqNo], MAX_NOTICES)
            else SeqsOf(Notices(items))
  {
    if ev.body.AgentError? {
      var notice := Added(items, ev).value;
      NoticePushedKeepsNewest(items, notice);
      SeqsOfNewest(Notices(items), notice, MAX_NOTICES);
    } else {
      var grown := NextItemsSteps(items, ev, names);
      GrownNotices(grown, items, ev, names);
    }
  }

  /** Without trimming, the notices on display are exactly those of the newest MAX_NOTICES errors. */
  lemma {:induction false} NoticesAreNewest(log: seq<Event>)
    ensures SeqsOf(Notices(Replay(NEW_SESSION, log, None).items)) == Newest(ErrorSeqs(log), MAX_NOTICES)
  {
    if log != [] {
      var earlier, ev := log[..|log| - 1], log[|log| - 1];
      NoticesAreNewest(earlier);
      var s := Replay(NEW_SESSION, earlier, None);
      NoticeStep(s.items, ev, s.deviceNames);
      NewestAgain(ErrorSeqs(earlier), ev.seqNo, MAX_NOTICES);
      ReplayItems(log);
    }
  }

  /** The sequence ends with this one. */
  predicate EndsWith<T(==)>(s: seq<T>, tail: seq<T>) {
    |tail| <= |s| && s[|s| - |tail|..] == tail
  }

  lemma {:induction false} NoticesOfTail(items: seq<Item>, from: nat)
    requires from <= |items|
    ensures EndsWith(SeqsOf(Notices(items)), SeqsOf(Notices(items[from..])))
  {
    var n := |items| - 1;
    if from < |items| {
      NoticesOfTail(items[..n], from);
      assert items[from..][..n - from] == items[..n][from..];
    }
  }

  lemma EndsWithNewest<T>(s: seq<T>, tail: seq<T>, x: T, k: nat)
    requires EndsWith(s, tail)
    ensures EndsWith(s + [x], Newest(tail + [x], k))
  {
  }

  lemma EndsWithAgain<T>(s: seq<T>, tail: seq<T>, end: seq<T>)
    requires EndsWith(s, tail) && EndsWith(tail, end)
    ensures EndsWith(s, end)
  {
  }

  /** The notices on display are the newest of these errors. */
  predicate ShowsNewest(items: seq<Item>, errors: seq<nat>) {
    |SeqsOf(Notices(items))| <= MAX_NOTICES && EndsWith(errors, SeqsOf(Notices(items)))
  }

  lemma ShowsNewestStep(items: seq<Item>, errors: seq<nat>, ev: Event, names: map<string, string>)
    requires ShowsNewest(items, errors)
    ensures ShowsNewest(NextItems(items, ev, names), if ev.body.AgentError? then errors + [ev.seqNo] else errors)
  {
    hide NextItems, Notices;
    NoticeStep(items, ev, names);
    EndsWithNewest(errors, SeqsOf(Notices(items)), ev.seqNo, MAX_NOTICES);
  }

  lemma ShowsNewestTrim(s: SessionState, errors: seq<nat>, maxItems: Option<nat>)
    requires ShowsNewest(s.items, errors)
    ensures ShowsNewest(Trimmed(s, maxItems).items, errors)
  {
    hide Notices;
    var t := Trimmed(s, maxItems);
    if maxItems.Some? && |s.items| > maxItems.value {
      NoticesOfTail(s.items, |s.items| - maxItems.value);
      EndsWithAgain(errors, SeqsOf(Notices(s.items)), SeqsOf(Notices(t.items)));
    }
  }

  /** With any trimming, the notices on display are still the newest errors, and at most MAX_NOTICES. */
  lemma {:induction false} TrimmedNoticesAreNewest(log: seq<Event>, maxItems: Option<nat>)
    ensures ShowsNewest(Replay(NEW_SESSION, log, maxItems).items, ErrorSeqs(log))
  {
    if log != [] {
      hide ShowsNewest, NextItems, Trimmed, Replay;
      var earlier, ev := log[..|log| - 1], log[|log| - 1];
      TrimmedNoticesAreNewest(earlier, maxItems);
      var s := Replay(NEW_SESSION, earlier, maxItems);
      ShowsNewestStep(s.items, ErrorSeqs(earlier), ev, s.deviceNames);
      ReplayLast(NEW_SESSION, log, maxItems);
      ShowsNewestTrim(ApplyEvent(s, ev), ErrorSeqs(log), maxItems);
      assert ErrorSeqs(earlier) + [] == ErrorSeqs(earlier);
    }
  }
}
