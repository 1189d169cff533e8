/** Device names come from snapshots, not from the log. Everything else in the stream is a function of
    the events alone. */
module Names {
  import opened Protocol
  import opened Reducer
  import opened Shape

  /** The item without the resolved name of the device that answered it. */
  function Nameless(item: Item): Item {
    match item
    case PermissionItem(_, _, _, _, _, _, Some(r)) => item.(resolved := Some(r.(byName := "")))
    case QuestionItem(_, _, _, _, _, Some(a)) => item.(answered := Some(a.(byName := "")))
    case _ => item
  }

  /** The same items up to resolved names. */
  ghost predicate Alike(a: seq<Item>, b: seq<Item>) {
    |a| == |b| && forall i :: 0 <= i < |a| ==> Nameless(a[i]) == Nameless(b[i])
  }

  /** The same items up to resolved names, the same usage and the same turn activity. */
  ghost predicate SameStream(s: SessionState, t: SessionState) {
    Alike(s.items, t.items) && s.usage == t.usage && s.turnActive == t.turnActive
  }

  lemma {:induction false} AlikeOpenTool(a: seq<Item>, b: seq<Item>, name: string)
    requires Alike(a, b)
    ensures OpenTool(a, name) == OpenTool(b, name)
  {
  }

  lemma AlikeOpenAssistant(a: seq<Item>, b: seq<Item>)
    requires Alike(a, b)
    ensures OpenAssistantLast(a) == OpenAssistantLast(b)
  {
  }

  lemma AlikeAdded(a: seq<Item>, b: seq<Item>, ev: Event)
    requires Alike(a, b)
    ensures Added(a, ev) == Added(b, ev)
  {
  }

  lemma AlikeCardRewritten(
    a: seq<Item>, b: seq<Item>, i: nat, ev: Event, names: map<string, string>, others: map<string, string>)
    requires i < |a| == |b| && Nameless(a[i]) == Nameless(b[i]) && Closes(ev.body).Some?
    ensures Nameless(Rewritten(a, i, ev, names)) == Nameless(Rewritten(b, i, ev, others))
  {
  }

  lemma AlikeTextRewritten(
    a: seq<Item>, b: seq<Item>, i: nat, ev: Event, names: map<string, string>, others: map<string, string>)
    requires i < |a| == |b| && Nameless(a[i]) == Nameless(b[i])
    requires ev.body.UserPrompt? || ev.body.TurnComplete? || ev.body.TextDelta?
    requires OpenAssistantLast(a) == OpenAssistantLast(b)
    ensures Nameless(Rewritten(a, i, ev, names)) == Nameless(Rewritten(b, i, ev, others))
  {
  }

  lemma AlikeToolRewritten(
    a: seq<Item>, b: seq<Item>, i: nat, ev: Event, names: map<string, string>, others: map<string, string>)
    requires i < |a| == |b| && Nameless(a[i]) == Nameless(b[i])
    requires ev.body.ToolCallEnd? && OpenTool(a, ev.body.name) == OpenTool(b, ev.body.name)
    ensures Nameless(Rewritten(a, i, ev, names)) == Nameless(Rewritten(b, i, ev, others))
  {
  }

  lemma AlikeGrown(
    grownA: seq<Item>, grownB: seq<Item>, a: seq<Item>, b: seq<Item>, ev: Event,
    names: map<string, string>, others: map<string, string>)
    requires Alike(a, b) && Extends(grownA, a, ev, names) && Extends(grownB, b, ev, others)
    ensures Alike(grownA, grownB)
  {
    AlikeAdded(a, b, ev);
    forall i | 0 <= i < |a|
      ensures Nameless(grownA[i]) == Nameless(grownB[i])
    {
      if Closes(ev.body).Some? {
        AlikeCardRewritten(a, b, i, ev, names, others);
      } else if ev.body.ToolCallEnd? {
        AlikeOpenTool(a, b, ev.body.name);
        AlikeToolRewritten(a, b, i, ev, names, others);
      } else if ev.body.UserPrompt? || ev.body.TurnComplete? || ev.body.TextDelta? {
        AlikeOpenAssistant(a, b);
        AlikeTextRewritten(a, b, i, ev, names, others);
      }
    }
  }

  lemma {:induction false} AlikeDropNotices(a: seq<Item>, b: seq<Item>, drop: nat)
    requires Alike(a, b)
    ensures NoticeCount(a) == NoticeCount(b) && Alike(DropNotices(a, drop), DropNotices(b, drop))
  {
    if a != [] {
      var n := |a| - 1;
      assert Nameless(a[n]) == Nameless(b[n]);
      assert Alike(a[..n], b[..n]);
      AlikeDropNotices(a[..n], b[..n], drop);
    }
  }

  lemma AlikeSurvivors(nextA: seq<Item>, nextB: seq<Item>, grownA: seq<Item>, grownB: seq<Item>, body: Body)
    requires Alike(grownA, grownB) && Survives(nextA, grownA, body) && Survives(nextB, grownB, body)
    ensures Alike(nextA, nextB)
  {
    AlikeDropNotices(grownA, grownB, 0);
    if body.AgentError? && NoticeCount(grownA) > MAX_NOTICES {
      AlikeDropNotices(grownA, grownB, NoticeCount(grownA) - MAX_NOTICES);
    }
  }

  lemma AlikeTrimmed(s: SessionState, t: SessionState, maxItems: Option<nat>)
    requires SameStream(s, t)
    ensures SameStream(Trimmed(s, maxItems), Trimmed(t, maxItems))
  {
  }

  lemma AlikeNextItems(
    a: seq<Item>, b: seq<Item>, ev: Event, namesA: map<string, string>, namesB: map<string, string>)
    requires Alike(a, b)
    ensures Alike(NextItems(a, ev, namesA), NextItems(b, ev, namesB))
  {
    hide Alike, NextItems;
    var grownA := NextItemsSteps(a, ev, namesA);
    var grownB := NextItemsSteps(b, ev, namesB);
    AlikeGrown(grownA, grownB, a, b, ev, namesA, namesB);
    AlikeSurvivors(NextItems(a, ev, namesA), NextItems(b, ev, namesB), grownA, grownB, ev.body);
  }

  /** The event reducer maps streams that agree up to names to streams that agree up to names. */
  lemma SameStreamStep(s: SessionState, t: SessionState, ev: Event, maxItems: Option<nat>)
    requires SameStream(s, t)
    ensures SameStream(Trimmed(ApplyEvent(s, ev), maxItems), Trimmed(ApplyEvent(t, ev), maxItems))
  {
    hide Alike, NextItems, Trimmed, NextPermissions, NextQuestions;
    AlikeNextItems(s.items, t.items, ev, s.deviceNames, t.deviceNames);
    AlikeTrimmed(ApplyEvent(s, ev), ApplyEvent(t, ev), maxItems);
  }
}
