/** Tool completion refines a stack per tool name. */
module Tools {
  import opened Protocol
  import opened Reducer
  import opened Shape

  /** The reference model: a start pushes its sequence number, an end pops. */
  function Stack(log: seq<Event>, name: string): seq<nat> {
    if log == [] then []
    else
      var below := Stack(log[..|log| - 1], name);
      var last := log[|log| - 1];
      if last.body.ToolCallStart? && last.body.name == name then below + [last.seqNo]
      else if last.body.ToolCallEnd? && last.body.name == name && below != [] then below[..|below| - 1]
      else below
  }

  function Starts(log: seq<Event>, name: string): nat {
    if log == [] then 0
    else
      var last := log[|log| - 1].body;
      Starts(log[..|log| - 1], name) + (if last.ToolCallStart? && last.name == name then 1 else 0)
  }

  /** Ends that found the stack empty. */
  function UnmatchedEnds(log: seq<Event>, name: string): nat {
    if log == [] then 0
    else
      var last := log[|log| - 1].body;
      UnmatchedEnds(log[..|log| - 1], name) +
      (if last.ToolCallEnd? && last.name == name && Stack(log[..|log| - 1], name) == [] then 1 else 0)
  }

  /** The unfinished tools of that name, by sequence number, in stream order. */
  function Unfinished(items: seq<Item>, name: string): seq<nat> {
    if items == [] then []
    else
      var last := items[|items| - 1];
      Unfinished(items[..|items| - 1], name) + (if IsOpenTool(last, name) then [last.seqNo] else [])
  }

  function ToolCount(items: seq<Item>, name: string): nat {
    if items == [] then 0
    else
      var last := items[|items| - 1];
      ToolCount(items[..|items| - 1], name) + (if IsTool(last, name) then 1 else 0)
  }

  lemma ToolsAppend(items: seq<Item>, item: Item, name: string)
    ensures Unfinished(items + [item], name) ==
            Unfinished(items, name) + (if IsOpenTool(item, name) then [item.seqNo] else [])
    ensures ToolCount(items + [item], name) ==
            ToolCount(items, name) + (if IsTool(item, name) then 1 else 0)
  {
  }

  predicate IsTool(item: Item, name: string) {
    item.ToolItem? && item.name == name
  }

  lemma {:induction false} ToolsSame(a: seq<Item>, b: seq<Item>, name: string)
    requires |a| == |b|
    requires forall i :: 0 <= i < |a| ==>
               a[i].seqNo == b[i].seqNo && (IsTool(a[i], name) <==> IsTool(b[i], name)) &&
               (IsOpenTool(a[i], name) <==> IsOpenTool(b[i], name))
    ensures Unfinished(a, name) == Unfinished(b, name) && ToolCount(a, name) == ToolCount(b, name)
  {
    if a != [] {
      ToolsSame(a[..|a| - 1], b[..|b| - 1], name);
    }
  }

  lemma {:induction false} DropNoticesKeepsTools(items: seq<Item>, drop: nat, name: string)
    ensures Unfinished(DropNotices(items, drop), name) == Unfinished(items, name)
    ensures ToolCount(DropNotices(items, drop), name) == ToolCount(items, name)
  {
    if items != [] {
      var earlier, last := items[..|items| - 1], items[|items| - 1];
      DropNoticesKeepsTools(earlier, drop, name);
      ToolsAppend(DropNotices(earlier, drop), last, name);
    }
  }

  lemma {:induction false} NoneUnfinished(items: seq<Item>, name: string)
    ensures OpenTool(items, name).None? <==> Unfinished(items, name) == []
  {
    if items != [] {
      NoneUnfinished(items[..|items| - 1], name);
    }
  }

  /** The tool an end finishes is the top of the stack, and finishing it pops the stack. */
  lemma {:induction false} FinishPops(items: seq<Item>, name: string, output: Option<string>)
    requires OpenTool(items, name).Some?
    ensures var at := OpenTool(items, name).value;
            var open := Unfinished(items, name);
            open != [] && items[at].seqNo == open[|open| - 1] &&
            Unfinished(ToolFinished(items, name, output), name) == open[..|open| - 1] &&
            ToolCount(ToolFinished(items, name, output), name) == ToolCount(items, name)
  {
    var n := |items| - 1;
    var earlier := items[..n];
    if IsOpenTool(items[n], name) {
      assert ToolFinished(items, name, output) == earlier + [Finished(items[n], output)];
      ToolsAppend(earlier, Finished(items[n], output), name);
    } else {
      FinishPops(earlier, name, output);
      assert ToolFinished(items, name, output) == ToolFinished(earlier, name, output) + [items[n]];
      ToolsAppend(ToolFinished(earlier, name, output), items[n], name);
    }
  }

  /** Finishing a tool does not touch the stacks of other names. */
  lemma FinishKeepsOthers(items: seq<Item>, name: string, output: Option<string>, other: string)
    requires other != name && OpenTool(items, name).Some?
    ensures Unfinished(ToolFinished(items, name, output), other) == Unfinished(items, other)
    ensures ToolCount(ToolFinished(items, name, output), other) == ToolCount(items, other)
  {
    ToolsSame(ToolFinished(items, name, output), items, other);
  }

  lemma RewrittenKeepsTool(items: seq<Item>, i: nat, ev: Event, names: map<string, string>, name: string)
    requires i < |items| && !ev.body.ToolCallEnd?
    ensures var item := Rewritten(items, i, ev, names);
            item.seqNo == items[i].seqNo && (IsTool(item, name) <==> IsTool(items[i], name)) &&
            (IsOpenTool(item, name) <==> IsOpenTool(items[i], name))
  {
  }

  lemma AddedTool(changed: seq<Item>, items: seq<Item>, ev: Event, name: string)
    requires !ev.body.ToolCallEnd?
    ensures var started := ev.body.ToolCallStart? && ev.body.name == name;
            var grown := changed + Tail(Added(items, ev));
            Unfinished(grown, name) == Unfinished(changed, name) + (if started then [ev.seqNo] else []) &&
            ToolCount(grown, name) == ToolCount(changed, name) + (if started then 1 else 0)
  {
    if Added(items, ev).Some? {
      ToolsAppend(changed, Added(items, ev).value, name);
    } else {
      assert changed + [] == changed;
    }
  }

  lemma GrownTools(grown: seq<Item>, items: seq<Item>, ev: Event, names: map<string, string>, name: string)
    requires Extends(grown, items, ev, names) && !ev.body.ToolCallEnd?
    ensures var started := ev.body.ToolCallStart? && ev.body.name == name;
            Unfinished(grown, name) == Unfinished(items, name) + (if started then [ev.seqNo] else []) &&
            ToolCount(grown, name) == ToolCount(items, name) + (if started then 1 else 0)
  {
    var changed := GrownSplit(grown, items, ev, names);
    forall i | 0 <= i < |items|
      ensures changed[i].seqNo == items[i].seqNo && (IsTool(changed[i], name) <==> IsTool(items[i], name)) &&
              (IsOpenTool(changed[i], name) <==> IsOpenTool(items[i], name))
    {
      RewrittenKeepsTool(items, i, ev, names, name);
    }
    ToolsSame(changed, items, name);
    AddedTool(changed, items, ev, name);
  }

  lemma SurvivorsKeepTools(next: seq<Item>, grown: seq<Item>, body: Body, name: string)
    requires Survives(next, grown, body)
    ensures Unfinished(next, name) == Unfinished(grown, name) && ToolCount(next, name) == ToolCount(grown, name)
  {
    if body.AgentError? && NoticeCount(grown) > MAX_NOTICES {
      DropNoticesKeepsTools(grown, NoticeCount(grown) - MAX_NOTICES, name);
    }
  }

  lemma EndAddsOrFinishes(items: seq<Item>, ev: Event, names: map<string, string>)
    requires ev.body.ToolCallEnd?
    ensures NextItems(items, ev, names) ==
            if OpenTool(items, ev.body.name).Some? then ToolFinished(items, ev.body.name, ev.body.output)
            else items + [Added(items, ev).value]
  {
  }

  lemma ToolEndStep(items: seq<Item>, ev: Event, names: map<string, string>, name: string)
    requires ev.body.ToolCallEnd?
    ensures var open, next := Unfinished(items, name), NextItems(items, ev, names);
            var hit := ev.body.name == name;
            Unfinished(next, name) == (if hit && open != [] then open[..|open| - 1] else open) &&
            ToolCount(next, name) == ToolCount(items, name) + (if hit && open == [] then 1 else 0)
  {
    EndAddsOrFinishes(items, ev, names);
    hide NextItems, Unfinished, ToolCount, OpenTool, ToolFinished;
    NoneUnfinished(items, ev.body.name);
    if OpenTool(items, ev.body.name).None? {
      ToolsAppend(items, Added(items, ev).value, name);
    } else if ev.body.name != name {
      FinishKeepsOthers(items, ev.body.name, ev.body.output, name);
    } else {
      FinishPops(items, name, ev.body.output);
    }
  }

  /** Over any event sequence, the unfinished tools of a name are the stack, and the tool items of that
      name are its starts together with the ends that found nothing to finish. */
  lemma {:induction false} ToolsRefineStack(log: seq<Event>, name: string)
    ensures var items := Replay(NEW_SESSION, log, None).items;
            Unfinished(items, name) == Stack(log, name) &&
            ToolCount(items, name) == Starts(log, name) + UnmatchedEnds(log, name)
  {
    if log != [] {
      var earlier, ev := log[..|log| - 1], log[|log| - 1];
      ToolsRefineStack(earlier, name);
      ReplayItems(log);
      var s := Replay(NEW_SESSION, earlier, None);
      if ev.body.ToolCallEnd? {
        ToolEndStep(s.items, ev, s.deviceNames, name);
      } else {
        var grown := NextItemsSteps(s.items, ev, s.deviceNames);
        GrownTools(grown, s.items, ev, s.deviceNames, name);
        SurvivorsKeepTools(NextItems(s.items, ev, s.deviceNames), grown, ev.body, name);
      }
    }
  }
}
