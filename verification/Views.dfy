/** Which view of a pending card each side shows: of the requests since the last resolution the host keeps
    the last, the client the first. */
module Views {
  import opened Protocol
  import opened Store
  import opened Reducer

  datatype CardView = PermissionShown(permission: PermissionView) | QuestionShown(question: QuestionView)

  /** The view an event asks to show for the card. */
  function Asked(body: Body, card: Card): Option<CardView> {
    if Opens(body) != Some(card) then None
    else
      match body
      case PermissionRequest(id, kind, summary) => Some(PermissionShown(PermissionView(id, kind, summary)))
      case QuestionAsked(id, text) => Some(QuestionShown(QuestionView(id, text)))
      case _ => None
  }

  /** The card's first request since its last resolution. */
  function FirstSince(log: seq<Event>, card: Card): Option<CardView> {
    if log == [] then None
    else FirstAfter(FirstSince(log[..|log| - 1], card), log[|log| - 1].body, card)
  }

  function FirstAfter(before: Option<CardView>, body: Body, card: Card): Option<CardView> {
    if Closes(body) == Some(card) then None else if before.Some? then before else Asked(body, card)
  }

  /** The card's last request since its last resolution. */
  function LastSince(log: seq<Event>, card: Card): Option<CardView> {
    if log == [] then None
    else
      var body := log[|log| - 1].body;
      if Closes(body) == Some(card) then None
      else if Asked(body, card).Some? then Asked(body, card)
      else LastSince(log[..|log| - 1], card)
  }

  /** The view of the card that the host holds. */
  function Held(v: ServerView, card: Card): Option<CardView> {
    match card
    case PermissionCard(id) => if id in v.permissions then Some(PermissionShown(v.permissions[id])) else None
    case QuestionCard(id) => if id in v.questions then Some(QuestionShown(v.questions[id])) else None
  }

  /** The client lists the view for the card. */
  predicate Shows(s: SessionState, card: Card, view: CardView) {
    match card
    case PermissionCard(id) =>
      view.PermissionShown? && view.permission in s.pendingPermissions && view.permission.requestId == id
    case QuestionCard(id) =>
      view.QuestionShown? && view.question in s.pendingQuestions && view.question.questionId == id
  }

  /** The host holds the last request. */
  lemma {:induction false} HostHoldsLast(log: seq<Event>, card: Card)
    ensures Held(ServerFold(log), card) == LastSince(log, card)
  {
    if log != [] {
      HostHoldsLast(log[..|log| - 1], card);
    }
  }

  // --- The client's lists ---

  ghost predicate Distinct<T>(views: seq<T>, key: T -> string) {
    forall i, j :: 0 <= i < j < |views| ==> key(views[i]) != key(views[j])
  }

  /** Of the views with this key the list holds exactly `shown`. */
  ghost predicate ListsOnly<T(!new)>(views: seq<T>, key: T -> string, id: string, shown: Option<T>) {
    forall v :: v in views && key(v) == id <==> shown == Some(v)
  }

  lemma {:induction false} DistinctIsDeduped<T>(views: seq<T>, key: T -> string)
    requires Distinct(views, key)
    ensures Deduped(views, key) == views
  {
    if views != [] {
      var n := |views| - 1;
      DistinctIsDeduped(views[..n], key);
      if key(views[n]) in KeysOf(views[..n], key) {
        var i := KeyFound(views[..n], key(views[n]), key);
        assert false;
      }
    }
  }

  lemma DedupedAppend<T>(views: seq<T>, w: T, key: T -> string)
    requires Distinct(views, key)
    ensures Deduped(views + [w], key) == if key(w) in KeysOf(views, key) then views else views + [w]
  {
    hide Distinct, KeysOf;
    DistinctIsDeduped(views, key);
    assert (views + [w])[..|views|] == views;
  }

  lemma AppendLists<T(!new)>(views: seq<T>, w: T, key: T -> string, id: string, shown: Option<T>)
    requires Distinct(views, key) && ListsOnly(views, key, id, shown) && key(w) !in KeysOf(views, key)
    ensures Distinct(views + [w], key)
    ensures ListsOnly(views + [w], key, id, if key(w) == id && shown.None? then Some(w) else shown)
  {
    assert forall i :: 0 <= i < |views| ==> views[i] in views;
    assert shown.Some? ==> shown.value in views;
  }

  /** Adding a view and deduplicating shows it only where its key was not shown. */
  lemma AddedLists<T(!new)>(views: seq<T>, w: T, key: T -> string, id: string, shown: Option<T>)
    requires Distinct(views, key) && ListsOnly(views, key, id, shown)
    ensures Distinct(Deduped(views + [w], key), key)
    ensures ListsOnly(Deduped(views + [w], key), key, id, if key(w) == id && shown.None? then Some(w) else shown)
  {
    hide Distinct, Deduped, KeysOf;
    DedupedAppend(views, w, key);
    if key(w) in KeysOf(views, key) {
      var i := KeyFound(views, key(w), key);
      assert views[i] in views;
    } else {
      hide ListsOnly;
      AppendLists(views, w, key, id, shown);
    }
  }

  lemma {:induction false} WithoutSelects<T(!new)>(views: seq<T>, key: T -> string, gone: string)
    requires Distinct(views, key)
    ensures forall v :: v in Without(views, key, gone) <==> v in views && key(v) != gone
    ensures Distinct(Without(views, key, gone), key)
  {
    if views != [] {
      var n := |views| - 1;
      var kept := Without(views[..n], key, gone);
      WithoutSelects(views[..n], key, gone);
      assert views == views[..n] + [views[n]];
      forall i | 0 <= i < |kept|
        ensures key(kept[i]) != key(views[n])
      {
        assert kept[i] in views[..n];
      }
    }
  }

  lemma DroppedLists<T(!new)>(views: seq<T>, gone: string, key: T -> string, id: string, shown: Option<T>)
    requires Distinct(views, key) && ListsOnly(views, key, id, shown)
    ensures Distinct(Without(views, key, gone), key)
    ensures ListsOnly(Without(views, key, gone), key, id, if gone == id then None else shown)
  {
    WithoutSelects(views, key, gone);
  }

  // --- The client shows the first ---

  function ShownPermission(view: Option<CardView>): Option<PermissionView> {
    if view.Some? && view.value.PermissionShown? then Some(view.value.permission) else None
  }

  function ShownQuestion(view: Option<CardView>): Option<QuestionView> {
    if view.Some? && view.value.QuestionShown? then Some(view.value.question) else None
  }

  lemma PermissionStep(views: seq<PermissionView>, body: Body, id: string, first: Option<CardView>)
    requires id != "" && Distinct(views, RequestIdOf()) && ListsOnly(views, RequestIdOf(), id, ShownPermission(first))
    requires first.Some? ==> first.value.PermissionShown?
    ensures var next := NextPermissions(views, body);
            Distinct(next, RequestIdOf()) &&
            ListsOnly(next, RequestIdOf(), id, ShownPermission(FirstAfter(first, body, PermissionCard(id))))
  {
    hide Distinct, ListsOnly;
    match body {
      case PermissionRequest(r, kind, summary) =>
        AddedLists(views, PermissionView(r, kind, summary), RequestIdOf(), id, ShownPermission(first));
      case PermissionResolved(r, _, _) => DroppedLists(views, r, RequestIdOf(), id, ShownPermission(first));
      case _ =>
    }
  }

  lemma QuestionStep(views: seq<QuestionView>, body: Body, id: string, first: Option<CardView>)
    requires id != "" && Distinct(views, QuestionIdOf()) && ListsOnly(views, QuestionIdOf(), id, ShownQuestion(first))
    requires first.Some? ==> first.value.QuestionShown?
    ensures var next := NextQuestions(views, body);
            Distinct(next, QuestionIdOf()) &&
            ListsOnly(next, QuestionIdOf(), id, ShownQuestion(FirstAfter(first, body, QuestionCard(id))))
  {
    hide Distinct, ListsOnly;
    match body {
      case QuestionAsked(q, text) => AddedLists(views, QuestionView(q, text), QuestionIdOf(), id, ShownQuestion(first));
      case QuestionResolved(q, _, _) => DroppedLists(views, q, QuestionIdOf(), id, ShownQuestion(first));
      case _ =>
    }
  }

  lemma {:induction false} FirstIsOfKind(log: seq<Event>, card: Card)
    ensures FirstSince(log, card).Some? ==>
              (FirstSince(log, card).value.PermissionShown? <==> card.PermissionCard?)
  {
    if log != [] {
      FirstIsOfKind(log[..|log| - 1], card);
    }
  }

  lemma {:induction false} PermissionsListFirst(log: seq<Event>, maxItems: Option<nat>, id: string)
    requires id != ""
    ensures var views := Replay(NEW_SESSION, log, maxItems).pendingPermissions;
            Distinct(views, RequestIdOf()) &&
            ListsOnly(views, RequestIdOf(), id, ShownPermission(FirstSince(log, PermissionCard(id))))
  {
    if log != [] {
      hide Distinct, ListsOnly, NextPermissions;
      var n := |log| - 1;
      PermissionsListFirst(log[..n], maxItems, id);
      FirstIsOfKind(log[..n], PermissionCard(id));
      PermissionStep(Replay(NEW_SESSION, log[..n], maxItems).pendingPermissions, log[n].body, id,
                     FirstSince(log[..n], PermissionCard(id)));
      ReplayLast(NEW_SESSION, log, maxItems);
    }
  }

  lemma {:induction false} QuestionsListFirst(log: seq<Event>, maxItems: Option<nat>, id: string)
    requires id != ""
    ensures var views := Replay(NEW_SESSION, log, maxItems).pendingQuestions;
            Distinct(views, QuestionIdOf()) &&
            ListsOnly(views, QuestionIdOf(), id, ShownQuestion(FirstSince(log, QuestionCard(id))))
  {
    if log != [] {
      hide Distinct, ListsOnly, NextQuestions;
      var n := |log| - 1;
      QuestionsListFirst(log[..n], maxItems, id);
      FirstIsOfKind(log[..n], QuestionCard(id));
      QuestionStep(Replay(NEW_SESSION, log[..n], maxItems).pendingQuestions, log[n].body, id,
                   FirstSince(log[..n], QuestionCard(id)));
      ReplayLast(NEW_SESSION, log, maxItems);
    }
  }

  /** The client shows the first request, and nothing else, for a card with an id. */
  lemma ClientShowsFirst(log: seq<Event>, maxItems: Option<nat>, card: Card, view: CardView)
    requires card.id != ""
    ensures Shows(Replay(NEW_SESSION, log, maxItems), card, view) <==> FirstSince(log, card) == Some(view)
  {
    hide Replay;
    FirstIsOfKind(log, card);
    match card {
      case PermissionCard(id) =>
        PermissionsListFirst(log, maxItems, id);
        if view.PermissionShown? {
          assert RequestIdOf()(view.permission) == view.permission.requestId;
        }
      case QuestionCard(id) =>
        QuestionsListFirst(log, maxItems, id);
        if view.QuestionShown? {
          assert QuestionIdOf()(view.question) == view.question.questionId;
        }
    }
  }

  /** Of a card pending on the host, the client shows the host's view exactly when the first and the last
      request since the card's last resolution ask for the same. */
  lemma ViewsAgreeExactly(log: seq<Event>, maxItems: Option<nat>, card: Card)
    requires card.id != "" && Held(ServerFold(log), card).Some?
    ensures Shows(Replay(NEW_SESSION, log, maxItems), card, Held(ServerFold(log), card).value) <==>
            FirstSince(log, card) == LastSince(log, card)
  {
    hide Shows, ServerFold;
    HostHoldsLast(log, card);
    ClientShowsFirst(log, maxItems, card, LastSince(log, card).value);
  }

  /** Two requests with one id and different views do split them. */
  lemma ReRequestSplitsViews(a: Event, b: Event)
    requires a.body == PermissionRequest("r", "tool", "old") && b.body == PermissionRequest("r", "tool", "new")
    ensures var first := PermissionShown(PermissionView("r", "tool", "old"));
            var last := PermissionShown(PermissionView("r", "tool", "new"));
            Held(ServerFold([a, b]), PermissionCard("r")) == Some(last) &&
            Shows(Replay(NEW_SESSION, [a, b], None), PermissionCard("r"), first) && first != last &&
            !Shows(Replay(NEW_SESSION, [a, b], None), PermissionCard("r"), last)
  {
    hide Shows, ServerFold, Replay;
    var card := PermissionCard("r");
    assert [a, b][..1] == [a] && [a][..0] == [];
    assert FirstSince([a], card) == Asked(a.body, card);
    HostHoldsLast([a, b], card);
    ClientShowsFirst([a, b], None, card, PermissionShown(PermissionView("r", "tool", "old")));
    ClientShowsFirst([a, b], None, card, PermissionShown(PermissionView("r", "tool", "new")));
  }
}
