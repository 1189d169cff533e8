/** What every run of the client keeps, whatever the network loses, duplicates or reorders. */
module ClientRuns {
  import opened Protocol
  import opened Reducer
  import opened Names
  import opened ClientModel

  // --- Prefix safety ---

  /** Every event frame that arrives is an entry of the log. Nothing else is asked of the network. */
  ghost predicate IsGenuine(input: Input, log: seq<Event>) {
    input.FrameArrives? && input.frame.EventFrame? ==> Genuine(input.frame.event, log)
  }

  /** The client has applied exactly log[base..lastSeq], where the base is 0 or the restored `lastSeq`,
      and its stream is what applying those events one by one to a new session gives. */
  ghost predicate HoldsPrefix(c: Client, log: seq<Event>, restored: nat) {
    (c.history.base == 0 || c.history.base == restored) &&
    c.history.base <= c.session.lastSeq <= |log| &&
    c.history.applied == log[c.history.base..c.session.lastSeq] &&
    SameStream(c.session, Replay(NEW_SESSION, c.history.applied, c.maxItems))
  }

  /** The step did not touch anything prefix safety is about. */
  predicate SamePrefix(c: Client, d: Client) {
    d.session.lastSeq == c.session.lastSeq && d.session.items == c.session.items &&
    d.session.usage == c.session.usage && d.session.turnActive == c.session.turnActive &&
    d.maxItems == c.maxItems && d.history.base == c.history.base && d.history.applied == c.history.applied
  }

  /** The step started over from a new session. */
  predicate Forgot(d: Client) {
    d.session.lastSeq == 0 && d.session.items == [] && d.session.usage.None? && !d.session.turnActive &&
    d.history.base == 0 && d.history.applied == []
  }

  lemma PrefixKept(c: Client, d: Client, log: seq<Event>, restored: nat)
    requires HoldsPrefix(c, log, restored) && (SamePrefix(c, d) || Forgot(d))
    ensures HoldsPrefix(d, log, restored)
  {
  }

  lemma EventEffect(c: Client, ev: Event)
    ensures var d := HandleEvent(c, ev);
            if ev.seqNo == c.session.lastSeq + 1 then
              d.session == Trimmed(ApplyEvent(c.session, ev), c.maxItems) && d.maxItems == c.maxItems &&
              d.history.base == c.history.base && d.history.applied == c.history.applied + [ev]
            else SamePrefix(c, d)
  {
    hide ApplyEvent, Trimmed;
  }

  lemma PrefixAdvanced(c: Client, d: Client, log: seq<Event>, restored: nat, ev: Event)
    requires HoldsPrefix(c, log, restored) && Genuine(ev, log) && ev.seqNo == c.session.lastSeq + 1
    requires d.session == Trimmed(ApplyEvent(c.session, ev), c.maxItems) && d.maxItems == c.maxItems
    requires d.history.base == c.history.base && d.history.applied == c.history.applied + [ev]
    ensures HoldsPrefix(d, log, restored)
  {
    hide ApplyEvent, Trimmed, Replay, SameStream;
    SameStreamStep(c.session, Replay(NEW_SESSION, c.history.applied, c.maxItems), ev, c.maxItems);
    ReplayAppend(NEW_SESSION, c.history.applied, ev, c.maxItems);
    EventMovesLastSeq(c.session, ev, c.maxItems);
    assert log[c.history.base..ev.seqNo] == c.history.applied + [ev];
  }

  lemma OpenKeepsPrefix(c: Client, created: bool)
    ensures SamePrefix(c, OpenSocket(c, created)) || Forgot(OpenSocket(c, created))
    ensures Forgot(Reset(c))
  {
  }

  lemma SocketKeepsPrefix(c: Client, current: bool, code: nat)
    ensures SamePrefix(c, Close(c)) && SamePrefix(c, OnOpen(c, current)) && SamePrefix(c, OnClose(c, current, code))
  {
  }

  lemma SendKeepsPrefix(c: Client, id: string, request: Request)
    ensures SamePrefix(c, SendCommand(c, id, request))
  {
  }

  lemma SettleKeepsPrefix(c: Client, id: string, outcome: Outcome)
    ensures SamePrefix(c, Settle(c, id, outcome))
  {
  }

  lemma ErrorKeepsPrefix(c: Client, id: string, code: string)
    ensures SamePrefix(c, HandleError(c, id, code))
  {
    hide IsTerminal, Settle;
    SettleKeepsPrefix(c, id, Rejected(code));
  }

  lemma SnapshotKeepsPrefix(c: Client, snap: SnapshotPayload)
    ensures SamePrefix(c, HandleSnapshot(c, snap)) || Forgot(HandleSnapshot(c, snap))
  {
    hide ApplySnapshot;
    SnapshotKeepsStream(c.session, snap);
  }

  lemma PrefixFrame(c: Client, log: seq<Event>, restored: nat, frame: Frame)
    requires HoldsPrefix(c, log, restored) && IsGenuine(FrameArrives(frame), log)
    ensures HoldsPrefix(HandleFrame(c, frame), log, restored)
  {
    hide HandleEvent, HandleSnapshot, Settle, HandleError, HoldsPrefix;
    match frame {
      case EventFrame(ev) =>
        EventEffect(c, ev);
        if ev.seqNo == c.session.lastSeq + 1 {
          PrefixAdvanced(c, HandleEvent(c, ev), log, restored, ev);
        } else {
          PrefixKept(c, HandleEvent(c, ev), log, restored);
        }
      case SnapshotFrame(snap) =>
        SnapshotKeepsPrefix(c, snap);
        PrefixKept(c, HandleSnapshot(c, snap), log, restored);
      case AckFrame(id, n) =>
        SettleKeepsPrefix(c, id, Resolved(n));
        PrefixKept(c, Settle(c, id, Resolved(n)), log, restored);
      case ErrorFrame(id, code) =>
        ErrorKeepsPrefix(c, id, code);
        PrefixKept(c, HandleError(c, id, code), log, restored);
    }
  }

  lemma PrefixStep(c: Client, log: seq<Event>, restored: nat, input: Input)
    requires HoldsPrefix(c, log, restored) && IsGenuine(input, log)
    ensures HoldsPrefix(Step(c, input), log, restored)
  {
    hide HandleFrame, OpenSocket, Close, Reset, SendCommand, OnOpen, OnClose, HoldsPrefix;
    match input {
      case FrameArrives(frame) => PrefixFrame(c, log, restored, frame);
      case UserConnects(created) =>
        var c1 := c.(closedByUser := false, gapCount := 0, retryAttempt := 0, timerSet := false);
        OpenKeepsPrefix(c1, created);
        PrefixKept(c, Connect(c, created), log, restored);
      case TimerFires(created) =>
        OpenKeepsPrefix(c.(timerSet := false), created);
        PrefixKept(c, OnTimer(c, created), log, restored);
      case UserSends(id, request) =>
        SendKeepsPrefix(c, id, request);
        PrefixKept(c, Step(c, input), log, restored);
      case UserCloses =>
        SocketKeepsPrefix(c, true, 0);
        PrefixKept(c, Close(c), log, restored);
      case UserResets =>
        OpenKeepsPrefix(c, true);
        PrefixKept(c, Reset(c), log, restored);
      case SocketOpens(current) =>
        SocketKeepsPrefix(c, current, 0);
        PrefixKept(c, OnOpen(c, current), log, restored);
      case SocketCloses(current, code) =>
        SocketKeepsPrefix(c, current, code);
        PrefixKept(c, OnClose(c, current, code), log, restored);
    }
  }

  /** Whatever the network does to genuine frames, through gaps, reconnects and full resyncs, the client
      has applied a contiguous piece of the log and shows exactly what that piece folds to. */
  lemma {:induction false} PrefixSafety(log: seq<Event>, maxItems: Option<nat>, restored: nat, inputs: seq<Input>)
    requires restored <= |log|
    requires forall i :: 0 <= i < |inputs| ==> IsGenuine(inputs[i], log)
    ensures HoldsPrefix(Run(Boot(maxItems, restored), inputs), log, restored)
  {
    if inputs != [] {
      hide Step, SameStream, Replay;
      var n := |inputs| - 1;
      var c := Run(Boot(maxItems, restored), inputs[..n]);
      PrefixSafety(log, maxItems, restored, inputs[..n]);
      PrefixStep(c, log, restored, inputs[n]);
    }
  }

  /** The pieces of the log that two clients have applied agree where they overlap, and if they start at the
      same position one is a prefix of the other. */
  ghost predicate PiecesAgree(a: History, b: History) {
    (forall i, j :: 0 <= i < |a.applied| && 0 <= j < |b.applied| && a.base + i == b.base + j ==>
      a.applied[i] == b.applied[j]) &&
    (a.base == b.base ==> a.applied <= b.applied || b.applied <= a.applied)
  }

  lemma HeldPiecesAgree(c: Client, restoredC: nat, d: Client, restoredD: nat, log: seq<Event>)
    requires HoldsPrefix(c, log, restoredC) && HoldsPrefix(d, log, restoredD)
    ensures PiecesAgree(c.history, d.history)
  {
    hide Replay, SameStream;
  }

  /** Any two clients of one log, restored at any positions, have applied pieces of it that agree. */
  lemma Agreement(
    log: seq<Event>, maxA: Option<nat>, restoredA: nat, inputsA: seq<Input>,
    maxB: Option<nat>, restoredB: nat, inputsB: seq<Input>)
    requires restoredA <= |log| && forall i :: 0 <= i < |inputsA| ==> IsGenuine(inputsA[i], log)
    requires restoredB <= |log| && forall i :: 0 <= i < |inputsB| ==> IsGenuine(inputsB[i], log)
    ensures PiecesAgree(Run(Boot(maxA, restoredA), inputsA).history, Run(Boot(maxB, restoredB), inputsB).history)
  {
    hide Run, HoldsPrefix, PiecesAgree;
    PrefixSafety(log, maxA, restoredA, inputsA);
    PrefixSafety(log, maxB, restoredB, inputsB);
    var a, b := Run(Boot(maxA, restoredA), inputsA), Run(Boot(maxB, restoredB), inputsB);
    HeldPiecesAgree(a, restoredA, b, restoredB, log);
  }
}
