/** Convergence without the rule of one socket at a time: a second connect leaves the old socket attached, so
    frames of several connections mix and an old snapshot can come late. What is then needed of each snapshot
    is exactly that it is harmless. */
module SystemSockets {
  import opened Protocol
  import opened Store
  import opened Reducer
  import opened Registers
  import opened Snapshots
  import opened ClientModel
  import opened ClientRuns
  import opened ClientGaps
  import HubModel
  import opened HubStreams
  import opened SystemSync

  /** Events are the log's own and snapshots show it as it once was, all of one session. */
  ghost predicate Admissible(input: Input, log: seq<Event>, sessionId: string) {
    IsGenuine(input, log) &&
    (input.FrameArrives? && input.frame.SnapshotFrame? ==>
      Truthful(input.frame.snapshot, log) && input.frame.snapshot.sessionId == sessionId)
  }

  /** The client has restored a position and not had a snapshot since. */
  predicate HasOnlyRestored(s: SessionState) {
    s == NEW_SESSION.(lastSeq := s.lastSeq)
  }

  /** Before entry n, what the log says of every register is what a new session shows, unless the entry writes
      to it. */
  ghost predicate BlankUntil(log: seq<Event>, n: nat)
    requires n < |log|
  {
    forall reg :: Visible(reg) ==> Written(log[n].body, reg).Some? || Meaning(log[..n], reg) == Initially(reg)
  }

  /** The snapshot that arrives, if one does, is harmless to the client as it is then; and an event that arrives
      before any snapshot is not applied, unless nothing stands in the log before it. */
  ghost predicate Guarded(c: Client, input: Input, log: seq<Event>) {
    (input.FrameArrives? && input.frame.SnapshotFrame? ==>
      c.session.lastSeq <= |log| && input.frame.snapshot.lastSeq <= |log| &&
      Harmless(c.session, input.frame.snapshot, log)) &&
    (input.FrameArrives? && input.frame.EventFrame? && HasOnlyRestored(c.session) &&
     input.frame.event.seqNo == c.session.lastSeq + 1 ==>
      c.session.lastSeq < |log| && BlankUntil(log, c.session.lastSeq))
  }

  /** On its way to the host's view, or with a restored position only and not live. */
  ghost predicate OnTheWay(c: Client, log: seq<Event>) {
    Converging(c.session, log) || Unseeded(c, log)
  }

  predicate InSession(c: Client, sessionId: string) {
    c.session.sessionId.None? || c.session.sessionId.value == sessionId
  }

  // --- One step ---

  lemma SnapshotStep(c: Client, snap: SnapshotPayload, log: seq<Event>, sessionId: string)
    requires c.session.lastSeq <= |log| && InSession(c, sessionId)
    requires Truthful(snap, log) && snap.sessionId == sessionId
    ensures var d := HandleSnapshot(c, snap);
            InSession(d, sessionId) && c.session.lastSeq <= |log| && snap.lastSeq <= |log| &&
            (OnTheWay(d, log) <==> Harmless(c.session, snap, log))
  {
    hide ApplySnapshot, HandleSnapshot, Truthful, Harmless, Converging;
    SnapshotSession(c, snap);
    SnapshotKeepsStream(c.session, snap);
    TruthfulIsBounded(snap, log);
    SnapshotConvergesExactly(c.session, snap, log);
  }

  lemma EventKeepsSession(c: Client, ev: Event)
    ensures HandleEvent(c, ev).session.sessionId == c.session.sessionId
  {
    hide ApplyEvent, Trimmed, NoteGap;
    EventMovesLastSeq(c.session, ev, c.maxItems);
    GapKeepsSession(c, ev.seqNo);
  }

  lemma GapKeepsSession(c: Client, seqNo: nat)
    ensures NoteGap(c, seqNo).session == c.session
  {
  }

  /** The first event on a restored position, before any snapshot. */
  lemma FirstEventExactly(s: SessionState, log: seq<Event>, ev: Event, maxItems: Option<nat>)
    requires HasOnlyRestored(s) && Genuine(ev, log) && ev.seqNo == s.lastSeq + 1
    ensures Converging(Trimmed(ApplyEvent(s, ev), maxItems), log) <==> BlankUntil(log, s.lastSeq)
  {
    hide ApplyEvent, Trimmed;
    var n := s.lastSeq;
    var t := Trimmed(ApplyEvent(s, ev), maxItems);
    EventMovesLastSeq(s, ev, maxItems);
    forall reg | Visible(reg)
      ensures RegisterConverges(ReadClient(t, reg), log, n + 1, n + 1, reg) <==>
              Written(log[n].body, reg).Some? || Meaning(log[..n], reg) == Initially(reg)
    {
      ApplyEventWrites(s, ev, maxItems, reg);
      assert ReadClient(s, reg) == Initially(reg);
      assert log[n + 1..n + 1] == [];
      MeaningSplit(log, n, n + 1, reg);
      WindowOfOne(log, n, reg);
    }
  }

  /** An event leaves a client on its way if and only if it meets the guard. */
  lemma EventStep(c: Client, ev: Event, log: seq<Event>)
    requires OnTheWay(c, log) && Genuine(ev, log)
    ensures OnTheWay(HandleEvent(c, ev), log) <==> Guarded(c, Arrives(ev), log)
  {
    hide Converging, HandleEvent, BlankUntil, ApplyEvent, Trimmed;
    EventEffect(c, ev);
    if ev.seqNo == c.session.lastSeq + 1 {
      if HasOnlyRestored(c.session) {
        NextEventIsLive(c, ev);
        FirstEventExactly(c.session, log, ev, c.maxItems);
      } else {
        EventConverges(c, log, ev);
      }
    } else {
      OtherEventKeeps(c, ev);
    }
  }

  /** Applied before any snapshot, an event makes the client live. */
  lemma NextEventIsLive(c: Client, ev: Event)
    requires ev.seqNo == c.session.lastSeq + 1 && c.session.tipSeq <= ev.seqNo
    ensures HandleEvent(c, ev).phase.Live?
  {
    hide ApplyEvent, Trimmed;
    EventMovesLastSeq(c.session, ev, c.maxItems);
  }

  lemma OtherEventKeeps(c: Client, ev: Event)
    requires ev.seqNo != c.session.lastSeq + 1
    ensures HandleEvent(c, ev).session == c.session && (HandleEvent(c, ev).phase.Live? ==> c.phase.Live?)
  {
    hide ApplyEvent, Trimmed;
  }

  lemma LocalStep(c: Client, input: Input, log: seq<Event>)
    requires OnTheWay(c, log) && !input.FrameArrives?
    ensures OnTheWay(Step(c, input), log)
  {
    hide Converging, Step, NEW_SESSION;
    LocalSession(c, input);
    ConvergingNewSession(log);
    if !c.phase.Live? {
      LocalPhase(c, input);
    }
  }

  lemma AnswerStep(c: Client, frame: Frame, log: seq<Event>)
    requires OnTheWay(c, log) && (frame.AckFrame? || frame.ErrorFrame?)
    ensures OnTheWay(HandleFrame(c, frame), log)
  {
    hide Converging, HandleFrame;
    AckedSession(c, frame);
    AckedPhase(c, frame);
  }

  lemma AckedPhase(c: Client, frame: Frame)
    requires frame.AckFrame? || frame.ErrorFrame?
    ensures HandleFrame(c, frame).phase.Live? ==> c.phase.Live?
  {
    hide IsTerminal, RemoveCommand;
  }

  lemma OtherStep(c: Client, input: Input, log: seq<Event>, sessionId: string)
    requires OnTheWay(c, log) && InSession(c, sessionId) && IsGenuine(input, log)
    requires !(input.FrameArrives? && input.frame.SnapshotFrame?)
    ensures InSession(Step(c, input), sessionId)
    ensures OnTheWay(Step(c, input), log) <==> Guarded(c, input, log)
  {
    hide OnTheWay, HandleEvent, HandleFrame, HasOnlyRestored, BlankUntil;
    if input.FrameArrives? {
      if input.frame.EventFrame? {
        EventStep(c, input.frame.event, log);
        EventKeepsSession(c, input.frame.event);
        FrameIsEvent(c, input.frame.event);
      } else {
        AnswerStep(c, input.frame, log);
        AckedSession(c, input.frame);
      }
    } else {
      LocalStep(c, input, log);
      LocalSession(c, input);
    }
  }

  lemma FrameIsEvent(c: Client, ev: Event)
    ensures HandleFrame(c, EventFrame(ev)) == HandleEvent(c, ev)
  {
    hide HandleEvent;
  }

  lemma FrameIsSnapshot(c: Client, snap: SnapshotPayload)
    ensures HandleFrame(c, SnapshotFrame(snap)) == HandleSnapshot(c, snap)
  {
    hide HandleSnapshot;
  }

  lemma OnTheWayIsBounded(c: Client, log: seq<Event>)
    requires OnTheWay(c, log)
    ensures c.session.lastSeq <= |log|
  {
  }

  /** A step keeps the client on its way if and only if it meets the guard. */
  lemma StepConvergesExactly(c: Client, input: Input, log: seq<Event>, sessionId: string)
    requires OnTheWay(c, log) && InSession(c, sessionId) && Admissible(input, log, sessionId)
    ensures InSession(Step(c, input), sessionId)
    ensures OnTheWay(Step(c, input), log) <==> Guarded(c, input, log)
  {
    hide OnTheWay, HandleFrame, HandleSnapshot, Truthful, Harmless, InSession, IsGenuine, HasOnlyRestored, BlankUntil;
    if input.FrameArrives? && input.frame.SnapshotFrame? {
      OnTheWayIsBounded(c, log);
      SnapshotStep(c, input.frame.snapshot, log, sessionId);
      FrameIsSnapshot(c, input.frame.snapshot);
    } else {
      OtherStep(c, input, log, sessionId);
    }
  }

  // --- Whole runs ---

  /** The client is on its way before every input and at the end. */
  ghost predicate AlwaysOnTheWay(c: Client, inputs: seq<Input>, log: seq<Event>) {
    OnTheWay(Run(c, inputs), log) && (inputs == [] || AlwaysOnTheWay(c, inputs[..|inputs| - 1], log))
  }

  /** Every input meets the guard when it comes. */
  ghost predicate AlwaysGuarded(c: Client, inputs: seq<Input>, log: seq<Event>) {
    inputs == [] ||
    (AlwaysGuarded(c, inputs[..|inputs| - 1], log) &&
     Guarded(Run(c, inputs[..|inputs| - 1]), inputs[|inputs| - 1], log))
  }

  lemma {:induction false} RunStaysInSession(
    maxItems: Option<nat>, restored: nat, inputs: seq<Input>, log: seq<Event>, sessionId: string)
    requires forall i :: 0 <= i < |inputs| ==> Admissible(inputs[i], log, sessionId)
    requires AlwaysOnTheWay(Boot(maxItems, restored), inputs, log)
    ensures InSession(Run(Boot(maxItems, restored), inputs), sessionId)
  {
    if inputs != [] {
      hide Step, OnTheWay, Admissible, InSession;
      var n := |inputs| - 1;
      RunStaysInSession(maxItems, restored, inputs[..n], log, sessionId);
      StepConvergesExactly(Run(Boot(maxItems, restored), inputs[..n]), inputs[n], log, sessionId);
    }
  }

  /** Over any sockets and from any restored position, a client is on its way to the host's view throughout a run
      if and only if every snapshot it is given is harmless when it arrives, and no event comes before the first
      snapshot that leaves something out. */
  lemma {:induction false} ConvergesExactlyWhenGuarded(
    maxItems: Option<nat>, restored: nat, inputs: seq<Input>, log: seq<Event>, sessionId: string)
    requires restored <= |log| && forall i :: 0 <= i < |inputs| ==> Admissible(inputs[i], log, sessionId)
    ensures AlwaysOnTheWay(Boot(maxItems, restored), inputs, log) <==>
            AlwaysGuarded(Boot(maxItems, restored), inputs, log)
  {
    var boot := Boot(maxItems, restored);
    if inputs == [] {
      assert Unseeded(boot, log);
    } else {
      hide Step, OnTheWay, Admissible, InSession, Guarded;
      var n := |inputs| - 1;
      ConvergesExactlyWhenGuarded(maxItems, restored, inputs[..n], log, sessionId);
      if AlwaysOnTheWay(boot, inputs[..n], log) {
        RunStaysInSession(maxItems, restored, inputs[..n], log, sessionId);
        StepConvergesExactly(Run(boot, inputs[..n]), inputs[n], log, sessionId);
      }
    }
  }

  // --- Fed by one hub ---

  /** Every snapshot the client is given was accepted by some connection's queue. */
  ghost predicate SeededFrom(h: HubModel.Hub, inputs: seq<Input>) {
    forall i :: 0 <= i < |inputs| && inputs[i].FrameArrives? && inputs[i].frame.SnapshotFrame? ==>
      exists c, k :: 0 <= c < |h.conns| && 0 <= k < |h.conns[c].queue| && h.conns[c].queue[k] == inputs[i].frame
  }

  lemma QueuedIsTruthful(h: HubModel.Hub, c: nat, k: nat)
    requires Sound(h) && c < |h.conns| && k < |h.conns[c].queue| && h.conns[c].queue[k].SnapshotFrame?
    ensures Truthful(h.conns[c].queue[k].snapshot, h.log)
    ensures h.conns[c].queue[k].snapshot.sessionId == h.sessionId
  {
    hide Since;
    QueueIsGenuine(h, c, k);
    assert ConnSound(h.conns[c], h.sessionId, h.log);
  }

  lemma FedIsAdmissible(h: HubModel.Hub, inputs: seq<Input>, i: nat)
    requires Sound(h) && FedFrom(h, inputs) && SeededFrom(h, inputs) && i < |inputs|
    ensures Admissible(inputs[i], h.log, h.sessionId)
  {
    hide Sound, Truthful, IsGenuine, FedFrom;
    FedIsGenuine(h, inputs, i);
    if inputs[i].FrameArrives? && inputs[i].frame.SnapshotFrame? {
      var c, k :| 0 <= c < |h.conns| && 0 <= k < |h.conns[c].queue| && h.conns[c].queue[k] == inputs[i].frame;
      QueuedIsTruthful(h, c, k);
    }
  }

  /** A client fed from a hub's queues over any number of sockets, in any order, with losses and duplicates, from
      any restored position: if every input meets the guard when it comes, then whenever the client is live it
      shows what the host's fold of log[..lastSeq] says. */
  lemma SyncOverAnySockets(
    sessionId: string, steps: seq<HubModel.Step>, maxItems: Option<nat>, restored: nat, inputs: seq<Input>)
    requires FedFrom(HubModel.Exec(HubModel.Start(sessionId), steps), inputs)
    requires SeededFrom(HubModel.Exec(HubModel.Start(sessionId), steps), inputs)
    requires restored <= |HubModel.Exec(HubModel.Start(sessionId), steps).log|
    ensures var log := HubModel.Exec(HubModel.Start(sessionId), steps).log;
            var c := Run(Boot(maxItems, restored), inputs);
            AlwaysGuarded(Boot(maxItems, restored), inputs, log) && c.phase.Live? ==> InSync(c.session, log)
  {
    hide Run, HubModel.Exec, Sound, FedFrom, SeededFrom, Admissible, InSync, AlwaysGuarded, AlwaysOnTheWay;
    var h := HubModel.Exec(HubModel.Start(sessionId), steps);
    HubStaysSound(sessionId, steps);
    forall i | 0 <= i < |inputs|
      ensures Admissible(inputs[i], h.log, h.sessionId)
    {
      FedIsAdmissible(h, inputs, i);
    }
    ConvergesExactlyWhenGuarded(maxItems, restored, inputs, h.log, h.sessionId);
    if AlwaysGuarded(Boot(maxItems, restored), inputs, h.log) && Run(Boot(maxItems, restored), inputs).phase.Live? {
      GapsStaySound(maxItems, restored, inputs);
      LiveIsInSync(Boot(maxItems, restored), inputs, h.log);
    }
  }

  lemma LiveIsInSync(c: Client, inputs: seq<Input>, log: seq<Event>)
    requires AlwaysOnTheWay(c, inputs, log) && Run(c, inputs).phase.Live? && GapsSound(Run(c, inputs))
    ensures InSync(Run(c, inputs).session, log)
  {
    hide Converging, Run, InSync;
    ConvergedAtTip(Run(c, inputs).session, log);
  }
}
