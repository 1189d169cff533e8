/** Gap counting, escalation to a full resync, and what `live` means. */
module ClientGaps {
  import opened Protocol
  import opened Reducer
  import opened ClientModel

  // --- What every run keeps ---

  /** Fewer than three gaps are on record, a recorded gap is still ahead of the stream, and a live client
      has reached the tip of its snapshot. */
  predicate GapsSound(c: Client) {
    c.gapCount <= 2 &&
    (c.gapSeq.Some? ==> c.gapSeq.value > c.session.lastSeq + 1) &&
    (c.phase.Live? ==> c.session.lastSeq >= c.session.tipSeq)
  }

  lemma NoteGapKeepsGapsSound(c: Client, seqNo: nat)
    requires GapsSound(c) && seqNo > c.session.lastSeq + 1
    ensures GapsSound(NoteGap(c, seqNo))
  {
  }

  lemma EventKeepsGapsSound(c: Client, ev: Event)
    requires GapsSound(c)
    ensures GapsSound(HandleEvent(c, ev))
  {
    hide ApplyEvent, Trimmed, NoteGap, FlushOutbox;
    if ev.seqNo > c.session.lastSeq + 1 {
      NoteGapKeepsGapsSound(c, ev.seqNo);
    } else if ev.seqNo == c.session.lastSeq + 1 {
      EventMovesLastSeq(c.session, ev, c.maxItems);
      var session := Trimmed(ApplyEvent(c.session, ev), c.maxItems);
      FlushOnlySends(c.(session := session, gapSeq := None, gapCount := 0, phase := Live,
                        history := c.history.(applied := c.history.applied + [ev])));
    }
  }

  lemma SnapshotKeepsGapsSound(c: Client, snap: SnapshotPayload)
    requires GapsSound(c)
    ensures GapsSound(HandleSnapshot(c, snap))
  {
  }

  lemma OpenKeepsGapsSound(c: Client, created: bool)
    requires GapsSound(c)
    ensures GapsSound(OpenSocket(c, created))
  {
  }

  lemma SettleKeepsGaps(c: Client, id: string, outcome: Outcome)
    requires GapsSound(c)
    ensures GapsSound(Settle(c, id, outcome))
  {
  }

  lemma ErrorKeepsGapsSound(c: Client, id: string, code: string)
    requires GapsSound(c)
    ensures GapsSound(HandleError(c, id, code))
  {
    hide IsTerminal, Settle;
    SettleKeepsGaps(c, id, Rejected(code));
  }

  lemma GapsSoundStep(c: Client, input: Input)
    requires GapsSound(c)
    ensures GapsSound(Step(c, input))
  {
    hide HandleEvent, HandleSnapshot, HandleError, OpenSocket;
    match input {
      case FrameArrives(EventFrame(ev)) => EventKeepsGapsSound(c, ev);
      case FrameArrives(SnapshotFrame(snap)) => SnapshotKeepsGapsSound(c, snap);
      case FrameArrives(ErrorFrame(id, code)) => ErrorKeepsGapsSound(c, id, code);
      case UserConnects(created) =>
        OpenKeepsGapsSound(c.(closedByUser := false, gapCount := 0, retryAttempt := 0, timerSet := false), created);
      case TimerFires(created) => OpenKeepsGapsSound(c.(timerSet := false), created);
      case _ =>
    }
  }

  lemma {:induction false} GapsStaySound(maxItems: Option<nat>, restored: nat, inputs: seq<Input>)
    ensures GapsSound(Run(Boot(maxItems, restored), inputs))
  {
    if inputs != [] {
      hide Step;
      GapsStaySound(maxItems, restored, inputs[..|inputs| - 1]);
      GapsSoundStep(Run(Boot(maxItems, restored), inputs[..|inputs| - 1]), inputs[|inputs| - 1]);
    }
  }

  // --- Escalation ---

  predicate IsGap(c: Client, ev: Event) {
    ev.seqNo > c.session.lastSeq + 1
  }

  /** The step neither applies an event, nor meets a gap, nor is a connect or a reset by the user. */
  predicate Quiet(c: Client, input: Input) {
    !input.UserConnects? && !input.UserResets? &&
    (input.FrameArrives? && input.frame.EventFrame? ==> input.frame.event.seqNo <= c.session.lastSeq)
  }

  predicate QuietRun(c: Client, inputs: seq<Input>) {
    inputs == [] ||
    (QuietRun(c, inputs[..|inputs| - 1]) && Quiet(Run(c, inputs[..|inputs| - 1]), inputs[|inputs| - 1]))
  }

  /** What quiet steps cannot change: the gap on record. */
  predicate SameStreak(c: Client, d: Client) {
    d.gapSeq == c.gapSeq && d.gapCount == c.gapCount
  }

  lemma QuietSnapshot(c: Client, snap: SnapshotPayload)
    ensures var d := HandleSnapshot(c, snap);
            SameStreak(c, d) && d.fullResync == c.fullResync &&
            (d.session.lastSeq == c.session.lastSeq || d.session.lastSeq == 0)
  {
  }

  lemma QuietFrame(c: Client, frame: Frame)
    requires Quiet(c, FrameArrives(frame))
    ensures SameStreak(c, HandleFrame(c, frame))
  {
    hide ApplyEvent, HandleSnapshot, NoteGap, IsTerminal;
    if frame.SnapshotFrame? {
      QuietSnapshot(c, frame.snapshot);
    }
  }

  lemma QuietStep(c: Client, input: Input)
    requires Quiet(c, input)
    ensures SameStreak(c, Step(c, input))
  {
    hide HandleFrame;
    if input.FrameArrives? {
      QuietFrame(c, input.frame);
    }
  }

  lemma {:induction false} QuietRunKeeps(c: Client, inputs: seq<Input>)
    requires QuietRun(c, inputs)
    ensures SameStreak(c, Run(c, inputs))
  {
    if inputs != [] {
      hide Step;
      QuietRunKeeps(c, inputs[..|inputs| - 1]);
      QuietStep(Run(c, inputs[..|inputs| - 1]), inputs[|inputs| - 1]);
    }
  }

  /** An event frame arrives. */
  function Arrives(ev: Event): Input {
    FrameArrives(EventFrame(ev))
  }

  lemma GapCounted(c: Client, ev: Event)
    requires IsGap(c, ev)
    ensures var d := Step(c, Arrives(ev));
            var count := if c.gapSeq == Some(ev.seqNo) then c.gapCount + 1 else 1;
            if count >= 3 then d.fullResync && d.gapSeq.None? && d.gapCount == 0
            else d.gapSeq == Some(ev.seqNo) && d.gapCount == count && d.fullResync == c.fullResync
  {
    hide ApplyEvent;
  }

  // --- From the third gap to the next hello ---

  predicate AppliesNothing(c: Client, input: Input) {
    input.FrameArrives? && input.frame.EventFrame? ==> input.frame.event.seqNo != c.session.lastSeq + 1
  }

  predicate NothingApplied(c: Client, inputs: seq<Input>) {
    inputs == [] ||
    (NothingApplied(c, inputs[..|inputs| - 1]) &&
     AppliesNothing(Run(c, inputs[..|inputs| - 1]), inputs[|inputs| - 1]))
  }

  /** The user or the timer has the client try for a new socket, whether it gets one or not. */
  predicate StartsAttempt(c: Client, input: Input) {
    input.UserConnects? || (input.TimerFires? && c.timerSet && !c.closedByUser)
  }

  predicate AttemptStarted(c: Client, inputs: seq<Input>) {
    inputs != [] &&
    (AttemptStarted(c, inputs[..|inputs| - 1]) ||
     StartsAttempt(Run(c, inputs[..|inputs| - 1]), inputs[|inputs| - 1]))
  }

  /** The client starts over at its next attempt, or has started over. */
  predicate StartsOver(c: Client) {
    c.fullResync || c.session.lastSeq == 0
  }

  lemma OpenStartsOver(c: Client, created: bool)
    requires StartsOver(c)
    ensures OpenSocket(c, created).session.lastSeq == 0
  {
  }

  lemma FrameKeepsStartingOver(c: Client, frame: Frame)
    requires StartsOver(c) && AppliesNothing(c, FrameArrives(frame))
    ensures var d := HandleFrame(c, frame); StartsOver(d) && (c.session.lastSeq == 0 ==> d.session.lastSeq == 0)
  {
    hide ApplyEvent, Trimmed, HandleSnapshot, IsTerminal, RemoveCommand;
    if frame.SnapshotFrame? {
      QuietSnapshot(c, frame.snapshot);
    }
  }

  lemma StepStartsOver(c: Client, input: Input)
    requires StartsOver(c) && AppliesNothing(c, input)
    ensures var d := Step(c, input);
            StartsOver(d) && (StartsAttempt(c, input) || c.session.lastSeq == 0 ==> d.session.lastSeq == 0)
  {
    hide HandleFrame, OpenSocket;
    match input {
      case FrameArrives(frame) => FrameKeepsStartingOver(c, frame);
      case UserConnects(created) =>
        OpenStartsOver(c.(closedByUser := false, gapCount := 0, retryAttempt := 0, timerSet := false), created);
      case TimerFires(created) => OpenStartsOver(c.(timerSet := false), created);
      case _ =>
    }
  }

  lemma {:induction false} RunStartsOver(c: Client, inputs: seq<Input>)
    requires StartsOver(c) && NothingApplied(c, inputs)
    ensures StartsOver(Run(c, inputs)) && (AttemptStarted(c, inputs) ==> Run(c, inputs).session.lastSeq == 0)
  {
    if inputs != [] {
      hide Step, StartsAttempt, AppliesNothing;
      RunStartsOver(c, inputs[..|inputs| - 1]);
      StepStartsOver(Run(c, inputs[..|inputs| - 1]), inputs[|inputs| - 1]);
    }
  }

  /** Three gaps at one sequence number, with reconnects, snapshots, duplicates and whatever else is quiet in
      between, ask for a full resync: whatever happens next, unless an event is applied, any socket that opens
      once the client has tried for a new one sends a hello with lastSeq 0. */
  lemma ThreeGapsForceResync(
    c: Client, first: Event, quiet1: seq<Input>, second: Event, quiet2: seq<Input>, third: Event,
    rest: seq<Input>, current: bool)
    requires c.gapSeq != Some(first.seqNo) || c.gapCount == 0
    requires first.seqNo == second.seqNo == third.seqNo
    requires var c1 := Step(c, Arrives(first));
             var c2 := Run(c1, quiet1);
             var c3 := Step(c2, Arrives(second));
             var c4 := Run(c3, quiet2);
             IsGap(c, first) && QuietRun(c1, quiet1) && IsGap(c2, second) && QuietRun(c3, quiet2) && IsGap(c4, third)
    ensures var c5 := Step(Run(Step(Run(Step(c, Arrives(first)), quiet1), Arrives(second)), quiet2), Arrives(third));
            var hellos := Step(Run(c5, rest), SocketOpens(current)).history.hellos;
            c5.fullResync &&
            (NothingApplied(c5, rest) && AttemptStarted(c5, rest) ==> hellos[|hellos| - 1] == 0)
  {
    hide Step, Run, NothingApplied, AttemptStarted;
    var c1 := Step(c, Arrives(first));
    GapCounted(c, first);
    var c2 := Run(c1, quiet1);
    QuietRunKeeps(c1, quiet1);
    var c3 := Step(c2, Arrives(second));
    GapCounted(c2, second);
    var c4 := Run(c3, quiet2);
    QuietRunKeeps(c3, quiet2);
    var c5 := Step(c4, Arrives(third));
    GapCounted(c4, third);
    if NothingApplied(c5, rest) {
      RunStartsOver(c5, rest);
    }
    HelloCarriesLastSeq(Run(c5, rest), current);
  }

  lemma HelloCarriesLastSeq(c: Client, current: bool)
    ensures Step(c, SocketOpens(current)).history.hellos == c.history.hellos + [c.session.lastSeq]
  {
  }

  /** Nothing else asks for a full resync. */
  lemma OnlyThirdGapForcesResync(c: Client, input: Input)
    requires !c.fullResync && Step(c, input).fullResync
    ensures input.FrameArrives? && input.frame.EventFrame? && IsGap(c, input.frame.event)
    ensures c.gapSeq == Some(input.frame.event.seqNo) && c.gapCount >= 2
  {
    hide HandleFrame;
    if input.FrameArrives? {
      ResyncFrame(c, input.frame);
    }
  }

  lemma ResyncFrame(c: Client, frame: Frame)
    requires !c.fullResync && HandleFrame(c, frame).fullResync
    ensures frame.EventFrame? && IsGap(c, frame.event) && c.gapSeq == Some(frame.event.seqNo) && c.gapCount >= 2
  {
    hide ApplyEvent, ApplySnapshot, IsTerminal;
  }
}
