/** When a snapshot may be applied. Over one socket every snapshot is newer than what the client has seen;
    a second socket can deliver an old one, and whether that does harm can be told from the log. */
module Snapshots {
  import opened Protocol
  import opened Store
  import opened Reducer
  import opened Registers

  /** The payload is the wire form of a snapshot of the log as it was at its own number. */
  ghost predicate Truthful(snap: SnapshotPayload, log: seq<Event>) {
    snap.lastSeq <= |log| &&
    exists s: Snapshot, devices :: SnapshotOf(s, s.sessionId, log[..snap.lastSeq]) && snap == OnWire(s, devices)
  }

  /** The wire leaves out an empty mode. */
  predicate Carries(snap: SnapshotPayload, reg: Register) {
    reg.ModeRegister? ==> snap.mode.Some?
  }

  /** What the log says of the register at `tip` is still what it says at `horizon`. */
  predicate StillTrue(log: seq<Event>, tip: nat, horizon: nat, reg: Register)
    requires tip <= horizon <= |log|
  {
    LastWrite(log[tip..horizon], reg).None? || LastWrite(log[tip..horizon], reg) == Some(Meaning(log[..tip], reg))
  }

  /** Nothing that the snapshot carries was rewritten between its tip and what the client has seen; and if it
      carries no mode, the mode that stays is right already or will be written again on the way. */
  ghost predicate Harmless(s: SessionState, snap: SnapshotPayload, log: seq<Event>)
    requires s.lastSeq <= |log| && snap.lastSeq <= |log|
  {
    var horizon := Later(snap.lastSeq, s.lastSeq);
    (forall reg :: Visible(reg) && Carries(snap, reg) ==> StillTrue(log, snap.lastSeq, horizon, reg)) &&
    (snap.mode.None? ==> RegisterConverges(Label(s.mode), log, s.lastSeq, horizon, ModeRegister))
  }

  /** A carried register that shows the log at `tip` converges exactly when that is still true. */
  lemma CarriedConverges(log: seq<Event>, tip: nat, at: nat, reg: Register)
    requires tip <= |log| && at <= |log|
    ensures RegisterConverges(Meaning(log[..tip], reg), log, at, Later(tip, at), reg) <==>
            StillTrue(log, tip, Later(tip, at), reg)
  {
    if tip < at {
      MeaningSplit(log, tip, at, reg);
      assert log[at..at] == [];
    } else {
      assert log[tip..tip] == [];
    }
  }

  lemma SeededReading(s: SessionState, snap: SnapshotPayload, log: seq<Event>, reg: Register)
    requires Truthful(snap, log) && Carries(snap, reg)
    ensures ReadClient(ApplySnapshot(s, snap), reg) == Meaning(log[..snap.lastSeq], reg)
  {
    hide SnapshotOf, ApplySnapshot;
    var full: Snapshot, devices :|
      SnapshotOf(full, full.sessionId, log[..snap.lastSeq]) && snap == OnWire(full, devices);
    SnapshotSeeds(s, log[..snap.lastSeq], full, devices, reg);
  }

  /** For any session and any truthful snapshot of it, old or new: the view after the snapshot is on its way
      to the host's if and only if the snapshot is harmless. */
  lemma SnapshotConvergesExactly(s: SessionState, snap: SnapshotPayload, log: seq<Event>)
    requires Truthful(snap, log) && s.lastSeq <= |log| && !IsOtherSession(s, snap)
    ensures Converging(ApplySnapshot(s, snap), log) <==> Harmless(s, snap, log)
  {
    hide Truthful, StillTrue, RegisterConverges;
    var after := ApplySnapshot(s, snap);
    var horizon := Later(snap.lastSeq, s.lastSeq);
    assert horizon <= |log| by { TruthfulIsBounded(snap, log); }
    forall reg | Visible(reg) && Carries(snap, reg)
      ensures RegisterConverges(ReadClient(after, reg), log, s.lastSeq, horizon, reg) <==>
              StillTrue(log, snap.lastSeq, horizon, reg)
    {
      SeededReading(s, snap, log, reg);
      CarriedConverges(log, snap.lastSeq, s.lastSeq, reg);
    }
    assert snap.mode.None? ==> ReadClient(after, ModeRegister) == Label(s.mode);
  }

  lemma TruthfulIsBounded(snap: SnapshotPayload, log: seq<Event>)
    requires Truthful(snap, log)
    ensures snap.lastSeq <= |log|
  {
  }

  /** A snapshot no newer than a view in sync leaves it in sync if and only if nothing it carries was
      rewritten since its tip to another value. */
  lemma LateSnapshotExactly(s: SessionState, snap: SnapshotPayload, log: seq<Event>)
    requires Truthful(snap, log) && InSync(s, log) && snap.lastSeq <= s.lastSeq && !IsOtherSession(s, snap)
    ensures InSync(ApplySnapshot(s, snap), log) <==>
            forall reg :: Visible(reg) && Carries(snap, reg) ==> StillTrue(log, snap.lastSeq, s.lastSeq, reg)
  {
    hide Truthful, StillTrue, ApplySnapshot, InSync, Converging;
    var after := ApplySnapshot(s, snap);
    InSyncMode(s, log);
    SnapshotKeepsStream(s, snap);
    SnapshotConvergesExactly(s, snap, log);
    ConvergingOrNot(after, log);
  }

  lemma InSyncMode(s: SessionState, log: seq<Event>)
    requires InSync(s, log)
    ensures s.lastSeq <= |log| && RegisterConverges(Label(s.mode), log, s.lastSeq, s.lastSeq, ModeRegister)
  {
    ServerFoldMeans(log[..s.lastSeq], ModeRegister);
    assert ReadClient(s, ModeRegister) == ReadServer(ServerFold(log[..s.lastSeq]), ModeRegister);
  }

  /** At the tip, on the way and in sync are the same. */
  lemma ConvergingOrNot(s: SessionState, log: seq<Event>)
    requires s.tipSeq <= s.lastSeq <= |log|
    ensures Converging(s, log) <==> InSync(s, log)
  {
    if Converging(s, log) {
      ConvergedAtTip(s, log);
    } else if InSync(s, log) {
      forall reg | Visible(reg)
        ensures RegisterConverges(ReadClient(s, reg), log, s.lastSeq, s.lastSeq, reg)
      {
        ServerFoldMeans(log[..s.lastSeq], reg);
      }
    }
  }

  /** A snapshot at or above all the client has seen is harmless, and one that carries a mode need only be at
      or above the events the client has applied. */
  lemma NewerIsHarmless(s: SessionState, snap: SnapshotPayload, log: seq<Event>)
    requires Truthful(snap, log) && Converging(s, log) && !IsOtherSession(s, snap)
    requires s.lastSeq <= snap.lastSeq && (snap.mode.None? ==> s.tipSeq <= snap.lastSeq)
    ensures Harmless(s, snap, log)
  {
    hide SnapshotOf, ApplySnapshot;
    var full: Snapshot, devices :|
      SnapshotOf(full, full.sessionId, log[..snap.lastSeq]) && snap == OnWire(full, devices);
    ConvergingSnapshot(s, log, snap.lastSeq, full, devices);
    SnapshotConvergesExactly(s, snap, log);
  }

  // --- Witnesses ---

  lemma EmptySnapshot(log: seq<Event>)
    ensures Truthful(OnWire(Snapshot("s", "idle", "", 0, [], []), []), log)
  {
    var full := Snapshot("s", "idle", "", 0, [], []);
    assert log[..0] == [] && SnapshotOf(full, full.sessionId, log[..0]);
  }

  /** A snapshot older than the events the client has applied takes a view out of sync, and the client
      believes to be caught up. */
  lemma LateSnapshotRegresses(ev: Event)
    requires ev.seqNo == 1 && ev.body == StatusChange("running")
    ensures var before := Replay(NEW_SESSION, [ev], None);
            var late := OnWire(Snapshot("s", "idle", "", 0, [], []), []);
            var after := ApplySnapshot(before, late);
            Truthful(late, [ev]) && InSync(before, [ev]) && after.lastSeq >= after.tipSeq && !InSync(after, [ev])
  {
    var late := OnWire(Snapshot("s", "idle", "", 0, [], []), []);
    assert [ev] == [] + [ev] && [ev][..1] == [ev];
    ReplayAppend(NEW_SESSION, [], ev, None);
    ConvergingNewSession([ev]);
    ConvergingEvent(NEW_SESSION, [ev], ev, None);
    var before := Replay(NEW_SESSION, [ev], None);
    ConvergedAtTip(before, [ev]);
    EmptySnapshot([ev]);
    LateSnapshotExactly(before, late, [ev]);
    assert LastWrite([ev][0..1], StatusRegister) == Some(Label("running"));
    assert !StillTrue([ev], 0, 1, StatusRegister);
  }

  /** A snapshot no older than the events applied, but older than another snapshot and without a mode, leaves
      that other snapshot's mode standing. */
  lemma StaleModeSurvives(ev: Event, device: string)
    requires ev.seqNo == 1 && ev.body == ModeChanged("plan", device)
    ensures var first := OnWire(Snapshot("s", "idle", "plan", 1, [], []), []);
            var second := OnWire(Snapshot("s", "idle", "", 0, [], []), []);
            var after := ApplySnapshot(ApplySnapshot(NEW_SESSION, first), second);
            Truthful(first, [ev]) && Truthful(second, [ev]) && after.mode == "plan" &&
            after.lastSeq == after.tipSeq == 0 && !InSync(after, [ev])
  {
    var full := Snapshot("s", "idle", "plan", 1, [], []);
    assert [ev][..1] == [] + [ev];
    FoldAppend(StartView("idle"), [], ev);
    assert SnapshotOf(full, full.sessionId, [ev][..1]);
    EmptySnapshot([ev]);
    var after := ApplySnapshot(ApplySnapshot(NEW_SESSION, OnWire(full, [])),
                               OnWire(Snapshot("s", "idle", "", 0, [], []), []));
    assert [ev][..0] == [];
    assert ReadClient(after, ModeRegister) != ReadServer(ServerFold([ev][..0]), ModeRegister);
  }
}
