/** What becomes of a claimed command: it is logged, a handler still holds it, or the device was told that it is
    refused. A dead key is a refused one. */
module HubFates {
  import opened Protocol
  import opened Store
  import opened Counting
  import opened HubModel
  import opened HubTokens
  import opened HubProvenance
  import opened HubFrames
  import opened HubRefusals

  /** Some connection of the device was offered an error that turns the command down. */
  ghost predicate WasRefused(h: Hub, device: DeviceId, id: string) {
    exists c, f ::
      0 <= c < |h.conns| && h.conns[c].device == device && f in h.conns[c].offered && IsRefusal(f) && f.commandId == id
  }

  // --- A held command goes on being held, is logged or is refused ---

  predicate Holds(work: Work) {
    work.Claimed? || work.Taken?
  }

  predicate TurnsDown(frame: Frame, id: string) {
    frame.ErrorFrame? && frame.code != "agent_error" && frame.commandId == id
  }

  ghost predicate GoesOn(a: Conn, b: Conn, origins: seq<Origin>)
    requires Holds(a.work)
  {
    var command := a.work.command;
    b.device == a.device &&
    ((Holds(b.work) && b.work.command == command) ||
     (exists n :: 0 <= n < |origins| && origins[n] == FromCommand(KeyOf(a, command), a.device, command)) ||
     (exists f :: f in b.offered && TurnsDown(f, command.id)))
  }

  lemma RefuseGoesOn(h: Hub, c: nat, code: string, room: bool)
    requires c < |h.conns| && Holds(h.conns[c].work) && code != "agent_error"
    ensures GoesOn(h.conns[c], Refuse(h, c, code, room).conns[c], h.origins)
  {
    var b := Refuse(h, c, code, room).conns[c];
    assert b.offered[|b.offered| - 1] == ErrorFrame(h.conns[c].work.command.id, code);
    assert TurnsDown(ErrorFrame(h.conns[c].work.command.id, code), h.conns[c].work.command.id);
  }

  lemma TakeGoesOn(h: Hub, c: nat, room: bool)
    requires c < |h.conns| && Holds(h.conns[c].work)
    ensures GoesOn(h.conns[c], Take(h, c, room).conns[c], h.origins)
  {
    hide EventFor, PendingCards, Refuse, IdempotencyKey;
    if h.conns[c].work.Claimed? {
      assert "bad_request"[0] != "agent_error"[0];
      RefuseGoesOn(h, c, RefusalCode(h.conns[c].work.command.request), room);
      RefuseGoesOn(h, c, "already_resolved", room);
    }
  }

  lemma AppendGoesOn(h: Hub, c: nat, ts: int, fault: Fault, room: bool)
    requires c < |h.conns| && Holds(h.conns[c].work)
    ensures var d := AppendCommand(h, c, ts, fault, room);
            c < |d.conns| && GoesOn(h.conns[c], d.conns[c], d.origins)
  {
    hide EventFor, NextCache, NextEvent, IdempotencyKey, Offer;
    if ReadyToAppend(h.conns[c].work, h.conns[c].device) {
      if fault.Refused? {
        RefuseGoesOn(h, c, "server_error", room);
      } else {
        var d := AppendCommand(h, c, ts, fault, room);
        assert d.origins[|h.origins|].FromCommand?;
      }
    }
  }

  /** No other step, and no step of another connection, touches a held command. */
  lemma OthersLeaveHeld(h: Hub, step: Step, c: nat)
    requires c < |h.conns| && Holds(h.conns[c].work)
    requires !((step.TakeStep? || step.AppendStep?) && step.c == c)
    ensures var d := Next(h, step);
            c < |d.conns| && d.conns[c].device == h.conns[c].device && Holds(d.conns[c].work) &&
            d.conns[c].work.command == h.conns[c].work.command
  {
    hide EventFor, PendingCards, RefusalCode, NextCache, NextEvent, IdempotencyKey, SnapshotFrom, Next;
    if MovesNoToken(step) {
      NoTokenMoved(h, step);
      assert SameToken(h.conns[c], Next(h, step).conns[c]);
    } else {
      TokenStepLeavesHeld(h, step, c);
    }
  }

  lemma OtherTakeOrAppend(h: Hub, step: Step, c: nat)
    requires c < |h.conns| && (step.TakeStep? || step.AppendStep?) && step.c != c
    ensures c < |Next(h, step).conns| && Next(h, step).conns[c] == h.conns[c]
  {
    hide EventFor, PendingCards, RefusalCode, NextCache, NextEvent, IdempotencyKey, Offer;
  }

  lemma TokenStepLeavesHeld(h: Hub, step: Step, c: nat)
    requires c < |h.conns| && Holds(h.conns[c].work) && !MovesNoToken(step)
    requires !((step.TakeStep? || step.AppendStep?) && step.c == c)
    ensures c < |Next(h, step).conns| && Next(h, step).conns[c] == h.conns[c]
  {
    hide NextCache, NextEvent, IdempotencyKey, Offer, Take, AppendCommand;
    if step.TakeStep? || step.AppendStep? {
      OtherTakeOrAppend(h, step, c);
    }
  }

  lemma HeldGoesOn(h: Hub, step: Step, c: nat)
    requires c < |h.conns| && Holds(h.conns[c].work)
    ensures c < |Next(h, step).conns| && GoesOn(h.conns[c], Next(h, step).conns[c], Next(h, step).origins)
  {
    hide Take, AppendCommand, Holds, IdempotencyKey;
    if step.TakeStep? && step.c == c {
      TakeGoesOn(h, c, step.room);
      TakeKeepsOrigins(h, c, step.room);
    } else if step.AppendStep? && step.c == c {
      AppendGoesOn(h, c, step.ts, step.fault, step.room);
    } else {
      hide Next;
      OthersLeaveHeld(h, step, c);
    }
  }

  lemma TakeKeepsOrigins(h: Hub, c: nat, room: bool)
    ensures Take(h, c, room).origins == h.origins && |Take(h, c, room).conns| == |h.conns|
  {
    hide EventFor, PendingCards, RefusalCode, Offer;
  }

  /** A key that is newly claimed is held by the handler that claimed it. */
  lemma NewlyClaimedIsHeld(h: Hub, step: Step, key: string)
    requires key !in h.idempotency && key in Next(h, step).idempotency
    ensures IsHeld(Next(h, step), key)
  {
    hide EventFor, PendingCards, RefusalCode, NextCache, NextEvent, IdempotencyKey, SnapshotFrom, Offer, Next;
    if MovesNoToken(step) {
      NoTokenMoved(h, step);
    } else {
      TokenStepClaims(h, step, key);
    }
  }

  lemma TokenStepClaims(h: Hub, step: Step, key: string)
    requires !MovesNoToken(step) && key !in h.idempotency && key in Next(h, step).idempotency
    ensures IsHeld(Next(h, step), key)
  {
    hide EventFor, PendingCards, RefusalCode, NextCache, NextEvent, IdempotencyKey, Offer;
    assert step.ClaimStep?;
    assert HoldsKey(key)(Next(h, step).conns[step.c]);
  }

  // --- Over runs ---

  /** Every claimed key of the device has one of the three fates. */
  ghost predicate FateKnown(h: Hub, device: DeviceId, id: string) {
    var key := IdempotencyKey(device, id);
    key in h.idempotency ==> IsSpent(h, key) || IsHeld(h, key) || WasRefused(h, device, id)
  }

  lemma SpentStaysSpent(h: Hub, step: Step, key: string)
    requires IsSpent(h, key)
    ensures IsSpent(Next(h, step), key)
  {
    hide Next, IdempotencyKey;
    OriginsFollow(h, step);
    var n :| 0 <= n < |h.origins| && SpentOn(key)(h.origins[n]);
    assert Next(h, step).origins[n] == h.origins[n];
  }

  lemma RefusedStaysRefused(h: Hub, step: Step, device: DeviceId, id: string)
    requires WasRefused(h, device, id)
    ensures WasRefused(Next(h, step), device, id)
  {
    hide Next, Handed;
    StepFollows(h, step);
    var c, f :| 0 <= c < |h.conns| && h.conns[c].device == device && f in h.conns[c].offered && IsRefusal(f) &&
                f.commandId == id;
    assert ConnFollows(h.conns[c], Next(h, step).conns[c], Handed(h, step, h.conns[c].device));
  }

  lemma HeldHasFate(h: Hub, step: Step, device: DeviceId, id: string)
    requires IsHeld(h, IdempotencyKey(device, id)) && KeyedById(h.conns, device)
    ensures FateKnown(Next(h, step), device, id)
  {
    hide Next, IdempotencyKey;
    var key, d := IdempotencyKey(device, id), Next(h, step);
    var c :| 0 <= c < |h.conns| && HoldsKey(key)(h.conns[c]);
    var a := h.conns[c];
    SlotsAreDistinct(a.device, a.work.command.idempotencyKey, device, id);
    HeldGoesOn(h, step, c);
    var b := d.conns[c];
    if Holds(b.work) && b.work.command == a.work.command {
      assert HoldsKey(key)(b);
    } else if n :| 0 <= n < |d.origins| && d.origins[n] == FromCommand(key, a.device, a.work.command) {
      assert SpentOn(key)(d.origins[n]);
    } else {
      var f :| f in b.offered && TurnsDown(f, id);
      assert IsRefusal(f);
    }
  }

  lemma FateStep(h: Hub, step: Step, device: DeviceId, id: string)
    requires FateKnown(h, device, id) && KeyedById(h.conns, device)
    ensures FateKnown(Next(h, step), device, id)
  {
    hide Next, IsSpent, IsHeld, WasRefused, IdempotencyKey, KeyedById;
    var key := IdempotencyKey(device, id);
    if key in Next(h, step).idempotency {
      if key !in h.idempotency {
        NewlyClaimedIsHeld(h, step, key);
      } else if IsSpent(h, key) {
        SpentStaysSpent(h, step, key);
      } else if WasRefused(h, device, id) {
        RefusedStaysRefused(h, step, device, id);
      } else {
        HeldHasFate(h, step, device, id);
      }
    }
  }

  /** Dead means refused: nothing can become of a key exactly when the device was told so. */
  lemma DeadMeansRefused(h: Hub, device: DeviceId, id: string)
    requires FateKnown(h, device, id) && AllRefusalsFinal(h, device)
    ensures IsDead(h, IdempotencyKey(device, id)) <==> WasRefused(h, device, id)
  {
    hide IdempotencyKey;
    var key := IdempotencyKey(device, id);
    TallyExists(h.origins, SpentOn(key));
    TallyExists(h.conns, HoldsKey(key));
    if WasRefused(h, device, id) {
      var c, f :| 0 <= c < |h.conns| && h.conns[c].device == device && f in h.conns[c].offered && IsRefusal(f) &&
                  f.commandId == id;
      assert RefusalsFinal(h, device, h.conns[c].offered);
    }
  }

  /** A key is claimed only over a connection of its device. */
  lemma {:induction false} ClaimedHasConn(sessionId: string, steps: seq<Step>, device: DeviceId, id: string)
    requires IdempotencyKey(device, id) in Exec(Start(sessionId), steps).idempotency
    ensures exists c ::
              0 <= c < |Exec(Start(sessionId), steps).conns| &&
              Exec(Start(sessionId), steps).conns[c].device == device
  {
    hide Next, IdempotencyKey, Handed;
    var n, key := |steps| - 1, IdempotencyKey(device, id);
    var h := Exec(Start(sessionId), steps[..n]);
    var d := Next(h, steps[n]);
    if key in h.idempotency {
      ClaimedHasConn(sessionId, steps[..n], device, id);
      StepFollows(h, steps[n]);
      var c :| 0 <= c < |h.conns| && h.conns[c].device == device;
      assert ConnFollows(h.conns[c], d.conns[c], Handed(h, steps[n], h.conns[c].device));
    } else {
      NewlyClaimedIsHeld(h, steps[n], key);
      var c :| 0 <= c < |d.conns| && HoldsKey(key)(d.conns[c]);
      SlotsAreDistinct(d.conns[c].device, d.conns[c].work.command.idempotencyKey, device, id);
    }
  }
}
