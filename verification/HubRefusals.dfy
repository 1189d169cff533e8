/** A refusal is final: a command turned down before its append never reached the log and never will. */
module HubRefusals {
  import opened Protocol
  import opened Store
  import opened Counting
  import opened HubModel
  import opened HubTokens
  import opened HubFrames

  /** What can still become of a key: an unclaimed key can be claimed, a claimed one appended. It never grows. */
  ghost function Slack(h: Hub, key: string): nat {
    Tally(h.conns, HoldsKey(key)) + Tally(h.origins, SpentOn(key)) + Count(key !in h.idempotency)
  }

  predicate Drops(a: Conn, b: Conn, key: string) {
    HoldsKey(key)(a) && b.work.Waiting?
  }

  /** It shrinks when a handler drops a command that it had claimed and not logged. */
  ghost predicate SlackShrinks(h: Hub, d: Hub, key: string) {
    Slack(d, key) <= Slack(h, key) &&
    forall c :: 0 <= c < |h.conns| && c < |d.conns| && Drops(h.conns[c], d.conns[c], key) ==>
      Slack(d, key) < Slack(h, key)
  }

  lemma SameHoldingsSlack(h: Hub, d: Hub, key: string)
    requires SameHoldings(h, d)
    ensures SlackShrinks(h, d, key)
  {
    TallySame(h.conns, d.conns, HoldsKey(key));
  }

  /** Connection c changes, and nothing else that a key's slack depends on. */
  lemma ConnSlack(h: Hub, d: Hub, c: nat, key: string)
    requires c < |h.conns| == |d.conns| && d.conns == h.conns[c := d.conns[c]]
    requires d.origins == h.origins && d.idempotency == h.idempotency
    requires HoldsKey(key)(d.conns[c]) ==> HoldsKey(key)(h.conns[c])
    ensures SlackShrinks(h, d, key)
  {
    TallyUpdate(h.conns, c, d.conns[c], HoldsKey(key));
  }

  lemma ClaimSlack(h: Hub, c: nat, room: bool, key: string)
    ensures SlackShrinks(h, Claim(h, c, room), key)
  {
    hide IdempotencyKey, SlackShrinks;
    var d := Claim(h, c, room);
    if c < |h.conns| && h.conns[c].work.Received? {
      var claimed := KeyOf(h.conns[c], h.conns[c].work.command);
      if claimed in h.idempotency {
        ConnSlack(h, d, c, key);
      } else {
        ClaimedSlack(h, d, c, claimed, key);
      }
    } else {
      SameSlack(h, key);
    }
  }

  /** The key goes from unclaimed to held. */
  lemma ClaimedSlack(h: Hub, d: Hub, c: nat, claimed: string, key: string)
    requires c < |h.conns| == |d.conns| && d.conns == h.conns[c := d.conns[c]] && d.origins == h.origins
    requires claimed !in h.idempotency && d.idempotency == h.idempotency + {claimed}
    requires !HoldsKey(key)(h.conns[c]) && !d.conns[c].work.Waiting? && (HoldsKey(key)(d.conns[c]) ==> key == claimed)
    ensures SlackShrinks(h, d, key)
  {
    TallyUpdate(h.conns, c, d.conns[c], HoldsKey(key));
  }

  lemma TakeSlack(h: Hub, c: nat, room: bool, key: string)
    ensures SlackShrinks(h, Take(h, c, room), key)
  {
    hide IdempotencyKey, PendingCards, EventFor, RefusalCode, SlackShrinks;
    if c < |h.conns| && h.conns[c].work.Claimed? {
      ConnSlack(h, Take(h, c, room), c, key);
    } else {
      SameSlack(h, key);
    }
  }

  /** The key goes from held to spent. */
  lemma SpentSlack(h: Hub, d: Hub, c: nat, origin: Origin, key: string)
    requires c < |h.conns| == |d.conns| && d.conns == h.conns[c := d.conns[c]]
    requires d.origins == h.origins + [origin] && d.idempotency == h.idempotency
    requires !d.conns[c].work.Waiting? && !HoldsKey(key)(d.conns[c])
    requires SpentOn(key)(origin) ==> HoldsKey(key)(h.conns[c])
    ensures SlackShrinks(h, d, key)
  {
    TallyUpdate(h.conns, c, d.conns[c], HoldsKey(key));
    TallyAppend(h.origins, origin, SpentOn(key));
  }

  lemma AppendSlack(h: Hub, c: nat, ts: int, fault: Fault, room: bool, key: string)
    ensures SlackShrinks(h, AppendCommand(h, c, ts, fault, room), key)
  {
    hide IdempotencyKey, EventFor, NextCache, NextEvent, SlackShrinks;
    var d := AppendCommand(h, c, ts, fault, room);
    if c < |h.conns| && ReadyToAppend(h.conns[c].work, h.conns[c].device) {
      if fault.Refused? {
        ConnSlack(h, d, c, key);
      } else {
        SpentSlack(h, d, c, d.origins[|h.origins|], key);
      }
    } else {
      SameSlack(h, key);
    }
  }

  lemma DialSlack(h: Hub, device: DeviceId, hello: int, key: string)
    ensures SlackShrinks(h, Dial(h, device, hello), key)
  {
  }

  lemma ForwardSlack(h: Hub, c: nat, accepted: bool, room: bool, key: string)
    ensures SlackShrinks(h, Forward(h, c, accepted, room), key)
  {
    hide IdempotencyKey, SlackShrinks;
    if c < |h.conns| && h.conns[c].work.FanningOut? && h.conns[c].work.targets == {} {
      ConnSlack(h, Forward(h, c, accepted, room), c, key);
    } else {
      SameSlack(h, key);
    }
  }

  lemma SameSlack(h: Hub, key: string)
    ensures SlackShrinks(h, h, key)
  {
  }

  lemma EmitSlack(h: Hub, ts: int, body: Body, fault: Fault, key: string)
    ensures SlackShrinks(h, AgentEmits(h, ts, body, fault), key)
    ensures SlackShrinks(h, FileRequest(h), key)
  {
    hide NextCache, NextEvent;
    TallyAppend(h.origins, FromAgent, SpentOn(key));
  }

  lemma SlackStep(h: Hub, step: Step, key: string)
    ensures SlackShrinks(h, Next(h, step), key)
  {
    hide SlackShrinks, SameHoldings, Dial, Claim, Take, AppendCommand, Forward, AgentEmits, FileRequest;
    if MovesNoToken(step) {
      NoTokenMoved(h, step);
      SameHoldingsSlack(h, Next(h, step), key);
    } else {
      match step {
        case DialStep(device, hello) => DialSlack(h, device, hello, key);
        case ClaimStep(c, room) => ClaimSlack(h, c, room, key);
        case TakeStep(c, room) => TakeSlack(h, c, room, key);
        case AppendStep(c, ts, fault, room) => AppendSlack(h, c, ts, fault, room, key);
        case ForwardStep(c, accepted, room) => ForwardSlack(h, c, accepted, room, key);
        case EmitStep(ts, body, fault) => EmitSlack(h, ts, body, fault, key);
        case FileStep => EmitSlack(h, 0, TurnComplete, NoFault, key);
      }
    }
  }

  lemma SlackBounded(h: Hub, key: string)
    requires KeyBalance(h, key)
    ensures Slack(h, key) <= 1
  {
  }

  /** Nothing can become of the key any more, and nothing has. What that means to the device is that the command
      was refused (`HubFates.DeadMeansRefused`). */
  ghost predicate IsDead(h: Hub, key: string) {
    Slack(h, key) == 0
  }

  ghost predicate IsSpent(h: Hub, key: string) {
    exists n :: 0 <= n < |h.origins| && SpentOn(key)(h.origins[n])
  }

  ghost predicate IsHeld(h: Hub, key: string) {
    exists c :: 0 <= c < |h.conns| && HoldsKey(key)(h.conns[c])
  }

  lemma DeadIsNotLogged(h: Hub, key: string, n: nat)
    requires IsDead(h, key) && n < |h.origins|
    ensures !(h.origins[n].FromCommand? && h.origins[n].key == key)
  {
    if SpentOn(key)(h.origins[n]) {
      TallyPositive(h.origins, n, SpentOn(key));
    }
  }

  // --- Refusals on the connections of a device whose commands use their id as key ---

  ghost predicate RefusalsFinal(h: Hub, device: DeviceId, frames: seq<Frame>) {
    forall f :: f in frames && IsRefusal(f) ==> IsDead(h, IdempotencyKey(device, f.commandId))
  }

  ghost predicate AllRefusalsFinal(h: Hub, device: DeviceId) {
    forall c :: 0 <= c < |h.conns| && h.conns[c].device == device ==> RefusalsFinal(h, device, h.conns[c].offered)
  }

  predicate KeyedById(conns: seq<Conn>, device: DeviceId) {
    forall c :: 0 <= c < |conns| && conns[c].device == device && !conns[c].work.Waiting? ==>
      conns[c].work.command.id == conns[c].work.command.idempotencyKey != ""
  }

  lemma DeadStaysDead(h: Hub, step: Step, key: string)
    requires IsDead(h, key)
    ensures IsDead(Next(h, step), key)
  {
    hide Next, Slack;
    SlackStep(h, step, key);
  }

  lemma GivenUpIsDead(h: Hub, step: Step, c: nat, id: string)
    requires c < |h.conns| && c < |Next(h, step).conns| && GivesUp(h.conns[c], Next(h, step).conns[c], id)
    requires id == h.conns[c].work.command.idempotencyKey
    requires KeyBalance(h, IdempotencyKey(h.conns[c].device, id))
    ensures IsDead(Next(h, step), IdempotencyKey(h.conns[c].device, id))
  {
    hide Next, Slack, KeyBalance, IdempotencyKey;
    var key := IdempotencyKey(h.conns[c].device, id);
    SlackStep(h, step, key);
    SlackBounded(h, key);
    assert Drops(h.conns[c], Next(h, step).conns[c], key);
  }

  lemma RefusalsStep(h: Hub, step: Step, device: DeviceId)
    requires AllRefusalsFinal(h, device) && KeyedById(h.conns, device)
    requires forall key :: KeyBalance(h, key)
    ensures AllRefusalsFinal(Next(h, step), device)
  {
    hide Next, IsDead, KeyBalance, Handed, IdempotencyKey;
    var d := Next(h, step);
    StepFollows(h, step);
    forall c, f | 0 <= c < |d.conns| && d.conns[c].device == device && f in d.conns[c].offered && IsRefusal(f)
      ensures IsDead(d, IdempotencyKey(device, f.commandId))
    {
      assert c < |h.conns| && ConnFollows(h.conns[c], d.conns[c], Handed(h, step, h.conns[c].device));
      if f in h.conns[c].offered {
        assert RefusalsFinal(h, device, h.conns[c].offered);
        DeadStaysDead(h, step, IdempotencyKey(device, f.commandId));
      } else {
        assert KeyBalance(h, IdempotencyKey(device, f.commandId));
        GivenUpIsDead(h, step, c, f.commandId);
      }
    }
  }

  // --- Acks on the connections of such a device ---

  /** Every ack, numbered or not, is of a command whose key is claimed. */
  ghost predicate AcksClaimed(h: Hub, device: DeviceId) {
    forall c, f :: 0 <= c < |h.conns| && h.conns[c].device == device && f in h.conns[c].offered && f.AckFrame? ==>
      IdempotencyKey(device, f.commandId) in h.idempotency
  }

  /** A handler past its append has spent its key. */
  lemma OwedIsClaimed(h: Hub, c: nat)
    requires c < |h.conns| && h.conns[c].work.Logged? && KeyBalance(h, KeyOf(h.conns[c], h.conns[c].work.command))
    ensures KeyOf(h.conns[c], h.conns[c].work.command) in h.idempotency
  {
    TallyPositive(h.conns, c, OwesKey(KeyOf(h.conns[c], h.conns[c].work.command)));
  }

  lemma AcksStep(h: Hub, step: Step, device: DeviceId)
    requires AcksClaimed(h, device) && KeyedById(h.conns, device)
    requires forall key :: KeyBalance(h, key)
    ensures AcksClaimed(Next(h, step), device)
  {
    hide Next, KeyBalance, Handed, IdempotencyKey, RefusalsFollow;
    var d := Next(h, step);
    StepFollows(h, step);
    forall c, f | 0 <= c < |d.conns| && d.conns[c].device == device && f in d.conns[c].offered && f.AckFrame?
      ensures IdempotencyKey(device, f.commandId) in d.idempotency
    {
      assert c < |h.conns| && ConnFollows(h.conns[c], d.conns[c], Handed(h, step, h.conns[c].device));
      if f !in h.conns[c].offered && h.conns[c].work.Logged? {
        assert KeyBalance(h, KeyOf(h.conns[c], h.conns[c].work.command));
        OwedIsClaimed(h, c);
      }
    }
  }
}
