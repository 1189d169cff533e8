/** No registered client misses a broadcast: every event logged since a connection joined the clients was offered
    to it, or is still on its way there. And every command in the log was acked to its device, or is about to be. */
module HubReach {
  import opened Protocol
  import opened Store
  import opened HubModel
  import opened HubTokens
  import opened HubStreams
  import opened HubProvenance
  import opened HubFrames

  /** The handler still has to offer the event to connection c: it has not copied the clients yet, or c is among
      those it copied and has not come to. */
  predicate Carries(work: Work, ev: Event, c: nat) {
    match work
    case Logged(_, e) => e == ev
    case Acked(_, e) => e == ev
    case FanningOut(_, e, targets) => e == ev && c in targets
    case _ => false
  }

  predicate IngestCarries(ingest: Ingest, ev: Event, c: nat) {
    match ingest
    case Listening => false
    case Appended(e) => e == ev
    case Filed(e) => e == ev
    case Spreading(e, targets) => e == ev && c in targets
  }

  ghost predicate UnderWay(h: Hub, ev: Event, c: nat) {
    IngestCarries(h.ingest, ev, c) || exists k :: 0 <= k < |h.conns| && Carries(h.conns[k].work, ev, c)
  }

  ghost predicate WasOffered(conn: Conn, ev: Event) {
    EventFrame(ev) in conn.offered
  }

  ghost predicate Reached(h: Hub, c: nat) {
    c < |h.conns| &&
    forall n :: h.conns[c].joinedAt <= n < |h.log| ==> WasOffered(h.conns[c], h.log[n]) || UnderWay(h, h.log[n], c)
  }

  /** The clients are the connections being served. */
  predicate ServingAreClients(h: Hub) {
    (forall c :: c in h.clients ==> c < |h.conns|) &&
    forall c :: 0 <= c < |h.conns| ==> (h.conns[c].setup.Serving? <==> c in h.clients)
  }

  ghost predicate AllReached(h: Hub) {
    ServingAreClients(h) && forall c :: c in h.clients ==> Reached(h, c)
  }

  // --- What a step has to do ---

  /** An event under way stays so or has arrived. */
  ghost predicate Passes(h: Hub, d: Hub) {
    forall ev, c :: c in d.clients && UnderWay(h, ev, c) ==>
      UnderWay(d, ev, c) || (c < |d.conns| && WasOffered(d.conns[c], ev))
  }

  /** Each client was one before, with less offered, or joins now. */
  predicate Joins(h: Hub, d: Hub) {
    forall c :: c in d.clients ==>
      c < |d.conns| &&
      (d.conns[c].joinedAt >= |d.log| ||
       (c in h.clients && c < |h.conns| && d.conns[c].joinedAt == h.conns[c].joinedAt &&
        h.conns[c].offered <= d.conns[c].offered))
  }

  /** A newly logged event is on its way to everyone. */
  ghost predicate Starts(h: Hub, d: Hub) {
    h.log <= d.log && forall n, c :: |h.log| <= n < |d.log| ==> UnderWay(d, d.log[n], c)
  }

  ghost predicate Delivers(h: Hub, d: Hub) {
    Passes(h, d) && Joins(h, d) && Starts(h, d) && ServingAreClients(d)
  }

  lemma DeliveredReached(h: Hub, d: Hub)
    requires AllReached(h) && Delivers(h, d)
    ensures AllReached(d)
  {
    hide UnderWay;
    forall c, n | c in d.clients && d.conns[c].joinedAt <= n < |d.log|
      ensures WasOffered(d.conns[c], d.log[n]) || UnderWay(d, d.log[n], c)
    {
      if n < |h.log| {
        assert Reached(h, c);
        assert d.log[n] == h.log[n];
      }
    }
  }

  // --- Steps ---

  /** Only connection c0's handler moves, and the ingest loop does not. */
  ghost predicate OnlyHandler(h: Hub, d: Hub, c0: nat) {
    d.ingest == h.ingest && |h.conns| <= |d.conns| &&
    forall k :: 0 <= k < |h.conns| && k != c0 ==> d.conns[k].work == h.conns[k].work
  }

  lemma HandlerPasses(h: Hub, d: Hub, c0: nat)
    requires OnlyHandler(h, d, c0)
    requires forall ev, c :: c in d.clients && c0 < |h.conns| && Carries(h.conns[c0].work, ev, c) ==>
               Carries(d.conns[c0].work, ev, c) || (c < |d.conns| && WasOffered(d.conns[c], ev))
    ensures Passes(h, d)
  {
    hide Carries;
    forall ev, c | c in d.clients && UnderWay(h, ev, c) && !IngestCarries(h.ingest, ev, c)
      ensures UnderWay(d, ev, c) || (c < |d.conns| && WasOffered(d.conns[c], ev))
    {
      var k :| 0 <= k < |h.conns| && Carries(h.conns[k].work, ev, c);
      assert k != c0 ==> Carries(d.conns[k].work, ev, c);
    }
  }

  lemma DialDelivers(h: Hub, device: DeviceId, hello: int)
    requires ServingAreClients(h)
    ensures Delivers(h, Dial(h, device, hello))
  {
    hide UnderWay, Carries;
    HandlerPasses(h, Dial(h, device, hello), |h.conns|);
  }

  lemma ReadDelivers(h: Hub, step: Step)
    requires step.ReadRowStep? || step.ReadLogStep? || step.ReadTailStep?
    requires ServingAreClients(h)
    ensures Delivers(h, Next(h, step))
  {
    hide SnapshotFrom, Since, UnderWay, Carries;
    HandlerPasses(h, Next(h, step), |h.conns|);
  }

  lemma HangUpDelivers(h: Hub, c: nat)
    requires ServingAreClients(h)
    ensures Delivers(h, HangUp(h, c))
  {
    hide UnderWay, Carries;
    HandlerPasses(h, HangUp(h, c), |h.conns|);
  }

  lemma RegisterDelivers(h: Hub, c: nat, devices: seq<DeviceView>, room: seq<bool>)
    requires ServingAreClients(h)
    ensures Delivers(h, Register(h, c, devices, room))
  {
    hide OfferEvents, OnWire, UnderWay, Carries;
    var d := Register(h, c, devices, room);
    if c < |h.conns| && h.conns[c].setup.Registering? {
      var conn := h.conns[c];
      var frame := SnapshotFrame(OnWire(conn.setup.snap, devices));
      OfferEventsEffect(Offer(Joined(conn, |h.log|), frame, true), conn.setup.tail, room);
    }
    HandlerPasses(h, d, |h.conns|);
  }

  lemma ReceiveDelivers(h: Hub, c: nat, command: Command, room: bool)
    requires ServingAreClients(h)
    ensures Delivers(h, Receive(h, c, command, room))
  {
    hide Keyed, UnderWay;
    HandlerPasses(h, Receive(h, c, command, room), c);
  }

  lemma ClaimDelivers(h: Hub, c: nat, room: bool)
    requires ServingAreClients(h)
    ensures Delivers(h, Claim(h, c, room))
  {
    hide IdempotencyKey, UnderWay;
    HandlerPasses(h, Claim(h, c, room), c);
  }

  /** A handler that has nothing on its way, or is done with it, may refuse. */
  lemma RefuseDelivers(h: Hub, c: nat, code: string, room: bool)
    requires ServingAreClients(h) && c < |h.conns|
    requires h.conns[c].work.Claimed? || h.conns[c].work.Taken? ||
             (h.conns[c].work.FanningOut? && h.conns[c].work.targets == {})
    ensures Delivers(h, Refuse(h, c, code, room))
  {
    hide UnderWay;
    HandlerPasses(h, Refuse(h, c, code, room), c);
  }

  lemma TakeDelivers(h: Hub, c: nat, room: bool)
    requires ServingAreClients(h)
    ensures Delivers(h, Take(h, c, room))
  {
    hide EventFor, PendingCards, RefusalCode, UnderWay, Refuse, Delivers;
    if c < |h.conns| && h.conns[c].work.Claimed? {
      RefuseDelivers(h, c, RefusalCode(h.conns[c].work.command.request), room);
      RefuseDelivers(h, c, "already_resolved", room);
      TakenDelivers(h, c);
    }
    SameDelivers(h, h);
  }

  /** Nothing that deliveries depend on changes. */
  lemma SameDelivers(h: Hub, d: Hub)
    requires ServingAreClients(h)
    requires d.conns == h.conns && d.clients == h.clients && d.log == h.log && d.ingest == h.ingest
    ensures Delivers(h, d)
  {
    hide Carries;
  }

  lemma TakenDelivers(h: Hub, c: nat)
    requires ServingAreClients(h) && c < |h.conns| && h.conns[c].work.Claimed?
    ensures forall card ::
              Delivers(h, Unfile(WithConn(h, c, h.conns[c].(work := Taken(h.conns[c].work.command))), card))
  {
    hide UnderWay, Delivers;
    forall card
      ensures Delivers(h, Unfile(WithConn(h, c, h.conns[c].(work := Taken(h.conns[c].work.command))), card))
    {
      TakenCardDelivers(h, c, card);
    }
  }

  lemma TakenCardDelivers(h: Hub, c: nat, card: Card)
    requires ServingAreClients(h) && c < |h.conns| && h.conns[c].work.Claimed?
    ensures Delivers(h, Unfile(WithConn(h, c, h.conns[c].(work := Taken(h.conns[c].work.command))), card))
  {
    hide UnderWay;
    HandlerPasses(h, Unfile(WithConn(h, c, h.conns[c].(work := Taken(h.conns[c].work.command))), card), c);
  }

  lemma AppendDelivers(h: Hub, c: nat, ts: int, fault: Fault, room: bool)
    requires ServingAreClients(h)
    ensures Delivers(h, AppendCommand(h, c, ts, fault, room))
  {
    hide EventFor, NextCache, NextEvent, IdempotencyKey, UnderWay;
    var d := AppendCommand(h, c, ts, fault, room);
    HandlerPasses(h, d, c);
    forall n, t: nat | |h.log| <= n < |d.log|
      ensures UnderWay(d, d.log[n], t)
    {
      LoggedUnderWay(d, c, d.log[n], t);
    }
  }

  lemma LoggedUnderWay(d: Hub, c: nat, ev: Event, t: nat)
    requires c < |d.conns| && d.conns[c].work.Logged? && d.conns[c].work.event == ev
    ensures UnderWay(d, ev, t)
  {
    assert Carries(d.conns[c].work, ev, t);
  }

  lemma AckDelivers(h: Hub, c: nat, room: bool)
    requires ServingAreClients(h)
    ensures Delivers(h, Acknowledge(h, c, room))
  {
    hide UnderWay;
    HandlerPasses(h, Acknowledge(h, c, room), c);
  }

  lemma CopyDelivers(h: Hub, c: nat)
    requires ServingAreClients(h)
    ensures Delivers(h, CopyClients(h, c))
  {
    hide UnderWay;
    HandlerPasses(h, CopyClients(h, c), c);
  }

  lemma ForwardDelivers(h: Hub, c: nat, accepted: bool, room: bool)
    requires ServingAreClients(h)
    ensures Delivers(h, Forward(h, c, accepted, room))
  {
    hide IdempotencyKey, UnderWay;
    HandlerPasses(h, Forward(h, c, accepted, room), c);
  }

  lemma FanDelivers(h: Hub, c: nat, target: nat, room: bool)
    requires ServingAreClients(h)
    ensures Delivers(h, Fan(h, c, target, room))
  {
    hide UnderWay;
    HandlerPasses(h, Fan(h, c, target, room), c);
  }

  /** The handlers do not move; the ingest loop passes on what it carries. */
  lemma IngestPasses(h: Hub, d: Hub)
    requires |h.conns| == |d.conns| && forall k :: 0 <= k < |h.conns| ==> d.conns[k].work == h.conns[k].work
    requires forall ev, c :: c in d.clients && IngestCarries(h.ingest, ev, c) ==>
               IngestCarries(d.ingest, ev, c) || (c < |d.conns| && WasOffered(d.conns[c], ev))
    ensures Passes(h, d)
  {
    hide Carries, IngestCarries;
    forall ev, c | c in d.clients && UnderWay(h, ev, c) && !IngestCarries(h.ingest, ev, c)
      ensures UnderWay(d, ev, c)
    {
      var k :| 0 <= k < |h.conns| && Carries(h.conns[k].work, ev, c);
      assert Carries(d.conns[k].work, ev, c);
    }
  }

  lemma EmitDelivers(h: Hub, ts: int, body: Body, fault: Fault)
    requires ServingAreClients(h)
    ensures Delivers(h, AgentEmits(h, ts, body, fault))
  {
    hide NextCache, NextEvent, Carries;
    IngestPasses(h, AgentEmits(h, ts, body, fault));
  }

  lemma FileDelivers(h: Hub)
    requires ServingAreClients(h)
    ensures Delivers(h, FileRequest(h))
  {
    hide UnderWay;
    IngestPasses(h, FileRequest(h));
  }

  lemma CopyForIngestDelivers(h: Hub)
    requires ServingAreClients(h)
    ensures Delivers(h, CopyForIngest(h))
  {
    hide UnderWay;
    IngestPasses(h, CopyForIngest(h));
  }

  lemma ListenDelivers(h: Hub)
    requires ServingAreClients(h)
    ensures Delivers(h, Listen(h))
  {
    hide UnderWay;
    IngestPasses(h, Listen(h));
  }

  lemma SpreadDelivers(h: Hub, target: nat, room: bool)
    requires ServingAreClients(h)
    ensures Delivers(h, Spread(h, target, room))
  {
    hide UnderWay;
    IngestPasses(h, Spread(h, target, room));
  }

  lemma StepDelivers(h: Hub, step: Step)
    requires ServingAreClients(h)
    ensures Delivers(h, Next(h, step))
  {
    hide Delivers, ServingAreClients, Dial, ReadRow, ReadLog, ReadTail, Register, HangUp, Receive, Claim, Take,
         AppendCommand, Acknowledge, CopyClients, Fan, Forward, AgentEmits, FileRequest, CopyForIngest, Spread, Listen;
    match step {
      case DialStep(device, hello) => DialDelivers(h, device, hello);
      case ReadRowStep(_) => ReadDelivers(h, step);
      case ReadLogStep(_, _) => ReadDelivers(h, step);
      case ReadTailStep(_) => ReadDelivers(h, step);
      case HangUpStep(c) => HangUpDelivers(h, c);
      case RegisterStep(c, devices, rooms) => RegisterDelivers(h, c, devices, rooms);
      case ReceiveStep(c, command, room) => ReceiveDelivers(h, c, command, room);
      case ClaimStep(c, room) => ClaimDelivers(h, c, room);
      case TakeStep(c, room) => TakeDelivers(h, c, room);
      case AppendStep(c, ts, fault, room) => AppendDelivers(h, c, ts, fault, room);
      case AckStep(c, room) => AckDelivers(h, c, room);
      case CopyStep(c) => CopyDelivers(h, c);
      case ForwardStep(c, accepted, room) => ForwardDelivers(h, c, accepted, room);
      case FanStep(c, target, room) => FanDelivers(h, c, target, room);
      case EmitStep(ts, body, fault) => EmitDelivers(h, ts, body, fault);
      case FileStep => FileDelivers(h);
      case IngestCopyStep => CopyForIngestDelivers(h);
      case SpreadStep(target, room) => SpreadDelivers(h, target, room);
      case ListenStep => ListenDelivers(h);
    }
  }

  lemma {:induction false} AlwaysReached(sessionId: string, steps: seq<Step>)
    ensures AllReached(Exec(Start(sessionId), steps))
  {
    if steps != [] {
      hide Next, AllReached, Delivers;
      var h := Exec(Start(sessionId), steps[..|steps| - 1]);
      AlwaysReached(sessionId, steps[..|steps| - 1]);
      assert ServingAreClients(h) by { ReachedServes(h); }
      StepDelivers(h, steps[|steps| - 1]);
      DeliveredReached(h, Next(h, steps[|steps| - 1]));
    }
  }

  lemma ReachedServes(h: Hub)
    requires AllReached(h)
    ensures ServingAreClients(h)
  {
    hide Reached;
  }

  /** In every interleaving, every event logged since a served connection joined was offered to it, unless the
      ingest loop or a handler still has to copy the clients for it or has the connection among those copied. */
  lemma NoClientMissesABroadcast(sessionId: string, steps: seq<Step>, c: nat, n: nat)
    requires var h := Exec(Start(sessionId), steps);
             c < |h.conns| && h.conns[c].setup.Serving? && h.conns[c].joinedAt <= n < |h.log|
    ensures var h := Exec(Start(sessionId), steps);
            EventFrame(h.log[n]) in h.conns[c].offered ||
            IngestCarries(h.ingest, h.log[n], c) ||
            exists k :: 0 <= k < |h.conns| && Carries(h.conns[k].work, h.log[n], c)
  {
    hide Exec;
    AlwaysReached(sessionId, steps);
    assert Reached(Exec(Start(sessionId), steps), c);
  }

  /** When nothing is on its way, a served connection whose queue never overflowed holds, for every entry of the
      log above its hello's lastSeq but those between its catch-up read and its joining, that very event. */
  lemma QueueHoldsEverything(sessionId: string, steps: seq<Step>, c: nat, n: nat)
    requires var h := Exec(Start(sessionId), steps);
             h.ingest.Listening? && (forall k :: 0 <= k < |h.conns| ==> h.conns[k].work.Waiting?) &&
             c < |h.conns| && h.conns[c].setup.Serving? && !h.conns[c].overflowed && n < |h.log|
    requires var conn := Exec(Start(sessionId), steps).conns[c];
             (conn.hello <= n < conn.caughtUpTo) || conn.joinedAt <= n
    ensures var h := Exec(Start(sessionId), steps); EventFrame(h.log[n]) in h.conns[c].queue
  {
    hide Exec, Sound, Since, ShowsLog;
    var h := Exec(Start(sessionId), steps);
    HubStaysSound(sessionId, steps);
    assert ConnSound(h.conns[c], h.sessionId, h.log) by { SoundConn(h, c); }
    if h.conns[c].joinedAt <= n {
      NoClientMissesABroadcast(sessionId, steps, c, n);
    } else {
      CaughtUp(h.conns[c], h.sessionId, h.log, n);
    }
  }

  lemma SoundConn(h: Hub, c: nat)
    requires Sound(h) && c < |h.conns|
    ensures ConnSound(h.conns[c], h.sessionId, h.log)
  {
    hide ConnSound;
  }

  lemma CaughtUp(conn: Conn, sessionId: string, log: seq<Event>, n: nat)
    requires StreamShape(conn.offered, ReadsOf(conn), sessionId, log) && conn.hello <= n < conn.caughtUpTo
    ensures n < |log| && EventFrame(log[n]) in conn.offered
  {
    hide ShowsLog;
    var tail := Since(log[..conn.caughtUpTo], conn.hello);
    var i := if conn.hello <= 0 then n else n - conn.hello;
    assert tail[i] == log[n];
    assert conn.offered[1..1 + |tail|][i] == EventFrame(log[n]);
    assert conn.offered[1 + i] == EventFrame(log[n]);
  }

  // --- Acks ---

  /** The handler of the command has yet to ack it, or has offered the ack with the event's number. */
  predicate AcksOrWill(conn: Conn, n: nat, ev: Event, command: Command) {
    (conn.work == Logged(command, ev)) || AckFrame(command.id, n + 1) in conn.offered
  }

  ghost predicate AckedAt(h: Hub, n: nat)
    requires n < |h.log| == |h.origins|
  {
    h.origins[n].FromCommand? ==>
      exists c :: 0 <= c < |h.conns| && h.conns[c].device == h.origins[n].device &&
        AcksOrWill(h.conns[c], n, h.log[n], h.origins[n].command)
  }

  ghost predicate AllAcked(h: Hub) {
    |h.log| == |h.origins| && Dense(h.log) && forall n :: 0 <= n < |h.log| ==> AckedAt(h, n)
  }

  lemma AckOffered(h: Hub, c: nat, room: bool)
    requires c < |h.conns| && h.conns[c].work.Logged?
    ensures AckFrame(h.conns[c].work.command.id, h.conns[c].work.event.seqNo) in
              Acknowledge(h, c, room).conns[c].offered
  {
    var d := Acknowledge(h, c, room).conns[c];
    assert d.offered[|d.offered| - 1] == AckFrame(h.conns[c].work.command.id, h.conns[c].work.event.seqNo);
  }

  /** The handler has a command in hand that it has neither acked nor turned down. */
  predicate Unacked(work: Work) {
    work.Received? || work.Claimed? || work.Taken? || work.Logged?
  }

  predicate SameWork(h: Hub, d: Hub, c: nat) {
    c < |h.conns| && c < |d.conns| && d.conns[c].work == h.conns[c].work
  }

  lemma SetupLeavesUnacked(h: Hub, step: Step, c: nat)
    requires c < |h.conns| && Unacked(h.conns[c].work)
    requires step.DialStep? || step.ReadRowStep? || step.ReadLogStep? || step.ReadTailStep? || step.RegisterStep? ||
             step.HangUpStep?
    ensures SameWork(h, Next(h, step), c)
  {
    hide SnapshotFrom, Since, OfferEvents, OnWire;
    if step.RegisterStep? && step.c < |h.conns| && h.conns[step.c].setup.Registering? {
      var conn := h.conns[step.c];
      var frame := SnapshotFrame(OnWire(conn.setup.snap, step.devices));
      OfferEventsEffect(Offer(Joined(conn, |h.log|), frame, true), conn.setup.tail, step.rooms);
    }
  }

  lemma IntakeLeavesUnacked(h: Hub, step: Step, c: nat)
    requires c < |h.conns| && Unacked(h.conns[c].work) && (step.ReceiveStep? || (step.ClaimStep? && step.c != c))
    ensures SameWork(h, Next(h, step), c)
  {
    hide IdempotencyKey, Keyed, Offer;
    OfferKeepsWork();
  }

  lemma TakeLeavesUnacked(h: Hub, step: Step, c: nat)
    requires c < |h.conns| && Unacked(h.conns[c].work) && step.TakeStep? && step.c != c
    ensures SameWork(h, Next(h, step), c)
  {
    hide EventFor, Answers, PendingCards, RefusalCode, Offer;
  }

  lemma AppendLeavesUnacked(h: Hub, step: Step, c: nat)
    requires c < |h.conns| && Unacked(h.conns[c].work) && step.AppendStep? && step.c != c
    ensures SameWork(h, Next(h, step), c)
  {
    hide EventFor, NextCache, NextEvent, IdempotencyKey, Offer;
  }

  lemma OfferKeepsWork()
    ensures forall conn: Conn, frame, room :: Offer(conn, frame, room).work == conn.work
  {
  }

  lemma SpreadLeavesUnacked(h: Hub, step: Step, c: nat)
    requires c < |h.conns| && Unacked(h.conns[c].work)
    requires step.CopyStep? || step.FanStep? || step.ForwardStep? || step.EmitStep? || step.FileStep? ||
             step.IngestCopyStep? || step.SpreadStep? || step.ListenStep? || (step.AckStep? && step.c != c)
    ensures SameWork(h, Next(h, step), c)
  {
    hide NextCache, NextEvent, IdempotencyKey, Offer;
    OfferKeepsWork();
  }

  /** The steps by which connection c's handler takes a command as far as its ack. */
  predicate OwnStep(step: Step, c: nat) {
    (step.ClaimStep? || step.TakeStep? || step.AppendStep? || step.AckStep?) && step.c == c
  }

  /** No other step touches it. */
  lemma UnackedLeft(h: Hub, step: Step, c: nat)
    requires c < |h.conns| && Unacked(h.conns[c].work) && !OwnStep(step, c)
    ensures SameWork(h, Next(h, step), c)
  {
    hide Next;
    if step.DialStep? || step.ReadRowStep? || step.ReadLogStep? || step.ReadTailStep? || step.RegisterStep? ||
       step.HangUpStep? {
      SetupLeavesUnacked(h, step, c);
    } else if step.ReceiveStep? || step.ClaimStep? {
      IntakeLeavesUnacked(h, step, c);
    } else if step.TakeStep? {
      TakeLeavesUnacked(h, step, c);
    } else if step.AppendStep? {
      AppendLeavesUnacked(h, step, c);
    } else {
      SpreadLeavesUnacked(h, step, c);
    }
  }

  lemma LoggedLeft(h: Hub, step: Step, c: nat)
    requires c < |h.conns| && h.conns[c].work.Logged? && !(step.AckStep? && step.c == c)
    ensures SameWork(h, Next(h, step), c)
  {
    if OwnStep(step, c) {
      hide IdempotencyKey, EventFor, Offer;
    } else {
      hide Next;
      UnackedLeft(h, step, c);
    }
  }

  lemma NextAcks(h: Hub, step: Step)
    requires step.AckStep?
    ensures Next(h, step) == Acknowledge(h, step.c, step.room)
  {
    hide Acknowledge;
  }

  lemma AckedStays(h: Hub, step: Step, n: nat)
    requires AllAcked(h) && n < |h.log|
    requires h.log <= Next(h, step).log && h.origins <= Next(h, step).origins
    requires |Next(h, step).log| == |Next(h, step).origins|
    ensures AckedAt(Next(h, step), n)
  {
    hide Next, Handed;
    var d := Next(h, step);
    assert AckedAt(h, n) && d.log[n] == h.log[n] && d.origins[n] == h.origins[n];
    if h.origins[n].FromCommand? {
      var command := h.origins[n].command;
      var c :| 0 <= c < |h.conns| && h.conns[c].device == h.origins[n].device &&
               AcksOrWill(h.conns[c], n, h.log[n], command);
      StepFollows(h, step);
      assert ConnFollows(h.conns[c], d.conns[c], Handed(h, step, h.conns[c].device));
      if h.conns[c].work == Logged(command, h.log[n]) {
        if step.AckStep? && step.c == c {
          AckOffered(h, c, step.room);
          NextAcks(h, step);
        } else {
          LoggedLeft(h, step, c);
        }
      }
      assert AcksOrWill(d.conns[c], n, d.log[n], command);
    }
  }

  lemma AppendAcks(h: Hub, step: Step)
    requires step.AppendStep? && |h.log| == |h.origins| && Next(h, step).log != h.log
    ensures var d := Next(h, step);
            |d.log| == |d.origins| == |h.log| + 1 && AckedAt(d, |h.log|)
  {
    hide EventFor, NextCache, NextEvent, IdempotencyKey, Offer;
    var d := Next(h, step);
    if step.c < |h.conns| && !h.conns[step.c].work.Waiting? {
      assert AcksOrWill(d.conns[step.c], |h.log|, d.log[|h.log|], d.origins[|h.log|].command);
    }
  }

  lemma AllAckedStep(h: Hub, step: Step)
    requires AllAcked(h) && Sound(h)
    ensures AllAcked(Next(h, step))
  {
    hide Next, ConnsSound, AckedAt, Handed;
    var d := Next(h, step);
    SoundStep(h, step);
    AppendsAtMostOne(h, step);
    OriginsFollow(h, step);
    forall n | 0 <= n < |d.log|
      ensures AckedAt(d, n)
    {
      if n < |h.log| {
        AckedStays(h, step, n);
      } else if LogsWork(h, d, step) {
        AppendAcks(h, step);
      } else {
        NoAckNeeded(d, n);
      }
    }
  }

  lemma NoAckNeeded(h: Hub, n: nat)
    requires n < |h.log| == |h.origins| && h.origins[n].FromAgent?
    ensures AckedAt(h, n)
  {
  }

  lemma {:induction false} AlwaysAcked(sessionId: string, steps: seq<Step>)
    ensures AllAcked(Exec(Start(sessionId), steps))
  {
    if steps != [] {
      hide Next, AllAcked, Sound;
      AlwaysAcked(sessionId, steps[..|steps| - 1]);
      HubStaysSound(sessionId, steps[..|steps| - 1]);
      AllAckedStep(Exec(Start(sessionId), steps[..|steps| - 1]), steps[|steps| - 1]);
    }
  }

  /** In every interleaving, for every event a command put into the log, a connection of the device that sent it
      was offered an ack of that command with the event's number, or its handler is just about to offer it. */
  lemma EveryLoggedCommandIsAcked(sessionId: string, steps: seq<Step>, n: nat)
    requires var h := Exec(Start(sessionId), steps); n < |h.origins| && h.origins[n].FromCommand?
    ensures var h := Exec(Start(sessionId), steps);
            n < |h.log| &&
            exists c :: 0 <= c < |h.conns| && h.conns[c].device == h.origins[n].device &&
              AcksOrWill(h.conns[c], n, h.log[n], h.origins[n].command)
  {
    hide Exec;
    AlwaysAcked(sessionId, steps);
    assert AckedAt(Exec(Start(sessionId), steps), n);
  }
}
