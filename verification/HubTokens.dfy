/** First-write-wins and at-most-once, as conservation of tokens: a key is held by one handler or spent on
    one event, and a card is asked for, filed, taken and resolved by one token per request. */
module HubTokens {
  import opened Protocol
  import opened Store
  import opened Counting
  import opened HubModel

  // --- Tokens ---

  /** What a handler holds: the right to append (with a card, if it answers one), or the duty to tell the agent. */
  datatype Token = Nothing | Holding(command: Command) | HoldingCard(command: Command) | Owing(command: Command)

  function TokenOf(work: Work): Token {
    match work
    case Waiting => Nothing
    case Received(_) => Nothing
    case Claimed(command) => Holding(command)
    case Taken(command) => HoldingCard(command)
    case Logged(command, _) => Owing(command)
    case Acked(command, _) => Owing(command)
    case FanningOut(command, _, _) => Owing(command)
  }

  predicate SameToken(a: Conn, b: Conn) {
    a.device == b.device && TokenOf(a.work) == TokenOf(b.work)
  }

  function KeyOf(conn: Conn, command: Command): string {
    IdempotencyKey(conn.device, command.idempotencyKey)
  }

  function HoldsKey(key: string): Conn -> bool {
    (conn: Conn) =>
      var token := TokenOf(conn.work);
      (token.Holding? || token.HoldingCard?) && KeyOf(conn, token.command) == key
  }

  function OwesKey(key: string): Conn -> bool {
    (conn: Conn) => TokenOf(conn.work).Owing? && KeyOf(conn, TokenOf(conn.work).command) == key
  }

  function HoldsCard(card: Card): Conn -> bool {
    (conn: Conn) => TokenOf(conn.work).HoldingCard? && Answers(TokenOf(conn.work).command.request) == Some(card)
  }

  function OwesAnswer(card: Card): Conn -> bool {
    (conn: Conn) => TokenOf(conn.work).Owing? && Answers(TokenOf(conn.work).command.request) == Some(card)
  }

  function SpentOn(key: string): Origin -> bool {
    (origin: Origin) => origin.FromCommand? && origin.key == key
  }

  function CallFor(key: string): Call -> bool {
    (call: Call) => call.key == key
  }

  function AnswerTo(card: Card): Call -> bool {
    (call: Call) => Answers(call.request) == Some(card)
  }

  function Count(b: bool): nat {
    if b then 1 else 0
  }

  // --- Balances ---

  /** A key not yet seen has no token; a seen key has at most one, held or spent. Every call to the agent,
      made or owed, is covered by an event. */
  ghost predicate KeyBalance(h: Hub, key: string) {
    Tally(h.conns, HoldsKey(key)) + Tally(h.origins, SpentOn(key)) <= Count(key in h.idempotency) &&
    Tally(h.calls, CallFor(key)) + Tally(h.conns, OwesKey(key)) <= Tally(h.origins, SpentOn(key))
  }

  predicate AwaitsFiling(h: Hub, card: Card) {
    h.ingest.Appended? && Opens(h.ingest.event.body) == Some(card)
  }

  /** Logged resolutions, answers taken but not yet appended, the pending entry and a request awaiting
      insertion together never exceed the logged requests; and every answer given or owed to the agent is
      covered by a logged resolution. */
  ghost predicate CardBalance(h: Hub, card: Card) {
    Tally(h.log, Resolves(card)) + Tally(h.conns, HoldsCard(card)) + Count(card in PendingCards(h)) +
    Count(AwaitsFiling(h, card)) <= Tally(h.log, AsksFor(card)) &&
    Tally(h.calls, AnswerTo(card)) + Tally(h.conns, OwesAnswer(card)) <= Tally(h.log, Resolves(card))
  }

  lemma {:induction false} TallySame<T>(a: seq<T>, b: seq<T>, p: T -> bool)
    requires |a| == |b| && forall i :: 0 <= i < |a| ==> p(a[i]) == p(b[i])
    ensures Tally(a, p) == Tally(b, p)
  {
    if a != [] {
      TallySame(a[..|a| - 1], b[..|b| - 1], p);
    }
  }

  // --- Steps that move no token ---

  /** The steps that neither claim, take, append, forward, emit nor file. */
  predicate MovesNoToken(step: Step) {
    !step.DialStep? && !step.ClaimStep? && !step.TakeStep? && !step.AppendStep? && !step.ForwardStep? &&
    !step.EmitStep? && !step.FileStep?
  }

  ghost predicate SameHoldings(h: Hub, d: Hub) {
    |d.conns| == |h.conns| && (forall i :: 0 <= i < |h.conns| ==> SameToken(h.conns[i], d.conns[i])) &&
    d.log == h.log && d.origins == h.origins && d.calls == h.calls && d.lost == h.lost &&
    d.pending == h.pending && d.pendingQuestions == h.pendingQuestions && d.idempotency == h.idempotency &&
    (d.ingest.Appended? <==> h.ingest.Appended?) && (d.ingest.Appended? ==> d.ingest == h.ingest)
  }

  lemma RegisterHoldings(h: Hub, c: nat, devices: seq<DeviceView>, room: seq<bool>)
    ensures SameHoldings(h, Register(h, c, devices, room))
  {
    hide OfferEvents, OnWire;
    if c < |h.conns| && h.conns[c].setup.Registering? {
      var conn := h.conns[c];
      OfferEventsEffect(Offer(Joined(conn, |h.log|), SnapshotFrame(OnWire(conn.setup.snap, devices)), true),
                           conn.setup.tail, room);
    }
  }

  lemma ReadHoldings(h: Hub, c: nat, snap: Snapshot)
    ensures SameHoldings(h, ReadRow(h, c)) && SameHoldings(h, ReadLog(h, c, snap))
    ensures SameHoldings(h, ReadTail(h, c)) && SameHoldings(h, HangUp(h, c))
  {
    hide SnapshotFrom, Since;
  }

  lemma ReceiveHoldings(h: Hub, c: nat, command: Command, room: bool)
    ensures SameHoldings(h, Receive(h, c, command, room))
  {
  }

  lemma BroadcastHoldings(h: Hub, c: nat, room: bool)
    ensures SameHoldings(h, Acknowledge(h, c, room)) && SameHoldings(h, CopyClients(h, c))
  {
  }

  lemma FanHoldings(h: Hub, c: nat, target: nat, room: bool)
    ensures SameHoldings(h, Fan(h, c, target, room))
  {
  }

  lemma SpreadHoldings(h: Hub, target: nat, room: bool)
    ensures SameHoldings(h, CopyForIngest(h)) && SameHoldings(h, Spread(h, target, room)) && SameHoldings(h, Listen(h))
  {
  }

  lemma NoTokenMoved(h: Hub, step: Step)
    requires MovesNoToken(step)
    ensures SameHoldings(h, Next(h, step))
  {
    hide SameHoldings, ReadRow, ReadLog, ReadTail, Register, HangUp, Receive, Acknowledge, CopyClients, Fan,
         CopyForIngest, Spread, Listen;
    match step {
      case ReadRowStep(c) => ReadHoldings(h, c, Snapshot("", "", "", 0, [], []));
      case ReadLogStep(c, snap) => ReadHoldings(h, c, snap);
      case ReadTailStep(c) => ReadHoldings(h, c, Snapshot("", "", "", 0, [], []));
      case HangUpStep(c) => ReadHoldings(h, c, Snapshot("", "", "", 0, [], []));
      case RegisterStep(c, devices, rooms) => RegisterHoldings(h, c, devices, rooms);
      case ReceiveStep(c, command, room) => ReceiveHoldings(h, c, command, room);
      case AckStep(c, room) => BroadcastHoldings(h, c, room);
      case CopyStep(c) => BroadcastHoldings(h, c, true);
      case FanStep(c, target, room) => FanHoldings(h, c, target, room);
      case IngestCopyStep => SpreadHoldings(h, 0, true);
      case SpreadStep(target, room) => SpreadHoldings(h, target, room);
      case ListenStep => SpreadHoldings(h, 0, true);
    }
  }

  lemma SameHoldingsBalance(h: Hub, d: Hub, key: string, card: Card)
    requires SameHoldings(h, d)
    ensures KeyBalance(h, key) ==> KeyBalance(d, key)
    ensures CardBalance(h, card) ==> CardBalance(d, card)
  {
    TallySame(h.conns, d.conns, HoldsKey(key));
    TallySame(h.conns, d.conns, OwesKey(key));
    TallySame(h.conns, d.conns, HoldsCard(card));
    TallySame(h.conns, d.conns, OwesAnswer(card));
  }

  // --- Steps that move a token ---

  /** The four tallies over connections when one connection changes. */
  lemma ConnTallies(h: Hub, c: nat, conn: Conn, key: string, card: Card)
    requires c < |h.conns|
    ensures var d := h.conns[c := conn];
            Tally(d, HoldsKey(key)) + Count(HoldsKey(key)(h.conns[c])) ==
            Tally(h.conns, HoldsKey(key)) + Count(HoldsKey(key)(conn)) &&
            Tally(d, OwesKey(key)) + Count(OwesKey(key)(h.conns[c])) ==
            Tally(h.conns, OwesKey(key)) + Count(OwesKey(key)(conn)) &&
            Tally(d, HoldsCard(card)) + Count(HoldsCard(card)(h.conns[c])) ==
            Tally(h.conns, HoldsCard(card)) + Count(HoldsCard(card)(conn)) &&
            Tally(d, OwesAnswer(card)) + Count(OwesAnswer(card)(h.conns[c])) ==
            Tally(h.conns, OwesAnswer(card)) + Count(OwesAnswer(card)(conn))
  {
    TallyUpdate(h.conns, c, conn, HoldsKey(key));
    TallyUpdate(h.conns, c, conn, OwesKey(key));
    TallyUpdate(h.conns, c, conn, HoldsCard(card));
    TallyUpdate(h.conns, c, conn, OwesAnswer(card));
  }

  lemma DialBalance(h: Hub, device: DeviceId, hello: int, key: string, card: Card)
    ensures KeyBalance(h, key) ==> KeyBalance(Dial(h, device, hello), key)
    ensures CardBalance(h, card) ==> CardBalance(Dial(h, device, hello), card)
  {
    var d := Dial(h, device, hello);
    var conn := d.conns[|h.conns|];
    TallyAppend(h.conns, conn, HoldsKey(key));
    TallyAppend(h.conns, conn, OwesKey(key));
    TallyAppend(h.conns, conn, HoldsCard(card));
    TallyAppend(h.conns, conn, OwesAnswer(card));
  }

  /** A refused command gives its token back to nobody. */
  lemma RefuseBalance(h: Hub, c: nat, code: string, room: bool, key: string, card: Card)
    requires c < |h.conns| && !h.conns[c].work.Waiting?
    ensures KeyBalance(h, key) ==> KeyBalance(Refuse(h, c, code, room), key)
    ensures CardBalance(h, card) ==> CardBalance(Refuse(h, c, code, room), card)
  {
    ConnTallies(h, c, Refuse(h, c, code, room).conns[c], key, card);
  }

  lemma ClaimBalance(h: Hub, c: nat, room: bool, key: string, card: Card)
    ensures KeyBalance(h, key) ==> KeyBalance(Claim(h, c, room), key)
    ensures CardBalance(h, card) ==> CardBalance(Claim(h, c, room), card)
  {
    hide IdempotencyKey, PendingCards, CardBalance, KeyBalance;
    if c < |h.conns| && h.conns[c].work.Received? {
      var d := Claim(h, c, room);
      ConnTallies(h, c, d.conns[c], key, card);
      SamePending(h, d);
      ClaimKeyBalance(h, d, c, key);
      ConnCardBalance(h, d, card);
    }
  }

  /** A claim moves the key into the set and a token into the handler's hands. */
  lemma ClaimKeyBalance(h: Hub, d: Hub, c: nat, key: string)
    requires c < |h.conns| && h.conns[c].work.Received?
    requires var claimed := KeyOf(h.conns[c], h.conns[c].work.command);
             |d.conns| == |h.conns| && d.conns == h.conns[c := d.conns[c]] && d.origins == h.origins &&
             d.calls == h.calls &&
             if claimed in h.idempotency then d.idempotency == h.idempotency && d.conns[c].work.Waiting?
             else d.idempotency == h.idempotency + {claimed} && d.conns[c].work == Claimed(h.conns[c].work.command) &&
                  d.conns[c].device == h.conns[c].device
    ensures KeyBalance(h, key) ==> KeyBalance(d, key)
  {
    hide IdempotencyKey;
    TallyUpdate(h.conns, c, d.conns[c], HoldsKey(key));
    TallyUpdate(h.conns, c, d.conns[c], OwesKey(key));
  }

  /** The tallies a card's balance looks at did not grow. */
  lemma ConnCardBalance(h: Hub, d: Hub, card: Card)
    requires d.log == h.log && d.calls == h.calls && d.ingest == h.ingest && PendingCards(d) == PendingCards(h)
    requires Tally(d.conns, HoldsCard(card)) <= Tally(h.conns, HoldsCard(card))
    requires Tally(d.conns, OwesAnswer(card)) <= Tally(h.conns, OwesAnswer(card))
    ensures CardBalance(h, card) ==> CardBalance(d, card)
  {
  }

  lemma UnfileRemoves(h: Hub, card: Card, other: Card)
    ensures other in PendingCards(Unfile(h, card)) <==> other in PendingCards(h) && other != card
  {
  }

  /** Taking a card moves its token from the map into the handler's hands. */
  lemma TakeCardBalance(h: Hub, c: nat, key: string, card: Card, taken: Card)
    requires c < |h.conns| && h.conns[c].work.Claimed?
    requires Answers(h.conns[c].work.command.request) == Some(taken) && taken in PendingCards(h)
    ensures var d := Unfile(WithConn(h, c, h.conns[c].(work := Taken(h.conns[c].work.command))), taken);
            (KeyBalance(h, key) ==> KeyBalance(d, key)) && (CardBalance(h, card) ==> CardBalance(d, card))
  {
    hide IdempotencyKey, PendingCards;
    var h1 := WithConn(h, c, h.conns[c].(work := Taken(h.conns[c].work.command)));
    ConnTallies(h, c, h1.conns[c], key, card);
    UnfileRemoves(h1, taken, card);
    SamePending(h, h1);
  }

  lemma TakeBalance(h: Hub, c: nat, room: bool, key: string, card: Card)
    ensures KeyBalance(h, key) ==> KeyBalance(Take(h, c, room), key)
    ensures CardBalance(h, card) ==> CardBalance(Take(h, c, room), card)
  {
    hide RefusalCode, PendingCards, Refuse, Unfile, KeyBalance, CardBalance;
    if c < |h.conns| && h.conns[c].work.Claimed? {
      var command := h.conns[c].work.command;
      RefuseBalance(h, c, RefusalCode(command.request), room, key, card);
      RefuseBalance(h, c, "already_resolved", room, key, card);
      if Answers(command.request).Some? && Answers(command.request).value in PendingCards(h) {
        TakeCardBalance(h, c, key, card, Answers(command.request).value);
      }
    }
  }

  lemma SamePending(h: Hub, d: Hub)
    requires d.pending == h.pending && d.pendingQuestions == h.pendingQuestions
    ensures PendingCards(d) == PendingCards(h)
  {
  }

  lemma CommandEventsClose(request: Request, device: string)
    requires EventFor(request, device).Some?
    ensures Closes(EventFor(request, device).value) == Answers(request)
    ensures Opens(EventFor(request, device).value).None?
  {
  }

  /** Connection c turned its right to append into the duty to tell the agent. */
  predicate TurnsOwing(h: Hub, d: Hub, c: nat, command: Command) {
    c < |h.conns| == |d.conns| && d.conns == h.conns[c := d.conns[c]] && d.conns[c].device == h.conns[c].device &&
    TokenOf(d.conns[c].work) == Owing(command) &&
    (TokenOf(h.conns[c].work) == HoldingCard(command) ||
     (TokenOf(h.conns[c].work) == Holding(command) && Answers(command.request).None?))
  }

  lemma LoggedKeyBalance(h: Hub, d: Hub, c: nat, command: Command, key: string)
    requires TurnsOwing(h, d, c, command) && d.calls == h.calls && d.idempotency == h.idempotency
    requires d.origins == h.origins + [FromCommand(KeyOf(h.conns[c], command), h.conns[c].device, command)]
    ensures KeyBalance(h, key) ==> KeyBalance(d, key)
  {
    hide IdempotencyKey;
    TallyUpdate(h.conns, c, d.conns[c], HoldsKey(key));
    TallyUpdate(h.conns, c, d.conns[c], OwesKey(key));
    TallyAppend(h.origins, d.origins[|h.origins|], SpentOn(key));
  }

  lemma LoggedCardBalance(h: Hub, d: Hub, c: nat, command: Command, ev: Event, card: Card)
    requires TurnsOwing(h, d, c, command) && d.calls == h.calls && d.ingest == h.ingest
    requires d.pending == h.pending && d.pendingQuestions == h.pendingQuestions
    requires d.log == h.log + [ev] && Closes(ev.body) == Answers(command.request) && Opens(ev.body).None?
    ensures CardBalance(h, card) ==> CardBalance(d, card)
  {
    hide IdempotencyKey, PendingCards;
    TallyUpdate(h.conns, c, d.conns[c], HoldsCard(card));
    TallyUpdate(h.conns, c, d.conns[c], OwesAnswer(card));
    TallyAppend(h.log, ev, Resolves(card));
    TallyAppend(h.log, ev, AsksFor(card));
    SamePending(h, d);
  }

  /** Appending turns the right to append, and the card it holds, into a logged event and a duty. */
  lemma LoggedBalance(h: Hub, c: nat, ts: int, fault: Fault, room: bool, key: string, card: Card)
    requires c < |h.conns| && ReadyToAppend(h.conns[c].work, h.conns[c].device) && !fault.Refused?
    ensures var d := AppendCommand(h, c, ts, fault, room);
            (KeyBalance(h, key) ==> KeyBalance(d, key)) && (CardBalance(h, card) ==> CardBalance(d, card))
  {
    hide KeyBalance, CardBalance, IdempotencyKey, EventFor, NextCache;
    var command := h.conns[c].work.command;
    var d := AppendCommand(h, c, ts, fault, room);
    CommandEventsClose(command.request, h.conns[c].device);
    LoggedKeyBalance(h, d, c, command, key);
    LoggedCardBalance(h, d, c, command, d.log[|h.log|], card);
  }

  lemma AppendBalance(h: Hub, c: nat, ts: int, fault: Fault, room: bool, key: string, card: Card)
    ensures KeyBalance(h, key) ==> KeyBalance(AppendCommand(h, c, ts, fault, room), key)
    ensures CardBalance(h, card) ==> CardBalance(AppendCommand(h, c, ts, fault, room), card)
  {
    hide EventFor, NextCache, PendingCards, Tally;
    if c < |h.conns| && ReadyToAppend(h.conns[c].work, h.conns[c].device) {
      if fault.Refused? {
        RefuseBalance(h, c, "server_error", room, key, card);
        SamePending(Refuse(h, c, "server_error", room), AppendCommand(h, c, ts, fault, room));
      } else {
        LoggedBalance(h, c, ts, fault, room, key, card);
      }
    }
  }

  /** Telling the agent turns the duty to do so into a call. */
  lemma CalledBalance(h: Hub, d: Hub, c: nat, call: Call, key: string, card: Card)
    requires c < |h.conns| == |d.conns| && d.conns == h.conns[c := d.conns[c]] && d.conns[c].work.Waiting?
    requires h.conns[c].work.FanningOut? && call.key == KeyOf(h.conns[c], h.conns[c].work.command)
    requires call.request == h.conns[c].work.command.request && d.calls == h.calls + [call]
    requires d.log == h.log && d.origins == h.origins && d.idempotency == h.idempotency && d.ingest == h.ingest
    requires d.pending == h.pending && d.pendingQuestions == h.pendingQuestions
    ensures KeyBalance(h, key) ==> KeyBalance(d, key)
    ensures CardBalance(h, card) ==> CardBalance(d, card)
  {
    hide IdempotencyKey, PendingCards;
    TallyAppend(h.calls, call, CallFor(key));
    TallyAppend(h.calls, call, AnswerTo(card));
    ConnTallies(h, c, d.conns[c], key, card);
    SamePending(h, d);
  }

  lemma ForwardBalance(h: Hub, c: nat, accepted: bool, room: bool, key: string, card: Card)
    ensures KeyBalance(h, key) ==> KeyBalance(Forward(h, c, accepted, room), key)
    ensures CardBalance(h, card) ==> CardBalance(Forward(h, c, accepted, room), card)
  {
    hide IdempotencyKey, KeyBalance, CardBalance;
    if c < |h.conns| && h.conns[c].work.FanningOut? && h.conns[c].work.targets == {} {
      var conn := h.conns[c];
      var call := Call(KeyOf(conn, conn.work.command), conn.work.event.seqNo, conn.work.command.request);
      CalledBalance(h, Forward(h, c, accepted, room), c, call, key, card);
    }
  }

  lemma EmitBalance(h: Hub, ts: int, body: Body, fault: Fault, key: string, card: Card)
    ensures KeyBalance(h, key) ==> KeyBalance(AgentEmits(h, ts, body, fault), key)
    ensures CardBalance(h, card) ==> CardBalance(AgentEmits(h, ts, body, fault), card)
  {
    hide PendingCards, NextCache;
    var d := AgentEmits(h, ts, body, fault);
    var ev := NextEvent(h.log, ts, body);
    TallyAppend(h.log, ev, Resolves(card));
    TallyAppend(h.log, ev, AsksFor(card));
    TallyAppend(h.origins, FromAgent, SpentOn(key));
    SamePending(h, d);
  }

  lemma FileAdds(h: Hub, body: Body, card: Card)
    ensures card in PendingCards(File(h, body)) <==> card in PendingCards(h) || Opens(body) == Some(card)
  {
  }

  /** Filing moves a card's token from the ingest loop into the map. */
  lemma FiledCardBalance(h: Hub, d: Hub, card: Card)
    requires d.conns == h.conns && d.log == h.log && d.calls == h.calls && !AwaitsFiling(d, card)
    requires card in PendingCards(d) <==> card in PendingCards(h) || AwaitsFiling(h, card)
    ensures CardBalance(h, card) ==> CardBalance(d, card)
  {
  }

  lemma FileBalance(h: Hub, key: string, card: Card)
    ensures KeyBalance(h, key) ==> KeyBalance(FileRequest(h), key)
    ensures CardBalance(h, card) ==> CardBalance(FileRequest(h), card)
  {
    hide PendingCards, CardBalance;
    if h.ingest.Appended? {
      FileAdds(h, h.ingest.event.body, card);
      SamePending(File(h, h.ingest.event.body), FileRequest(h));
      FiledCardBalance(h, FileRequest(h), card);
    }
  }

  lemma BalanceStep(h: Hub, step: Step, key: string, card: Card)
    ensures KeyBalance(h, key) ==> KeyBalance(Next(h, step), key)
    ensures CardBalance(h, card) ==> CardBalance(Next(h, step), card)
  {
    hide KeyBalance, CardBalance, Next, SameHoldings;
    if MovesNoToken(step) {
      NoTokenMoved(h, step);
      SameHoldingsBalance(h, Next(h, step), key, card);
    } else {
      TokenStep(h, step, key, card);
    }
  }

  lemma TokenStep(h: Hub, step: Step, key: string, card: Card)
    requires !MovesNoToken(step)
    ensures KeyBalance(h, key) ==> KeyBalance(Next(h, step), key)
    ensures CardBalance(h, card) ==> CardBalance(Next(h, step), card)
  {
    hide KeyBalance, CardBalance, Dial, Claim, Take, AppendCommand, Forward, AgentEmits, FileRequest;
    match step {
      case DialStep(device, hello) => DialBalance(h, device, hello, key, card);
      case ClaimStep(c, room) => ClaimBalance(h, c, room, key, card);
      case TakeStep(c, room) => TakeBalance(h, c, room, key, card);
      case AppendStep(c, ts, fault, room) => AppendBalance(h, c, ts, fault, room, key, card);
      case ForwardStep(c, accepted, room) => ForwardBalance(h, c, accepted, room, key, card);
      case EmitStep(ts, body, fault) => EmitBalance(h, ts, body, fault, key, card);
      case FileStep => FileBalance(h, key, card);
    }
  }

  // --- Whole runs ---

  /** In every interleaving, each idempotency key of each device puts at most one event in the log and
      causes at most one call to the agent, never a call without its event. */
  lemma {:induction false} AtMostOnce(sessionId: string, steps: seq<Step>, key: string)
    ensures var h := Exec(Start(sessionId), steps);
            KeyBalance(h, key) && Tally(h.calls, CallFor(key)) <= Tally(h.origins, SpentOn(key)) <= 1
  {
    if steps != [] {
      hide Next;
      AtMostOnce(sessionId, steps[..|steps| - 1], key);
      BalanceStep(Exec(Start(sessionId), steps[..|steps| - 1]), steps[|steps| - 1], key, PermissionCard(""));
    }
  }

  /** First write wins: in every interleaving of command handlers and ingest, resolutions logged, answers
      in flight, the pending entry and an unfiled request together never exceed the requests logged, and
      the agent never gets more answers than there are resolutions. */
  lemma {:induction false} FirstWriteWins(sessionId: string, steps: seq<Step>, card: Card)
    ensures CardBalance(Exec(Start(sessionId), steps), card)
  {
    if steps != [] {
      hide Next, CardBalance;
      FirstWriteWins(sessionId, steps[..|steps| - 1], card);
      BalanceStep(Exec(Start(sessionId), steps[..|steps| - 1]), steps[|steps| - 1], "", card);
    } else {
      StartBalanced(sessionId, card);
    }
  }

  lemma StartBalanced(sessionId: string, card: Card)
    ensures CardBalance(Start(sessionId), card)
  {
  }

  lemma AppendsAtMostOne(h: Hub, step: Step)
    ensures var d := Next(h, step);
            d.log == h.log || (|d.log| == |h.log| + 1 && d.log[..|h.log|] == h.log)
  {
    hide SameHoldings, Offer, OfferEvents, SnapshotFrom, Since, OnWire, EventFor, PendingCards, RefusalCode, NextCache;
  }

  /** Every prefix of every reachable log has at most as many resolutions of a card as requests for it. */
  lemma {:induction false} EveryPrefixResolvesOnce(sessionId: string, steps: seq<Step>, card: Card, k: nat)
    requires k <= |Exec(Start(sessionId), steps).log|
    ensures var log := Exec(Start(sessionId), steps).log;
            Tally(log[..k], Resolves(card)) <= Tally(log[..k], AsksFor(card))
  {
    hide Next, CardBalance;
    FirstWriteWins(sessionId, steps, card);
    var h := Exec(Start(sessionId), steps);
    if k == |h.log| {
      assert h.log[..k] == h.log;
      LogBalanced(h, card);
    } else {
      var before := Exec(Start(sessionId), steps[..|steps| - 1]);
      AppendsAtMostOne(before, steps[|steps| - 1]);
      EveryPrefixResolvesOnce(sessionId, steps[..|steps| - 1], card, k);
      assert h.log[..k] == before.log[..k];
    }
  }

  lemma LogBalanced(h: Hub, card: Card)
    requires CardBalance(h, card)
    ensures Tally(h.log, Resolves(card)) <= Tally(h.log, AsksFor(card))
  {
  }
}
