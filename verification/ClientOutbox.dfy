/** Outbox accounting: what becomes of every command over whole runs. */
module ClientOutbox {
  import opened Protocol
  import opened Reducer
  import opened ClientModel

  function SettledIds(settled: seq<Settlement>): set<string> {
    set s | s in settled :: s.id
  }

  predicate DistinctIds(commands: seq<Command>) {
    forall i, j :: 0 <= i < j < |commands| ==> commands[i].id != commands[j].id
  }

  /** Every issued command is in exactly one place: in the outbox, orphaned by a session change, or
      settled. Each settles at most once, the outbox is bounded, and whatever is sent is an issued command
      under its own id as idempotency key. */
  ghost predicate Accounted(c: Client) {
    var h := c.history;
    |c.outbox| <= MAX_OUTBOX &&
    DistinctIds(c.outbox) && DistinctIds(h.issued) &&
    (forall i, j :: 0 <= i < j < |h.settled| ==> h.settled[i].id != h.settled[j].id) &&
    (forall x :: x in h.issued ==> x.id == x.idempotencyKey) &&
    (forall x :: x in c.outbox ==> x in h.issued) &&
    (forall x :: x in h.sent ==> x in h.issued) &&
    c.waiting == IdsOf(c.outbox) + h.orphaned &&
    IdsOf(c.outbox) !! h.orphaned &&
    c.waiting !! SettledIds(h.settled) &&
    IdsOf(h.issued) == c.waiting + SettledIds(h.settled)
  }

  predicate SameBooks(c: Client, d: Client) {
    d.outbox == c.outbox && d.waiting == c.waiting && d.history.issued == c.history.issued &&
    d.history.sent == c.history.sent && d.history.settled == c.history.settled &&
    d.history.orphaned == c.history.orphaned
  }

  lemma BooksKept(c: Client, d: Client)
    requires Accounted(c) && SameBooks(c, d)
    ensures Accounted(d)
  {
  }

  lemma SettledAppend(settled: seq<Settlement>, x: Settlement)
    ensures SettledIds(settled + [x]) == SettledIds(settled) + {x.id}
  {
  }

  lemma {:induction false} RemoveCommandSelects(commands: seq<Command>, id: string)
    ensures |RemoveCommand(commands, id)| <= |commands|
    ensures forall x :: x in RemoveCommand(commands, id) <==> x in commands && x.id != id
  {
    if commands != [] {
      var n := |commands| - 1;
      RemoveCommandSelects(commands[..n], id);
      assert commands == commands[..n] + [commands[n]];
    }
  }

  lemma {:induction false} RemoveCommandKeepsDistinct(commands: seq<Command>, id: string)
    requires DistinctIds(commands)
    ensures DistinctIds(RemoveCommand(commands, id))
  {
    if commands != [] {
      var n := |commands| - 1;
      var rest := RemoveCommand(commands[..n], id);
      RemoveCommandKeepsDistinct(commands[..n], id);
      RemoveCommandSelects(commands[..n], id);
      forall i | 0 <= i < |rest|
        ensures rest[i].id != commands[n].id
      {
        assert rest[i] in commands[..n];
        var k :| 0 <= k < n && commands[..n][k] == rest[i];
        assert commands[k].id != commands[n].id;
      }
    }
  }

  lemma RemoveCommandIds(commands: seq<Command>, id: string)
    ensures IdsOf(RemoveCommand(commands, id)) == IdsOf(commands) - {id}
  {
    RemoveCommandSelects(commands, id);
  }

  lemma FlushKeepsAccounts(c: Client)
    requires Accounted(c)
    ensures Accounted(FlushOutbox(c))
  {
  }

  function Issued(c: Client, command: Command): Client {
    c.(outbox := c.outbox + [command], waiting := c.waiting + {command.id},
       history := c.history.(issued := c.history.issued + [command]))
  }

  lemma IssueKeepsAccounts(c: Client, command: Command)
    requires Accounted(c) && command.id !in IdsOf(c.history.issued) && command.idempotencyKey == command.id
    requires |c.outbox| < MAX_OUTBOX
    ensures Accounted(Issued(c, command))
  {
  }

  lemma SendKeepsAccounts(c: Client, id: string, request: Request)
    requires Accounted(c) && id !in IdsOf(c.history.issued)
    ensures Accounted(SendCommand(c, id, request))
  {
    hide FlushOutbox, Accounted;
    if |c.outbox| < MAX_OUTBOX {
      IssueKeepsAccounts(c, Command(id, id, request));
      FlushKeepsAccounts(Issued(c, Command(id, id, request)));
    }
  }

  /** One id goes from the waiting to the settled; the two kinds of waiting ids stay apart. */
  lemma SettledMoves(queued: set<string>, orphaned: set<string>, settled: set<string>, id: string)
    requires queued !! orphaned && (queued + orphaned) !! settled && id in queued + orphaned
    ensures (queued - {id}) !! (orphaned - {id})
    ensures queued + orphaned - {id} == (queued - {id}) + (orphaned - {id})
    ensures (queued + orphaned - {id}) !! (settled + {id})
    ensures queued + orphaned + settled == (queued + orphaned - {id}) + (settled + {id})
  {
  }

  lemma SettleKeepsAccounts(c: Client, id: string, outcome: Outcome)
    requires Accounted(c)
    ensures Accounted(Settle(c, id, outcome))
  {
    hide RemoveCommand, DistinctIds, IdsOf, SettledIds;
    if id in c.waiting {
      RemoveCommandSelects(c.outbox, id);
      RemoveCommandKeepsDistinct(c.outbox, id);
      RemoveCommandIds(c.outbox, id);
      SettledAppend(c.history.settled, Settlement(id, outcome));
      SettledMoves(IdsOf(c.outbox), c.history.orphaned, SettledIds(c.history.settled), id);
      SettledHasId(c.history.settled);
    }
  }

  lemma SettledHasId(settled: seq<Settlement>)
    ensures forall x :: x in settled ==> x.id in SettledIds(settled)
  {
  }

  lemma ClearKeepsAccounts(c: Client, d: Client)
    requires Accounted(c)
    requires d.outbox == [] && d.waiting == c.waiting && d.history.issued == c.history.issued
    requires d.history.sent == c.history.sent && d.history.settled == c.history.settled
    requires d.history.orphaned == c.history.orphaned + IdsOf(c.outbox)
    ensures Accounted(d)
  {
  }

  lemma SnapshotKeepsAccounts(c: Client, snap: SnapshotPayload)
    requires Accounted(c)
    ensures Accounted(HandleSnapshot(c, snap))
  {
    hide ApplySnapshot, FlushOutbox, Accounted;
    var session := ApplySnapshot(c.session, snap);
    var phase := if session.lastSeq >= session.tipSeq then Live else Syncing;
    var c1 := c.(session := session, syncBase := session.lastSeq, retryAttempt := 0, phase := phase);
    if IsOtherSession(c.session, snap) {
      var c2 := c1.(outbox := [], history := c.history.(base := 0, applied := [],
                                                       orphaned := c.history.orphaned + IdsOf(c.outbox)));
      ClearKeepsAccounts(c, c2);
      FlushKeepsAccounts(c2);
    } else {
      BooksKept(c, c1);
      FlushKeepsAccounts(c1);
    }
  }

  lemma EventKeepsAccounts(c: Client, ev: Event)
    requires Accounted(c)
    ensures Accounted(HandleEvent(c, ev))
  {
    hide ApplyEvent, Trimmed, FlushOutbox, Accounted;
    if ev.seqNo == c.session.lastSeq + 1 {
      var c1 := c.(session := Trimmed(ApplyEvent(c.session, ev), c.maxItems), gapSeq := None, gapCount := 0,
                   history := c.history.(applied := c.history.applied + [ev]));
      BooksKept(c, c1);
      BooksKept(c, c1.(phase := Live));
      FlushKeepsAccounts(c1.(phase := Live));
    } else {
      BooksKept(c, HandleEvent(c, ev));
    }
  }

  lemma ErrorKeepsAccounts(c: Client, id: string, code: string)
    requires Accounted(c)
    ensures Accounted(HandleError(c, id, code))
  {
    hide IsTerminal, Settle, Accounted;
    SettleKeepsAccounts(c, id, Rejected(code));
    if id == "" {
      BooksKept(c, HandleError(c, id, code));
    }
  }

  lemma AccountedStep(c: Client, input: Input)
    requires Accounted(c)
    ensures Accounted(Step(c, input))
  {
    hide HandleEvent, HandleSnapshot, HandleError, Settle, SendCommand, Accounted;
    match input {
      case FrameArrives(EventFrame(ev)) => EventKeepsAccounts(c, ev);
      case FrameArrives(SnapshotFrame(snap)) => SnapshotKeepsAccounts(c, snap);
      case FrameArrives(ErrorFrame(id, code)) => ErrorKeepsAccounts(c, id, code);
      case FrameArrives(AckFrame(id, n)) => SettleKeepsAccounts(c, id, Resolved(n));
      case UserSends(id, request) =>
        if id !in IdsOf(c.history.issued) {
          SendKeepsAccounts(c, id, request);
        }
      case _ => BooksKept(c, Step(c, input));
    }
  }

  /** The accounts balance in every run of the client. */
  lemma {:induction false} OutboxAccounted(maxItems: Option<nat>, restored: nat, inputs: seq<Input>)
    ensures Accounted(Run(Boot(maxItems, restored), inputs))
  {
    if inputs != [] {
      hide Step, Accounted;
      OutboxAccounted(maxItems, restored, inputs[..|inputs| - 1]);
      AccountedStep(Run(Boot(maxItems, restored), inputs[..|inputs| - 1]), inputs[|inputs| - 1]);
    } else {
      BootAccounted(maxItems, restored);
    }
  }

  lemma BootAccounted(maxItems: Option<nat>, restored: nat)
    ensures Accounted(Boot(maxItems, restored))
  {
  }

  lemma EventOrphansNothing(c: Client, ev: Event)
    ensures HandleEvent(c, ev).history.orphaned == c.history.orphaned
  {
  }

  lemma SnapshotOrphans(c: Client, snap: SnapshotPayload)
    ensures HandleSnapshot(c, snap).history.orphaned ==
            if IsOtherSession(c.session, snap) then c.history.orphaned + IdsOf(c.outbox) else c.history.orphaned
  {
  }

  lemma ErrorOrphansNothing(c: Client, id: string, code: string)
    ensures HandleError(c, id, code).history.orphaned <= c.history.orphaned
  {
  }

  /** A command is orphaned only by a snapshot of another session. */
  lemma OnlySessionChangeOrphans(c: Client, input: Input, id: string)
    ensures id in Step(c, input).history.orphaned && id !in c.history.orphaned ==>
              input.FrameArrives? && input.frame.SnapshotFrame? && IsOtherSession(c.session, input.frame.snapshot) &&
              id in IdsOf(c.outbox)
  {
    hide HandleEvent, HandleSnapshot, HandleError, FlushOutbox;
    match input {
      case FrameArrives(EventFrame(ev)) => EventOrphansNothing(c, ev);
      case FrameArrives(SnapshotFrame(snap)) => SnapshotOrphans(c, snap);
      case FrameArrives(ErrorFrame(id, code)) => ErrorOrphansNothing(c, id, code);
      case UserSends(id, request) =>
        FlushOnlySends(Issued(c, Command(id, id, request)));
      case _ =>
    }
  }
}
