/** The host and one client of it, joined by one FIFO socket at a time. The hub, its agent and every other
    device do as they please; the network may cut the socket at any moment, delay the hello and the commands,
    and deliver a command any number of times to any connection of the device. */
module SystemModel {
  import opened Protocol
  import opened ClientModel
  import HubModel
  import opened ClientRuns
  import opened HubStreams
  import opened HubTokens

  /** The client's current socket: not there, created, with its hello under way, or served by a connection of
      the hub, of whose queue the client has seen the first `seen` frames. */
  datatype Link = Down | Opening | Greeting(hello: nat) | Attached(conn: nat, seen: nat)

  datatype System = System(hub: HubModel.Hub, client: Client, device: DeviceId, link: Link)

  /** Where a run begins: the hub after any run of its own, and a client that has restored a position. */
  datatype Scene = Scene(
    sessionId: string, before: seq<HubModel.Step>, device: DeviceId, maxItems: Option<nat>, restored: nat)

  ghost function HubBefore(scene: Scene): HubModel.Hub {
    HubModel.Exec(HubModel.Start(scene.sessionId), scene.before)
  }

  ghost function Resume(scene: Scene): System {
    System(HubBefore(scene), Boot(scene.maxItems, scene.restored), scene.device, Down)
  }

  datatype Move =
    | HubMoves(step: HubModel.Step)
    | ClientActs(input: Input)
    | SocketOpened
    | HelloArrives
    | FrameDelivered
    | LinkLost(code: nat)
    | CommandArrives(conn: nat, command: Command, room: bool)

  /** Calls by the user and timers, as opposed to what sockets do. */
  predicate IsLocal(input: Input) {
    !input.FrameArrives? && !input.SocketOpens? && !input.SocketCloses?
  }

  predicate OpensSocket(c: Client, input: Input) {
    (input.UserConnects? && input.created) || (input.TimerFires? && input.created && c.timerSet && !c.closedByUser)
  }

  predicate IsOfDevice(s: System, conn: nat) {
    conn < |s.hub.conns| && s.hub.conns[conn].device == s.device
  }

  predicate HasFrame(s: System) {
    s.link.Attached? && s.link.conn < |s.hub.conns| && s.link.seen < |s.hub.conns[s.link.conn].queue|
  }

  /** What the client sees of a move. */
  function InputOf(s: System, move: Move): Option<Input> {
    match move
    case ClientActs(input) => if IsLocal(input) then Some(input) else None
    case SocketOpened => if s.link.Opening? then Some(SocketOpens(true)) else None
    case FrameDelivered =>
      if HasFrame(s) then Some(FrameArrives(s.hub.conns[s.link.conn].queue[s.link.seen])) else None
    case LinkLost(code) => if s.link.Down? then None else Some(SocketCloses(true, code))
    case _ => None
  }

  /** What the hub sees of a move. Commands reach the device's connections only from this client. */
  function StepOf(s: System, move: Move): Option<HubModel.Step> {
    match move
    case HubMoves(step) => if step.ReceiveStep? && IsOfDevice(s, step.c) then None else Some(step)
    case HelloArrives => if s.link.Greeting? then Some(HubModel.DialStep(s.device, s.link.hello)) else None
    case CommandArrives(conn, command, room) =>
      if IsOfDevice(s, conn) && command in s.client.history.sent then Some(HubModel.ReceiveStep(conn, command, room))
      else None
    case _ => None
  }

  /** What becomes of the socket. Opening a new one abandons the old one, and so does dropping it. */
  function NextLink(s: System, move: Move, after: Client): Link {
    match move
    case ClientActs(input) =>
      if IsLocal(input) && OpensSocket(s.client, input) then Opening else if input.UserCloses? then Down else s.link
    case SocketOpened => if s.link.Opening? then Greeting(s.client.session.lastSeq) else s.link
    case HelloArrives => if s.link.Greeting? then Attached(|s.hub.conns|, 0) else s.link
    case FrameDelivered =>
      if !HasFrame(s) then s.link else if after.hasSocket then s.link.(seen := s.link.seen + 1) else Down
    case LinkLost(_) => Down
    case _ => s.link
  }

  ghost function Go(s: System, move: Move): System {
    var input, step := InputOf(s, move), StepOf(s, move);
    var client := if input.Some? then Step(s.client, input.value) else s.client;
    s.(client := client,
       hub := if step.Some? then HubModel.Next(s.hub, step.value) else s.hub,
       link := NextLink(s, move, client))
  }

  ghost function Play(s: System, moves: seq<Move>): System {
    if moves == [] then s
    else Go(Play(s, moves[..|moves| - 1]), moves[|moves| - 1])
  }

  // --- Both parts run as they do alone ---

  lemma HubRunsAlone(scene: Scene, moves: seq<Move>) returns (steps: seq<HubModel.Step>)
    ensures Play(Resume(scene), moves).hub == HubModel.Exec(HubModel.Start(scene.sessionId), steps)
  {
    if moves == [] {
      return scene.before;
    }
    hide HubModel.Next, Resume;
    var n := |moves| - 1;
    steps := HubRunsAlone(scene, moves[..n]);
    var step := StepOf(Play(Resume(scene), moves[..n]), moves[n]);
    if step.Some? {
      assert (steps + [step.value])[..|steps|] == steps;
      steps := steps + [step.value];
    }
  }

  lemma HubIsSound(scene: Scene, moves: seq<Move>)
    ensures Sound(Play(Resume(scene), moves).hub)
  {
    hide Play, Sound, HubModel.Exec;
    var steps := HubRunsAlone(scene, moves);
    HubStaysSound(scene.sessionId, steps);
  }

  lemma LogGrows(h: HubModel.Hub, step: HubModel.Step)
    ensures h.log <= HubModel.Next(h, step).log
  {
    hide HubModel.Next;
    AppendsAtMostOne(h, step);
  }

  lemma MoveIsGenuine(s: System, move: Move)
    requires Sound(s.hub)
    ensures InputOf(s, move).Some? ==> IsGenuine(InputOf(s, move).value, s.hub.log)
    ensures s.hub.log <= Go(s, move).hub.log
  {
    hide Sound, Step, HubModel.Next;
    if move.FrameDelivered? && HasFrame(s) {
      QueueIsGenuine(s.hub, s.link.conn, s.link.seen);
    }
    if StepOf(s, move).Some? {
      LogGrows(s.hub, StepOf(s, move).value);
    }
  }

  /** Whatever the system does, the client lives through a run in which every event is the log's own. */
  lemma ClientRunsAlone(scene: Scene, moves: seq<Move>) returns (inputs: seq<Input>)
    ensures var s := Play(Resume(scene), moves);
            s.client == Run(Boot(scene.maxItems, scene.restored), inputs) &&
            forall i :: 0 <= i < |inputs| ==> IsGenuine(inputs[i], s.hub.log)
  {
    hide Sound, Step, HubModel.Next, InputOf, StepOf, NextLink;
    if moves == [] {
      return [];
    }
    var n := |moves| - 1;
    var s := Play(Resume(scene), moves[..n]);
    inputs := ClientRunsAlone(scene, moves[..n]);
    HubIsSound(scene, moves[..n]);
    MoveIsGenuine(s, moves[n]);
    var input := InputOf(s, moves[n]);
    if input.Some? {
      assert (inputs + [input.value])[..|inputs|] == inputs;
      inputs := inputs + [input.value];
    }
  }

  /** The log the client restored its position from is still there. */
  lemma {:induction false} LogOutlives(scene: Scene, moves: seq<Move>)
    ensures HubBefore(scene).log <= Play(Resume(scene), moves).hub.log
  {
    if moves != [] {
      hide InputOf, StepOf, NextLink, HubModel.Next, Step, HubModel.Exec;
      var n := |moves| - 1;
      var s := Play(Resume(scene), moves[..n]);
      LogOutlives(scene, moves[..n]);
      if StepOf(s, moves[n]).Some? {
        LogGrows(s.hub, StepOf(s, moves[n]).value);
      }
    }
  }
}
