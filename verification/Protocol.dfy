/** The wire vocabulary shared by the host and the clients: events, commands and frames.
    Payloads are typed: a JSON object whose fields are present and of the right type. */
module Protocol {
  import opened Text

  datatype Option<+T> = None | Some(value: T) {
    function GetOr(default: T): T {
      match this
      case Some(v) => v
      case None => default
    }
  }

  /** The kind of an event together with its kind-specific body. */
  datatype Body =
    | UserPrompt(text: string, byDevice: string)
    | TextDelta(content: Text)
    | TurnComplete
    | StatusChange(status: string)
    | ModeChanged(mode: string, modeByDevice: string)
    | UsageUpdate(inputTokens: int, outputTokens: int)
    | ToolCallStart(name: string, input: Option<string>)
    | ToolCallEnd(name: string, output: Option<string>)
    | PermissionRequest(requestId: string, kind: string, summary: string)
    | PermissionResolved(requestId: string, allow: bool, byDevice: string)
    | QuestionAsked(questionId: string, text: string)
    | QuestionResolved(questionId: string, text: string, byDevice: string)
    | AgentError(message: Option<string>)
    | OtherKind(kind: string)

  datatype Event = Event(seqNo: nat, ts: int, body: Body)

  datatype PermissionView = PermissionView(requestId: string, kind: string, summary: string)

  datatype QuestionView = QuestionView(questionId: string, text: string)

  function RequestIdOf(): PermissionView -> string {
    (v: PermissionView) => v.requestId
  }

  function QuestionIdOf(): QuestionView -> string {
    (v: QuestionView) => v.questionId
  }

  /** The host mints device ids as hex strings. All that matters of them is that none contains a colon. */
  type DeviceId = id: string | ':' !in id witness ""

  datatype DeviceView = DeviceView(deviceId: string, name: string)

  /** `mode` is absent on the wire when the host's mode is the empty string. */
  datatype SnapshotPayload = SnapshotPayload(
    sessionId: string,
    status: string,
    mode: Option<string>,
    lastSeq: nat,
    pendingPermissions: seq<PermissionView>,
    pendingQuestions: seq<QuestionView>,
    devices: seq<DeviceView>)

  /** What a command asks for. A payload the host cannot decode is `BadPayload`. */
  datatype Request =
    | SendPrompt(text: string)
    | AnswerPermission(requestId: string, allow: bool, allowAlways: bool)
    | AnswerQuestion(questionId: string, text: string)
    | SetMode(mode: string)
    | Interrupt
    | BadPayload
    | Unsupported(kind: string)

  datatype Command = Command(id: string, idempotencyKey: string, request: Request)

  /** `AckFrame.seqNo` is 0 when the wire omits it, as it does on an idempotent replay. */
  datatype Frame =
    | SnapshotFrame(snapshot: SnapshotPayload)
    | EventFrame(event: Event)
    | AckFrame(commandId: string, seqNo: nat)
    | ErrorFrame(commandId: string, code: string)

  /** Something a user must answer: a permission request or a question. */
  datatype Card = PermissionCard(id: string) | QuestionCard(id: string)

  /** The card an event asks for. */
  function Opens(body: Body): Option<Card> {
    match body
    case PermissionRequest(id, _, _) => Some(PermissionCard(id))
    case QuestionAsked(id, _) => Some(QuestionCard(id))
    case _ => None
  }

  /** The card an event resolves. */
  function Closes(body: Body): Option<Card> {
    match body
    case PermissionResolved(id, _, _) => Some(PermissionCard(id))
    case QuestionResolved(id, _, _) => Some(QuestionCard(id))
    case _ => None
  }

  /** The card a command answers. */
  function Answers(request: Request): Option<Card> {
    match request
    case AnswerPermission(id, _, _) => Some(PermissionCard(id))
    case AnswerQuestion(id, _) => Some(QuestionCard(id))
    case _ => None
  }

  function AsksFor(card: Card): Event -> bool {
    (ev: Event) => Opens(ev.body) == Some(card)
  }

  function Resolves(card: Card): Event -> bool {
    (ev: Event) => Closes(ev.body) == Some(card)
  }

  /** Event number k of a log carries sequence number k + 1. */
  ghost predicate Dense(log: seq<Event>) {
    forall k :: 0 <= k < |log| ==> log[k].seqNo == k + 1
  }

  /** A piece of a log that starts after its first `base` entries. */
  ghost predicate Numbered(piece: seq<Event>, base: nat) {
    forall k :: 0 <= k < |piece| ==> piece[k].seqNo == base + k + 1
  }

  /** The event is the log's own entry at its sequence number. */
  ghost predicate Genuine(ev: Event, log: seq<Event>) {
    1 <= ev.seqNo <= |log| && log[ev.seqNo - 1] == ev
  }
}
