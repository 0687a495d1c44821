/** The turn driver of the agent machine (`agent.rs`): one turn at a time over a session log.

    The provider, the tool executor, the route table and the log cache are inputs: each
    event carries what they answer while it is handled. */
module TurnSpec {
  import opened Json
  import opened SessionLog
  import opened AgentLoopSpec
  import InboxSpec

  /** A row of the log: a draft with the place it was given. */
  datatype LogRow = LogRow(seqNo: int, draft: Draft)

  function Drafts(rows: seq<LogRow>): seq<Draft> {
    seq(|rows|, i requires 0 <= i < |rows| => rows[i].draft)
  }

  /** Row 0 is the header; every later row is numbered from 0. */
  function SeqAt(index: nat): int {
    if index == 0 then 0 else index - 1
  }

  function AddRow(rows: seq<LogRow>, draft: Draft): seq<LogRow> {
    rows + [LogRow(SeqAt(|rows|), draft)]
  }

  datatype TurnState = TurnState(
    session: string, request: string, rows: seq<LogRow>, fsm: Loop, openedWith: nat, pendingCalls: Option<nat>)

  /** The step's executor: where it files its rows, and whether every call has been run. */
  datatype Exec = Exec(turn: nat, step: nat, finished: bool)

  datatype Op =
    | NoOp
    | Opening(session: string, request: string, message: Value)
    | Call(state: TurnState, effect: nat)
    | Tools(state: TurnState)
    | Publishing

  datatype Generation = Generation(session: string, request: string, rows: seq<LogRow>, openedWith: nat)

  /** `keys` are the kill keys of the tool effects issued so far.  `finished` are the generations handed over to be
      written, and `chosen` the one the file cache chose to write: it chooses once per operation, and nothing here
      ever tells it that an operation is over. */
  datatype Machine = Machine(
    op: Op, exec: Option<Exec>, toolEffect: Option<nat>, effects: nat, keys: seq<Option<string>>,
    completed: set<string>, finished: seq<Generation>, chosen: Option<Generation>)

  const IDLE := Machine(NoOp, None, None, 0, [], {}, [], None)

  // ----- what the surroundings answer -----

  datatype Lookup = Found(rows: seq<LogRow>) | Missing | Waiting

  /** A row the executor asks for; calls and results carry the executor's position. */
  datatype ToolRow = ToolRow(kind: RowKind, payload: Value)

  /** One batch of the executor's wants. */
  datatype Batch = Batch(rows: seq<ToolRow>, effects: nat, finished: bool)

  datatype Part = Prose(value: Value) | CallPart(value: Value)

  /** A decoded reply: no `finish` means the stream broke off. */
  datatype Reply = Reply(finish: Option<StepOutcome>, parts: seq<Part>, hasCalls: bool, calls: nat)

  datatype Result = Http(reply: Reply) | HttpError(code: string,
                                                   message: string) | Failure(message: string) | OtherResult

  /** `routable` says whether a provider can serve the next call, should one be wanted. */
  datatype World = World(lookup: Lookup, first: Batch, second: Batch, routable: bool)

  datatype Event =
    | RunCall(session: string, request: string, hasContent: bool, message: Value)
    | CancelCall(session: string)
    | Answer(id: nat, result: Result)
    | Chunk(id: nat)
    | Verdict

  // ----- rows and model calls -----

  function ToolDraft(e: Exec, r: ToolRow): Draft {
    Draft(r.kind,
          if r.kind in {ToolCall, ToolResult}
          then Obj(map["turn" := NatValue(e.turn), "step" := NatValue(e.step), "body" := r.payload])
          else r.payload)
  }

  function AddToolRows(rows: seq<LogRow>, e: Exec, wanted: seq<ToolRow>): seq<LogRow> {
    if wanted == [] then rows
    else AddRow(AddToolRows(rows, e, wanted[..|wanted| - 1]), ToolDraft(e, wanted[|wanted| - 1]))
  }

  function AddAll(rows: seq<LogRow>, drafts: seq<Draft>): seq<LogRow> {
    if drafts == [] then rows else AddRow(AddAll(rows, drafts[..|drafts| - 1]), drafts[|drafts| - 1])
  }

  const UNROUTABLE := Failed("PROVIDER_UNROUTABLE", "no configured provider can serve this request")

  /** Files the loop's rows; the flag says whether a model call is wanted and can be made.
      A call nobody can serve fails the step instead. */
  function Absorb(state: TurnState, next: (Loop, seq<LoopOutput>), routable: bool): (TurnState, bool) {
    var filed := state.(fsm := next.0, rows := AddAll(state.rows, Rows(next.1)));
    if next.1 == [] || !next.1[|next.1| - 1].CallModel? then (filed, false)
    else if routable then (filed, true)
    else
      var failed := StepReply(filed.fsm, UNROUTABLE, false, false);
      (filed.(fsm := failed.0, rows := AddAll(filed.rows, Rows(failed.1))), false)
  }

  /** The turn is handed over to be written.  With a write already chosen, that one is found to have landed, and
      the turn counts as written at once. */
  function Finish(m: Machine, s: TurnState): Machine {
    var g := Generation(s.session, s.request, s.rows, s.openedWith);
    m.(op := if m.chosen == None then Publishing else NoOp, completed := m.completed + {s.request},
       finished := m.finished + [g], chosen := if m.chosen == None then Some(g) else m.chosen)
  }

  function OpenCall(m: Machine, s: TurnState): Machine {
    m.(op := Call(s, m.effects), effects := m.effects + 1)
  }

  function ContinueTurn(m: Machine, r: (TurnState, bool), routable: bool): Machine {
    if r.1 then OpenCall(m, r.0)
    else if r.0.fsm.phase.Running? then
      var entered := Absorb(r.0, BeginStep(r.0.fsm), routable);
      if entered.1 then OpenCall(m, entered.0) else Finish(m, entered.0)
    else Finish(m, r.0)
  }

  // ----- opening a turn -----

  function SpliceDraft(message: Value): Draft {
    InboxSpec.SpliceRow(InboxSpec.Splice(InboxSpec.NextTurn, 0, 0, [message]))
  }

  function StartTurn(m: Machine, session: string, request: string, message: Value, rows: seq<LogRow>,
                     routable: bool): Machine {
    var admitted := AddRow(rows, SpliceDraft(message));
    var inbox := InboxSpec.Fold(Drafts(admitted));
    if inbox.Err? then m.(op := NoOp)
    else
      var messages := InboxSpec.Claim(inbox.lists, InboxSpec.NextTurn).1;
      if messages == [] then m.(op := NoOp)
      else
        var fsm := Resumed(ScanAll(Scan(0, None), Drafts(admitted)));
        var state := TurnState(session, request, admitted, fsm, |rows|, None);
        ContinueTurn(m, Absorb(state, BeginTurn(fsm, messages), routable), routable)
  }

  function Open(m: Machine, session: string, request: string, message: Value, w: World): Machine {
    match w.lookup
    case Found(rows) => StartTurn(m, session, request, message, rows, w.routable)
    case Missing => m.(op := NoOp)
    case Waiting => m.(op := Opening(session, request, message))
  }

  /** A call that is taken on: it names a session that is there or still being looked up, brings content, and is new.
      What is in flight is not asked about. */
  predicate Accepted(m: Machine, ev: Event, w: World) {
    ev.RunCall? && ev.session != "" && ev.hasContent && ev.request !in m.completed && !w.lookup.Missing?
  }

  function Run(m: Machine, ev: Event, w: World): Machine
    requires ev.RunCall?
  {
    if Accepted(m, ev, w) then Open(m, ev.session, ev.request, ev.message, w) else m
  }

  // ----- settling a reply -----

  function Prosaic(parts: seq<Part>): seq<Part> {
    if parts == [] then []
    else (if parts[0].Prose? then [parts[0]] else []) + Prosaic(parts[1..])
  }

  /** What the reply is recorded as, and whether its calls are to be run. */
  function SettleKind(interrupted: bool, r: Reply): RowKind {
    if interrupted then (if Prosaic(r.parts) != [] then AssistantMessage else AssistantAttempt)
    else if r.finish.Some? then AssistantMessage
    else AssistantAttempt
  }

  /** What the recorded stream says of its reply, as far as it is read again here: whether a tool call was started in
      it, and how it finished, if it did. */
  function StreamValue(r: Reply): Value {
    var calls := map["toolCalls" := Bool(r.hasCalls)];
    Obj(if r.finish.Some? then calls["finish" := FinishValue(r.finish.value)] else calls)
  }

  function FinishValue(o: StepOutcome): Value {
    match o
    case Replied => Obj(map["kind" := Str("stop")])
    case HitCeiling => Obj(map["kind" := Str("max-tokens")])
    case Failed(code, message) => Obj(map["kind" := Str("error"), "code" := Str(code), "message" := Str(message)])
  }

  function SettleDraft(s: TurnState, r: Reply): Draft {
    var at := Position(s.fsm);
    var interrupted := s.fsm.cancelled.Some?;
    var data := map["turn" := NatValue(at.0), "step" := NatValue(at.1), "stream" := StreamValue(r)];
    Draft(SettleKind(interrupted, r),
          Obj(if interrupted && SettleKind(interrupted, r) == AssistantMessage then data["interrupted" := Bool(true)]
              else data))
  }

  const INCOMPLETE := Failed("PROVIDER_STREAM_INCOMPLETE", "provider stream ended without a finish chunk")

  function Settle(m: Machine, s: TurnState, r: Reply, w: World): Machine {
    var settled := s.(rows := AddRow(s.rows, SettleDraft(s, r)));
    if r.hasCalls && r.finish.Some? && s.fsm.cancelled == None then
      ResumeTools(m, settled.(pendingCalls := Some(r.calls)), w)
    else
      var next := StepReply(s.fsm, OrElse(r.finish, INCOMPLETE), r.hasCalls && s.fsm.cancelled == None, false);
      ContinueTurn(m, Absorb(settled, next, w.routable), w.routable)
  }

  function FailTurn(m: Machine, s: TurnState, code: string, message: string): Machine {
    Finish(m.(op := NoOp), Absorb(s, StepReply(s.fsm, Failed(code, message), false, false), false).0)
  }

  // ----- running a step's tools -----

  /** A command is to be stopped by the name of its session, which is read off the operation in flight. */
  function KillKey(op: Op): Option<string> {
    if op.Tools? then Some(op.state.session) else None
  }

  function AbsorbBatch(m: Machine, s: TurnState, b: Batch): (Machine, TurnState)
    requires m.exec.Some?
  {
    (m.(exec := Some(m.exec.value.(finished := b.finished)),
        toolEffect := if b.effects > 0 then Some(m.effects + b.effects - 1) else m.toolEffect,
        effects := m.effects + b.effects, keys := m.keys + seq(b.effects, _ => KillKey(m.op))),
     s.(rows := AddToolRows(s.rows, m.exec.value, b.rows)))
  }

  function CloseToolStep(m: Machine, s: TurnState, w: World): Machine {
    var inbox := InboxSpec.Fold(Drafts(s.rows));
    var more := inbox.Ok? && InboxSpec.Pending(inbox.lists) != [];
    var closed := s.(pendingCalls := None);
    ContinueTurn(m.(exec := None, toolEffect := None),
                 Absorb(closed, StepReply(s.fsm, Replied, true, more), w.routable), w.routable)
  }

  /** `drive_tools`: the executor is created once, at the position of the settled reply. */
  function Drive(m: Machine, s: TurnState, b: Batch): (Machine, TurnState) {
    var at := Position(s.fsm);
    var started := if m.exec == None then m.(exec := Some(Exec(at.0, at.1, OrElse(s.pendingCalls, 0) == 0))) else m;
    if started.exec.value.finished then (started, s) else AbsorbBatch(started, s, b)
  }

  function ResumeTools(m: Machine, s: TurnState, w: World): Machine {
    if m.exec.Some? && m.exec.value.finished then CloseToolStep(m, s, w)
    else
      var driven := Drive(m, s, w.first);
      if driven.0.exec.value.finished && driven.0.toolEffect == None then CloseToolStep(driven.0, driven.1, w)
      else driven.0.(op := Tools(driven.1))
  }

  function AnswerTool(m: Machine, s: TurnState, w: World): Machine {
    var fed := if m.exec.Some? then AbsorbBatch(m, s, w.first) else (m, s);
    if fed.0.exec.Some? && fed.0.exec.value.finished then CloseToolStep(fed.0, fed.1, w)
    else
      var driven := Drive(fed.0, fed.1, w.second);
      driven.0.(op := Tools(driven.1))
  }

  // ----- events -----

  function CancelSession(m: Machine, session: string): Machine {
    if !(m.op.Call? || m.op.Tools?) || m.op.state.session != session then m
    else
      var s := m.op.state;
      var next := CancelTurn(s.fsm, User);
      if next.1 == [] then
        m.(op := if m.op.Call? then m.op.(state := s.(fsm := next.0)) else Tools(s.(fsm := next.0)))
      else if m.op.Call? then Finish(m.(op := NoOp), Absorb(s, next, false).0)
      else m.(op := Tools(s.(fsm := next.0)))
  }

  /** Whose answer it is goes by the operation in flight, which is taken first; only tool effects check the id. */
  function OnAnswer(m: Machine, id: nat, result: Result, w: World): Machine {
    match m.op
    case NoOp => m
    case Tools(s) => if m.toolEffect == Some(id) then AnswerTool(m.(op := NoOp, toolEffect := None), s, w) else m
    case Opening(session, request, message) => Open(m, session, request, message, w)
    case Publishing => m.(op := NoOp)
    case Call(s, _) =>
      match result
      case Http(reply) => Settle(m.(op := NoOp), s, reply, w)
      case HttpError(code, message) => FailTurn(m, s, code, message)
      case Failure(message) => FailTurn(m, s, "PROVIDER_UNREACHABLE", message)
      case OtherResult => m
  }

  /** A verdict is the executor's; any other operation in flight is taken and not put back. */
  function OnVerdict(m: Machine, b: Batch): Machine {
    if !m.op.Tools? then m.(op := NoOp)
    else if m.exec == None then m
    else
      var fed := AbsorbBatch(m.(op := NoOp), m.op.state, b);
      fed.0.(op := Tools(fed.1))
  }

  /** A chunk belongs to the held call; any other operation in flight is taken and not put back. */
  function OnChunk(m: Machine): Machine {
    if m.op.Call? then m else m.(op := NoOp)
  }

  function Step(m: Machine, ev: Event, w: World): Machine {
    match ev
    case RunCall(_, _, _, _) => Run(m, ev, w)
    case CancelCall(session) => if session == "" then m else CancelSession(m, session)
    case Answer(id, result) => OnAnswer(m, id, result, w)
    case Chunk(_) => OnChunk(m)
    case Verdict => OnVerdict(m, w.first)
  }
}
