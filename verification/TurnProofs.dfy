/** What every run of the turn driver finishes, and what takes a turn out of its hands. */
module TurnProofs {
  import opened Json
  import opened SessionLog
  import opened AgentLoopSpec
  import opened TurnSpec
  import InboxSpec

  // ----- rows in their places -----

  ghost predicate Dense(rows: seq<LogRow>) {
    forall i | 0 < i < |rows| :: rows[i].seqNo == i - 1
  }

  function LastTurn(rows: seq<LogRow>): nat {
    ScanAll(Scan(0, None), Drafts(rows)).last
  }

  /** A log the driver may start from: dense, with every turn closed. */
  ghost predicate ClosedLog(rows: seq<LogRow>) {
    Dense(rows) && ScanAll(Scan(0, None), Drafts(rows)).open == None
  }

  lemma {:induction false} AddAllConcat(rows: seq<LogRow>, a: seq<Draft>, b: seq<Draft>)
    ensures AddAll(rows, a + b) == AddAll(AddAll(rows, a), b)
  {
    if b == [] {
      assert a + b == a;
    } else {
      AddAllConcat(rows, a, b[..|b| - 1]);
      assert (a + b)[..|a + b| - 1] == a + b[..|b| - 1];
    }
  }

  lemma {:induction false} AddAllPlaces(rows: seq<LogRow>, a: seq<Draft>)
    ensures |AddAll(rows, a)| == |rows| + |a| && AddAll(rows, a)[..|rows|] == rows
    ensures Drafts(AddAll(rows, a)) == Drafts(rows) + a
    ensures Dense(rows) ==> Dense(AddAll(rows, a))
  {
    if a != [] {
      AddAllPlaces(rows, a[..|a| - 1]);
      assert Drafts(AddAll(rows, a)) == Drafts(AddAll(rows, a[..|a| - 1])) + [a[|a| - 1]];
      assert Drafts(rows) + a == Drafts(rows) + a[..|a| - 1] + [a[|a| - 1]];
    }
  }

  lemma AddOne(rows: seq<LogRow>, d: Draft)
    ensures AddAll(rows, [d]) == AddRow(rows, d)
  {
    assert AddAll(rows, [d][..0]) == rows;
  }

  // ----- the rows of one turn -----

  const TOOL_KINDS := {ToolCall, ToolResult, ApprovalAsked, ApprovalDecided}

  predicate At(d: Draft, turn: nat, step: nat) {
    AsNat(Get(d.data, "turn")) == Some(turn) && AsNat(Get(d.data, "step")) == Some(step)
  }

  /** What a step may hold between its frames: nothing when its call failed; otherwise the
      settled reply, filed at the step, and after a finished reply the rows of its tools. */
  predicate BodyOk(turn: nat, step: nat, body: seq<Draft>) {
    body != [] ==>
      && body[0].kind in {AssistantMessage, AssistantAttempt} && At(body[0], turn, step)
      && (|body| > 1 ==> body[0].kind == AssistantMessage)
      && forall i | 0 < i < |body| ::
           body[i].kind in TOOL_KINDS && (body[i].kind in {ToolCall, ToolResult} ==> At(body[i], turn, step))
  }

  predicate BodiesOk(turn: nat, bodies: seq<seq<Draft>>) {
    forall k | 0 <= k < |bodies| :: BodyOk(turn, k + 1, bodies[k])
  }

  function StreamOf(d: Draft): Value {
    OrElse(Get(d.data, "stream"), Null)
  }

  predicate MadeCalls(d: Draft) {
    Get(StreamOf(d), "toolCalls") == Some(Bool(true))
  }

  predicate Interrupted(d: Draft) {
    Get(d.data, "interrupted") == Some(Bool(true))
  }

  /** What a step that is followed by another holds: first a finished reply that made tool calls. */
  predicate Called(body: seq<Draft>) {
    && body != [] && body[0].kind == AssistantMessage
    && MadeCalls(body[0]) && Get(StreamOf(body[0]), "finish").Some? && !Interrupted(body[0])
  }

  predicate AllCalled(bodies: seq<seq<Draft>>) {
    forall k | 0 <= k < |bodies| :: Called(bodies[k])
  }

  /** How a reply that made no calls ends its turn, by how its recorded stream finished. */
  predicate EndsReply(d: Draft, reason: Value) {
    var finish := Get(StreamOf(d), "finish");
    if finish == None then
      && d.kind == AssistantAttempt && ReasonKind(reason) == Some("error")
      && ReasonError(reason).0 == Some("PROVIDER_STREAM_INCOMPLETE")
    else
      && d.kind == AssistantMessage && !MadeCalls(d)
      && match AsStr(Get(finish.value, "kind"))
         case Some("stop") => ReasonKind(reason) == Some("completed")
         case Some("max-tokens") => ReasonKind(reason) == Some("max-tokens")
         case Some("error") =>
           && ReasonKind(reason) == Some("error")
           && ReasonError(reason) == (AsStr(Get(finish.value, "code")), AsStr(Get(finish.value, "message")))
         case _ => false
  }

  /** How a turn may end whose last step holds `body`: aborted; in error, when no reply came; or as the reply says. */
  predicate EndFits(body: seq<Draft>, reason: Value) {
    || ReasonKind(reason) == Some("aborted")
    || (body == [] && ReasonKind(reason) == Some("error"))
    || (|body| == 1 && !Interrupted(body[0]) && EndsReply(body[0], reason))
  }

  /** Steps 1 to n, each started, filled and ended. */
  function StepsLog(turn: nat, bodies: seq<seq<Draft>>): seq<Draft> {
    if bodies == [] then []
    else
      var n := |bodies|;
      StepsLog(turn, bodies[..n - 1]) + ([StepStartRow(turn, n)] + bodies[n - 1] + [StepEndRow(turn, n)])
  }

  lemma StepsLogMore(turn: nat, bodies: seq<seq<Draft>>, body: seq<Draft>)
    ensures StepsLog(turn, bodies + [body]) ==
      StepsLog(turn, bodies) + ([StepStartRow(turn, |bodies| + 1)] + body + [StepEndRow(turn, |bodies| + 1)])
  {
    assert (bodies + [body])[..|bodies|] == bodies;
  }

  /** One admitted turn: the splice, the turn's start, its steps, and its end. */
  function TurnLog(splice: Draft, turn: nat, bodies: seq<seq<Draft>>, reason: Value): seq<Draft> {
    [splice, TurnStartRow(turn)] + StepsLog(turn, bodies) + [TurnEndRow(turn, reason)]
  }

  /** How a turn came to its rows. */
  datatype Story = Story(base: seq<LogRow>, splice: Draft, bodies: seq<seq<Draft>>)

  function TurnNo(t: Story): nat {
    LastTurn(t.base) + 1
  }

  ghost predicate StoryOk(t: Story) {
    ClosedLog(t.base) && t.splice.kind == InboxSpliced && BodiesOk(TurnNo(t), t.bodies)
  }

  /** Every step but the last made tool calls, and the turn ended as its last step says. */
  predicate Ends(t: Story, reason: Value) {
    var n := |t.bodies|;
    n > 0 && AllCalled(t.bodies[..n - 1]) && EndFits(t.bodies[n - 1], reason)
  }

  /** The generation is its base log and exactly one complete turn, densely numbered. */
  ghost predicate Tells(g: Generation, t: Story, reason: Value) {
    && StoryOk(t) && Ends(t, reason)
    && g.openedWith == |t.base|
    && g.rows == AddAll(t.base, TurnLog(t.splice, TurnNo(t), t.bodies, reason))
  }

  ghost predicate WellFormed(g: Generation) {
    exists t, reason :: Tells(g, t, reason)
  }

  /** Rows of a turn whose step `|bodies| + 1` is open and holds `body` so far. */
  function OpenLog(t: Story, body: seq<Draft>): seq<Draft> {
    [t.splice, TurnStartRow(TurnNo(t))] + StepsLog(TurnNo(t), t.bodies)
      + ([StepStartRow(TurnNo(t), |t.bodies| + 1)] + body)
  }

  ghost predicate Held(s: TurnState, t: Story, body: seq<Draft>) {
    && StoryOk(t) && AllCalled(t.bodies) && BodyOk(TurnNo(t), |t.bodies| + 1, body)
    && s.openedWith == |t.base|
    && s.rows == AddAll(t.base, OpenLog(t, body))
    && s.fsm.phase.Running? && Position(s.fsm) == (TurnNo(t), |t.bodies| + 1) && s.fsm.stepOpen && !s.fsm.sawMaxTokens
  }

  ghost predicate Calling(s: TurnState) {
    exists t :: Held(s, t, [])
  }

  ghost predicate Running(s: TurnState) {
    exists t, body :: Held(s, t, body) && Called(body)
  }

  /** No executor is left over, or one that has nothing more to do. */
  predicate Spent(m: Machine) {
    m.exec.Some? ==> m.exec.value.finished
  }

  ghost predicate AllWellFormed(m: Machine) {
    forall g | g in m.finished :: WellFormed(g)
  }

  /** Kept by every event that strands no executor. */
  ghost predicate Inv(m: Machine) {
    && (m.op.Call? ==> Calling(m.op.state))
    && (m.op.Tools? ==> Running(m.op.state) && m.exec.Some?
                        && Position(m.op.state.fsm) == (m.exec.value.turn, m.exec.value.step))
    && (!m.op.Tools? ==> Spent(m))
    && AllWellFormed(m)
    && Once(m)
  }

  /** No request is ever finished twice. */
  predicate Once(m: Machine) {
    && (forall i | 0 <= i < |m.finished| :: m.finished[i].request in m.completed)
    && (forall i, j | 0 <= i < j < |m.finished| :: m.finished[i].request != m.finished[j].request)
    && (m.op.Call? || m.op.Tools? ==> m.op.state.request !in m.completed)
    && (m.op.Opening? ==> m.op.request !in m.completed)
  }

  // ----- closing and going on -----

  /** The turn is over: what is filed is a complete turn. */
  lemma ClosedTells(s: TurnState, t: Story, body: seq<Draft>, reason: Value) returns (t': Story)
    requires Held(s, t, body) && EndFits(body, reason)
    ensures t' == t.(bodies := t.bodies + [body])
    ensures
      var closers := [StepEndRow(TurnNo(t), |t.bodies| + 1), TurnEndRow(TurnNo(t), reason)];
      Tells(Generation(s.session, s.request, AddAll(s.rows, closers), s.openedWith), t', reason)
  {
    t' := t.(bodies := t.bodies + [body]);
    var closers := [StepEndRow(TurnNo(t), |t.bodies| + 1), TurnEndRow(TurnNo(t), reason)];
    AddAllConcat(t.base, OpenLog(t, body), closers);
    ClosedRows(t, body, reason);
  }

  lemma ClosedRows(t: Story, body: seq<Draft>, reason: Value)
    ensures OpenLog(t, body) + [StepEndRow(TurnNo(t), |t.bodies| + 1), TurnEndRow(TurnNo(t), reason)]
         == TurnLog(t.splice, TurnNo(t), t.bodies + [body], reason)
  {
    StepsLogMore(TurnNo(t), t.bodies, body);
  }

  /** The turn goes on: the next step is open and empty. */
  lemma NextStepHeld(s: TurnState, s': TurnState, t: Story, body: seq<Draft>) returns (t': Story)
    requires Held(s, t, body) && Called(body) && !s'.fsm.sawMaxTokens
    requires s'.rows == AddAll(s.rows, [StepEndRow(TurnNo(t), |t.bodies| + 1), StepStartRow(TurnNo(t), |t.bodies| + 2)])
    requires s'.openedWith == s.openedWith && s'.fsm.phase.Running? && s'.fsm.stepOpen
    requires Position(s'.fsm) == (TurnNo(t), |t.bodies| + 2)
    ensures t' == t.(bodies := t.bodies + [body]) && Held(s', t', [])
  {
    t' := t.(bodies := t.bodies + [body]);
    AddAllConcat(t.base, OpenLog(t, body),
                 [StepEndRow(TurnNo(t), |t.bodies| + 1), StepStartRow(TurnNo(t), |t.bodies| + 2)]);
    NextRows(t, body);
  }

  lemma NextRows(t: Story, body: seq<Draft>)
    ensures OpenLog(t, body) + [StepEndRow(TurnNo(t), |t.bodies| + 1), StepStartRow(TurnNo(t), |t.bodies| + 2)]
         == OpenLog(t.(bodies := t.bodies + [body]), [])
  {
    StepsLogMore(TurnNo(t), t.bodies, body);
  }

  /** How an outcome ends a turn that is not cancelled. */
  function EndingOf(o: StepOutcome): Ending {
    match o
    case Replied => Completed
    case HitCeiling => MaxTokens
    case Failed(code, message) => Error(code, message)
  }

  function EndingFor(l: Loop, o: StepOutcome): Ending {
    if l.cancelled.Some? then Aborted(l.cancelled.value) else EndingOf(o)
  }

  lemma AbortFits(l: Loop, o: StepOutcome, body: seq<Draft>)
    requires l.cancelled == None ==> EndFits(body, ReasonValue(EndingOf(o)))
    ensures EndFits(body, ReasonValue(EndingFor(l, o)))
  {
    ReasonTells(EndingFor(l, o), Completed);
  }

  /** A failing reply ends the turn, and a latched cancel decides how. */
  lemma FailureTells(s: TurnState, t: Story, body: seq<Draft>, f: StepOutcome)
    requires Held(s, t, body) && f.Failed? && (s.fsm.cancelled == None ==> EndFits(body, ReasonValue(EndingOf(f))))
    ensures
      var next := StepReply(s.fsm, f, false, false);
      var reason := EndingFor(s.fsm, f);
      && next.0.phase.Idle? && |next.1| == 3 && !next.1[2].CallModel?
      && Tells(Generation(s.session, s.request, AddAll(s.rows, Rows(next.1)), s.openedWith),
               t.(bodies := t.bodies + [body]), ReasonValue(reason))
  {
    var next := StepReply(s.fsm, f, false, false);
    RowsOf(next.1);
    var reason := EndingFor(s.fsm, f);
    AbortFits(s.fsm, f, body);
    var t' := ClosedTells(s, t, body, ReasonValue(reason));
    assert Rows(next.1) == [StepEndRow(TurnNo(t), |t.bodies| + 1), TurnEndRow(TurnNo(t), ReasonValue(reason))];
  }

  /** Publishing a complete turn of a request not seen before. */
  lemma FinishKeeps(m: Machine, s: TurnState, t: Story, reason: Value)
    requires Once(m.(op := NoOp)) && Spent(m) && s.request !in m.completed
    requires AllWellFormed(m)
    requires Tells(Generation(s.session, s.request, s.rows, s.openedWith), t, reason)
    ensures Inv(Finish(m, s))
  {
    assert WellFormed(Generation(s.session, s.request, s.rows, s.openedWith));
  }

  /** How a settled step may leave the machine. */
  ghost predicate Advanced(m: Machine, s: TurnState, m': Machine) {
    && Inv(m')
    && m'.exec == m.exec && m'.toolEffect == m.toolEffect
    && (m'.op.Call? || Ended(m'))
    && (s.fsm.cancelled.Some? ==> AbortedNow(m, m', s.fsm.cancelled.value))
  }

  /** No turn is held and none is being opened. */
  predicate Ended(m: Machine) {
    m.op.Publishing? || m.op.NoOp?
  }

  /** The turn was finished just now, and its last row says it was aborted. */
  ghost predicate AbortedNow(m: Machine, m': Machine, cause: CancelCause) {
    && Ended(m') && |m'.finished| == |m.finished| + 1 && m'.finished[..|m.finished|] == m.finished
    && var rows := m'.finished[|m.finished|].rows;
       rows != [] && rows[|rows| - 1].draft.kind == TurnEnd
       && Get(rows[|rows| - 1].draft.data, "reason") == Some(ReasonValue(Aborted(cause)))
  }

  lemma TellsAborted(m: Machine, s: TurnState, t: Story, cause: CancelCause)
    requires Tells(Generation(s.session, s.request, s.rows, s.openedWith), t, ReasonValue(Aborted(cause)))
    ensures AbortedNow(m, Finish(m, s), cause)
  {
    var log := TurnLog(t.splice, TurnNo(t), t.bodies, ReasonValue(Aborted(cause)));
    AddAllPlaces(t.base, log);
    var g := Generation(s.session, s.request, s.rows, s.openedWith);
    assert g.rows[|g.rows| - 1].draft == Drafts(g.rows)[|g.rows| - 1] == log[|log| - 1];
  }

  /** What a reply that ends the turn files. */
  lemma EndingReply(s: TurnState, t: Story, body: seq<Draft>, outcome: StepOutcome, calls: bool, more: bool)
    returns (reason: Value)
    requires Held(s, t, body) && StepReply(s.fsm, outcome, calls, more).0.phase.Idle?
    ensures
      var outs := StepReply(s.fsm, outcome, calls, more).1;
      && outs != [] && !outs[|outs| - 1].CallModel?
      && Rows(outs) == [StepEndRow(TurnNo(t), |t.bodies| + 1), TurnEndRow(TurnNo(t), reason)]
    ensures reason == ReasonValue(EndingFor(s.fsm, outcome))
  {
    var outs := StepReply(s.fsm, outcome, calls, more).1;
    RowsOf(outs);
    reason := ReasonValue(outs[2].ending);
  }

  lemma EndedTurnFinishes(m: Machine, s: TurnState, next: (Loop, seq<LoopOutput>), routable: bool)
    requires next.0.phase.Idle? && next.1 != [] && !next.1[|next.1| - 1].CallModel?
    ensures ContinueTurn(m, Absorb(s, next, routable), routable)
      == Finish(m, s.(fsm := next.0, rows := AddAll(s.rows, Rows(next.1))))
  {
  }

  lemma FinishAdvances(m: Machine, s: TurnState, filed: TurnState, t: Story, reason: Value)
    requires Once(m.(op := NoOp)) && Spent(m) && filed.request !in m.completed
    requires AllWellFormed(m)
    requires Tells(Generation(filed.session, filed.request, filed.rows, filed.openedWith), t, reason)
    requires s.fsm.cancelled.Some? ==> reason == ReasonValue(Aborted(s.fsm.cancelled.value))
    ensures Advanced(m, s, Finish(m, filed))
  {
    FinishKeeps(m, filed, t, reason);
    if s.fsm.cancelled.Some? {
      TellsAborted(m, filed, t, s.fsm.cancelled.value);
    }
  }

  lemma ReplyEnds(m: Machine, s: TurnState, t: Story, body: seq<Draft>, outcome: StepOutcome, calls: bool, more: bool,
                  routable: bool)
    requires Once(m.(op := NoOp)) && Spent(m) && s.request !in m.completed
    requires AllWellFormed(m)
    requires Held(s, t, body) && StepReply(s.fsm, outcome, calls, more).0.phase.Idle?
    requires s.fsm.cancelled == None ==> EndFits(body, ReasonValue(EndingOf(outcome)))
    ensures Advanced(m, s, ContinueTurn(m, Absorb(s, StepReply(s.fsm, outcome, calls, more), routable), routable))
  {
    var next := StepReply(s.fsm, outcome, calls, more);
    var reason := EndingReply(s, t, body, outcome, calls, more);
    EndedTurnFinishes(m, s, next, routable);
    AbortFits(s.fsm, outcome, body);
    var t' := ClosedTells(s, t, body, reason);
    FinishAdvances(m, s, s.(fsm := next.0, rows := AddAll(s.rows, Rows(next.1))), t', reason);
  }

  lemma ReplyGoesOn(m: Machine, s: TurnState, t: Story, body: seq<Draft>, outcome: StepOutcome, calls: bool, more: bool,
                    routable: bool)
    requires Once(m.(op := NoOp)) && Spent(m) && s.request !in m.completed
    requires AllWellFormed(m)
    requires Held(s, t, body) && Called(body) && outcome.Replied?
    requires !StepReply(s.fsm, outcome, calls, more).0.phase.Idle?
    ensures Advanced(m, s, ContinueTurn(m, Absorb(s, StepReply(s.fsm, outcome, calls, more), routable), routable))
  {
    var next := StepReply(s.fsm, outcome, calls, more);
    var filed := s.(fsm := next.0, rows := AddAll(s.rows, Rows(next.1)));
    RowsOf(next.1);
    assert Rows(next.1) == [StepEndRow(TurnNo(t), |t.bodies| + 1), StepStartRow(TurnNo(t), |t.bodies| + 2)];
    var t' := NextStepHeld(s, filed, t, body);
    if !routable {
      UnroutableKeeps(m, filed, t');
    }
  }

  /** A call nobody can take fails its step, and the turn with it. */
  lemma UnroutableKeeps(m: Machine, s: TurnState, t: Story)
    requires Once(m.(op := NoOp)) && Spent(m) && s.request !in m.completed
    requires AllWellFormed(m)
    requires Held(s, t, [])
    ensures
      var failed := StepReply(s.fsm, UNROUTABLE, false, false);
      failed.0.phase.Idle? && Inv(Finish(m, s.(fsm := failed.0, rows := AddAll(s.rows, Rows(failed.1)))))
  {
    ReasonTells(EndingOf(UNROUTABLE), Completed);
    FailureTells(s, t, [], UNROUTABLE);
    var failed := StepReply(s.fsm, UNROUTABLE, false, false);
    var reason := EndingFor(s.fsm, UNROUTABLE);
    FinishKeeps(m, s.(fsm := failed.0, rows := AddAll(s.rows, Rows(failed.1))), t.(bodies := t.bodies + [[]]),
                ReasonValue(reason));
  }

  /** Settling an open step: the turn ends and is published, or its next step is called. */
  lemma ReplyAdvances(m: Machine, s: TurnState, t: Story, body: seq<Draft>, outcome: StepOutcome, calls: bool,
                      more: bool, routable: bool)
    requires Once(m.(op := NoOp)) && Spent(m) && s.request !in m.completed
    requires AllWellFormed(m)
    requires Held(s, t, body)
    requires s.fsm.cancelled == None ==>
      if (calls || more) && !outcome.Failed? then outcome.Replied? && Called(body)
      else EndFits(body, ReasonValue(EndingOf(outcome)))
    ensures Advanced(m, s, ContinueTurn(m, Absorb(s, StepReply(s.fsm, outcome, calls, more), routable), routable))
  {
    TurnOverIff(s.fsm, AgentLoopSpec.Reply(outcome, calls, more));
    if StepReply(s.fsm, outcome, calls, more).0.phase.Idle? {
      ReplyEnds(m, s, t, body, outcome, calls, more, routable);
    } else {
      ReplyGoesOn(m, s, t, body, outcome, calls, more, routable);
    }
  }

  lemma FailTurnAdvances(m: Machine, s: TurnState, t: Story, code: string, message: string)
    requires Once(m.(op := NoOp)) && Spent(m) && s.request !in m.completed
    requires AllWellFormed(m)
    requires Held(s, t, [])
    ensures Advanced(m, s, FailTurn(m, s, code, message))
  {
    var f := Failed(code, message);
    ReasonTells(EndingOf(f), Completed);
    FailureTells(s, t, [], f);
    var next := StepReply(s.fsm, f, false, false);
    FinishAdvances(m.(op := NoOp), s, s.(fsm := next.0, rows := AddAll(s.rows, Rows(next.1))),
                   t.(bodies := t.bodies + [[]]), ReasonValue(EndingFor(s.fsm, f)));
    FailFiles(m, s, f);
  }

  lemma FailFiles(m: Machine, s: TurnState, f: StepOutcome)
    requires f.Failed? && s.fsm.phase.Running? && s.fsm.stepOpen
    ensures
      var next := StepReply(s.fsm, f, false, false);
      FailTurn(m, s, f.code, f.message)
        == Finish(m.(op := NoOp), s.(fsm := next.0, rows := AddAll(s.rows, Rows(next.1))))
  {
  }

  // ----- filing rows inside the open step -----

  lemma FiledHeld(s: TurnState, t: Story, body: seq<Draft>, d: Draft)
    requires Held(s, t, body) && BodyOk(TurnNo(t), |t.bodies| + 1, body + [d])
    ensures Held(s.(rows := AddRow(s.rows, d)), t, body + [d])
  {
    AddOne(s.rows, d);
    AddAllConcat(t.base, OpenLog(t, body), [d]);
    assert OpenLog(t, body) + [d] == OpenLog(t, body + [d]);
  }

  /** The executor files under the kinds it has, which are none of the frames. */
  predicate BatchOk(b: Batch) {
    forall i | 0 <= i < |b.rows| :: b.rows[i].kind in TOOL_KINDS
  }

  lemma {:induction false} ToolRowsHeld(s: TurnState, t: Story, body: seq<Draft>, e: Exec, wanted: seq<ToolRow>)
    returns (body': seq<Draft>)
    requires Held(s, t, body) && Called(body)
    requires Position(s.fsm) == (e.turn, e.step)
    requires forall i | 0 <= i < |wanted| :: wanted[i].kind in TOOL_KINDS
    ensures Held(s.(rows := AddToolRows(s.rows, e, wanted)), t, body') && Called(body')
  {
    body' := body;
    if wanted != [] {
      var n := |wanted| - 1;
      body' := ToolRowsHeld(s, t, body, e, wanted[..n]);
      var filed := s.(rows := AddToolRows(s.rows, e, wanted[..n]));
      var d := ToolDraft(e, wanted[n]);
      assert wanted[n].kind in TOOL_KINDS;
      FiledHeld(filed, t, body', d);
      body' := body' + [d];
    }
  }

  lemma BatchKeeps(m: Machine, s: TurnState, b: Batch)
    requires Running(s) && m.exec.Some? && Position(s.fsm) == (m.exec.value.turn, m.exec.value.step) && BatchOk(b)
    ensures
      var (m', s') := AbsorbBatch(m, s, b);
      Running(s') && s'.fsm == s.fsm && s'.request == s.request && s'.session == s.session
  {
    var t, body :| Held(s, t, body) && Called(body);
    var body' := ToolRowsHeld(s, t, body, m.exec.value, b.rows);
  }

  lemma CloseToolsAdvances(m: Machine, s: TurnState, w: World)
    requires Once(m.(op := NoOp)) && s.request !in m.completed
    requires AllWellFormed(m)
    requires Running(s)
    ensures Advanced(m.(exec := None, toolEffect := None), s, CloseToolStep(m, s, w))
  {
    var t, body :| Held(s, t, body) && Called(body);
    var inbox := InboxSpec.Fold(Drafts(s.rows));
    var more := inbox.Ok? && InboxSpec.Pending(inbox.lists) != [];
    var closed := s.(pendingCalls := None);
    assert Held(closed, t, body);
    ReplyAdvances(m.(exec := None, toolEffect := None), closed, t, body, Replied, true, more, w.routable);
  }

  // ----- each handler -----

  ghost predicate WorldOk(w: World) {
    BatchOk(w.first) && BatchOk(w.second) && (w.lookup.Found? ==> ClosedLog(w.lookup.rows))
  }

  lemma DriveKeeps(m: Machine, s: TurnState, b: Batch)
    requires Running(s) && BatchOk(b)
    requires m.exec.Some? ==> Position(s.fsm) == (m.exec.value.turn, m.exec.value.step)
    ensures
      var (m', s') := Drive(m, s, b);
      && Running(s') && s'.fsm == s.fsm && s'.request == s.request && s'.session == s.session
      && m'.exec.Some? && Position(s'.fsm) == (m'.exec.value.turn, m'.exec.value.step)
      && m'.completed == m.completed && m'.finished == m.finished
  {
    var at := Position(s.fsm);
    var started := if m.exec == None then m.(exec := Some(Exec(at.0, at.1, OrElse(s.pendingCalls, 0) == 0))) else m;
    if !started.exec.value.finished {
      BatchKeeps(started, s, b);
    }
  }

  /** A turn is held and the user's cancel is latched. */
  predicate Cancelling(m: Machine) {
    (m.op.Call? || m.op.Tools?) && m.op.state.fsm.cancelled == Some(User)
  }

  /** What an event may do then: the turn stays held at its step, with no new call, or it is
      published as aborted. */
  ghost predicate CancelHeeded(m: Machine, m': Machine) {
    Cancelling(m) ==> AbortedNow(m, m', User) || StillCancelling(m, m')
  }

  ghost predicate StillCancelling(m: Machine, m': Machine) {
    && Cancelling(m) && Cancelling(m')
    && m'.finished == m.finished
    && (m.op.Call? ==> m'.op.Call? && m'.op.effect == m.op.effect)
    && (m.op.Tools? ==> m'.op.Tools?)
    && Position(m'.op.state.fsm) == Position(m.op.state.fsm)
  }

  /** The settled reply is filed inside the step it answers. */
  lemma SettledHeld(s: TurnState, t: Story, r: Reply)
    requires Held(s, t, [])
    ensures Held(s.(rows := AddRow(s.rows, SettleDraft(s, r))), t, [SettleDraft(s, r)])
  {
    var d := SettleDraft(s, r);
    assert At(d, TurnNo(t), |t.bodies| + 1);
    assert [] + [d] == [d];
    FiledHeld(s, t, [], d);
  }

  /** Tools were called for: they run, unless an executor that is done is found in their place. */
  lemma SettleWaits(m: Machine, t: Story, r: Reply, w: World)
    requires Inv(m) && m.op.Call? && WorldOk(w) && Held(m.op.state, t, [])
    requires r.hasCalls && r.finish.Some? && m.op.state.fsm.cancelled == None
    ensures var m' := Settle(m.(op := NoOp), m.op.state, r, w); Inv(m') && CancelHeeded(m, m')
  {
    var s := m.op.state;
    var waiting := s.(rows := AddRow(s.rows, SettleDraft(s, r)), pendingCalls := Some(r.calls));
    WaitingRuns(s, t, r);
    ResumeKeeps(m.(op := NoOp), waiting, w);
  }

  lemma WaitingRuns(s: TurnState, t: Story, r: Reply)
    requires Held(s, t, []) && r.hasCalls && r.finish.Some? && s.fsm.cancelled == None
    ensures Running(s.(rows := AddRow(s.rows, SettleDraft(s, r)), pendingCalls := Some(r.calls)))
  {
    var d := SettleDraft(s, r);
    SettledHeld(s, t, r);
    assert StreamOf(d) == StreamValue(r);
    assert Held(s.(rows := AddRow(s.rows, d), pendingCalls := Some(r.calls)), t, [d]) && Called([d]);
  }

  lemma ResumeKeeps(m: Machine, s: TurnState, w: World)
    requires Running(s) && WorldOk(w) && Spent(m)
    requires Once(m.(op := NoOp)) && AllWellFormed(m) && s.request !in m.completed
    ensures Inv(ResumeTools(m, s, w))
  {
    if m.exec.Some? {
      CloseToolsAdvances(m, s, w);
    } else {
      DriveKeeps(m, s, w.first);
      var driven := Drive(m, s, w.first);
      if driven.0.exec.value.finished && driven.0.toolEffect == None {
        CloseToolsAdvances(driven.0, driven.1, w);
      }
    }
  }

  /** The recorded reply says how its turn ends. */
  lemma RecordFits(s: TurnState, r: Reply)
    requires s.fsm.cancelled == None && (r.hasCalls ==> r.finish == None)
    ensures EndFits([SettleDraft(s, r)], ReasonValue(EndingOf(OrElse(r.finish, INCOMPLETE))))
  {
    var d := SettleDraft(s, r);
    assert StreamOf(d) == StreamValue(r);
    ReasonTells(EndingOf(OrElse(r.finish, INCOMPLETE)), Completed);
    if r.finish.Some? {
      assert Get(StreamOf(d), "finish") == Some(FinishValue(r.finish.value));
    }
  }

  /** The reply settles its step, and with it the turn. */
  lemma SettleAdvances(m: Machine, t: Story, r: Reply, w: World)
    requires Inv(m) && m.op.Call? && WorldOk(w) && Held(m.op.state, t, [])
    requires !(r.hasCalls && r.finish.Some? && m.op.state.fsm.cancelled == None)
    ensures Advanced(m.(op := NoOp), m.op.state, Settle(m.(op := NoOp), m.op.state, r, w))
  {
    var s := m.op.state;
    SettledHeld(s, t, r);
    if s.fsm.cancelled == None {
      RecordFits(s, r);
    }
    ReplyAdvances(m.(op := NoOp), s.(rows := AddRow(s.rows, SettleDraft(s, r))), t, [SettleDraft(s, r)],
                  OrElse(r.finish, INCOMPLETE),
                  r.hasCalls && s.fsm.cancelled == None, false, w.routable);
  }

  lemma SettleKeeps(m: Machine, r: Reply, w: World)
    requires Inv(m) && m.op.Call? && WorldOk(w)
    ensures var m' := Settle(m.(op := NoOp), m.op.state, r, w); Inv(m') && CancelHeeded(m, m')
  {
    var s := m.op.state;
    var t :| Held(s, t, []);
    if r.hasCalls && r.finish.Some? && s.fsm.cancelled == None {
      SettleWaits(m, t, r, w);
    } else {
      SettleAdvances(m, t, r, w);
    }
  }

  lemma AnswerCloses(m: Machine, w: World)
    requires Inv(m) && m.op.Tools? && WorldOk(w) && w.first.finished
    ensures var m' := AnswerTool(m.(op := NoOp, toolEffect := None), m.op.state, w); Inv(m') && CancelHeeded(m, m')
  {
    var s, taken := m.op.state, m.(op := NoOp, toolEffect := None);
    BatchKeeps(taken, s, w.first);
    var fed := AbsorbBatch(taken, s, w.first);
    CloseToolsAdvances(fed.0, fed.1, w);
  }

  lemma AnswerDrives(m: Machine, w: World)
    requires Inv(m) && m.op.Tools? && WorldOk(w) && !w.first.finished
    ensures var m' := AnswerTool(m.(op := NoOp, toolEffect := None), m.op.state, w); Inv(m') && CancelHeeded(m, m')
  {
    var s, taken := m.op.state, m.(op := NoOp, toolEffect := None);
    BatchKeeps(taken, s, w.first);
    var fed := AbsorbBatch(taken, s, w.first);
    DriveKeeps(fed.0, fed.1, w.second);
  }

  lemma AnswerToolKeeps(m: Machine, w: World)
    requires Inv(m) && m.op.Tools? && WorldOk(w)
    ensures var m' := AnswerTool(m.(op := NoOp, toolEffect := None), m.op.state, w); Inv(m') && CancelHeeded(m, m')
  {
    if w.first.finished {
      AnswerCloses(m, w);
    } else {
      AnswerDrives(m, w);
    }
  }

  lemma CancelKeeps(m: Machine, session: string)
    requires Inv(m)
    ensures Inv(CancelSession(m, session)) && CancelHeeded(m, CancelSession(m, session))
    ensures (m.op.Call? || m.op.Tools?) && m.op.state.session == session ==>
      var latched := m.op.state.(fsm := m.op.state.fsm.(cancelled := Some(User)));
      CancelSession(m, session).op == if m.op.Call? then m.op.(state := latched) else Tools(latched)
  {
    if (m.op.Call? || m.op.Tools?) && m.op.state.session == session {
      var s := m.op.state;
      var latched := s.(fsm := s.fsm.(cancelled := Some(User)));
      if m.op.Call? {
        var t :| Held(s, t, []);
        assert Held(latched, t, []);
      } else {
        var t, body :| Held(s, t, body) && Called(body);
        assert Held(latched, t, body);
      }
    }
  }

  lemma ScanSplice(rows: seq<LogRow>, message: Value)
    ensures ScanAll(Scan(0, None), Drafts(AddRow(rows, SpliceDraft(message)))) == ScanAll(Scan(0, None), Drafts(rows))
  {
    var more := Drafts(AddRow(rows, SpliceDraft(message)));
    assert more[..|more| - 1] == Drafts(rows);
  }

  /** The first step of an admitted turn, as `BeginTurn` and then `BeginStep` file it. */
  lemma FirstStepHeld(session: string, request: string, message: Value, rows: seq<LogRow>, messages: seq<Value>)
    returns (t: Story)
    requires ClosedLog(rows) && messages != []
    ensures t == Story(rows, SpliceDraft(message), [])
    ensures
      var begun := BeginTurn(IdleAfter(LastTurn(rows)), messages);
      var state :=
        TurnState(session, request, AddAll(AddRow(rows, SpliceDraft(message)), Rows(begun.1)), begun.0, |rows|, None);
      var entered := BeginStep(begun.0);
      Held(state.(fsm := entered.0, rows := AddAll(state.rows, Rows(entered.1))), t, [])
  {
    var splice := SpliceDraft(message);
    t := Story(rows, splice, []);
    var turn := TurnNo(t);
    var begun := BeginTurn(IdleAfter(LastTurn(rows)), messages);
    var entered := BeginStep(begun.0);
    RowsOf(begun.1);
    RowsOf(entered.1);
    assert Rows(begun.1) == [TurnStartRow(turn)] && Rows(entered.1) == [StepStartRow(turn, 1)];
    AddOne(rows, splice);
    AddAllConcat(rows, [splice], [TurnStartRow(turn)]);
    AddAllConcat(rows, [splice] + [TurnStartRow(turn)], [StepStartRow(turn, 1)]);
    assert [splice] + [TurnStartRow(turn)] + [StepStartRow(turn, 1)] == OpenLog(t, []);
  }

  /** The admitted message can be claimed from the log's inbox. */
  predicate Claimable(rows: seq<LogRow>, message: Value) {
    var inbox := InboxSpec.Fold(Drafts(AddRow(rows, SpliceDraft(message))));
    inbox.Ok? && InboxSpec.Claim(inbox.lists, InboxSpec.NextTurn).1 != []
  }

  /** A turn admitted from a closed log opens its first step and calls the model, or ends there, unroutable. */
  lemma StartOpens(m: Machine, session: string, request: string, message: Value, rows: seq<LogRow>, routable: bool)
    returns (t: Story, first: TurnState)
    requires ClosedLog(rows) && Claimable(rows, message)
    ensures t == Story(rows, SpliceDraft(message), []) && Held(first, t, [])
    ensures first.session == session && first.request == request && first.fsm.cancelled == None
    ensures
      var failed := StepReply(first.fsm, UNROUTABLE, false, false);
      StartTurn(m, session, request, message, rows, routable) ==
      if routable then OpenCall(m, first)
      else Finish(m, first.(fsm := failed.0, rows := AddAll(first.rows, Rows(failed.1))))
  {
    var admitted := AddRow(rows, SpliceDraft(message));
    var messages := InboxSpec.Claim(InboxSpec.Fold(Drafts(admitted)).lists, InboxSpec.NextTurn).1;
    ScanSplice(rows, message);
    t := FirstStepHeld(session, request, message, rows, messages);
    var begun := BeginTurn(IdleAfter(LastTurn(rows)), messages);
    var state := TurnState(session, request, AddAll(admitted, Rows(begun.1)), begun.0, |rows|, None);
    var entered := BeginStep(begun.0);
    first := state.(fsm := entered.0, rows := AddAll(state.rows, Rows(entered.1)));
    BegunContinues(m, TurnState(session, request, admitted, IdleAfter(LastTurn(rows)), |rows|, None), messages,
                   routable);
  }

  /** Beginning a turn from idle leads straight into its first step. */
  lemma BegunContinues(m: Machine, s: TurnState, messages: seq<Value>, routable: bool)
    requires s.fsm.phase.Idle? && s.fsm == IdleAfter(s.fsm.phase.lastTurn) && messages != []
    ensures
      var begun := BeginTurn(s.fsm, messages);
      var state := s.(fsm := begun.0, rows := AddAll(s.rows, Rows(begun.1)));
      var entered := BeginStep(begun.0);
      var first := state.(fsm := entered.0, rows := AddAll(state.rows, Rows(entered.1)));
      var failed := StepReply(first.fsm, UNROUTABLE, false, false);
      ContinueTurn(m, Absorb(s, begun, routable), routable) ==
      if routable then OpenCall(m, first)
      else Finish(m, first.(fsm := failed.0, rows := AddAll(first.rows, Rows(failed.1))))
  {
    var begun := BeginTurn(s.fsm, messages);
    var state := s.(fsm := begun.0, rows := AddAll(s.rows, Rows(begun.1)));
    assert Absorb(s, begun, routable) == (state, false);
    var entered := BeginStep(begun.0);
    assert entered.1[|entered.1| - 1].CallModel?;
  }

  lemma StartKeeps(m: Machine, session: string, request: string, message: Value, rows: seq<LogRow>, routable: bool)
    requires Once(m.(op := NoOp)) && Spent(m) && request !in m.completed
    requires AllWellFormed(m)
    requires ClosedLog(rows)
    ensures Inv(StartTurn(m, session, request, message, rows, routable))
  {
    if Claimable(rows, message) {
      var t, first := StartOpens(m, session, request, message, rows, routable);
      if !routable {
        UnroutableKeeps(m, first, t);
      }
    }
  }
}
