/** Runs of the turn driver: what they finish, when that is sound, and when a cancel is sure to be heeded. */
module TurnRuns {
  import opened Json
  import opened SessionLog
  import opened AgentLoopSpec
  import opened TurnSpec
  import opened TurnProofs
  import InboxSpec

  // ----- every event -----

  /** An event that takes a turn away from its running tools and leaves their executor behind. */
  predicate Strands(m: Machine, ev: Event, w: World) {
    m.op.Tools? && !Spent(m) && (Accepted(m, ev, w) || ev.Chunk?)
  }

  ghost predicate Lawful(m: Machine, ev: Event, w: World) {
    WorldOk(w) && !Strands(m, ev, w)
  }

  lemma CallAnswered(m: Machine, result: Result, w: World)
    requires Inv(m) && m.op.Call? && WorldOk(w)
    ensures var m' := OnAnswer(m, 0, result, w); Inv(m') && CancelHeeded(m, m')
  {
    var s := m.op.state;
    match result {
      case Http(reply) => SettleKeeps(m, reply, w);
      case HttpError(code, message) =>
        var t :| Held(s, t, []);
        FailTurnAdvances(m, s, t, code, message);
      case Failure(message) =>
        var t :| Held(s, t, []);
        FailTurnAdvances(m, s, t, "PROVIDER_UNREACHABLE", message);
      case OtherResult =>
    }
  }

  lemma AnswerKeeps(m: Machine, id: nat, result: Result, w: World)
    requires Inv(m) && WorldOk(w)
    ensures var m' := OnAnswer(m, id, result, w); Inv(m') && CancelHeeded(m, m')
  {
    match m.op {
      case Opening(session, request, message) =>
        if w.lookup.Found? {
          StartKeeps(m, session, request, message, w.lookup.rows, w.routable);
        }
      case Call(_, _) => CallAnswered(m, result, w);
      case Tools(_) =>
        if m.toolEffect == Some(id) {
          AnswerToolKeeps(m, w);
        }
      case _ =>
    }
  }

  /** Every other event keeps the machine in order. */
  lemma StepKeeps(m: Machine, ev: Event, w: World)
    requires Inv(m) && Lawful(m, ev, w)
    ensures Inv(Step(m, ev, w))
  {
    match ev {
      case RunCall(session, request, _, message) =>
        if Accepted(m, ev, w) && w.lookup.Found? {
          StartKeeps(m, session, request, message, w.lookup.rows, w.routable);
        }
      case CancelCall(session) => CancelKeeps(m, session);
      case Answer(id, result) => AnswerKeeps(m, id, result, w);
      case Chunk(_) =>
      case Verdict =>
        if m.op.Tools? {
          BatchKeeps(m.(op := NoOp), m.op.state, w.first);
        }
    }
  }

  // ----- every run -----

  function RunAll(m: Machine, evs: seq<(Event, World)>): Machine {
    if evs == [] then m
    else
      var n := |evs| - 1;
      Step(RunAll(m, evs[..n]), evs[n].0, evs[n].1)
  }

  lemma RunAllMore(m: Machine, evs: seq<(Event, World)>, e: (Event, World))
    ensures RunAll(m, evs + [e]) == Step(RunAll(m, evs), e.0, e.1)
  {
    assert (evs + [e])[..|evs|] == evs;
  }

  ghost predicate LawfulRun(m: Machine, evs: seq<(Event, World)>) {
    evs != [] ==>
      var n := |evs| - 1;
      LawfulRun(m, evs[..n]) && Lawful(RunAll(m, evs[..n]), evs[n].0, evs[n].1)
  }

  lemma {:induction false} RunKeeps(m: Machine, evs: seq<(Event, World)>)
    requires Inv(m) && LawfulRun(m, evs)
    ensures Inv(RunAll(m, evs))
  {
    if evs != [] {
      var n := |evs| - 1;
      RunKeeps(m, evs[..n]);
      StepKeeps(RunAll(m, evs[..n]), evs[n].0, evs[n].1);
    }
  }

  /** Whatever the model, the tools and the callers do without stranding an executor, everything ever finished is a
      complete turn on top of the log it started from, and no request is finished twice. */
  lemma RunsFinishTurns(evs: seq<(Event, World)>)
    requires LawfulRun(IDLE, evs)
    ensures Inv(RunAll(IDLE, evs)) && AllWellFormed(RunAll(IDLE, evs))
  {
    RunKeeps(IDLE, evs);
  }

  // ----- what is written -----

  /** The chosen write is the first turn ever finished, from whichever point on one looks. */
  ghost predicate FirstChosen(m: Machine) {
    m.chosen == if m.finished == [] then None else Some(m.finished[0])
  }

  /** No tool effect was issued with a kill key. */
  predicate Keyless(m: Machine) {
    forall i | 0 <= i < |m.keys| :: m.keys[i] == None
  }

  /** The held call is out under an effect that was issued. */
  predicate CallIssued(m: Machine) {
    m.op.Call? ==> m.op.effect < m.effects
  }

  /** Finished turns only come to the end of the list, the choice stands once it is made, no key is given, and no
      effect is issued twice. */
  ghost predicate Onward(m: Machine, m': Machine) {
    && m.finished <= m'.finished && m.effects <= m'.effects
    && (FirstChosen(m) ==> FirstChosen(m')) && (Keyless(m) ==> Keyless(m')) && (CallIssued(m) ==> CallIssued(m'))
  }

  /** A turn that has just been finished is waited for to be written exactly when nothing was chosen before it. */
  predicate Awaits(m: Machine, m': Machine) {
    if |m'.finished| > |m.finished| then
      |m'.finished| == |m.finished| + 1 && if m.chosen == None then m'.op.Publishing? else m'.op.NoOp?
    else m'.op.Publishing? ==> m.op.Publishing?
  }

  ghost predicate Forward(m: Machine, m': Machine) {
    Onward(m, m') && Awaits(m, m')
  }

  lemma FinishOnward(m: Machine, s: TurnState)
    ensures Forward(m, Finish(m, s))
  {
  }

  lemma ContinueOnward(m: Machine, r: (TurnState, bool), routable: bool)
    ensures Forward(m, ContinueTurn(m, r, routable))
  {
    FinishOnward(m, r.0);
    FinishOnward(m, Absorb(r.0, BeginStep(r.0.fsm), routable).0);
  }

  lemma ToolsOnward(m: Machine, s: TurnState, w: World)
    ensures Forward(m, CloseToolStep(m, s, w))
  {
    var inbox := InboxSpec.Fold(Drafts(s.rows));
    var more := inbox.Ok? && InboxSpec.Pending(inbox.lists) != [];
    ContinueOnward(m.(exec := None, toolEffect := None),
                   Absorb(s.(pendingCalls := None), StepReply(s.fsm, Replied, true, more), w.routable), w.routable);
  }

  /** The operation has been taken by then, and so names no session. */
  lemma BatchOnward(m: Machine, s: TurnState, b: Batch)
    requires m.exec.Some? && !m.op.Tools?
    ensures Forward(m, AbsorbBatch(m, s, b).0)
  {
  }

  lemma DriveOnward(m: Machine, s: TurnState, b: Batch)
    requires !m.op.Tools?
    ensures Forward(m, Drive(m, s, b).0)
  {
    var at := Position(s.fsm);
    var started := if m.exec == None then m.(exec := Some(Exec(at.0, at.1, OrElse(s.pendingCalls, 0) == 0))) else m;
    BatchOnward(started, s, b);
  }

  lemma ResumeOnward(m: Machine, s: TurnState, w: World)
    requires !m.op.Tools?
    ensures Forward(m, ResumeTools(m, s, w))
  {
    var driven := Drive(m, s, w.first);
    DriveOnward(m, s, w.first);
    ToolsOnward(m, s, w);
    ToolsOnward(driven.0, driven.1, w);
  }

  lemma CallOnward(m: Machine, s: TurnState, r: Reply, w: World)
    requires !m.op.Tools?
    ensures Forward(m, Settle(m, s, r, w))
  {
    var settled := s.(rows := AddRow(s.rows, SettleDraft(s, r)));
    if r.hasCalls && r.finish.Some? && s.fsm.cancelled == None {
      ResumeOnward(m, settled.(pendingCalls := Some(r.calls)), w);
    } else {
      var next := StepReply(s.fsm, OrElse(r.finish, INCOMPLETE), r.hasCalls && s.fsm.cancelled == None, false);
      ContinueOnward(m, Absorb(settled, next, w.routable), w.routable);
    }
  }

  lemma OpenOnward(m: Machine, session: string, request: string, message: Value, w: World)
    ensures Forward(m, Open(m, session, request, message, w))
  {
    if w.lookup.Found? && Claimable(w.lookup.rows, message) {
      var admitted := AddRow(w.lookup.rows, SpliceDraft(message));
      var messages := InboxSpec.Claim(InboxSpec.Fold(Drafts(admitted)).lists, InboxSpec.NextTurn).1;
      var fsm := Resumed(ScanAll(Scan(0, None), Drafts(admitted)));
      var state := TurnState(session, request, admitted, fsm, |w.lookup.rows|, None);
      ContinueOnward(m, Absorb(state, BeginTurn(fsm, messages), w.routable), w.routable);
    }
  }

  lemma ReplyOnward(m: Machine, id: nat, result: Result, w: World)
    requires m.op.Call?
    ensures Forward(m, OnAnswer(m, id, result, w))
  {
    var s := m.op.state;
    match result {
      case Http(reply) => CallOnward(m.(op := NoOp), s, reply, w);
      case HttpError(code, message) => FailOnward(m, s, code, message);
      case Failure(message) => FailOnward(m, s, "PROVIDER_UNREACHABLE", message);
      case OtherResult =>
    }
  }

  lemma AnswerOnward(m: Machine, id: nat, result: Result, w: World)
    ensures Forward(m, OnAnswer(m, id, result, w))
  {
    match m.op {
      case Opening(session, request, message) => OpenOnward(m, session, request, message, w);
      case Call(_, _) => ReplyOnward(m, id, result, w);
      case Tools(s) =>
        ToolAnswerOnward(m.(op := NoOp, toolEffect := None), s, w);
      case _ =>
    }
  }

  lemma ToolAnswerOnward(m: Machine, s: TurnState, w: World)
    requires m.op.NoOp?
    ensures Forward(m, AnswerTool(m, s, w))
  {
    var fed := if m.exec.Some? then AbsorbBatch(m, s, w.first) else (m, s);
    if m.exec.Some? {
      BatchOnward(m, s, w.first);
    }
    ToolsOnward(fed.0, fed.1, w);
    DriveOnward(fed.0, fed.1, w.second);
  }

  lemma FailOnward(m: Machine, s: TurnState, code: string, message: string)
    ensures Forward(m, FailTurn(m, s, code, message))
  {
    FinishOnward(m.(op := NoOp), Absorb(s, StepReply(s.fsm, Failed(code, message), false, false), false).0);
  }

  lemma StepOnward(m: Machine, ev: Event, w: World)
    ensures Forward(m, Step(m, ev, w))
  {
    match ev {
      case RunCall(session, request, _, message) => OpenOnward(m, session, request, message, w);
      case CancelCall(_) =>
        if m.op.Call? {
          FinishOnward(m.(op := NoOp), Absorb(m.op.state, CancelTurn(m.op.state.fsm, User), false).0);
        }
      case Answer(id, result) => AnswerOnward(m, id, result, w);
      case Verdict =>
        if m.op.Tools? && m.exec.Some? {
          BatchOnward(m.(op := NoOp), m.op.state, w.first);
        }
      case _ =>
    }
  }

  lemma {:induction false} RunOnward(m: Machine, evs: seq<(Event, World)>)
    ensures Onward(m, RunAll(m, evs))
  {
    if evs != [] {
      var n := |evs| - 1;
      RunOnward(m, evs[..n]);
      StepOnward(RunAll(m, evs[..n]), evs[n].0, evs[n].1);
    }
  }

  /** In every run whatsoever only the first finished turn is written; each later one is answered as accepted, and
      its rows are nowhere. */
  lemma OnlyFirstIsWritten(evs: seq<(Event, World)>)
    ensures FirstChosen(RunAll(IDLE, evs))
  {
    RunOnward(IDLE, evs);
  }

  /** And a write is waited for from the step that finishes the first turn on, and for no other. */
  lemma FirstIsAwaitedIff(evs: seq<(Event, World)>, ev: Event, w: World)
    ensures
      var m, m' := RunAll(IDLE, evs), Step(RunAll(IDLE, evs), ev, w);
      && |m'.finished| <= |m.finished| + 1
      && (|m'.finished| > |m.finished| ==> (m'.op.Publishing? <==> m.finished == []))
      && (m'.finished == m.finished && m'.op.Publishing? ==> m.op.Publishing?)
  {
    RunOnward(IDLE, evs);
    StepOnward(RunAll(IDLE, evs), ev, w);
  }

  /** In every run whatsoever no tool effect names a session to be stopped by: whoever issues it has taken the
      operation the name is read from. */
  lemma NoEffectIsKeyed(evs: seq<(Event, World)>)
    ensures Keyless(RunAll(IDLE, evs))
  {
    RunOnward(IDLE, evs);
  }

  // ----- whose answer it is -----

  /** While a model call is out, an answer is taken for its own whatever effect it answers. */
  lemma AnswerIdIgnored(m: Machine, id: nat, other: nat, result: Result, w: World)
    requires m.op.Call?
    ensures Step(m, Answer(id, result), w) == Step(m, Answer(other, result), w)
  {
  }

  /** After any run, with a model call out: a further call puts another turn's model call in its place exactly when it
      is taken on, its log is there with its message to be claimed, and a provider can serve it.  The answer that was
      owed to the first call is then settled as the second one's. */
  lemma ReplacedCallAnswersIff(evs: seq<(Event, World)>, ev: Event, w: World, result: Result, w': World)
    requires RunAll(IDLE, evs).op.Call? && ev.RunCall? && WorldOk(w)
    ensures
      var m, next := RunAll(IDLE, evs), Step(RunAll(IDLE, evs), ev, w);
      && (next.op.Call? && next.op.effect != m.op.effect
          <==> Accepted(m, ev, w) && w.lookup.Found? && Claimable(w.lookup.rows, ev.message) && w.routable)
      && (next.op.Call? && next.op.effect != m.op.effect ==>
            && next.op.state.session == ev.session && next.op.state.request == ev.request
            && Step(next, Answer(m.op.effect, result), w') == Step(next, Answer(next.op.effect, result), w'))
  {
    var m := RunAll(IDLE, evs);
    RunOnward(IDLE, evs);
    CallReplaces(m, ev, w);
    var next := Step(m, ev, w);
    if next.op.Call? {
      AnswerIdIgnored(next, m.op.effect, next.op.effect, result, w');
    }
  }

  lemma CallReplaces(m: Machine, ev: Event, w: World)
    requires m.op.Call? && m.op.effect < m.effects && ev.RunCall? && WorldOk(w)
    ensures
      var next := Step(m, ev, w);
      && (next.op.Call? && next.op.effect != m.op.effect
          <==> Accepted(m, ev, w) && w.lookup.Found? && Claimable(w.lookup.rows, ev.message) && w.routable)
      && (next.op.Call? && next.op.effect != m.op.effect ==>
            next.op.state.session == ev.session && next.op.state.request == ev.request)
  {
    if Accepted(m, ev, w) && w.lookup.Found? && Claimable(w.lookup.rows, ev.message) {
      var t, first := StartOpens(m, ev.session, ev.request, ev.message, w.lookup.rows, w.routable);
    }
  }

  // ----- a finished log is a log to start from -----

  lemma {:induction false} ScanBody(s: Scan, turn: nat, step: nat, body: seq<Draft>)
    requires BodyOk(turn, step, body)
    ensures ScanAll(s, body) == s
  {
    if body != [] {
      ScanBody(s, turn, step, body[..|body| - 1]);
      assert body[|body| - 1].kind in TOOL_KINDS + {AssistantMessage, AssistantAttempt};
    }
  }

  lemma ScanStepLog(s: Scan, turn: nat, n: nat, body: seq<Draft>)
    requires n > 0 && s.open == Some((turn, n - 1)) && BodyOk(turn, n, body)
    ensures ScanAll(s, [StepStartRow(turn, n)] + body + [StepEndRow(turn, n)]) == s.(open := Some((turn, n)))
  {
    var entered := s.(open := Some((turn, n)));
    ScanConcat(s, [StepStartRow(turn, n)] + body, [StepEndRow(turn, n)]);
    ScanConcat(s, [StepStartRow(turn, n)], body);
    ScanOne(s, StepStartRow(turn, n));
    ScanBody(entered, turn, n, body);
    ScanOne(entered, StepEndRow(turn, n));
  }

  lemma {:induction false} ScanStepsLog(s: Scan, turn: nat, bodies: seq<seq<Draft>>)
    requires s.open == Some((turn, 0)) && BodiesOk(turn, bodies)
    ensures ScanAll(s, StepsLog(turn, bodies)) == s.(open := Some((turn, |bodies|)))
  {
    if bodies != [] {
      var n := |bodies|;
      ScanStepsLog(s, turn, bodies[..n - 1]);
      assert BodyOk(turn, n, bodies[n - 1]);
      ScanConcat(s, StepsLog(turn, bodies[..n - 1]), [StepStartRow(turn, n)] + bodies[n - 1] + [StepEndRow(turn, n)]);
      ScanStepLog(s.(open := Some((turn, n - 1))), turn, n, bodies[n - 1]);
    }
  }

  /** Finished rows extend the log they started from, stay dense, close their turn, and so
      serve as the next log: its turn is the next number. */
  lemma FinishedLogIsClosed(g: Generation)
    requires WellFormed(g)
    ensures g.openedWith < |g.rows| && ClosedLog(g.rows)
    ensures ClosedLog(g.rows[..g.openedWith]) && LastTurn(g.rows) == LastTurn(g.rows[..g.openedWith]) + 1
  {
    var t, reason :| Tells(g, t, reason);
    var turn := TurnNo(t);
    var log := TurnLog(t.splice, turn, t.bodies, reason);
    AddAllPlaces(t.base, log);
    assert g.rows[..g.openedWith] == t.base;
    var s := Scan(LastTurn(t.base), None);
    ScanConcat(Scan(0, None), Drafts(t.base), log);
    var opening, steps, ending := [t.splice, TurnStartRow(turn)], StepsLog(turn, t.bodies), [TurnEndRow(turn, reason)];
    ScanConcat(s, opening + steps, ending);
    ScanConcat(s, opening, steps);
    ScanTwo(s, t.splice, TurnStartRow(turn));
    ScanStepsLog(s.(open := Some((turn, 0))), turn, t.bodies);
    ScanOne(s.(open := Some((turn, |t.bodies|))), TurnEndRow(turn, reason));
  }

  // ----- cancelling -----

  /** A cancel for the session of the held turn is latched on it. */
  lemma CancelLatches(m: Machine, session: string)
    requires Inv(m) && (m.op.Call? || m.op.Tools?) && m.op.state.session == session && session != ""
    ensures Cancelling(CancelSession(m, session)) && CancelSession(m, session).finished == m.finished
  {
    CancelKeeps(m, session);
  }

  /** An event that takes the held turn out of the machine's hands: a new call, a verdict while a model call is out,
      or a chunk while tools are running. */
  predicate Hinders(m: Machine, ev: Event, w: World) {
    Accepted(m, ev, w) || (ev.Verdict? && m.op.Call?) || (ev.Chunk? && m.op.Tools?)
  }

  /** A new call never looks like the cancelled turn: what it opens is not cancelled. */
  lemma NewCallForgets(m: Machine, ev: Event, w: World)
    requires Inv(m) && Cancelling(m) && WorldOk(w) && Accepted(m, ev, w)
    ensures !CancelHeeded(m, Step(m, ev, w))
  {
    if w.lookup.Found? && Claimable(w.lookup.rows, ev.message) {
      var rows := w.lookup.rows;
      var t, first := StartOpens(m, ev.session, ev.request, ev.message, rows, w.routable);
      if !w.routable {
        UnroutableEnds(m, first, t);
      }
    }
  }

  /** An unroutable turn's last row says so, and not that it was aborted. */
  lemma UnroutableEnds(m: Machine, s: TurnState, t: Story)
    requires Held(s, t, []) && s.fsm.cancelled == None
    ensures
      var failed := StepReply(s.fsm, UNROUTABLE, false, false);
      !AbortedNow(m, Finish(m, s.(fsm := failed.0, rows := AddAll(s.rows, Rows(failed.1)))), User)
  {
    FailureTells(s, t, [], UNROUTABLE);
    var failed := StepReply(s.fsm, UNROUTABLE, false, false);
    RowsOf(failed.1);
    var reason := ReasonValue(Error(UNROUTABLE.code, UNROUTABLE.message));
    assert Rows(failed.1) == [StepEndRow(TurnNo(t), |t.bodies| + 1), TurnEndRow(TurnNo(t), reason)];
    AddAllPlaces(s.rows, Rows(failed.1));
    var rows := AddAll(s.rows, Rows(failed.1));
    assert rows[|rows| - 1].draft == Drafts(rows)[|rows| - 1];
    assert reason != ReasonValue(Aborted(User)) by {
      assert Get(reason, "kind") != Get(ReasonValue(Aborted(User)), "kind");
    }
  }

  lemma VerdictHeeded(m: Machine, w: World)
    requires Inv(m) && Cancelling(m) && WorldOk(w)
    ensures CancelHeeded(m, OnVerdict(m, w.first)) <==> m.op.Tools?
  {
    if m.op.Tools? {
      BatchKeeps(m.(op := NoOp), m.op.state, w.first);
    }
  }

  /** A latched cancel is heeded by an event, which keeps the turn at its step with no new call or finishes it as
      aborted, exactly when the event does not take the turn away. */
  lemma CancelHeededIff(m: Machine, ev: Event, w: World)
    requires Inv(m) && Cancelling(m) && WorldOk(w)
    ensures CancelHeeded(m, Step(m, ev, w)) <==> !Hinders(m, ev, w)
  {
    match ev {
      case RunCall(_, _, _, _) =>
        if Accepted(m, ev, w) {
          NewCallForgets(m, ev, w);
        }
      case CancelCall(session) => CancelKeeps(m, session);
      case Answer(id, result) => AnswerKeeps(m, id, result, w);
      case Chunk(_) =>
      case Verdict => VerdictHeeded(m, w);
    }
  }

  ghost predicate Unhindered(m: Machine, evs: seq<(Event, World)>) {
    evs != [] ==>
      var n := |evs| - 1;
      && Unhindered(m, evs[..n]) && WorldOk(evs[n].1)
      && !Hinders(RunAll(m, evs[..n]), evs[n].0, evs[n].1)
  }

  /** While nothing takes the turn away, it makes no further model call and can only end aborted. */
  lemma {:induction false} CancelWins(m: Machine, evs: seq<(Event, World)>)
    requires Inv(m) && Cancelling(m) && Unhindered(m, evs)
    ensures Inv(RunAll(m, evs))
    ensures StillCancelling(m, RunAll(m, evs)) || CancelDone(m, RunAll(m, evs))
  {
    if evs != [] {
      var n := |evs| - 1;
      CancelWins(m, evs[..n]);
      CancelWinsOn(m, RunAll(m, evs[..n]), evs[n].0, evs[n].1);
    }
  }

  lemma CancelWinsOn(m: Machine, before: Machine, ev: Event, w: World)
    requires Inv(before) && WorldOk(w) && !Hinders(before, ev, w)
    requires StillCancelling(m, before) || CancelDone(m, before)
    ensures Inv(Step(before, ev, w))
    ensures StillCancelling(m, Step(before, ev, w)) || CancelDone(m, Step(before, ev, w))
  {
    StepKeeps(before, ev, w);
    if StillCancelling(m, before) {
      CancelHeededIff(before, ev, w);
    } else {
      EndedStays(before, ev, w);
    }
  }

  /** With nothing held, only a new call does anything. */
  lemma EndedStays(m: Machine, ev: Event, w: World)
    requires Ended(m) && !Accepted(m, ev, w)
    ensures Step(m, ev, w) == m || Step(m, ev, w) == m.(op := NoOp)
  {
  }

  /** The cancelled turn has been finished as aborted, and nothing is in flight since. */
  ghost predicate CancelDone(m: Machine, m': Machine) {
    Ended(m') && AbortedNow(m, m', User)
  }

  ghost predicate NoneAccepted(m: Machine, evs: seq<(Event, World)>) {
    evs != [] ==>
      var n := |evs| - 1;
      NoneAccepted(m, evs[..n]) && !Accepted(RunAll(m, evs[..n]), evs[n].0, evs[n].1)
  }

  lemma {:induction false} IdleStaysIdle(m: Machine, evs: seq<(Event, World)>)
    requires m.op.NoOp? && NoneAccepted(m, evs)
    ensures RunAll(m, evs) == m
  {
    if evs != [] {
      IdleStaysIdle(m, evs[..|evs| - 1]);
    }
  }

  /** A verdict that comes while a model call is out, or a chunk that comes while tools run, loses the held turn: it
      is not finished then, and nothing but a new call moves the machine again. */
  lemma StrayInputLosesTurn(m: Machine, ev: Event, w: World, evs: seq<(Event, World)>)
    requires (ev.Verdict? && m.op.Call?) || (ev.Chunk? && m.op.Tools?)
    requires NoneAccepted(Step(m, ev, w), evs)
    ensures Step(m, ev, w) == m.(op := NoOp) && RunAll(Step(m, ev, w), evs) == m.(op := NoOp)
  {
    IdleStaysIdle(Step(m, ev, w), evs);
  }
}
