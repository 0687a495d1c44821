/** What one answer, one call or one cancel does to a turn: how it ends, when its tools run and when they are over. */
module TurnAnswers {
  import opened Json
  import opened SessionLog
  import opened AgentLoopSpec
  import opened TurnSpec
  import opened TurnProofs
  import opened TurnRuns
  import InboxSpec

  // ----- how a turn ends -----

  /** The reason in the last row, when that row ends a turn. */
  function LastReason(rows: seq<LogRow>): Option<Value> {
    if rows != [] && rows[|rows| - 1].draft.kind == TurnEnd then Get(rows[|rows| - 1].draft.data, "reason") else None
  }

  /** The held turn was finished just now, and its last row gives this reason. */
  predicate EndedWith(m: Machine, m': Machine, reason: Value)
    requires m.op.Call? || m.op.Tools?
  {
    var s := m.op.state;
    && Ended(m') && |m'.finished| == |m.finished| + 1 && m'.finished[..|m.finished|] == m.finished
    && var g := m'.finished[|m.finished|];
       g.session == s.session && g.request == s.request && g.openedWith == s.openedWith && s.rows <= g.rows
       && LastReason(g.rows) == Some(reason)
  }

  function ErrorReason(code: string, message: string): Value {
    Obj(map["kind" := Str("error"), "error" := Obj(map["code" := Str(code), "message" := Str(message)])])
  }

  /** The reason a reply that runs no tools gives its turn. */
  function ReplyReason(r: Reply): Value {
    match r.finish
    case None => ErrorReason("PROVIDER_STREAM_INCOMPLETE", "provider stream ended without a finish chunk")
    case Some(Replied) => Obj(map["kind" := Str("completed")])
    case Some(HitCeiling) => Obj(map["kind" := Str("max-tokens")])
    case Some(Failed(code, message)) => ErrorReason(code, message)
  }

  lemma ErrorReasonIs(code: string, message: string)
    ensures ErrorReason(code, message) == ReasonValue(Error(code, message))
  {
    assert map["code" := Str(code), "message" := Str(message)] == map["message" := Str(message), "code" := Str(code)];
  }

  lemma ReplyReasonIs(r: Reply)
    ensures ReplyReason(r) == ReasonValue(EndingOf(OrElse(r.finish, INCOMPLETE)))
  {
    var outcome := OrElse(r.finish, INCOMPLETE);
    if outcome.Failed? {
      ErrorReasonIs(outcome.code, outcome.message);
    }
  }

  lemma LastRowEnds(rows: seq<LogRow>, step: Draft, turn: nat, reason: Value)
    ensures
      var all := AddAll(rows, [step, TurnEndRow(turn, reason)]);
      rows <= all && LastReason(all) == Some(reason)
  {
    var drafts := [step, TurnEndRow(turn, reason)];
    AddAllPlaces(rows, drafts);
    var all := AddAll(rows, drafts);
    assert all[|all| - 1].draft == Drafts(all)[|all| - 1] == drafts[1];
  }

  /** A reply that ends its turn, filed behind `more` rows. */
  lemma ReplyFinishes(m: Machine, s: TurnState, outcome: StepOutcome, calls: bool, routable: bool)
    requires s.fsm.phase.Running? && s.fsm.stepOpen && s.fsm.cancelled == None && !s.fsm.sawMaxTokens
    requires outcome.Failed? || !calls
    ensures
      var next := StepReply(s.fsm, outcome, calls, false);
      var m' := ContinueTurn(m, Absorb(s, next, routable), routable);
      && Ended(m') && |m'.finished| == |m.finished| + 1 && m'.finished[..|m.finished|] == m.finished
      && var g := m'.finished[|m.finished|];
         g.session == s.session && g.request == s.request && g.openedWith == s.openedWith && s.rows <= g.rows
         && LastReason(g.rows) == Some(ReasonValue(EndingOf(outcome)))
  {
    var next := StepReply(s.fsm, outcome, calls, false);
    TurnOverIff(s.fsm, AgentLoopSpec.Reply(outcome, calls, false));
    EndedTurnFinishes(m, s, next, routable);
    EndRows(s, outcome, calls);
  }

  lemma EndRows(s: TurnState, outcome: StepOutcome, calls: bool)
    requires s.fsm.phase.Running? && s.fsm.stepOpen && s.fsm.cancelled == None && !s.fsm.sawMaxTokens
    requires outcome.Failed? || !calls
    ensures
      var rows := AddAll(s.rows, Rows(StepReply(s.fsm, outcome, calls, false).1));
      s.rows <= rows && LastReason(rows) == Some(ReasonValue(EndingOf(outcome)))
  {
    var outs := StepReply(s.fsm, outcome, calls, false).1;
    RowsOf(outs);
    var end, last :=
      StepEndRow(s.fsm.phase.turn, s.fsm.phase.step), TurnEndRow(s.fsm.phase.turn, ReasonValue(EndingOf(outcome)));
    assert Rows(outs) == [end, last];
    LastRowEnds(s.rows, end, s.fsm.phase.turn, ReasonValue(EndingOf(outcome)));
  }

  lemma FailFinishes(m: Machine, code: string, message: string)
    requires Inv(m) && m.op.Call? && m.op.state.fsm.cancelled == None
    ensures EndedWith(m, FailTurn(m, m.op.state, code, message), ErrorReason(code, message))
  {
    var s := m.op.state;
    var t :| Held(s, t, []);
    EndRows(s, Failed(code, message), false);
    ErrorReasonIs(code, message);
  }

  /** An answer to a call that is not cancelled, but for a finished reply with calls, ends the turn, and with the
      reason it deserves: the reply's own, or an error that names what went wrong. */
  lemma AnswerEndsTurn(m: Machine, id: nat, result: Result, w: World)
    requires Inv(m) && m.op.Call? && m.op.state.fsm.cancelled == None
    ensures
      var m' := Step(m, Answer(id, result), w);
      match result
      case OtherResult => m' == m
      case HttpError(code, message) => EndedWith(m, m', ErrorReason(code, message))
      case Failure(message) => EndedWith(m, m', ErrorReason("PROVIDER_UNREACHABLE", message))
      case Http(r) => !(r.hasCalls && r.finish.Some?) ==> EndedWith(m, m', ReplyReason(r))
  {
    match result {
      case OtherResult =>
      case HttpError(code, message) => FailFinishes(m, code, message);
      case Failure(message) => FailFinishes(m, "PROVIDER_UNREACHABLE", message);
      case Http(r) =>
        if !(r.hasCalls && r.finish.Some?) {
          PlainReplyEnds(m, r, w);
        }
    }
  }

  lemma PlainReplyEnds(m: Machine, r: Reply, w: World)
    requires Inv(m) && m.op.Call? && m.op.state.fsm.cancelled == None && !(r.hasCalls && r.finish.Some?)
    ensures EndedWith(m, Settle(m.(op := NoOp), m.op.state, r, w), ReplyReason(r))
  {
    var s := m.op.state;
    var t :| Held(s, t, []);
    ReplyReasonIs(r);
    ReplyFinishes(m.(op := NoOp), s.(rows := AddRow(s.rows, SettleDraft(s, r))), OrElse(r.finish, INCOMPLETE),
                  r.hasCalls, w.routable);
  }

  /** Under a latched cancel the reply is filed as what it is: a message marked as interrupted when anything but calls
      came through, and a mere attempt otherwise. */
  lemma InterruptedIsMarked(m: Machine, id: nat, r: Reply, w: World)
    requires Inv(m) && Cancelling(m) && m.op.Call? && WorldOk(w)
    ensures
      var m' := Step(m, Answer(id, Http(r)), w);
      && |m'.finished| > |m.finished|
      && var rows, i := m'.finished[|m.finished|].rows, |m.op.state.rows|;
         var visible := exists k | 0 <= k < |r.parts| :: r.parts[k].Prose?;
         && i < |rows| && (Interrupted(rows[i].draft) <==> visible)
         && rows[i].draft.kind == if visible then AssistantMessage else AssistantAttempt
  {
    var s := m.op.state;
    var d := SettleDraft(s, r);
    CallStepIsOpen(m);
    DraftMarked(s, r);
    var next := StepReply(s.fsm, OrElse(r.finish, INCOMPLETE), false, false);
    InterruptedSettles(m.(op := NoOp), s, r, w);
    FiledRowStays(s.rows, d, Rows(next.1));
  }

  lemma CallStepIsOpen(m: Machine)
    requires Inv(m) && m.op.Call?
    ensures m.op.state.fsm.phase.Running? && m.op.state.fsm.stepOpen
  {
    var t :| Held(m.op.state, t, []);
  }

  lemma DraftMarked(s: TurnState, r: Reply)
    requires s.fsm.cancelled.Some?
    ensures
      var visible := exists k | 0 <= k < |r.parts| :: r.parts[k].Prose?;
      var d := SettleDraft(s, r);
      (Interrupted(d) <==> visible) && d.kind == if visible then AssistantMessage else AssistantAttempt
  {
    ProsaicIff(r.parts);
  }

  lemma InterruptedSettles(m: Machine, s: TurnState, r: Reply, w: World)
    requires s.fsm.cancelled.Some? && s.fsm.phase.Running? && s.fsm.stepOpen
    ensures
      var next := StepReply(s.fsm, OrElse(r.finish, INCOMPLETE), false, false);
      var filed := s.(rows := AddRow(s.rows, SettleDraft(s, r)));
      Settle(m, s, r, w) == Finish(m, filed.(fsm := next.0, rows := AddAll(filed.rows, Rows(next.1))))
  {
    var next := StepReply(s.fsm, OrElse(r.finish, INCOMPLETE), false, false);
    EndedTurnFinishes(m, s.(rows := AddRow(s.rows, SettleDraft(s, r))), next, w.routable);
  }

  lemma FiledRowStays(rows: seq<LogRow>, d: Draft, more: seq<Draft>)
    ensures
      var all := AddAll(AddRow(rows, d), more);
      |all| > |rows| && all[|rows|].draft == d
  {
    AddAllPlaces(AddRow(rows, d), more);
    var all := AddAll(AddRow(rows, d), more);
    assert all[|rows|] == all[..|rows| + 1][|rows|] == AddRow(rows, d)[|rows|];
  }

  lemma {:induction false} ProsaicIff(parts: seq<Part>)
    ensures Prosaic(parts) != [] <==> exists k | 0 <= k < |parts| :: parts[k].Prose?
  {
    if parts != [] {
      ProsaicIff(parts[1..]);
      assert forall k | 0 < k < |parts| :: parts[k] == parts[1..][k - 1];
    }
  }

  // ----- when tools run -----

  /** A finished reply with calls has its tools run: the turn waits for them exactly when there is something to wait
      for, and is never finished as completed by the reply itself. */
  lemma CallsAreRunIff(m: Machine, id: nat, r: Reply, w: World)
    requires Inv(m) && m.op.Call? && m.op.state.fsm.cancelled == None && r.hasCalls && r.finish.Some?
    ensures
      var m' := Step(m, Answer(id, Http(r)), w);
      && (m'.op.Tools? <==> m.exec == None && !(m.toolEffect == None
                            && (r.calls == 0 || (w.first.finished && w.first.effects == 0))))
      && (m'.op.Tools? ==> m'.op.state.session == m.op.state.session && m'.op.state.request == m.op.state.request
                           && m'.finished == m.finished)
  {
    var s := m.op.state;
    var waiting := s.(rows := AddRow(s.rows, SettleDraft(s, r)), pendingCalls := Some(r.calls));
    ResumeWaitsIff(m.(op := NoOp), waiting, w);
  }

  lemma ResumeWaitsIff(m: Machine, s: TurnState, w: World)
    requires Spent(m) && !m.op.Tools?
    ensures
      var m' := ResumeTools(m, s, w);
      && (m'.op.Tools? <==> m.exec == None && !(m.toolEffect == None
                            && (OrElse(s.pendingCalls, 0) == 0 || (w.first.finished && w.first.effects == 0))))
      && (m'.op.Tools? ==> m'.op.state.session == s.session && m'.op.state.request == s.request
                           && m'.finished == m.finished)
  {
    var driven := Drive(m, s, w.first);
    CloseIsNotTools(m, s, w);
    CloseIsNotTools(driven.0, driven.1, w);
  }

  lemma CloseIsNotTools(m: Machine, s: TurnState, w: World)
    ensures var m' := CloseToolStep(m, s, w); m'.op.Call? || Ended(m')
  {
    var inbox := InboxSpec.Fold(Drafts(s.rows));
    var more := inbox.Ok? && InboxSpec.Pending(inbox.lists) != [];
    var next := StepReply(s.fsm, Replied, true, more);
    ContinueIsNotTools(m.(exec := None, toolEffect := None), Absorb(s.(pendingCalls := None), next, w.routable),
                       w.routable);
  }

  lemma ContinueIsNotTools(m: Machine, r: (TurnState, bool), routable: bool)
    ensures var m' := ContinueTurn(m, r, routable); m'.op.Call? || Ended(m')
  {
  }

  /** While tools run only the answer to their outstanding effect is taken, and the step is closed by it exactly when
      the executor then has nothing more to do. */
  lemma ToolsOverIff(m: Machine, id: nat, result: Result, w: World)
    requires Inv(m) && m.op.Tools?
    ensures
      var m' := Step(m, Answer(id, result), w);
      && (m.toolEffect != Some(id) ==> m' == m)
      && (m.toolEffect == Some(id) ==> (m'.op.Tools? <==> !w.first.finished))
  {
    if m.toolEffect == Some(id) {
      var taken := m.(op := NoOp, toolEffect := None);
      var fed := AbsorbBatch(taken, m.op.state, w.first);
      CloseIsNotTools(fed.0, fed.1, w);
    }
  }

  /** An uncancelled step that is closed after its tools is followed by the next one: a model call, or a turn that ends
      because nobody can take it. */
  lemma ClosedStepGoesOn(m: Machine, s: TurnState, w: World)
    requires Inv(m) && m.op.Tools? && m.op.state.fsm.cancelled == None && s == m.op.state
    ensures
      var m' := CloseToolStep(m.(op := NoOp), s, w);
      if w.routable then
        && m'.op.Call? && m'.finished == m.finished
        && Position(m'.op.state.fsm) == (s.fsm.phase.turn, s.fsm.phase.step + 1)
        && m'.op.state.request == s.request && m'.op.state.session == s.session && m'.exec == None
      else EndedWith(m, m', ErrorReason("PROVIDER_UNROUTABLE", "no configured provider can serve this request"))
  {
    var t, body :| Held(s, t, body) && Called(body);
    var inbox := InboxSpec.Fold(Drafts(s.rows));
    ReplyCallsNext(m.(op := NoOp, exec := None, toolEffect := None), s.(pendingCalls := None),
                   inbox.Ok? && InboxSpec.Pending(inbox.lists) != [], w.routable);
  }

  lemma ReplyCallsNext(m: Machine, s: TurnState, more: bool, routable: bool)
    requires s.fsm.phase.Running? && s.fsm.stepOpen && s.fsm.cancelled == None && !s.fsm.sawMaxTokens
    ensures
      var m' := ContinueTurn(m, Absorb(s, StepReply(s.fsm, Replied, true, more), routable), routable);
      if routable then
        && m'.op.Call? && m'.finished == m.finished
        && Position(m'.op.state.fsm) == (s.fsm.phase.turn, s.fsm.phase.step + 1)
        && m'.op.state.request == s.request && m'.op.state.session == s.session && m'.exec == m.exec
      else
        && Ended(m') && |m'.finished| == |m.finished| + 1 && m'.finished[..|m.finished|] == m.finished
        && var g := m'.finished[|m.finished|];
           g.session == s.session && g.request == s.request && g.openedWith == s.openedWith && s.rows <= g.rows
           && LastReason(g.rows) ==
              Some(ErrorReason("PROVIDER_UNROUTABLE", "no configured provider can serve this request"))
  {
    var next := StepReply(s.fsm, Replied, true, more);
    ModelCalledIff(s.fsm, AgentLoopSpec.Reply(Replied, true, more));
    if !routable {
      var going := s.(fsm := next.0, rows := AddAll(s.rows, Rows(next.1)));
      AddAllPlaces(s.rows, Rows(next.1));
      EndRows(going, UNROUTABLE, false);
      ErrorReasonIs(UNROUTABLE.code, UNROUTABLE.message);
    }
  }

  // ----- calls, cancels and writes -----

  /** What a lookup comes to: the turn is open on the log that was found, with its model call out, or over because
      nobody can take the call; or it waits for its log; or it is dropped. */
  predicate LookedUp(m: Machine, m': Machine, session: string, request: string, message: Value, w: World) {
    match w.lookup
    case Missing => m' == m.(op := NoOp)
    case Waiting => m' == m.(op := Opening(session, request, message))
    case Found(rows) =>
      if !Claimable(rows, message) then m' == m.(op := NoOp)
      else if w.routable then
        && m'.op.Call? && m'.op.state.session == session && m'.op.state.request == request
        && m'.op.effect == m.effects && m'.effects == m.effects + 1
        && m'.op.state.openedWith == |rows| && rows <= m'.op.state.rows && m'.finished == m.finished
      else
        && |m'.finished| == |m.finished| + 1 && m'.finished[..|m.finished|] == m.finished
        && m'.finished[|m.finished|].request == request && m'.finished[|m.finished|].session == session
  }

  lemma OpenLooksUp(m: Machine, session: string, request: string, message: Value, w: World)
    requires WorldOk(w)
    ensures LookedUp(m, Open(m, session, request, message, w), session, request, message, w)
  {
    if w.lookup.Found? && Claimable(w.lookup.rows, message) {
      var t, first := StartOpens(m, session, request, message, w.lookup.rows, w.routable);
      AddAllPlaces(t.base, OpenLog(t, []));
    }
  }

  /** A call without a session or content, for a request that is done or a session that is not there, changes nothing;
      any other is looked up, whatever is in flight. */
  lemma CallTakenIff(m: Machine, ev: Event, w: World)
    requires ev.RunCall? && WorldOk(w)
    ensures
      var m' := Step(m, ev, w);
      if ev.session == "" || !ev.hasContent || ev.request in m.completed || w.lookup.Missing? then m' == m
      else LookedUp(m, m', ev.session, ev.request, ev.message, w)
  {
    OpenLooksUp(m, ev.session, ev.request, ev.message, w);
  }

  /** An answer to a call that waits for its log is looked up as the call itself is, but a session that is gone drops
      it. */
  lemma WaitingCallAnswered(m: Machine, id: nat, result: Result, w: World)
    requires m.op.Opening? && WorldOk(w)
    ensures LookedUp(m, Step(m, Answer(id, result), w), m.op.session, m.op.request, m.op.message, w)
  {
    OpenLooksUp(m, m.op.session, m.op.request, m.op.message, w);
  }

  /** The message a call brings is queued ahead of every turn that waits, and nothing else moves. */
  lemma AdmittedComesFirst(rows: seq<LogRow>, message: Value)
    requires InboxSpec.Fold(Drafts(rows)).Ok?
    ensures
      var before := InboxSpec.Fold(Drafts(rows)).lists;
      var after := InboxSpec.Fold(Drafts(AddRow(rows, SpliceDraft(message))));
      var queued := InboxSpec.Lists([message] + before.nextTurn, before.nextStep);
      if InboxSpec.Distinct(InboxSpec.Pending(queued)) then after == InboxSpec.Ok(queued) else after.Err?
  {
    var splice := InboxSpec.Splice(InboxSpec.NextTurn, 0, 0, [message]);
    var before := InboxSpec.Fold(Drafts(rows)).lists;
    assert Drafts(AddRow(rows, SpliceDraft(message))) == Drafts(rows) + [InboxSpec.SpliceRow(splice)];
    InboxSpec.FoldOneMore(Drafts(rows), InboxSpec.SpliceRow(splice));
    InboxSpec.SpliceReadsBack(before, splice);
    assert InboxSpec.SpliceSeq(before.nextTurn, 0, 0, [message]) == [message] + before.nextTurn;
    InboxSpec.DuplicateIff(InboxSpec.Pending(InboxSpec.Lists([message] + before.nextTurn, before.nextStep)));
  }

  /** A cancel touches no turn but the held one of its session. */
  lemma CancelElsewhere(m: Machine, session: string, w: World)
    requires m.op.Call? || m.op.Tools? ==> m.op.state.session != session
    ensures Step(m, CancelCall(session), w) == m
  {
  }

  /** The answer to a write ends the operation and touches nothing else. */
  lemma WriteAnswered(m: Machine, id: nat, result: Result, w: World)
    requires m.op.Publishing?
    ensures Step(m, Answer(id, result), w) == m.(op := NoOp)
  {
  }
}
