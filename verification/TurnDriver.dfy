/** The agent machine as an object: the operation in flight and the executor beside it are
    taken and put back by its handlers. */
module TurnDriver {
  import opened Json
  import opened SessionLog
  import opened AgentLoopSpec
  import opened TurnSpec
  import InboxSpec

  /** Only the last output may ask for a model call. */
  predicate CallsLast(outs: seq<LoopOutput>) {
    forall i | 0 <= i < |outs| - 1 :: !outs[i].CallModel?
  }

  predicate WantsCall(outs: seq<LoopOutput>) {
    outs != [] && outs[|outs| - 1].CallModel?
  }

  lemma RowsMore(outs: seq<LoopOutput>, i: nat)
    requires i < |outs|
    ensures Rows(outs[..i + 1]) == if outs[i].Append? then Rows(outs[..i]) + [outs[i].draft] else Rows(outs[..i])
  {
    assert outs[..i + 1][..i] == outs[..i];
  }

  lemma AddAllMore(rows: seq<LogRow>, drafts: seq<Draft>, d: Draft)
    ensures AddAll(rows, drafts + [d]) == AddRow(AddAll(rows, drafts), d)
  {
    assert (drafts + [d])[..|drafts|] == drafts;
  }

  lemma FileMore(rows: seq<LogRow>, outs: seq<LoopOutput>, i: nat)
    requires i < |outs|
    ensures AddAll(rows, Rows(outs[..i + 1]))
         == if outs[i].Append? then AddRow(AddAll(rows, Rows(outs[..i])), outs[i].draft)
           else AddAll(rows, Rows(outs[..i]))
  {
    RowsMore(outs, i);
    if outs[i].Append? {
      AddAllMore(rows, Rows(outs[..i]), outs[i].draft);
    }
  }

  /** Files the loop's outputs in order; an unroutable call fails its step at once. */
  method ApplyOutputs(s: TurnState, outs: seq<LoopOutput>, routable: bool) returns (state: TurnState, call: bool)
    requires CallsLast(outs)
    ensures (state, call) == Absorb(s, (s.fsm, outs), routable)
    decreases WantsCall(outs)
  {
    state := s;
    for i := 0 to |outs|
      invariant state == s.(rows := AddAll(s.rows, Rows(outs[..i])))
      invariant forall j | 0 <= j < i :: !outs[j].CallModel?
    {
      FileMore(s.rows, outs, i);
      match outs[i] {
        case Append(draft) =>
          state := state.(rows := AddRow(state.rows, draft));
        case TurnEnded(_) =>
        case CallModel(_, _) =>
          assert i == |outs| - 1 && outs[..i + 1] == outs;
          if routable {
            return state, true;
          }
          var failed := StepReply(state.fsm, UNROUTABLE, false, false);
          state := state.(fsm := failed.0);
          state, call := ApplyOutputs(state, failed.1, routable);
          return;
      }
    }
    assert outs[..|outs|] == outs;
    call := false;
  }

  class AgentMachine {
    var op: TurnSpec.Op
    var exec: Option<Exec>
    var toolEffect: Option<nat>
    var effects: nat
    var keys: seq<Option<string>>
    var completed: set<string>
    var finished: seq<Generation>
    var chosen: Option<Generation>

    ghost function State(): Machine
      reads this
    {
      Machine(op, exec, toolEffect, effects, keys, completed, finished, chosen)
    }

    constructor ()
      ensures State() == IDLE
    {
      op, exec, toolEffect, effects, keys := NoOp, None, None, 0, [];
      completed, finished, chosen := {}, [], None;
    }

    method Finish(state: TurnState)
      modifies this
      ensures State() == TurnSpec.Finish(old(State()), state)
    {
      completed := completed + {state.request};
      var landed := Publish(Generation(state.session, state.request, state.rows, state.openedWith));
      op := if landed then NoOp else Publishing;
    }

    /** The write is chosen once; a later one finds it landed and asks for nothing. */
    method Publish(g: Generation) returns (landed: bool)
      modifies this`finished, this`chosen
      ensures finished == old(finished) + [g] && landed == (old(chosen) != None)
      ensures chosen == if landed then old(chosen) else Some(g)
    {
      finished := finished + [g];
      landed := chosen != None;
      if !landed {
        chosen := Some(g);
      }
    }

    method OpenCall(state: TurnState)
      modifies this
      ensures State() == TurnSpec.OpenCall(old(State()), state)
    {
      op := Call(state, effects);
      effects := effects + 1;
    }

    method ContinueTurn(s: TurnState, call: bool, routable: bool)
      modifies this
      ensures State() == TurnSpec.ContinueTurn(old(State()), (s, call), routable)
    {
      var state := s;
      if call {
        OpenCall(state);
        return;
      }
      if state.fsm.phase.Running? {
        var entered := BeginStep(state.fsm);
        state := state.(fsm := entered.0);
        var wanted;
        state, wanted := ApplyOutputs(state, entered.1, routable);
        if wanted {
          OpenCall(state);
          return;
        }
      }
      Finish(state);
    }

    method StartTurn(session: string, request: string, message: Value, rows: seq<LogRow>, routable: bool)
      modifies this
      ensures State() == TurnSpec.StartTurn(old(State()), session, request, message, rows, routable)
    {
      var admitted := AddRow(rows, SpliceDraft(message));
      var inbox := InboxSpec.Fold(Drafts(admitted));
      if inbox.Err? {
        op := NoOp;
        return;
      }
      var claim := InboxSpec.Claim(inbox.lists, InboxSpec.NextTurn);
      if claim.1 == [] {
        op := NoOp;
        return;
      }
      var fsm := Resumed(ScanAll(Scan(0, None), Drafts(admitted)));
      var begun := BeginTurn(fsm, claim.1);
      var state := TurnState(session, request, admitted, begun.0, |rows|, None);
      var call;
      state, call := ApplyOutputs(state, begun.1, routable);
      ContinueTurn(state, call, routable);
    }

    method Settle(s: TurnState, r: Reply, w: World)
      modifies this
      ensures State() == TurnSpec.Settle(old(State()), s, r, w)
    {
      var interrupted := s.fsm.cancelled.Some?;
      var state := s.(rows := AddRow(s.rows, SettleDraft(s, r)));
      if r.hasCalls && r.finish.Some? && !interrupted {
        ResumeTools(state.(pendingCalls := Some(r.calls)), w);
        return;
      }
      var next := StepReply(state.fsm, OrElse(r.finish, INCOMPLETE), r.hasCalls && !interrupted, false);
      state := state.(fsm := next.0);
      var call;
      state, call := ApplyOutputs(state, next.1, w.routable);
      ContinueTurn(state, call, w.routable);
    }

    method FailTurn(s: TurnState, code: string, message: string)
      modifies this
      ensures State() == TurnSpec.FailTurn(old(State()), s, code, message)
    {
      var next := StepReply(s.fsm, Failed(code, message), false, false);
      var state := s.(fsm := next.0);
      var call;
      state, call := ApplyOutputs(state, next.1, false);
      op := NoOp;
      Finish(state);
    }

    /** Files the executor's rows one by one, so that each has its number before the next. */
    method AbsorbToolWants(s: TurnState, b: Batch) returns (state: TurnState)
      requires exec.Some?
      modifies this
      ensures (State(), state) == AbsorbBatch(old(State()), s, b)
    {
      state := s;
      for i := 0 to |b.rows|
        invariant state == s.(rows := AddToolRows(s.rows, exec.value, b.rows[..i]))
        invariant State() == old(State())
      {
        assert b.rows[..i + 1][..i] == b.rows[..i];
        state := state.(rows := AddRow(state.rows, ToolDraft(exec.value, b.rows[i])));
      }
      assert b.rows[..|b.rows|] == b.rows;
      if b.effects > 0 {
        effects := effects + b.effects;
        toolEffect := Some(effects - 1);
      }
      var key := KillKey(op);
      keys := keys + seq(b.effects, _ => key);
      exec := Some(exec.value.(finished := b.finished));
    }

    method DriveTools(s: TurnState, b: Batch) returns (state: TurnState)
      modifies this
      ensures (State(), state) == Drive(old(State()), s, b)
    {
      var at := Position(s.fsm);
      if exec == None {
        exec := Some(Exec(at.0, at.1, OrElse(s.pendingCalls, 0) == 0));
      }
      if exec.value.finished {
        return s;
      }
      state := AbsorbToolWants(s, b);
    }

    method CloseToolStep(s: TurnState, w: World)
      modifies this
      ensures State() == TurnSpec.CloseToolStep(old(State()), s, w)
    {
      exec, toolEffect := None, None;
      var inbox := InboxSpec.Fold(Drafts(s.rows));
      var more := inbox.Ok? && InboxSpec.Pending(inbox.lists) != [];
      var next := StepReply(s.fsm, Replied, true, more);
      var state := s.(pendingCalls := None, fsm := next.0);
      var call;
      state, call := ApplyOutputs(state, next.1, w.routable);
      ContinueTurn(state, call, w.routable);
    }

    method ResumeTools(s: TurnState, w: World)
      modifies this
      ensures State() == TurnSpec.ResumeTools(old(State()), s, w)
    {
      if exec.Some? && exec.value.finished {
        CloseToolStep(s, w);
        return;
      }
      var state := DriveTools(s, w.first);
      if exec.value.finished && toolEffect == None {
        CloseToolStep(state, w);
      } else {
        op := Tools(state);
      }
    }

    method AnswerTool(s: TurnState, w: World)
      modifies this
      ensures State() == TurnSpec.AnswerTool(old(State()), s, w)
    {
      var state := s;
      if exec.Some? {
        state := AbsorbToolWants(state, w.first);
      }
      if exec.Some? && exec.value.finished {
        CloseToolStep(state, w);
      } else {
        state := DriveTools(state, w.second);
        op := Tools(state);
      }
    }

    method CancelTurn(session: string)
      modifies this
      ensures State() == CancelSession(old(State()), session)
    {
      if !(op.Call? || op.Tools?) || op.state.session != session {
        return;
      }
      var next := AgentLoopSpec.CancelTurn(op.state.fsm, User);
      var state := op.state.(fsm := next.0);
      if next.1 != [] && op.Call? {
        var call;
        state, call := ApplyOutputs(state, next.1, false);
        op := NoOp;
        Finish(state);
      } else {
        op := if op.Call? then op.(state := state) else Tools(state);
      }
    }

    method OnEffect(id: nat, result: Result, w: World)
      modifies this
      ensures State() == OnAnswer(old(State()), id, result, w)
    {
      var taken := op;
      match taken {
        case NoOp =>
        case Tools(s) =>
          if toolEffect == Some(id) {
            op, toolEffect := NoOp, None;
            AnswerTool(s, w);
          }
        case Opening(session, request, message) => OpenWith(session, request, message, w);
        case Publishing => op := NoOp;
        case Call(s, _) =>
          match result {
            case Http(reply) =>
              op := NoOp;
              Settle(s, reply, w);
            case HttpError(code, message) => FailTurn(s, code, message);
            case Failure(message) => FailTurn(s, "PROVIDER_UNREACHABLE", message);
            case OtherResult =>
          }
      }
    }

    method OpenWith(session: string, request: string, message: Value, w: World)
      modifies this
      ensures State() == Open(old(State()), session, request, message, w)
    {
      match w.lookup {
        case Found(rows) => StartTurn(session, request, message, rows, w.routable);
        case Missing => op := NoOp;
        case Waiting => op := Opening(session, request, message);
      }
    }

    /** One input.  Note that a new call does not ask whether a turn is already in flight. */
    method Handle(ev: Event, w: World)
      modifies this
      ensures State() == Step(old(State()), ev, w)
    {
      match ev {
        case RunCall(session, request, hasContent, message) =>
          if session != "" && hasContent && request !in completed && !w.lookup.Missing? {
            OpenWith(session, request, message, w);
          }
        case CancelCall(session) =>
          if session != "" {
            CancelTurn(session);
          }
        case Answer(id, result) => OnEffect(id, result, w);
        case Chunk(_) => OnChunk();
        case Verdict => OnVerdict(w.first);
      }
    }

    /** The operation is taken before it is looked at, and put back only if the tools were running. */
    method OnVerdict(b: Batch)
      modifies this
      ensures State() == TurnSpec.OnVerdict(old(State()), b)
    {
      var taken := op;
      op := NoOp;
      if !taken.Tools? {
        return;
      }
      var state := taken.state;
      if exec.Some? {
        state := AbsorbToolWants(state, b);
      }
      op := Tools(state);
    }

    /** Likewise for a piece of a streamed reply. */
    method OnChunk()
      modifies this
      ensures State() == TurnSpec.OnChunk(old(State()))
    {
      var taken := op;
      op := NoOp;
      if taken.Call? {
        op := taken;
      }
    }
  }
}
