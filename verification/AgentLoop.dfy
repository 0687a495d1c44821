/** The loop as the object the driver holds: four fields, updated in place. */
module AgentLoop {
  import opened Json
  import opened SessionLog
  import opened AgentLoopSpec

  class AgentLoop {
    var phase: Phase
    var cancelled: Option<CancelCause>
    var turnSawMaxTokens: bool
    var stepOpen: bool

    ghost function State(): Loop
      reads this
    {
      Loop(phase, cancelled, turnSawMaxTokens, stepOpen)
    }

    constructor ()
      ensures State() == IdleAfter(0)
    {
      phase, cancelled, turnSawMaxTokens, stepOpen := Idle(0), None, false, false;
    }

    constructor ResumeFrom(rows: seq<Draft>)
      ensures State() == Resumed(ScanAll(Scan(0, None), rows))
    {
      var last, running := 0, None;
      for i := 0 to |rows|
        invariant Scan(last, running) == ScanAll(Scan(0, None), rows[..i])
      {
        var row := rows[i];
        assert rows[..i + 1][..i] == rows[..i];
        match row.kind {
          case TurnStart =>
            running := Some((OrElse(AsNat(Get(row.data, "turn")), 1), 0));
          case StepStart =>
            if running.Some? {
              running := Some((running.value.0, OrElse(AsNat(Get(row.data, "step")), 1)));
            }
          case TurnEnd =>
            var turn := OrElse(AsNat(Get(row.data, "turn")), last);
            last := if turn > last then turn else last;
            running := None;
          case _ =>
        }
      }
      assert rows[..|rows|] == rows;
      cancelled, turnSawMaxTokens := None, false;
      if running.Some? {
        phase, stepOpen := Running(running.value.0, running.value.1, false), true;
      } else {
        phase, stepOpen := Idle(last), false;
      }
    }

    /** A cancel latched before the turn opened would be cleared here, so none owns it. */
    method BeginTurn(messages: seq<Value>) returns (outs: seq<LoopOutput>)
      modifies this
      ensures (State(), outs) == AgentLoopSpec.BeginTurn(old(State()), messages)
    {
      if phase.Running? {
        return [TurnEnded(Error("AGENT_BUSY", ""))];
      }
      var turn := phase.lastTurn + 1;
      phase := Running(turn, 0, true);
      turnSawMaxTokens := false;
      cancelled := None;
      outs := [Append(TurnStartRow(turn))];
      if messages == [] {
        var closers := CloseTurn(Completed);
        outs := outs + closers;
      }
    }

    method EnterStep() returns (outs: seq<LoopOutput>)
      modifies this
      ensures (State(), outs) == AgentLoopSpec.BeginStep(old(State()))
    {
      if phase.Idle? {
        return [];
      }
      outs := BeginStep();
    }

    method BeginStep() returns (outs: seq<LoopOutput>)
      modifies this
      ensures (State(), outs) == AgentLoopSpec.BeginStep(old(State()))
    {
      if phase.Idle? || cancelled.Some? {
        return [];
      }
      var turn, next := phase.turn, phase.step + 1;
      phase := Running(turn, next, true);
      stepOpen := true;
      outs := [Append(StepStartRow(turn, next)), CallModel(turn, next)];
    }

    method StepReply(outcome: StepOutcome, hasToolCalls: bool, moreInput: bool) returns (outs: seq<LoopOutput>)
      modifies this
      ensures (State(), outs) == AgentLoopSpec.StepReply(old(State()), outcome, hasToolCalls, moreInput)
    {
      if phase.Idle? || !stepOpen {
        return [TurnEnded(Error("AGENT_NO_OPEN_STEP", ""))];
      }
      var cause := cancelled;
      outs := CloseStep(phase.turn, phase.step);
      var more;
      if cause.Some? {
        more := CloseTurn(Aborted(cause.value));
        return outs + more;
      }
      match outcome {
        case Failed(code, message) =>
          more := CloseTurn(Error(code, message));
          return outs + more;
        case HitCeiling => turnSawMaxTokens := true;
        case Replied =>
      }
      if hasToolCalls || moreInput {
        more := BeginStep();
      } else {
        more := CloseTurn(if turnSawMaxTokens then MaxTokens else Completed);
      }
      outs := outs + more;
    }

    method CloseStep(turn: nat, step: nat) returns (outs: seq<LoopOutput>)
      modifies this`stepOpen
      ensures !stepOpen
      ensures (State(), outs) == AgentLoopSpec.CloseStep(old(State()), turn, step)
    {
      if !stepOpen {
        return [];
      }
      stepOpen := false;
      outs := [Append(StepEndRow(turn, step))];
    }

    method CloseTurn(ending: Ending) returns (outs: seq<LoopOutput>)
      modifies this
      ensures (State(), outs) == AgentLoopSpec.CloseTurn(old(State()), ending)
    {
      if phase.Idle? {
        return [];
      }
      var turn := phase.turn;
      phase, stepOpen, cancelled := Idle(turn), false, None;
      outs := [Append(TurnEndRow(turn, ReasonValue(ending))), TurnEnded(ending)];
    }

    method RejectStep() returns (outs: seq<LoopOutput>)
      modifies this
      ensures (State(), outs) == AgentLoopSpec.RejectStep(old(State()))
    {
      outs := [];
      if phase.Running? {
        outs := CloseStep(phase.turn, phase.step);
      }
      var closers := CloseTurn(Blocked);
      assert outs == [] ==> outs + closers == closers;
      outs := outs + closers;
    }

    method Cancel(cause: CancelCause) returns (outs: seq<LoopOutput>)
      modifies this
      ensures (State(), outs) == AgentLoopSpec.CancelTurn(old(State()), cause)
    {
      if phase.Idle? {
        return [];
      }
      cancelled := Some(cause);
      if stepOpen {
        return [];
      }
      outs := CloseTurn(Aborted(cause));
    }
  }
}
