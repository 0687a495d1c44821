/** Rows of a session log, as far as the loop, the inbox and the turn driver read them. */
module SessionLog {
  import opened Json

  datatype RowKind =
    | TurnStart
    | TurnEnd
    | StepStart
    | StepEnd
    | InboxSpliced
    | UserMessage
    | AssistantMessage
    | AssistantAttempt
    | ToolCall
    | ToolResult
    | ApprovalAsked
    | ApprovalDecided
    | OtherKind(name: string)

  /** A row before it is given its place in the log. */
  datatype Draft = Draft(kind: RowKind, data: Value)

  function NatValue(n: nat): Value {
    Num(Int(n))
  }

  function TurnStartRow(turn: nat): Draft {
    Draft(TurnStart, Obj(map["turn" := NatValue(turn)]))
  }

  function TurnEndRow(turn: nat, reason: Value): Draft {
    Draft(TurnEnd, Obj(map["turn" := NatValue(turn), "reason" := reason]))
  }

  function StepStartRow(turn: nat, step: nat): Draft {
    Draft(StepStart, Obj(map["turn" := NatValue(turn), "step" := NatValue(step)]))
  }

  function StepEndRow(turn: nat, step: nat): Draft {
    Draft(StepEnd, Obj(map["turn" := NatValue(turn), "step" := NatValue(step)]))
  }
}
