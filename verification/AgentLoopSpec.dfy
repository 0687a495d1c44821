/** The turn/step machine of one session (`agent_loop.rs`). */
module AgentLoopSpec {
  import opened Json
  import opened SessionLog

  datatype CancelCause = User | Parent | Hook(reason: string) | Disposed | Legacy

  /** Why a turn ended. */
  datatype Ending =
    | Completed
    | Aborted(cause: CancelCause)
    | Blocked
    | Error(code: string, message: string)
    | MaxTokens

  datatype Phase = Idle(lastTurn: nat) | Running(turn: nat, step: nat, open: bool)

  datatype StepOutcome = Replied | HitCeiling | Failed(code: string, message: string)

  datatype LoopOutput = Append(draft: Draft) | CallModel(turn: nat, step: nat) | TurnEnded(ending: Ending)

  function CauseValue(c: CancelCause): Value {
    match c
    case User => Obj(map["kind" := Str("user")])
    case Parent => Obj(map["kind" := Str("parent")])
    case Hook(reason) => Obj(map["kind" := Str("hook"), "reason" := Str(reason)])
    case Disposed => Obj(map["kind" := Str("disposed")])
    case Legacy => Obj(map["kind" := Str("legacy")])
  }

  function ReasonValue(e: Ending): Value {
    match e
    case Completed => Obj(map["kind" := Str("completed")])
    case Aborted(cause) => Obj(map["kind" := Str("aborted"), "reason" := CauseValue(cause)])
    case Blocked => Obj(map["kind" := Str("blocked")])
    case Error(code, message) =>
      Obj(map["kind" := Str("error"), "error" := Obj(map["message" := Str(message), "code" := Str(code)])])
    case MaxTokens => Obj(map["kind" := Str("max-tokens")])
  }

  /** The machine's whole state. */
  datatype Loop = Loop(phase: Phase, cancelled: Option<CancelCause>, sawMaxTokens: bool, stepOpen: bool)

  function IdleAfter(lastTurn: nat): Loop {
    Loop(Idle(lastTurn), None, false, false)
  }

  function Position(l: Loop): (nat, nat) {
    match l.phase
    case Running(turn, step, _) => (turn, step)
    case Idle(last) => (last, 0)
  }

  datatype Op =
    | Begin(messages: seq<Value>)
    | Enter
    | Reply(outcome: StepOutcome, hasToolCalls: bool, moreInput: bool)
    | Reject
    | Cancel(cause: CancelCause)

  // ----- one operation -----

  function CloseTurn(l: Loop, ending: Ending): (Loop, seq<LoopOutput>) {
    match l.phase
    case Idle(_) => (l, [])
    case Running(turn, _, _) =>
      (Loop(Idle(turn), None, l.sawMaxTokens, false),
       [Append(TurnEndRow(turn, ReasonValue(ending))), TurnEnded(ending)])
  }

  function CloseStep(l: Loop, turn: nat, step: nat): (Loop, seq<LoopOutput>) {
    if l.stepOpen then (l.(stepOpen := false), [Append(StepEndRow(turn, step))]) else (l, [])
  }

  function BeginStep(l: Loop): (Loop, seq<LoopOutput>) {
    if l.phase.Idle? || l.cancelled.Some? then (l, [])
    else
      var turn, next := l.phase.turn, l.phase.step + 1;
      (l.(phase := Running(turn, next, true), stepOpen := true),
       [Append(StepStartRow(turn, next)), CallModel(turn, next)])
  }

  function BeginTurn(l: Loop, messages: seq<Value>): (Loop, seq<LoopOutput>) {
    match l.phase
    case Running(_, _, _) => (l, [TurnEnded(Error("AGENT_BUSY", ""))])
    case Idle(last) =>
      var started := Loop(Running(last + 1, 0, true), None, false, l.stepOpen);
      if messages == [] then
        var closed := CloseTurn(started, Completed);
        (closed.0, [Append(TurnStartRow(last + 1))] + closed.1)
      else (started, [Append(TurnStartRow(last + 1))])
  }

  /** A latched cancel outranks the reply, a failure outranks further input, and a ceiling
      once hit decides how an otherwise completed turn ends. */
  function StepReply(l: Loop, outcome: StepOutcome, hasToolCalls: bool, moreInput: bool): (Loop, seq<LoopOutput>) {
    if l.phase.Idle? || !l.stepOpen then (l, [TurnEnded(Error("AGENT_NO_OPEN_STEP", ""))])
    else
      var step := CloseStep(l, l.phase.turn, l.phase.step);
      if l.cancelled.Some? then
        var closed := CloseTurn(step.0, Aborted(l.cancelled.value));
        (closed.0, step.1 + closed.1)
      else if outcome.Failed? then
        var closed := CloseTurn(step.0, Error(outcome.code, outcome.message));
        (closed.0, step.1 + closed.1)
      else
        var seen := step.0.(sawMaxTokens := l.sawMaxTokens || outcome.HitCeiling?);
        if hasToolCalls || moreInput then
          var next := BeginStep(seen);
          (next.0, step.1 + next.1)
        else
          var closed := CloseTurn(seen, if seen.sawMaxTokens then MaxTokens else Completed);
          (closed.0, step.1 + closed.1)
  }

  function RejectStep(l: Loop): (Loop, seq<LoopOutput>) {
    match l.phase
    case Idle(_) => (l, [])
    case Running(turn, step, _) =>
      var ended := CloseStep(l, turn, step);
      var closed := CloseTurn(ended.0, Blocked);
      (closed.0, ended.1 + closed.1)
  }

  /** With a step open the cancel is only latched; between steps it closes the turn. */
  function CancelTurn(l: Loop, cause: CancelCause): (Loop, seq<LoopOutput>) {
    if l.phase.Idle? then (l, [])
    else
      var latched := l.(cancelled := Some(cause));
      if l.stepOpen then (latched, []) else CloseTurn(latched, Aborted(cause))
  }

  function Apply(l: Loop, op: Op): (Loop, seq<LoopOutput>) {
    match op
    case Begin(messages) => BeginTurn(l, messages)
    case Enter => BeginStep(l)
    case Reply(outcome, calls, more) => StepReply(l, outcome, calls, more)
    case Reject => RejectStep(l)
    case Cancel(cause) => CancelTurn(l, cause)
  }

  // ----- whole runs -----

  function Run(l: Loop, ops: seq<Op>): (Loop, seq<LoopOutput>) {
    if ops == [] then (l, [])
    else
      var before := Run(l, ops[..|ops| - 1]);
      var after := Apply(before.0, ops[|ops| - 1]);
      (after.0, before.1 + after.1)
  }

  function Rows(outs: seq<LoopOutput>): seq<Draft> {
    if outs == [] then []
    else Rows(outs[..|outs| - 1]) + (if outs[|outs| - 1].Append? then [outs[|outs| - 1].draft] else [])
  }

  lemma {:induction false} RowsConcat(a: seq<LoopOutput>, b: seq<LoopOutput>)
    ensures Rows(a + b) == Rows(a) + Rows(b)
  {
    if b == [] {
      assert a + b == a;
    } else {
      RowsConcat(a, b[..|b| - 1]);
      assert (a + b)[..|a + b| - 1] == a + b[..|b| - 1];
    }
  }

  /** `enter_step` is called only while no step is open, or once a cancel makes it a no-op. */
  predicate MayEnter(l: Loop) {
    !l.stepOpen || l.cancelled.Some?
  }

  predicate EntersBetweenSteps(l: Loop, ops: seq<Op>) {
    ops != [] ==>
      && EntersBetweenSteps(l, ops[..|ops| - 1])
      && (ops[|ops| - 1].Enter? ==> MayEnter(Run(l, ops[..|ops| - 1]).0))
  }

  // ----- the language of logs -----

  datatype TurnRecord = TurnRecord(steps: nat, reason: Value)

  /** Steps 1 to n, each started and closed. */
  function StepsText(turn: nat, n: nat): seq<Draft> {
    if n == 0 then [] else StepsText(turn, n - 1) + [StepStartRow(turn, n), StepEndRow(turn, n)]
  }

  function TurnText(turn: nat, r: TurnRecord): seq<Draft> {
    [TurnStartRow(turn)] + StepsText(turn, r.steps) + [TurnEndRow(turn, r.reason)]
  }

  /** Consecutive closed turns, numbered from `last + 1`. */
  function ClosedText(last: nat, turns: seq<TurnRecord>): seq<Draft> {
    if turns == [] then []
    else ClosedText(last, turns[..|turns| - 1]) + TurnText(last + |turns|, turns[|turns| - 1])
  }

  /** What a running turn has written so far. */
  function OpenText(l: Loop): seq<Draft> {
    match l.phase
    case Idle(_) => []
    case Running(turn, step, _) =>
      [TurnStartRow(turn)] +
      (if l.stepOpen && step > 0 then StepsText(turn, step - 1) + [StepStartRow(turn, step)] else StepsText(turn, step))
  }

  /** The state a run from `IdleAfter(last)` can be in after closing `turns`. */
  predicate Reached(l: Loop, last: nat, turns: seq<TurnRecord>) {
    && (l.phase.Idle? ==> l.phase.lastTurn == last + |turns|)
    && (l.phase.Running? ==> l.phase.turn == last + |turns| + 1)
    && (l.stepOpen <==> l.phase.Running? && l.phase.step > 0)
    && (l.cancelled.Some? ==> l.stepOpen)
  }

  lemma ClosedExtend(last: nat, turns: seq<TurnRecord>, r: TurnRecord)
    ensures ClosedText(last, turns + [r]) == ClosedText(last, turns) + TurnText(last + |turns| + 1, r)
  {
    assert (turns + [r])[..|turns|] == turns;
  }

  /** The rows so far, followed by the rows of one more operation, are the rows after it. */
  predicate Extends(l: Loop, turns: seq<TurnRecord>, rows: seq<Draft>, l': Loop, turns': seq<TurnRecord>, last: nat) {
    && Reached(l', last, turns')
    && ClosedText(last, turns) + OpenText(l) + rows == ClosedText(last, turns') + OpenText(l')
  }

  /** The step frames a running turn still owes, and then its end. */
  function Closers(l: Loop, reason: Value): seq<Draft>
    requires l.phase.Running?
  {
    (if l.stepOpen then [StepEndRow(l.phase.turn, l.phase.step)] else []) + [TurnEndRow(l.phase.turn, reason)]
  }

  lemma ClosingKeepsShape(l: Loop, l': Loop, reason: Value, last: nat, turns: seq<TurnRecord>)
    returns (turns': seq<TurnRecord>)
    requires Reached(l, last, turns) && l.phase.Running?
    requires l'.phase == Idle(l.phase.turn) && !l'.stepOpen && l'.cancelled == None
    ensures Extends(l, turns, Closers(l, reason), l', turns', last)
  {
    var r := TurnRecord(l.phase.step, reason);
    turns' := turns + [r];
    ClosedExtend(last, turns, r);
    assert OpenText(l) + Closers(l, reason) == TurnText(l.phase.turn, r);
    assert ClosedText(last, turns) + OpenText(l) + Closers(l, reason)
      == ClosedText(last, turns) + (OpenText(l) + Closers(l, reason));
  }

  lemma BeginKeepsShape(l: Loop, messages: seq<Value>, last: nat, turns: seq<TurnRecord>)
    returns (turns': seq<TurnRecord>)
    requires Reached(l, last, turns)
    ensures Extends(l, turns, Rows(BeginTurn(l, messages).1), BeginTurn(l, messages).0, turns', last)
  {
    turns' := turns;
    var next := BeginTurn(l, messages);
    RowsOf(next.1);
    if l.phase.Idle? {
      var turn := l.phase.lastTurn + 1;
      assert StepsText(turn, 0) == [];
      if messages == [] {
        var r := TurnRecord(0, ReasonValue(Completed));
        turns' := turns + [r];
        ClosedExtend(last, turns, r);
        assert Rows(next.1) == TurnText(turn, r);
      } else {
        assert Rows(next.1) == OpenText(next.0);
      }
    }
  }

  lemma EnterKeepsShape(l: Loop, last: nat, turns: seq<TurnRecord>)
    requires Reached(l, last, turns) && MayEnter(l)
    ensures Extends(l, turns, Rows(BeginStep(l).1), BeginStep(l).0, turns, last)
  {
    var next := BeginStep(l);
    RowsOf(next.1);
    if l.phase.Running? && !l.stepOpen {
      assert StepsText(l.phase.turn, 0) == [];
      assert OpenText(l) + Rows(next.1) == OpenText(next.0);
    }
  }

  /** A reply that leaves the turn running writes the end of its step and the start of the next. */
  lemma ReplyGoesOn(l: Loop, outcome: StepOutcome, calls: bool, more: bool, last: nat, turns: seq<TurnRecord>)
    requires Reached(l, last, turns) && l.phase.Running? && l.stepOpen
    requires StepReply(l, outcome, calls, more).0.phase.Running?
    ensures Extends(l, turns, Rows(StepReply(l, outcome, calls, more).1), StepReply(l, outcome, calls, more).0, turns,
                    last)
  {
    var next := StepReply(l, outcome, calls, more);
    RowsOf(next.1);
    var turn, step := l.phase.turn, l.phase.step;
    assert StepsText(turn, step) == StepsText(turn, step - 1) + [StepStartRow(turn, step), StepEndRow(turn, step)];
    assert OpenText(l) + Rows(next.1) == OpenText(next.0);
  }

  lemma ReplyKeepsShape(l: Loop, outcome: StepOutcome, calls: bool, more: bool, last: nat, turns: seq<TurnRecord>)
    returns (turns': seq<TurnRecord>)
    requires Reached(l, last, turns)
    ensures Extends(l, turns, Rows(StepReply(l, outcome, calls, more).1), StepReply(l, outcome, calls, more).0, turns',
                    last)
  {
    turns' := turns;
    var next := StepReply(l, outcome, calls, more);
    if l.phase.Running? && l.stepOpen && next.0.phase.Running? {
      ReplyGoesOn(l, outcome, calls, more, last, turns);
    } else {
      RowsOf(next.1);
      if l.phase.Running? && l.stepOpen {
        var reason := ReasonValue(next.1[2].ending);
        assert Rows(next.1) == Closers(l, reason);
        turns' := ClosingKeepsShape(l, next.0, reason, last, turns);
      }
    }
  }

  /** One operation keeps the rows in the language. */
  lemma ApplyKeepsShape(l: Loop, op: Op, last: nat, turns: seq<TurnRecord>) returns (turns': seq<TurnRecord>)
    requires Reached(l, last, turns)
    requires op.Enter? ==> MayEnter(l)
    ensures Extends(l, turns, Rows(Apply(l, op).1), Apply(l, op).0, turns', last)
  {
    turns' := turns;
    match op {
      case Begin(messages) => turns' := BeginKeepsShape(l, messages, last, turns);
      case Enter => EnterKeepsShape(l, last, turns);
      case Reply(outcome, calls, more) => turns' := ReplyKeepsShape(l, outcome, calls, more, last, turns);
      case Reject =>
        RowsOf(RejectStep(l).1);
        if l.phase.Running? {
          assert Rows(RejectStep(l).1) == Closers(l, ReasonValue(Blocked));
          turns' := ClosingKeepsShape(l, RejectStep(l).0, ReasonValue(Blocked), last, turns);
        }
      case Cancel(cause) =>
        RowsOf(CancelTurn(l, cause).1);
        if l.phase.Running? && !l.stepOpen {
          assert Rows(CancelTurn(l, cause).1) == Closers(l, ReasonValue(Aborted(cause)));
          turns' := ClosingKeepsShape(l, CancelTurn(l, cause).0, ReasonValue(Aborted(cause)), last, turns);
        }
    }
  }

  /** Every run from an idle loop writes consecutive closed turns of dense, balanced steps,
      followed by the beginning of one more when a turn is running. */
  lemma {:induction false} RunsWriteTurns(last: nat, ops: seq<Op>) returns (turns: seq<TurnRecord>)
    requires EntersBetweenSteps(IdleAfter(last), ops)
    ensures Reached(Run(IdleAfter(last), ops).0, last, turns)
    ensures Rows(Run(IdleAfter(last), ops).1) == ClosedText(last, turns) + OpenText(Run(IdleAfter(last), ops).0)
  {
    if ops == [] {
      turns := [];
    } else {
      var n := |ops| - 1;
      var before := RunsWriteTurns(last, ops[..n]);
      var l := Run(IdleAfter(last), ops[..n]);
      turns := ApplyKeepsShape(l.0, ops[n], last, before);
      RowsConcat(l.1, Apply(l.0, ops[n]).1);
    }
  }

  lemma {:induction false} RowsOf(outs: seq<LoopOutput>)
    requires |outs| <= 3
    ensures Rows(outs) ==
      (if |outs| > 0 && outs[0].Append? then [outs[0].draft] else []) +
      (if |outs| > 1 && outs[1].Append? then [outs[1].draft] else []) +
      (if |outs| > 2 && outs[2].Append? then [outs[2].draft] else [])
  {
    assert Rows([]) == [];
    if |outs| > 0 {
      var front := outs[..|outs| - 1];
      RowsOf(front);
      assert forall i | 0 <= i < |front| :: front[i] == outs[i];
    }
  }

  /** What is written is always a prefix of a log of closed turns. */
  lemma OpenTurnsCanClose(l: Loop, last: nat, turns: seq<TurnRecord>, reason: Value)
    requires Reached(l, last, turns) && l.phase.Running?
    ensures ClosedText(last, turns) + OpenText(l) <= ClosedText(last, turns + [TurnRecord(l.phase.step, reason)])
  {
    var after := ClosingKeepsShape(l, IdleAfter(l.phase.turn), reason, last, turns);
    ClosedExtend(last, turns, TurnRecord(l.phase.step, reason));
    assert OpenText(l) + Closers(l, reason) == TurnText(l.phase.turn, TurnRecord(l.phase.step, reason));
    assert ClosedText(last, turns) + OpenText(l) + Closers(l, reason)
      == ClosedText(last, turns) + (OpenText(l) + Closers(l, reason));
  }

  /** In a log of closed turns a started step is ended by the very next row. */
  predicate StartsAnswered(rows: seq<Draft>) {
    && (forall i | 0 <= i < |rows| - 1 && rows[i].kind == StepStart :: rows[i + 1].kind == StepEnd)
    && (rows != [] ==> rows[|rows| - 1].kind != StepStart)
  }

  lemma {:induction false} StepsAnswered(turn: nat, n: nat)
    ensures StartsAnswered(StepsText(turn, n))
  {
    if n > 0 {
      StepsAnswered(turn, n - 1);
    }
  }

  lemma AnsweredConcat(a: seq<Draft>, b: seq<Draft>)
    requires StartsAnswered(a) && StartsAnswered(b)
    ensures StartsAnswered(a + b)
  {
    var rows := a + b;
    forall i | 0 <= i < |rows| - 1 && rows[i].kind == StepStart
      ensures rows[i + 1].kind == StepEnd
    {
      if i < |a| - 1 {
        assert a[i].kind == StepStart;
      } else if i >= |a| {
        assert b[i - |a|].kind == StepStart;
      }
    }
  }

  lemma {:induction false} ClosedAnswered(last: nat, turns: seq<TurnRecord>)
    ensures StartsAnswered(ClosedText(last, turns))
  {
    if turns != [] {
      var turn, r := last + |turns|, turns[|turns| - 1];
      ClosedAnswered(last, turns[..|turns| - 1]);
      StepsAnswered(turn, r.steps);
      AnsweredConcat([TurnStartRow(turn)], StepsText(turn, r.steps));
      AnsweredConcat([TurnStartRow(turn)] + StepsText(turn, r.steps), [TurnEndRow(turn, r.reason)]);
      AnsweredConcat(ClosedText(last, turns[..|turns| - 1]), TurnText(turn, r));
    }
  }

  /** The discipline is exact: entering a step where it is not allowed takes the rows out of
      the language for good. */
  lemma EnteringOpenStepBreaksLog(last: nat, ops: seq<Op>, more: seq<TurnRecord>)
    requires EntersBetweenSteps(IdleAfter(last), ops)
    requires !MayEnter(Run(IdleAfter(last), ops).0)
    ensures !(Rows(Run(IdleAfter(last), ops + [Enter]).1) <= ClosedText(last, more))
  {
    var live := Run(IdleAfter(last), ops);
    var turns := RunsWriteTurns(last, ops);
    assert (ops + [Enter])[..|ops|] == ops;
    var entered := BeginStep(live.0);
    RowsConcat(live.1, entered.1);
    RowsOf(entered.1);
    var rows := Rows(Run(IdleAfter(last), ops + [Enter]).1);
    var n := |rows|;
    assert rows[n - 2].kind == StepStart && rows[n - 1].kind == StepStart;
    ClosedAnswered(last, more);
  }

  // ----- when a turn ends, and when the model is called -----

  function ReasonKind(v: Value): Option<string> {
    AsStr(Get(v, "kind"))
  }

  /** The code and the message of an ending in error. */
  function ReasonError(v: Value): (Option<string>, Option<string>) {
    var e := OrElse(Get(v, "error"), Null);
    (AsStr(Get(e, "code")), AsStr(Get(e, "message")))
  }

  /** The written reason names the ending, and no two endings are written alike. */
  lemma ReasonTells(a: Ending, b: Ending)
    ensures ReasonKind(ReasonValue(a)) == Some(match a
      case Completed => "completed"
      case Aborted(_) => "aborted"
      case Blocked => "blocked"
      case Error(_, _) => "error"
      case MaxTokens => "max-tokens")
    ensures a.Error? ==> ReasonError(ReasonValue(a)) == (Some(a.code), Some(a.message))
    ensures ReasonValue(a) == ReasonValue(b) ==> a == b
  {
    if a.Aborted? && b.Aborted? {
      CauseTells(a.cause, b.cause);
      assert Get(ReasonValue(a), "reason") == Some(CauseValue(a.cause));
      assert Get(ReasonValue(b), "reason") == Some(CauseValue(b.cause));
    }
  }

  lemma CauseTells(a: CancelCause, b: CancelCause)
    ensures AsStr(Get(CauseValue(a), "kind")) == Some(match a
      case User => "user"
      case Parent => "parent"
      case Hook(_) => "hook"
      case Disposed => "disposed"
      case Legacy => "legacy")
    ensures a.Hook? ==> AsStr(Get(CauseValue(a), "reason")) == Some(a.reason)
    ensures CauseValue(a) == CauseValue(b) ==> a == b
  {
    if CauseValue(a) == CauseValue(b) {
      assert AsStr(Get(CauseValue(a), "kind")) == AsStr(Get(CauseValue(b), "kind"));
      if a.Hook? && b.Hook? {
        assert AsStr(Get(CauseValue(a), "reason")) == Some(a.reason);
        assert AsStr(Get(CauseValue(b), "reason")) == Some(b.reason);
      }
    }
  }

  /** Step n of a closed turn is two rows that name the turn and the step. */
  lemma {:induction false} StepsInPlace(turn: nat, n: nat)
    ensures |StepsText(turn, n)| == 2 * n
    ensures forall k | 0 <= k < n :: StepInPlace(StepsText(turn, n), turn, k)
  {
    if n > 0 {
      StepsInPlace(turn, n - 1);
      forall k | 0 <= k < n
        ensures StepInPlace(StepsText(turn, n), turn, k)
      {
        assert k < n - 1 ==> StepInPlace(StepsText(turn, n - 1), turn, k);
      }
    }
  }

  predicate StepInPlace(rows: seq<Draft>, turn: nat, k: nat)
    requires 2 * k + 1 < |rows|
  {
    var start, end := rows[2 * k], rows[2 * k + 1];
    && start.kind == StepStart
    && AsNat(Get(start.data, "turn")) == Some(turn) && AsNat(Get(start.data, "step")) == Some(k + 1)
    && end.kind == StepEnd && AsNat(Get(end.data, "turn")) == Some(turn) && AsNat(Get(end.data, "step")) == Some(k + 1)
  }

  /** What one operation does to whether a turn is running, from every state there is. */
  lemma TurnOverIff(l: Loop, op: Op)
    ensures l.phase.Idle? ==> (Apply(l, op).0.phase.Running? <==> op.Begin? && op.messages != [])
    ensures l.phase.Running? ==>
      (Apply(l, op).0.phase.Idle? <==>
        || op.Reject? || (op.Cancel? && !l.stepOpen)
        || (op.Reply? && l.stepOpen
            && (l.cancelled.Some? || op.outcome.Failed? || (!op.hasToolCalls && !op.moreInput))))
  {
  }

  /** Whether a step is open afterwards. */
  lemma StepOpenIff(l: Loop, op: Op)
    ensures l.phase.Idle? ==> (Apply(l, op).0.stepOpen <==> l.stepOpen && (op.Begin? ==> op.messages != []))
    ensures l.phase.Running? ==>
      (Apply(l, op).0.stepOpen <==>
        match op
        case Begin(_) => l.stepOpen
        case Enter => l.stepOpen || l.cancelled == None
        case Reply(outcome, calls, more) =>
          l.stepOpen && l.cancelled == None && !outcome.Failed? && (calls || more)
        case Reject => false
        case Cancel(_) => l.stepOpen)
  {
  }

  /** An operation that has no place changes nothing and says so; any other announces an ending just where it has
      written it. */
  lemma RefusedIff(l: Loop, op: Op)
    ensures
      var busy, stray := op.Begin? && l.phase.Running?, op.Reply? && !(l.phase.Running? && l.stepOpen);
      var (l', outs) := Apply(l, op);
      if busy then l' == l && outs == [TurnEnded(Error("AGENT_BUSY", ""))]
      else if stray then l' == l && outs == [TurnEnded(Error("AGENT_NO_OPEN_STEP", ""))]
      else forall i | 0 <= i < |outs| && outs[i].TurnEnded? ::
        i > 0 && outs[i - 1] == Append(TurnEndRow(Position(l').0, ReasonValue(outs[i].ending)))
  {
  }

  /** The model is called exactly by an entered step and by a reply that goes on, once, as the last thing and for the
      step just started. */
  lemma ModelCalledIff(l: Loop, op: Op)
    ensures
      var goes := op.Reply? && l.stepOpen && !op.outcome.Failed? && (op.hasToolCalls || op.moreInput);
      var outs := Apply(l, op).1;
      if l.phase.Running? && l.cancelled == None && (op.Enter? || goes) then
        var turn, step := l.phase.turn, l.phase.step;
        && Position(Apply(l, op).0) == (turn, step + 1) && Apply(l, op).0.stepOpen
        && outs == (if op.Reply? then [Append(StepEndRow(turn, step))] else []) +
                   [Append(StepStartRow(turn, step + 1)), CallModel(turn, step + 1)]
      else forall i | 0 <= i < |outs| :: !outs[i].CallModel?
  {
  }

  function Replies(ops: seq<Op>): nat {
    if ops == [] then 0 else Replies(ops[..|ops| - 1]) + if ops[|ops| - 1].Reply? then 1 else 0
  }

  /** The i-th operation lets a turn with an open step go on: it rejects nothing, and a reply has not failed, comes
      before any cancel and asks for another step. */
  predicate LetsGoOn(ops: seq<Op>, i: nat)
    requires i < |ops|
  {
    && !ops[i].Reject?
    && (ops[i].Reply? ==> !CancelIn(ops[..i]) && !ops[i].outcome.Failed? && (ops[i].hasToolCalls || ops[i].moreInput))
  }

  lemma GoesOnOnce(now: Loop, before: seq<Op>, op: Op)
    requires now.phase.Running? && now.stepOpen && (now.cancelled.Some? <==> CancelIn(before))
    requires op.Enter? ==> MayEnter(now)
    ensures (before + [op])[..|before|] == before
    ensures Apply(now, op).0.phase.Running? <==> LetsGoOn(before + [op], |before|)
    ensures Apply(now, op).0.phase.Running? ==>
      var after := Apply(now, op).0;
      && after.stepOpen && Position(after) == (now.phase.turn, now.phase.step + if op.Reply? then 1 else 0)
      && (after.cancelled.Some? <==> CancelIn(before) || op.Cancel?)
  {
    TurnOverIff(now, op);
  }

  /** Over any disciplined run from an open step: the turn is still running exactly if every operation lets it go on,
      and it is then as many steps further as there were replies. */
  lemma {:induction false} TurnGoesOnIff(l: Loop, ops: seq<Op>)
    requires l.phase.Running? && l.stepOpen && l.cancelled == None && EntersBetweenSteps(l, ops)
    ensures StaysRunning(l, ops) <==> forall i | 0 <= i < |ops| :: LetsGoOn(ops, i)
    ensures StaysRunning(l, ops) ==>
      var now := Run(l, ops).0;
      && now.stepOpen && Position(now) == (l.phase.turn, l.phase.step + Replies(ops))
      && (now.cancelled.Some? <==> CancelIn(ops))
  {
    if ops != [] {
      var n := |ops| - 1;
      var front := ops[..n];
      TurnGoesOnIff(l, front);
      forall i | 0 <= i < n
        ensures LetsGoOn(front, i) <==> LetsGoOn(ops, i)
      {
        assert front[..i] == ops[..i];
      }
      assert CancelIn(ops) <==> CancelIn(front) || ops[n].Cancel?;
      assert (forall i | 0 <= i < |ops| :: LetsGoOn(ops, i))
        <==> (forall i | 0 <= i < n :: LetsGoOn(front, i)) && LetsGoOn(ops, n);
      if StaysRunning(l, front) {
        GoesOnOnce(Run(l, front).0, front, ops[n]);
        assert ops == front + [ops[n]];
      }
    }
  }

  // ----- how a turn ends -----

  /** The turn is still running after every one of the operations. */
  predicate StaysRunning(l: Loop, ops: seq<Op>) {
    Run(l, ops).0.phase.Running? && (ops != [] ==> StaysRunning(l, ops[..|ops| - 1]))
  }

  /** A reply is taken, and it hit the ceiling. */
  predicate Hits(l: Loop, op: Op) {
    op.Reply? && op.outcome.HitCeiling? && l.phase.Running? && l.stepOpen && l.cancelled == None
  }

  predicate CeilingIn(l: Loop, ops: seq<Op>) {
    ops != [] && (CeilingIn(l, ops[..|ops| - 1]) || Hits(Run(l, ops[..|ops| - 1]).0, ops[|ops| - 1]))
  }

  predicate CancelIn(ops: seq<Op>) {
    exists i | 0 <= i < |ops| :: ops[i].Cancel?
  }

  /** While a turn runs, a ceiling hit and a cancel are each remembered, whatever else happens. */
  lemma CeilingSticks(l: Loop, op: Op)
    requires l.phase.Running? && Apply(l, op).0.phase.Running?
    ensures var next := Apply(l, op).0;
      && next.phase.turn == l.phase.turn
      && (next.sawMaxTokens <==> l.sawMaxTokens || Hits(l, op))
      && (next.cancelled.Some? <==> l.cancelled.Some? || op.Cancel?)
  {
  }

  lemma {:induction false} LatchesOverTurn(l: Loop, ops: seq<Op>)
    requires l.phase.Running? && StaysRunning(l, ops)
    ensures var now := Run(l, ops).0;
      && now.phase.Running? && now.phase.turn == l.phase.turn
      && (now.sawMaxTokens <==> l.sawMaxTokens || CeilingIn(l, ops))
      && (now.cancelled.Some? <==> l.cancelled.Some? || CancelIn(ops))
  {
    if ops != [] {
      var n := |ops| - 1;
      LatchesOverTurn(l, ops[..n]);
      CeilingSticks(Run(l, ops[..n]).0, ops[n]);
      assert CancelIn(ops) <==> CancelIn(ops[..n]) || ops[n].Cancel?;
    }
  }

  /** How an operation ends a turn, by the latches it finds. */
  predicate EndsAs(l: Loop, op: Op, ending: Ending) {
    match op
    case Reply(outcome, _, _) =>
      if l.cancelled.Some? then ending.Aborted?
      else if outcome.Failed? then ending == Error(outcome.code, outcome.message)
      else if l.sawMaxTokens || Hits(l, op) then ending == MaxTokens
      else ending == Completed
    case Cancel(cause) => ending == Aborted(cause)
    case Reject => ending == Blocked
    case _ => false
  }

  lemma EndingOp(l: Loop, op: Op) returns (ending: Ending)
    requires l.phase.Running? && Apply(l, op).0.phase.Idle?
    ensures EndsAs(l, op, ending)
    ensures var outs := Apply(l, op).1;
      |outs| >= 2 && outs[|outs| - 2..] == [Append(TurnEndRow(l.phase.turn, ReasonValue(ending))), TurnEnded(ending)]
  {
    var outs := Apply(l, op).1;
    ending := outs[|outs| - 1].ending;
  }

  /** From the first row of a turn to its last: it ends `max-tokens` exactly when a reply ended it that was neither
      cancelled nor failed and some reply of the turn had hit the ceiling. */
  lemma TurnEndsAs(idle: Loop, messages: seq<Value>, ops: seq<Op>, op: Op) returns (ending: Ending)
    requires idle.phase.Idle? && messages != []
    requires StaysRunning(BeginTurn(idle, messages).0, ops)
    requires Apply(Run(BeginTurn(idle, messages).0, ops).0, op).0.phase.Idle?
    ensures var outs := Apply(Run(BeginTurn(idle, messages).0, ops).0, op).1;
      |outs| >= 2 && outs[|outs| - 2..] ==
        [Append(TurnEndRow(idle.phase.lastTurn + 1, ReasonValue(ending))), TurnEnded(ending)]
    ensures var ceiling := CeilingIn(BeginTurn(idle, messages).0, ops + [op]);
      && (ending.MaxTokens? <==> op.Reply? && !op.outcome.Failed? && !CancelIn(ops) && ceiling)
      && (ending.Completed? <==> op.Reply? && !op.outcome.Failed? && !CancelIn(ops) && !ceiling)
      && (ending.Error? <==> op.Reply? && op.outcome.Failed? && !CancelIn(ops))
      && (ending.Aborted? <==> op.Cancel? || (op.Reply? && CancelIn(ops)))
      && (ending.Blocked? <==> op.Reject?)
  {
    var l := BeginTurn(idle, messages).0;
    LatchesOverTurn(l, ops);
    ending := EndingOp(Run(l, ops).0, op);
    assert (ops + [op])[..|ops|] == ops;
  }

  // ----- rebuilding the loop from its log -----

  /** Where a scan of the log stands: the last closed turn, and the turn left open. */
  datatype Scan = Scan(last: nat, open: Option<(nat, nat)>)

  function ScanRow(s: Scan, row: Draft): Scan {
    match row.kind
    case TurnStart => s.(open := Some((OrElse(AsNat(Get(row.data, "turn")), 1), 0)))
    case StepStart =>
      if s.open.Some? then s.(open := Some((s.open.value.0, OrElse(AsNat(Get(row.data, "step")), 1)))) else s
    case TurnEnd =>
      var turn := OrElse(AsNat(Get(row.data, "turn")), s.last);
      Scan(if turn > s.last then turn else s.last, None)
    case _ => s
  }

  function ScanAll(s: Scan, rows: seq<Draft>): Scan {
    if rows == [] then s else ScanRow(ScanAll(s, rows[..|rows| - 1]), rows[|rows| - 1])
  }

  /** `resume_from`: an unclosed turn is always taken to have its step open. */
  function Resumed(s: Scan): Loop {
    if s.open.Some? then Loop(Running(s.open.value.0, s.open.value.1, false), None, false, true) else IdleAfter(s.last)
  }

  lemma {:induction false} ScanConcat(s: Scan, a: seq<Draft>, b: seq<Draft>)
    ensures ScanAll(s, a + b) == ScanAll(ScanAll(s, a), b)
  {
    if b == [] {
      assert a + b == a;
    } else {
      ScanConcat(s, a, b[..|b| - 1]);
      assert (a + b)[..|a + b| - 1] == a + b[..|b| - 1];
    }
  }

  lemma {:induction false} ScanSteps(s: Scan, turn: nat, n: nat)
    requires s.open == Some((turn, 0))
    ensures ScanAll(s, StepsText(turn, n)) == s.(open := Some((turn, n)))
  {
    if n > 0 {
      ScanSteps(s, turn, n - 1);
      ScanConcat(s, StepsText(turn, n - 1), [StepStartRow(turn, n), StepEndRow(turn, n)]);
      ScanTwo(s.(open := Some((turn, n - 1))), StepStartRow(turn, n), StepEndRow(turn, n));
    }
  }

  lemma ScanOne(s: Scan, a: Draft)
    ensures ScanAll(s, [a]) == ScanRow(s, a)
  {
    assert [a][..0] == [];
  }

  lemma ScanTwo(s: Scan, a: Draft, b: Draft)
    ensures ScanAll(s, [a, b]) == ScanRow(ScanRow(s, a), b)
  {
    assert [a, b][..1] == [a];
    ScanOne(s, a);
  }

  lemma ScanTurn(s: Scan, turn: nat, r: TurnRecord)
    requires turn == s.last + 1
    ensures ScanAll(s, TurnText(turn, r)) == Scan(turn, None)
  {
    var started := [TurnStartRow(turn)];
    ScanOne(s, TurnStartRow(turn));
    ScanConcat(s, started, StepsText(turn, r.steps));
    ScanSteps(ScanRow(s, TurnStartRow(turn)), turn, r.steps);
    ScanConcat(s, started + StepsText(turn, r.steps), [TurnEndRow(turn, r.reason)]);
    ScanOne(s.(open := Some((turn, r.steps))), TurnEndRow(turn, r.reason));
  }

  /** A closed turn behind any log moves the scan on by one. */
  lemma ScanTurnAfter(start: Scan, log: seq<Draft>, last: nat, r: TurnRecord, turn: seq<Draft>)
    requires ScanAll(start, log) == Scan(last, None) && turn == TurnText(last + 1, r)
    ensures ScanAll(start, log + turn) == Scan(last + 1, None)
  {
    ScanTurn(Scan(last, None), last + 1, r);
    ScanConcat(start, log, turn);
  }

  lemma ClosedMore(last: nat, turns: seq<TurnRecord>) returns (before: seq<Draft>, turn: seq<Draft>)
    requires turns != []
    ensures before == ClosedText(last, turns[..|turns| - 1]) && turn == TurnText(last + |turns|, turns[|turns| - 1])
    ensures ClosedText(last, turns) == before + turn
  {
    before, turn := ClosedText(last, turns[..|turns| - 1]), TurnText(last + |turns|, turns[|turns| - 1]);
  }

  lemma {:induction false} ScanClosed(last: nat, turns: seq<TurnRecord>)
    ensures ScanAll(Scan(last, None), ClosedText(last, turns)) == Scan(last + |turns|, None)
  {
    if turns != [] {
      var n := |turns| - 1;
      ScanClosed(last, turns[..n]);
      var before, turn := ClosedMore(last, turns);
      ScanTurnAfter(Scan(last, None), before, last + n, turns[n], turn);
    }
  }

  lemma ScanOpen(l: Loop, last: nat, turns: seq<TurnRecord>)
    requires Reached(l, last, turns) && l.phase.Running?
    ensures ScanAll(Scan(last + |turns|, None), OpenText(l)) == Scan(last + |turns|, Some((l.phase.turn, l.phase.step)))
  {
    var s, turn, step := Scan(last + |turns|, None), l.phase.turn, l.phase.step;
    var whole := if l.stepOpen then step - 1 else step;
    ScanStarted(s, turn, whole);
    if l.stepOpen {
      ScanOne(s.(open := Some((turn, whole))), StepStartRow(turn, step));
      ScanConcat(s, [TurnStartRow(turn)] + StepsText(turn, whole), [StepStartRow(turn, step)]);
      assert OpenText(l) == [TurnStartRow(turn)] + StepsText(turn, whole) + [StepStartRow(turn, step)];
    }
  }

  lemma ScanStarted(s: Scan, turn: nat, n: nat)
    ensures ScanAll(s, [TurnStartRow(turn)] + StepsText(turn, n)) == s.(open := Some((turn, n)))
  {
    ScanOne(s, TurnStartRow(turn));
    ScanSteps(s.(open := Some((turn, 0))), turn, n);
    ScanConcat(s, [TurnStartRow(turn)], StepsText(turn, n));
  }

  lemma ScanReached(l: Loop, last: nat, turns: seq<TurnRecord>)
    requires Reached(l, last, turns)
    ensures ScanAll(Scan(last, None), ClosedText(last, turns) + OpenText(l)) ==
      Scan(last + |turns|, if l.phase.Running? then Some((l.phase.turn, l.phase.step)) else None)
  {
    ScanClosed(last, turns);
    if l.phase.Running? {
      ScanConcat(Scan(last, None), ClosedText(last, turns), OpenText(l));
      ScanOpen(l, last, turns);
    } else {
      assert ClosedText(last, turns) + OpenText(l) == ClosedText(last, turns);
    }
  }

  /** The log a run writes is enough to find the loop again.  Whether a step is open comes
      back too, except in a turn that has not opened its first step. */
  lemma ResumeFindsTheLoop(last: nat, ops: seq<Op>)
    requires EntersBetweenSteps(IdleAfter(last), ops)
    ensures
      var live := Run(IdleAfter(last), ops).0;
      var found := Resumed(ScanAll(Scan(last, None), Rows(Run(IdleAfter(last), ops).1)));
      && Position(found) == Position(live)
      && found.phase.Running? == live.phase.Running?
      && (found.stepOpen == live.stepOpen <==> live.phase.Idle? || Position(live).1 >= 1)
      && found.cancelled == None && !found.sawMaxTokens
  {
    var live := Run(IdleAfter(last), ops).0;
    var turns := RunsWriteTurns(last, ops);
    ResumedAgrees(live, last, turns);
  }

  lemma ResumedAgrees(live: Loop, last: nat, turns: seq<TurnRecord>)
    requires Reached(live, last, turns)
    ensures
      var found := Resumed(ScanAll(Scan(last, None), ClosedText(last, turns) + OpenText(live)));
      && Position(found) == Position(live)
      && found.phase.Running? == live.phase.Running?
      && (found.stepOpen == live.stepOpen <==> live.phase.Idle? || Position(live).1 >= 1)
  {
    ScanReached(live, last, turns);
  }
}
