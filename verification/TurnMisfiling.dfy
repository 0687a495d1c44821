/** Why the guard on new input is exact: an executor left behind files its rows where its own step was, and a run can
    always be finished so. */
module TurnMisfiling {
  import opened Json
  import opened SessionLog
  import opened AgentLoopSpec
  import opened TurnSpec
  import opened TurnProofs
  import opened TurnRuns
  import InboxSpec

  // ----- where the tool rows of a complete turn are -----

  predicate IsToolRow(d: Draft) {
    d.kind == ToolCall || d.kind == ToolResult
  }

  /** The turn and step a reader of the rows before `i` is in. */
  function OpenAt(rows: seq<LogRow>, i: nat): Option<(nat, nat)>
    requires i <= |rows|
  {
    ScanAll(Scan(0, None), Drafts(rows[..i])).open
  }

  predicate InPlace(rows: seq<LogRow>, i: nat)
    requires i < |rows|
  {
    var at := OpenAt(rows, i);
    at.Some? && At(rows[i].draft, at.value.0, at.value.1)
  }

  lemma ScanPrefix(s: Scan, turn: nat, n: nat, body: seq<Draft>, j: nat)
    requires n > 0 && s.open == Some((turn, n - 1)) && BodyOk(turn, n, body)
    requires 1 <= j <= |body| + 1
    ensures ScanAll(s, ([StepStartRow(turn, n)] + body + [StepEndRow(turn, n)])[..j]).open == Some((turn, n))
  {
    var whole := [StepStartRow(turn, n)] + body + [StepEndRow(turn, n)];
    assert whole[..j] == [StepStartRow(turn, n)] + body[..j - 1];
    ScanConcat(s, [StepStartRow(turn, n)], body[..j - 1]);
    ScanOne(s, StepStartRow(turn, n));
    ScanBody(s.(open := Some((turn, n))), turn, n, body[..j - 1]);
  }

  lemma ToolInBody(turn: nat, n: nat, body: seq<Draft>, k: nat)
    requires BodyOk(turn, n, body) && k < |body| + 2
    requires IsToolRow(([StepStartRow(turn, n)] + body + [StepEndRow(turn, n)])[k])
    ensures 1 <= k <= |body| && At(([StepStartRow(turn, n)] + body + [StepEndRow(turn, n)])[k], turn, n)
  {
    var last := [StepStartRow(turn, n)] + body + [StepEndRow(turn, n)];
    assert last[0] == StepStartRow(turn, n) && last[|body| + 1] == StepEndRow(turn, n);
    assert last[k] == body[k - 1];
  }

  /** Inside the last step. */
  lemma StepPlaces(s: Scan, before: seq<Draft>, turn: nat, n: nat, body: seq<Draft>, k: nat)
    requires n > 0 && ScanAll(s, before).open == Some((turn, n - 1)) && BodyOk(turn, n, body)
    requires k < |body| + 2 && IsToolRow(([StepStartRow(turn, n)] + body + [StepEndRow(turn, n)])[k])
    ensures
      var last := [StepStartRow(turn, n)] + body + [StepEndRow(turn, n)];
      ScanAll(s, before + last[..k]).open == Some((turn, n)) && At(last[k], turn, n)
  {
    ToolInBody(turn, n, body, k);
    ScanPrefix(ScanAll(s, before), turn, n, body, k);
    ScanConcat(s, before, ([StepStartRow(turn, n)] + body + [StepEndRow(turn, n)])[..k]);
  }

  lemma {:induction false} StepsPlace(s: Scan, turn: nat, bodies: seq<seq<Draft>>, j: nat)
    requires s.open == Some((turn, 0)) && BodiesOk(turn, bodies)
    requires j < |StepsLog(turn, bodies)| && IsToolRow(StepsLog(turn, bodies)[j])
    ensures
      var at := ScanAll(s, StepsLog(turn, bodies)[..j]).open;
      at.Some? && At(StepsLog(turn, bodies)[j], at.value.0, at.value.1)
  {
    var n := |bodies|;
    var before, body := StepsLog(turn, bodies[..n - 1]), bodies[n - 1];
    var last := [StepStartRow(turn, n)] + body + [StepEndRow(turn, n)];
    assert StepsLog(turn, bodies) == before + last;
    if j < |before| {
      StepsPlace(s, turn, bodies[..n - 1], j);
      assert StepsLog(turn, bodies)[..j] == before[..j];
    } else {
      var k := j - |before|;
      assert StepsLog(turn, bodies)[..j] == before + last[..k];
      ScanStepsLog(s, turn, bodies[..n - 1]);
      assert BodyOk(turn, n, body);
      StepPlaces(s, before, turn, n, body, k);
    }
  }

  lemma TurnPlaces(s: Scan, splice: Draft, turn: nat, bodies: seq<seq<Draft>>, reason: Value, k: nat)
    requires s.open == None && splice.kind == InboxSpliced && BodiesOk(turn, bodies)
    requires k < |TurnLog(splice, turn, bodies, reason)| && IsToolRow(TurnLog(splice, turn, bodies, reason)[k])
    ensures
      var log := TurnLog(splice, turn, bodies, reason);
      var at := ScanAll(s, log[..k]).open;
      at.Some? && At(log[k], at.value.0, at.value.1)
  {
    var opening, steps := [splice, TurnStartRow(turn)], StepsLog(turn, bodies);
    var log := TurnLog(splice, turn, bodies, reason);
    assert log == opening + (steps + [TurnEndRow(turn, reason)]);
    var j := k - 2;
    assert k >= 2 && log[k] == steps[j];
    assert log[..k] == opening + steps[..j];
    ScanConcat(s, opening, steps[..j]);
    ScanTwo(s, splice, TurnStartRow(turn));
    StepsPlace(s.(open := Some((turn, 0))), turn, bodies, j);
  }

  /** Every call and result of a complete turn names the turn and step it stands in. */
  lemma ToolRowsInPlace(g: Generation, i: nat)
    requires WellFormed(g) && g.openedWith <= i < |g.rows| && IsToolRow(g.rows[i].draft)
    ensures InPlace(g.rows, i)
  {
    var t, reason :| Tells(g, t, reason);
    var log := TurnLog(t.splice, TurnNo(t), t.bodies, reason);
    var n := |t.base|;
    var k := i - n;
    AddAllPlaces(t.base, log);
    PlacedRows(g.rows, t.base, log, k);
    ScanConcat(Scan(0, None), Drafts(t.base), log[..k]);
    TurnPlaces(Scan(LastTurn(t.base), None), t.splice, TurnNo(t), t.bodies, reason, k);
  }

  lemma PlacedRows(rows: seq<LogRow>, base: seq<LogRow>, log: seq<Draft>, k: nat)
    requires Drafts(rows) == Drafts(base) + log && k < |log|
    ensures |rows| == |base| + |log| && rows[|base| + k].draft == log[k]
    ensures Drafts(rows[..|base| + k]) == Drafts(base) + log[..k]
  {
    assert |Drafts(rows)| == |rows| && |Drafts(base)| == |base|;
    assert Drafts(rows)[|base| + k] == log[k];
    assert Drafts(rows[..|base| + k]) == Drafts(rows)[..|base| + k];
  }

  // ----- a turn that finds somebody else's executor -----

  /** A log without splices gives the admitted message to its own turn. */
  lemma ClaimsOwn(rows: seq<LogRow>, message: Value)
    requires forall i | 0 <= i < |rows| :: rows[i].draft.kind != InboxSpliced
    ensures Claimable(rows, message)
  {
    var splice := InboxSpec.Splice(InboxSpec.NextTurn, 0, 0, [message]);
    NoSplicesFold(Drafts(rows));
    assert Drafts(AddRow(rows, SpliceDraft(message))) == Drafts(rows) + [InboxSpec.SpliceRow(splice)];
    InboxSpec.FoldOneMore(Drafts(rows), InboxSpec.SpliceRow(splice));
    FirstSplice(message);
  }

  lemma FirstSplice(message: Value)
    ensures
      var splice := InboxSpec.SpliceRow(InboxSpec.Splice(InboxSpec.NextTurn, 0, 0, [message]));
      InboxSpec.FoldRow(InboxSpec.Ok(InboxSpec.EMPTY), splice) == InboxSpec.Ok(InboxSpec.Lists([message], []))
  {
    InboxSpec.SpliceReadsBack(InboxSpec.EMPTY, InboxSpec.Splice(InboxSpec.NextTurn, 0, 0, [message]));
    OneIsDistinct(message);
  }

  lemma {:induction false} NoSplicesFold(drafts: seq<Draft>)
    requires forall i | 0 <= i < |drafts| :: drafts[i].kind != InboxSpliced
    ensures InboxSpec.Fold(drafts) == InboxSpec.Ok(InboxSpec.EMPTY)
  {
    if drafts != [] {
      NoSplicesFold(drafts[..|drafts| - 1]);
    }
  }

  lemma OneIsDistinct(message: Value)
    ensures InboxSpec.Duplicate([message]) == None
    ensures InboxSpec.SpliceSeq([], 0, 0, [message]) == [message]
    ensures InboxSpec.Pending(InboxSpec.Lists([message], [])) == [message]
  {
    assert [message][..0] == [];
    assert InboxSpec.Duplicate([]) == None;
  }

  /** A closed log whose next turn is not number `turn`. */
  function OtherLog(turn: nat): seq<LogRow> {
    if turn == 1 then AddAll([], [TurnStartRow(1), TurnEndRow(1, Null)]) else []
  }

  lemma OtherLogIsClosed(turn: nat)
    ensures ClosedLog(OtherLog(turn)) && LastTurn(OtherLog(turn)) + 1 != turn
    ensures forall i | 0 <= i < |OtherLog(turn)| :: OtherLog(turn)[i].draft.kind != InboxSpliced
  {
    assert Drafts([]) == [] && ScanAll(Scan(0, None), []) == Scan(0, None);
    if turn == 1 {
      var log := [TurnStartRow(1), TurnEndRow(1, Null)];
      AddAllPlaces([], log);
      assert Drafts(OtherLog(1)) == [] + log == log;
      ScanTwo(Scan(0, None), log[0], log[1]);
      assert forall i | 0 <= i < 2 :: OtherLog(1)[i].draft == log[i];
    }
  }

  const TOOLS_WANTED := TurnSpec.Reply.Reply(Some(Replied), [], true, 1)

  const NOTHING := Batch([], 0, false)

  /** A call on a log that opens another turn. */
  function OtherCall(e: Exec, session: string, request: string): (Event, World) {
    (RunCall(session, request, true, Null), World(Found(OtherLog(e.turn)), NOTHING, NOTHING, true))
  }

  /** Its reply wants tools, and the executor that is found files a call. */
  function ToolsReply(id: nat): (Event, World) {
    (Answer(id, Http(TOOLS_WANTED)), World(Missing, Batch([ToolRow(ToolCall, Null)], 1, false), NOTHING, true))
  }

  /** The executor's last answer, after which no provider can take the next model call. */
  function ToolsAnswer(id: nat): (Event, World) {
    (Answer(id, OtherResult), World(Missing, Batch([], 0, true), NOTHING, false))
  }

  function Misleading(m: Machine, e: Exec, session: string, request: string): seq<(Event, World)> {
    [OtherCall(e, session, request), ToolsReply(m.effects), ToolsAnswer(m.effects + 1)]
  }

  ghost predicate Misfiled(g: Generation) {
    exists i | g.openedWith <= i < |g.rows| :: IsToolRow(g.rows[i].draft) && !InPlace(g.rows, i)
  }

  lemma MisfiledIsMalformed(g: Generation)
    requires Misfiled(g)
    ensures !WellFormed(g)
  {
    var i :| g.openedWith <= i < |g.rows| && IsToolRow(g.rows[i].draft) && !InPlace(g.rows, i);
    if WellFormed(g) {
      ToolRowsInPlace(g, i);
    }
  }

  /** The row the stale executor files stands in the new turn and names the old one. */
  lemma StaleRowMisfiled(s: TurnState, t: Story, d: Draft, e: Exec, more: seq<Draft>)
    requires Held(s, t, [d]) && TurnNo(t) != e.turn
    ensures
      var rows := AddAll(AddRow(s.rows, ToolDraft(e, ToolRow(ToolCall, Null))), more);
      Misfiled(Generation(s.session, s.request, rows, s.openedWith))
  {
    var i := |s.rows|;
    var filed := AddRow(s.rows, ToolDraft(e, ToolRow(ToolCall, Null)));
    var rows := AddAll(filed, more);
    AddAllPlaces(filed, more);
    assert rows[i] == filed[i] && rows[..i] == filed[..|filed|][..i] == s.rows;
    OpenRowsPlace(s, t, d);
    assert AsNat(Get(rows[i].draft.data, "turn")) == Some(e.turn);
  }

  lemma OpenRowsPlace(s: TurnState, t: Story, d: Draft)
    requires Held(s, t, [d])
    ensures s.openedWith <= |s.rows|
    ensures ScanAll(Scan(0, None), Drafts(s.rows)).open == Some((TurnNo(t), |t.bodies| + 1))
  {
    AddAllPlaces(t.base, OpenLog(t, [d]));
    OpenLogScan(t, d);
  }

  lemma OpenLogScan(t: Story, d: Draft)
    requires StoryOk(t) && BodyOk(TurnNo(t), |t.bodies| + 1, [d])
    ensures ScanAll(Scan(0, None), Drafts(t.base) + OpenLog(t, [d])).open == Some((TurnNo(t), |t.bodies| + 1))
  {
    var turn, n := TurnNo(t), |t.bodies| + 1;
    var opening, steps, open := [t.splice, TurnStartRow(turn)], StepsLog(turn, t.bodies), [StepStartRow(turn, n)] + [d];
    var s := Scan(LastTurn(t.base), None);
    ScanConcat(Scan(0, None), Drafts(t.base), OpenLog(t, [d]));
    assert OpenLog(t, [d]) == opening + steps + open;
    ScanConcat(s, opening + steps, open);
    ScanConcat(s, opening, steps);
    ScanTwo(s, t.splice, TurnStartRow(turn));
    ScanStepsLog(s.(open := Some((turn, 0))), turn, t.bodies);
    var entered := s.(open := Some((turn, n - 1)));
    assert ([StepStartRow(turn, n)] + [d] + [StepEndRow(turn, n)])[..2] == open;
    ScanPrefix(entered, turn, n, [d], 2);
  }

  /** The call that opens the other turn. */
  lemma OtherCallOpens(m: Machine, e: Exec, session: string, request: string, next: (Event, World),
                       last: (Event, World))
    returns (t: Story, called: Machine)
    requires session != "" && request !in m.completed
    ensures called.op.Call? && called.op.effect == m.effects && called.effects == m.effects + 1
    ensures called.exec == m.exec && called.finished == m.finished && called.chosen == m.chosen
    ensures Held(called.op.state, t, []) && TurnNo(t) != e.turn && called.op.state.fsm.cancelled == None
    ensures RunAll(m, [OtherCall(e, session, request), next, last]) == RunAll(called, [next, last])
  {
    OtherLogIsClosed(e.turn);
    ClaimsOwn(OtherLog(e.turn), Null);
    var first;
    t, first := StartOpens(m, session, request, Null, OtherLog(e.turn), true);
    called := OpenCall(m, first);
    RunOn(m, OtherCall(e, session, request), called, next, last);
  }

  /** From the open call on: the stale executor's row is filed, and the turn finished over it. */
  lemma StaleTurn(m: Machine, e: Exec, t: Story, w1: World, w2: World) returns (tools: Machine, g: Generation)
    requires m.op.Call? && Held(m.op.state, t, []) && m.op.state.fsm.cancelled == None && TurnNo(t) != e.turn
    requires m.exec == Some(e) && !e.finished && w1.first == Batch([ToolRow(ToolCall, Null)], 1, false)
    requires w2.first == Batch([], 0, true) && !w2.routable
    ensures tools == Settle(m.(op := NoOp), m.op.state, TOOLS_WANTED, w1) && Misfiled(g)
    ensures
      var last := OnAnswer(tools, m.effects, OtherResult, w2);
      last.finished == m.finished + [g] && (m.chosen == None ==> last.chosen == Some(g))
  {
    var waiting := SettlesStale(m, e, t, w1);
    tools := Settle(m.(op := NoOp), m.op.state, TOOLS_WANTED, w1);
    var more := ClosesStale(tools, e, w2);
    g := Generation(waiting.session, waiting.request, AddAll(tools.op.state.rows, more), waiting.openedWith);
    StaleRowMisfiled(waiting, t, SettleDraft(m.op.state, TOOLS_WANTED), e, more);
  }

  lemma StaleRun(m: Machine, e: Exec, t: Story) returns (g: Generation)
    requires m.op.Call? && Held(m.op.state, t, []) && m.op.state.fsm.cancelled == None && TurnNo(t) != e.turn
    requires m.exec == Some(e) && !e.finished
    ensures Misfiled(g)
    ensures
      var last := RunAll(m, [ToolsReply(m.op.effect), ToolsAnswer(m.effects)]);
      last.finished == m.finished + [g] && (m.chosen == None ==> last.chosen == Some(g))
  {
    var e1, e2 := ToolsReply(m.op.effect), ToolsAnswer(m.effects);
    RunTwo(m, e1, e2);
    var tools;
    tools, g := StaleTurn(m, e, t, e1.1, e2.1);
  }

  /** An unfinished executor left in the machine misleads the next turn, from whatever state. */
  lemma MisleadingRun(m: Machine, e: Exec, session: string, request: string) returns (g: Generation)
    requires m.exec == Some(e) && !e.finished && session != "" && request !in m.completed
    ensures Misfiled(g)
    ensures
      var last := RunAll(m, Misleading(m, e, session, request));
      last.finished == m.finished + [g] && (m.chosen == None ==> last.chosen == Some(g))
  {
    var reply, answer := ToolsReply(m.effects), ToolsAnswer(m.effects + 1);
    assert Misleading(m, e, session, request) == [OtherCall(e, session, request), reply, answer];
    var t, called := OtherCallOpens(m, e, session, request, reply, answer);
    g := StaleRun(called, e, t);
  }

  lemma RunTwo(m: Machine, e0: (Event, World), e1: (Event, World))
    ensures RunAll(m, [e0]) == Step(m, e0.0, e0.1)
    ensures RunAll(m, [e0, e1]) == Step(Step(m, e0.0, e0.1), e1.0, e1.1)
  {
    assert [] + [e0] == [e0] && [e0] + [e1] == [e0, e1];
    RunAllMore(m, [], e0);
    RunAllMore(m, [e0], e1);
  }

  lemma RunOn(m: Machine, e0: (Event, World), after: Machine, e1: (Event, World), e2: (Event, World))
    requires Step(m, e0.0, e0.1) == after
    ensures RunAll(m, [e0, e1, e2]) == RunAll(after, [e1, e2])
  {
    RunTwo(m, e0, e1);
    RunTwo(after, e1, e2);
    assert [e0, e1] + [e2] == [e0, e1, e2];
    RunAllMore(m, [e0, e1], e2);
  }

  lemma LawfulThree(m: Machine, e0: (Event, World), e1: (Event, World), e2: (Event, World))
    requires Lawful(m, e0.0, e0.1) && e1.0.Answer? && WorldOk(e1.1) && e2.0.Answer? && WorldOk(e2.1)
    ensures LawfulRun(m, [e0, e1, e2])
  {
    var one, two := [e0], [e0, e1];
    assert LawfulRun(m, []) && RunAll(m, []) == m && one[..0] == [] && two[..1] == one && [e0, e1, e2][..2] == two;
    assert LawfulRun(m, one);
    AnswerIsLawful(RunAll(m, one), e1);
    assert LawfulRun(m, two);
    AnswerIsLawful(RunAll(m, two), e2);
  }

  lemma AnswerIsLawful(m: Machine, e: (Event, World))
    requires e.0.Answer? && WorldOk(e.1)
    ensures Lawful(m, e.0, e.1)
  {
  }

  lemma SettlesStale(m: Machine, e: Exec, t: Story, w: World) returns (waiting: TurnState)
    requires m.op.Call? && Held(m.op.state, t, []) && m.op.state.fsm.cancelled == None
    requires m.exec == Some(e) && !e.finished && w.first == Batch([ToolRow(ToolCall, Null)], 1, false)
    ensures Held(waiting, t, [SettleDraft(m.op.state, TOOLS_WANTED)])
    ensures waiting.session == m.op.state.session && waiting.request == m.op.state.request
      && waiting.fsm == m.op.state.fsm
    ensures Settle(m.(op := NoOp), m.op.state, TOOLS_WANTED, w) ==
      m.(op := Tools(waiting.(rows := AddRow(waiting.rows, ToolDraft(e, ToolRow(ToolCall, Null))))),
         toolEffect := Some(m.effects), effects := m.effects + 1, keys := m.keys + [None])
  {
    var s := m.op.state;
    SettledHeld(s, t, TOOLS_WANTED);
    waiting := s.(rows := AddRow(s.rows, SettleDraft(s, TOOLS_WANTED)), pendingCalls := Some(1));
    var wanted := [ToolRow(ToolCall, Null)];
    assert wanted[..0] == [];
    assert AddToolRows(waiting.rows, e, wanted) == AddRow(waiting.rows, ToolDraft(e, wanted[0]));
    assert e.(finished := false) == e;
    assert seq(1, _ => KillKey(NoOp)) == [None];
  }

  lemma ClosesStale(m: Machine, e: Exec, w: World) returns (more: seq<Draft>)
    requires m.op.Tools? && m.exec == Some(e) && m.toolEffect.Some?
    requires m.op.state.fsm.phase.Running? && m.op.state.fsm.stepOpen && m.op.state.fsm.cancelled == None
    requires w.first == Batch([], 0, true) && !w.routable
    ensures
      var s, last := m.op.state, OnAnswer(m, m.toolEffect.value, OtherResult, w);
      var g := Generation(s.session, s.request, AddAll(s.rows, more), s.openedWith);
      last.finished == m.finished + [g] && (m.chosen == None ==> last.chosen == Some(g))
  {
    var s := m.op.state;
    var inbox := InboxSpec.Fold(Drafts(s.rows));
    var pending := inbox.Ok? && InboxSpec.Pending(inbox.lists) != [];
    var next := StepReply(s.fsm, Replied, true, pending);
    var failed := StepReply(next.0, UNROUTABLE, false, false);
    assert next.1[|next.1| - 1].CallModel? && failed.0.phase.Idle?;
    AddAllConcat(s.rows, Rows(next.1), Rows(failed.1));
    more := Rows(next.1) + Rows(failed.1);
  }

  // ----- the guard is exact -----

  /** A text longer than every one of a set is not in it. */
  lemma {:induction false} Longest(names: set<string>) returns (name: string)
    ensures forall x | x in names :: |x| < |name|
    decreases |names|
  {
    name := "r";
    if names != {} {
      var x :| x in names;
      var rest := Longest(names - {x});
      name := rest + x + "r";
      forall y | y in names
        ensures |y| < |name|
      {
        assert y == x || y in names - {x};
      }
    }
  }

  lemma StrandedStays(m: Machine, ev: Event, w: World)
    requires Strands(m, ev, w)
    ensures !Step(m, ev, w).op.Tools? && Step(m, ev, w).exec == m.exec
  {
    if ev.RunCall? && w.lookup.Found? && Claimable(w.lookup.rows, ev.message) {
      StartLeavesExecutor(m, ev.session, ev.request, ev.message, w.lookup.rows, w.routable);
    }
  }

  lemma StartLeavesExecutor(m: Machine, session: string, request: string, message: Value, rows: seq<LogRow>,
                            routable: bool)
    requires Claimable(rows, message)
    ensures
      var after := StartTurn(m, session, request, message, rows, routable);
      (after.op.Call? || Ended(after)) && after.exec == m.exec
  {
    var admitted := AddRow(rows, SpliceDraft(message));
    var messages := InboxSpec.Claim(InboxSpec.Fold(Drafts(admitted)).lists, InboxSpec.NextTurn).1;
    var fsm := Resumed(ScanAll(Scan(0, None), Drafts(admitted)));
    var state := TurnState(session, request, admitted, fsm, |rows|, None);
    ContinueLeavesExecutor(m, Absorb(state, BeginTurn(fsm, messages), routable), routable);
  }

  lemma ContinueLeavesExecutor(m: Machine, r: (TurnState, bool), routable: bool)
    ensures
      var after := ContinueTurn(m, r, routable);
      (after.op.Call? || Ended(after)) && after.exec == m.exec
  {
  }

  lemma MisleadingIsLawful(m: Machine, e: Exec, session: string, request: string)
    requires m.exec == Some(e) && !e.finished && !m.op.Tools?
    ensures LawfulRun(m, Misleading(m, e, session, request))
  {
    OtherLogIsClosed(e.turn);
    LawfulThree(m, OtherCall(e, session, request), ToolsReply(m.effects), ToolsAnswer(m.effects + 1));
  }

  /** Whatever machine holds an unfinished executor with no tools running can be led on so. */
  lemma LeftoverMisfiles(m: Machine) returns (evs: seq<(Event, World)>)
    requires !m.op.Tools? && !Spent(m)
    ensures LawfulRun(m, evs) && !AllWellFormed(RunAll(m, evs))
  {
    var request := Longest(m.completed);
    assert request !in m.completed;
    var e := m.exec.value;
    evs := Misleading(m, e, "s", request);
    MisleadingIsLawful(m, e, "s", request);
    var g := MisleadingRun(m, e, "s", request);
    MisfiledIsMalformed(g);
    assert g in RunAll(m, evs).finished;
  }

  lemma StrandingMisfiles(m: Machine, ev: Event, w: World) returns (evs: seq<(Event, World)>)
    requires Strands(m, ev, w)
    ensures LawfulRun(Step(m, ev, w), evs) && !AllWellFormed(RunAll(Step(m, ev, w), evs))
  {
    StrandedStays(m, ev, w);
    evs := LeftoverMisfiles(Step(m, ev, w));
  }

  /** What a machine in order may be given next is exactly what strands no executor: every other input has a lawful
      continuation that finishes a turn with a row out of its place. */
  lemma StrandingMisfilesIff(m: Machine, ev: Event, w: World)
    requires Inv(m) && WorldOk(w)
    ensures Strands(m, ev, w) <==>
      exists evs :: LawfulRun(Step(m, ev, w), evs) && !AllWellFormed(RunAll(Step(m, ev, w), evs))
  {
    if Strands(m, ev, w) {
      var evs := StrandingMisfiles(m, ev, w);
    } else {
      StepKeeps(m, ev, w);
      forall evs | LawfulRun(Step(m, ev, w), evs)
        ensures AllWellFormed(RunAll(Step(m, ev, w), evs))
      {
        RunKeeps(Step(m, ev, w), evs);
      }
    }
  }

  // ----- from the start -----

  const FIRST_CALL: (Event, World) := (RunCall("a", "1", true, Null), World(Found([]), NOTHING, NOTHING, true))
  const FIRST_REPLY: (Event, World) :=
    (Answer(0, Http(TOOLS_WANTED)), World(Missing, Batch([], 1, false), NOTHING, true))

  lemma EmptyLogOpens()
    ensures Claimable([], Null) && ClosedLog([]) && LastTurn([]) == 0
  {
    ClaimsOwn([], Null);
    assert Drafts([]) == [] && ScanAll(Scan(0, None), []) == Scan(0, None);
  }

  lemma FirstCallOpens(next: (Event, World)) returns (called: Machine)
    ensures called.op.Call? && called == OpenCall(IDLE, called.op.state)
    ensures called.op.state.fsm.phase.Running? && called.op.state.fsm.cancelled == None
    ensures Position(called.op.state.fsm) == (1, 1)
    ensures RunAll(IDLE, [FIRST_CALL, next]) == Step(called, next.0, next.1)
  {
    EmptyLogOpens();
    var t, first := StartOpens(IDLE, "a", "1", Null, [], true);
    called := OpenCall(IDLE, first);
    RunTwo(IDLE, FIRST_CALL, next);
  }

  /** With no executor there, one is made at the turn's own place. */
  lemma SettlesFresh(m: Machine, w: World)
    requires m.op.Call? && m.op.state.fsm.phase.Running? && m.op.state.fsm.cancelled == None
    requires m.exec == None && w.first == Batch([], 1, false)
    ensures
      var at, tools := Position(m.op.state.fsm), Settle(m.(op := NoOp), m.op.state, TOOLS_WANTED, w);
      tools.op.Tools? && tools.exec == Some(Exec(at.0, at.1, false)) && tools.chosen == m.chosen
        && tools.completed == m.completed
  {
    var s := m.op.state;
    var waiting := s.(rows := AddRow(s.rows, SettleDraft(s, TOOLS_WANTED)), pendingCalls := Some(1));
    assert Settle(m.(op := NoOp), s, TOOLS_WANTED, w) == ResumeTools(m.(op := NoOp), waiting, w);
  }

  /** A call on an empty log, and a reply that wants tools. */
  lemma ToolsFromStart()
    ensures
      var tools := RunAll(IDLE, [FIRST_CALL, FIRST_REPLY]);
      tools.op.Tools? && tools.exec == Some(Exec(1, 1, false)) && tools.chosen == None && tools.completed == {}
  {
    var called := FirstCallOpens(FIRST_REPLY);
    SettlesFresh(called, FIRST_REPLY.1);
  }

  /** From the very start: a call on one session, a reply that wants tools, and while they run a call on another
      session.  The second turn is finished, and written, with a row of the first one's executor in it. */
  lemma SecondCallMisfiles()
    ensures
      var tools := RunAll(IDLE, [FIRST_CALL, FIRST_REPLY]);
      var last := RunAll(tools, Misleading(tools, Exec(1, 1, false), "b", "2"));
      tools.op.Tools? && last.chosen.Some? && Misfiled(last.chosen.value) && !WellFormed(last.chosen.value)
  {
    ToolsFromStart();
    var tools := RunAll(IDLE, [FIRST_CALL, FIRST_REPLY]);
    var g := MisleadingRun(tools, Exec(1, 1, false), "b", "2");
    MisfiledIsMalformed(g);
  }
}
