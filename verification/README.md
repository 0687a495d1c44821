# Vocoder: a Dafny model of its machines

Vocoder is built from machines that take an input and hand back outputs; everything that touches the
outside world is an effect they ask for.  This project models the machines and algorithms on which its
guarantees rest, and proves those guarantees for all inputs, all runs and all interleavings.

Where the source changes state in place, the model is a class or a method with the source's fields and
loops, proved against a specification made of functions; the properties are then proved of the
specification.  Each part has one or more modules:

- **Agent turns.**  `AgentLoopSpec`/`AgentLoop` are the turn and step machine and the language of the log it
  writes; `InboxSpec`/`Inbox` are the inbox, which is a fold over rows of the same log; `TurnSpec` and `TurnDriver`
  are the driver that sequences model calls, tools, failures and cancels.  `TurnProofs` is what each handler keeps,
  `TurnRuns` what runs finish and when a cancel is heeded, `TurnAnswers` what one answer does to a turn, and
  `TurnMisfiling` why the guard on runs is exact.  The provider, the tool executor, the log cache and the route table
  are arbitrary inputs (`World`, `Reply`).
- **Events.**  `RouterSpec` and `Router` are the event router with its queue, its inline chains and its delivery cap;
  machines are an arbitrary function `handle`.  `RouterProofs` is what a step serves and conserves, `RouterEmits` whom
  its emits reach, `RouterReplay` that its record is genuine, `RouterOrder` in what order it files, and `RouterStack`
  how much call stack it needs.  `EffectPump` is the host loop that carries out effects.
- **Schemas.**  `Schema` is the interpreter and what its keywords mean, `SchemaTables` what each keyword admits by itself,
  `SchemaPruning` the generator's pruning, `SchemaExtras` what the interpreter never looks at, `ArgumentCheck` the
  argument gate on the generated table.
- **Boot graph.**  `ModuleGraph` (ordering), `ComboBatches` (URL-bounded batches), `SourceMaps` (script and
  indexed map) and `DotSegments` (path normalization).
- **Detached processes.**  `DetachedTable` is the table, the kill registry and the stream reader; `DetachedProtocol`
  is every thread around them, one step for each time a lock is held.
- **Documents and replies.**  `PathEdit` (merge, set and unset on JSON), `AssistantStream`, `StreamRecords` and
  `AssembledMessage` (one model reply live, recorded and assembled).

`Json`, `SessionLog`, `Pieces` and `Seqs` are shared.

## Where the code and its description part

The model follows the code.  These are stated as lemmas, each with the exact condition where there is one:

- A definition that refers to itself at once makes the interpreter recurse without end, although the comment says
  that it terminates (`Schema.RingsDiverge`, `Schema.SelfReferenceDiverges`).
- A second call on a session whose turn is in flight is said to be refused; it replaces the operation in flight.  While
  tools run, this leaves an unfinished executor behind, and a later turn can be finished with the old turn's rows in it
  (`TurnMisfiling.StrandingMisfilesIff`, `TurnMisfiling.SecondCallMisfiles`).  While a model call is out, its answer is
  settled as the new call's (`TurnRuns.ReplacedCallAnswersIff`).
- A verdict that is not this machine's is said to be no error, and a late chunk to be ignored; a verdict outside tools
  and a chunk outside a model call take the operation in flight and drop it (`TurnRuns.StrayInputLosesTurn`), and this is
  what may stop a cancel from being heeded, beside a new call (`TurnRuns.CancelHeededIff`).
- The target of a write is said to be chosen once per operation; nothing ends the operation, so a machine writes only
  the first turn it finishes (`TurnRuns.OnlyFirstIsWritten`).
- A cancel of a session is said to reach the commands its turn is running; the key it would remove is read from an
  operation that has been taken before, so no command has one (`TurnRuns.NoEffectIsKeyed`), and a child without a key
  is stopped by no cancel and no kill (`DetachedProtocol.KeylessUnstoppable`).
- The resumed loop reports an open step for a turn that never opened one (`AgentLoopSpec.ResumeFindsTheLoop`).
- A step is said to run to quiescence under the delivery cap, which does not bound inline chains
  (`RouterStack.EchoOverflows`); it does where event names can be ranked, and for machines that start chains by name
  only there (`RouterStack.EveryStepFitsIff`).
- The path normalization cites section 5.2.4 of RFC 3986 but drops empty segments, which differs on some paths
  (`DotSegments.AgreesIff`).
- A packed stream is called the inverse of its expansion; it is one exactly on steady calls
  (`StreamRecords.ReplayIff`).
- A record of the detached table is said to be kept for one child; the table forgets no pid, so a child under a pid given
  out again reads as settled while it runs (`DetachedProtocol.RunningReadsUnsettledIff`,
  `DetachedProtocol.ReusedPidReadsAsSettled`).
- A kill key shared by two children turns the end of one into the abort of the other
  (`DetachedProtocol.SharedKeyAborts`).
- An appended message may repeat an identity, and the log then no longer folds (`InboxSpec.LogReproducesInbox`).
- The self-request check of the boot graph also fires on a specifier that, with its `/client` suffix taken off, is the
  row's own name, even where the whole specifier resolves to another row (`ModuleGraph.RefusedThoughAnsweredIff`,
  `ModuleGraph.RefusedThoughOrderable`).

## Model

| member | source | states |
|---|---|---|
| `AgentLoop.AgentLoop.constructor` | rust/crates/vocoderd/src/machines/agent_loop.rs:189-216 | a new loop is idle after turn 0 |
| `AgentLoop.AgentLoop.ResumeFrom` | rust/crates/vocoderd/src/machines/agent_loop.rs:218-272 | scanning a log row by row, in one pass, finds the loop the scan specification finds |
| `AgentLoop.AgentLoop.BeginTurn` | rust/crates/vocoderd/src/machines/agent_loop.rs:294-335 | new state and outputs are those of the turn's opening; a running turn and an empty input are refused or closed as specified |
| `AgentLoop.AgentLoop.EnterStep` | rust/crates/vocoderd/src/machines/agent_loop.rs:343-348 | opens the next step of a running turn, nothing when idle |
| `AgentLoop.AgentLoop.BeginStep` | rust/crates/vocoderd/src/machines/agent_loop.rs:351-372 | the step number goes up by one and the step start is written before the model is called |
| `AgentLoop.AgentLoop.StepReply` | rust/crates/vocoderd/src/machines/agent_loop.rs:380-439 | closes the open step and then the turn, or opens the next step and calls the model, as `AgentLoopSpec.TurnOverIff` and `AgentLoopSpec.ModelCalledIff` say |
| `AgentLoop.AgentLoop.CloseStep` | rust/crates/vocoderd/src/machines/agent_loop.rs:442-451 | the step end row, and no open step after it |
| `AgentLoop.AgentLoop.CloseTurn` | rust/crates/vocoderd/src/machines/agent_loop.rs:454-469 | the turn end row; cancel and ceiling latches are gone with the turn |
| `AgentLoop.AgentLoop.RejectStep` | rust/crates/vocoderd/src/machines/agent_loop.rs:476-483 | ends the turn as blocked without opening a step |
| `AgentLoop.AgentLoop.Cancel` | rust/crates/vocoderd/src/machines/agent_loop.rs:493-506 | latches while a step is open, closes the turn between steps, does nothing when idle |
| `AgentLoopSpec.RunsWriteTurns` | rust/crates/vocoderd/src/machines/agent_loop.rs:294-506 | every run of the operations that enters steps only when none is open writes consecutive closed turns with dense, balanced steps, followed by the beginning of one more |
| `AgentLoopSpec.OpenTurnsCanClose` | rust/crates/vocoderd/src/machines/agent_loop.rs:442-469 | what a running turn has written is a prefix of a log in which that turn is closed |
| `AgentLoopSpec.EnteringOpenStepBreaksLog` | rust/crates/vocoderd/src/machines/agent_loop.rs:343-372 | the discipline is exact: entering a step while one is open takes the rows out of the language for good |
| `AgentLoopSpec.TurnEndsAs` | rust/crates/vocoderd/src/machines/agent_loop.rs:294-506 | over a whole turn, whatever operations come in it: it ends `max-tokens` exactly when the operation that ends it is a reply, neither failed nor after a cancel, and some reply of the turn, this one or an earlier one, hit the ceiling; the exact conditions of the other four endings beside it |
| `AgentLoopSpec.TurnOverIff` | rust/crates/vocoderd/src/machines/agent_loop.rs:294-506 | when a turn starts and ends, for every operation in every state: a reply to an open step ends it if and only if a cancel is latched, the reply failed, or there are neither tool calls nor further input |
| `AgentLoopSpec.ModelCalledIff` | rust/crates/vocoderd/src/machines/agent_loop.rs:343-439 | the model is called exactly when an uncancelled running turn is entered, or its open step gets a reply that did not fail and has tool calls or further input; the outputs then are the end of step n, the start of step n + 1 and the call for n + 1 |
| `AgentLoopSpec.TurnGoesOnIff` | rust/crates/vocoderd/src/machines/agent_loop.rs:380-506 | over any operations that enter no open step, a turn with its step open is still running exactly when no reply came after a cancel, failed, or came without tool calls and further input; it is then as many steps further as there were replies |
| `AgentLoopSpec.StepOpenIff` | rust/crates/vocoderd/src/machines/agent_loop.rs:294-506 | whether a step is open after each operation, exactly |
| `AgentLoopSpec.RefusedIff` | rust/crates/vocoderd/src/machines/agent_loop.rs:294-402 | a turn begun while one runs, and a reply without an open step, change nothing and are answered by their own error; any other operation announces an ending just where it has written it |
| `AgentLoopSpec.ReasonTells` | rust/crates/vocoderd/src/machines/agent_loop.rs:454-469 | each ending is written under its own kind, an error with its code and message, and no two endings are written alike |
| `AgentLoopSpec.ResumeFindsTheLoop` | rust/crates/vocoderd/src/machines/agent_loop.rs:218-263 | resuming from the rows of any disciplined run gives the live loop's position and running state, with no cancel or ceiling latched, and its open-step flag exactly when the loop is idle or past step 0 |
| `Inbox.Inbox.Fold` | rust/crates/vocoderd/src/machines/agent_inbox.rs:119-129 | folding a log computes the fold specification, stopping at the first bad splice |
| `Inbox.Inbox.ApplySplice` | rust/crates/vocoderd/src/machines/agent_inbox.rs:132-180 | one splice row changes its list in place or is refused with the specified error |
| `Inbox.Inbox.CheckIdentities` | rust/crates/vocoderd/src/machines/agent_inbox.rs:186-205 | finds a repeated identity exactly when the pending messages are not distinct |
| `Inbox.Inbox.Claim` | rust/crates/vocoderd/src/machines/agent_inbox.rs:232-251 | takes all step input, and for a turn the oldest queued one, with the splices that say so |
| `Inbox.Inbox.Append` | rust/crates/vocoderd/src/machines/agent_inbox.rs:254-267 | the message goes to the end of its list, with the splice that says so |
| `Inbox.Inbox.Remove` | rust/crates/vocoderd/src/machines/agent_inbox.rs:270-290 | removes the first message of that identity, looked for in the step input first and then among the queued turns, with the splice that says so |
| `InboxSpec.RemoveTakesFirst` | rust/crates/vocoderd/src/machines/agent_inbox.rs:270-290 | a removal takes the first message of that identity out of the step input, and only when none is there out of the queued turns, leaving the other list as it was |
| `InboxSpec.ClaimTakes` | rust/crates/vocoderd/src/machines/agent_inbox.rs:232-251 | a claim for a step takes the step input and no turn; a claim for a turn takes one queued turn behind it, when there is one |
| `InboxSpec.DuplicateIff` | rust/crates/vocoderd/src/machines/agent_inbox.rs:186-205 | the check reports nothing exactly when all identities are distinct |
| `InboxSpec.DuplicateIsCarriedTwice` | rust/crates/vocoderd/src/machines/agent_inbox.rs:186-205 | a reported identity is carried by two messages, the second of which is the first that repeats any |
| `InboxSpec.SpliceReadsBack` | rust/crates/vocoderd/src/machines/agent_inbox.rs:132-180 | applying the row form of a splice is applying the splice |
| `InboxSpec.SpliceRowReads` | rust/crates/vocoderd/src/machines/agent_inbox.rs:132-180 | the row names its list, where it starts, how many go and what comes |
| `InboxSpec.SpliceTakenIff` | rust/crates/vocoderd/src/machines/agent_inbox.rs:132-180 | exactly what a row does: an unknown list or a range beyond it is refused, any other puts what it brings in the place of what it takes, and is refused exactly when an identity is then pending twice |
| `InboxSpec.FindFirst` | rust/crates/vocoderd/src/machines/agent_inbox.rs:270-290 | the position removed is the first one with the identity |
| `InboxSpec.LogReproducesInbox` | rust/crates/vocoderd/src/machines/agent_inbox.rs:119-322 | for any sequence of operations from empty, folding the emitted splices gives the live inbox exactly when every append was fresh |
| `InboxSpec.RunsConserve` | rust/crates/vocoderd/src/machines/agent_inbox.rs:232-290 | appended messages are claimed, removed or pending, once each, and are claimed in the order they were appended |
| `TurnDriver.ApplyOutputs` | rust/crates/vocoderd/src/machines/agent.rs:759-788 | rows are filed in order with their sequence numbers, and an unroutable call fails its step at once |
| `TurnDriver.AgentMachine.Finish` | rust/crates/vocoderd/src/machines/agent.rs:968-979 | the request is done; the machine waits for the write only if one was asked for, and is idle if not |
| `TurnDriver.AgentMachine.Publish` | rust/crates/vocoderd/src/machines/agent.rs:676-700 | the write is chosen at the first turn finished; a later turn is found written and nothing is asked for |
| `TurnDriver.AgentMachine.ContinueTurn` | rust/crates/vocoderd/src/machines/agent.rs:1096-1115 | enters a step only when the filed outputs left none open, else publishes |
| `TurnDriver.AgentMachine.StartTurn` | rust/crates/vocoderd/src/machines/agent.rs:1016-1090 | admits the message, claims the inbox and opens the turn from the log |
| `TurnDriver.AgentMachine.Settle` | rust/crates/vocoderd/src/machines/agent.rs:1209-1346 | files the reply inside its step, then runs its tools or ends the turn, as `TurnAnswers.AnswerEndsTurn` and `TurnAnswers.CallsAreRunIff` say |
| `TurnDriver.AgentMachine.FailTurn` | rust/crates/vocoderd/src/machines/agent.rs:982-999 | a failed call ends its step and turn |
| `TurnDriver.AgentMachine.AbsorbToolWants` | rust/crates/vocoderd/src/machines/agent.rs:1548-1585 | tool rows are filed at the executor's turn and step |
| `TurnDriver.AgentMachine.DriveTools` | rust/crates/vocoderd/src/machines/agent.rs:1519-1545 | one executor per settled reply, created at its position |
| `TurnDriver.AgentMachine.CloseToolStep` | rust/crates/vocoderd/src/machines/agent.rs:1488-1503 | after the last tool the step is closed as a completed one |
| `TurnDriver.AgentMachine.ResumeTools` | rust/crates/vocoderd/src/machines/agent.rs:1118-1206 | a held tool turn goes on with what the log answers |
| `TurnDriver.AgentMachine.AnswerTool` | rust/crates/vocoderd/src/machines/agent.rs:1349-1458 | a tool answer goes to the executor, and the step closes when it is done |
| `TurnDriver.AgentMachine.CancelTurn` | rust/crates/vocoderd/src/machines/agent.rs:1797-1858 | latches the cancel on the held turn of that session only |
| `TurnDriver.AgentMachine.OnEffect` | rust/crates/vocoderd/src/machines/agent.rs:1997-2111 | an effect answer goes to the call, the tools, the publication or nowhere, as the held operation says |
| `TurnDriver.AgentMachine.OpenWith` | rust/crates/vocoderd/src/machines/agent.rs:1118-1206 | a lookup answer starts the turn, drops it or keeps it waiting |
| `TurnDriver.AgentMachine.OnVerdict` | rust/crates/vocoderd/src/machines/agent.rs:1461-1482 | a verdict feeds the executor while tools run; whatever other operation is in flight is taken and not put back |
| `TurnDriver.AgentMachine.OnChunk` | rust/crates/vocoderd/src/machines/agent.rs:1914-1948 | a chunk leaves a model call in flight as it is; whatever other operation is in flight is taken and not put back |
| `TurnDriver.AgentMachine.Handle` | rust/crates/vocoderd/src/machines/agent.rs:1725-1756 | one event moves the machine exactly as the step specification does |
| `TurnRuns.StepKeeps` | rust/crates/vocoderd/src/machines/agent.rs:1096-1346 | every event that strands no executor keeps the invariant: a call is held inside an open, empty step; tools run inside the step whose reply made them; everything finished is a complete turn that ended as its last reply says; no request is finished twice |
| `TurnRuns.RunsFinishTurns` | rust/crates/vocoderd/src/machines/agent.rs:733-788 | whatever the model, the tools and the callers answer, over any run that strands no executor, every log handed over to be written is its closed base log and exactly one complete turn: dense sequence numbers, balanced steps from 1, tool rows only inside their step, one turn end; every step but the last made tool calls, and the reason is the one its last step deserves: aborted when an interrupted reply closes it, `completed` or `max-tokens` only on a message that finished so and ran out its tools, `PROVIDER_STREAM_INCOMPLETE` on a stream that broke off |
| `TurnRuns.FinishedLogIsClosed` | rust/crates/vocoderd/src/machines/agent.rs:968-979 | such a log is dense and closed, so the next turn can start from it, and its number is the next |
| `TurnAnswers.AnswerEndsTurn` | rust/crates/vocoderd/src/machines/agent.rs:1209-1346 | an answer to an uncancelled call that is not a finished reply with tool calls ends the turn with its own reason: the reply's, `PROVIDER_STREAM_INCOMPLETE` where it has no finish, the code and message of an HTTP error, `PROVIDER_UNREACHABLE` for a transport failure |
| `TurnAnswers.InterruptedIsMarked` | rust/crates/vocoderd/src/machines/agent.rs:1209-1346 | under a latched cancel a reply is filed as a message marked interrupted exactly when anything but calls came through, else as an attempt |
| `TurnAnswers.CallsAreRunIff` | rust/crates/vocoderd/src/machines/agent.rs:1118-1346 | a finished reply with tool calls leaves the turn waiting for its tools exactly when there is something to wait for |
| `TurnAnswers.ToolsOverIff` | rust/crates/vocoderd/src/machines/agent.rs:1349-1458 | while tools run only the answer to the outstanding effect is taken, and it closes the step exactly when the executor has nothing more to do |
| `TurnAnswers.ClosedStepGoesOn` | rust/crates/vocoderd/src/machines/agent.rs:1488-1503 | a step closed after its tools is followed by the call of the next one, or by the turn's end as unroutable |
| `TurnAnswers.CallTakenIff` | rust/crates/vocoderd/src/machines/agent.rs:1016-1090 | a call without session or content, for a request that is done or a session that is gone changes nothing; any other is looked up, and opens its turn on the log found, waits for it or is dropped |
| `TurnAnswers.WaitingCallAnswered` | rust/crates/vocoderd/src/machines/agent.rs:1118-1206 | a call that waits for its log is looked up again by any answer, with the same outcomes |
| `TurnAnswers.AdmittedComesFirst` | rust/crates/vocoderd/src/machines/agent.rs:1016-1090 | the message of a call is queued ahead of every turn that waits, unless its identity is there already |
| `TurnAnswers.CancelElsewhere` | rust/crates/vocoderd/src/machines/agent.rs:1797-1858 | a cancel changes nothing but the held turn of its own session |
| `TurnMisfiling.ToolRowsInPlace` | rust/crates/vocoderd/src/machines/agent.rs:1519-1585 | in such a log every tool call and result names the turn and step it stands in |
| `TurnMisfiling.StrandingMisfilesIff` | rust/crates/vocoderd/src/machines/agent.rs:1519-1585 | the guard is exact: for a machine in order and any input, some further run that strands no executor finishes a turn that is not well formed if and only if the input is a call taken on, or a chunk, while tools run with their executor unfinished |
| `TurnMisfiling.SecondCallMisfiles` | rust/crates/vocoderd/src/machines/agent.rs:1519-1585 | such a run from the start: a call, a reply that wants tools, and a call on another session, whose turn is written with a tool row of the first |
| `TurnRuns.OnlyFirstIsWritten` | rust/crates/vocoderd/src/machines/agent.rs:676-700 | in every run the one turn ever written is the first one finished |
| `TurnRuns.FirstIsAwaitedIff` | rust/crates/vocoderd/src/machines/agent.rs:676-700 | in every run a write is waited for from the step that finishes the first turn on, and for no other turn |
| `TurnRuns.NoEffectIsKeyed` | rust/crates/vocoderd/src/machines/agent.rs:1588-1595 | in every run no tool effect carries a kill key, because whoever issues it has already taken the operation the key is read from |
| `TurnRuns.CancelLatches` | rust/crates/vocoderd/src/machines/agent.rs:1797-1858 | a cancel accepted while a turn is held latches on that turn |
| `TurnRuns.CancelHeededIff` | rust/crates/vocoderd/src/machines/agent.rs:1209-1482 | with a cancel latched, an event keeps the turn at its step with no further model call, or finishes it `aborted`, exactly when it is none of: a call taken on, a verdict while a model call is out, a chunk while tools run |
| `TurnRuns.CancelWins` | rust/crates/vocoderd/src/machines/agent.rs:1209-1482 | so along any run of other events the turn is held until it is finished `aborted` |
| `TurnRuns.StrayInputLosesTurn` | rust/crates/vocoderd/src/machines/agent.rs:1461-1482 | a verdict while a model call is out, or a chunk while tools run, loses the held turn: nothing of it is finished, and only a new call moves the machine again |
| `TurnRuns.ReplacedCallAnswersIff` | rust/crates/vocoderd/src/machines/agent.rs:1997-2111 | after any run, a further call puts its own model call in the place of the one that is out exactly when it is taken on, its message can be claimed and a provider serves it; the answer owed to the first is then settled as the second's |
| `Router.FoldChain` | rust/crates/vocoder-cordis/src/lib.rs:850-864 | the last verdict of a batch and its other outputs in order |
| `Router.Retain` | rust/crates/vocoder-cordis/src/lib.rs:727-789 | the list without one machine, in order |
| `Router.Router.Absorb` | rust/crates/vocoder-cordis/src/lib.rs:727-789 | files a batch output by output: new state, queue and results are the specification's, with the call stack it needs |
| `Router.Router.Dispatch` | rust/crates/vocoder-cordis/src/lib.rs:793-845 | queues an emit to the subscribers of the moment, or runs the chain and queues its one answer; whom emits reach over a step is `RouterEmits.EmitsReachSubscribers` |
| `Router.Router.RunChain` | rust/crates/vocoder-cordis/src/lib.rs:793-845 | each subscriber of the snapshot takes its turn on the value so far, until one stops the chain |
| `Router.Router.Quiesce` | rust/crates/vocoder-cordis/src/lib.rs:870-930 | delivers first in, first out until the queue is empty or the cap is hit |
| `Router.Router.Handle` | rust/crates/vocoder-cordis/src/lib.rs:870-930 | one step's machines, subscriptions and results are the specification's |
| `Router.Router.Dispose` | rust/crates/vocoder-cordis/src/lib.rs:870-930 | an unmounted machine gets its last turn and then loses its subscriptions |
| `RouterProofs.StepServes` | rust/crates/vocoder-cordis/src/lib.rs:870-930 | after every step that returns each subscription list is duplicate-free and names only mounted machines; deliveries are made in queue order, the cap is reported exactly when more than 1024 were needed, and only a machine the input names can be an unknown target |
| `RouterProofs.DeliveryMissesIff` | rust/crates/vocoder-cordis/src/lib.rs:870-930 | a delivery reports an unknown target exactly when its target is not mounted |
| `RouterProofs.StepBalances` | rust/crates/vocoder-cordis/src/lib.rs:727-845 | over a whole step each effect, reply, frame, registration and compensation is in the results as often as it was emitted, and each waterfall or bail has one answer, to its initiator |
| `RouterEmits.EmitsReachSubscribers` | rust/crates/vocoder-cordis/src/lib.rs:727-930 | over a whole step there is a journal of what every invocation and the host said of events, in order and complete; the events queued are, beside one the input itself delivers, exactly those its emits put there: one for each machine subscribed at that point, in subscription order |
| `RouterReplay.StepPlays` | rust/crates/vocoder-cordis/src/lib.rs:850-930 | the invocations recorded, played over again from the machines at hand, answer what they answered and leave the machines the step leaves |
| `RouterReplay.FirstInvocation` | rust/crates/vocoder-cordis/src/lib.rs:870-930 | a mounted machine is told first that services are ready, an unmounted one that it is disposed of, and a delivery comes first |
| `RouterOrder.StepKeepsOrder` | rust/crates/vocoder-cordis/src/lib.rs:727-930 | over a whole step every result but the router's own reports belongs to one invocation; the results of each invocation are exactly what it emitted, kind by kind, under its own name, in that order; and what a delivery and the chains inside it emit comes before anything of the next delivery |
| `RouterProofs.ChainFolds` | rust/crates/vocoder-cordis/src/lib.rs:793-845 | a chain's value is the left fold of the verdicts of the mounted subscribers, stopping at the first return |
| `RouterProofs.VerdictIsLast` | rust/crates/vocoder-cordis/src/lib.rs:850-864 | the last answer of a batch decides: next goes on with its value, return stops the chain with it |
| `RouterProofs.NoAnswerGoesOn` | rust/crates/vocoder-cordis/src/lib.rs:850-864 | a batch without one goes on with null |
| `RouterProofs.DispatchAnswers` | rust/crates/vocoder-cordis/src/lib.rs:793-845 | the answer queued last, to the initiator, carries that fold |
| `RouterStack.StepFits` | rust/crates/vocoder-cordis/src/lib.rs:727-930 | if event names can be ranked below the depth of the stack so that a chain turn only starts chains of lower-ranked names, every step from every state runs to its end |
| `RouterStack.RankedStepServes` | rust/crates/vocoder-cordis/src/lib.rs:727-930 | so ranked, every step returns, serves the queue in order and to the cap, loses and doubles nothing that was emitted, files it in order, and has its emits reach their subscribers |
| `RouterStack.EveryStepFitsIff` | rust/crates/vocoder-cordis/src/lib.rs:727-930 | for machines whose chain turns start chains by name the ranking is exact: all steps on all inputs fit a stack if and only if the names can be ranked below its depth |
| `RouterStack.StackIrrelevant` | rust/crates/vocoder-cordis/src/lib.rs:727-930 | a step that fits the call stack has the same outcome on every deeper one |
| `RouterStack.EchoOverflows` | rust/crates/vocoder-cordis/src/lib.rs:793-845 | the delivery cap does not bound inline chains: a machine that answers a chain with another one exhausts any stack |
| `EffectPump.Host.SortOuts` | rust/crates/vocoderd/src/main.rs:217-227 | requests are queued and the rest appended, both in order |
| `EffectPump.Host.Pump` | rust/crates/vocoderd/src/main.rs:147-196 | ends after at most 256 effects for any machine; carried effects are a prefix of the requests; each is answered once, after its chunks and before the next effect; terminal outputs and frames keep emission order |
| `EffectPump.Host.Feed` | rust/crates/vocoderd/src/main.rs:147-196 | one queued input is delivered and its outputs sorted at once |
| `EffectPump.Host.Perform` | rust/crates/vocoderd/src/main.rs:147-196 | one effect is carried out, what came up meanwhile is sorted, and its answer is queued |
| `EffectPump.Host.Realize` | rust/crates/vocoderd/src/main.rs:147-196 | every chunk reaches the machine while its effect is running, in order |
| `EffectPump.PumpEnds` | rust/crates/vocoderd/src/main.rs:147-196 | when the pump stops, everything asked for was carried out or the cap was reached |
| `EffectPump.SortedApart` | rust/crates/vocoderd/src/main.rs:217-227 | sorting splits a batch in three: each output is found in its own part, behind those of its kind that came before it |
| `EffectPump.EpisodeReads` | rust/crates/vocoderd/src/main.rs:147-196 | of one effect the machine sees each chunk and then the result, all under its id |
| `Schema.Terminates` | rust/crates/vocoderd/src/validate.rs:176-257 | on a schema whose `$ref` cycles all pass through `properties` or `items` the interpreter answers on every deep enough stack, with what the keywords mean |
| `Schema.GuardedSchemasDecide` | rust/crates/vocoderd/src/validate.rs:176-263 | for whole documents: it terminates for every value and equals the declarative reading of the kept keywords, each of which is read by a table of `SchemaTables` |
| `SchemaTables.TypeAdmits` | rust/crates/vocoderd/src/validate.rs:209-281 | one `type` admits exactly the JSON kind of that name, `number` and `integer` alike, and an unknown name everything |
| `SchemaTables.EnumAdmits` | rust/crates/vocoderd/src/validate.rs:221-225 | one `enum` admits exactly the listed values |
| `SchemaTables.RequiredAdmits` | rust/crates/vocoderd/src/validate.rs:227-240 | `required` beside `properties` refuses exactly the objects that miss a listed name |
| `SchemaTables.RequiredAlone` | rust/crates/vocoderd/src/validate.rs:227-240 | and alone it refuses nothing |
| `SchemaTables.PropertiesAdmit` | rust/crates/vocoderd/src/validate.rs:227-247 | `properties` admits exactly when each member of an object that is named there is admitted |
| `SchemaTables.ItemsAdmit` | rust/crates/vocoderd/src/validate.rs:248-254 | `items` admits exactly when each element of an array is admitted |
| `SchemaTables.AllOfAdmits` | rust/crates/vocoderd/src/validate.rs:191-196 | `allOf` admits exactly when each member does |
| `SchemaTables.AnyOfAdmits` | rust/crates/vocoderd/src/validate.rs:198-207 | `anyOf` and `oneOf` admit exactly when some member does and those before it refuse |
| `SchemaTables.RefGives` | rust/crates/vocoderd/src/validate.rs:182-263 | a `$ref` to `#/$defs/n` gives the verdict of definition n, and admits everything where there is none |
| `SchemaTables.KeywordsConjoin` | rust/crates/vocoderd/src/validate.rs:176-257 | a schema without a reference admits a value exactly when each of its keywords by itself does; no other key counts |
| `Schema.RankingIrrelevant` | rust/crates/vocoderd/src/validate.rs:176-257 | that reading does not depend on the ranking that shows the guard |
| `Schema.RingsDiverge` | rust/crates/vocoderd/src/validate.rs:176-263 | every ring of schemas each of which leads first into the next, by its reference or by the first member of its first combinator, uses up any stack, so the guard is needed |
| `Schema.SelfReferenceDiverges` | rust/crates/vocoderd/src/validate.rs:176-189 | a definition that refers to itself at once is such a schema, against the comment that says it terminates |
| `SchemaPruning.Prune` | tools/codegen/src/main.rs:264-290 | the loops that fill the pruned maps compute the pruned schema, in whatever member order |
| `SchemaPruning.PruneNames` | tools/codegen/src/main.rs:273-281 | member names are never filtered and every member is pruned |
| `SchemaPruning.PrunedTwice` | tools/codegen/src/main.rs:264-290 | pruning is idempotent |
| `SchemaPruning.PrunedIsLean` | tools/codegen/src/main.rs:260-290 | what is left holds no key but the eleven the interpreter enforces, at any depth, and of those every one; under `properties` and `$defs` every name |
| `SchemaPruning.LiteralKeptIff` | tools/codegen/src/main.rs:260-290 | a `const` or `enum` value survives exactly when none of its keys is dropped |
| `SchemaPruning.PruningKeepsMeaning` | rust/crates/vocoderd/src/validate.rs:176-257 | against the pruned definitions the pruned schema means what the schema meant, for every value |
| `SchemaPruning.PruningKeepsVerdict` | tools/codegen/src/main.rs:260-290 | the interpreter's verdict on every value, and its termination, survive pruning of the whole document |
| `SchemaPruning.EmissionKeepsVerdict` | tools/codegen/src/main.rs:296-315 | so do they through the generated table, where an empty result is written as no constraint |
| `SchemaPruning.UnconstrainedAccepts` | rust/crates/vocoderd/src/validate.rs:156-168 | the empty schema admits every value |
| `SchemaPruning.ConstPrunedIff` | tools/codegen/src/main.rs:264-290 | for a `const` the condition is exact: every value gets the same verdict from the pruned schema exactly when no key of the constant is dropped |
| `SchemaExtras.ExtrasIgnored` | rust/crates/vocoderd/src/validate.rs:176-257 | the verdict looks at no key that `properties`, `required` or the definitions do not name, at any depth |
| `SchemaExtras.UnmentionedMembersIgnored` | rust/crates/vocoderd/src/validate.rs:176-257 | adding or removing such members anywhere in a value changes no verdict, when literals hold no objects |
| `SchemaExtras.ConstBlindIff` | rust/crates/vocoderd/src/validate.rs:176-257 | for a `const` that condition is exact: members of a name change no verdict exactly when the constant holds no object |
| `ArgumentCheck.GateFollowsInterface` | rust/crates/vocoderd/src/validate.rs:98-146 | the argument gate, reading the generated table, gives the outcome and field that the declared, unpruned schemas deserve |
| `ArgumentCheck.DeservedIsUnique` | rust/crates/vocoderd/src/validate.rs:98-146 | the layers leave one outcome: first what is missing, then what is undeclared, then the first malformed value |
| `ModuleGraph.Search` | rust/crates/vocoderd/src/web_boot.rs:674-757 | the iterative search ends on every graph, with every node placed after its dependencies or with a real cycle |
| `ModuleGraph.SearchFrom` | rust/crates/vocoderd/src/web_boot.rs:674-757 | from one start: the open nodes stay a path and what is placed stays closed under dependencies |
| `ModuleGraph.TakeTop` | rust/crates/vocoderd/src/web_boot.rs:674-757 | a popped frame enters its node, or is met again and closes a cycle |
| `ModuleGraph.FollowEdge` | rust/crates/vocoderd/src/web_boot.rs:674-757 | the next dependency is followed, or the node is placed |
| `ModuleGraph.SearchOn` | rust/crates/vocoderd/src/web_boot.rs:674-757 | one turn of the loop: a node is entered or placed, or one more dependency is behind it, or a cycle is found |
| `ModuleGraph.OrderForbidsCycles` | rust/crates/vocoderd/src/web_boot.rs:674-757 | a graph that has a topological order has no cycle |
| `ModuleGraph.EdgeIff` | rust/crates/vocoderd/src/web_boot.rs:676-694 | the graph searched has an edge exactly where a row requests a name that the other answers, by ids alone |
| `ModuleGraph.FindSelfRequest` | rust/crates/vocoderd/src/web_boot.rs:696-709 | finds the first row that requests its own id, if there is one |
| `ModuleGraph.SortedForbidsCircles` | rust/crates/vocoderd/src/web_boot.rs:676-757 | rows in order by their requests leave no cycle of requests |
| `ModuleGraph.RefusedThoughAnsweredIff` | rust/crates/vocoderd/src/web_boot.rs:676-709 | a name refused as a request for the row itself would resolve to another row exactly when it is not the row's id and some row goes by it |
| `ModuleGraph.RefusedThoughOrderable` | rust/crates/vocoderd/src/web_boot.rs:676-709 | such a refusal of two rows that have a topological order |
| `ModuleGraph.OrderByModuleGraph` | rust/crates/vocoderd/src/web_boot.rs:674-762 | told by ids alone: rows are refused exactly when one asks for its own id, with `/client` or without; otherwise all rows come back once, each behind the row that answers each of its requests (the last of that id, or of the id without `/client` where none goes by the whole name), or a simple cycle of such requests is reported, and that exactly when there is one |
| `ComboBatches.UrlLength` | rust/crates/vocoderd/src/web_boot.rs:826-845 | the length of a combo URL, by its rows, revision and form |
| `ComboBatches.UrlNames` | rust/crates/vocoderd/src/web_boot.rs:826-845 | a combo URL names each row by its script, or its map, in order, and then the revision |
| `ComboBatches.PartFits` | rust/crates/vocoderd/src/web_boot.rs:826-829 | rows taken out of a fitting list fit |
| `ComboBatches.FitsIff` | rust/crates/vocoderd/src/web_boot.rs:826-845 | rows fit exactly when the longer of the two URLs that name them is within three kilobytes, under any revision |
| `ComboBatches.FullIsFewest` | rust/crates/vocoderd/src/web_boot.rs:800-818 | no fitting split into consecutive pieces has fewer than the full chunks |
| `ComboBatches.PartitionCombo` | rust/crates/vocoderd/src/web_boot.rs:800-824 | the chunks concatenate to the rows, each non-empty and within the bound, as few as any split could have; it fails exactly when one row alone is too long, naming the first |
| `ComboBatches.MakeBatch` | rust/crates/vocoderd/src/web_boot.rs:766-798 | a batch's URL names its entries under its own revision and stays within the limit in both forms |
| `ComboBatches.TakeRow` | rust/crates/vocoderd/src/web_boot.rs:800-824 | a row joins the open chunk, or closes it and opens the next, or is too long by itself |
| `ComboBatches.BatchGroup` | rust/crates/vocoderd/src/web_boot.rs:766-798 | one phase's rows are batched once each, in order |
| `ComboBatches.PartitionBatches` | rust/crates/vocoderd/src/web_boot.rs:766-798 | client modules alone bootstrap; every row is in exactly one batch; it fails exactly when a row is too long |
| `SourceMaps.ComboScript` | rust/crates/vocoderd/src/web_boot.rs:490-501 | each prepared bundle, a separator, and one map URL at the end |
| `SourceMaps.ComboMap` | rust/crates/vocoderd/src/web_boot.rs:504-524 | section k stands at column 0 of the line numbered by the newlines of the script before bundle k, and holds the bundle's own recorded map, or the identity on its prepared text |
| `SourceMaps.PreparedKeeps` | rust/crates/vocoderd/src/web_boot.rs:526-560 | preparing a bundle keeps its whole text and adds at most its last newline |
| `SourceMaps.SectionStarts` | rust/crates/vocoderd/src/web_boot.rs:490-524 | bundle k stands whole in the script at column 0 of its section's line |
| `SourceMaps.SectionsAlign` | rust/crates/vocoderd/src/web_boot.rs:490-524 | line n of bundle k is the script's line offset + n, before the next section |
| `SourceMaps.IdentityReads` | rust/crates/vocoderd/src/web_boot.rs:938-955 | decoded by Source Map Revision 3, the identity mappings send generated line i to source line i, column 0, for every line |
| `SourceMaps.IdentityMapsHome` | rust/crates/vocoderd/src/web_boot.rs:504-524 | reading the indexed map at any line of a bundle without its own map gives the same line of that bundle |
| `DotSegments.RemoveDotSegments` | rust/crates/vocoderd/src/web_boot.rs:981-1003 | the stack loop computes the normalized path |
| `DotSegments.BufferedWalks` | rust/crates/vocoderd/src/web_boot.rs:981-1003 | the buffer algorithm of section 5.2.4 of RFC 3986, character by character, is the walk that keeps empty segments |
| `DotSegments.AgreesIff` | rust/crates/vocoderd/src/web_boot.rs:981-1003 | on every absolute path the program agrees with section 5.2.4 of RFC 3986 exactly when nothing at or before an empty interior segment stays standing, which one scan with two counters decides |
| `DotSegments.AgreesWithoutEmptySegments` | rust/crates/vocoderd/src/web_boot.rs:981-1003 | so on every absolute path with no empty interior segment |
| `DotSegments.DoubledSlashDiffers` | rust/crates/vocoderd/src/web_boot.rs:981-1003 | `/a//..` is a path on which they differ |
| `DotSegments.Idempotent` | rust/crates/vocoderd/src/web_boot.rs:981-1003 | normalizing again changes nothing, for every path |
| `DotSegments.NoDotSegments` | rust/crates/vocoderd/src/web_boot.rs:981-1003 | the result has no `.` or `..` segment and no empty one inside |
| `DetachedTable.ChildRegistry.KillRegistered` | rust/crates/vocoderd/src/driver.rs:60-62 | removes the registration and tells whether there was one |
| `DetachedTable.DetachedState.Push` | rust/crates/vocoderd/src/driver.rs:961-969 | the text goes to the end of that pid's stream |
| `DetachedTable.DetachedState.Read` | rust/crates/vocoderd/src/driver.rs:975-997 | hands out the unread text once and the settle record every time |
| `DetachedTable.DetachedState.Settle` | rust/crates/vocoderd/src/driver.rs:1001-1007 | the record is sealed and unread text stays |
| `DetachedTable.DetachedState.Kill` | rust/crates/vocoderd/src/driver.rs:1020-1030 | removes the registration of the pid's key and answers whether the pid is known |
| `DetachedTable.DetachedState.NameKey` | rust/crates/vocoderd/src/driver.rs:1033-1035 | the kill key is kept on the record |
| `DetachedTable.ReadStream` | rust/crates/vocoderd/src/driver.rs:672-702 | the tail is the last bytes up to the bound (at least one), the spill source the first up to the cap, overflow is reported exactly when the stream is longer than a bound below the cap, and every chunk is handed on |
| `DetachedProtocol.EveryByteOnce` | rust/crates/vocoderd/src/driver.rs:944-1036 | in every interleaving of readers, reads, waiters and kills, what was pushed for a pid and stream is what the reads were given followed by what is unread |
| `DetachedProtocol.RunOrderly` | rust/crates/vocoderd/src/driver.rs:1049-1159 | in every interleaving in which a pid is not given out while the table holds it, its record is sealed only by its own child's waiter, with that child's abort flag and the truncation of the harvests it took |
| `DetachedProtocol.LaterReadsEmptyIff` | rust/crates/vocoderd/src/driver.rs:725-750 | once a settled pid is read to the end, its later reads are empty in every interleaving exactly when none of its readers is still going; a waiter that took every harvest guarantees that |
| `DetachedProtocol.LateReaderSpeaks` | rust/crates/vocoderd/src/driver.rs:725-750 | a reader that outlived the harvest can still make a later read non-empty |
| `DetachedProtocol.SettleIsFinal` | rust/crates/vocoderd/src/driver.rs:1001-1007 | and a settle record, once there, is what every later read of that pid reports |
| `DetachedProtocol.StartLaunches` | rust/crates/vocoderd/src/driver.rs:1049-1112 | a start brings one child, registered under its kill key when it is to be, with a reader on each pipe it has and, detached, a record under its pid |
| `DetachedProtocol.SettledAsExited` | rust/crates/vocoderd/src/driver.rs:1117-1159 | in every interleaving in which its pid is not given out again, a settle record carries the code and the signal its child ended with |
| `DetachedProtocol.SealSays` | rust/crates/vocoderd/src/driver.rs:1139-1159 | and the abort flag, the truncation and the spill path of its own waiter |
| `DetachedProtocol.RunningReadsUnsettledIff` | rust/crates/vocoderd/src/driver.rs:1033-1159 | exact, for a system that gives out no pid of a child that is not reaped: a child reads as unsettled for as long as it runs, in every interleaving, if and only if its pid was not in the table at its start |
| `DetachedProtocol.StartInherits` | rust/crates/vocoderd/src/driver.rs:1033-1071 | a start under a pid in the table keeps the settle record and the unread text of the child before, and a settled one makes the new child read as settled |
| `DetachedProtocol.ReusedPidReadsAsSettled` | rust/crates/vocoderd/src/driver.rs:1049-1159 | for every detached start there is such a run: the child is sealed, its pid given out again, and the new, running child reads as settled |
| `DetachedProtocol.AbortsAreAsked` | rust/crates/vocoderd/src/driver.rs:1110-1159 | in every interleaving in which no child launches under a key another is registered under, a child is aborted only if a cancel or a kill removed its key |
| `DetachedProtocol.AbortedSettleWasAsked` | rust/crates/vocoderd/src/driver.rs:1110-1159 | and so an aborted settle record, even of a pid given out again, means that the key of a child with that pid was removed |
| `DetachedProtocol.LookAbortsIffAsked` | rust/crates/vocoderd/src/driver.rs:1117-1136 | the waiter's next look aborts exactly the children that were asked for |
| `DetachedProtocol.CancelAborts` | rust/crates/vocoderd/src/driver.rs:1110-1136 | a cancel takes its key, and as long as the child that holds it runs its waiter aborts it the next time it looks |
| `DetachedProtocol.KillByPidAborts` | rust/crates/vocoderd/src/driver.rs:1020-1136 | a kill by pid takes the key of that pid, and as long as the child that holds it runs its waiter aborts it the next time it looks |
| `DetachedProtocol.KillIsLookAndLand` | rust/crates/vocoderd/src/driver.rs:1020-1030 | its two steps together remove that key and nothing else |
| `DetachedProtocol.SharedKeyAborts` | rust/crates/vocoderd/src/driver.rs:1117-1139 | the condition is needed: of two children registered under one key, the ordinary end of one can abort the other with no ask at all |
| `DetachedProtocol.KeylessUnstoppable` | rust/crates/vocoderd/src/driver.rs:1020-1159 | children started without a kill key are never aborted, and every cancel and every kill by pid changes nothing, in every interleaving |
| `PathEdit.SetPath` | rust/crates/vocoderd/src/rpc.rs:167-198 | the cursor loop assigns the path, or refuses and leaves the document as it was |
| `PathEdit.SetReadsBack` | rust/crates/vocoderd/src/rpc.rs:167-198 | a set path reads back its value, paths apart from it are unchanged, and objects stand on the way |
| `PathEdit.LastSetWins` | rust/crates/vocoderd/src/rpc.rs:167-198 | setting the same path again forgets the first value |
| `PathEdit.SetsCommute` | rust/crates/vocoderd/src/rpc.rs:167-198 | sets at paths apart from each other commute |
| `PathEdit.UnsetPath` | rust/crates/vocoderd/src/rpc.rs:200-215 | the cursor loop removes the member, or nothing when the parent is absent |
| `PathEdit.UnsetIsAbsent` | rust/crates/vocoderd/src/rpc.rs:200-215 | a non-empty unset path is absent, the rest is unchanged, and unsetting an absent path does nothing |
| `PathEdit.UnsetUndoesSetIff` | rust/crates/vocoderd/src/rpc.rs:167-215 | unset undoes set exactly when the path was absent from an existing object |
| `PathEdit.SetRestores` | rust/crates/vocoderd/src/rpc.rs:167-215 | setting back what an unset took restores the document |
| `PathEdit.DeepMerge` | rust/crates/vocoderd/src/rpc.rs:119-133 | the member loop computes the merge, in whatever member order |
| `PathEdit.MergeTwice` | rust/crates/vocoderd/src/rpc.rs:119-133 | merging the same patch again changes nothing |
| `PathEdit.MergeReads` | rust/crates/vocoderd/src/rpc.rs:119-133 | what every path reads after a merge: the old value where the patch misses a key, the merged one where the patch has the path, and nothing where the patch replaced what was above it |
| `PathEdit.ApplyMutateOp` | rust/crates/vocoderd/src/rpc.rs:136-165 | a mutate operation is read path first, then kind; a refusal leaves the section as it was |
| `PathEdit.SetOpSets` | rust/crates/vocoderd/src/rpc.rs:136-165 | a set operation on an object has its value read back at the path, and leaves paths apart as they were |
| `PathEdit.UnsetOpUnsets` | rust/crates/vocoderd/src/rpc.rs:136-165 | an unset operation leaves the path absent, and paths apart as they were |
| `PathEdit.RefusedIff` | rust/crates/vocoderd/src/rpc.rs:136-165 | exactly which operations are refused, and each with its own error |
| `AssistantStream.Live.FrameFor` | rust/crates/vocoderd/src/machines/agent.rs:271-381 | a chunk shows its block's start if it is new, then its own content |
| `AssistantStream.Live.Stitched` | rust/crates/vocoderd/src/machines/agent.rs:399-416 | a prose block ends with its whole text stitched, any other with the decoder's payload |
| `AssistantStream.EndStitchesShown` | rust/crates/vocoderd/src/machines/agent.rs:399-416 | after any history a prose end carries the stitching of the text shown as prose of its block so far |
| `AssistantStream.Live.Drain` | rust/crates/vocoderd/src/machines/agent.rs:241-259 | a batch's frames continue the numbering and display of everything before it |
| `AssistantStream.BatchesJoin` | rust/crates/vocoderd/src/machines/agent.rs:241-259 | cutting the chunks into batches anywhere shows the same frames |
| `AssistantStream.LiveText` | rust/crates/vocoderd/src/machines/agent.rs:271-381 | adding up a block's live deltas gives exactly what the model wrote, and every touched block starts once |
| `AssistantStream.FramesTell` | rust/crates/vocoderd/src/machines/agent.rs:271-381 | the frames bring every delta and every usage of the reply as what it is, in order, and nothing more of the model's |
| `AssistantStream.StartedFirst` | rust/crates/vocoderd/src/machines/agent.rs:271-381 | a block's start, under the kind that first touched it, comes before its first delta |
| `StreamRecords.ChunkRecords` | rust/crates/vocoderd/src/machines/agent.rs:2171-2240 | the run-packing loops compute the packed records |
| `StreamRecords.ExpandAssistantStream` | rust/crates/vocoderd/src/machines/llm_replay.rs:296-356 | the replay loop computes the expansion |
| `StreamRecords.ChunkReadsBack` | rust/crates/vocoderd/src/machines/llm_replay.rs:361-437 | every chunk written as JSON parses back as itself |
| `StreamRecords.ParsedIff` | rust/crates/vocoderd/src/machines/llm_replay.rs:361-437 | exactly which values parse as a chunk |
| `StreamRecords.RecordReadsBack` | rust/crates/vocoderd/src/machines/llm_replay.rs:296-356 | every packed record written as JSON expands to its chunks |
| `StreamRecords.OthersSkipped` | rust/crates/vocoderd/src/machines/llm_replay.rs:296-356 | a record of an unknown kind, or without what its kind needs, is skipped |
| `StreamRecords.ReplayIff` | rust/crates/vocoderd/src/machines/agent.rs:2171-2240 | a recorded stream replays as the chunks it was packed from exactly when no delta of a call that directly follows another of the same block changes its id or repeats a name |
| `StreamRecords.ReplayKeepsText` | rust/crates/vocoderd/src/machines/llm_replay.rs:296-356 | in any case every block replays with its text |
| `AssembledMessage.AssembleMessage` | rust/crates/vocoderd/src/machines/agent.rs:2311-2390 | the content is the parts of the blocks in index order, and the usage the last reported |
| `AssembledMessage.ThreeFormsAgree` | rust/crates/vocoderd/src/machines/agent.rs:2311-2390 | the live deltas, the replayed records and the assembled part of a block hold the same text, whatever kinds its chunks had |
| `AssembledMessage.PartFrom` | rust/crates/vocoderd/src/machines/agent.rs:2361-2390 | part number i comes from one block with i parts from the blocks below it: of the block's kind, with its text and a call's last id and name, and no prose without text |
| `AssembledMessage.KindIsFirstTouch` | rust/crates/vocoderd/src/machines/agent.rs:2318-2360 | a block is of the kind of the chunk that first touched it |
| `AssembledMessage.LastOnesCount` | rust/crates/vocoderd/src/machines/agent.rs:2318-2360 | the usage, and a call's id and name, are the last that came |

## Left out

- Sockets, HTTP handlers, provider requests, process spawning, file effects and environment probes: their results are arbitrary inputs.
- SSE and provider decoding, markdown stitching, the tool executor, sandbox and session machines: chunk lists, a stitching function, tool batches and row lists stand for them.
- The width of integers: turn and step numbers, effect ids, indices and line counts are unbounded, and a row's `seq` is an integer where the log holds a floating number.
- Text encoding: characters stand for the bytes of URLs, scripts and process output, and lossy decoding of a split character is not modelled.
- A row's `time`, the texts of errors, and the usage and message payloads of settled rows: they do not steer the machines.
- The stream recorded with a settled reply: kept as whether a tool call was started in it and how it finished, which is what the end of a turn is told from; `StreamRecords` has the records themselves.
- Serializing and parsing a schema's text: the interpreter is given the document that was written.
- DotSegments.AgreesIff: covers absolute paths, which are all that the relocation of map sources ever passes in.
- Updating through a reference: `PathEdit` and `SchemaPruning` take a value and return one; the cursor of `SetPath` and `UnsetPath` is an address in the document instead of a pointer.
- RouterSpec.Step: machine recursion is given the call stack as a number, so that a chain without end is an answer instead of an overflow.
- EffectPump.Host.Pump: one machine asks for effects, because the host's sorting keeps no requester.
- ModuleGraph.OrderByModuleGraph: rows are given by name and requested specifiers; icons, styles and revisions ride along.
- ComboBatches.PartitionBatches: the short hash is an arbitrary function of which only the length is known.
- SourceMaps.ComboMap: a bundle's own recorded map is carried whole; stripping of trailers and relocation of its sources are text handling.
- DetachedProtocol.LaterReadsEmptyIff: speaks of runs in which the one pid is not given out while the table holds it; other pids may be.  What happens otherwise is `DetachedProtocol.RunningReadsUnsettledIff`.
- RouterStack.EveryStepFitsIff: where the chains a turn starts depend on the machine's state or the value, a ranking is enough but not shown to be needed.
- DetachedProtocol.AbortsAreAsked: what the kill signal does to the child is the operating system's; the child may end at any time.
- A log tree that has lost the session's directory by the time its turn is finished, and a write that fails: the machine then drops the operation or is answered by the host.
- Liveness: that a waiting turn or a stuck tool is ever answered is not claimed.
- Announcing rows to followers, replay scripts, settings layering, permission and approval decisions: no deep invariant of their own.
- Branches of the source that nothing reaches (the cancel check after a turn's latch is cleared, the placed check on a first frame) are kept out.
