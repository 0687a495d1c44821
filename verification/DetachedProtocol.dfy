/** The threads around the detached table as a state machine: one step for each time a lock is held. */
module DetachedProtocol {
  import opened Json
  import opened DetachedTable

  /** One pipe's reader thread, up to its harvest being sent and then taken by the waiter. */
  datatype Reader = NoPipe | Reading | Sent(overflowed: bool) | Taken(overflowed: bool)

  /** Where the thread owning the child is. */
  datatype Waiter =
    | Starting
    | Looking
    | Waiting
    | Closing(exitCode: Option<int>, signal: Option<int>)
    | Collecting(exitCode: Option<int>, signal: Option<int>, left: nat, gaveUp: bool)
    | Done(exitCode: Option<int>, signal: Option<int>, gaveUp: bool)

  /** `key` is what the child registers under; `asked` remembers that a cancel or a kill removed it. */
  datatype Child = Child(pid: Pid, key: Option<string>, detached: bool, out: Reader, err: Reader, waiter: Waiter,
                         aborted: bool, asked: bool)

  /** `asks` are the kills that have looked a key up and not removed it yet. */
  datatype Sys = Sys(table: Table, registry: Registry, children: seq<Child>, asks: multiset<string>)

  datatype Step =
    | Start(pid: Pid, killKey: Option<string>, registers: bool, detached: bool, out: bool, err: bool)
    | Launch(c: nat)
    | Push(c: nat, isStdout: bool, text: string)
    | Eof(c: nat, isStdout: bool, overflowed: bool)
    | Look(c: nat)
    | StillRunning(c: nat)
    | Exit(c: nat, exitCode: Option<int>, signal: Option<int>)
    | Deregister(c: nat)
    | Collect(c: nat, isStdout: bool)
    | GiveUp(c: nat)
    | Seal(c: nat, spillPath: Option<string>)
    | Drain(pid: Pid)
    | KillLook(pid: Pid)
    | KillLand(key: string)
    | Cancel(key: string)

  datatype Event =
    | Delivered(pid: Pid, isStdout: bool, text: string)
    | Read(pid: Pid, stdout: string, stderr: string, settled: Option<Settled>)

  const INITIAL := Sys(map[], map[], [], multiset{})

  // ---------------------------------------------------------------- the steps

  function ReaderOf(c: Child, isStdout: bool): Reader {
    if isStdout then c.out else c.err
  }

  function WithReader(c: Child, isStdout: bool, r: Reader): Child {
    if isStdout then c.(out := r) else c.(err := r)
  }

  function Pipes(c: Child): nat {
    (if c.out.NoPipe? then 0 else 1) + (if c.err.NoPipe? then 0 else 1)
  }

  /** Readers whose harvest the waiter does not have. */
  function Missing(c: Child): nat {
    (if c.out.Reading? || c.out.Sent? then 1 else 0) + (if c.err.Reading? || c.err.Sent? then 1 else 0)
  }

  predicate TookOverflow(r: Reader) {
    r.Taken? && r.overflowed
  }

  predicate Truncated(c: Child) {
    TookOverflow(c.out) || TookOverflow(c.err)
  }

  /** The child's waiter still polls, or has not removed its own registration yet. */
  predicate Registered(c: Child) {
    c.waiter.Looking? || c.waiter.Waiting? || c.waiter.Closing?
  }

  predicate HoldsKey(c: Child, key: string) {
    Registered(c) && c.key == Some(key)
  }

  function Acting(step: Step): Option<nat> {
    match step
    case Launch(c) => Some(c)
    case Push(c, _, _) => Some(c)
    case Eof(c, _, _) => Some(c)
    case Look(c) => Some(c)
    case StillRunning(c) => Some(c)
    case Exit(c, _, _) => Some(c)
    case Deregister(c) => Some(c)
    case Collect(c, _) => Some(c)
    case GiveUp(c) => Some(c)
    case Seal(c, _) => Some(c)
    case _ => None
  }

  predicate ChildEnabled(c: Child, step: Step) {
    match step
    case Launch(_) => c.waiter.Starting?
    case Push(_, isStdout, _) => !c.waiter.Starting? && ReaderOf(c, isStdout).Reading?
    case Eof(_, isStdout, _) => !c.waiter.Starting? && ReaderOf(c, isStdout).Reading?
    case Look(_) => c.waiter.Looking?
    case StillRunning(_) => c.waiter.Waiting?
    case Exit(_, _, _) => c.waiter.Waiting?
    case Deregister(_) => c.waiter.Closing?
    case Collect(_, isStdout) => c.waiter.Collecting? && c.waiter.left > 0 && ReaderOf(c, isStdout).Sent?
    case GiveUp(_) => c.waiter.Collecting? && c.waiter.left > 0
    case Seal(_, _) => c.waiter.Collecting? && c.waiter.left == 0
    case _ => false
  }

  predicate Enabled(s: Sys, step: Step) {
    match Acting(step)
    case Some(c) => c < |s.children| && ChildEnabled(s.children[c], step)
    case None => step.KillLand? ==> step.key in s.asks
  }

  /** What the acting child becomes; only `Look` depends on anything shared. */
  function Moved(c: Child, step: Step, registry: Registry): Child
    requires ChildEnabled(c, step)
  {
    match step
    case Launch(_) => c.(waiter := Looking)
    case Eof(_, isStdout, overflowed) => WithReader(c, isStdout, Sent(overflowed))
    case Look(_) => c.(waiter := Waiting, aborted := c.aborted || (c.key.Some? && c.key.value !in registry))
    case StillRunning(_) => c.(waiter := Looking)
    case Exit(_, code, signal) => c.(waiter := Closing(code, signal))
    case Deregister(_) => c.(waiter := Collecting(c.waiter.exitCode, c.waiter.signal, Pipes(c), false))
    case Collect(_, isStdout) =>
      WithReader(c, isStdout, Taken(ReaderOf(c, isStdout).overflowed)).(waiter := c.waiter.(left := c.waiter.left - 1))
    case GiveUp(_) => c.(waiter := c.waiter.(left := 0, gaveUp := true))
    case Seal(_, _) => c.(waiter := Done(c.waiter.exitCode, c.waiter.signal, c.waiter.gaveUp))
    case _ => c
  }

  function MovedTable(t: Table, c: Child, step: Step): Table
    requires ChildEnabled(c, step)
  {
    match step
    case Push(_, isStdout, text) => if c.detached then Pushed(t, c.pid, text, isStdout) else t
    case Seal(_, spillPath) =>
      if c.detached
      then Sealed(t, c.pid, Settled(c.waiter.exitCode, c.waiter.signal, c.aborted, Truncated(c), spillPath))
      else t
    case _ => t
  }

  function MovedRegistry(r: Registry, c: Child, step: Step): Registry {
    match step
    case Launch(_) => if c.key.Some? then r[c.key.value := c.pid] else r
    case Deregister(_) => if c.key.Some? then r - {c.key.value} else r
    case _ => r
  }

  function Born(step: Step): Child
    requires step.Start?
  {
    Child(step.pid, if step.registers then step.killKey else None, step.detached,
          if step.out then Reading else NoPipe, if step.err then Reading else NoPipe, Starting, false, false)
  }

  /** A removal that finds the key is the ask for every child holding it. */
  function Asked(s: Sys, key: string): Sys {
    if key !in s.registry then s
    else s.(registry := s.registry - {key},
            children := seq(|s.children|, i requires 0 <= i < |s.children| =>
              if HoldsKey(s.children[i], key) then s.children[i].(asked := true) else s.children[i]))
  }

  function After(s: Sys, step: Step): Sys
    requires Enabled(s, step)
  {
    match Acting(step)
    case Some(c) =>
      var child := s.children[c];
      s.(table := MovedTable(s.table, child, step), registry := MovedRegistry(s.registry, child, step),
         children := s.children[c := Moved(child, step, s.registry)])
    case None =>
      match step
      case Start(pid, key, _, detached, _, _) =>
        s.(table := if detached then Named(s.table, pid, key) else s.table, children := s.children + [Born(step)])
      case Drain(pid) => s.(table := Drained(s.table, pid))
      case KillLook(pid) =>
        var key := Entry(s.table, pid).killKey;
        if key.Some? then s.(asks := s.asks + multiset{key.value}) else s
      case KillLand(key) => Asked(s, key).(asks := s.asks - multiset{key})
      case Cancel(key) => Asked(s, key)
      case _ => s
  }

  function Emitted(s: Sys, step: Step): seq<Event>
    requires Enabled(s, step)
  {
    match step
    case Push(c, isStdout, text) =>
      if s.children[c].detached then [Delivered(s.children[c].pid, isStdout, text)] else []
    case Drain(pid) =>
      if pid in s.table then [Read(pid, s.table[pid].stdout, s.table[pid].stderr, s.table[pid].settled)] else []
    case _ => []
  }

  ghost predicate Legal(s: Sys, steps: seq<Step>)
    decreases |steps|
  {
    steps == [] || (Enabled(s, steps[0]) && Legal(After(s, steps[0]), steps[1..]))
  }

  function Run(s: Sys, steps: seq<Step>): Sys
    requires Legal(s, steps)
    decreases |steps|
  {
    if steps == [] then s else Run(After(s, steps[0]), steps[1..])
  }

  function Trace(s: Sys, steps: seq<Step>): seq<Event>
    requires Legal(s, steps)
    decreases |steps|
  {
    if steps == [] then [] else Emitted(s, steps[0]) + Trace(After(s, steps[0]), steps[1..])
  }

  // --------------------------------------------------- every byte is read once

  /** Everything the readers of a pid delivered on one stream. */
  function TextIn(trace: seq<Event>, pid: Pid, isStdout: bool): string {
    if trace == [] then ""
    else
      var e := trace[0];
      (if e.Delivered? && e.pid == pid && e.isStdout == isStdout then e.text else "")
        + TextIn(trace[1..], pid, isStdout)
  }

  function Delta(e: Event, isStdout: bool): string
    requires e.Read?
  {
    if isStdout then e.stdout else e.stderr
  }

  /** Everything the reads of a pid were given on one stream. */
  function TextOut(trace: seq<Event>, pid: Pid, isStdout: bool): string {
    if trace == [] then ""
    else
      var e := trace[0];
      (if e.Read? && e.pid == pid then Delta(e, isStdout) else "") + TextOut(trace[1..], pid, isStdout)
  }

  lemma OneEvent(e: Event, pid: Pid, isStdout: bool)
    ensures TextIn([e], pid, isStdout) == if e.Delivered? && e.pid == pid && e.isStdout == isStdout then e.text else ""
    ensures TextOut([e], pid, isStdout) == if e.Read? && e.pid == pid then Delta(e, isStdout) else ""
  {
    assert TextIn([], pid, isStdout) == "" && TextOut([], pid, isStdout) == "";
    assert [e][1..] == [];
  }

  /** Only a push and a drain touch anybody's text. */
  lemma OthersKeepText(s: Sys, step: Step, pid: Pid, isStdout: bool)
    requires Enabled(s, step) && Emitted(s, step) == []
    ensures Unread(After(s, step).table, pid, isStdout) == Unread(s.table, pid, isStdout)
  {
  }

  lemma StepConserves(s: Sys, step: Step, pid: Pid, isStdout: bool)
    requires Enabled(s, step)
    ensures Unread(s.table, pid, isStdout) + TextIn(Emitted(s, step), pid, isStdout)
         == TextOut(Emitted(s, step), pid, isStdout) + Unread(After(s, step).table, pid, isStdout)
  {
    var events := Emitted(s, step);
    if events == [] {
      assert TextIn([], pid, isStdout) == "" && TextOut([], pid, isStdout) == "";
      OthersKeepText(s, step, pid, isStdout);
    } else {
      OneEvent(events[0], pid, isStdout);
      assert events == [events[0]];
    }
  }

  /** Two accounts that follow each other make one. */
  lemma Regroup(u: string, in1: string, out1: string, v: string, in2: string, out2: string, w: string)
    requires u + in1 == out1 + v && v + in2 == out2 + w
    ensures u + (in1 + in2) == (out1 + out2) + w
  {
    calc {
      u + (in1 + in2);
      (u + in1) + in2;
      (out1 + v) + in2;
      out1 + (v + in2);
      out1 + (out2 + w);
      (out1 + out2) + w;
    }
  }

  lemma StepsConserve(s: Sys, steps: seq<Step>, pid: Pid, isStdout: bool)
    requires Legal(s, steps)
    ensures Unread(s.table, pid, isStdout) + TextIn(Trace(s, steps), pid, isStdout)
         == TextOut(Trace(s, steps), pid, isStdout) + Unread(Run(s, steps).table, pid, isStdout)
    decreases |steps|
  {
    if steps == [] {
      assert Trace(s, steps) == [];
    } else {
      var now, next := Emitted(s, steps[0]), After(s, steps[0]);
      var later, last := Trace(next, steps[1..]), Run(next, steps[1..]);
      StepConserves(s, steps[0], pid, isStdout);
      StepsConserve(next, steps[1..], pid, isStdout);
      SplitText(now, later, pid, isStdout);
      Regroup(Unread(s.table, pid, isStdout), TextIn(now, pid, isStdout), TextOut(now, pid, isStdout),
              Unread(next.table, pid, isStdout), TextIn(later, pid, isStdout), TextOut(later, pid, isStdout),
              Unread(last.table, pid, isStdout));
    }
  }

  lemma {:induction false} SplitText(a: seq<Event>, b: seq<Event>, pid: Pid, isStdout: bool)
    ensures TextIn(a + b, pid, isStdout) == TextIn(a, pid, isStdout) + TextIn(b, pid, isStdout)
    ensures TextOut(a + b, pid, isStdout) == TextOut(a, pid, isStdout) + TextOut(b, pid, isStdout)
    decreases |a|
  {
    if a == [] {
      assert a + b == b;
    } else {
      assert (a + b)[1..] == a[1..] + b;
      SplitText(a[1..], b, pid, isStdout);
    }
  }

  /** In every interleaving: what was pushed is what the reads were given, then what is unread. */
  lemma EveryByteOnce(steps: seq<Step>, pid: Pid, isStdout: bool)
    requires Legal(INITIAL, steps)
    ensures TextIn(Trace(INITIAL, steps), pid, isStdout)
         == TextOut(Trace(INITIAL, steps), pid, isStdout) + Unread(Run(INITIAL, steps).table, pid, isStdout)
  {
    StepsConserve(INITIAL, steps, pid, isStdout);
  }

  // ------------------------------------------------------ what a settle promises

  /** The pid is given to no child while the table holds it. */
  predicate FreshPid(s: Sys, step: Step, pid: Pid) {
    step.Start? && step.detached && step.pid == pid ==> pid !in s.table
  }

  ghost predicate Fresh(s: Sys, steps: seq<Step>, pid: Pid)
    requires Legal(s, steps)
    decreases |steps|
  {
    steps == [] || (FreshPid(s, steps[0], pid) && Fresh(After(s, steps[0]), steps[1..], pid))
  }

  /** The waiter's count is of the harvests it does not have, unless it gave up on them. */
  predicate Counted(c: Child) {
    match c.waiter
    case Collecting(_, _, left, gaveUp) => gaveUp || left == Missing(c)
    case Done(_, _, gaveUp) => gaveUp || Missing(c) == 0
    case _ => Missing(c) == Pipes(c)
  }

  /** A child's record: there, and sealed by its own waiter or not at all. */
  predicate Recorded(t: Table, c: Child) {
    && c.pid in t
    && (match t[c.pid].settled
        case Some(settled) =>
          && c.waiter.Done?
          && settled.exitCode == c.waiter.exitCode && settled.signal == c.waiter.signal
          && settled.aborted == c.aborted
          && (!c.waiter.gaveUp ==> settled.truncated == Truncated(c))
        case None => !c.waiter.Done?)
  }

  /** Child `i` writes into the record of this pid. */
  predicate Writes(s: Sys, i: int, pid: Pid) {
    0 <= i < |s.children| && s.children[i].detached && s.children[i].pid == pid
  }

  /** The pid's record is one child's, and matches it. */
  ghost predicate Orderly(s: Sys, pid: Pid) {
    && (forall i | Writes(s, i, pid) :: Counted(s.children[i]) && Recorded(s.table, s.children[i]))
    && (forall i, j | Writes(s, i, pid) && Writes(s, j, pid) :: i == j)
    && (pid in s.table ==> exists i :: Writes(s, i, pid))
  }

  lemma MoveCounted(c: Child, step: Step, registry: Registry)
    requires ChildEnabled(c, step) && Counted(c)
    ensures Counted(Moved(c, step, registry))
  {
  }

  lemma MoveKeepsOthers(t: Table, c: Child, step: Step, registry: Registry, pid: Pid)
    requires ChildEnabled(c, step) && (!c.detached || c.pid != pid)
    ensures (pid in MovedTable(t, c, step)) == (pid in t) && Entry(MovedTable(t, c, step), pid) == Entry(t, pid)
  {
  }

  lemma MoveRecorded(t: Table, c: Child, step: Step, registry: Registry)
    requires ChildEnabled(c, step) && Recorded(t, c) && c.detached
    ensures Recorded(MovedTable(t, c, step), Moved(c, step, registry))
  {
  }

  /** A step of one child changes nobody else, and not whose record it writes. */
  lemma ActWrites(s: Sys, step: Step)
    requires Enabled(s, step) && Acting(step).Some?
    ensures var c, next := Acting(step).value, After(s, step);
      && |next.children| == |s.children|
      && (forall i | 0 <= i < |s.children| && i != c :: next.children[i] == s.children[i])
      && (forall i, pid :: Writes(next, i, pid) <==> Writes(s, i, pid))
  {
  }

  /** Reads, kills and cancels change no child but for what it remembers, and seal nothing. */
  lemma QuietKeeps(s: Sys, step: Step)
    requires Enabled(s, step) && Acting(step).None? && !step.Start?
    ensures |After(s, step).children| == |s.children|
    ensures forall i :: 0 <= i < |s.children| ==>
      var c := After(s, step).children[i]; c == s.children[i].(asked := c.asked)
    ensures After(s, step).table.Keys == s.table.Keys
    ensures forall pid :: pid in s.table ==> After(s, step).table[pid].settled == s.table[pid].settled
  {
  }

  lemma QuietOrderly(s: Sys, step: Step, pid: Pid)
    requires Orderly(s, pid) && Enabled(s, step) && Acting(step).None? && !step.Start?
    ensures Orderly(After(s, step), pid)
  {
    var next := After(s, step);
    QuietKeeps(s, step);
    forall i | 0 <= i < |s.children|
      ensures next.children[i] == s.children[i].(asked := next.children[i].asked)
      ensures Writes(next, i, pid) <==> Writes(s, i, pid)
    {
    }
  }

  lemma ActOrderly(s: Sys, step: Step, pid: Pid)
    requires Orderly(s, pid) && Enabled(s, step) && Acting(step).Some?
    ensures Orderly(After(s, step), pid)
  {
    var c, next := Acting(step).value, After(s, step);
    var child := s.children[c];
    ActWrites(s, step);
    if Writes(s, c, pid) {
      MoveCounted(child, step, s.registry);
      MoveRecorded(s.table, child, step, s.registry);
    } else {
      MoveKeepsOthers(s.table, child, step, s.registry, pid);
    }
  }

  lemma StartOrderly(s: Sys, step: Step, pid: Pid)
    requires Orderly(s, pid) && step.Start? && FreshPid(s, step, pid)
    ensures Orderly(After(s, step), pid)
  {
    var next, n := After(s, step), |s.children|;
    assert next.children[n] == Born(step);
    assert forall i | 0 <= i < n :: next.children[i] == s.children[i];
    assert forall i | i < n :: Writes(next, i, pid) <==> Writes(s, i, pid);
    if step.detached && step.pid == pid {
      assert Writes(next, n, pid);
      assert forall i | i < n :: Writes(s, i, pid) ==> Recorded(s.table, s.children[i]);
    }
  }

  lemma StepOrderly(s: Sys, step: Step, pid: Pid)
    requires Orderly(s, pid) && Enabled(s, step) && FreshPid(s, step, pid)
    ensures Orderly(After(s, step), pid)
  {
    if Acting(step).Some? {
      ActOrderly(s, step, pid);
    } else if step.Start? {
      StartOrderly(s, step, pid);
    } else {
      QuietOrderly(s, step, pid);
    }
  }

  lemma {:induction false} RunOrderly(s: Sys, steps: seq<Step>, pid: Pid)
    requires Orderly(s, pid) && Legal(s, steps) && Fresh(s, steps, pid)
    ensures Orderly(Run(s, steps), pid)
    decreases |steps|
  {
    if steps == [] {
    } else {
      StepOrderly(s, steps[0], pid);
      RunOrderly(After(s, steps[0]), steps[1..], pid);
    }
  }

  /** A child whose waiter did not give up has no reader left when it is done. */
  lemma DoneReadersAreDone(c: Child)
    requires Counted(c) && c.waiter.Done? && !c.waiter.gaveUp
    ensures !c.out.Reading? && !c.err.Reading?
  {
  }

  /** No reader of the pid is still going. */
  ghost predicate Quiet(s: Sys, pid: Pid) {
    forall i | Writes(s, i, pid) && !s.children[i].waiter.Starting? ::
      !s.children[i].out.Reading? && !s.children[i].err.Reading?
  }

  /** The pid has settled and been read to the end. */
  ghost predicate ReadOut(s: Sys, pid: Pid) {
    && pid in s.table && s.table[pid].settled.Some?
    && Unread(s.table, pid, true) == "" && Unread(s.table, pid, false) == ""
  }

  lemma StepStaysQuiet(s: Sys, step: Step, pid: Pid)
    requires Orderly(s, pid) && Enabled(s, step) && FreshPid(s, step, pid)
    requires Quiet(s, pid) && ReadOut(s, pid)
    ensures Quiet(After(s, step), pid) && ReadOut(After(s, step), pid)
    ensures TextOut(Emitted(s, step), pid, true) == "" && TextOut(Emitted(s, step), pid, false) == ""
  {
    var events := Emitted(s, step);
    if events != [] {
      OneEvent(events[0], pid, true);
      OneEvent(events[0], pid, false);
      assert events == [events[0]];
    }
    if Acting(step).Some? {
      ActStaysQuiet(s, step, pid);
    } else if step.Start? {
      StartStaysQuiet(s, step, pid);
    } else {
      QuietStaysQuiet(s, step, pid);
    }
  }

  lemma QuietStaysQuiet(s: Sys, step: Step, pid: Pid)
    requires Enabled(s, step) && Acting(step).None? && !step.Start?
    requires Quiet(s, pid) && ReadOut(s, pid)
    ensures Quiet(After(s, step), pid) && ReadOut(After(s, step), pid)
  {
    var next := After(s, step);
    QuietKeeps(s, step);
    forall i | 0 <= i < |s.children|
      ensures next.children[i] == s.children[i].(asked := next.children[i].asked)
      ensures Writes(next, i, pid) <==> Writes(s, i, pid)
    {
    }
  }

  lemma StartStaysQuiet(s: Sys, step: Step, pid: Pid)
    requires step.Start? && FreshPid(s, step, pid) && Quiet(s, pid) && ReadOut(s, pid)
    ensures Quiet(After(s, step), pid) && ReadOut(After(s, step), pid)
  {
    var next := After(s, step);
    assert forall i | 0 <= i < |s.children| :: next.children[i] == s.children[i];
    assert forall i | i < |s.children| :: Writes(next, i, pid) <==> Writes(s, i, pid);
    assert next.children[|s.children|].waiter.Starting?;
  }

  lemma ActStaysQuiet(s: Sys, step: Step, pid: Pid)
    requires Orderly(s, pid) && Enabled(s, step) && Acting(step).Some?
    requires Quiet(s, pid) && ReadOut(s, pid)
    ensures Quiet(After(s, step), pid) && ReadOut(After(s, step), pid)
  {
    var c := Acting(step).value;
    var child := s.children[c];
    ActWrites(s, step);
    if Writes(s, c, pid) {
      assert false;
    } else {
      MoveKeepsOthers(s.table, child, step, s.registry, pid);
    }
  }

  lemma {:induction false} RunStaysQuiet(s: Sys, steps: seq<Step>, pid: Pid)
    requires Orderly(s, pid) && Legal(s, steps) && Fresh(s, steps, pid)
    requires Quiet(s, pid) && ReadOut(s, pid)
    ensures TextOut(Trace(s, steps), pid, true) == "" && TextOut(Trace(s, steps), pid, false) == ""
    decreases |steps|
  {
    if steps == [] {
      assert Trace(s, steps) == [];
    } else {
      StepStaysQuiet(s, steps[0], pid);
      StepOrderly(s, steps[0], pid);
      RunStaysQuiet(After(s, steps[0]), steps[1..], pid);
      SplitText(Emitted(s, steps[0]), Trace(After(s, steps[0]), steps[1..]), pid, true);
      SplitText(Emitted(s, steps[0]), Trace(After(s, steps[0]), steps[1..]), pid, false);
    }
  }

  /** A reader still going after the settle can make a later read speak. */
  lemma LateReaderSpeaks(s: Sys, c: nat, isStdout: bool, text: string)
    requires c < |s.children| && s.children[c].detached && Orderly(s, s.children[c].pid)
    requires !s.children[c].waiter.Starting? && ReaderOf(s.children[c], isStdout).Reading?
    ensures
      var steps, pid := [Push(c, isStdout, text), Drain(s.children[c].pid)], s.children[c].pid;
      && Legal(s, steps) && Fresh(s, steps, pid)
      && TextOut(Trace(s, steps), pid, isStdout) == Unread(s.table, pid, isStdout) + text
  {
    var push, pid := Push(c, isStdout, text), s.children[c].pid;
    var next := After(s, push);
    assert Writes(s, c, pid) && Recorded(s.table, s.children[c]);
    var drain := Drain(pid);
    var done := After(next, drain);
    var steps := [push, drain];
    assert steps[1..] == [drain] && [drain][1..] == [];
    assert Legal(done, []) && Legal(next, [drain]) && Legal(s, steps);
    assert Fresh(done, [], pid) && Fresh(next, [drain], pid) && Fresh(s, steps, pid);
    assert Trace(done, []) == [] && Trace(next, [drain]) == Emitted(next, drain);
    assert Trace(s, steps) == [Emitted(s, push)[0]] + [Emitted(next, drain)[0]];
    OneEvent(Emitted(s, push)[0], pid, isStdout);
    OneEvent(Emitted(next, drain)[0], pid, isStdout);
    SplitText([Emitted(s, push)[0]], [Emitted(next, drain)[0]], pid, isStdout);
  }

  /** Once a settled pid has been read to the end, its later reads are empty in every interleaving exactly when
      none of its readers is still going, which a waiter that took every harvest has seen to. */
  lemma LaterReadsEmptyIff(s: Sys, pid: Pid)
    requires Orderly(s, pid) && ReadOut(s, pid)
    ensures Quiet(s, pid)
        <==> forall steps :: Legal(s, steps) && Fresh(s, steps, pid) ==>
               TextOut(Trace(s, steps), pid, true) == "" && TextOut(Trace(s, steps), pid, false) == ""
    ensures (forall i | Writes(s, i, pid) :: s.children[i].waiter.Done? && !s.children[i].waiter.gaveUp)
      ==> Quiet(s, pid)
  {
    if Quiet(s, pid) {
      forall steps | Legal(s, steps) && Fresh(s, steps, pid)
        ensures TextOut(Trace(s, steps), pid, true) == "" && TextOut(Trace(s, steps), pid, false) == ""
      {
        RunStaysQuiet(s, steps, pid);
      }
    } else {
      var i :| Writes(s, i, pid) && !s.children[i].waiter.Starting?
        && (s.children[i].out.Reading? || s.children[i].err.Reading?);
      LateReaderSpeaks(s, i, s.children[i].out.Reading?, "x");
      if s.children[i].waiter.Done? && !s.children[i].waiter.gaveUp {
        DoneReadersAreDone(s.children[i]);
      }
    }
  }

  /** A settle record, once there, is the one every later read reports. */
  lemma {:induction false} SettleIsFinal(s: Sys, steps: seq<Step>, pid: Pid)
    requires Orderly(s, pid) && Legal(s, steps) && Fresh(s, steps, pid)
    requires pid in s.table && s.table[pid].settled.Some?
    ensures pid in Run(s, steps).table && Run(s, steps).table[pid].settled == s.table[pid].settled
    decreases |steps|
  {
    if steps == [] {
    } else {
      StepKeepsSettle(s, steps[0], pid);
      StepOrderly(s, steps[0], pid);
      SettleIsFinal(After(s, steps[0]), steps[1..], pid);
    }
  }

  lemma StepKeepsSettle(s: Sys, step: Step, pid: Pid)
    requires Orderly(s, pid) && Enabled(s, step) && FreshPid(s, step, pid)
    requires pid in s.table && s.table[pid].settled.Some?
    ensures pid in After(s, step).table && After(s, step).table[pid].settled == s.table[pid].settled
  {
    if Acting(step).Some? {
      var c := Acting(step).value;
      if Writes(s, c, pid) {
        assert Recorded(s.table, s.children[c]);
      } else {
        MoveKeepsOthers(s.table, s.children[c], step, s.registry, pid);
      }
    } else if !step.Start? {
      QuietKeeps(s, step);
    }
  }

  // ------------------------------------------------------ how the child ended

  /** The exit code and signal the waiter has from the child, once it has reaped it. */
  function ExitOf(w: Waiter): Option<(Option<int>, Option<int>)> {
    match w
    case Closing(code, signal) => Some((code, signal))
    case Collecting(code, signal, _, _) => Some((code, signal))
    case Done(code, signal, _) => Some((code, signal))
    case _ => None
  }

  /** It has them exactly from the exit on, as the exit gave them, and keeps them. */
  lemma ExitKept(s: Sys, step: Step, i: nat)
    requires Enabled(s, step) && i < |s.children|
    ensures i < |After(s, step).children|
    ensures ExitOf(After(s, step).children[i].waiter) ==
      if step.Exit? && step.c == i then Some((step.exitCode, step.signal)) else ExitOf(s.children[i].waiter)
  {
    if Acting(step).Some? {
      ActWrites(s, step);
    } else if step.Start? {
      assert After(s, step).children[i] == s.children[i];
    } else {
      QuietKeeps(s, step);
    }
  }

  /** The seal writes what the waiter has by then, and where the whole output was put. */
  lemma SealSays(s: Sys, c: nat, spillPath: Option<string>)
    requires Enabled(s, Seal(c, spillPath)) && s.children[c].detached
    ensures
      var child, t := s.children[c], After(s, Seal(c, spillPath)).table;
      child.pid in t && t[child.pid].settled.Some?
      && var settled := t[child.pid].settled.value;
         && ExitOf(child.waiter) == Some((settled.exitCode, settled.signal)) && settled.aborted == child.aborted
         && settled.spillPath == spillPath
         && (settled.truncated <==> child.out == Taken(true) || child.err == Taken(true))
  {
  }

  lemma {:induction false} RunExitKept(s: Sys, steps: seq<Step>, i: nat)
    requires Legal(s, steps) && i < |s.children| && ExitOf(s.children[i].waiter).Some?
    ensures i < |Run(s, steps).children| && ExitOf(Run(s, steps).children[i].waiter) == ExitOf(s.children[i].waiter)
    decreases |steps|
  {
    if steps == [] {
    } else {
      ExitKept(s, steps[0], i);
      RunExitKept(After(s, steps[0]), steps[1..], i);
    }
  }

  /** What the record of a pid says of the end of its child is what the system said when the child ended, in every
      interleaving that comes between. */
  lemma SettledAsExited(s: Sys, c: nat, exitCode: Option<int>, signal: Option<int>, steps: seq<Step>)
    requires Enabled(s, Exit(c, exitCode, signal)) && s.children[c].detached
    requires var pid, next := s.children[c].pid, After(s, Exit(c, exitCode, signal));
      Orderly(s, pid) && Legal(next, steps) && Fresh(next, steps, pid)
    ensures var pid, last := s.children[c].pid, Run(After(s, Exit(c, exitCode, signal)), steps);
      pid in last.table && last.table[pid].settled.Some? ==>
        last.table[pid].settled.value.exitCode == exitCode && last.table[pid].settled.value.signal == signal
  {
    var step, pid := Exit(c, exitCode, signal), s.children[c].pid;
    var next := After(s, step);
    ExitKept(s, step, c);
    StepOrderly(s, step, pid);
    RunOrderly(next, steps, pid);
    RunExitKept(next, steps, c);
    assert Writes(next, c, pid);
    RunWrites(next, steps, c, pid);
  }

  lemma {:induction false} RunWrites(s: Sys, steps: seq<Step>, i: nat, pid: Pid)
    requires Legal(s, steps) && Writes(s, i, pid)
    ensures Writes(Run(s, steps), i, pid)
    decreases |steps|
  {
    if steps == [] {
    } else {
      var next := After(s, steps[0]);
      if Acting(steps[0]).Some? {
        ActWrites(s, steps[0]);
      } else if steps[0].Start? {
        assert next.children[i] == s.children[i];
      } else {
        QuietKeeps(s, steps[0]);
      }
      RunWrites(next, steps[1..], i, pid);
    }
  }

  // ------------------------------------------------------ a pid that is given out again

  /** The waiter has not reaped the child, so the operating system keeps its pid. */
  predicate Unreaped(c: Child) {
    c.waiter.Starting? || c.waiter.Looking? || c.waiter.Waiting?
  }

  /** What the operating system does keep to: no pid of a child that is not reaped is given to another. */
  ghost predicate Free(s: Sys, step: Step) {
    step.Start? ==> forall i | 0 <= i < |s.children| && s.children[i].pid == step.pid :: !Unreaped(s.children[i])
  }

  ghost predicate AllFree(s: Sys, steps: seq<Step>)
    requires Legal(s, steps)
    decreases |steps|
  {
    steps == [] || (Free(s, steps[0]) && AllFree(After(s, steps[0]), steps[1..]))
  }

  /** The table holds exactly the pids of the detached children, and what a finished one wrote says settled. */
  ghost predicate Kept(s: Sys) {
    && (forall pid | pid in s.table :: exists i :: Writes(s, i, pid))
    && (forall i, pid | Writes(s, i, pid) ::
        pid in s.table && (s.children[i].waiter.Done? ==> s.table[pid].settled.Some?))
  }

  lemma StepKept(s: Sys, step: Step)
    requires Kept(s) && Enabled(s, step)
    ensures Kept(After(s, step))
    ensures forall pid | pid in s.table ::
      pid in After(s, step).table && (s.table[pid].settled.Some? ==> After(s, step).table[pid].settled.Some?)
  {
    var next := After(s, step);
    if Acting(step).Some? {
      ActKept(s, step);
    } else if step.Start? {
      StartKept(s, step);
    } else {
      QuietKeeps(s, step);
      forall i, pid
        ensures Writes(next, i, pid) <==> Writes(s, i, pid)
      {
        assert 0 <= i < |s.children| ==> next.children[i] == s.children[i].(asked := next.children[i].asked);
      }
    }
  }

  lemma ActKept(s: Sys, step: Step)
    requires Kept(s) && Enabled(s, step) && Acting(step).Some?
    ensures Kept(After(s, step))
    ensures forall pid | pid in s.table ::
      pid in After(s, step).table && (s.table[pid].settled.Some? ==> After(s, step).table[pid].settled.Some?)
  {
    var c, next := Acting(step).value, After(s, step);
    ActWrites(s, step);
    assert s.children[c].detached ==> Writes(s, c, s.children[c].pid);
    MoveKeepsPids(s.table, s.children[c], step);
    forall i, pid | Writes(next, i, pid)
      ensures pid in next.table && (next.children[i].waiter.Done? ==> next.table[pid].settled.Some?)
    {
      assert Writes(s, i, pid);
      if i == c && !s.children[c].waiter.Done? && next.children[c].waiter.Done? {
        assert step.Seal?;
      }
    }
  }

  /** A child's step loses no pid and no settle, and its seal leaves one. */
  lemma MoveKeepsPids(t: Table, c: Child, step: Step)
    requires ChildEnabled(c, step) && (c.detached ==> c.pid in t)
    ensures MovedTable(t, c, step).Keys == t.Keys
    ensures forall pid | pid in t :: t[pid].settled.Some? ==> MovedTable(t, c, step)[pid].settled.Some?
    ensures step.Seal? && c.detached ==> MovedTable(t, c, step)[c.pid].settled.Some?
  {
  }

  lemma StartKept(s: Sys, step: Step)
    requires Kept(s) && step.Start?
    ensures Kept(After(s, step))
    ensures forall pid | pid in s.table ::
      pid in After(s, step).table && After(s, step).table[pid].settled == s.table[pid].settled
  {
    var next, n := After(s, step), |s.children|;
    assert next.children[n] == Born(step);
    forall i, pid
      ensures Writes(next, i, pid) <==> Writes(s, i, pid) || (i == n && step.detached && pid == step.pid)
    {
      assert 0 <= i < n ==> next.children[i] == s.children[i];
    }
    forall pid | pid in next.table
      ensures exists i :: Writes(next, i, pid)
    {
      if pid in s.table {
        var i :| Writes(s, i, pid);
        assert Writes(next, i, pid);
      } else {
        assert Writes(next, n, pid);
      }
    }
  }

  lemma {:induction false} RunKept(s: Sys, steps: seq<Step>)
    requires Kept(s) && Legal(s, steps)
    ensures Kept(Run(s, steps))
    decreases |steps|
  {
    if steps == [] {
    } else {
      StepKept(s, steps[0]);
      RunKept(After(s, steps[0]), steps[1..]);
    }
  }

  /** A child that is still running reads as settled. */
  predicate ReadsAsSettled(s: Sys, n: nat) {
    && n < |s.children| && Unreaped(s.children[n])
    && s.children[n].pid in s.table && s.table[s.children[n].pid].settled.Some?
  }

  /** Starting under a held pid keeps the record of the child before: its settle, its unread text. */
  lemma StartInherits(s: Sys, step: Step)
    requires step.Start? && step.detached && step.pid in s.table
    ensures var next := After(s, step);
      && next.table[step.pid] == s.table[step.pid].(killKey := step.killKey)
      && (ReadsAsSettled(next, |s.children|) <==> s.table[step.pid].settled.Some?)
  {
    assert After(s, step).children[|s.children|] == Born(step);
  }

  /** Only child `n` writes the record of its pid, and it is unsettled, as long as `n` runs. */
  ghost predicate Sole(s: Sys, n: nat) {
    && n < |s.children| && s.children[n].detached
    && (Unreaped(s.children[n]) ==>
          && s.children[n].pid in s.table && s.table[s.children[n].pid].settled == None
          && forall i | Writes(s, i, s.children[n].pid) :: i == n)
  }

  lemma StepSole(s: Sys, step: Step, n: nat)
    requires Sole(s, n) && Enabled(s, step) && Free(s, step)
    ensures Sole(After(s, step), n)
  {
    var next, pid := After(s, step), s.children[n].pid;
    if Acting(step).Some? {
      var c := Acting(step).value;
      ActWrites(s, step);
      if !Writes(s, c, pid) {
        MoveKeepsOthers(s.table, s.children[c], step, s.registry, pid);
      }
    } else if step.Start? {
      assert forall i | 0 <= i < |s.children| :: next.children[i] == s.children[i];
      assert forall i | i < |s.children| :: Writes(next, i, pid) <==> Writes(s, i, pid);
    } else {
      QuietKeeps(s, step);
      assert next.children[n] == s.children[n].(asked := next.children[n].asked);
      forall i
        ensures Writes(next, i, pid) <==> Writes(s, i, pid)
      {
        assert 0 <= i < |s.children| ==> next.children[i] == s.children[i].(asked := next.children[i].asked);
      }
    }
  }

  lemma {:induction false} RunSole(s: Sys, steps: seq<Step>, n: nat)
    requires Sole(s, n) && Legal(s, steps) && AllFree(s, steps)
    ensures Sole(Run(s, steps), n)
    decreases |steps|
  {
    if steps == [] {
    } else {
      StepSole(s, steps[0], n);
      RunSole(After(s, steps[0]), steps[1..], n);
    }
  }

  /** How many steps a child's waiter is from its end. */
  function ToSeal(w: Waiter): nat {
    match w
    case Starting => 6
    case Looking => 5
    case Waiting => 4
    case Closing(_, _) => 3
    case Collecting(_, _, left, _) => if left > 0 then 2 else 1
    case Done(_, _, _) => 0
  }

  function NextStep(i: nat, w: Waiter): Step
    requires !w.Done?
  {
    match w
    case Starting => Launch(i)
    case Looking => Look(i)
    case Waiting => Exit(i, Some(0), None)
    case Closing(_, _) => Deregister(i)
    case Collecting(_, _, left, _) => if left > 0 then GiveUp(i) else Seal(i, None)
  }

  /** Child `i` runs on to its seal, and no other child moves. */
  lemma {:induction false} CanSeal(s: Sys, i: nat) returns (steps: seq<Step>)
    requires Kept(s) && i < |s.children| && s.children[i].detached
    ensures Legal(s, steps) && AllFree(s, steps) && |Run(s, steps).children| == |s.children|
    ensures forall j | 0 <= j < |s.children| && j != i :: Run(s, steps).children[j] == s.children[j]
    ensures Run(s, steps).children[i].waiter.Done?
    ensures s.children[i].pid in Run(s, steps).table && Run(s, steps).table[s.children[i].pid].settled.Some?
    decreases ToSeal(s.children[i].waiter)
  {
    assert Writes(s, i, s.children[i].pid);
    if s.children[i].waiter.Done? {
      steps := [];
    } else {
      var step := WaiterMoves(s, i);
      ActKept(s, step);
      var rest := CanSeal(After(s, step), i);
      steps := [step] + rest;
      assert steps[1..] == rest;
    }
  }

  lemma WaiterMoves(s: Sys, i: nat) returns (step: Step)
    requires i < |s.children| && !s.children[i].waiter.Done?
    ensures step == NextStep(i, s.children[i].waiter) && Enabled(s, step) && Free(s, step) && Acting(step) == Some(i)
    ensures var next := After(s, step);
      && |next.children| == |s.children| && next.children[i].pid == s.children[i].pid
      && next.children[i].detached == s.children[i].detached
      && ToSeal(next.children[i].waiter) < ToSeal(s.children[i].waiter)
      && forall j | 0 <= j < |s.children| && j != i :: next.children[j] == s.children[j]
  {
    step := NextStep(i, s.children[i].waiter);
    ActWrites(s, step);
  }

  ghost predicate NeverReadsAsSettled(s: Sys, n: nat) {
    forall steps | Legal(s, steps) && AllFree(s, steps) :: !ReadsAsSettled(Run(s, steps), n)
  }

  lemma OnceReadsAsSettled(s: Sys, n: nat, steps: seq<Step>)
    requires Legal(s, steps) && AllFree(s, steps) && ReadsAsSettled(Run(s, steps), n)
    ensures !NeverReadsAsSettled(s, n)
  {
  }

  /** A detached child reads as unsettled for as long as it runs, whatever happens, exactly when its pid was not in
      the table at its start; the table forgets no pid, so under one given out again a running child reads as
      settled. */
  lemma RunningReadsUnsettledIff(s: Sys, step: Step)
    requires Kept(s) && step.Start? && step.detached && Free(s, step)
    ensures NeverReadsAsSettled(After(s, step), |s.children|) <==> step.pid !in s.table
  {
    var next, n := After(s, step), |s.children|;
    assert next.children[n] == Born(step);
    assert forall i | 0 <= i < n :: next.children[i] == s.children[i];
    assert forall i | i < n :: Writes(next, i, step.pid) <==> Writes(s, i, step.pid);
    if step.pid !in s.table {
      assert Sole(next, n);
      forall steps | Legal(next, steps) && AllFree(next, steps)
        ensures !ReadsAsSettled(Run(next, steps), n)
      {
        RunSole(next, steps, n);
      }
    } else {
      StartKept(s, step);
      var i :| Writes(s, i, step.pid);
      var steps := CanSeal(next, i);
      OnceReadsAsSettled(next, n, steps);
    }
  }

  // --------------------------------------------------------- who gets aborted

  /** No child launches under a key that another child is registered under. */
  ghost predicate Unshared(s: Sys, step: Step) {
    step.Launch? && step.c < |s.children| && s.children[step.c].key.Some?
    ==> forall i :: 0 <= i < |s.children| && i != step.c ==> !HoldsKey(s.children[i], s.children[step.c].key.value)
  }

  ghost predicate AllUnshared(s: Sys, steps: seq<Step>)
    requires Legal(s, steps)
    decreases |steps|
  {
    steps == [] || (Unshared(s, steps[0]) && AllUnshared(After(s, steps[0]), steps[1..]))
  }

  /** Every registration stands until it is asked for, and only the asked are aborted. */
  ghost predicate Faithful(s: Sys) {
    && (forall i :: 0 <= i < |s.children| ==> s.children[i].aborted ==> s.children[i].asked)
    && (forall i :: 0 <= i < |s.children| && s.children[i].waiter.Starting? ==> !s.children[i].asked)
    && (forall i :: 0 <= i < |s.children| && Registered(s.children[i]) && s.children[i].key.Some? ==>
          (s.children[i].key.value in s.registry <==> !s.children[i].asked))
    && (forall i, j | 0 <= i < j < |s.children| && s.children[i].key.Some? ::
          HoldsKey(s.children[i], s.children[i].key.value) ==> !HoldsKey(s.children[j], s.children[i].key.value))
  }

  lemma AskedFaithful(s: Sys, key: string)
    requires Faithful(s)
    ensures Faithful(Asked(s, key))
  {
    var next := Asked(s, key);
    if key in s.registry {
      assert forall i :: 0 <= i < |s.children| ==>
        next.children[i] == if HoldsKey(s.children[i], key) then s.children[i].(asked := true) else s.children[i];
    }
  }

  lemma KeysDiffer(s: Sys, i: nat, j: nat)
    requires Faithful(s) && i < |s.children| && j < |s.children| && i != j
    requires Registered(s.children[i]) && Registered(s.children[j])
    requires s.children[i].key.Some? && s.children[j].key.Some?
    ensures s.children[i].key != s.children[j].key
  {
    var a, b := if i < j then i else j, if i < j then j else i;
    assert HoldsKey(s.children[a], s.children[a].key.value);
    assert !HoldsKey(s.children[b], s.children[a].key.value);
  }

  lemma ActFaithful(s: Sys, step: Step)
    requires Faithful(s) && Enabled(s, step) && Acting(step).Some? && Unshared(s, step)
    ensures Faithful(After(s, step))
  {
    var c, next := Acting(step).value, After(s, step);
    var child, moved := s.children[c], Moved(s.children[c], step, s.registry);
    assert moved.key == child.key && moved.asked == child.asked;
    forall i | 0 <= i < |s.children| && Registered(next.children[i]) && next.children[i].key.Some?
      ensures next.children[i].key.value in next.registry <==> !next.children[i].asked
    {
      if i != c && step.Deregister? && child.key.Some? {
        KeysDiffer(s, i, c);
      }
    }
  }

  lemma StepFaithful(s: Sys, step: Step)
    requires Faithful(s) && Enabled(s, step) && Unshared(s, step)
    ensures Faithful(After(s, step))
  {
    if Acting(step).Some? {
      ActFaithful(s, step);
    } else {
      match step
      case KillLand(key) => AskedFaithful(s, key);
      case Cancel(key) => AskedFaithful(s, key);
      case Start(_, _, _, _, _, _) =>
        var next := After(s, step);
        assert next.children[|s.children|] == Born(step);
      case _ =>
    }
  }

  /** While keys are not shared, whatever runs: a child is aborted only if a cancel or a kill removed its key. */
  lemma {:induction false} AbortsAreAsked(s: Sys, steps: seq<Step>)
    requires Faithful(s) && Legal(s, steps) && AllUnshared(s, steps)
    ensures Faithful(Run(s, steps))
    ensures forall i ::
      0 <= i < |Run(s, steps).children| ==> Run(s, steps).children[i].aborted ==> Run(s, steps).children[i].asked
    decreases |steps|
  {
    if steps == [] {
    } else {
      StepFaithful(s, steps[0]);
      AbortsAreAsked(After(s, steps[0]), steps[1..]);
    }
  }

  /** And the next look of a child that was asked for does abort it. */
  lemma LookAbortsIffAsked(s: Sys, c: nat)
    requires Faithful(s) && Enabled(s, Look(c)) && s.children[c].key.Some?
    ensures After(s, Look(c)).children[c].aborted <==> s.children[c].asked
  {
    assert Registered(s.children[c]);
  }

  lemma StartsOrderly()
    ensures (forall pid :: Orderly(INITIAL, pid)) && Kept(INITIAL) && Faithful(INITIAL) && SealsAreWritten(INITIAL)
  {
  }

  /** Every settle record was written by a child of that pid which was done, and says whether that child was aborted. */
  ghost predicate SealsAreWritten(s: Sys) {
    forall pid | pid in s.table && s.table[pid].settled.Some? :: SealWritten(s, pid)
  }

  ghost predicate SealWritten(s: Sys, pid: Pid)
    requires pid in s.table && s.table[pid].settled.Some?
  {
    exists i ::
      Writes(s, i, pid) && s.children[i].waiter.Done? && s.children[i].aborted == s.table[pid].settled.value.aborted
  }

  lemma StepSeals(s: Sys, step: Step, pid: Pid)
    requires Enabled(s, step) && SealsAreWritten(s)
    requires pid in After(s, step).table && After(s, step).table[pid].settled.Some?
    ensures SealWritten(After(s, step), pid)
  {
    var next := After(s, step);
    if step.Seal? && Writes(s, step.c, pid) {
      ActWrites(s, step);
      assert Writes(next, step.c, pid);
    } else {
      SettledBefore(s, step, pid);
      var i :| Writes(s, i, pid) && s.children[i].waiter.Done?
        && s.children[i].aborted == s.table[pid].settled.value.aborted;
      DoneStays(s, step, i);
      assert Writes(next, i, pid);
    }
  }

  /** Only a seal of the pid's own child changes what is settled. */
  lemma SettledBefore(s: Sys, step: Step, pid: Pid)
    requires Enabled(s, step) && !(step.Seal? && Writes(s, step.c, pid))
    requires pid in After(s, step).table && After(s, step).table[pid].settled.Some?
    ensures pid in s.table && s.table[pid].settled == After(s, step).table[pid].settled
  {
  }

  lemma DoneStays(s: Sys, step: Step, i: nat)
    requires Enabled(s, step) && i < |s.children| && s.children[i].waiter.Done?
    ensures i < |After(s, step).children|
    ensures var c := After(s, step).children[i];
      c.waiter == s.children[i].waiter && c.aborted == s.children[i].aborted && c.pid == s.children[i].pid
        && c.detached == s.children[i].detached
  {
    if Acting(step).None? && !step.Start? {
      QuietKeeps(s, step);
    }
  }

  lemma {:induction false} RunSeals(s: Sys, steps: seq<Step>)
    requires Legal(s, steps) && SealsAreWritten(s)
    ensures SealsAreWritten(Run(s, steps))
    decreases |steps|
  {
    if steps == [] {
    } else {
      forall pid | pid in After(s, steps[0]).table && After(s, steps[0]).table[pid].settled.Some?
        ensures SealWritten(After(s, steps[0]), pid)
      {
        StepSeals(s, steps[0], pid);
      }
      RunSeals(After(s, steps[0]), steps[1..]);
    }
  }

  /** What an aborted settle record says, even of a pid given out again: the key of a child with that pid was removed
      by a cancel or a kill. */
  lemma AbortedSettleWasAsked(steps: seq<Step>, pid: Pid)
    requires Legal(INITIAL, steps) && AllUnshared(INITIAL, steps)
    requires pid in Run(INITIAL, steps).table
    ensures
      var s := Run(INITIAL, steps);
      s.table[pid].settled.Some? && s.table[pid].settled.value.aborted ==>
        exists i :: Writes(s, i, pid) && s.children[i].asked
  {
    StartsOrderly();
    AbortsAreAsked(INITIAL, steps);
    RunSeals(INITIAL, steps);
    var s := Run(INITIAL, steps);
    if s.table[pid].settled.Some? {
      assert SealWritten(s, pid);
      var i :| Writes(s, i, pid) && s.children[i].waiter.Done?
        && s.children[i].aborted == s.table[pid].settled.value.aborted;
      assert s.children[i].aborted ==> s.children[i].asked;
    }
  }

  /** From the very start: a child runs and is sealed, its pid is given out again, and the new child reads as
      settled. */
  lemma ReusedPidReadsAsSettled(start: Step) returns (steps: seq<Step>)
    requires start.Start? && start.detached
    ensures Legal(INITIAL, [start] + steps + [start]) && AllFree(INITIAL, [start] + steps + [start])
    ensures ReadsAsSettled(Run(INITIAL, [start] + steps + [start]), 1)
  {
    StartsOrderly();
    StartKept(INITIAL, start);
    var one := After(INITIAL, start);
    steps := CanSeal(one, 0);
    var sealed := Run(one, steps);
    StartInherits(sealed, start);
    OneStep(sealed, start);
    RunsJoin(one, steps, sealed, [start]);
    FreesJoin(one, steps, sealed, [start]);
    assert [start] + steps + [start] == [start] + (steps + [start]);
    FirstOf(INITIAL, start, steps + [start]);
  }

  lemma OneStep(s: Sys, step: Step)
    requires Enabled(s, step) && Free(s, step)
    ensures Legal(s, [step]) && AllFree(s, [step]) && Run(s, [step]) == After(s, step)
  {
    assert [step][1..] == [];
    assert Legal(After(s, step), []) && AllFree(After(s, step), []) && Run(After(s, step), []) == After(s, step);
  }

  lemma {:induction false} RunsJoin(s: Sys, a: seq<Step>, mid: Sys, b: seq<Step>)
    requires Legal(s, a) && Run(s, a) == mid && Legal(mid, b)
    ensures Legal(s, a + b) && Run(s, a + b) == Run(mid, b)
    decreases |a|
  {
    if a == [] {
      assert a + b == b;
    } else {
      RunsJoin(After(s, a[0]), a[1..], mid, b);
      assert [a[0]] + (a[1..] + b) == a + b;
      FirstOf(s, a[0], a[1..] + b);
    }
  }

  lemma {:induction false} FreesJoin(s: Sys, a: seq<Step>, mid: Sys, b: seq<Step>)
    requires Legal(s, a) && AllFree(s, a) && Run(s, a) == mid && Legal(mid, b) && AllFree(mid, b)
    ensures Legal(s, a + b) && AllFree(s, a + b)
    decreases |a|
  {
    RunsJoin(s, a, mid, b);
    if a == [] {
      assert a + b == b;
    } else {
      FreesJoin(After(s, a[0]), a[1..], mid, b);
      assert [a[0]] + (a[1..] + b) == a + b;
      FirstOf(s, a[0], a[1..] + b);
    }
  }

  lemma FirstOf(s: Sys, step: Step, rest: seq<Step>)
    requires Enabled(s, step) && Legal(After(s, step), rest)
    ensures Legal(s, [step] + rest) && Run(s, [step] + rest) == Run(After(s, step), rest)
    ensures AllFree(s, [step] + rest) <==> Free(s, step) && AllFree(After(s, step), rest)
  {
    assert ([step] + rest)[1..] == rest;
  }

  function Remaining(w: Waiter): nat {
    match w
    case Looking => 3
    case Waiting => 2
    case Closing(_, _) => 1
    case _ => 0
  }

  /** Neither a cancel nor a kill. */
  predicate Unasking(step: Step) {
    !step.KillLand? && !step.Cancel?
  }

  /** A waiter has given up on its harvests exactly when it did so by a step of its own since it began to collect. */
  lemma GaveUpIff(c: Child, step: Step, registry: Registry)
    requires ChildEnabled(c, step)
    ensures
      var next := Moved(c, step, registry).waiter;
      next.Collecting? || next.Done? ==>
        (next.gaveUp <==> step.GiveUp? || ((c.waiter.Collecting? || c.waiter.Done?) && c.waiter.gaveUp))
  {
  }

  /** What a waiter does next, as long as its child runs. */
  function Poll(w: Waiter, i: nat): seq<Step> {
    if w.Waiting? then [StillRunning(i), Look(i)] else [Look(i)]
  }

  /** A waiter that finds its key gone aborts its child, and touches nothing else. */
  lemma PollAborts(s: Sys, i: nat, key: string)
    requires i < |s.children| && s.children[i].key == Some(key) && key !in s.registry
    requires s.children[i].waiter.Looking? || s.children[i].waiter.Waiting?
    ensures
      var child := s.children[i];
      && Legal(s, Poll(child.waiter, i))
      && Run(s, Poll(child.waiter, i)) == s.(children := s.children[i := child.(waiter := Waiting, aborted := true)])
  {
    var looks := if s.children[i].waiter.Waiting? then After(s, StillRunning(i)) else s;
    var last := After(looks, Look(i));
    assert Legal(last, []) && Run(last, []) == last && [Look(i)][1..] == [];
    assert Legal(looks, [Look(i)]) && Run(looks, [Look(i)]) == last;
    assert [StillRunning(i), Look(i)][1..] == [Look(i)];
  }

  /** A cancel asks for the child that is registered under its key, and as long as the child runs its waiter aborts it
      the next time it looks. */
  lemma CancelAborts(s: Sys, i: nat, key: string)
    requires Faithful(s) && i < |s.children| && HoldsKey(s.children[i], key) && !s.children[i].waiter.Closing?
    ensures
      var steps := [Cancel(key)] + Poll(s.children[i].waiter, i);
      && Legal(s, steps) && i < |Run(s, steps).children|
      && Run(s, steps).children[i].aborted && Run(s, steps).children[i].asked && key !in Run(s, steps).registry
  {
    var asked := After(s, Cancel(key));
    AskedNow(s, i, key);
    PollAborts(asked, i, key);
    RunsJoin(s, [Cancel(key)], asked, Poll(s.children[i].waiter, i));
  }

  /** A kill by pid goes by the key on the pid's record: its two steps ask for the child that is registered under it,
      and as long as the child runs its waiter aborts it the next time it looks. */
  lemma KillByPidAborts(s: Sys, i: nat, pid: Pid, key: string)
    requires Faithful(s) && i < |s.children| && HoldsKey(s.children[i], key) && !s.children[i].waiter.Closing?
    requires pid in s.table && s.table[pid].killKey == Some(key)
    ensures
      var steps := [KillLook(pid), KillLand(key)] + Poll(s.children[i].waiter, i);
      && Legal(s, steps) && i < |Run(s, steps).children|
      && Run(s, steps).children[i].aborted && Run(s, steps).children[i].asked
  {
    var looked := After(s, KillLook(pid));
    assert key in looked.asks;
    var landed := After(looked, KillLand(key));
    assert landed.children[i] == s.children[i].(asked := landed.children[i].asked);
    AskedNow(s, i, key);
    PollAborts(landed, i, key);
    var ask := [KillLook(pid), KillLand(key)];
    assert ask[1..] == [KillLand(key)] && [KillLand(key)][1..] == [];
    assert Legal(landed, []) && Run(landed, []) == landed;
    assert Legal(looked, ask[1..]) && Run(looked, ask[1..]) == landed;
    RunsJoin(s, ask, landed, Poll(s.children[i].waiter, i));
  }

  /** A start brings one child, and its launch registers it: under its kill key, when it is to be registered, and with a
      reader on each pipe it has. */
  lemma StartLaunches(s: Sys, pid: Pid, killKey: Option<string>, registers: bool, detached: bool, out: bool, err: bool)
    ensures
      var i, born := |s.children|, After(s, Start(pid, killKey, registers, detached, out, err));
      Enabled(born, Launch(i))
      && var up := After(born, Launch(i));
         && |up.children| == i + 1 && up.children[..i] == s.children
         && var c := up.children[i];
            && c.pid == pid && c.detached == detached && c.waiter.Looking? && !c.aborted && !c.asked
            && (forall key :: HoldsKey(c, key) <==> registers && killKey == Some(key))
            && (c.out.Reading? <==> out) && (c.err.Reading? <==> err)
            && up.registry == (if registers && killKey.Some? then s.registry[killKey.value := pid] else s.registry)
            && (detached ==> pid in up.table && up.table[pid].killKey == killKey) && (!detached ==> up.table == s.table)
  {
  }

  /** Without anything in between the two steps of a kill leave the registry as one would. */
  lemma KillIsLookAndLand(s: Sys, pid: Pid, key: string)
    requires pid in s.table && s.table[pid].killKey == Some(key)
    ensures
      var landed := After(After(s, KillLook(pid)), KillLand(key));
      landed.registry == Killed(s.table, s.registry, pid) && landed.registry == s.registry - {key}
      && landed.asks == s.asks && landed.table == s.table
  {
    assert key in After(s, KillLook(pid)).asks;
  }

  lemma AskedNow(s: Sys, i: nat, key: string)
    requires Faithful(s) && i < |s.children| && HoldsKey(s.children[i], key)
    ensures Asked(s, key).children[i].asked
  {
    assert Registered(s.children[i]) && s.children[i].key == Some(key);
  }

  /** Where two children are registered under one key, the ordinary end of one can abort the other, with no ask. */
  lemma {:induction false} SharedKeyAborts(s: Sys, i: nat, j: nat, key: string) returns (steps: seq<Step>)
    requires i < |s.children| && j < |s.children| && i != j
    requires HoldsKey(s.children[i], key) && HoldsKey(s.children[j], key) && s.children[j].waiter.Looking?
    ensures Legal(s, steps) && forall k :: 0 <= k < |steps| ==> Unasking(steps[k])
    ensures j < |Run(s, steps).children|
    ensures Run(s, steps).children[j] == s.children[j].(waiter := Waiting, aborted := true)
    decreases Remaining(s.children[i].waiter)
  {
    var step := match s.children[i].waiter
      case Looking => Look(i)
      case Waiting => Exit(i, Some(0), None)
      case _ => Deregister(i);
    var next := After(s, step);
    var rest: seq<Step>;
    if s.children[i].waiter.Closing? {
      var look := Look(j);
      rest := [look];
      assert key !in next.registry && next.children[j] == s.children[j];
      var last := After(next, look);
      assert rest[1..] == [] && Legal(last, []) && Run(last, []) == last;
      assert Legal(next, rest) && Run(next, rest) == last;
    } else {
      rest := SharedKeyAborts(next, i, j, key);
    }
    steps := [step] + rest;
    assert steps[1..] == rest;
  }

  // --------------------------------------------------------- children without a key

  /** No child is started with a key to be stopped by. */
  predicate KeyFree(steps: seq<Step>) {
    forall i | 0 <= i < |steps| && steps[i].Start? :: steps[i].killKey == None
  }

  /** Nothing is registered, and no kill or cancel has anything to remove. */
  ghost predicate Unstoppable(s: Sys) {
    && s.registry == map[] && s.asks == multiset{}
    && (forall pid | pid in s.table :: s.table[pid].killKey == None)
    && (forall i | 0 <= i < |s.children| :: s.children[i].key == None && !s.children[i].aborted && !s.children[i].asked)
  }

  lemma StepUnstoppable(s: Sys, step: Step)
    requires Unstoppable(s) && Enabled(s, step) && (step.Start? ==> step.killKey == None)
    ensures Unstoppable(After(s, step))
    ensures step.Cancel? || step.KillLook? ==> After(s, step) == s
    ensures !step.KillLand?
  {
    if Acting(step).Some? {
      ActUnstoppable(s, step);
    }
  }

  lemma ActUnstoppable(s: Sys, step: Step)
    requires Unstoppable(s) && Enabled(s, step) && Acting(step).Some?
    ensures Unstoppable(After(s, step))
  {
    ActWrites(s, step);
  }

  /** Children started without a key cannot be stopped: whatever runs, each ends by itself, and every cancel and
      every kill that comes in between changes nothing. */
  lemma {:induction false} KeylessUnstoppable(s: Sys, steps: seq<Step>)
    requires Unstoppable(s) && Legal(s, steps) && KeyFree(steps)
    ensures Unstoppable(Run(s, steps))
    ensures forall step | Enabled(Run(s, steps), step) && (step.Cancel? || step.KillLook? || step.KillLand?) ::
      After(Run(s, steps), step) == Run(s, steps)
    decreases |steps|
  {
    if steps == [] {
      forall step | Enabled(s, step) && (step.Cancel? || step.KillLook? || step.KillLand?)
        ensures After(s, step) == s
      {
        StepUnstoppable(s, step);
      }
    } else {
      StepUnstoppable(s, steps[0]);
      KeylessUnstoppable(After(s, steps[0]), steps[1..]);
    }
  }

  lemma StartsUnstoppable()
    ensures Unstoppable(INITIAL)
  {
  }
}
