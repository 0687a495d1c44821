/** How much call stack a step needs: chains run inside the turn that starts them, and nothing counts how deep. */
module RouterStack {
  import opened Json
  import opened RouterSpec
  import opened RouterProofs
  import RouterEmits
  import RouterOrder
  import RouterReplay

  // ----- the call stack -----

  lemma {:induction false} AbsorbDeeper<M>(handle: Handler<M>, depth: nat, more: nat, w: Work<M>, from: MachineId,
                                           outs: seq<MachineOut>)
    requires depth <= more && Absorb(handle, depth, w, from, outs).Some?
    ensures Absorb(handle, more, w, from, outs) == Absorb(handle, depth, w, from, outs)
    decreases depth, 2, |outs|
  {
    if outs != [] {
      if outs[0].Dispatch? {
        DispatchDeeper(handle, depth, more, w, from, outs[0].name, outs[0].payload, outs[0].mode);
        AbsorbDeeper(handle, depth, more,
                     DispatchFrom(handle, depth, w, from, outs[0].name, outs[0].payload, outs[0].mode).value, from,
                     outs[1..]);
      } else {
        var filed := WithSubs(w, from, outs[0]);
        AbsorbDeeper(handle, depth, more, filed.(results := filed.results + Filed(from, outs[0])), from, outs[1..]);
      }
    }
  }

  lemma {:induction false} DispatchDeeper<M>(handle: Handler<M>, depth: nat, more: nat, w: Work<M>, from: MachineId,
                                             name: EventName, payload: Value, mode: Mode)
    requires depth <= more && DispatchFrom(handle, depth, w, from, name, payload, mode).Some?
    ensures DispatchFrom(handle, more, w, from, name, payload, mode)
      == DispatchFrom(handle, depth, w, from, name, payload, mode)
    decreases depth, 1, 0
  {
    if !mode.Emit? {
      ChainDeeper(handle, depth, more, w, mode, name, payload, Subscribers(w.subs, name));
    }
  }

  lemma {:induction false} ChainDeeper<M>(handle: Handler<M>, depth: nat, more: nat, w: Work<M>, mode: Mode,
                                          name: EventName, value: Value, ids: seq<MachineId>)
    requires depth <= more && Chain(handle, depth, w, mode, name, value, ids).Some?
    ensures Chain(handle, more, w, mode, name, value, ids) == Chain(handle, depth, w, mode, name, value, ids)
    decreases depth, 0, |ids|
  {
    if ids != [] {
      if ids[0] !in w.machines {
        ChainDeeper(handle, depth, more, w.(results := w.results + [UnknownTarget(ids[0])]), mode, name, value,
                    ids[1..]);
      } else {
        var called := Invoke(handle, w, ids[0], TurnInput(mode, name, value), true);
        AbsorbDeeper(handle, depth - 1, more - 1, called.0, ids[0], SideOutputs(called.1));
        if VerdictOf(called.1).Continue? {
          ChainDeeper(handle, depth, more, Absorb(handle, depth - 1, called.0, ids[0], SideOutputs(called.1)).value,
                      mode, name, VerdictOf(called.1).value, ids[1..]);
        }
      }
    }
  }

  lemma {:induction false} DrainDeeper<M>(handle: Handler<M>, depth: nat, more: nat, w: Work<M>, delivered: nat)
    requires depth <= more && delivered <= MAX_DELIVERIES_PER_STEP && delivered <= |w.sent|
    requires Drain(handle, depth, w, delivered).Some?
    ensures Drain(handle, more, w, delivered) == Drain(handle, depth, w, delivered)
    decreases MAX_DELIVERIES_PER_STEP - delivered
  {
    if delivered < |w.sent| && delivered < MAX_DELIVERIES_PER_STEP {
      var (to, input) := w.sent[delivered];
      ServeDeeper(handle, depth, more, w, to, input);
      DrainDeeper(handle, depth, more, Serve(handle, depth, w, to, input).value, delivered + 1);
    }
  }

  lemma ServeDeeper<M>(handle: Handler<M>, depth: nat, more: nat, w: Work<M>, to: MachineId, input: MachineIn)
    requires depth <= more && Serve(handle, depth, w, to, input).Some?
    ensures Serve(handle, more, w, to, input) == Serve(handle, depth, w, to, input)
  {
    if to in w.machines {
      var called := Invoke(handle, w, to, input, false);
      AbsorbDeeper(handle, depth, more, called.0, to, called.1);
    }
  }

  /** A step that fits the stack has the same outcome on every larger one. */
  lemma StackIrrelevant<M>(handle: Handler<M>, depth: nat, more: nat, machines: map<MachineId, M>,
                           subs: map<EventName, seq<MachineId>>, ev: RouteIn<M>)
    requires depth <= more && Step(handle, depth, machines, subs, ev).Some?
    ensures Step(handle, more, machines, subs, ev) == Step(handle, depth, machines, subs, ev)
  {
    var w := Work(machines, subs, [], [], []);
    match ev {
      case HostDispatch(name, payload, mode) => DispatchDeeper(handle, depth, more, w, HOST, name, payload, mode);
      case Unmount(id) =>
        if id in machines {
          var outs := handle(machines[id], DisposeRequested).1;
          AbsorbDeeper(handle, depth, more,
                       w.(machines := machines - {id}, calls := [Invocation(id, DisposeRequested, outs, true)]), id,
                       outs);
        }
      case _ =>
    }
    DrainDeeper(handle, depth, more, Begin(handle, depth, machines, subs, ev).value, 0);
  }

  /** A machine that answers every turn by starting the same waterfall again. */
  function Echoing<M>(name: EventName): Handler<M> {
    (m, _) => (m, [Dispatch(name, Null, Waterfall)])
  }

  /** The delivery cap does not bound chains: such a machine overflows every stack. */
  lemma {:induction false} EchoOverflows<M>(depth: nat, w: Work<M>, from: MachineId, id: MachineId, name: EventName,
                                            payload: Value)
    requires id in w.machines && name in w.subs && w.subs[name] == [id]
    ensures DispatchFrom(Echoing(name), depth, w, from, name, payload, Waterfall) == None
    decreases depth
  {
    if depth > 0 {
      var turn := TurnInput(Waterfall, name, payload);
      var called := Invoke(Echoing(name), w, id, turn, true);
      var out := Dispatch(name, Null, Waterfall);
      assert called.1 == [out] && [out][..0] == [];
      assert SideOutputs([out]) == [out];
      EchoOverflows(depth - 1, called.0, id, id, name, Null);
      assert Absorb(Echoing(name), depth - 1, called.0, id, [out]) == None;
    }
  }

  // ----- a ranking bounds the stack -----

  predicate StartsChain(out: MachineOut) {
    out.Dispatch? && !out.mode.Emit?
  }

  predicate IsTurn(input: MachineIn) {
    input.WaterfallTurn? || input.BailTurn?
  }

  /** Whatever its state, a machine answers a chain turn by starting chains of lower-ranked names only. */
  ghost predicate Ranked<M(!new)>(handle: Handler<M>, rank: EventName -> nat) {
    forall m: M, turn: MachineIn | IsTurn(turn) :: StartsBelow(handle(m, turn).1, rank, rank(turn.name))
  }

  predicate StartsBelow(outs: seq<MachineOut>, rank: EventName -> nat, bound: nat) {
    forall i | 0 <= i < |outs| && StartsChain(outs[i]) :: rank(outs[i].name) < bound
  }

  ghost predicate RanksBelow(rank: EventName -> nat, depth: nat) {
    forall name :: rank(name) < depth
  }

  lemma {:induction false} SideBelow(outs: seq<MachineOut>, rank: EventName -> nat, bound: nat)
    requires StartsBelow(outs, rank, bound)
    ensures StartsBelow(SideOutputs(outs), rank, bound)
  {
    if outs != [] {
      SideBelow(outs[..|outs| - 1], rank, bound);
    }
  }

  lemma {:induction false} AbsorbFits<M(!new)>(handle: Handler<M>, depth: nat, w: Work<M>, from: MachineId,
                                               outs: seq<MachineOut>, rank: EventName -> nat)
    requires Ranked(handle, rank) && StartsBelow(outs, rank, depth)
    ensures Absorb(handle, depth, w, from, outs).Some?
    decreases depth, 2, |outs|
  {
    if outs != [] {
      if outs[0].Dispatch? {
        DispatchFits(handle, depth, w, from, outs[0].name, outs[0].payload, outs[0].mode, rank);
        var next := DispatchFrom(handle, depth, w, from, outs[0].name, outs[0].payload, outs[0].mode).value;
        AbsorbFits(handle, depth, next, from, outs[1..], rank);
      } else {
        var filed := WithSubs(w, from, outs[0]);
        AbsorbFits(handle, depth, filed.(results := filed.results + Filed(from, outs[0])), from, outs[1..], rank);
      }
    }
  }

  lemma {:induction false} DispatchFits<M(!new)>(handle: Handler<M>, depth: nat, w: Work<M>, from: MachineId,
                                                 name: EventName, payload: Value, mode: Mode, rank: EventName -> nat)
    requires Ranked(handle, rank) && (mode.Emit? || rank(name) < depth)
    ensures DispatchFrom(handle, depth, w, from, name, payload, mode).Some?
    decreases depth, 1, 0
  {
    if !mode.Emit? {
      ChainFits(handle, depth, w, mode, name, payload, Subscribers(w.subs, name), rank);
    }
  }

  lemma {:induction false} ChainFits<M(!new)>(handle: Handler<M>, depth: nat, w: Work<M>, mode: Mode, name: EventName,
                                              value: Value, ids: seq<MachineId>, rank: EventName -> nat)
    requires Ranked(handle, rank) && rank(name) < depth
    ensures Chain(handle, depth, w, mode, name, value, ids).Some?
    decreases depth, 0, |ids|
  {
    if ids != [] {
      if ids[0] !in w.machines {
        ChainFits(handle, depth, w.(results := w.results + [UnknownTarget(ids[0])]), mode, name, value, ids[1..], rank);
      } else {
        var turn := TurnInput(mode, name, value);
        var called := Invoke(handle, w, ids[0], turn, true);
        assert IsTurn(turn) && StartsBelow(handle(w.machines[ids[0]], turn).1, rank, rank(name));
        SideBelow(called.1, rank, depth - 1);
        AbsorbFits(handle, depth - 1, called.0, ids[0], SideOutputs(called.1), rank);
        if VerdictOf(called.1).Continue? {
          var absorbed := Absorb(handle, depth - 1, called.0, ids[0], SideOutputs(called.1)).value;
          ChainFits(handle, depth, absorbed, mode, name, VerdictOf(called.1).value, ids[1..], rank);
        }
      }
    }
  }

  lemma {:induction false} DrainFits<M(!new)>(handle: Handler<M>, depth: nat, w: Work<M>, delivered: nat,
                                              rank: EventName -> nat)
    requires delivered <= MAX_DELIVERIES_PER_STEP && delivered <= |w.sent|
    requires Ranked(handle, rank) && RanksBelow(rank, depth)
    ensures Drain(handle, depth, w, delivered).Some?
    decreases MAX_DELIVERIES_PER_STEP - delivered
  {
    if delivered < |w.sent| && delivered < MAX_DELIVERIES_PER_STEP {
      var (to, input) := w.sent[delivered];
      if to in w.machines {
        var called := Invoke(handle, w, to, input, false);
        AbsorbFits(handle, depth, called.0, to, called.1, rank);
      }
      DrainFits(handle, depth, Serve(handle, depth, w, to, input).value, delivered + 1, rank);
    }
  }

  /** With a ranking of all names below `depth`, every step runs to its end on a stack of that depth. */
  lemma StepFits<M(!new)>(handle: Handler<M>, depth: nat, machines: map<MachineId, M>,
                          subs: map<EventName, seq<MachineId>>, ev: RouteIn<M>, rank: EventName -> nat)
    requires Ranked(handle, rank) && RanksBelow(rank, depth)
    ensures Step(handle, depth, machines, subs, ev).Some?
  {
    var w := Work(machines, subs, [], [], []);
    match ev {
      case HostDispatch(name, payload, mode) => DispatchFits(handle, depth, w, HOST, name, payload, mode, rank);
      case Unmount(id) =>
        if id in machines {
          var outs := handle(machines[id], DisposeRequested).1;
          var gone := w.(machines := machines - {id}, calls := [Invocation(id, DisposeRequested, outs, true)]);
          AbsorbFits(handle, depth, gone, id, outs, rank);
        }
      case _ =>
    }
    DrainFits(handle, depth, Begin(handle, depth, machines, subs, ev).value, 0, rank);
  }

  /** So ranked, every step returns; the queue is served in order and to the cap, nothing emitted is lost or doubled,
      the results stand in the order of emission, every emit reaches its subscribers, and the record is genuine. */
  lemma RankedStepServes<M(!new)>(handle: Handler<M>, depth: nat, machines: map<MachineId, M>,
                                  subs: map<EventName, seq<MachineId>>, ev: RouteIn<M>, rank: EventName -> nat)
    returns (w: Work<M>, src: RouterOrder.Sources, journal: RouterEmits.Journal)
    requires Ranked(handle, rank) && RanksBelow(rank, depth) && SubsWithin(subs, machines.Keys)
    ensures Step(handle, depth, machines, subs, ev) == Some(w)
    ensures SubsWithin(w.subs, w.machines.Keys)
    ensures Served(w, Suspects(ev) - (machines.Keys - if ev.Unmount? then {ev.id} else {}))
    ensures forall x :: Paid(w, x) == Owed(w.calls, x) + Brought(ev, x)
    ensures RouterOrder.Ordered(w, src) && forall i | 0 <= i < |w.calls| :: RouterOrder.ShowsAll(w, src, i)
    ensures RouterEmits.Told(subs, RouterEmits.Given(ev), w, journal)
    ensures RouterEmits.Complete(w, journal, RouterEmits.FromOutside(ev, machines.Keys))
    ensures RouterReplay.Played(handle, RouterReplay.Starting(machines, ev), RouterReplay.Leaving(machines, ev), w)
  {
    StepFits(handle, depth, machines, subs, ev, rank);
    w := Step(handle, depth, machines, subs, ev).value;
    StepServes(handle, depth, machines, subs, ev);
    src := RouterOrder.StepKeepsOrder(handle, depth, machines, subs, ev);
    journal := RouterEmits.EmitsReachSubscribers(handle, depth, machines, subs, ev);
    RouterReplay.StepPlays(handle, depth, machines, subs, ev);
    forall x
      ensures Paid(w, x) == Owed(w.calls, x) + Brought(ev, x)
    {
      StepBalances(handle, depth, machines, subs, ev, x);
    }
  }

  // ----- and without a ranking no stack is enough -----

  function ChainNames(outs: seq<MachineOut>): set<EventName> {
    set i | 0 <= i < |outs| && StartsChain(outs[i]) :: outs[i].name
  }

  /** The chains a machine starts in a chain turn are decided by the name of the turn, and it unsubscribes from nothing
      there. */
  ghost predicate CallsByName<M(!new)>(handle: Handler<M>, calls: EventName -> set<EventName>) {
    forall m: M, turn: MachineIn | IsTurn(turn) ::
      Keeps(handle(m, turn).1) && ChainNames(handle(m, turn).1) == calls(turn.name)
  }

  predicate Keeps(outs: seq<MachineOut>) {
    forall i | 0 <= i < |outs| :: !outs[i].Unsubscribe?
  }

  ghost predicate Descends(calls: EventName -> set<EventName>, rank: EventName -> nat) {
    forall name, next | next in calls(name) :: rank(next) < rank(name)
  }

  /** A way down through the names, each starting the next. */
  ghost predicate Path(calls: EventName -> set<EventName>, path: seq<EventName>) {
    forall i | 0 <= i < |path| - 1 :: path[i + 1] in calls(path[i])
  }

  /** `id` alone is mounted, and subscribed to every name of the path and nothing twice. */
  ghost predicate Alone<M>(w: Work<M>, id: MachineId, names: set<EventName>) {
    && w.machines.Keys == {id}
    && (forall name | name in w.subs :: w.subs[name] == [id] || w.subs[name] == [])
    && (forall name | name in names :: name in w.subs && w.subs[name] == [id])
  }

  lemma {:induction false} SideKeeps(outs: seq<MachineOut>)
    requires Keeps(outs)
    ensures Keeps(SideOutputs(outs)) && forall i | 0 <= i < |outs| && StartsChain(outs[i]) ::
      outs[i] in SideOutputs(outs)
  {
    if outs != [] {
      SideKeeps(outs[..|outs| - 1]);
    }
  }

  lemma {:induction false} AbsorbAlone<M(!new)>(handle: Handler<M>, depth: nat, w: Work<M>, id: MachineId,
                                                outs: seq<MachineOut>, calls: EventName -> set<EventName>,
                                                names: set<EventName>)
    requires CallsByName(handle, calls) && Alone(w, id, names) && Keeps(outs)
    requires Absorb(handle, depth, w, id, outs).Some?
    ensures Alone(Absorb(handle, depth, w, id, outs).value, id, names)
    decreases depth, 2, |outs|
  {
    if outs != [] {
      if outs[0].Dispatch? {
        DispatchAlone(handle, depth, w, id, outs[0].name, outs[0].payload, outs[0].mode, calls, names);
        var next := DispatchFrom(handle, depth, w, id, outs[0].name, outs[0].payload, outs[0].mode).value;
        AbsorbAlone(handle, depth, next, id, outs[1..], calls, names);
      } else {
        var filed := WithSubs(w, id, outs[0]);
        AbsorbAlone(handle, depth, filed.(results := filed.results + Filed(id, outs[0])), id, outs[1..], calls, names);
      }
    }
  }

  lemma {:induction false} DispatchAlone<M(!new)>(handle: Handler<M>, depth: nat, w: Work<M>, id: MachineId,
                                                  name: EventName, payload: Value, mode: Mode,
                                                  calls: EventName -> set<EventName>, names: set<EventName>)
    requires CallsByName(handle, calls) && Alone(w, id, names)
    requires DispatchFrom(handle, depth, w, id, name, payload, mode).Some?
    ensures Alone(DispatchFrom(handle, depth, w, id, name, payload, mode).value, id, names)
    decreases depth, 1, 0
  {
    if !mode.Emit? {
      ChainAlone(handle, depth, w, id, mode, name, payload, Subscribers(w.subs, name), calls, names);
    }
  }

  lemma {:induction false} ChainAlone<M(!new)>(handle: Handler<M>, depth: nat, w: Work<M>, id: MachineId, mode: Mode,
                                               name: EventName, value: Value, ids: seq<MachineId>,
                                               calls: EventName -> set<EventName>, names: set<EventName>)
    requires CallsByName(handle, calls) && Alone(w, id, names) && (ids == [] || ids == [id])
    requires Chain(handle, depth, w, mode, name, value, ids).Some?
    ensures Alone(Chain(handle, depth, w, mode, name, value, ids).value.0, id, names)
    decreases depth, 0, |ids|
  {
    if ids != [] {
      var turn := TurnInput(mode, name, value);
      var called := Invoke(handle, w, id, turn, true);
      assert IsTurn(turn) && Keeps(handle(w.machines[id], turn).1);
      SideKeeps(called.1);
      AbsorbAlone(handle, depth - 1, called.0, id, SideOutputs(called.1), calls, names);
      var absorbed := Absorb(handle, depth - 1, called.0, id, SideOutputs(called.1)).value;
      assert ids[1..] == [];
      assert Chain(handle, depth, w, mode, name, value, ids).value.0 == absorbed;
    }
  }

  /** Going down a path of more names than the stack is deep. */
  lemma {:induction false} PathOverflows<M(!new)>(handle: Handler<M>, depth: nat, w: Work<M>, from: MachineId,
                                                  id: MachineId, payload: Value, mode: Mode,
                                                  calls: EventName -> set<EventName>, path: seq<EventName>,
                                                  names: set<EventName>)
    requires CallsByName(handle, calls) && Alone(w, id, names) && !mode.Emit?
    requires Path(calls, path) && |path| == depth + 1 && forall i | 0 <= i < |path| :: path[i] in names
    ensures DispatchFrom(handle, depth, w, from, path[0], payload, mode) == None
    decreases depth, 1, 0
  {
    if depth > 0 {
      var turn := TurnInput(mode, path[0], payload);
      var called := Invoke(handle, w, id, turn, true);
      assert IsTurn(turn) && Keeps(handle(w.machines[id], turn).1)
        && ChainNames(handle(w.machines[id], turn).1) == calls(path[0]);
      SideKeeps(called.1);
      assert path[0 + 1] in calls(path[0]);
      var i :| 0 <= i < |called.1| && StartsChain(called.1[i]) && called.1[i].name == path[1];
      var j :| 0 <= j < |SideOutputs(called.1)| && SideOutputs(called.1)[j] == called.1[i];
      BatchOverflows(handle, depth - 1, called.0, id, SideOutputs(called.1), j, calls, path[1..], names);
    }
  }

  lemma {:induction false} BatchOverflows<M(!new)>(handle: Handler<M>, depth: nat, w: Work<M>, id: MachineId,
                                                   outs: seq<MachineOut>, j: nat, calls: EventName -> set<EventName>,
                                                   path: seq<EventName>, names: set<EventName>)
    requires CallsByName(handle, calls) && Alone(w, id, names) && Keeps(outs)
    requires Path(calls, path) && |path| == depth + 1 && forall i | 0 <= i < |path| :: path[i] in names
    requires j < |outs| && StartsChain(outs[j]) && outs[j].name == path[0]
    ensures Absorb(handle, depth, w, id, outs) == None
    decreases depth, 2, |outs|
  {
    if j == 0 {
      PathOverflows(handle, depth, w, id, id, outs[0].payload, outs[0].mode, calls, path, names);
    } else if outs[0].Dispatch? {
      var next := DispatchFrom(handle, depth, w, id, outs[0].name, outs[0].payload, outs[0].mode);
      if next.Some? {
        DispatchAlone(handle, depth, w, id, outs[0].name, outs[0].payload, outs[0].mode, calls, names);
        BatchOverflows(handle, depth, next.value, id, outs[1..], j - 1, calls, path, names);
      }
    } else {
      var filed := WithSubs(w, id, outs[0]);
      var next := filed.(results := filed.results + Filed(id, outs[0]));
      BatchOverflows(handle, depth, next, id, outs[1..], j - 1, calls, path, names);
    }
  }

  /** The longest way down from a name, counted up to `most`. */
  ghost function Drop(calls: EventName -> set<EventName>, name: EventName, most: nat): (k: nat)
    ensures k <= most
  {
    if most > 0 && exists path :: IsWay(calls, path, name, most) then most
    else if most == 0 then 0
    else Drop(calls, name, most - 1)
  }

  ghost predicate IsWay(calls: EventName -> set<EventName>, path: seq<EventName>, name: EventName, k: nat) {
    Path(calls, path) && |path| == k + 1 && path[0] == name
  }

  lemma {:induction false} DropIsLongest(calls: EventName -> set<EventName>, name: EventName, most: nat)
    returns (path: seq<EventName>)
    ensures IsWay(calls, path, name, Drop(calls, name, most))
    ensures forall p: seq<EventName>, k: nat | k <= most && IsWay(calls, p, name, k) :: k <= Drop(calls, name, most)
  {
    if most > 0 && exists p :: IsWay(calls, p, name, most) {
      path :| IsWay(calls, path, name, most);
    } else if most == 0 {
      path := [name];
    } else {
      path := DropIsLongest(calls, name, most - 1);
    }
  }

  /** With no path longer than `depth`, the length of the longest way down is a ranking. */
  lemma ShortPathsRank(calls: EventName -> set<EventName>, depth: nat)
    requires depth > 0 && forall path :: Path(calls, path) ==> |path| <= depth
    ensures exists rank: EventName -> nat :: Descends(calls, rank) && RanksBelow(rank, depth)
  {
    var rank: EventName -> nat := name => Drop(calls, name, depth);
    forall name
      ensures rank(name) < depth
    {
      var path := DropIsLongest(calls, name, depth);
    }
    forall name, next | next in calls(name)
      ensures rank(next) < rank(name)
    {
      var down := DropIsLongest(calls, next, depth);
      var path := DropIsLongest(calls, name, depth);
      assert Path(calls, [name] + down) by {
        assert forall i | 0 < i < |down| :: ([name] + down)[i] == down[i - 1];
      }
      assert IsWay(calls, [name] + down, name, rank(next) + 1);
    }
    assert Descends(calls, rank) && RanksBelow(rank, depth);
  }

  /** Exactly when every step fits: for machines whose chain turns start chains by their name, all steps, from any
      state and on any input, run to their end on a stack of `depth` if and only if the names can be ranked below it. */
  lemma EveryStepFitsIff<M(!new)>(handle: Handler<M>, depth: nat, calls: EventName -> set<EventName>, machine: M)
    requires CallsByName(handle, calls)
    ensures EveryStepFits(handle, depth)
      <==> exists rank: EventName -> nat :: Descends(calls, rank) && RanksBelow(rank, depth)
  {
    if rank: EventName -> nat :| Descends(calls, rank) && RanksBelow(rank, depth) {
      DescentRanks(handle, calls, rank);
      forall machines: map<MachineId, M>, subs: map<EventName, seq<MachineId>>, ev: RouteIn<M>
        ensures Step(handle, depth, machines, subs, ev).Some?
      {
        StepFits(handle, depth, machines, subs, ev, rank);
      }
    } else if path :| Path(calls, path) && |path| > depth {
      LongPathOverflows(handle, depth, calls, machine, path[..depth + 1]);
    } else {
      OneNameIsAPath(calls);
      ShortPathsRank(calls, depth);
    }
  }

  lemma OneNameIsAPath(calls: EventName -> set<EventName>)
    ensures Path(calls, [""])
  {
  }

  ghost predicate EveryStepFits<M(!new)>(handle: Handler<M>, depth: nat) {
    forall machines: map<MachineId, M>, subs: map<EventName, seq<MachineId>>, ev: RouteIn<M> ::
      Step(handle, depth, machines, subs, ev).Some?
  }

  lemma DescentRanks<M(!new)>(handle: Handler<M>, calls: EventName -> set<EventName>, rank: EventName -> nat)
    requires CallsByName(handle, calls) && Descends(calls, rank)
    ensures Ranked(handle, rank)
  {
    forall m: M, turn: MachineIn | IsTurn(turn)
      ensures StartsBelow(handle(m, turn).1, rank, rank(turn.name))
    {
      var outs := handle(m, turn).1;
      assert ChainNames(outs) == calls(turn.name);
      assert forall i | 0 <= i < |outs| && StartsChain(outs[i]) :: outs[i].name in ChainNames(outs);
    }
  }

  lemma LongPathOverflows<M(!new)>(handle: Handler<M>, depth: nat, calls: EventName -> set<EventName>, machine: M,
                                   path: seq<EventName>)
    requires CallsByName(handle, calls) && Path(calls, path) && |path| == depth + 1
    ensures !EveryStepFits(handle, depth)
  {
    var names := set i | 0 <= i < |path| :: path[i];
    var machines: map<MachineId, M> := map["m" := machine];
    var subs: map<EventName, seq<MachineId>> := map name | name in names :: ["m"];
    PathOverflows(handle, depth, Work(machines, subs, [], [], []), HOST, "m", Null, Waterfall, calls, path, names);
    assert Step(handle, depth, machines, subs, RouteIn<M>.HostDispatch(path[0], Null, Waterfall)) == None;
  }
}
