/** What every step of the router guarantees, whatever the machines do. */
module RouterProofs {
  import opened Json
  import opened RouterSpec

  // ----- subscriptions, targets, and whose deliveries are whose -----

  predicate NoDuplicates(ids: seq<MachineId>) {
    forall i, j | 0 <= i < j < |ids| :: ids[i] != ids[j]
  }

  predicate SubsWithin(subs: map<EventName, seq<MachineId>>, ids: set<MachineId>) {
    forall name | name in subs :: NoDuplicates(subs[name]) && forall i | 0 <= i < |subs[name]| :: subs[name][i] in ids
  }

  predicate SentTo(sent: seq<Delivery>, ids: set<MachineId>) {
    forall i | 0 <= i < |sent| :: sent[i].0 in ids
  }

  /** `UnknownTarget` names only machines of `ids`; the cap is not reported. */
  predicate ResultsWithin(results: seq<RouteOut>, ids: set<MachineId>) {
    forall i | 0 <= i < |results| :: !results[i].CapReached? && (results[i].UnknownTarget? ==> results[i].to in ids)
  }

  /** The deliveries from the queue, as the machines saw them. */
  function Delivered(calls: seq<Invocation>): seq<Delivery> {
    if calls == [] then []
    else
      var last := calls[|calls| - 1];
      Delivered(calls[..|calls| - 1]) + (if last.inline then [] else [(last.to, last.input)])
  }

  lemma {:induction false} WithoutKeeps(ids: seq<MachineId>, id: MachineId)
    ensures forall x :: x in Without(ids, id) <==> x in ids && x != id
    ensures NoDuplicates(ids) ==> NoDuplicates(Without(ids, id))
  {
    if ids != [] {
      var n := |ids| - 1;
      WithoutKeeps(ids[..n], id);
      assert forall x :: x in ids <==> x in ids[..n] || x == ids[n];
      if NoDuplicates(ids) {
        assert ids[n] !in ids[..n];
        var rest := Without(ids[..n], id);
        assert forall i | 0 <= i < |rest| :: rest[i] in rest;
      }
    }
  }

  /** `subs` stay within `ids`, deliveries go to `to`, and nothing unknown outside `unknown`. */
  ghost predicate Tidy<M>(w: Work<M>, ids: set<MachineId>, to: set<MachineId>, unknown: set<MachineId>) {
    && SubsWithin(w.subs, ids) && ids <= to && SentTo(w.sent, to)
    && ids - w.machines.Keys <= unknown && ResultsWithin(w.results, unknown)
  }

  lemma WithSubsTidy<M>(w: Work<M>, from: MachineId, out: MachineOut, ids: set<MachineId>)
    requires SubsWithin(w.subs, ids) && from in ids
    ensures SubsWithin(WithSubs(w, from, out).subs, ids)
  {
    if out.Unsubscribe? && out.name in w.subs {
      var before := w.subs[out.name];
      WithoutKeeps(before, from);
      assert forall i | 0 <= i < |Without(before, from)| :: Without(before, from)[i] in Without(before, from);
    }
  }

  lemma {:induction false} AbsorbTidy<M>(handle: Handler<M>, depth: nat, w: Work<M>, from: MachineId,
                                         outs: seq<MachineOut>, ids: set<MachineId>, to: set<MachineId>,
                                         unknown: set<MachineId>)
    requires Absorb(handle, depth, w, from, outs).Some?
    requires Tidy(w, ids, to, unknown) && from in ids
    ensures var w' := Absorb(handle, depth, w, from, outs).value;
      Tidy(w', ids, to, unknown) && w'.machines.Keys == w.machines.Keys && Delivered(w'.calls) == Delivered(w.calls)
    decreases depth, 2, |outs|
  {
    if outs != [] {
      if outs[0].Dispatch? {
        DispatchTidy(handle, depth, w, from, outs[0].name, outs[0].payload, outs[0].mode, ids, to, unknown);
        var next := DispatchFrom(handle, depth, w, from, outs[0].name, outs[0].payload, outs[0].mode).value;
        AbsorbTidy(handle, depth, next, from, outs[1..], ids, to, unknown);
      } else {
        WithSubsTidy(w, from, outs[0], ids);
        var filed := WithSubs(w, from, outs[0]);
        AbsorbTidy(handle, depth, filed.(results := filed.results + Filed(from, outs[0])), from, outs[1..], ids, to,
                   unknown);
      }
    }
  }

  lemma {:induction false} DispatchTidy<M>(handle: Handler<M>, depth: nat, w: Work<M>, from: MachineId, name: EventName,
                                           payload: Value, mode: Mode, ids: set<MachineId>, to: set<MachineId>,
                                           unknown: set<MachineId>)
    requires DispatchFrom(handle, depth, w, from, name, payload, mode).Some?
    requires Tidy(w, ids, to, unknown) && (mode.Emit? || from in to)
    ensures var w' := DispatchFrom(handle, depth, w, from, name, payload, mode).value;
      Tidy(w', ids, to, unknown) && w'.machines.Keys == w.machines.Keys && Delivered(w'.calls) == Delivered(w.calls)
    decreases depth, 1, 0
  {
    if !mode.Emit? {
      ChainTidy(handle, depth, w, mode, name, payload, Subscribers(w.subs, name), ids, to, unknown);
    }
  }

  lemma {:induction false} ChainTidy<M>(handle: Handler<M>, depth: nat, w: Work<M>, mode: Mode, name: EventName,
                                        value: Value, chain: seq<MachineId>, ids: set<MachineId>, to: set<MachineId>,
                                        unknown: set<MachineId>)
    requires Chain(handle, depth, w, mode, name, value, chain).Some?
    requires Tidy(w, ids, to, unknown) && forall i | 0 <= i < |chain| :: chain[i] in ids
    ensures var w' := Chain(handle, depth, w, mode, name, value, chain).value.0;
      Tidy(w', ids, to, unknown) && w'.machines.Keys == w.machines.Keys && Delivered(w'.calls) == Delivered(w.calls)
    decreases depth, 0, |chain|
  {
    if chain != [] {
      if chain[0] !in w.machines {
        ChainTidy(handle, depth, w.(results := w.results + [UnknownTarget(chain[0])]), mode, name, value, chain[1..],
                  ids, to, unknown);
      } else {
        var called := Invoke(handle, w, chain[0], TurnInput(mode, name, value), true);
        InvokeDelivers(handle, w, chain[0], TurnInput(mode, name, value), true);
        AbsorbTidy(handle, depth - 1, called.0, chain[0], SideOutputs(called.1), ids, to, unknown);
        if VerdictOf(called.1).Continue? {
          var absorbed := Absorb(handle, depth - 1, called.0, chain[0], SideOutputs(called.1)).value;
          ChainTidy(handle, depth, absorbed, mode, name, VerdictOf(called.1).value, chain[1..], ids, to, unknown);
        }
      }
    }
  }

  lemma InvokeDelivers<M>(handle: Handler<M>, w: Work<M>, to: MachineId, input: MachineIn, inline: bool)
    requires to in w.machines
    ensures Delivered(Invoke(handle, w, to, input, inline).0.calls)
      == Delivered(w.calls) + (if inline then [] else [(to, input)])
    ensures Invoke(handle, w, to, input, inline).0.machines.Keys == w.machines.Keys
  {
    var calls := Invoke(handle, w, to, input, inline).0.calls;
    assert calls[..|calls| - 1] == w.calls;
  }

  // ----- first in, first out, up to the cap -----

  function Reachable(sent: seq<Delivery>, ids: set<MachineId>): seq<Delivery> {
    if sent == [] then []
    else Reachable(sent[..|sent| - 1], ids) + (if sent[|sent| - 1].0 in ids then [sent[|sent| - 1]] else [])
  }

  lemma ReachableMore(sent: seq<Delivery>, n: nat, ids: set<MachineId>)
    requires n < |sent|
    ensures Reachable(sent[..n + 1], ids) == Reachable(sent[..n], ids) + (if sent[n].0 in ids then [sent[n]] else [])
  {
    assert sent[..n + 1][..n] == sent[..n];
  }

  function Min(a: nat, b: nat): nat {
    if a < b then a else b
  }

  /** The queue was served in order: of everything ever queued, the first `n` were delivered,
      those to mounted machines reaching them; the cap is reported, at the very end, exactly
      when there was more than it allows. */
  ghost predicate Served<M>(w: Work<M>, unknown: set<MachineId>) {
    var n := Min(|w.sent|, MAX_DELIVERIES_PER_STEP);
    && Delivered(w.calls) == Reachable(w.sent[..n], w.machines.Keys)
    && if |w.sent| > MAX_DELIVERIES_PER_STEP
       then w.results != [] && w.results[|w.results| - 1] == CapReached(MAX_DELIVERIES_PER_STEP)
            && ResultsWithin(w.results[..|w.results| - 1], unknown)
       else ResultsWithin(w.results, unknown)
  }

  lemma ServeTidy<M>(handle: Handler<M>, depth: nat, w: Work<M>, target: MachineId, input: MachineIn,
                     to: set<MachineId>, unknown: set<MachineId>)
    requires Serve(handle, depth, w, target, input).Some?
    requires Tidy(w, w.machines.Keys, to, unknown) && to - w.machines.Keys <= unknown && target in to
    ensures var w' := Serve(handle, depth, w, target, input).value;
      && Tidy(w', w.machines.Keys, to, unknown) && w'.machines.Keys == w.machines.Keys && w.sent <= w'.sent
      && Delivered(w'.calls) == Delivered(w.calls) + (if target in w.machines then [(target, input)] else [])
  {
    if target in w.machines {
      var called := Invoke(handle, w, target, input, false);
      InvokeDelivers(handle, w, target, input, false);
      AbsorbTidy(handle, depth, called.0, target, called.1, w.machines.Keys, to, unknown);
    }
  }

  lemma DrainEnds<M>(handle: Handler<M>, depth: nat, w: Work<M>, delivered: nat, to: set<MachineId>,
                     unknown: set<MachineId>)
    requires delivered <= MAX_DELIVERIES_PER_STEP && delivered <= |w.sent|
    requires delivered == |w.sent| || delivered == MAX_DELIVERIES_PER_STEP
    requires Tidy(w, w.machines.Keys, to, unknown)
    requires Delivered(w.calls) == Reachable(w.sent[..delivered], w.machines.Keys)
    ensures Drain(handle, depth, w, delivered).Some?
    ensures var w' := Drain(handle, depth, w, delivered).value;
      Served(w', unknown) && SubsWithin(w'.subs, w'.machines.Keys) && w'.machines.Keys == w.machines.Keys
  {
    var w' := Drain(handle, depth, w, delivered).value;
    assert w'.sent == w.sent && w'.calls == w.calls && w'.machines == w.machines;
    if delivered < |w.sent| {
      assert w'.results[..|w'.results| - 1] == w.results;
    }
  }

  lemma {:induction false} DrainServes<M>(handle: Handler<M>, depth: nat, w: Work<M>, delivered: nat,
                                          to: set<MachineId>, unknown: set<MachineId>)
    requires delivered <= MAX_DELIVERIES_PER_STEP && delivered <= |w.sent|
    requires Drain(handle, depth, w, delivered).Some?
    requires Tidy(w, w.machines.Keys, to, unknown) && to - w.machines.Keys <= unknown
    requires Delivered(w.calls) == Reachable(w.sent[..delivered], w.machines.Keys)
    ensures var w' := Drain(handle, depth, w, delivered).value;
      Served(w', unknown) && SubsWithin(w'.subs, w'.machines.Keys) && w'.machines.Keys == w.machines.Keys
    decreases MAX_DELIVERIES_PER_STEP - delivered
  {
    if delivered == |w.sent| || delivered == MAX_DELIVERIES_PER_STEP {
      DrainEnds(handle, depth, w, delivered, to, unknown);
    } else {
      var d := w.sent[delivered];
      ReachableMore(w.sent, delivered, w.machines.Keys);
      ServeTidy(handle, depth, w, d.0, d.1, to, unknown);
      var next := Serve(handle, depth, w, d.0, d.1).value;
      assert next.sent[..delivered + 1] == w.sent[..delivered + 1];
      DrainServes(handle, depth, next, delivered + 1, to, unknown);
    }
  }

  /** The machines an input may turn out not to reach. */
  function Suspects<M>(ev: RouteIn<M>): set<MachineId> {
    match ev
    case Deliver(to, _) => {to}
    case HostDispatch(_, _, mode) => if mode.Emit? then {} else {HOST}
    case Unmount(id) => {id}
    case Mount(_, _) => {}
  }

  /** Who is mounted after the input itself has been taken. */
  function Remaining<M>(ids: set<MachineId>, ev: RouteIn<M>): set<MachineId> {
    match ev
    case Mount(id, _) => ids + {id}
    case Unmount(id) => ids - {id}
    case _ => ids
  }

  lemma BeginTidy<M>(handle: Handler<M>, depth: nat, machines: map<MachineId, M>, subs: map<EventName, seq<MachineId>>,
                     ev: RouteIn<M>)
    requires SubsWithin(subs, machines.Keys)
    requires Begin(handle, depth, machines, subs, ev).Some?
    ensures var w := Begin(handle, depth, machines, subs, ev).value;
      var unknown := Suspects(ev) - (machines.Keys - if ev.Unmount? then {ev.id} else {});
      && w.machines.Keys == Remaining(machines.Keys, ev)
      && Delivered(w.calls) == []
      && Tidy(w, w.machines.Keys, w.machines.Keys + unknown, unknown)
  {
    var w := Work(machines, subs, [], [], []);
    match ev {
      case Mount(_, _) =>
      case Deliver(_, _) =>
      case HostDispatch(name, payload, mode) =>
        var unknown := Suspects(ev) - machines.Keys;
        DispatchTidy(handle, depth, w, HOST, name, payload, mode, machines.Keys, machines.Keys + unknown, unknown);
      case Unmount(id) =>
        if id in machines {
          var outs := handle(machines[id], DisposeRequested).1;
          var gone := w.(machines := machines - {id}, calls := [Invocation(id, DisposeRequested, outs, true)]);
          assert gone.calls[..0] == [];
          AbsorbTidy(handle, depth, gone, id, outs, machines.Keys, machines.Keys, {id});
          SettleTidy(Absorb(handle, depth, gone, id, outs).value.subs, machines.Keys, id);
        }
    }
  }

  lemma SettleTidy(subs: map<EventName, seq<MachineId>>, ids: set<MachineId>, id: MachineId)
    requires SubsWithin(subs, ids)
    ensures SubsWithin(map name | name in subs :: Without(subs[name], id), ids - {id})
  {
    forall name | name in subs
      ensures NoDuplicates(Without(subs[name], id)) && forall x | x in Without(subs[name], id) :: x in ids - {id}
    {
      WithoutKeeps(subs[name], id);
    }
  }

  /** Every step leaves each subscription list free of duplicates and naming only mounted
      machines; it serves the queue first in, first out, drops only what lies beyond the cap,
      and fails to reach only a machine the input itself names. */
  lemma StepServes<M>(handle: Handler<M>, depth: nat, machines: map<MachineId, M>, subs: map<EventName, seq<MachineId>>,
                      ev: RouteIn<M>)
    requires SubsWithin(subs, machines.Keys)
    requires Step(handle, depth, machines, subs, ev).Some?
    ensures var w := Step(handle, depth, machines, subs, ev).value;
      && SubsWithin(w.subs, w.machines.Keys)
      && Served(w, Suspects(ev) - (machines.Keys - if ev.Unmount? then {ev.id} else {}))
  {
    BeginTidy(handle, depth, machines, subs, ev);
    var w := Begin(handle, depth, machines, subs, ev).value;
    var unknown := Suspects(ev) - (machines.Keys - if ev.Unmount? then {ev.id} else {});
    assert w.sent[..0] == [];
    DrainServes(handle, depth, w, 0, w.machines.Keys + unknown, unknown);
  }

  lemma MissReports<M>(handle: Handler<M>, depth: nat, machines: map<MachineId, M>,
                       subs: map<EventName, seq<MachineId>>, to: MachineId, input: MachineIn)
    requires to !in machines
    ensures Step(handle, depth, machines, subs, Deliver(to, input))
      == Some(Work(machines, subs, [(to, input)], [UnknownTarget(to)], []))
  {
    var w := Work(machines, subs, [(to, input)], [], []);
    var missed := w.(results := [UnknownTarget(to)]);
    assert w.results + [UnknownTarget(to)] == [UnknownTarget(to)];
    assert Serve(handle, depth, w, to, input) == Some(missed);
    assert Drain(handle, depth, missed, 1) == Some(missed);
  }

  /** A delivery reports `UnknownTarget` exactly when its target is not mounted, and then it
      reports nothing else. */
  lemma DeliveryMissesIff<M>(handle: Handler<M>, depth: nat, machines: map<MachineId, M>,
                             subs: map<EventName, seq<MachineId>>, to: MachineId, input: MachineIn)
    requires SubsWithin(subs, machines.Keys)
    requires Step(handle, depth, machines, subs, Deliver(to, input)).Some?
    ensures var results := Step(handle, depth, machines, subs, Deliver(to, input)).value.results;
      && (to !in machines ==> results == [UnknownTarget(to)])
      && (to in machines ==> forall i | 0 <= i < |results| :: !results[i].UnknownTarget?)
  {
    if to !in machines {
      MissReports(handle, depth, machines, subs, to, input);
    } else {
      StepServes(handle, depth, machines, subs, Deliver(to, input));
      var suspects: set<MachineId> := Suspects(RouteIn<M>.Deliver(to, input)) - machines.Keys;
      assert suspects == {};
      ServedReaches(Step(handle, depth, machines, subs, Deliver(to, input)).value);
    }
  }

  /** With nobody under suspicion, no delivery fails to reach its target. */
  lemma ServedReaches<M>(w: Work<M>)
    requires Served(w, {})
    ensures forall i | 0 <= i < |w.results| :: !w.results[i].UnknownTarget?
  {
    var n := |w.results| - 1;
    assert forall i | 0 <= i < n :: w.results[..n][i] == w.results[i];
  }

  // ----- nothing a machine emits is lost or doubled -----

  /** What an output is owed: its place in the results, or the answer of its chain. */
  datatype Item = Result(out: RouteOut) | ChainAnswer(to: MachineId, name: EventName)

  function One(holds: bool): nat {
    if holds then 1 else 0
  }

  /** How often `x` is owed for an output. */
  function Owing(from: MachineId, out: MachineOut, x: Item): nat {
    if out.Dispatch? then One(!out.mode.Emit? && x == ChainAnswer(from, out.name))
    else One(Filed(from, out) != [] && x == Result(Filed(from, out)[0]))
  }

  function OwingAll(from: MachineId, outs: seq<MachineOut>, x: Item): nat {
    if outs == [] then 0 else Owing(from, outs[0], x) + OwingAll(from, outs[1..], x)
  }

  /** How often `x` is owed for everything the invocations emitted. */
  function Owed(calls: seq<Invocation>, x: Item): nat {
    if calls == [] then 0
    else
      var last := calls[|calls| - 1];
      Owed(calls[..|calls| - 1], x) + OwingAll(last.to, last.outs, x)
  }

  /** The router's own reports answer no output. */
  function PaidResults(results: seq<RouteOut>, x: Item): nat {
    if results == [] then 0
    else
      var last := results[|results| - 1];
      PaidResults(results[..|results| - 1], x) + One(!last.UnknownTarget? && !last.CapReached? && x == Result(last))
  }

  function PaidAnswers(sent: seq<Delivery>, x: Item): nat {
    if sent == [] then 0
    else
      var last := sent[|sent| - 1];
      PaidAnswers(sent[..|sent| - 1], x) + One(last.1.DispatchResult? && x == ChainAnswer(last.0, last.1.name))
  }

  function Paid<M>(w: Work<M>, x: Item): nat {
    PaidResults(w.results, x) + PaidAnswers(w.sent, x)
  }

  /** From `w` to `w'` exactly what the new invocations emitted was paid, and `extra` besides. */
  ghost predicate Balanced<M>(w: Work<M>, w': Work<M>, extra: nat, x: Item) {
    Paid(w', x) + Owed(w.calls, x) == Paid(w, x) + Owed(w'.calls, x) + extra
  }

  lemma PaidResult(results: seq<RouteOut>, r: RouteOut, x: Item)
    ensures PaidResults(results + [r], x)
      == PaidResults(results, x) + One(!r.UnknownTarget? && !r.CapReached? && x == Result(r))
  {
    assert (results + [r])[..|results|] == results;
  }

  lemma PaidAnswer(sent: seq<Delivery>, d: Delivery, x: Item)
    ensures PaidAnswers(sent + [d], x)
      == PaidAnswers(sent, x) + One(d.1.DispatchResult? && x == ChainAnswer(d.0, d.1.name))
  {
    assert (sent + [d])[..|sent|] == sent;
  }

  lemma PaidFirst(d: Delivery, x: Item)
    ensures PaidAnswers([d], x) == One(d.1.DispatchResult? && x == ChainAnswer(d.0, d.1.name))
  {
    PaidAnswer([], d, x);
    assert [] + [d] == [d];
    assert PaidAnswers([], x) == 0;
  }

  lemma {:induction false} FanOutPaysNothing(sent: seq<Delivery>, ids: seq<MachineId>, name: EventName, payload: Value,
                                             x: Item)
    ensures PaidAnswers(sent + FanOut(ids, Event(name, payload)), x) == PaidAnswers(sent, x)
  {
    var more := FanOut(ids, Event(name, payload));
    if ids == [] {
      assert sent + more == sent;
    } else {
      var n := |ids| - 1;
      FanOutPaysNothing(sent, ids[..n], name, payload, x);
      var before := sent + FanOut(ids[..n], Event(name, payload));
      assert sent + more == before + [more[n]];
      PaidAnswer(before, more[n], x);
    }
  }

  lemma {:induction false} OwingMore(from: MachineId, outs: seq<MachineOut>, out: MachineOut, x: Item)
    ensures OwingAll(from, outs + [out], x) == OwingAll(from, outs, x) + Owing(from, out, x)
  {
    if outs != [] {
      OwingMore(from, outs[1..], out, x);
      assert (outs + [out])[1..] == outs[1..] + [out];
    }
  }

  /** Nothing is owed for the answers a chain leaves out of the side outputs. */
  lemma {:induction false} SideOwesAll(from: MachineId, outs: seq<MachineOut>, x: Item)
    ensures OwingAll(from, SideOutputs(outs), x) == OwingAll(from, outs, x)
  {
    if outs != [] {
      var n := |outs| - 1;
      SideOwesAll(from, outs[..n], x);
      var front, last := outs[..n], outs[n];
      assert outs == front + [last];
      OwingMore(from, front, last, x);
      if last.WaterfallNext? || last.WaterfallReturn? {
        assert SideOutputs(outs) == SideOutputs(front);
        assert Owing(from, last, x) == 0;
      } else {
        assert SideOutputs(outs) == SideOutputs(front) + [last];
        OwingMore(from, SideOutputs(front), last, x);
      }
    }
  }

  lemma InvokeOwes<M>(handle: Handler<M>, w: Work<M>, to: MachineId, input: MachineIn, inline: bool, x: Item)
    requires to in w.machines
    ensures var (w', outs) := Invoke(handle, w, to, input, inline);
      Owed(w'.calls, x) == Owed(w.calls, x) + OwingAll(to, outs, x) && Paid(w', x) == Paid(w, x)
  {
    var calls := Invoke(handle, w, to, input, inline).0.calls;
    assert calls[..|calls| - 1] == w.calls;
  }

  lemma {:induction false} AbsorbBalances<M>(handle: Handler<M>, depth: nat, w: Work<M>, from: MachineId,
                                             outs: seq<MachineOut>, x: Item)
    requires Absorb(handle, depth, w, from, outs).Some?
    ensures Balanced(w, Absorb(handle, depth, w, from, outs).value, OwingAll(from, outs, x), x)
    decreases depth, 2, |outs|
  {
    if outs != [] {
      var next;
      if outs[0].Dispatch? {
        DispatchBalances(handle, depth, w, from, outs[0].name, outs[0].payload, outs[0].mode, x);
        next := DispatchFrom(handle, depth, w, from, outs[0].name, outs[0].payload, outs[0].mode).value;
      } else {
        var filed := WithSubs(w, from, outs[0]);
        next := filed.(results := filed.results + Filed(from, outs[0]));
        FilingBalances(w, from, outs[0], x);
      }
      AbsorbBalances(handle, depth, next, from, outs[1..], x);
    }
  }

  lemma FilingBalances<M>(w: Work<M>, from: MachineId, out: MachineOut, x: Item)
    requires !out.Dispatch?
    ensures var filed := WithSubs(w, from, out);
      Balanced(w, filed.(results := filed.results + Filed(from, out)), Owing(from, out, x), x)
  {
    if Filed(from, out) == [] {
      assert w.results + Filed(from, out) == w.results;
    } else {
      PaidResult(w.results, Filed(from, out)[0], x);
    }
  }

  lemma {:induction false} DispatchBalances<M>(handle: Handler<M>, depth: nat, w: Work<M>, from: MachineId,
                                               name: EventName, payload: Value, mode: Mode, x: Item)
    requires DispatchFrom(handle, depth, w, from, name, payload, mode).Some?
    ensures Balanced(w, DispatchFrom(handle, depth, w, from, name, payload, mode).value,
                     Owing(from, Dispatch(name, payload, mode), x), x)
    decreases depth, 1, 0
  {
    var ids := Subscribers(w.subs, name);
    if mode.Emit? {
      FanOutPaysNothing(w.sent, ids, name, payload, x);
    } else {
      ChainBalances(handle, depth, w, mode, name, payload, ids, x);
      var (after, value) := Chain(handle, depth, w, mode, name, payload, ids).value;
      PaidAnswer(after.sent, (from, DispatchResult(name, value)), x);
    }
  }

  lemma {:induction false} ChainBalances<M>(handle: Handler<M>, depth: nat, w: Work<M>, mode: Mode, name: EventName,
                                            value: Value, ids: seq<MachineId>, x: Item)
    requires Chain(handle, depth, w, mode, name, value, ids).Some?
    ensures Balanced(w, Chain(handle, depth, w, mode, name, value, ids).value.0, 0, x)
    decreases depth, 0, |ids|
  {
    if ids != [] {
      if ids[0] !in w.machines {
        PaidResult(w.results, UnknownTarget(ids[0]), x);
        ChainBalances(handle, depth, w.(results := w.results + [UnknownTarget(ids[0])]), mode, name, value, ids[1..],
                      x);
      } else {
        var called := Invoke(handle, w, ids[0], TurnInput(mode, name, value), true);
        InvokeOwes(handle, w, ids[0], TurnInput(mode, name, value), true, x);
        AbsorbBalances(handle, depth - 1, called.0, ids[0], SideOutputs(called.1), x);
        SideOwesAll(ids[0], called.1, x);
        if VerdictOf(called.1).Continue? {
          var absorbed := Absorb(handle, depth - 1, called.0, ids[0], SideOutputs(called.1)).value;
          ChainBalances(handle, depth, absorbed, mode, name, VerdictOf(called.1).value, ids[1..], x);
        }
      }
    }
  }

  lemma ServeBalances<M>(handle: Handler<M>, depth: nat, w: Work<M>, to: MachineId, input: MachineIn, x: Item)
    requires Serve(handle, depth, w, to, input).Some?
    ensures Balanced(w, Serve(handle, depth, w, to, input).value, 0, x)
  {
    if to in w.machines {
      var called := Invoke(handle, w, to, input, false);
      InvokeOwes(handle, w, to, input, false, x);
      AbsorbBalances(handle, depth, called.0, to, called.1, x);
    } else {
      PaidResult(w.results, UnknownTarget(to), x);
    }
  }

  lemma {:induction false} DrainBalances<M>(handle: Handler<M>, depth: nat, w: Work<M>, delivered: nat, x: Item)
    requires delivered <= MAX_DELIVERIES_PER_STEP && delivered <= |w.sent|
    requires Drain(handle, depth, w, delivered).Some?
    ensures Balanced(w, Drain(handle, depth, w, delivered).value, 0, x)
    decreases MAX_DELIVERIES_PER_STEP - delivered
  {
    if delivered < |w.sent| {
      if delivered == MAX_DELIVERIES_PER_STEP {
        PaidResult(w.results, CapReached(delivered), x);
      } else {
        ServeBalances(handle, depth, w, w.sent[delivered].0, w.sent[delivered].1, x);
        DrainBalances(handle, depth, Serve(handle, depth, w, w.sent[delivered].0, w.sent[delivered].1).value,
                      delivered + 1, x);
      }
    }
  }

  /** How often the input itself is owed `x`, or brings it along. */
  function Brought<M>(ev: RouteIn<M>, x: Item): nat {
    match ev
    case Deliver(to, input) => One(input.DispatchResult? && x == ChainAnswer(to, input.name))
    case HostDispatch(name, payload, mode) => Owing(HOST, Dispatch(name, payload, mode), x)
    case _ => 0
  }

  /** With one delivery queued, only what that delivery answers is paid. */
  lemma QueuedBalances<M>(w: Work<M>, d: Delivery, x: Item)
    requires w.sent == [d] && w.results == [] && w.calls == []
    ensures Paid(w, x) == Owed(w.calls, x) + One(d.1.DispatchResult? && x == ChainAnswer(d.0, d.1.name))
  {
    PaidFirst(d, x);
    assert PaidResults([], x) == 0 && Owed([], x) == 0;
  }

  lemma DisposeBalances<M>(handle: Handler<M>, depth: nat, machines: map<MachineId, M>,
                           subs: map<EventName, seq<MachineId>>, id: MachineId, x: Item)
    requires id in machines && Begin(handle, depth, machines, subs, RouteIn<M>.Unmount(id)).Some?
    ensures var w := Begin(handle, depth, machines, subs, RouteIn<M>.Unmount(id)).value; Paid(w, x) == Owed(w.calls, x)
  {
    var outs := handle(machines[id], DisposeRequested).1;
    var gone := Work(machines - {id}, subs, [], [], [Invocation(id, DisposeRequested, outs, true)]);
    assert gone.calls[..0] == [];
    assert Owed([], x) == 0;
    AbsorbBalances(handle, depth, gone, id, outs, x);
  }

  lemma BeginBalances<M>(handle: Handler<M>, depth: nat, machines: map<MachineId, M>,
                         subs: map<EventName, seq<MachineId>>, ev: RouteIn<M>, x: Item)
    requires Begin(handle, depth, machines, subs, ev).Some?
    ensures var w := Begin(handle, depth, machines, subs, ev).value; Paid(w, x) == Owed(w.calls, x) + Brought(ev, x)
  {
    var start := Work(machines, subs, [], [], []);
    match ev {
      case Mount(id, _) =>
        QueuedBalances(Begin(handle, depth, machines, subs, ev).value, (id, ServicesReady), x);
      case Deliver(to, input) =>
        QueuedBalances(Begin(handle, depth, machines, subs, ev).value, (to, input), x);
      case HostDispatch(name, payload, mode) => DispatchBalances(handle, depth, start, HOST, name, payload, mode, x);
      case Unmount(id) =>
        if id in machines {
          DisposeBalances(handle, depth, machines, subs, id, x);
        } else {
          PaidResult([], UnknownTarget(id), x);
          assert [] + [UnknownTarget(id)] == [UnknownTarget(id)];
        }
    }
  }

  /** Over a whole step, the results and the chain answers queued are exactly what the machines
      emitted: every effect, reply, frame, registration and compensation as often as it was
      emitted, and one answer for every waterfall or bail, to the machine that started it. */
  lemma StepBalances<M>(handle: Handler<M>, depth: nat, machines: map<MachineId, M>,
                        subs: map<EventName, seq<MachineId>>, ev: RouteIn<M>, x: Item)
    requires Step(handle, depth, machines, subs, ev).Some?
    ensures var w := Step(handle, depth, machines, subs, ev).value;
      Paid(w, x) == Owed(w.calls, x) + Brought(ev, x)
  {
    BeginBalances(handle, depth, machines, subs, ev, x);
    DrainBalances(handle, depth, Begin(handle, depth, machines, subs, ev).value, 0, x);
  }

  // ----- what a chain answers -----

  predicate Answers(out: MachineOut) {
    out.WaterfallNext? || out.WaterfallReturn?
  }

  /** The last answer of a batch is its verdict: to go on, or to stop. */
  lemma {:induction false} VerdictIsLast(outs: seq<MachineOut>, k: nat)
    requires k < |outs| && Answers(outs[k]) && forall l | k < l < |outs| :: !Answers(outs[l])
    ensures VerdictOf(outs) == if outs[k].WaterfallNext? then Continue(outs[k].value) else Done(outs[k].value)
  {
    if k < |outs| - 1 {
      assert !Answers(outs[|outs| - 1]);
      VerdictIsLast(outs[..|outs| - 1], k);
    }
  }

  /** With no answer the chain goes on with nothing. */
  lemma {:induction false} NoAnswerGoesOn(outs: seq<MachineOut>)
    requires forall k | 0 <= k < |outs| :: !Answers(outs[k])
    ensures VerdictOf(outs) == Continue(Null)
  {
    if outs != [] {
      NoAnswerGoesOn(outs[..|outs| - 1]);
    }
  }

  /** What a subscriber is asked in a chain. */
  predicate Asks(input: MachineIn, mode: Mode, name: EventName, value: Value) {
    if mode.Waterfall? then input == WaterfallTurn(name, value) else input == BailTurn(name, value)
  }

  function Mounted<M>(ids: seq<MachineId>, machines: map<MachineId, M>): seq<MachineId> {
    if ids == [] then [] else (if ids[0] in machines then [ids[0]] else []) + Mounted(ids[1..], machines)
  }

  /** The turns of one chain, found among the invocations: turn i went to the i-th mounted
      subscriber with the value so far, its verdict gives the next value, and only the last
      may stop the chain early. */
  ghost predicate ChainTurns(calls: seq<Invocation>, from: nat, mode: Mode, name: EventName, ms: seq<MachineId>,
                             at: seq<nat>, values: seq<Value>) {
    && |values| == |at| + 1 && |at| <= |ms|
    && (forall i | 0 <= i < |at| ::
          && from <= at[i] < |calls|
          && calls[at[i]].to == ms[i] && Asks(calls[at[i]].input, mode, name, values[i])
          && VerdictOf(calls[at[i]].outs).value == values[i + 1])
    && (forall i | 0 <= i < |at| - 1 :: at[i] < at[i + 1] && VerdictOf(calls[at[i]].outs).Continue?)
    && (|at| < |ms| ==> at != [] && VerdictOf(calls[at[|at| - 1]].outs).Done?)
  }

  /** A turn that let the chain continue, in front of the turns that followed it. */
  lemma TurnFirst(calls: seq<Invocation>, first: nat, from: nat, mode: Mode, name: EventName, ms: seq<MachineId>,
                  rest: seq<nat>, value: Value, more: seq<Value>)
    requires first < from <= |calls| && ms != []
    requires ChainTurns(calls, from, mode, name, ms[1..], rest, more)
    requires calls[first].to == ms[0] && Asks(calls[first].input, mode, name, value)
    requires VerdictOf(calls[first].outs) == Continue(more[0])
    ensures ChainTurns(calls, first, mode, name, ms, [first] + rest, [value] + more)
    ensures ([value] + more)[|rest| + 1] == more[|rest|]
  {
    var at, values := [first] + rest, [value] + more;
    forall i | 0 <= i < |at|
      ensures first <= at[i] < |calls| && calls[at[i]].to == ms[i]
        && Asks(calls[at[i]].input, mode, name, values[i])
      ensures VerdictOf(calls[at[i]].outs).value == values[i + 1]
    {
      if i > 0 {
        assert at[i] == rest[i - 1] && values[i] == more[i - 1] && values[i + 1] == more[i] && ms[i] == ms[1..][i - 1];
      }
    }
  }

  /** The first turn of a chain stays where it was recorded, whatever comes after it. */
  lemma TurnRecorded<M>(handle: Handler<M>, depth: nat, w: Work<M>, mode: Mode, name: EventName, value: Value,
                        ids: seq<MachineId>)
    requires ids != [] && ids[0] in w.machines && Chain(handle, depth, w, mode, name, value, ids).Some?
    ensures
      var turn := Invoke(handle, w, ids[0], TurnInput(mode, name, value), true);
      var absorbed := Absorb(handle, depth - 1, turn.0, ids[0], SideOutputs(turn.1));
      var calls := Chain(handle, depth, w, mode, name, value, ids).value.0.calls;
      && absorbed.Some? && |w.calls| < |absorbed.value.calls| <= |calls|
      && absorbed.value.machines.Keys == w.machines.Keys
      && calls[|w.calls|] == Invocation(ids[0], TurnInput(mode, name, value), turn.1, true)
  {
    var turn := Invoke(handle, w, ids[0], TurnInput(mode, name, value), true);
    AbsorbGrows(handle, depth - 1, turn.0, ids[0], SideOutputs(turn.1));
    var absorbed := Absorb(handle, depth - 1, turn.0, ids[0], SideOutputs(turn.1)).value;
    assert absorbed.calls[|w.calls|] == turn.0.calls[|w.calls|];
    if VerdictOf(turn.1).Continue? {
      ChainGrows(handle, depth, absorbed, mode, name, VerdictOf(turn.1).value, ids[1..]);
    }
  }

  /** The chain's outcome is the fold told by the turns `at` and the values between them. */
  ghost predicate Folded<M>(handle: Handler<M>, depth: nat, w: Work<M>, mode: Mode, name: EventName, value: Value,
                            ids: seq<MachineId>, at: seq<nat>, values: seq<Value>) {
    var outcome := Chain(handle, depth, w, mode, name, value, ids);
    && outcome.Some?
    && ChainTurns(outcome.value.0.calls, |w.calls|, mode, name, Mounted(ids, w.machines), at, values)
    && values[0] == value && values[|at|] == outcome.value.1
  }

  lemma FoldSkips<M>(handle: Handler<M>, depth: nat, w: Work<M>, mode: Mode, name: EventName, value: Value,
                     ids: seq<MachineId>, at: seq<nat>, values: seq<Value>)
    requires ids != [] && ids[0] !in w.machines
    requires Folded(handle, depth, w.(results := w.results + [UnknownTarget(ids[0])]), mode, name, value, ids[1..], at,
                    values)
    ensures Folded(handle, depth, w, mode, name, value, ids, at, values)
  {
  }

  lemma FoldStops<M>(handle: Handler<M>, depth: nat, w: Work<M>, mode: Mode, name: EventName, value: Value,
                     ids: seq<MachineId>)
    requires ids != [] && ids[0] in w.machines && Chain(handle, depth, w, mode, name, value, ids).Some?
    requires VerdictOf(Invoke(handle, w, ids[0], TurnInput(mode, name, value), true).1).Done?
    ensures
      var verdict := VerdictOf(Invoke(handle, w, ids[0], TurnInput(mode, name, value), true).1);
      Folded(handle, depth, w, mode, name, value, ids, [|w.calls|], [value, verdict.value])
  {
    TurnRecorded(handle, depth, w, mode, name, value, ids);
    TurnLast(Chain(handle, depth, w, mode, name, value, ids).value.0.calls, |w.calls|, mode, name,
             Mounted(ids, w.machines), value);
  }

  lemma FoldGoesOn<M>(handle: Handler<M>, depth: nat, w: Work<M>, mode: Mode, name: EventName, value: Value,
                      ids: seq<MachineId>, rest: seq<nat>, more: seq<Value>)
    requires ids != [] && ids[0] in w.machines && Chain(handle, depth, w, mode, name, value, ids).Some?
    requires
      var turn := Invoke(handle, w, ids[0], TurnInput(mode, name, value), true);
      var absorbed := Absorb(handle, depth - 1, turn.0, ids[0], SideOutputs(turn.1));
      VerdictOf(turn.1).Continue?
        && Folded(handle, depth, absorbed.value, mode, name, VerdictOf(turn.1).value, ids[1..], rest, more)
    ensures Folded(handle, depth, w, mode, name, value, ids, [|w.calls|] + rest, [value] + more)
  {
    var turn := Invoke(handle, w, ids[0], TurnInput(mode, name, value), true);
    var absorbed := Absorb(handle, depth - 1, turn.0, ids[0], SideOutputs(turn.1)).value;
    TurnRecorded(handle, depth, w, mode, name, value, ids);
    MountedSame(ids[1..], w.machines, absorbed.machines);
    TurnFirst(Chain(handle, depth, w, mode, name, value, ids).value.0.calls, |w.calls|, |absorbed.calls|, mode, name,
              Mounted(ids, w.machines), rest, value, more);
  }

  lemma {:induction false} ChainFolds<M>(handle: Handler<M>, depth: nat, w: Work<M>, mode: Mode, name: EventName,
                                         value: Value, ids: seq<MachineId>)
    returns (at: seq<nat>, values: seq<Value>)
    requires Chain(handle, depth, w, mode, name, value, ids).Some?
    ensures Folded(handle, depth, w, mode, name, value, ids, at, values)
    decreases |ids|
  {
    if ids == [] {
      at, values := [], [value];
    } else if ids[0] !in w.machines {
      at, values :=
        ChainFolds(handle, depth, w.(results := w.results + [UnknownTarget(ids[0])]), mode, name, value, ids[1..]);
      FoldSkips(handle, depth, w, mode, name, value, ids, at, values);
    } else {
      var turn := Invoke(handle, w, ids[0], TurnInput(mode, name, value), true);
      if VerdictOf(turn.1).Continue? {
        var absorbed := Absorb(handle, depth - 1, turn.0, ids[0], SideOutputs(turn.1)).value;
        var rest, more := ChainFolds(handle, depth, absorbed, mode, name, VerdictOf(turn.1).value, ids[1..]);
        FoldGoesOn(handle, depth, w, mode, name, value, ids, rest, more);
        at, values := [|w.calls|] + rest, [value] + more;
      } else {
        FoldStops(handle, depth, w, mode, name, value, ids);
        at, values := [|w.calls|], [value, VerdictOf(turn.1).value];
      }
    }
  }

  /** A turn that stopped the chain is all there is. */
  lemma TurnLast(calls: seq<Invocation>, first: nat, mode: Mode, name: EventName, ms: seq<MachineId>, value: Value)
    requires first < |calls| && ms != []
    requires calls[first].to == ms[0] && Asks(calls[first].input, mode, name, value)
    requires VerdictOf(calls[first].outs).Done?
    ensures ChainTurns(calls, first, mode, name, ms, [first], [value, VerdictOf(calls[first].outs).value])
  {
  }

  lemma {:induction false} MountedSame<M>(ids: seq<MachineId>, a: map<MachineId, M>, b: map<MachineId, M>)
    requires a.Keys == b.Keys
    ensures Mounted(ids, a) == Mounted(ids, b)
  {
    if ids != [] {
      MountedSame(ids[1..], a, b);
    }
  }

  /** A waterfall or bail queues its answer last, to its initiator, and the answer is the fold
      of the verdicts over the subscribers there were when it started. */
  lemma DispatchAnswers<M>(handle: Handler<M>, depth: nat, w: Work<M>, from: MachineId, name: EventName, payload: Value,
                           mode: Mode)
    returns (at: seq<nat>, values: seq<Value>)
    requires !mode.Emit? && DispatchFrom(handle, depth, w, from, name, payload, mode).Some?
    ensures var w' := DispatchFrom(handle, depth, w, from, name, payload, mode).value;
      && ChainTurns(w'.calls, |w.calls|, mode, name, Mounted(Subscribers(w.subs, name), w.machines), at, values)
      && values[0] == payload
      && w'.sent != [] && w'.sent[|w'.sent| - 1] == (from, DispatchResult(name, values[|at|]))
  {
    at, values := ChainFolds(handle, depth, w, mode, name, payload, Subscribers(w.subs, name));
  }
}
