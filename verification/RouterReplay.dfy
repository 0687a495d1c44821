/** The record of a step is genuine: its invocations, played over again, answer what they answered and leave the
    machines it left. */
module RouterReplay {
  import opened Json
  import opened RouterSpec

  /** The machines after these invocations, one after the other. */
  function Replay<M>(handle: Handler<M>, ms: map<MachineId, M>, calls: seq<Invocation>): map<MachineId, M> {
    if calls == [] then ms
    else
      var before, c := Replay(handle, ms, calls[..|calls| - 1]), calls[|calls| - 1];
      if c.to in before then before[c.to := handle(before[c.to], c.input).0] else before
  }

  /** Each invocation found its machine there and was answered by it as it then was. */
  predicate Genuine<M>(handle: Handler<M>, ms: map<MachineId, M>, calls: seq<Invocation>) {
    calls != [] ==>
      var before, c := Replay(handle, ms, calls[..|calls| - 1]), calls[|calls| - 1];
      && Genuine(handle, ms, calls[..|calls| - 1])
      && c.to in before && c.outs == handle(before[c.to], c.input).1
  }

  /** What the record says of the machines is so, but for those that are gone. */
  ghost predicate Played<M>(handle: Handler<M>, ms: map<MachineId, M>, gone: set<MachineId>, w: Work<M>) {
    Genuine(handle, ms, w.calls) && w.machines == Replay(handle, ms, w.calls) - gone
  }

  lemma InvokePlays<M>(handle: Handler<M>, ms: map<MachineId, M>, gone: set<MachineId>, w: Work<M>, to: MachineId,
                       input: MachineIn, inline: bool)
    requires Played(handle, ms, gone, w) && to in w.machines
    ensures Played(handle, ms, gone, Invoke(handle, w, to, input, inline).0)
  {
    var calls := Invoke(handle, w, to, input, inline).0.calls;
    assert calls[..|calls| - 1] == w.calls;
  }

  lemma {:induction false} AbsorbPlays<M>(handle: Handler<M>, ms: map<MachineId, M>, gone: set<MachineId>, depth: nat,
                                          w: Work<M>, from: MachineId, outs: seq<MachineOut>)
    requires Absorb(handle, depth, w, from, outs).Some? && Played(handle, ms, gone, w)
    ensures Played(handle, ms, gone, Absorb(handle, depth, w, from, outs).value)
    decreases depth, 2, |outs|
  {
    if outs != [] {
      if outs[0].Dispatch? {
        DispatchPlays(handle, ms, gone, depth, w, from, outs[0].name, outs[0].payload, outs[0].mode);
        var next := DispatchFrom(handle, depth, w, from, outs[0].name, outs[0].payload, outs[0].mode).value;
        AbsorbPlays(handle, ms, gone, depth, next, from, outs[1..]);
      } else {
        var filed := WithSubs(w, from, outs[0]);
        AbsorbPlays(handle, ms, gone, depth, filed.(results := filed.results + Filed(from, outs[0])), from, outs[1..]);
      }
    }
  }

  lemma {:induction false} DispatchPlays<M>(handle: Handler<M>, ms: map<MachineId, M>, gone: set<MachineId>, depth: nat,
                                            w: Work<M>, from: MachineId, name: EventName, payload: Value, mode: Mode)
    requires DispatchFrom(handle, depth, w, from, name, payload, mode).Some? && Played(handle, ms, gone, w)
    ensures Played(handle, ms, gone, DispatchFrom(handle, depth, w, from, name, payload, mode).value)
    decreases depth, 1, 0
  {
    if !mode.Emit? {
      ChainPlays(handle, ms, gone, depth, w, mode, name, payload, Subscribers(w.subs, name));
    }
  }

  lemma {:induction false} ChainPlays<M>(handle: Handler<M>, ms: map<MachineId, M>, gone: set<MachineId>, depth: nat,
                                         w: Work<M>, mode: Mode, name: EventName, value: Value, ids: seq<MachineId>)
    requires Chain(handle, depth, w, mode, name, value, ids).Some? && Played(handle, ms, gone, w)
    ensures Played(handle, ms, gone, Chain(handle, depth, w, mode, name, value, ids).value.0)
    decreases depth, 0, |ids|
  {
    if ids != [] {
      if ids[0] !in w.machines {
        ChainPlays(handle, ms, gone, depth, w.(results := w.results + [UnknownTarget(ids[0])]), mode, name, value,
                   ids[1..]);
      } else {
        var called := Invoke(handle, w, ids[0], TurnInput(mode, name, value), true);
        InvokePlays(handle, ms, gone, w, ids[0], TurnInput(mode, name, value), true);
        AbsorbPlays(handle, ms, gone, depth - 1, called.0, ids[0], SideOutputs(called.1));
        if VerdictOf(called.1).Continue? {
          var absorbed := Absorb(handle, depth - 1, called.0, ids[0], SideOutputs(called.1)).value;
          ChainPlays(handle, ms, gone, depth, absorbed, mode, name, VerdictOf(called.1).value, ids[1..]);
        }
      }
    }
  }

  lemma {:induction false} DrainPlays<M>(handle: Handler<M>, ms: map<MachineId, M>, gone: set<MachineId>, depth: nat,
                                         w: Work<M>, delivered: nat)
    requires delivered <= MAX_DELIVERIES_PER_STEP && delivered <= |w.sent|
    requires Drain(handle, depth, w, delivered).Some? && Played(handle, ms, gone, w)
    ensures Played(handle, ms, gone, Drain(handle, depth, w, delivered).value)
    ensures w.calls <= Drain(handle, depth, w, delivered).value.calls
    decreases MAX_DELIVERIES_PER_STEP - delivered
  {
    if delivered < |w.sent| && delivered < MAX_DELIVERIES_PER_STEP {
      var (to, input) := w.sent[delivered];
      ServePlays(handle, ms, gone, depth, w, to, input);
      DrainPlays(handle, ms, gone, depth, Serve(handle, depth, w, to, input).value, delivered + 1);
    }
  }

  lemma ServePlays<M>(handle: Handler<M>, ms: map<MachineId, M>, gone: set<MachineId>, depth: nat, w: Work<M>,
                      to: MachineId, input: MachineIn)
    requires Serve(handle, depth, w, to, input).Some? && Played(handle, ms, gone, w)
    ensures var w' := Serve(handle, depth, w, to, input).value;
      && Played(handle, ms, gone, w') && w.calls <= w'.calls
      && (to in w.machines ==>
            |w'.calls| > |w.calls| && w'.calls[|w.calls|].to == to && w'.calls[|w.calls|].input == input
            && !w'.calls[|w.calls|].inline)
  {
    if to in w.machines {
      var called := Invoke(handle, w, to, input, false);
      InvokePlays(handle, ms, gone, w, to, input, false);
      AbsorbPlays(handle, ms, gone, depth, called.0, to, called.1);
      AbsorbGrows(handle, depth, called.0, to, called.1);
      assert Absorb(handle, depth, called.0, to, called.1).value.calls[|w.calls|] == called.0.calls[|w.calls|];
    }
  }

  /** The machines the step starts from: one more that is mounted; one that leaves is still there for its last turn. */
  function Starting<M>(machines: map<MachineId, M>, ev: RouteIn<M>): map<MachineId, M> {
    if ev.Mount? then machines[ev.id := ev.machine] else machines
  }

  function Leaving<M>(machines: map<MachineId, M>, ev: RouteIn<M>): set<MachineId> {
    if ev.Unmount? && ev.id in machines then {ev.id} else {}
  }

  lemma BeginPlays<M>(handle: Handler<M>, depth: nat, machines: map<MachineId, M>, subs: map<EventName, seq<MachineId>>,
                      ev: RouteIn<M>)
    requires Begin(handle, depth, machines, subs, ev).Some?
    ensures Played(handle, Starting(machines, ev), Leaving(machines, ev),
                   Begin(handle, depth, machines, subs, ev).value)
  {
    var start := Work(machines, subs, [], [], []);
    match ev {
      case HostDispatch(name, payload, mode) =>
        DispatchPlays(handle, machines, {}, depth, start, HOST, name, payload, mode);
      case Unmount(id) =>
        if id in machines {
          DisposePlays(handle, depth, machines, subs, id);
        }
      case _ =>
    }
  }

  lemma DisposePlays<M>(handle: Handler<M>, depth: nat, machines: map<MachineId, M>,
                        subs: map<EventName, seq<MachineId>>, id: MachineId)
    requires id in machines && Begin(handle, depth, machines, subs, RouteIn<M>.Unmount(id)).Some?
    ensures var w := Begin(handle, depth, machines, subs, RouteIn<M>.Unmount(id)).value;
      && Played(handle, machines, {id}, w)
      && w.calls != [] && w.calls[0] == Invocation(id, DisposeRequested, handle(machines[id], DisposeRequested).1, true)
  {
    var outs := handle(machines[id], DisposeRequested).1;
    var last := [Invocation(id, DisposeRequested, outs, true)];
    var gone := Work(machines - {id}, subs, [], [], last);
    assert last[..0] == [];
    assert Replay(handle, machines, last) - {id} == machines - {id};
    AbsorbPlays(handle, machines, {id}, depth, gone, id, outs);
    AbsorbGrows(handle, depth, gone, id, outs);
    assert Absorb(handle, depth, gone, id, outs).value.calls[0] == gone.calls[0];
  }

  /** Over a whole step. */
  lemma StepPlays<M>(handle: Handler<M>, depth: nat, machines: map<MachineId, M>, subs: map<EventName, seq<MachineId>>,
                     ev: RouteIn<M>)
    requires Step(handle, depth, machines, subs, ev).Some?
    ensures Played(handle, Starting(machines, ev), Leaving(machines, ev), Step(handle, depth, machines, subs, ev).value)
  {
    BeginPlays(handle, depth, machines, subs, ev);
    DrainPlays(handle, Starting(machines, ev), Leaving(machines, ev), depth,
               Begin(handle, depth, machines, subs, ev).value, 0);
  }

  /** What a step does first, if anything: a mounted machine is told that its services are there, an unmounted one that
      it is to go, and a mounted target is given what is delivered. */
  lemma FirstInvocation<M>(handle: Handler<M>, depth: nat, machines: map<MachineId, M>,
                           subs: map<EventName, seq<MachineId>>, ev: RouteIn<M>)
    requires Step(handle, depth, machines, subs, ev).Some?
    ensures var calls := Step(handle, depth, machines, subs, ev).value.calls;
      match ev
      case Mount(id, machine) =>
        calls != [] && calls[0] == Invocation(id, ServicesReady, handle(machine, ServicesReady).1, false)
      case Unmount(id) =>
        id in machines ==>
          calls != [] && calls[0] == Invocation(id, DisposeRequested, handle(machines[id], DisposeRequested).1, true)
      case Deliver(to, input) =>
        to in machines ==> calls != [] && calls[0] == Invocation(to, input, handle(machines[to], input).1, false)
      case HostDispatch(_, _, _) => true
  {
    var begun := Begin(handle, depth, machines, subs, ev).value;
    BeginPlays(handle, depth, machines, subs, ev);
    DrainPlays(handle, Starting(machines, ev), Leaving(machines, ev), depth, begun, 0);
    match ev {
      case Mount(id, machine) =>
        FirstDelivered(handle, depth, Work(machines[id := machine], subs, [(id, ServicesReady)], [], []), id,
                       ServicesReady);
      case Unmount(id) =>
        if id in machines {
          DisposePlays(handle, depth, machines, subs, id);
          assert Step(handle, depth, machines, subs, ev).value.calls[0] == begun.calls[0];
        }
      case Deliver(to, input) =>
        if to in machines {
          FirstDelivered(handle, depth, Work(machines, subs, [(to, input)], [], []), to, input);
        }
      case HostDispatch(_, _, _) =>
    }
  }

  lemma FirstDelivered<M>(handle: Handler<M>, depth: nat, begun: Work<M>, to: MachineId, input: MachineIn)
    requires begun.sent == [(to, input)] && begun.calls == [] && to in begun.machines
    requires Drain(handle, depth, begun, 0).Some?
    ensures var calls := Drain(handle, depth, begun, 0).value.calls;
      calls != [] && calls[0] == Invocation(to, input, handle(begun.machines[to], input).1, false)
  {
    var ms := begun.machines;
    var served := Serve(handle, depth, begun, to, input);
    assert Drain(handle, depth, begun, 0) == Drain(handle, depth, served.value, 1);
    var called := Invoke(handle, begun, to, input, false);
    InvokePlays(handle, ms, {}, begun, to, input, false);
    AbsorbPlays(handle, ms, {}, depth, called.0, to, called.1);
    AbsorbGrows(handle, depth, called.0, to, called.1);
    assert served.value.calls[0] == called.0.calls[0];
    DrainPlays(handle, ms, {}, depth, served.value, 1);
    assert Drain(handle, depth, begun, 0).value.calls[0] == served.value.calls[0];
  }
}
