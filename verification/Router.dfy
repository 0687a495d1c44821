/** The router as an object: machines and subscriptions are updated in place while a step
    drains its queue. */
module Router {
  import opened Json
  import opened RouterSpec

  /** Splits a chain turn's outputs; the last answer is the verdict. */
  method FoldChain(outs: seq<MachineOut>) returns (verdict: Verdict, rest: seq<MachineOut>)
    ensures verdict == VerdictOf(outs) && rest == SideOutputs(outs)
  {
    verdict, rest := Continue(Null), [];
    for i := 0 to |outs|
      invariant verdict == VerdictOf(outs[..i]) && rest == SideOutputs(outs[..i])
    {
      assert outs[..i + 1][..i] == outs[..i];
      match outs[i] {
        case WaterfallNext(value) => verdict := Continue(value);
        case WaterfallReturn(value) => verdict := Done(value);
        case other => rest := rest + [other];
      }
    }
    assert outs[..|outs|] == outs;
  }

  method Retain(ids: seq<MachineId>, id: MachineId) returns (kept: seq<MachineId>)
    ensures kept == Without(ids, id)
  {
    kept := [];
    for i := 0 to |ids|
      invariant kept == Without(ids[..i], id)
    {
      assert ids[..i + 1][..i] == ids[..i];
      if ids[i] != id {
        kept := kept + [ids[i]];
      }
    }
    assert ids[..|ids|] == ids;
  }

  /** `queue` and `results` are the locals a step hands down by reference; `stack` is the call
      depth left, and a method answers false when a chain needs more. */
  class Router<!M> {
    const handle: Handler<M>
    var machines: map<MachineId, M>
    var subscriptions: map<EventName, seq<MachineId>>
    var queue: seq<Delivery>
    var results: seq<RouteOut>
    ghost var served: seq<Delivery>
    ghost var calls: seq<Invocation>

    ghost function Now(): Work<M>
      reads this
    {
      Work(machines, subscriptions, served + queue, results, calls)
    }

    constructor (handle: Handler<M>)
      ensures this.handle == handle && machines == map[] && subscriptions == map[]
    {
      this.handle := handle;
      machines, subscriptions, queue, results, served, calls := map[], map[], [], [], [], [];
    }

    method Absorb(stack: nat, from: MachineId, outs: seq<MachineOut>) returns (ok: bool)
      modifies this
      ensures served == old(served)
      ensures ok == RouterSpec.Absorb(handle, stack, old(Now()), from, outs).Some?
      ensures ok ==> Now() == RouterSpec.Absorb(handle, stack, old(Now()), from, outs).value
      decreases stack, 2
    {
      for i := 0 to |outs|
        invariant served == old(served)
        invariant RouterSpec.Absorb(handle, stack, Now(), from, outs[i..])
          == RouterSpec.Absorb(handle, stack, old(Now()), from, outs)
      {
        assert outs[i..][1..] == outs[i + 1..];
        ghost var before := Now();
        match outs[i] {
          case Dispatch(name, payload, mode) =>
            ok := Dispatch(stack, from, name, payload, mode);
            if !ok {
              return false;
            }
          case Subscribe(name) =>
            var ids := if name in subscriptions then subscriptions[name] else [];
            subscriptions := subscriptions[name := if from in ids then ids else ids + [from]];
          case Unsubscribe(name) =>
            if name in subscriptions {
              var ids := Retain(subscriptions[name], from);
              subscriptions := subscriptions[name := ids];
            }
          case RegisterService(key) => results := results + [ServiceRegistered(from, key)];
          case Compensate(text) => results := results + [Compensated(from, text)];
          case Realize(id, request) => results := results + [Realized(from, id, request)];
          case Reply(reply) => results := results + [Replied(from, reply)];
          case Stream(frame) => results := results + [Streamed(from, frame)];
          case WaterfallNext(_) =>
          case WaterfallReturn(_) =>
        }
        assert !outs[i].Dispatch?
          ==> Now() == WithSubs(before, from, outs[i]).(results := before.results + Filed(from, outs[i]));
      }
      ok := true;
    }

    method Dispatch(stack: nat, from: MachineId, name: EventName, payload: Value, mode: Mode) returns (ok: bool)
      modifies this
      ensures served == old(served)
      ensures ok == DispatchFrom(handle, stack, old(Now()), from, name, payload, mode).Some?
      ensures ok ==> Now() == DispatchFrom(handle, stack, old(Now()), from, name, payload, mode).value
      decreases stack, 1
    {
      var ids := Subscribers(subscriptions, name);
      if mode.Emit? {
        PushAll(ids, Event(name, payload));
        return true;
      }
      var value;
      ok, value := RunChain(stack, mode, name, payload, ids);
      if ok {
        ghost var after := Now();
        queue := queue + [(from, DispatchResult(name, value))];
        assert Now().sent == after.sent + [(from, DispatchResult(name, value))];
      }
    }

    method PushAll(ids: seq<MachineId>, ev: MachineIn)
      modifies this`queue
      ensures queue == old(queue) + FanOut(ids, ev)
      ensures Now() == old(Now()).(sent := old(Now()).sent + FanOut(ids, ev))
    {
      for i := 0 to |ids|
        invariant queue == old(queue) + FanOut(ids[..i], ev)
      {
        queue := queue + [(ids[i], ev)];
        assert FanOut(ids[..i + 1], ev) == FanOut(ids[..i], ev) + [(ids[i], ev)];
      }
      assert ids[..|ids|] == ids;
      assert served + queue == served + old(queue) + FanOut(ids, ev);
    }

    /** Each subscriber of the snapshot takes its turn on the value so far. */
    method RunChain(stack: nat, mode: Mode, name: EventName, payload: Value, ids: seq<MachineId>)
      returns (ok: bool, value: Value)
      modifies this
      ensures served == old(served)
      ensures ok == Chain(handle, stack, old(Now()), mode, name, payload, ids).Some?
      ensures ok ==> Chain(handle, stack, old(Now()), mode, name, payload, ids).value == (Now(), value)
      decreases stack, 0
    {
      value := payload;
      for i := 0 to |ids|
        invariant served == old(served)
        invariant Chain(handle, stack, Now(), mode, name, value, ids[i..])
          == Chain(handle, stack, old(Now()), mode, name, payload, ids)
      {
        assert ids[i..][0] == ids[i] && ids[i..][1..] == ids[i + 1..];
        if ids[i] !in machines {
          results := results + [UnknownTarget(ids[i])];
        } else {
          if stack == 0 {
            return false, value;
          }
          var outs := Call(ids[i], TurnInput(mode, name, value), true);
          var verdict, side := FoldChain(outs);
          ok := Absorb(stack - 1, ids[i], side);
          if !ok {
            return;
          }
          value := verdict.value;
          if verdict.Done? {
            return true, value;
          }
        }
      }
      ok := true;
    }

    method Call(to: MachineId, input: MachineIn, ghost inline: bool) returns (outs: seq<MachineOut>)
      requires to in machines
      modifies this
      ensures served == old(served)
      ensures (Now(), outs) == Invoke(handle, old(Now()), to, input, inline)
    {
      var turn := handle(machines[to], input);
      machines := machines[to := turn.0];
      outs := turn.1;
      calls := calls + [Invocation(to, input, outs, inline)];
    }

    /** One step: the input itself, and then the queue until it is empty or the cap is hit. */
    method Handle(stack: nat, ev: RouteIn<M>) returns (ok: bool, outs: seq<RouteOut>)
      modifies this
      ensures ok == Step(handle, stack, old(machines), old(subscriptions), ev).Some?
      ensures ok ==>
        var w := Step(handle, stack, old(machines), old(subscriptions), ev).value;
        machines == w.machines && subscriptions == w.subs && outs == w.results
    {
      outs := [];
      ok := Admit(stack, ev);
      if !ok {
        return;
      }
      ok := Quiesce(stack);
      outs := results;
    }

    /** The input itself. */
    method Admit(stack: nat, ev: RouteIn<M>) returns (ok: bool)
      modifies this
      ensures served == []
      ensures ok == Begin(handle, stack, old(machines), old(subscriptions), ev).Some?
      ensures ok ==> Now() == Begin(handle, stack, old(machines), old(subscriptions), ev).value
    {
      queue, results, served, calls := [], [], [], [];
      ok := true;
      match ev {
        case Mount(id, machine) =>
          machines := machines[id := machine];
          queue := [(id, ServicesReady)];
          assert served + queue == queue;
        case Unmount(id) =>
          assert served + queue == [];
          if id in machines {
            ok := Dispose(stack, id);
          } else {
            results := [UnknownTarget(id)];
          }
        case Deliver(to, input) =>
          queue := [(to, input)];
          assert served + queue == queue;
        case HostDispatch(name, payload, mode) =>
          assert served + queue == [];
          ok := Dispatch(stack, HOST, name, payload, mode);
      }
    }

    /** The last turn of a machine that is going away, and then its subscriptions. */
    method Dispose(stack: nat, id: MachineId) returns (ok: bool)
      requires id in machines && served == queue == [] && results == [] && calls == []
      modifies this
      ensures served == []
      ensures ok == Begin(handle, stack, old(machines), old(subscriptions), RouteIn<M>.Unmount(id)).Some?
      ensures ok ==> Now() == Begin(handle, stack, old(machines), old(subscriptions), RouteIn<M>.Unmount(id)).value
    {
      var last := handle(machines[id], DisposeRequested).1;
      machines := machines - {id};
      calls := [Invocation(id, DisposeRequested, last, true)];
      assert served + queue == [];
      assert Now()
        == Work(old(machines) - {id}, old(subscriptions), [], [], [Invocation(id, DisposeRequested, last, true)]);
      ok := Absorb(stack, id, last);
      if ok {
        Forget(id);
      }
    }

    method Forget(id: MachineId)
      modifies this`subscriptions
      ensures subscriptions == RouterSpec.Settle<M>(old(subscriptions), id)
    {
      var names, done := subscriptions.Keys, map[];
      while names != {}
        invariant names <= subscriptions.Keys && subscriptions == old(subscriptions)
        invariant done == map name | name in subscriptions.Keys - names :: Without(subscriptions[name], id)
        decreases |names|
      {
        var name :| name in names;
        var ids := Retain(subscriptions[name], id);
        done := done[name := ids];
        names := names - {name};
      }
      subscriptions := done;
    }

    method Quiesce(stack: nat) returns (ok: bool)
      requires served == []
      modifies this
      ensures ok == Drain(handle, stack, old(Now()), 0).Some?
      ensures ok ==> Now() == Drain(handle, stack, old(Now()), 0).value
    {
      var delivered := 0;
      while queue != []
        invariant delivered == |served| <= MAX_DELIVERIES_PER_STEP
        invariant Drain(handle, stack, Now(), delivered) == Drain(handle, stack, old(Now()), 0)
        decreases MAX_DELIVERIES_PER_STEP - delivered
      {
        if delivered == MAX_DELIVERIES_PER_STEP {
          results := results + [CapReached(delivered)];
          return true;
        }
        delivered := delivered + 1;
        ok := DeliverNext(stack);
        if !ok {
          return;
        }
      }
      assert served + queue == served;
      ok := true;
    }

    /** Takes the oldest delivery off the queue and makes it. */
    method DeliverNext(stack: nat) returns (ok: bool)
      requires queue != [] && |served| < MAX_DELIVERIES_PER_STEP
      modifies this
      ensures |served| == |old(served)| + 1
      ensures
        Drain(handle, stack, old(Now()), |old(served)|) == if ok then Drain(handle, stack, Now(), |served|) else None
    {
      ghost var before := Now();
      var (to, input) := queue[0];
      served, queue := served + [queue[0]], queue[1..];
      assert Now() == before && before.sent[|served| - 1] == (to, input);
      ok := Deliver(stack, to, input);
    }

    /** One delivery that has been taken off the queue. */
    method Deliver(stack: nat, to: MachineId, input: MachineIn) returns (ok: bool)
      modifies this
      ensures served == old(served)
      ensures ok == Serve(handle, stack, old(Now()), to, input).Some?
      ensures ok ==> Now() == Serve(handle, stack, old(Now()), to, input).value
    {
      if to !in machines {
        results := results + [UnknownTarget(to)];
        return true;
      }
      var outs := Call(to, input, false);
      ok := Absorb(stack, to, outs);
    }
  }
}
