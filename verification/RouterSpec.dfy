/** The event router (`vocoder-cordis`): one step runs to quiescence, breadth-first, with
    waterfall and bail chains run inline.

    A machine is a state and an arbitrary `handle`; the router knows nothing else of it.
    Chains nest, so a step needs call stack, and `None` is a step that runs out of it. */
module RouterSpec {
  import opened Json

  type MachineId = string
  type EventName = string

  datatype Mode = Emit | Waterfall | Bail

  datatype MachineIn =
    | Event(name: EventName, payload: Value)
    | WaterfallTurn(name: EventName, value: Value)
    | BailTurn(name: EventName, value: Value)
    | DispatchResult(name: EventName, value: Value)
    | ServicesReady
    | DisposeRequested
    | External(value: Value)

  datatype MachineOut =
    | Dispatch(name: EventName, payload: Value, mode: Mode)
    | Subscribe(name: EventName)
    | Unsubscribe(name: EventName)
    | RegisterService(key: string)
    | WaterfallNext(value: Value)
    | WaterfallReturn(value: Value)
    | Compensate(text: string)
    | Realize(id: nat, request: Value)
    | Reply(reply: Value)
    | Stream(frame: Value)

  datatype RouteOut =
    | Realized(from: MachineId, id: nat, request: Value)
    | Replied(from: MachineId, reply: Value)
    | Streamed(from: MachineId, frame: Value)
    | ServiceRegistered(from: MachineId, key: string)
    | Compensated(from: MachineId, text: string)
    | UnknownTarget(to: MachineId)
    | CapReached(delivered: nat)

  datatype RouteIn<M> =
    | Mount(id: MachineId, machine: M)
    | Unmount(id: MachineId)
    | Deliver(to: MachineId, ev: MachineIn)
    | HostDispatch(name: EventName, payload: Value, mode: Mode)

  const MAX_DELIVERIES_PER_STEP: nat := 1024
  const HOST: MachineId := "<host>"

  type Handler<!M> = (M, MachineIn) -> (M, seq<MachineOut>)
  type Delivery = (MachineId, MachineIn)

  /** One invocation of a machine; `inline` ones are chain turns. */
  datatype Invocation = Invocation(to: MachineId, input: MachineIn, outs: seq<MachineOut>, inline: bool)

  /** The router, with what the step has done: all deliveries ever queued, the results, and
      every invocation. */
  datatype Work<M> = Work(
    machines: map<MachineId, M>,
    subs: map<EventName, seq<MachineId>>,
    sent: seq<Delivery>,
    results: seq<RouteOut>,
    calls: seq<Invocation>)

  // ----- chains -----

  datatype Verdict = Continue(value: Value) | Done(value: Value)

  /** The last answer in the batch decides; a batch without one continues with null. */
  function VerdictOf(outs: seq<MachineOut>): Verdict {
    if outs == [] then Continue(Null)
    else
      match outs[|outs| - 1]
      case WaterfallNext(v) => Continue(v)
      case WaterfallReturn(v) => Done(v)
      case _ => VerdictOf(outs[..|outs| - 1])
  }

  function SideOutputs(outs: seq<MachineOut>): seq<MachineOut> {
    if outs == [] then []
    else
      var last := outs[|outs| - 1];
      SideOutputs(outs[..|outs| - 1]) + (if last.WaterfallNext? || last.WaterfallReturn? then [] else [last])
  }

  function Subscribers(subs: map<EventName, seq<MachineId>>, name: EventName): seq<MachineId> {
    if name in subs then subs[name] else []
  }

  function Without(ids: seq<MachineId>, id: MachineId): seq<MachineId> {
    if ids == [] then []
    else Without(ids[..|ids| - 1], id) + (if ids[|ids| - 1] == id then [] else [ids[|ids| - 1]])
  }

  function TurnInput(mode: Mode, name: EventName, value: Value): MachineIn {
    if mode.Waterfall? then WaterfallTurn(name, value) else BailTurn(name, value)
  }

  function FanOut(ids: seq<MachineId>, ev: MachineIn): seq<Delivery> {
    seq(|ids|, i requires 0 <= i < |ids| => (ids[i], ev))
  }

  /** What an output becomes in the results, if anything. */
  function Filed(from: MachineId, out: MachineOut): seq<RouteOut> {
    match out
    case RegisterService(key) => [ServiceRegistered(from, key)]
    case Compensate(text) => [Compensated(from, text)]
    case Realize(id, request) => [Realized(from, id, request)]
    case Reply(reply) => [Replied(from, reply)]
    case Stream(frame) => [Streamed(from, frame)]
    case _ => []
  }

  function WithSubs<M>(w: Work<M>, from: MachineId, out: MachineOut): Work<M> {
    match out
    case Subscribe(name) =>
      var ids := Subscribers(w.subs, name);
      w.(subs := w.subs[name := if from in ids then ids else ids + [from]])
    case Unsubscribe(name) =>
      if name in w.subs then w.(subs := w.subs[name := Without(w.subs[name], from)]) else w
    case _ => w
  }

  function Absorb<M>(handle: Handler<M>, depth: nat, w: Work<M>, from: MachineId,
                     outs: seq<MachineOut>): Option<Work<M>>
    decreases depth, 2, |outs|
  {
    if outs == [] then Some(w)
    else
      var next :=
        if outs[0].Dispatch? then DispatchFrom(handle, depth, w, from, outs[0].name, outs[0].payload, outs[0].mode)
        else
          var filed := WithSubs(w, from, outs[0]);
          Some(filed.(results := filed.results + Filed(from, outs[0])));
      if next == None then None else Absorb(handle, depth, next.value, from, outs[1..])
  }

  function DispatchFrom<M>(handle: Handler<M>, depth: nat, w: Work<M>, from: MachineId, name: EventName, payload: Value,
                           mode: Mode): Option<Work<M>>
    decreases depth, 1, 0
  {
    var ids := Subscribers(w.subs, name);
    if mode.Emit? then Some(w.(sent := w.sent + FanOut(ids, Event(name, payload))))
    else
      var chained := Chain(handle, depth, w, mode, name, payload, ids);
      if chained == None then None
      else
        var (after, value) := chained.value;
        Some(after.(sent := after.sent + [(from, DispatchResult(name, value))]))
  }

  /** The subscribers are a snapshot; each takes its turn on the value so far. */
  function Chain<M>(handle: Handler<M>, depth: nat, w: Work<M>, mode: Mode, name: EventName, value: Value,
                    ids: seq<MachineId>): Option<(Work<M>, Value)>
    decreases depth, 0, |ids|
  {
    if ids == [] then Some((w, value))
    else if ids[0] !in w.machines then
      Chain(handle, depth, w.(results := w.results + [UnknownTarget(ids[0])]), mode, name, value, ids[1..])
    else if depth == 0 then None
    else
      var called := Invoke(handle, w, ids[0], TurnInput(mode, name, value), true);
      var outs := called.1;
      var absorbed := Absorb(handle, depth - 1, called.0, ids[0], SideOutputs(outs));
      if absorbed == None then None
      else
        match VerdictOf(outs)
        case Done(v) => Some((absorbed.value, v))
        case Continue(v) => Chain(handle, depth, absorbed.value, mode, name, v, ids[1..])
  }

  function Invoke<M>(handle: Handler<M>, w: Work<M>, to: MachineId, input: MachineIn, inline: bool): (Work<M>,
          seq<MachineOut>)
    requires to in w.machines
  {
    var (m, outs) := handle(w.machines[to], input);
    (w.(machines := w.machines[to := m], calls := w.calls + [Invocation(to, input, outs, inline)]), outs)
  }

  // ----- a step -----

  function Settle<M>(subs: map<EventName, seq<MachineId>>, id: MachineId): map<EventName, seq<MachineId>> {
    map name | name in subs :: Without(subs[name], id)
  }

  /** What the input itself does, before anything queued is delivered. */
  function Begin<M>(handle: Handler<M>, depth: nat, machines: map<MachineId, M>, subs: map<EventName, seq<MachineId>>,
                    ev: RouteIn<M>): Option<Work<M>> {
    var w := Work(machines, subs, [], [], []);
    match ev
    case Mount(id, machine) => Some(w.(machines := machines[id := machine], sent := [(id, ServicesReady)]))
    case Deliver(to, input) => Some(w.(sent := [(to, input)]))
    case HostDispatch(name, payload, mode) => DispatchFrom(handle, depth, w, HOST, name, payload, mode)
    case Unmount(id) =>
      if id !in machines then Some(w.(results := [UnknownTarget(id)]))
      else
        var outs := handle(machines[id], DisposeRequested).1;
        var gone := w.(machines := machines - {id}, calls := [Invocation(id, DisposeRequested, outs, true)]);
        var absorbed := Absorb(handle, depth, gone, id, outs);
        if absorbed == None then None
        else Some(absorbed.value.(subs := Settle<M>(absorbed.value.subs, id)))
  }

  /** Deliver what is queued, oldest first, `delivered` of them so far. */
  function Drain<M>(handle: Handler<M>, depth: nat, w: Work<M>, delivered: nat): Option<Work<M>>
    requires delivered <= MAX_DELIVERIES_PER_STEP && delivered <= |w.sent|
    decreases MAX_DELIVERIES_PER_STEP - delivered
  {
    if delivered == |w.sent| then Some(w)
    else if delivered == MAX_DELIVERIES_PER_STEP then
      Some(w.(results := w.results + [CapReached(delivered)]))
    else
      var served := Serve(handle, depth, w, w.sent[delivered].0, w.sent[delivered].1);
      if served == None then None else Drain(handle, depth, served.value, delivered + 1)
  }

  /** One delivery from the queue. */
  function Serve<M>(handle: Handler<M>, depth: nat, w: Work<M>, to: MachineId,
                    input: MachineIn): (served: Option<Work<M>>)
    ensures served.Some? ==> w.sent <= served.value.sent
  {
    if to !in w.machines then Some(w.(results := w.results + [UnknownTarget(to)]))
    else
      var called := Invoke(handle, w, to, input, false);
      var absorbed := Absorb(handle, depth, called.0, to, called.1);
      if absorbed.Some? then (AbsorbGrows(handle, depth, called.0, to, called.1); absorbed) else absorbed
  }

  function Step<M>(handle: Handler<M>, depth: nat, machines: map<MachineId, M>, subs: map<EventName, seq<MachineId>>,
                   ev: RouteIn<M>): Option<Work<M>> {
    var begun := Begin(handle, depth, machines, subs, ev);
    if begun == None then None else Drain(handle, depth, begun.value, 0)
  }

  // ----- logs only grow -----

  ghost predicate Grown<M>(w: Work<M>, w': Work<M>) {
    w.sent <= w'.sent && w.results <= w'.results && w.calls <= w'.calls && w'.machines.Keys == w.machines.Keys
  }

  lemma {:induction false} AbsorbGrows<M>(handle: Handler<M>, depth: nat, w: Work<M>, from: MachineId,
                                          outs: seq<MachineOut>)
    requires Absorb(handle, depth, w, from, outs).Some?
    ensures Grown(w, Absorb(handle, depth, w, from, outs).value)
    decreases depth, 2, |outs|
  {
    if outs != [] {
      if outs[0].Dispatch? {
        DispatchGrows(handle, depth, w, from, outs[0].name, outs[0].payload, outs[0].mode);
        AbsorbGrows(handle, depth,
                    DispatchFrom(handle, depth, w, from, outs[0].name, outs[0].payload, outs[0].mode).value, from,
                    outs[1..]);
      } else {
        var filed := WithSubs(w, from, outs[0]);
        AbsorbGrows(handle, depth, filed.(results := filed.results + Filed(from, outs[0])), from, outs[1..]);
      }
    }
  }

  lemma {:induction false} DispatchGrows<M>(handle: Handler<M>, depth: nat, w: Work<M>, from: MachineId,
                                            name: EventName, payload: Value, mode: Mode)
    requires DispatchFrom(handle, depth, w, from, name, payload, mode).Some?
    ensures Grown(w, DispatchFrom(handle, depth, w, from, name, payload, mode).value)
    decreases depth, 1, 0
  {
    if !mode.Emit? {
      ChainGrows(handle, depth, w, mode, name, payload, Subscribers(w.subs, name));
    }
  }

  lemma {:induction false} ChainGrows<M>(handle: Handler<M>, depth: nat, w: Work<M>, mode: Mode, name: EventName,
                                         value: Value, ids: seq<MachineId>)
    requires Chain(handle, depth, w, mode, name, value, ids).Some?
    ensures Grown(w, Chain(handle, depth, w, mode, name, value, ids).value.0)
    decreases depth, 0, |ids|
  {
    if ids != [] {
      if ids[0] !in w.machines {
        ChainGrows(handle, depth, w.(results := w.results + [UnknownTarget(ids[0])]), mode, name, value, ids[1..]);
      } else {
        var called := Invoke(handle, w, ids[0], TurnInput(mode, name, value), true);
        AbsorbGrows(handle, depth - 1, called.0, ids[0], SideOutputs(called.1));
        if VerdictOf(called.1).Continue? {
          ChainGrows(handle, depth, Absorb(handle, depth - 1, called.0, ids[0], SideOutputs(called.1)).value, mode,
                     name, VerdictOf(called.1).value, ids[1..]);
        }
      }
    }
  }
}
