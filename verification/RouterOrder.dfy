/** In what order a step files what the machines emit. */
module RouterOrder {
  import opened Json
  import opened RouterSpec
  import opened Seqs

  /** For each result the invocation that emitted it; the router's own reports are nobody's. */
  type Sources = seq<Option<nat>>

  predicate IsReport(r: RouteOut) {
    r.UnknownTarget? || r.CapReached?
  }

  /** `r` is what the outside is to see of `out`: the same content, under the name of its machine. */
  predicate Shows(r: RouteOut, from: MachineId, out: MachineOut) {
    match out
    case RegisterService(key) => r.ServiceRegistered? && r.from == from && r.key == key
    case Compensate(text) => r.Compensated? && r.from == from && r.text == text
    case Realize(id, request) => r.Realized? && r.from == from && r.id == id && r.request == request
    case Reply(reply) => r.Replied? && r.from == from && r.reply == reply
    case Stream(frame) => r.Streamed? && r.from == from && r.frame == frame
    case _ => false
  }

  /** An output for the outside. */
  predicate Outward(out: MachineOut) {
    out.RegisterService? || out.Compensate? || out.Realize? || out.Reply? || out.Stream?
  }

  function OutwardOf(outs: seq<MachineOut>): seq<MachineOut> {
    if outs == [] then [] else (if Outward(outs[0]) then [outs[0]] else []) + OutwardOf(outs[1..])
  }

  /** What a batch is to file, in the order it was emitted. */
  function FiledAll(from: MachineId, outs: seq<MachineOut>): seq<RouteOut> {
    if outs == [] then [] else Filed(from, outs[0]) + FiledAll(from, outs[1..])
  }

  /** That is one result for each output for the outside, and it shows it. */
  lemma {:induction false} FiledShows(from: MachineId, outs: seq<MachineOut>)
    ensures |FiledAll(from, outs)| == |OutwardOf(outs)|
    ensures forall k | 0 <= k < |OutwardOf(outs)| :: Shows(FiledAll(from, outs)[k], from, OutwardOf(outs)[k])
  {
    if outs != [] {
      FiledShows(from, outs[1..]);
    }
  }

  /** The results of one invocation, in the order they stand. */
  function Share(results: seq<RouteOut>, src: Sources, i: nat): seq<RouteOut>
    requires |src| == |results|
  {
    if results == [] then []
    else
      var n := |results| - 1;
      Share(results[..n], src[..n], i) + (if src[n] == Some(i) then [results[n]] else [])
  }

  lemma {:induction false} ShareSame(results: seq<RouteOut>, src: Sources, results': seq<RouteOut>, src': Sources,
                                     i: nat)
    requires |src| == |results| && |src'| == |results'| && results <= results' && src <= src'
    requires forall r | |src| <= r < |src'| :: src'[r] != Some(i)
    ensures Share(results', src', i) == Share(results, src, i)
  {
    if |results| < |results'| {
      var n := |results'| - 1;
      ShareSame(results, src, results'[..n], src'[..n], i);
    } else {
      assert results == results' && src == src';
    }
  }

  lemma {:induction false} ShareEmpty(results: seq<RouteOut>, src: Sources, i: nat)
    requires |src| == |results| && forall r | 0 <= r < |src| :: src[r] != Some(i)
    ensures Share(results, src, i) == []
  {
    if results != [] {
      ShareEmpty(results[..|results| - 1], src[..|results| - 1], i);
    }
  }

  lemma ShareMore(results: seq<RouteOut>, src: Sources, more: RouteOut, who: Option<nat>, i: nat)
    requires |src| == |results|
    ensures Share(results + [more], src + [who], i) == Share(results, src, i) + (if who == Some(i) then [more] else [])
  {
    assert (results + [more])[..|results|] == results && (src + [who])[..|results|] == src;
  }

  lemma {:induction false} FiledMore(from: MachineId, outs: seq<MachineOut>, out: MachineOut)
    ensures FiledAll(from, outs + [out]) == FiledAll(from, outs) + Filed(from, out)
  {
    if outs == [] {
      assert [] + [out] == [out] && [out][1..] == [];
    } else {
      FiledMore(from, outs[1..], out);
      assert (outs + [out])[0] == outs[0] && (outs + [out])[1..] == outs[1..] + [out];
      Associate(Filed(from, outs[0]), FiledAll(from, outs[1..]), Filed(from, out));
    }
  }

  /** The answers a chain leaves out of the side outputs file nothing. */
  lemma {:induction false} SideFilesAll(from: MachineId, outs: seq<MachineOut>)
    ensures FiledAll(from, SideOutputs(outs)) == FiledAll(from, outs)
  {
    if outs != [] {
      var front, last := outs[..|outs| - 1], outs[|outs| - 1];
      SideFilesAll(from, front);
      assert outs == front + [last];
      FiledMore(from, front, last);
      if last.WaterfallNext? || last.WaterfallReturn? {
        assert SideOutputs(outs) == SideOutputs(front);
      } else {
        FiledMore(from, SideOutputs(front), last);
      }
    }
  }

  // ----- one batch -----

  /** Every result has its source: an invocation on record, unless it is a report. */
  ghost predicate Sourced<M>(w: Work<M>, src: Sources) {
    && |src| == |w.results|
    && forall r | 0 <= r < |src| ::
      (src[r] == None <==> IsReport(w.results[r])) && (src[r].Some? ==> src[r].value < |w.calls|)
  }

  /** What was filed since is `who`'s, a later invocation's, or nobody's. */
  ghost predicate Onward<M>(w: Work<M>, src: Sources, w': Work<M>, src': Sources, who: Option<nat>) {
    && Grown(w, w') && Sourced(w, src) && Sourced(w', src') && src <= src'
    && forall r | |src| <= r < |src'| :: src'[r] == None || src'[r] == who || src'[r].value >= |w.calls|
  }

  /** The invocations from `lo` up to `hi` have all their results, and those after `lo` were chain turns. */
  ghost predicate Filled<M>(w: Work<M>, src: Sources, lo: nat, hi: nat)
    requires Sourced(w, src) && hi <= |w.calls|
  {
    forall i | lo <= i < hi :: HasAll(w, src, i) && w.calls[i].inline
  }

  ghost predicate HasAll<M>(w: Work<M>, src: Sources, i: nat)
    requires Sourced(w, src) && i < |w.calls|
  {
    Share(w.results, src, i) == FiledAll(w.calls[i].to, w.calls[i].outs)
  }

  lemma OnwardKeeps<M>(w: Work<M>, src: Sources, w': Work<M>, src': Sources, who: Option<nat>, i: nat)
    requires Onward(w, src, w', src', who) && i < |w.calls| && who != Some(i)
    ensures Share(w'.results, src', i) == Share(w.results, src, i)
    ensures HasAll(w, src, i) ==> HasAll(w', src', i)
  {
    ShareSame(w.results, src, w'.results, src', i);
  }

  lemma FilledStays<M>(w: Work<M>, src: Sources, w': Work<M>, src': Sources, who: Option<nat>, lo: nat)
    requires Onward(w, src, w', src', who) && (who.Some? ==> who.value < lo) && Filled(w, src, lo, |w.calls|)
    ensures Filled(w', src', lo, |w.calls|)
  {
    forall i | lo <= i < |w.calls|
      ensures HasAll(w', src', i)
    {
      OnwardKeeps(w, src, w', src', who, i);
    }
  }

  /** Two stretches of work, one after the other. */
  lemma OnwardJoins<M>(w: Work<M>, src: Sources, w1: Work<M>, src1: Sources, w2: Work<M>, src2: Sources,
                       who1: Option<nat>, who2: Option<nat>, who: Option<nat>)
    requires Onward(w, src, w1, src1, who1) && Onward(w1, src1, w2, src2, who2)
    requires who1 == None || who1 == who || who1.value >= |w.calls|
    requires who2 == None || who2 == who || who2.value >= |w.calls|
    ensures Onward(w, src, w2, src2, who)
  {
    forall r | |src| <= r < |src2|
      ensures src2[r] == None || src2[r] == who || src2[r].value >= |w.calls|
    {
      if r < |src1| {
        assert src2[r] == src1[r];
      }
    }
  }

  lemma FileOne<M>(w: Work<M>, src: Sources, from: MachineId, out: MachineOut, c: nat) returns (src': Sources)
    requires !out.Dispatch? && Sourced(w, src) && c < |w.calls|
    ensures
      var filed := WithSubs(w, from, out);
      var next := filed.(results := filed.results + Filed(from, out));
      && Onward(w, src, next, src', Some(c)) && next.calls == w.calls
      && Share(next.results, src', c) == Share(w.results, src, c) + Filed(from, out)
  {
    var filed := WithSubs(w, from, out);
    assert filed == w.(subs := filed.subs);
    if Filed(from, out) == [] {
      src' := src;
      assert filed.results + Filed(from, out) == w.results;
    } else {
      src' := FileResult(w, filed.subs, src, Filed(from, out)[0], c);
      assert Filed(from, out) == [Filed(from, out)[0]];
    }
  }

  lemma FileResult<M>(w: Work<M>, subs: map<EventName, seq<MachineId>>, src: Sources, r: RouteOut, c: nat)
    returns (src': Sources)
    requires !IsReport(r) && Sourced(w, src) && c < |w.calls|
    ensures
      var next := w.(subs := subs, results := w.results + [r]);
      && Onward(w, src, next, src', Some(c))
      && Share(next.results, src', c) == Share(w.results, src, c) + [r]
  {
    src' := src + [Some(c)];
    ShareMore(w.results, src, r, Some(c), c);
  }

  /** An output's own work, and then the rest of its batch. */
  lemma BatchJoins<M>(w: Work<M>, src: Sources, next: Work<M>, src1: Sources, w': Work<M>, src': Sources,
                      who: Option<nat>, c: nat, first: seq<RouteOut>, rest: seq<RouteOut>)
    requires Onward(w, src, next, src1, who) && (who == None || who == Some(c)) && c < |w.calls|
    requires Onward(next, src1, w', src', Some(c))
    requires Filled(next, src1, |w.calls|, |next.calls|) && Filled(w', src', |next.calls|, |w'.calls|)
    requires Share(next.results, src1, c) == Share(w.results, src, c) + first
    requires Share(w'.results, src', c) == Share(next.results, src1, c) + rest
    ensures Onward(w, src, w', src', Some(c)) && Filled(w', src', |w.calls|, |w'.calls|)
    ensures Share(w'.results, src', c) == Share(w.results, src, c) + (first + rest)
  {
    OnwardJoins(w, src, next, src1, w', src', who, Some(c), Some(c));
    FilledStays(next, src1, w', src', Some(c), |w.calls|);
    Associate(Share(w.results, src, c), first, rest);
  }

  lemma {:induction false} AbsorbSources<M>(handle: Handler<M>, depth: nat, w: Work<M>, from: MachineId,
                                            outs: seq<MachineOut>, src: Sources, c: nat) returns (src': Sources)
    requires Absorb(handle, depth, w, from, outs).Some? && Sourced(w, src) && c < |w.calls|
    ensures var w' := Absorb(handle, depth, w, from, outs).value;
      && Onward(w, src, w', src', Some(c)) && Filled(w', src', |w.calls|, |w'.calls|)
      && Share(w'.results, src', c) == Share(w.results, src, c) + FiledAll(from, outs)
    decreases depth, 2, |outs|
  {
    if outs == [] {
      src' := src;
    } else {
      var next, src1, who := FirstSources(handle, depth, w, from, outs, src, c);
      src' := AbsorbSources(handle, depth, next, from, outs[1..], src1, c);
      var w' := Absorb(handle, depth, next, from, outs[1..]).value;
      BatchJoins(w, src, next, src1, w', src', who, c, Filed(from, outs[0]), FiledAll(from, outs[1..]));
    }
  }

  /** The first output of a batch, with the chain it may start. */
  lemma {:induction false} FirstSources<M>(handle: Handler<M>, depth: nat, w: Work<M>, from: MachineId,
                                           outs: seq<MachineOut>, src: Sources, c: nat)
    returns (next: Work<M>, src': Sources, who: Option<nat>)
    requires outs != [] && Absorb(handle, depth, w, from, outs).Some? && Sourced(w, src) && c < |w.calls|
    ensures Absorb(handle, depth, w, from, outs) == Absorb(handle, depth, next, from, outs[1..])
    ensures Onward(w, src, next, src', who) && (who == None || who == Some(c))
      && Filled(next, src', |w.calls|, |next.calls|)
    ensures Share(next.results, src', c) == Share(w.results, src, c) + Filed(from, outs[0])
    decreases depth, 1, 1
  {
    if outs[0].Dispatch? {
      next := DispatchFrom(handle, depth, w, from, outs[0].name, outs[0].payload, outs[0].mode).value;
      src' := DispatchSources(handle, depth, w, from, outs[0].name, outs[0].payload, outs[0].mode, src);
      who := None;
      OnwardKeeps(w, src, next, src', None, c);
    } else {
      var filed := WithSubs(w, from, outs[0]);
      next := filed.(results := filed.results + Filed(from, outs[0]));
      src' := FileOne(w, src, from, outs[0], c);
      who := Some(c);
    }
  }

  lemma {:induction false} DispatchSources<M>(handle: Handler<M>, depth: nat, w: Work<M>, from: MachineId,
                                              name: EventName, payload: Value, mode: Mode, src: Sources)
                                                returns (src': Sources)
    requires DispatchFrom(handle, depth, w, from, name, payload, mode).Some? && Sourced(w, src)
    ensures var w' := DispatchFrom(handle, depth, w, from, name, payload, mode).value;
      Onward(w, src, w', src', None) && Filled(w', src', |w.calls|, |w'.calls|)
    decreases depth, 1, 0
  {
    src' := src;
    if !mode.Emit? {
      src' := ChainSources(handle, depth, w, mode, name, payload, Subscribers(w.subs, name), src);
    }
  }

  lemma {:induction false} ChainSources<M>(handle: Handler<M>, depth: nat, w: Work<M>, mode: Mode, name: EventName,
                                           value: Value, ids: seq<MachineId>, src: Sources) returns (src': Sources)
    requires Chain(handle, depth, w, mode, name, value, ids).Some? && Sourced(w, src)
    ensures var w' := Chain(handle, depth, w, mode, name, value, ids).value.0;
      Onward(w, src, w', src', None) && Filled(w', src', |w.calls|, |w'.calls|)
    decreases depth, 0, |ids|
  {
    src' := src;
    if ids != [] {
      var w' := Chain(handle, depth, w, mode, name, value, ids).value.0;
      if ids[0] !in w.machines {
        var missed := w.(results := w.results + [UnknownTarget(ids[0])]);
        src' := ChainSources(handle, depth, missed, mode, name, value, ids[1..], src + [None]);
        OnwardJoins(w, src, missed, src + [None], w', src', None, None, None);
      } else {
        var turn, src1 := TurnSources(handle, depth, w, ids[0], TurnInput(mode, name, value), src);
        var verdict := VerdictOf(Invoke(handle, w, ids[0], TurnInput(mode, name, value), true).1);
        src' := src1;
        if verdict.Continue? {
          src' := ChainSources(handle, depth, turn, mode, name, verdict.value, ids[1..], src1);
          FilledStays(turn, src1, w', src', None, |w.calls|);
          OnwardJoins(w, src, turn, src1, w', src', None, None, None);
        }
      }
    }
  }

  /** One turn of a chain, with everything that happens inside it. */
  lemma {:induction false} TurnSources<M>(handle: Handler<M>, depth: nat, w: Work<M>, id: MachineId, input: MachineIn,
                                          src: Sources)
    returns (turn: Work<M>, src': Sources)
    requires depth > 0 && id in w.machines && Sourced(w, src)
    requires var called := Invoke(handle, w, id, input, true);
      Absorb(handle, depth - 1, called.0, id, SideOutputs(called.1)).Some?
    ensures var called := Invoke(handle, w, id, input, true);
      Some(turn) == Absorb(handle, depth - 1, called.0, id, SideOutputs(called.1))
    ensures Onward(w, src, turn, src', None) && Filled(turn, src', |w.calls|, |turn.calls|)
    decreases depth - 1, 4, 0
  {
    var called := Invoke(handle, w, id, input, true);
    turn := Absorb(handle, depth - 1, called.0, id, SideOutputs(called.1)).value;
    SideFilesAll(id, called.1);
    src' := CallSources(handle, depth - 1, w, called.0, id, SideOutputs(called.1), src);
    assert turn.calls[|w.calls|] == called.0.calls[|w.calls|];
  }

  /** An invocation just recorded, with everything it leads to. */
  lemma {:induction false} CallSources<M>(handle: Handler<M>, depth: nat, w: Work<M>, called: Work<M>, from: MachineId,
                                          outs: seq<MachineOut>, src: Sources)
    returns (src': Sources)
    requires Sourced(w, src) && w.calls <= called.calls && called.results == w.results
      && |called.calls| == |w.calls| + 1
    requires called.sent == w.sent && called.machines.Keys == w.machines.Keys
    requires called.calls[|w.calls|].to == from && FiledAll(from, called.calls[|w.calls|].outs) == FiledAll(from, outs)
    requires Absorb(handle, depth, called, from, outs).Some?
    ensures var w' := Absorb(handle, depth, called, from, outs).value;
      && Onward(w, src, w', src', None) && |w'.calls| > |w.calls| && w'.calls[|w.calls|] == called.calls[|w.calls|]
      && HasAll(w', src', |w.calls|) && Filled(w', src', |w.calls| + 1, |w'.calls|)
    decreases depth, 3, 0
  {
    var n := |w.calls|;
    ShareEmpty(w.results, src, n);
    src' := AbsorbSources(handle, depth, called, from, outs, src, n);
    RecordedOnward(w, src, called, Absorb(handle, depth, called, from, outs).value, src');
  }

  /** Recording an invocation files nothing by itself. */
  lemma RecordedOnward<M>(w: Work<M>, src: Sources, called: Work<M>, w': Work<M>, src': Sources)
    requires Sourced(w, src) && w.calls <= called.calls && called.results == w.results
      && |called.calls| == |w.calls| + 1
    requires called.sent == w.sent && called.machines.Keys == w.machines.Keys
    requires Onward(called, src, w', src', Some(|w.calls|))
    ensures Onward(w, src, w', src', None) && |w'.calls| > |w.calls| && w'.calls[|w.calls|] == called.calls[|w.calls|]
  {
    assert Onward(w, src, called, src, None);
    OnwardJoins(w, src, called, src, w', src', None, Some(|w.calls|), None);
    assert w'.calls[|w.calls|] == called.calls[|w.calls|];
  }

  // ----- a whole step -----

  predicate OneDelivery(calls: seq<Invocation>, first: nat, last: nat) {
    forall i | first < i <= last && i < |calls| :: calls[i].inline
  }

  /** Of two results the later one never belongs to an earlier delivery. */
  ghost predicate InDeliveryOrder(calls: seq<Invocation>, src: Sources) {
    forall r, q | 0 <= r < q < |src| && src[r].Some? && src[q].Some? :: OneDelivery(calls, src[q].value, src[r].value)
  }

  /** The results are exactly what the invocations emitted: each invocation's in the order it emitted them, a
      delivery's and those of the chains inside it before the next delivery's, and besides only the router's reports. */
  ghost predicate Ordered<M>(w: Work<M>, src: Sources) {
    && Sourced(w, src) && InDeliveryOrder(w.calls, src)
    && forall i | 0 <= i < |w.calls| :: HasAll(w, src, i)
  }

  /** The results of invocation `i` show what it emitted for the outside, one each and in that order. */
  ghost predicate ShowsAll<M>(w: Work<M>, src: Sources, i: nat)
    requires Sourced(w, src) && i < |w.calls|
  {
    var results, emitted := Share(w.results, src, i), OutwardOf(w.calls[i].outs);
    |results| == |emitted| && forall k | 0 <= k < |emitted| :: Shows(results[k], w.calls[i].to, emitted[k])
  }

  /** What comes with a new delivery stands after all that was there. */
  lemma DeliveryAfter<M>(w: Work<M>, src: Sources, w': Work<M>, src': Sources)
    requires InDeliveryOrder(w.calls, src) && Onward(w, src, w', src', None)
    requires forall i | |w.calls| < i < |w'.calls| :: w'.calls[i].inline
    ensures InDeliveryOrder(w'.calls, src')
  {
    forall r, q | 0 <= r < q < |src'| && src'[r].Some? && src'[q].Some?
      ensures OneDelivery(w'.calls, src'[q].value, src'[r].value)
    {
      if q < |src| {
        assert OneDelivery(w.calls, src[q].value, src[r].value);
        assert src'[r] == src[r] && src'[q] == src[q];
      } else {
        assert src'[q].value >= |w.calls|;
      }
    }
  }

  lemma OrderedOn<M>(w: Work<M>, src: Sources, w': Work<M>, src': Sources)
    requires Ordered(w, src) && Onward(w, src, w', src', None)
    requires |w'.calls| > |w.calls| ==> HasAll(w', src', |w.calls|) && Filled(w', src', |w.calls| + 1, |w'.calls|)
    ensures Ordered(w', src')
  {
    DeliveryAfter(w, src, w', src');
    forall i | 0 <= i < |w'.calls|
      ensures HasAll(w', src', i)
    {
      if i < |w.calls| {
        OnwardKeeps(w, src, w', src', None, i);
      }
    }
  }

  lemma ServeOrders<M>(handle: Handler<M>, depth: nat, w: Work<M>, to: MachineId, input: MachineIn, src: Sources)
    returns (src': Sources)
    requires Serve(handle, depth, w, to, input).Some? && Ordered(w, src)
    ensures Ordered(Serve(handle, depth, w, to, input).value, src')
  {
    var w' := Serve(handle, depth, w, to, input).value;
    if to !in w.machines {
      src' := src + [None];
    } else {
      var called := Invoke(handle, w, to, input, false);
      src' := CallSources(handle, depth, w, called.0, to, called.1, src);
    }
    OrderedOn(w, src, w', src');
  }

  lemma {:induction false} DrainOrders<M>(handle: Handler<M>, depth: nat, w: Work<M>, delivered: nat, src: Sources)
    returns (src': Sources)
    requires delivered <= MAX_DELIVERIES_PER_STEP && delivered <= |w.sent|
    requires Drain(handle, depth, w, delivered).Some? && Ordered(w, src)
    ensures Ordered(Drain(handle, depth, w, delivered).value, src')
    decreases MAX_DELIVERIES_PER_STEP - delivered
  {
    if delivered == |w.sent| {
      src' := src;
    } else if delivered == MAX_DELIVERIES_PER_STEP {
      src' := src + [None];
      OrderedOn(w, src, w.(results := w.results + [CapReached(delivered)]), src');
    } else {
      var d := w.sent[delivered];
      var src1 := ServeOrders(handle, depth, w, d.0, d.1, src);
      src' := DrainOrders(handle, depth, Serve(handle, depth, w, d.0, d.1).value, delivered + 1, src1);
    }
  }

  lemma BeginOrders<M>(handle: Handler<M>, depth: nat, machines: map<MachineId, M>,
                       subs: map<EventName, seq<MachineId>>, ev: RouteIn<M>)
    returns (src: Sources)
    requires Begin(handle, depth, machines, subs, ev).Some?
    ensures Ordered(Begin(handle, depth, machines, subs, ev).value, src)
  {
    var start := Work(machines, subs, [], [], []);
    var begun := Begin(handle, depth, machines, subs, ev).value;
    src := [];
    NothingDone(start, []);
    match ev {
      case HostDispatch(name, payload, mode) =>
        src := DispatchSources(handle, depth, start, HOST, name, payload, mode, []);
        OrderedOn(start, [], begun, src);
      case Unmount(id) =>
        if id in machines {
          src := DisposeOrders(handle, depth, machines, subs, id);
        } else {
          src := [None];
          NothingDone(begun, src);
        }
      case _ => NothingDone(begun, src);
    }
  }

  lemma NothingDone<M>(w: Work<M>, src: Sources)
    requires w.calls == [] && |src| == |w.results|
    requires forall r | 0 <= r < |src| :: src[r] == None && IsReport(w.results[r])
    ensures Ordered(w, src)
  {
  }

  lemma DisposeOrders<M>(handle: Handler<M>, depth: nat, machines: map<MachineId, M>,
                         subs: map<EventName, seq<MachineId>>, id: MachineId)
    returns (src: Sources)
    requires id in machines && Begin(handle, depth, machines, subs, RouteIn<M>.Unmount(id)).Some?
    ensures Ordered(Begin(handle, depth, machines, subs, RouteIn<M>.Unmount(id)).value, src)
  {
    var outs := handle(machines[id], DisposeRequested).1;
    var start := Work(machines - {id}, subs, [], [], []);
    var gone := start.(calls := [Invocation(id, DisposeRequested, outs, true)]);
    src := CallSources(handle, depth, start, gone, id, outs, []);
    var absorbed := Absorb(handle, depth, gone, id, outs).value;
    NothingDone(start, []);
    OrderedOn(start, [], absorbed, src);
    SubsApart(absorbed, Settle<M>(absorbed.subs, id), src);
  }

  /** Subscriptions have no part in it. */
  lemma SubsApart<M>(w: Work<M>, subs: map<EventName, seq<MachineId>>, src: Sources)
    requires Ordered(w, src)
    ensures Ordered(w.(subs := subs), src)
  {
    forall i | 0 <= i < |w.calls|
      ensures HasAll(w.(subs := subs), src, i)
    {
      assert HasAll(w, src, i);
    }
  }

  /** Over a whole step. */
  lemma StepKeepsOrder<M>(handle: Handler<M>, depth: nat, machines: map<MachineId, M>,
                          subs: map<EventName, seq<MachineId>>, ev: RouteIn<M>)
    returns (src: Sources)
    requires Step(handle, depth, machines, subs, ev).Some?
    ensures var w := Step(handle, depth, machines, subs, ev).value;
      Ordered(w, src) && forall i | 0 <= i < |w.calls| :: ShowsAll(w, src, i)
  {
    var begun := BeginOrders(handle, depth, machines, subs, ev);
    src := DrainOrders(handle, depth, Begin(handle, depth, machines, subs, ev).value, 0, begun);
    var w := Step(handle, depth, machines, subs, ev).value;
    forall i | 0 <= i < |w.calls|
      ensures ShowsAll(w, src, i)
    {
      assert HasAll(w, src, i);
      FiledShows(w.calls[i].to, w.calls[i].outs);
    }
  }
}
