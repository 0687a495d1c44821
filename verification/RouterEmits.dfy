/** Whom a step's emits reach: what the machines say is kept in a journal, and the queue and the subscriptions are
    told from it. */
module RouterEmits {
  import opened Json
  import opened RouterSpec
  import opened RouterOrder
  import opened Seqs

  /** What was said and by which invocation, the host being none of them; and a machine that left. */
  datatype Entry = Said(call: Option<nat>, from: MachineId, out: MachineOut) | Left(id: MachineId)

  type Journal = seq<Entry>

  type Subscriptions = map<EventName, seq<MachineId>>

  /** An output that has to do with events. */
  predicate Steers(out: MachineOut) {
    out.Dispatch? || out.Subscribe? || out.Unsubscribe?
  }

  function Steering(outs: seq<MachineOut>): seq<MachineOut> {
    if outs == [] then [] else (if Steers(outs[0]) then [outs[0]] else []) + Steering(outs[1..])
  }

  /** What the journal holds of one invocation. */
  function Spoken(j: Journal, i: nat): seq<MachineOut> {
    if j == [] then []
    else
      var last := j[|j| - 1];
      Spoken(j[..|j| - 1], i) + if last.Said? && last.call == Some(i) then [last.out] else []
  }

  /** What nobody's invocation said or did. */
  function Outside(j: Journal): Journal {
    if j == [] then []
    else
      var last := j[|j| - 1];
      Outside(j[..|j| - 1]) + if last.Left? || last.call == None then [last] else []
  }

  function Dropped(ids: seq<MachineId>, id: MachineId): seq<MachineId> {
    if ids == [] then [] else (if ids[0] == id then [] else [ids[0]]) + Dropped(ids[1..], id)
  }

  /** Who is subscribed to a name after all that: in the order of subscription, each once. */
  function Roster(first: Subscriptions, j: Journal, name: EventName): seq<MachineId> {
    if j == [] then (if name in first then first[name] else [])
    else
      var before := Roster(first, j[..|j| - 1], name);
      match j[|j| - 1]
      case Said(_, from, Subscribe(n)) => if n == name && from !in before then before + [from] else before
      case Said(_, from, Unsubscribe(n)) => if n == name then Dropped(before, from) else before
      case Left(id) => Dropped(before, id)
      case _ => before
  }

  /** One delivery of the event to each. */
  function ToEach(ids: seq<MachineId>, name: EventName, payload: Value): seq<Delivery> {
    if ids == [] then [] else [(ids[0], Event(name, payload))] + ToEach(ids[1..], name, payload)
  }

  /** What the emits of the journal queue: each to everyone who is subscribed at that point. */
  function Reached(first: Subscriptions, j: Journal): seq<Delivery> {
    if j == [] then []
    else
      var n := |j| - 1;
      Reached(first, j[..n]) +
      match j[n]
      case Said(_, _, Dispatch(name, payload, Emit)) => ToEach(Roster(first, j[..n], name), name, payload)
      case _ => []
  }

  /** The events in the queue, in their order. */
  function EventsOf(sent: seq<Delivery>): seq<Delivery> {
    if sent == [] then []
    else
      var last := sent[|sent| - 1];
      EventsOf(sent[..|sent| - 1]) + if last.1.Event? then [last] else []
  }

  /** Queue and subscriptions are as the journal tells, but for what the input itself delivers. */
  ghost predicate Told<M>(first: Subscriptions, given: seq<Delivery>, w: Work<M>, j: Journal) {
    EventsOf(w.sent) == given + Reached(first, j) && SubsTold(first, w.subs, j) && AllSigned(w, j)
  }

  ghost predicate SubsTold(first: Subscriptions, subs: Subscriptions, j: Journal) {
    forall name :: Roster(first, j, name) == if name in subs then subs[name] else []
  }

  ghost predicate AllSigned<M>(w: Work<M>, j: Journal) {
    forall k | 0 <= k < |j| :: Signed(w, j[k])
  }

  /** An entry bears the name of the machine that was invoked. */
  predicate Signed<M>(w: Work<M>, e: Entry) {
    e.Said? ==>
      && Steers(e.out)
      && if e.call.Some? then e.call.value < |w.calls| && e.from == w.calls[e.call.value].to else e.from == HOST
  }

  ghost predicate SpokeAll<M>(w: Work<M>, j: Journal, i: nat)
    requires i < |w.calls|
  {
    Spoken(j, i) == Steering(w.calls[i].outs)
  }

  // ----- small facts -----

  lemma {:induction false} DroppedIsWithout(ids: seq<MachineId>, id: MachineId)
    ensures Dropped(ids, id) == Without(ids, id)
  {
    if ids != [] {
      var n := |ids| - 1;
      DroppedIsWithout(ids[..n], id);
      DroppedMore(ids[..n], ids[n], id);
      assert ids == ids[..n] + [ids[n]];
    }
  }

  lemma {:induction false} DroppedMore(ids: seq<MachineId>, last: MachineId, id: MachineId)
    ensures Dropped(ids + [last], id) == Dropped(ids, id) + if last == id then [] else [last]
  {
    if ids == [] {
      assert [] + [last] == [last] && [last][1..] == [];
    } else {
      DroppedMore(ids[1..], last, id);
      assert (ids + [last])[0] == ids[0] && (ids + [last])[1..] == ids[1..] + [last];
      Associate(if ids[0] == id then [] else [ids[0]], Dropped(ids[1..], id), if last == id then [] else [last]);
    }
  }

  lemma {:induction false} EventsReach(sent: seq<Delivery>, ids: seq<MachineId>, name: EventName, payload: Value)
    ensures EventsOf(sent + FanOut(ids, Event(name, payload))) == EventsOf(sent) + ToEach(ids, name, payload)
    decreases |ids|
  {
    var ev := Event(name, payload);
    if ids == [] {
      assert sent + FanOut(ids, ev) == sent;
    } else {
      EventMore(sent, (ids[0], ev));
      EventsReach(sent + [(ids[0], ev)], ids[1..], name, payload);
      assert sent + FanOut(ids, ev) == (sent + [(ids[0], ev)]) + FanOut(ids[1..], ev);
      assert EventsOf(sent) + [(ids[0], ev)] + ToEach(ids[1..], name, payload)
        == EventsOf(sent) + ([(ids[0], ev)] + ToEach(ids[1..], name, payload));
    }
  }

  lemma EventMore(sent: seq<Delivery>, d: Delivery)
    ensures EventsOf(sent + [d]) == EventsOf(sent) + if d.1.Event? then [d] else []
  {
    assert (sent + [d])[..|sent|] == sent;
  }

  /** One more entry. */
  lemma EntryMore(j: Journal, e: Entry, i: nat)
    ensures Spoken(j + [e], i) == Spoken(j, i) + if e.Said? && e.call == Some(i) then [e.out] else []
    ensures Outside(j + [e]) == Outside(j) + if e.Left? || e.call == None then [e] else []
  {
    assert (j + [e])[..|j|] == j;
  }

  lemma {:induction false} SpokenSame(j: Journal, j': Journal, i: nat)
    requires j <= j' && forall k | |j| <= k < |j'| :: !(j'[k].Said? && j'[k].call == Some(i))
    ensures Spoken(j', i) == Spoken(j, i)
  {
    if |j| < |j'| {
      SpokenSame(j, j'[..|j'| - 1], i);
    } else {
      assert j == j';
    }
  }

  lemma {:induction false} SpokenNothing(j: Journal, i: nat)
    requires forall k | 0 <= k < |j| :: !(j[k].Said? && j[k].call == Some(i))
    ensures Spoken(j, i) == []
  {
    if j != [] {
      SpokenNothing(j[..|j| - 1], i);
    }
  }

  lemma {:induction false} OutsideSame(j: Journal, j': Journal)
    requires j <= j' && forall k | |j| <= k < |j'| :: j'[k].Said? && j'[k].call.Some?
    ensures Outside(j') == Outside(j)
  {
    if |j| < |j'| {
      OutsideSame(j, j'[..|j'| - 1]);
    } else {
      assert j == j';
    }
  }

  lemma {:induction false} SteeringMore(outs: seq<MachineOut>, out: MachineOut)
    ensures Steering(outs + [out]) == Steering(outs) + if Steers(out) then [out] else []
  {
    if outs == [] {
      assert [] + [out] == [out] && [out][1..] == [];
    } else {
      SteeringMore(outs[1..], out);
      assert (outs + [out])[0] == outs[0] && (outs + [out])[1..] == outs[1..] + [out];
      Associate(if Steers(outs[0]) then [outs[0]] else [], Steering(outs[1..]), if Steers(out) then [out] else []);
    }
  }

  lemma {:induction false} SideSteersAll(outs: seq<MachineOut>)
    ensures Steering(SideOutputs(outs)) == Steering(outs)
  {
    if outs != [] {
      var front, last := outs[..|outs| - 1], outs[|outs| - 1];
      SideSteersAll(front);
      assert outs == front + [last];
      SteeringMore(front, last);
      if last.WaterfallNext? || last.WaterfallReturn? {
        assert SideOutputs(outs) == SideOutputs(front);
      } else {
        SteeringMore(SideOutputs(front), last);
      }
    }
  }

  // ----- one batch -----

  /** What was entered since is `who`'s, or a later invocation's. */
  ghost predicate Continues<M>(w: Work<M>, j: Journal, w': Work<M>, j': Journal, who: Option<nat>) {
    && Grown(w, w') && j <= j' && forall k | |j| <= k < |j'| :: Later(j'[k], who, |w.calls|)
  }

  predicate Later(e: Entry, who: Option<nat>, n: nat) {
    e.Said? && e.call.Some? && (e.call == who || e.call.value >= n)
  }

  /** The invocations from `lo` up to `hi` have had their say, and were chain turns. */
  ghost predicate Heard<M>(w: Work<M>, j: Journal, lo: nat, hi: nat)
    requires hi <= |w.calls|
  {
    forall i | lo <= i < hi :: SpokeAll(w, j, i) && w.calls[i].inline
  }

  lemma ContinuesKeeps<M>(w: Work<M>, j: Journal, w': Work<M>, j': Journal, who: Option<nat>, i: nat)
    requires Continues(w, j, w', j', who) && i < |w.calls| && who != Some(i)
    ensures Spoken(j', i) == Spoken(j, i) && (SpokeAll(w, j, i) ==> SpokeAll(w', j', i))
  {
    SpokenSame(j, j', i);
  }

  lemma HeardStays<M>(w: Work<M>, j: Journal, w': Work<M>, j': Journal, who: Option<nat>, lo: nat)
    requires Continues(w, j, w', j', who) && (who.Some? ==> who.value < lo) && Heard(w, j, lo, |w.calls|)
    ensures Heard(w', j', lo, |w.calls|)
  {
    forall i | lo <= i < |w.calls|
      ensures SpokeAll(w', j', i)
    {
      ContinuesKeeps(w, j, w', j', who, i);
    }
  }

  lemma ContinuesOn<M>(w: Work<M>, j: Journal, w1: Work<M>, j1: Journal, w2: Work<M>, j2: Journal,
                       who1: Option<nat>, who2: Option<nat>, who: Option<nat>)
    requires Continues(w, j, w1, j1, who1) && Continues(w1, j1, w2, j2, who2)
    requires who1 == None || who1 == who || who1.value >= |w.calls|
    requires who2 == None || who2 == who || who2.value >= |w.calls|
    ensures Continues(w, j, w2, j2, who)
  {
    forall k | |j| <= k < |j2|
      ensures Later(j2[k], who, |w.calls|)
    {
      if k < |j1| {
        assert j2[k] == j1[k];
      }
    }
  }

  predicate Signs<M>(w: Work<M>, call: Option<nat>, from: MachineId) {
    if call.Some? then call.value < |w.calls| && w.calls[call.value].to == from else from == HOST
  }

  /** An emit is entered, and queued for everyone subscribed. */
  lemma SayEmit<M>(first: Subscriptions, given: seq<Delivery>, w: Work<M>, j: Journal, call: Option<nat>,
                   from: MachineId, out: MachineOut)
    requires Told(first, given, w, j) && Signs(w, call, from) && out.Dispatch? && out.mode.Emit?
    ensures
      var ids := Subscribers(w.subs, out.name);
      var next := w.(sent := w.sent + FanOut(ids, Event(out.name, out.payload)));
      Told(first, given, next, j + [Said(call, from, out)])
  {
    var j' := j + [Said(call, from, out)];
    assert j'[..|j|] == j;
    var ids := Subscribers(w.subs, out.name);
    EventsReach(w.sent, ids, out.name, out.payload);
    Associate(given, Reached(first, j), ToEach(ids, out.name, out.payload));
    assert Reached(first, j') == Reached(first, j) + ToEach(ids, out.name, out.payload);
  }

  /** A subscription that comes or goes is entered. */
  lemma SaySubs<M>(first: Subscriptions, given: seq<Delivery>, w: Work<M>, j: Journal, call: Option<nat>,
                   from: MachineId, out: MachineOut)
    requires Told(first, given, w, j) && Signs(w, call, from) && (out.Subscribe? || out.Unsubscribe?)
    ensures Told(first, given, WithSubs(w, from, out), j + [Said(call, from, out)])
  {
    var j' := j + [Said(call, from, out)];
    assert j'[..|j|] == j;
    assert Reached(first, j') == Reached(first, j) + [] == Reached(first, j);
    SubsSaid(first, w, j, call, from, out);
  }

  lemma SubsSaid<M>(first: Subscriptions, w: Work<M>, j: Journal, call: Option<nat>, from: MachineId, out: MachineOut)
    requires SubsTold(first, w.subs, j) && (out.Subscribe? || out.Unsubscribe?)
    ensures SubsTold(first, WithSubs(w, from, out).subs, j + [Said(call, from, out)])
  {
    assert (j + [Said(call, from, out)])[..|j|] == j;
    if out.Unsubscribe? && out.name in w.subs {
      DroppedIsWithout(w.subs[out.name], from);
    }
  }

  /** A chain that is started is entered first. */
  lemma SayChain<M>(first: Subscriptions, given: seq<Delivery>, w: Work<M>, j: Journal, call: Option<nat>,
                    from: MachineId, out: MachineOut)
    requires Told(first, given, w, j) && Signs(w, call, from) && out.Dispatch? && !out.mode.Emit?
    ensures Told(first, given, w, j + [Said(call, from, out)])
  {
    var j' := j + [Said(call, from, out)];
    assert j'[..|j|] == j;
    assert Reached(first, j') == Reached(first, j) + [] == Reached(first, j);
  }

  /** An output's own work, and then the rest of its batch. */
  lemma BatchSays<M>(w: Work<M>, j: Journal, next: Work<M>, j1: Journal, w': Work<M>, j': Journal, c: nat,
                     head: seq<MachineOut>, rest: seq<MachineOut>)
    requires Continues(w, j, next, j1, Some(c)) && Continues(next, j1, w', j', Some(c)) && c < |w.calls|
    requires Heard(next, j1, |w.calls|, |next.calls|) && Heard(w', j', |next.calls|, |w'.calls|)
    requires Spoken(j1, c) == Spoken(j, c) + head && Spoken(j', c) == Spoken(j1, c) + rest
    ensures Continues(w, j, w', j', Some(c)) && Heard(w', j', |w.calls|, |w'.calls|)
    ensures Spoken(j', c) == Spoken(j, c) + (head + rest)
  {
    ContinuesOn(w, j, next, j1, w', j', Some(c), Some(c), Some(c));
    HeardStays(next, j1, w', j', Some(c), |w.calls|);
    Associate(Spoken(j, c), head, rest);
  }

  lemma {:induction false} AbsorbTells<M>(first: Subscriptions, given: seq<Delivery>, handle: Handler<M>, depth: nat,
                                          w: Work<M>, from: MachineId, outs: seq<MachineOut>, j: Journal, c: nat)
    returns (j': Journal)
    requires Absorb(handle, depth, w, from, outs).Some? && Told(first, given, w, j)
    requires c < |w.calls| && w.calls[c].to == from
    ensures var w' := Absorb(handle, depth, w, from, outs).value;
      && Told(first, given, w', j') && Continues(w, j, w', j', Some(c)) && Heard(w', j', |w.calls|, |w'.calls|)
      && Spoken(j', c) == Spoken(j, c) + Steering(outs)
    decreases depth, 2, |outs|
  {
    if outs == [] {
      j' := j;
    } else {
      var next, j1 := FirstTells(first, given, handle, depth, w, from, outs, j, c);
      j' := AbsorbTells(first, given, handle, depth, next, from, outs[1..], j1, c);
      var w' := Absorb(handle, depth, next, from, outs[1..]).value;
      BatchSays(w, j, next, j1, w', j', c, if Steers(outs[0]) then [outs[0]] else [], Steering(outs[1..]));
    }
  }

  lemma {:induction false} FirstTells<M>(first: Subscriptions, given: seq<Delivery>, handle: Handler<M>, depth: nat,
                                         w: Work<M>, from: MachineId, outs: seq<MachineOut>, j: Journal, c: nat)
    returns (next: Work<M>, j': Journal)
    requires outs != [] && Absorb(handle, depth, w, from, outs).Some? && Told(first, given, w, j)
    requires c < |w.calls| && w.calls[c].to == from
    ensures Absorb(handle, depth, w, from, outs) == Absorb(handle, depth, next, from, outs[1..])
    ensures c < |next.calls| && next.calls[c].to == from
    ensures Told(first, given, next, j') && Continues(w, j, next, j', Some(c))
      && Heard(next, j', |w.calls|, |next.calls|)
    ensures Spoken(j', c) == Spoken(j, c) + if Steers(outs[0]) then [outs[0]] else []
    decreases depth, 1, 1
  {
    if outs[0].Dispatch? {
      next, j' := DispatchTells(first, given, handle, depth, w, from, outs[0], j, Some(c));
      OwnEntry(w, j, next, j', c, outs[0]);
    } else {
      next, j' := FiledTells(first, given, w, from, outs[0], j, c);
    }
  }

  lemma FiledTells<M>(first: Subscriptions, given: seq<Delivery>, w: Work<M>, from: MachineId, out: MachineOut,
                      j: Journal, c: nat)
    returns (next: Work<M>, j': Journal)
    requires Told(first, given, w, j) && c < |w.calls| && w.calls[c].to == from && !out.Dispatch?
    ensures next == WithSubs(w, from, out).(results := w.results + Filed(from, out)) && next.calls == w.calls
    ensures Told(first, given, next, j') && Continues(w, j, next, j', Some(c))
    ensures Spoken(j', c) == Spoken(j, c) + if Steers(out) then [out] else []
  {
    var filed := WithSubs(w, from, out);
    next := filed.(results := w.results + Filed(from, out));
    j' := j;
    if Steers(out) {
      var e := Said(Some(c), from, out);
      j' := j + [e];
      SaySubs(first, given, w, j, Some(c), from, out);
      EntryMore(j, e, c);
    }
    assert AllSigned(next, j');
  }

  /** The entry of an invocation's own dispatch, and behind it only later ones. */
  lemma OwnEntry<M>(w: Work<M>, j: Journal, next: Work<M>, j': Journal, c: nat, out: MachineOut)
    requires c < |w.calls| && Grown(w, next) && j + [Said(Some(c), w.calls[c].to, out)] <= j'
    requires forall k | |j| < k < |j'| :: Later(j'[k], None, |w.calls|)
    ensures Continues(w, j, next, j', Some(c)) && Spoken(j', c) == Spoken(j, c) + [out]
  {
    var e := Said(Some(c), w.calls[c].to, out);
    EntryMore(j, e, c);
    SpokenSame(j + [e], j', c);
  }

  lemma {:induction false} DispatchTells<M>(first: Subscriptions, given: seq<Delivery>, handle: Handler<M>, depth: nat,
                                            w: Work<M>, from: MachineId, out: MachineOut, j: Journal, call: Option<nat>)
    returns (next: Work<M>, j': Journal)
    requires out.Dispatch? && DispatchFrom(handle, depth, w, from, out.name, out.payload, out.mode).Some?
    requires Told(first, given, w, j) && Signs(w, call, from)
    ensures Some(next) == DispatchFrom(handle, depth, w, from, out.name, out.payload, out.mode)
    ensures Told(first, given, next, j') && Grown(w, next) && Heard(next, j', |w.calls|, |next.calls|)
    ensures j + [Said(call, from, out)] <= j'
    ensures forall k | |j| < k < |j'| :: Later(j'[k], None, |w.calls|)
    decreases depth, 1, 0
  {
    next := DispatchFrom(handle, depth, w, from, out.name, out.payload, out.mode).value;
    j' := j + [Said(call, from, out)];
    if out.mode.Emit? {
      SayEmit(first, given, w, j, call, from, out);
    } else {
      SayChain(first, given, w, j, call, from, out);
      j' :=
        ChainTells(first, given, handle, depth, w, out.mode, out.name, out.payload, Subscribers(w.subs, out.name), j');
      var (after, value) :=
        Chain(handle, depth, w, out.mode, out.name, out.payload, Subscribers(w.subs, out.name)).value;
      AnswerTells(first, given, after, j', from, out.name, value, |w.calls|);
    }
  }

  /** The answer of a chain is no event. */
  lemma AnswerTells<M>(first: Subscriptions, given: seq<Delivery>, w: Work<M>, j: Journal, from: MachineId,
                       name: EventName, value: Value, lo: nat)
    requires Told(first, given, w, j) && lo <= |w.calls| && Heard(w, j, lo, |w.calls|)
    ensures
      var next := w.(sent := w.sent + [(from, DispatchResult(name, value))]);
      Told(first, given, next, j) && Heard(next, j, lo, |w.calls|)
  {
    EventMore(w.sent, (from, DispatchResult(name, value)));
    var next := w.(sent := w.sent + [(from, DispatchResult(name, value))]);
    assert AllSigned(next, j);
    assert forall i | lo <= i < |w.calls| :: SpokeAll(w, j, i) ==> SpokeAll(next, j, i);
  }

  lemma {:induction false} ChainTells<M>(first: Subscriptions, given: seq<Delivery>, handle: Handler<M>, depth: nat,
                                         w: Work<M>, mode: Mode, name: EventName, value: Value, ids: seq<MachineId>,
                                         j: Journal)
    returns (j': Journal)
    requires Chain(handle, depth, w, mode, name, value, ids).Some? && Told(first, given, w, j)
    ensures var w' := Chain(handle, depth, w, mode, name, value, ids).value.0;
      Told(first, given, w', j') && Continues(w, j, w', j', None) && Heard(w', j', |w.calls|, |w'.calls|)
    decreases depth, 0, |ids|
  {
    j' := j;
    if ids != [] {
      var w' := Chain(handle, depth, w, mode, name, value, ids).value.0;
      if ids[0] !in w.machines {
        var missed := w.(results := w.results + [UnknownTarget(ids[0])]);
        j' := ChainTells(first, given, handle, depth, missed, mode, name, value, ids[1..], j);
        ContinuesOn(w, j, missed, j, w', j', None, None, None);
      } else {
        var turn, j1 := TurnTells(first, given, handle, depth, w, ids[0], TurnInput(mode, name, value), j);
        var verdict := VerdictOf(Invoke(handle, w, ids[0], TurnInput(mode, name, value), true).1);
        j' := j1;
        if verdict.Continue? {
          j' := ChainTells(first, given, handle, depth, turn, mode, name, verdict.value, ids[1..], j1);
          HeardStays(turn, j1, w', j', None, |w.calls|);
          ContinuesOn(w, j, turn, j1, w', j', None, None, None);
        }
      }
    }
  }

  lemma {:induction false} TurnTells<M>(first: Subscriptions, given: seq<Delivery>, handle: Handler<M>, depth: nat,
                                        w: Work<M>, id: MachineId, input: MachineIn, j: Journal)
    returns (turn: Work<M>, j': Journal)
    requires depth > 0 && id in w.machines && Told(first, given, w, j)
    requires
      var called := Invoke(handle, w, id, input, true);
      Absorb(handle, depth - 1, called.0, id, SideOutputs(called.1)).Some?
    ensures
      var called := Invoke(handle, w, id, input, true);
      Some(turn) == Absorb(handle, depth - 1, called.0, id, SideOutputs(called.1))
    ensures Told(first, given, turn, j') && Continues(w, j, turn, j', None) && Heard(turn, j', |w.calls|, |turn.calls|)
    decreases depth - 1, 4, 0
  {
    var called := Invoke(handle, w, id, input, true);
    turn := Absorb(handle, depth - 1, called.0, id, SideOutputs(called.1)).value;
    SideSteersAll(called.1);
    j' := CallTells(first, given, handle, depth - 1, w, called.0, id, SideOutputs(called.1), j);
    assert turn.calls[|w.calls|] == called.0.calls[|w.calls|];
  }

  /** An invocation just recorded, with everything it leads to. */
  lemma {:induction false} CallTells<M>(first: Subscriptions, given: seq<Delivery>, handle: Handler<M>, depth: nat,
                                        w: Work<M>, called: Work<M>, from: MachineId, outs: seq<MachineOut>, j: Journal)
    returns (j': Journal)
    requires Told(first, given, w, j) && Recorded(w, called)
    requires called.calls[|w.calls|].to == from && Steering(called.calls[|w.calls|].outs) == Steering(outs)
    requires Absorb(handle, depth, called, from, outs).Some?
    ensures var w' := Absorb(handle, depth, called, from, outs).value;
      && Told(first, given, w', j') && Continues(w, j, w', j', None) && |w'.calls| > |w.calls|
      && w'.calls[|w.calls|] == called.calls[|w.calls|]
      && SpokeAll(w', j', |w.calls|) && Heard(w', j', |w.calls| + 1, |w'.calls|)
    decreases depth, 3, 0
  {
    var n := |w.calls|;
    SpokenNothing(j, n);
    RecordedTold(first, given, w, called, j);
    j' := AbsorbTells(first, given, handle, depth, called, from, outs, j, n);
    var w' := Absorb(handle, depth, called, from, outs).value;
    assert Continues(w, j, called, j, None);
    ContinuesOn(w, j, called, j, w', j', None, Some(n), None);
    assert w'.calls[n] == called.calls[n];
  }

  /** One invocation more, and nothing else a journal could tell. */
  ghost predicate Recorded<M>(w: Work<M>, called: Work<M>) {
    && Grown(w, called) && called.results == w.results && called.sent == w.sent && called.subs == w.subs
    && |called.calls| == |w.calls| + 1
  }

  lemma RecordedTold<M>(first: Subscriptions, given: seq<Delivery>, w: Work<M>, called: Work<M>, j: Journal)
    requires Told(first, given, w, j) && Recorded(w, called)
    ensures Told(first, given, called, j)
  {
    forall k | 0 <= k < |j|
      ensures Signed(called, j[k])
    {
      assert Signed(w, j[k]);
    }
  }

  // ----- a whole step -----

  /** Of two entries the later one never belongs to an earlier delivery. */
  ghost predicate ByDelivery(calls: seq<Invocation>, j: Journal) {
    forall r, q | 0 <= r < q < |j| && j[r].Said? && j[r].call.Some? && j[q].Said? && j[q].call.Some? ::
      OneDelivery(calls, j[q].call.value, j[r].call.value)
  }

  /** The journal is complete: it holds of every invocation just what it said, in that order and delivery by delivery,
      and besides only what came from outside. */
  ghost predicate Complete<M>(w: Work<M>, j: Journal, outside: Journal) {
    && (forall i | 0 <= i < |w.calls| :: SpokeAll(w, j, i)) && ByDelivery(w.calls, j) && Outside(j) == outside
  }

  lemma CompleteOn<M>(w: Work<M>, j: Journal, w': Work<M>, j': Journal, outside: Journal)
    requires Complete(w, j, outside) && Continues(w, j, w', j', None)
    requires AllSigned(w, j)
    requires |w'.calls| > |w.calls| ==> SpokeAll(w', j', |w.calls|) && Heard(w', j', |w.calls| + 1, |w'.calls|)
    ensures Complete(w', j', outside)
  {
    OutsideSame(j, j');
    ByDeliveryOn(w, j, w', j');
    forall i | 0 <= i < |w'.calls|
      ensures SpokeAll(w', j', i)
    {
      if i < |w.calls| {
        ContinuesKeeps(w, j, w', j', None, i);
      }
    }
  }

  lemma ByDeliveryOn<M>(w: Work<M>, j: Journal, w': Work<M>, j': Journal)
    requires ByDelivery(w.calls, j) && Continues(w, j, w', j', None)
    requires AllSigned(w, j)
    requires forall i | |w.calls| < i < |w'.calls| :: w'.calls[i].inline
    ensures ByDelivery(w'.calls, j')
  {
    forall r, q | 0 <= r < q < |j'| && j'[r].Said? && j'[r].call.Some? && j'[q].Said? && j'[q].call.Some?
      ensures OneDelivery(w'.calls, j'[q].call.value, j'[r].call.value)
    {
      if q < |j| {
        assert j'[r] == j[r] && j'[q] == j[q] && Signed(w, j[r]);
        assert OneDelivery(w.calls, j[q].call.value, j[r].call.value);
      } else {
        assert j'[q].call.value >= |w.calls|;
        if r < |j| {
          assert j'[r] == j[r] && Signed(w, j[r]);
        }
      }
    }
  }

  lemma ServeTells<M>(first: Subscriptions, given: seq<Delivery>, handle: Handler<M>, depth: nat, w: Work<M>,
                      to: MachineId, input: MachineIn, j: Journal, outside: Journal) returns (j': Journal)
    requires Serve(handle, depth, w, to, input).Some? && Told(first, given, w, j) && Complete(w, j, outside)
    ensures var w' := Serve(handle, depth, w, to, input).value; Told(first, given, w', j') && Complete(w', j', outside)
  {
    var w' := Serve(handle, depth, w, to, input).value;
    j' := j;
    if to in w.machines {
      var called := Invoke(handle, w, to, input, false);
      j' := CallTells(first, given, handle, depth, w, called.0, to, called.1, j);
    }
    CompleteOn(w, j, w', j', outside);
  }

  /** A report says nothing that steers. */
  lemma ReportTells<M>(first: Subscriptions, given: seq<Delivery>, w: Work<M>, j: Journal, r: RouteOut,
                       outside: Journal)
    requires Told(first, given, w, j) && Complete(w, j, outside)
    ensures
      var next := w.(results := w.results + [r]);
      Told(first, given, next, j) && Complete(next, j, outside)
  {
    var next := w.(results := w.results + [r]);
    assert AllSigned(next, j);
    CompleteOn(w, j, next, j, outside);
  }

  lemma {:induction false} DrainTells<M>(first: Subscriptions, given: seq<Delivery>, handle: Handler<M>, depth: nat,
                                         w: Work<M>, delivered: nat, j: Journal, outside: Journal) returns (j': Journal)
    requires delivered <= MAX_DELIVERIES_PER_STEP && delivered <= |w.sent|
    requires Drain(handle, depth, w, delivered).Some? && Told(first, given, w, j) && Complete(w, j, outside)
    ensures var w' := Drain(handle, depth, w, delivered).value;
      Told(first, given, w', j') && Complete(w', j', outside)
    decreases MAX_DELIVERIES_PER_STEP - delivered
  {
    if delivered == |w.sent| {
      j' := j;
    } else if delivered == MAX_DELIVERIES_PER_STEP {
      j' := j;
      ReportTells(first, given, w, j, CapReached(delivered), outside);
    } else {
      var d := w.sent[delivered];
      var j1 := ServeTells(first, given, handle, depth, w, d.0, d.1, j, outside);
      j' :=
        DrainTells(first, given, handle, depth, Serve(handle, depth, w, d.0, d.1).value, delivered + 1, j1, outside);
    }
  }

  /** What the input itself says, or does to the subscriptions. */
  function FromOutside<M>(ev: RouteIn<M>, ids: set<MachineId>): Journal {
    match ev
    case HostDispatch(name, payload, mode) => [Said(None, HOST, Dispatch(name, payload, mode))]
    case Unmount(id) => if id in ids then [Left(id)] else []
    case _ => []
  }

  /** The event the input itself delivers. */
  function Given<M>(ev: RouteIn<M>): seq<Delivery> {
    if ev.Deliver? && ev.ev.Event? then [(ev.to, ev.ev)] else []
  }

  lemma NothingSaid<M>(first: Subscriptions, w: Work<M>)
    requires w.subs == first && w.calls == []
    ensures Told(first, EventsOf(w.sent), w, []) && Complete(w, [], [])
  {
  }

  lemma BeginTells<M>(handle: Handler<M>, depth: nat, machines: map<MachineId, M>, subs: Subscriptions, ev: RouteIn<M>)
    returns (j: Journal)
    requires Begin(handle, depth, machines, subs, ev).Some?
    ensures var w := Begin(handle, depth, machines, subs, ev).value;
      Told(subs, Given(ev), w, j) && Complete(w, j, FromOutside(ev, machines.Keys))
  {
    var start := Work(machines, subs, [], [], []);
    var begun := Begin(handle, depth, machines, subs, ev).value;
    j := [];
    NothingSaid(subs, start);
    match ev {
      case HostDispatch(name, payload, mode) => j := HostTells(handle, depth, start, name, payload, mode);
      case Unmount(id) =>
        if id in machines {
          j := DisposeTells(handle, depth, machines, subs, id);
        } else {
          NothingSaid(subs, begun);
        }
      case Deliver(to, input) =>
        EventMore([], (to, input));
        assert [] + [(to, input)] == [(to, input)];
        NothingSaid(subs, begun);
      case Mount(id, _) =>
        EventMore([], (id, ServicesReady));
        assert [] + [(id, ServicesReady)] == [(id, ServicesReady)];
        NothingSaid(subs, begun);
    }
  }

  lemma HostTells<M>(handle: Handler<M>, depth: nat, start: Work<M>, name: EventName, payload: Value, mode: Mode)
    returns (j: Journal)
    requires start.sent == [] && start.calls == []
      && DispatchFrom(handle, depth, start, HOST, name, payload, mode).Some?
    ensures var w := DispatchFrom(handle, depth, start, HOST, name, payload, mode).value;
      Told(start.subs, [], w, j) && Complete(w, j, [Said(None, HOST, Dispatch(name, payload, mode))])
  {
    NothingSaid(start.subs, start);
    var next;
    next, j := DispatchTells(start.subs, [], handle, depth, start, HOST, Dispatch(name, payload, mode), [], None);
    HostFirst(next, Said(None, HOST, Dispatch(name, payload, mode)), j);
  }

  lemma HostFirst<M>(w: Work<M>, e: Entry, j: Journal)
    requires e.Said? && e.call == None && [] + [e] <= j
    requires forall k | 0 < k < |j| :: Later(j[k], None, 0)
    requires Heard(w, j, 0, |w.calls|)
    ensures Complete(w, j, [e])
  {
    assert [] + [e] == [e] && [e][..0] == [];
    assert Outside([e]) == Outside([]) + [e] == [e];
    OutsideSame([e], j);
  }

  lemma DisposeTells<M>(handle: Handler<M>, depth: nat, machines: map<MachineId, M>, subs: Subscriptions, id: MachineId)
    returns (j: Journal)
    requires id in machines && Begin(handle, depth, machines, subs, RouteIn<M>.Unmount(id)).Some?
    ensures var w := Begin(handle, depth, machines, subs, RouteIn<M>.Unmount(id)).value;
      Told(subs, [], w, j) && Complete(w, j, [Left(id)])
  {
    var outs := handle(machines[id], DisposeRequested).1;
    var start := Work(machines - {id}, subs, [], [], []);
    var gone := start.(calls := [Invocation(id, DisposeRequested, outs, true)]);
    NothingSaid(subs, start);
    var j1 := CallTells(subs, [], handle, depth, start, gone, id, outs, []);
    var absorbed := Absorb(handle, depth, gone, id, outs).value;
    CompleteOn(start, [], absorbed, j1, []);
    j := j1 + [Left(id)];
    LeaveTells(subs, absorbed, j1, id);
  }

  lemma LeaveTells<M>(first: Subscriptions, w: Work<M>, j: Journal, id: MachineId)
    requires Told(first, [], w, j) && Complete(w, j, [])
    ensures
      var w' := w.(subs := Settle<M>(w.subs, id));
      Told(first, [], w', j + [Left(id)]) && Complete(w', j + [Left(id)], [Left(id)])
  {
    var j', w' := j + [Left(id)], w.(subs := Settle<M>(w.subs, id));
    assert j'[..|j|] == j;
    assert Reached(first, j') == Reached(first, j);
    forall name
      ensures Roster(first, j', name) == if name in w'.subs then w'.subs[name] else []
    {
      if name in w.subs {
        DroppedIsWithout(w.subs[name], id);
      }
    }
    forall k | 0 <= k < |j'|
      ensures Signed(w', j'[k])
    {
      if k < |j| {
        assert Signed(w, j[k]);
      }
    }
    forall i | 0 <= i < |w.calls|
      ensures SpokeAll(w', j', i)
    {
      assert SpokeAll(w, j, i);
      EntryMore(j, Left(id), i);
    }
    EntryMore(j, Left(id), 0);
    assert forall k | 0 <= k < |j| :: j'[k] == j[k];
  }

  /** Over a whole step: the events in the queue are one for each emit and each machine that is then subscribed, in the
      order of emission and subscription, and the one the input itself delivers; and the subscriptions left are those
      that were there, with everyone's changes in the order they came. */
  lemma EmitsReachSubscribers<M>(handle: Handler<M>, depth: nat, machines: map<MachineId, M>, subs: Subscriptions,
                                 ev: RouteIn<M>)
    returns (j: Journal)
    requires Step(handle, depth, machines, subs, ev).Some?
    ensures var w := Step(handle, depth, machines, subs, ev).value;
      Told(subs, Given(ev), w, j) && Complete(w, j, FromOutside(ev, machines.Keys))
  {
    var begun := BeginTells(handle, depth, machines, subs, ev);
    var w := Begin(handle, depth, machines, subs, ev).value;
    j := DrainTells(subs, Given(ev), handle, depth, w, 0, begun, FromOutside(ev, machines.Keys));
  }
}
