/** The effect pump of the host (`AppState::pump`): one input is delivered to one machine,
    and the effects it asks for are carried out and answered until nothing is owed. */
module EffectPump {
  import opened Seqs

  type Effect = (nat, Request)
  datatype Request = Request(body: string)

  datatype Input<Ev, Bytes, Res> = Given(ev: Ev) | Chunk(id: nat, bytes: Bytes) | Answer(id: nat, result: Res)

  /** What one router step hands back. */
  datatype Output<Other> = Realize(id: nat, request: Request) | Frame(frame: Other) | Rest(other: Other)

  const MAX_EFFECTS_PER_INPUT: nat := 256

  /** The requests in a run of outputs, in order. */
  function Requests<O>(outs: seq<Output<O>>): seq<Effect> {
    if outs == [] then []
    else
      var last := outs[|outs| - 1];
      Requests(outs[..|outs| - 1]) + (if last.Realize? then [(last.id, last.request)] else [])
  }

  /** The stream frames, which are routed at once, in order. */
  function Frames<O>(outs: seq<Output<O>>): seq<O> {
    if outs == [] then []
    else Frames(outs[..|outs| - 1]) + (if outs[|outs| - 1].Frame? then [outs[|outs| - 1].frame] else [])
  }

  /** Everything else: what the caller gets. */
  function Terminal<O>(outs: seq<Output<O>>): seq<O> {
    if outs == [] then []
    else Terminal(outs[..|outs| - 1]) + (if outs[|outs| - 1].Rest? then [outs[|outs| - 1].other] else [])
  }

  /** Every output goes to one of the three lists, to the place that is left by those before it. */
  lemma {:induction false} SortedApart<O>(outs: seq<Output<O>>, k: nat)
    requires k < |outs|
    ensures |Requests(outs)| + |Frames(outs)| + |Terminal(outs)| == |outs|
    ensures match outs[k]
      case Realize(id, request) =>
        |Requests(outs[..k])| < |Requests(outs)| && Requests(outs)[|Requests(outs[..k])|] == (id, request)
      case Frame(frame) => |Frames(outs[..k])| < |Frames(outs)| && Frames(outs)[|Frames(outs[..k])|] == frame
      case Rest(other) => |Terminal(outs[..k])| < |Terminal(outs)| && Terminal(outs)[|Terminal(outs[..k])|] == other
  {
    var n := |outs| - 1;
    if k < n {
      SortedApart(outs[..n], k);
      assert outs[..n][k] == outs[k] && outs[..n][..k] == outs[..k];
    } else if n > 0 {
      SortedApart(outs[..n], 0);
    }
  }

  lemma {:induction false} Concat<O>(a: seq<Output<O>>, b: seq<Output<O>>)
    ensures Requests(a + b) == Requests(a) + Requests(b)
    ensures Frames(a + b) == Frames(a) + Frames(b)
    ensures Terminal(a + b) == Terminal(a) + Terminal(b)
  {
    if b == [] {
      assert a + b == a;
    } else {
      var front, last := b[..|b| - 1], b[|b| - 1];
      Concat(a, front);
      assert (a + b)[..|a + b| - 1] == a + front && (a + b)[|a + b| - 1] == last;
      Associate(Requests(a), Requests(front), if last.Realize? then [(last.id, last.request)] else []);
      Associate(Frames(a), Frames(front), if last.Frame? then [last.frame] else []);
      Associate(Terminal(a), Terminal(front), if last.Rest? then [last.other] else []);
    }
  }

  /** What the world did for one effect: the pieces it streamed, and how it ended. */
  datatype Realized<Bytes, Res> = Realized(chunks: seq<Bytes>, result: Res)

  /** The inputs one effect gives rise to: all its chunks, and then its one answer. */
  function Episode<Ev, B, R>(effect: Effect, done: Realized<B, R>): seq<Input<Ev, B, R>> {
    Chunks<Ev, B, R>(effect, done.chunks) + [Answer(effect.0, done.result)]
  }

  function Chunks<Ev, B, R>(effect: Effect, chunks: seq<B>): seq<Input<Ev, B, R>> {
    seq(|chunks|, i requires 0 <= i < |chunks| => Chunk(effect.0, chunks[i]))
  }

  /** Those are its chunks under its id, in order, and last of all its result. */
  lemma EpisodeReads<Ev, B, R>(effect: Effect, done: Realized<B, R>)
    ensures var inputs := Episode<Ev, B, R>(effect, done);
      && |inputs| == |done.chunks| + 1 && inputs[|done.chunks|] == Answer(effect.0, done.result)
      && forall k | 0 <= k < |done.chunks| :: inputs[k] == Chunk(effect.0, done.chunks[k])
  {
  }

  function Episodes<Ev, B, R>(effects: seq<Effect>, done: seq<Realized<B, R>>): seq<Input<Ev, B, R>>
    requires |effects| == |done|
  {
    if effects == [] then []
    else
      var n := |effects| - 1;
      Episodes<Ev, B, R>(effects[..n], done[..n]) + Episode<Ev, B, R>(effects[n], done[n])
  }

  // ----- the two sides of the boundary -----

  /** The machine behind the router, fed `inputs` in order. */
  function Play<S, Ev, B, R, O>(step: (S, Input<Ev, B, R>) -> (S, seq<Output<O>>), s: S,
                                inputs: seq<Input<Ev, B, R>>): (S, seq<Output<O>>) {
    if inputs == [] then (s, [])
    else
      var n := |inputs| - 1;
      var before := Play(step, s, inputs[..n]);
      var after := step(before.0, inputs[n]);
      (after.0, before.1 + after.1)
  }

  /** The world, carrying out `effects` in order. */
  function CarryAll<W, B, R>(carry: (W, Effect) -> (W, Realized<B, R>), w: W, effects: seq<Effect>)
    : (W, seq<Realized<B, R>>)
  {
    if effects == [] then (w, [])
    else
      var n := |effects| - 1;
      var before := CarryAll(carry, w, effects[..n]);
      var after := carry(before.0, effects[n]);
      (after.0, before.1 + [after.1])
  }

  lemma PlayMore<S, Ev, B, R, O>(step: (S, Input<Ev, B, R>) -> (S, seq<Output<O>>), s: S, inputs: seq<Input<Ev, B, R>>,
                                 input: Input<Ev, B, R>)
    ensures Play(step, s, inputs + [input]) ==
      (step(Play(step, s, inputs).0, input).0, Play(step, s, inputs).1 + step(Play(step, s, inputs).0, input).1)
  {
    assert (inputs + [input])[..|inputs|] == inputs;
  }

  lemma {:induction false} PlayConcat<S, Ev, B, R, O>(step: (S, Input<Ev, B, R>) -> (S, seq<Output<O>>), s: S,
                                                      a: seq<Input<Ev, B, R>>, b: seq<Input<Ev, B, R>>)
    ensures Play(step, s, a + b) ==
      (Play(step, Play(step, s, a).0, b).0, Play(step, s, a).1 + Play(step, Play(step, s, a).0, b).1)
  {
    if b == [] {
      assert a + b == a;
      assert Play(step, s, a).1 + [] == Play(step, s, a).1;
    } else {
      var n := |b| - 1;
      PlayConcat(step, s, a, b[..n]);
      assert (a + b)[..|a + b| - 1] == a + b[..n];
      var mid := Play(step, s, a + b[..n]);
      assert Play(step, s, a).1 + (Play(step, Play(step, s, a).0, b[..n]).1 + step(mid.0, b[n]).1)
        == mid.1 + step(mid.0, b[n]).1;
    }
  }

  /** One pump: what was delivered, what came back, and which effects were carried out. */
  datatype Transcript<Ev, B, R, O> = Transcript(
    inputs: seq<Input<Ev, B, R>>, outputs: seq<Output<O>>, carried: seq<Effect>, done: seq<Realized<B, R>>)

  /** Effects are carried out in the order they were asked for, never more than the cap, and
      fewer than were asked for only at the cap.  The machine sees the input first and then,
      effect by effect, all chunks and the one answer under that effect's id: no other effect
      starts in between. */
  ghost predicate Faithful<Ev, B, R, O>(t: Transcript<Ev, B, R, O>, ev: Ev) {
    && |t.done| == |t.carried| <= MAX_EFFECTS_PER_INPUT
    && t.carried <= Requests(t.outputs)
    && (|t.carried| < |Requests(t.outputs)| ==> |t.carried| == MAX_EFFECTS_PER_INPUT)
    && t.inputs == [Given(ev)] + Episodes(t.carried, t.done)
  }

  /** A pump under way: what is still to be delivered and done accounts for the rest. */
  ghost predicate Going<S, W, Ev, B, R, O>(step: (S, Input<Ev, B, R>) -> (S, seq<Output<O>>),
                                           carry: (W, Effect) -> (W, Realized<B, R>), m0: S, m: S, w0: W, w: W, ev: Ev,
                                           t: Transcript<Ev, B, R, O>, pending: seq<Input<Ev, B, R>>, todo: seq<Effect>,
                                           terminal: seq<O>, frames: seq<O>) {
    && terminal == Terminal(t.outputs) && frames == Frames(t.outputs)
    && |t.carried| == |t.done| <= MAX_EFFECTS_PER_INPUT
    && t.inputs + pending == [Given(ev)] + Episodes(t.carried, t.done)
    && Requests(t.outputs) == t.carried + todo
    && (m, t.outputs) == Play(step, m0, t.inputs)
    && (w, t.done) == CarryAll(carry, w0, t.carried)
  }

  lemma FeedingGoesOn<S, W, Ev, B, R, O>(step: (S, Input<Ev, B, R>) -> (S, seq<Output<O>>),
                                         carry: (W, Effect) -> (W, Realized<B, R>), m0: S, m: S, w0: W, w: W, ev: Ev,
                                         t: Transcript<Ev, B, R, O>, input: Input<Ev, B, R>, todo: seq<Effect>,
                                         terminal: seq<O>, frames: seq<O>)
    requires Going(step, carry, m0, m, w0, w, ev, t, [input], todo, terminal, frames)
    ensures
      var (m', outs) := step(m, input);
      Going(step, carry, m0, m', w0, w, ev, t.(inputs := t.inputs + [input], outputs := t.outputs + outs), [],
            todo + Requests(outs),
            terminal + Terminal(outs), frames + Frames(outs))
  {
    var (m', outs) := step(m, input);
    PlayMore(step, m0, t.inputs, input);
    Concat(t.outputs, outs);
    assert t.inputs + [input] + [] == t.inputs + [input];
  }

  lemma InputsGoOn<Ev, B, R>(ev: Ev, inputs: seq<Input<Ev, B, R>>, effects: seq<Effect>, done: seq<Realized<B, R>>,
                             effect: Effect, realized: Realized<B, R>)
    requires |effects| == |done| && inputs + [] == [Given(ev)] + Episodes(effects, done)
    ensures inputs + Chunks<Ev, B, R>(effect, realized.chunks) + [Answer(effect.0, realized.result)] ==
      [Given(ev)] + Episodes(effects + [effect], done + [realized])
  {
    EpisodesMore<Ev, B, R>(effects, done, effect, realized);
    assert inputs + [] == inputs;
    assert inputs + Chunks<Ev, B, R>(effect, realized.chunks) + [Answer(effect.0, realized.result)]
      == inputs + Episode<Ev, B, R>(effect, realized);
  }

  lemma Regroup<T>(a: seq<T>, b: seq<T>, c: seq<T>, d: seq<T>)
    ensures (a + (b + c)) + d == (a + b) + (c + d)
  {
    Associate(a, b, c);
    Associate(a + b, c, d);
  }

  lemma CarryingGoesOn<S, W, Ev, B, R, O>(step: (S, Input<Ev, B, R>) -> (S, seq<Output<O>>),
                                          carry: (W, Effect) -> (W, Realized<B, R>), m0: S, m: S, w0: W, w: W, ev: Ev,
                                          t: Transcript<Ev, B, R, O>, effect: Effect, todo: seq<Effect>,
                                          terminal: seq<O>, frames: seq<O>)
    requires Going(step, carry, m0, m, w0, w, ev, t, [], [effect] + todo, terminal, frames)
      && |t.carried| < MAX_EFFECTS_PER_INPUT
    ensures
      var (w', done) := carry(w, effect);
      var chunks := Chunks<Ev, B, R>(effect, done.chunks);
      var (m', streamed) := Play(step, m, chunks);
      Going(step, carry, m0, m', w0, w', ev,
            Transcript(t.inputs + chunks, t.outputs + streamed, t.carried + [effect], t.done + [done]),
            [Answer(effect.0, done.result)], todo + Requests(streamed),
            terminal + Terminal(streamed), frames + Frames(streamed))
  {
    var (w', done) := carry(w, effect);
    var chunks := Chunks<Ev, B, R>(effect, done.chunks);
    var (m', streamed) := Play(step, m, chunks);
    PlayConcat(step, m0, t.inputs, chunks);
    Concat(t.outputs, streamed);
    CarryMore(carry, w0, t.carried, effect);
    InputsGoOn(ev, t.inputs, t.carried, t.done, effect, done);
    Regroup(t.carried, [effect], todo, Requests(streamed));
  }

  lemma PumpEnds<S, W, Ev, B, R, O>(step: (S, Input<Ev, B, R>) -> (S, seq<Output<O>>),
                                    carry: (W, Effect) -> (W, Realized<B, R>), m0: S, m: S, w0: W, w: W, ev: Ev,
                                    t: Transcript<Ev, B, R, O>, todo: seq<Effect>, terminal: seq<O>, frames: seq<O>)
    requires Going(step, carry, m0, m, w0, w, ev, t, [], todo, terminal, frames)
    requires todo == [] || |t.carried| >= MAX_EFFECTS_PER_INPUT
    ensures terminal == Terminal(t.outputs) && frames == Frames(t.outputs)
    ensures Faithful(t, ev) && (m, t.outputs) == Play(step, m0, t.inputs)
      && (w, t.done) == CarryAll(carry, w0, t.carried)
  {
    assert t.inputs + [] == t.inputs;
  }

  class Host<!S, !W, !Ev, !B, !R, !O> {
    const step: (S, Input<Ev, B, R>) -> (S, seq<Output<O>>)
    const carry: (W, Effect) -> (W, Realized<B, R>)
    var machine: S
    var world: W
    var routed: seq<O>

    constructor (step: (S, Input<Ev, B, R>) -> (S, seq<Output<O>>), carry: (W, Effect) -> (W, Realized<B, R>),
                 machine: S, world: W)
      ensures this.step == step && this.carry == carry && this.machine == machine && this.world == world && routed == []
    {
      this.step, this.carry, this.machine, this.world, routed := step, carry, machine, world, [];
    }

    /** Feeds one input; stream frames go to their connections here and now. */
    method Deliver(input: Input<Ev, B, R>) returns (rest: seq<Output<O>>, ghost outs: seq<Output<O>>)
      modifies this`machine, this`routed
      ensures (machine, outs) == step(old(machine), input)
      ensures routed == old(routed) + Frames(outs)
      ensures Requests(rest) == Requests(outs) && Terminal(rest) == Terminal(outs)
    {
      var turn := step(machine, input);
      machine, outs, rest := turn.0, turn.1, [];
      for i := 0 to |turn.1|
        invariant machine == turn.0 && routed == old(routed) + Frames(turn.1[..i])
        invariant Requests(rest) == Requests(turn.1[..i]) && Terminal(rest) == Terminal(turn.1[..i])
      {
        assert turn.1[..i + 1][..i] == turn.1[..i];
        if turn.1[i].Frame? {
          routed := routed + [turn.1[i].frame];
        } else {
          rest := rest + [turn.1[i]];
          assert rest[..|rest| - 1] + [turn.1[i]] == rest;
        }
      }
      assert turn.1[..|turn.1|] == turn.1;
    }

    /** Splits outputs into effects still to run, and everything else. */
    static method SortOuts(outs: seq<Output<O>>, terminal: seq<O>, todo: seq<Effect>)
      returns (terminal': seq<O>, todo': seq<Effect>)
      ensures terminal' == terminal + Terminal(outs) && todo' == todo + Requests(outs)
    {
      terminal', todo' := terminal, todo;
      for i := 0 to |outs|
        invariant terminal' == terminal + Terminal(outs[..i]) && todo' == todo + Requests(outs[..i])
      {
        assert outs[..i + 1][..i] == outs[..i];
        match outs[i] {
          case Realize(id, request) => todo' := todo' + [(id, request)];
          case Rest(other) => terminal' := terminal' + [other];
          case Frame(_) =>
        }
      }
      assert outs[..|outs|] == outs;
    }

    method Pump(ev: Ev) returns (terminal: seq<O>, ghost t: Transcript<Ev, B, R, O>)
      modifies this
      ensures Faithful(t, ev)
      ensures (machine, t.outputs) == Play(step, old(machine), t.inputs)
      ensures (world, t.done) == CarryAll(carry, old(world), t.carried)
      ensures terminal == Terminal(t.outputs) && routed == old(routed) + Frames(t.outputs)
    {
      var pending := [Given(ev)];
      var todo: seq<Effect> := [];
      var effectCount := 0;
      terminal := [];
      t := Transcript([], [], [], []);
      ghost var frames: seq<O> := [];
      while pending != [] || (todo != [] && effectCount < MAX_EFFECTS_PER_INPUT)
        invariant |pending| <= 1 && effectCount == |t.carried|
        invariant Going(step, carry, old(machine), machine, old(world), world, ev, t, pending, todo, terminal, frames)
        invariant routed == old(routed) + frames
        decreases MAX_EFFECTS_PER_INPUT - effectCount, |pending|
      {
        if pending != [] {
          assert pending == [pending[0]];
          terminal, todo, t, frames := Feed(ev, old(machine), old(world), t, frames, pending[0], terminal, todo);
          pending := [];
        } else {
          assert todo == [todo[0]] + todo[1..];
          effectCount := effectCount + 1;
          terminal, todo, pending, t, frames :=
            Perform(ev, old(machine), old(world), t, frames, todo[0], terminal, todo[1..]);
        }
      }
      PumpEnds(step, carry, old(machine), machine, old(world), world, ev, t, todo, terminal, frames);
    }

    /** One queued input: its outputs are sorted at once. */
    method Feed(ev: Ev, ghost m0: S, ghost w0: W, ghost t: Transcript<Ev, B, R, O>, ghost frames: seq<O>,
                input: Input<Ev, B, R>, terminal: seq<O>, todo: seq<Effect>)
      returns (terminal': seq<O>, todo': seq<Effect>, ghost t': Transcript<Ev, B, R, O>, ghost frames': seq<O>)
      requires Going(step, carry, m0, machine, w0, world, ev, t, [input], todo, terminal, frames)
      modifies this`machine, this`routed
      ensures Going(step, carry, m0, machine, w0, world, ev, t', [], todo', terminal', frames')
      ensures t'.carried == t.carried && exists more :: routed == old(routed) + more && frames' == frames + more
    {
      FeedingGoesOn(step, carry, m0, machine, w0, world, ev, t, input, todo, terminal, frames);
      var rest, outs := Deliver(input);
      terminal', todo' := SortOuts(rest, terminal, todo);
      t', frames' := t.(inputs := t.inputs + [input], outputs := t.outputs + outs), frames + Frames(outs);
    }

    /** One effect: what its chunks brought up is sorted once it is over, and its answer queued. */
    method Perform(ev: Ev, ghost m0: S, ghost w0: W, ghost t: Transcript<Ev, B, R, O>, ghost frames: seq<O>,
                   effect: Effect, terminal: seq<O>, todo: seq<Effect>)
      returns (terminal': seq<O>, todo': seq<Effect>, pending: seq<Input<Ev, B, R>>, ghost t': Transcript<Ev, B, R, O>,
               ghost frames': seq<O>)
      requires Going(step, carry, m0, machine, w0, world, ev, t, [], [effect] + todo, terminal, frames)
      requires |t.carried| < MAX_EFFECTS_PER_INPUT
      modifies this
      ensures Going(step, carry, m0, machine, w0, world, ev, t', pending, todo', terminal', frames')
      ensures t'.carried == t.carried + [effect] && |pending| == 1
      ensures exists more :: routed == old(routed) + more && frames' == frames + more
    {
      CarryingGoesOn(step, carry, m0, machine, w0, world, ev, t, effect, todo, terminal, frames);
      var during, result, streamed, done := Realize(effect);
      terminal', todo' := SortOuts(during, terminal, todo);
      pending := [Answer(effect.0, result)];
      t' :=
        Transcript(t.inputs + Chunks<Ev, B, R>(effect, done.chunks), t.outputs + streamed, t.carried + [effect],
                   t.done + [done]);
      frames' := frames + Frames(streamed);
    }

    /** Carries out one effect; its chunks reach the machine while it is still running. */
    method Realize(effect: Effect)
      returns (during: seq<Output<O>>, result: R, ghost streamed: seq<Output<O>>, ghost done: Realized<B, R>)
      modifies this
      ensures (world, done) == carry(old(world), effect) && result == done.result
      ensures (machine, streamed) == Play(step, old(machine), Chunks<Ev, B, R>(effect, done.chunks))
      ensures routed == old(routed) + Frames(streamed)
      ensures Requests(during) == Requests(streamed) && Terminal(during) == Terminal(streamed)
    {
      var realized := carry(world, effect);
      world, done, result := realized.0, realized.1, realized.1.result;
      var chunks := realized.1.chunks;
      during, streamed := [], [];
      for i := 0 to |chunks|
        invariant world == realized.0
        invariant (machine, streamed) == Play(step, old(machine), Chunks<Ev, B, R>(effect, chunks[..i]))
        invariant routed == old(routed) + Frames(streamed)
        invariant Requests(during) == Requests(streamed) && Terminal(during) == Terminal(streamed)
      {
        during, streamed := Receive(effect, chunks, i, old(machine), during, streamed);
      }
      assert chunks[..|chunks|] == chunks;
    }

    /** One chunk: its frames are routed at once, the rest waits for the effect to end. */
    method Receive(effect: Effect, chunks: seq<B>, i: nat, ghost m0: S, during: seq<Output<O>>,
                   ghost streamed: seq<Output<O>>)
      returns (during': seq<Output<O>>, ghost streamed': seq<Output<O>>)
      requires i < |chunks|
      requires (machine, streamed) == Play(step, m0, Chunks<Ev, B, R>(effect, chunks[..i]))
      requires Requests(during) == Requests(streamed) && Terminal(during) == Terminal(streamed)
      modifies this`machine, this`routed
      ensures (machine, streamed') == Play(step, m0, Chunks<Ev, B, R>(effect, chunks[..i + 1]))
      ensures Requests(during') == Requests(streamed') && Terminal(during') == Terminal(streamed')
      ensures exists outs ::
        streamed' == streamed + outs && routed == old(routed) + Frames(outs)
          && Frames(streamed') == Frames(streamed) + Frames(outs)
    {
      var input := Chunk(effect.0, chunks[i]);
      var rest, outs := Deliver(input);
      PlayMore(step, m0, Chunks<Ev, B, R>(effect, chunks[..i]), input);
      assert Chunks<Ev, B, R>(effect, chunks[..i + 1]) == Chunks<Ev, B, R>(effect, chunks[..i]) + [input];
      Concat(during, rest);
      Concat(streamed, outs);
      during', streamed' := during + rest, streamed + outs;
    }
  }

  lemma EpisodesMore<Ev, B, R>(effects: seq<Effect>, done: seq<Realized<B, R>>, effect: Effect,
                               realized: Realized<B, R>)
    requires |effects| == |done|
    ensures Episodes<Ev, B, R>(effects + [effect], done + [realized])
      == Episodes<Ev, B, R>(effects, done) + Episode<Ev, B, R>(effect, realized)
  {
    assert (effects + [effect])[..|effects|] == effects && (done + [realized])[..|done|] == done;
  }

  lemma CarryMore<W, B, R>(carry: (W, Effect) -> (W, Realized<B, R>), w: W, effects: seq<Effect>, effect: Effect)
    ensures CarryAll(carry, w, effects + [effect]) ==
      (carry(CarryAll(carry, w, effects).0, effect).0,
       CarryAll(carry, w, effects).1 + [carry(CarryAll(carry, w, effects).0, effect).1])
  {
    assert (effects + [effect])[..|effects|] == effects;
  }
}
