/** One model reply in its three forms: the live frames, the packed durable records, and the assembled message. */
module AssistantStream {
  import opened Json
  import opened Seqs

  datatype Kind = Text | Reasoning | ToolCall

  datatype FinishReason =
    | Stop
    | ToolCalls
    | MaxTokens
    | Aborted(message: string, code: string)
    | Error(message: string, code: string)

  datatype Chunk =
    | BlockStart(index: nat, kind: Kind)
    | TextDelta(index: nat, text: string)
    | ReasoningDelta(index: nat, text: string)
    | ToolCallDelta(index: nat, id: string, name: Option<string>, args: string)
    | BlockEnd(index: nat, block: Value)
    | Usage(usage: Value)
    | Finish(reason: FinishReason)

  // ---------------------------------------------------- what a chunk list says

  /** The kind under which a chunk touches a block; a block's end does not touch it. */
  function Touch(c: Chunk, k: nat): Option<Kind> {
    match c
    case BlockStart(index, kind) => if index == k then Some(kind) else None
    case TextDelta(index, _) => if index == k then Some(Text) else None
    case ReasoningDelta(index, _) => if index == k then Some(Reasoning) else None
    case ToolCallDelta(index, _, _, _) => if index == k then Some(ToolCall) else None
    case _ => None
  }

  /** What a chunk adds to a block, whatever kind it adds it as. */
  function Fragment(c: Chunk, k: nat): string {
    match c
    case TextDelta(index, text) => if index == k then text else ""
    case ReasoningDelta(index, text) => if index == k then text else ""
    case ToolCallDelta(index, _, _, args) => if index == k then args else ""
    case _ => ""
  }

  predicate Prose(c: Chunk) {
    c.TextDelta? || c.ReasoningDelta?
  }

  function FirstKind(chunks: seq<Chunk>, k: nat): Option<Kind> {
    if chunks == [] then None
    else
      var before := FirstKind(chunks[..|chunks| - 1], k);
      if before.Some? then before else Touch(chunks[|chunks| - 1], k)
  }

  function BlockText(chunks: seq<Chunk>, k: nat): string {
    if chunks == [] then "" else BlockText(chunks[..|chunks| - 1], k) + Fragment(chunks[|chunks| - 1], k)
  }

  /** The text and reasoning of a block alone, which is what gets stitched for display. */
  function ProseText(chunks: seq<Chunk>, k: nat): string {
    if chunks == [] then ""
    else
      var last := chunks[|chunks| - 1];
      ProseText(chunks[..|chunks| - 1], k) + if Prose(last) then Fragment(last, k) else ""
  }

  /** The kind the display holds a block as: that of its last prose, or of its opening. */
  function ShownKind(chunks: seq<Chunk>, k: nat): Option<Kind> {
    if chunks == [] then None
    else
      var before, last := ShownKind(chunks[..|chunks| - 1], k), chunks[|chunks| - 1];
      if (before.None? || (Prose(last) && last.index == k)) && Touch(last, k).Some? then Touch(last, k) else before
  }

  lemma {:induction false} ShownIffTouched(chunks: seq<Chunk>, k: nat)
    ensures ShownKind(chunks, k).Some? == FirstKind(chunks, k).Some?
  {
    if chunks == [] {
    } else {
      ShownIffTouched(chunks[..|chunks| - 1], k);
    }
  }

  lemma {:induction false} TextConcat(a: seq<Chunk>, b: seq<Chunk>, k: nat)
    ensures BlockText(a + b, k) == BlockText(a, k) + BlockText(b, k)
    decreases |b|
  {
    if b == [] {
      assert a + b == a;
    } else {
      var n := |b| - 1;
      assert (a + b)[..|a + b| - 1] == a + b[..n];
      assert (a + b)[|a + b| - 1] == b[n];
      TextConcat(a, b[..n], k);
      Associate(BlockText(a, k), BlockText(b[..n], k), Fragment(b[n], k));
    }
  }

  // ------------------------------------------------------------ the live frames

  datatype Body =
    | Start(index: nat, kind: Kind)
    | TextFragment(index: nat, text: string)
    | ReasoningFragment(index: nat, text: string)
    | CallFragment(index: nat, id: string, name: Option<string>, args: string)
    | End(index: nat, block: Value)
    | Count(usage: Value)

  datatype Frame = Frame(revision: nat, index: nat, body: Body)

  type Stitcher = (string, Kind) -> string

  /** The kind a block-end payload names, when it is prose. */
  function ProseName(block: Value): Option<Kind> {
    var name := OrElse(AsStr(Get(block, "type")), "");
    if name == "text" then Some(Text) else if name == "reasoning" then Some(Reasoning) else None
  }

  function KindName(kind: Kind): string {
    match kind
    case Text => "text"
    case Reasoning => "reasoning"
    case ToolCall => "tool-call"
  }

  function StitchedBlock(kind: Kind, text: string): Value {
    Obj(map["type" := Str(KindName(kind)), "text" := Str(text)])
  }

  /** A prose block ends with all its text stitched; any other keeps the decoder's payload. */
  function EndBlock(history: seq<Chunk>, k: nat, block: Value, stitch: Stitcher): Value {
    var kind, shown := ProseName(block), ShownKind(history, k);
    if kind.Some? && shown.Some? then StitchedBlock(kind.value, stitch(ProseText(history, k), shown.value)) else block
  }

  /** The frames one chunk shows after those of `history`. */
  function Shows(history: seq<Chunk>, c: Chunk, stitch: Stitcher): seq<Body> {
    Announces(history, c) + Content(history, c, stitch)
  }

  function Announces(history: seq<Chunk>, c: Chunk): seq<Body> {
    if (c.BlockStart? || Prose(c) || c.ToolCallDelta?) && FirstKind(history, c.index).None?
    then [Start(c.index, Touch(c, c.index).value)]
    else []
  }

  function Content(history: seq<Chunk>, c: Chunk, stitch: Stitcher): seq<Body> {
    match c
    case TextDelta(index, text) => [TextFragment(index, text)]
    case ReasoningDelta(index, text) => [ReasoningFragment(index, text)]
    case ToolCallDelta(index, id, name, args) => [CallFragment(index, id, name, args)]
    case BlockEnd(index, block) => [End(index, EndBlock(history, index, block, stitch))]
    case Usage(usage) => [Count(usage)]
    case Finish(_) => []
    case BlockStart(_, _) => []
  }

  /** Everything shown for a chunk list. */
  function Display(chunks: seq<Chunk>, stitch: Stitcher): seq<Body> {
    if chunks == [] then []
    else
      var front := chunks[..|chunks| - 1];
      Display(front, stitch) + Shows(front, chunks[|chunks| - 1], stitch)
  }

  lemma {:induction false} DisplayGrows(a: seq<Chunk>, b: seq<Chunk>, stitch: Stitcher)
    ensures Display(a, stitch) <= Display(a + b, stitch)
    decreases |b|
  {
    if b == [] {
      assert a + b == a;
    } else {
      var n := |b| - 1;
      assert (a + b)[..|a + b| - 1] == a + b[..n];
      DisplayGrows(a, b[..n], stitch);
    }
  }

  /** The frames are numbered without a gap from zero. */
  function Numbered(bodies: seq<Body>): (frames: seq<Frame>)
    ensures |frames| == |bodies|
    ensures forall i :: 0 <= i < |frames| ==> frames[i] == Frame(i + 1, i, bodies[i])
  {
    if bodies == [] then []
    else
      var n := |bodies| - 1;
      Numbered(bodies[..n]) + [Frame(n + 1, n, bodies[n])]
  }

  /** Every frame for a chunk list. */
  function AllFrames(chunks: seq<Chunk>, stitch: Stitcher): seq<Frame> {
    Numbered(Display(chunks, stitch))
  }

  /** The numbering of more frames continues that of the first. */
  lemma {:induction false} NumberedConcat(a: seq<Body>, b: seq<Body>, frames: seq<Frame>)
    requires |frames| == |b| && forall i :: 0 <= i < |b| ==> frames[i] == Frame(|a| + i + 1, |a| + i, b[i])
    ensures Numbered(a + b) == Numbered(a) + frames
    decreases |b|
  {
    if b == [] {
      assert a + b == a;
    } else {
      var n := |b| - 1;
      assert (a + b)[..|a| + n] == a + b[..n];
      NumberedConcat(a, b[..n], frames[..n]);
      assert frames == frames[..n] + [frames[n]];
    }
  }

  lemma {:induction false} FramesGrow(a: seq<Chunk>, b: seq<Chunk>, stitch: Stitcher)
    ensures AllFrames(a, stitch) <= AllFrames(a + b, stitch)
  {
    DisplayGrows(a, b, stitch);
    var more := Display(a + b, stitch)[|Display(a, stitch)|..];
    assert Display(a + b, stitch) == Display(a, stitch) + more;
    var n := |Display(a, stitch)|;
    NumberedConcat(Display(a, stitch), more,
                   seq(|more|, i requires 0 <= i < |more| => Frame(n + i + 1, n + i, more[i])));
  }

  /** The frames a batch adds to those of a history. */
  function Framed(history: seq<Chunk>, chunks: seq<Chunk>, stitch: Stitcher): (frames: seq<Frame>)
    ensures AllFrames(history, stitch) + frames == AllFrames(history + chunks, stitch)
  {
    FramesGrow(history, chunks, stitch);
    After(AllFrames(history, stitch), AllFrames(history + chunks, stitch))
  }

  lemma FramedIs(history: seq<Chunk>, chunks: seq<Chunk>, frames: seq<Frame>, stitch: Stitcher)
    requires AllFrames(history, stitch) + frames == AllFrames(history + chunks, stitch)
    ensures frames == Framed(history, chunks, stitch)
  {
    Cancel(AllFrames(history, stitch), frames, Framed(history, chunks, stitch));
  }

  function After<T>(start: seq<T>, whole: seq<T>): (rest: seq<T>)
    requires start <= whole
    ensures start + rest == whole
  {
    whole[|start|..]
  }

  /** Cutting a batch in two shows the same frames. */
  lemma BatchesJoin(history: seq<Chunk>, a: seq<Chunk>, b: seq<Chunk>, stitch: Stitcher)
    ensures Framed(history, a + b, stitch) == Framed(history, a, stitch) + Framed(history + a, b, stitch)
  {
    Associate(history, a, b);
    Chain(AllFrames(history, stitch), Framed(history, a, stitch), AllFrames(history + a, stitch),
          Framed(history + a, b, stitch), AllFrames((history + a) + b, stitch), Framed(history, a + b, stitch));
  }

  lemma Chain<T>(x: seq<T>, a: seq<T>, y: seq<T>, b: seq<T>, z: seq<T>, ab: seq<T>)
    requires x + a == y && y + b == z && x + ab == z
    ensures ab == a + b
  {
    Associate(x, a, b);
    Cancel(x, ab, a + b);
  }

  // ----------------------------------------------- what the live decode remembers

  type Blocks = map<nat, (Kind, string)>

  /** What is remembered of one block is what the chunks so far say of it. */
  ghost predicate TracksBlock(announced: map<nat, Kind>, blocks: Blocks, history: seq<Chunk>, k: nat) {
    && FirstKind(history, k) == (if k in announced then Some(announced[k]) else None)
    && ShownKind(history, k) == (if k in blocks then Some(blocks[k].0) else None)
    && ProseText(history, k) == (if k in blocks then blocks[k].1 else "")
    && (k in announced <==> k in blocks)
  }

  ghost predicate Tracks(announced: map<nat, Kind>, blocks: Blocks, history: seq<Chunk>) {
    forall k: nat :: TracksBlock(announced, blocks, history, k)
  }

  function PushedText(blocks: Blocks, k: nat, kind: Kind, text: string): Blocks {
    blocks[k := (kind, (if k in blocks then blocks[k].1 else "") + text)]
  }

  function OpenedBlocks(blocks: Blocks, k: nat, kind: Kind): Blocks {
    if k in blocks then blocks else blocks[k := (kind, "")]
  }

  lemma OneMoreChunk(history: seq<Chunk>, c: Chunk, k: nat)
    ensures FirstKind(history + [c], k) == if FirstKind(history, k).Some? then FirstKind(history, k) else Touch(c, k)
    ensures ProseText(history + [c], k) == ProseText(history, k) + if Prose(c) then Fragment(c, k) else ""
    ensures BlockText(history + [c], k) == BlockText(history, k) + Fragment(c, k)
    ensures ShownKind(history + [c], k) ==
      if ShownKind(history, k).None? || (Prose(c) && c.index == k) then Touch(c, k) else ShownKind(history, k)
  {
    assert (history + [c])[..|history|] == history;
  }

  lemma OpenTracks(announced: map<nat, Kind>, blocks: Blocks, history: seq<Chunk>, c: Chunk)
    requires Tracks(announced, blocks, history) && (c.BlockStart? || c.ToolCallDelta?)
    ensures
      var kind := Touch(c, c.index).value;
      if c.index in announced then Tracks(announced, blocks, history + [c])
      else Tracks(announced[c.index := kind], OpenedBlocks(blocks, c.index, kind), history + [c])
  {
    var kind := Touch(c, c.index).value;
    assert TracksBlock(announced, blocks, history, c.index);
    var a := if c.index in announced then announced else announced[c.index := kind];
    var b := if c.index in announced then blocks else OpenedBlocks(blocks, c.index, kind);
    forall k: nat
      ensures TracksBlock(a, b, history + [c], k)
    {
      assert TracksBlock(announced, blocks, history, k);
      OneMoreChunk(history, c, k);
    }
  }

  lemma ProseTracks(announced: map<nat, Kind>, blocks: Blocks, history: seq<Chunk>, c: Chunk)
    requires Tracks(announced, blocks, history) && Prose(c)
    ensures
      var kind := Touch(c, c.index).value;
      if c.index in announced then Tracks(announced, PushedText(blocks, c.index, kind, c.text), history + [c])
      else Tracks(announced[c.index := kind], PushedText(OpenedBlocks(blocks, c.index, kind), c.index, kind, c.text),
                  history + [c])
  {
    var kind := Touch(c, c.index).value;
    assert TracksBlock(announced, blocks, history, c.index);
    var a := if c.index in announced then announced else announced[c.index := kind];
    var b :=
      PushedText(if c.index in announced then blocks else OpenedBlocks(blocks, c.index, kind), c.index, kind, c.text);
    forall k: nat
      ensures TracksBlock(a, b, history + [c], k)
    {
      assert TracksBlock(announced, blocks, history, k);
      OneMoreChunk(history, c, k);
    }
  }

  lemma OtherTracks(announced: map<nat, Kind>, blocks: Blocks, history: seq<Chunk>, c: Chunk)
    requires Tracks(announced, blocks, history) && (c.BlockEnd? || c.Usage? || c.Finish?)
    ensures Tracks(announced, blocks, history + [c])
  {
    forall k: nat
      ensures TracksBlock(announced, blocks, history + [c], k)
    {
      assert TracksBlock(announced, blocks, history, k);
      OneMoreChunk(history, c, k);
    }
  }

  class Live {
    const stitch: Stitcher
    var index: nat
    var revision: nat
    var announced: map<nat, Kind>
    var blocks: map<nat, (Kind, string)>
    ghost var history: seq<Chunk>

    ghost predicate Valid()
      reads this
    {
      index == revision == |Display(history, stitch)| && Tracks(announced, blocks, history)
    }

    constructor (stitch: Stitcher)
      ensures Valid() && history == [] && this.stitch == stitch
    {
      this.stitch := stitch;
      index, revision, announced, blocks, history := 0, 0, map[], map[], [];
    }

    /** `push_delta`: the text goes onto the block and the block takes its kind. */
    method PushDelta(k: nat, kind: Kind, text: string)
      modifies this`blocks
      ensures blocks == PushedText(old(blocks), k, kind, text)
    {
      if k !in blocks {
        blocks := blocks[k := (kind, "")];
      }
      blocks := blocks[k := (kind, blocks[k].1 + text)];
    }

    method Announce(k: nat, kind: Kind) returns (out: seq<Body>)
      modifies this`announced, this`blocks
      ensures k in old(announced) ==> out == [] && announced == old(announced) && blocks == old(blocks)
      ensures k !in old(announced) ==>
        out == [Start(k, kind)] && announced == old(announced)[k := kind]
          && blocks == OpenedBlocks(old(blocks), k, kind)
    {
      out := [];
      if k !in announced {
        announced := announced[k := kind];
        if k !in blocks {
          blocks := blocks[k := (kind, "")];
        }
        out := [Start(k, kind)];
      }
    }

    /** `stitched_block`: the one place where stitched text replaces what was accumulated. */
    method Stitched(k: nat, block: Value) returns (end: Value)
      requires TracksBlock(announced, blocks, history, k)
      ensures end == EndBlock(history, k, block, stitch)
    {
      var kind := ProseName(block);
      if kind.None? || k !in blocks {
        return block;
      }
      end := StitchedBlock(kind.value, stitch(blocks[k].1, blocks[k].0));
    }

    /** `frame_for`: announce the block if it is new, then show the chunk itself. */
    method FrameFor(c: Chunk) returns (out: seq<Body>)
      requires Tracks(announced, blocks, history)
      modifies this`announced, this`blocks, this`history
      ensures history == old(history) + [c] && Tracks(announced, blocks, history)
      ensures out == Shows(old(history), c, stitch)
    {
      assert c.BlockStart? || Prose(c) || c.ToolCallDelta? || c.BlockEnd?
        ==> TracksBlock(announced, blocks, history, c.index);
      match c {
        case BlockStart(index, kind) =>
          OpenTracks(announced, blocks, history, c);
          out := Announce(index, kind);
        case TextDelta(index, text) =>
          ProseTracks(announced, blocks, history, c);
          out := Announce(index, Text);
          PushDelta(index, Text, text);
          out := out + [TextFragment(index, text)];
        case ReasoningDelta(index, text) =>
          ProseTracks(announced, blocks, history, c);
          out := Announce(index, Reasoning);
          PushDelta(index, Reasoning, text);
          out := out + [ReasoningFragment(index, text)];
        case ToolCallDelta(index, id, name, args) =>
          OpenTracks(announced, blocks, history, c);
          out := Announce(index, ToolCall);
          out := out + [CallFragment(index, id, name, args)];
        case BlockEnd(index, block) =>
          OtherTracks(announced, blocks, history, c);
          var end := Stitched(index, block);
          out := [End(index, end)];
        case Usage(usage) =>
          OtherTracks(announced, blocks, history, c);
          out := [Count(usage)];
        case Finish(_) =>
          OtherTracks(announced, blocks, history, c);
          out := [];
      }
      history := history + [c];
    }

    /** The counters move once for each frame. */
    method Number(bodies: seq<Body>) returns (out: seq<Frame>)
      requires index == revision
      modifies this`index, this`revision
      ensures index == revision == old(index) + |bodies|
      ensures |out| == |bodies| && forall i ::
        0 <= i < |out| ==> out[i] == Frame(old(index) + i + 1, old(index) + i, bodies[i])
    {
      out := [];
      for j := 0 to |bodies|
        invariant index == revision == old(index) + j
        invariant |out| == j && forall i ::
          0 <= i < j ==> out[i] == Frame(old(index) + i + 1, old(index) + i, bodies[i])
      {
        revision := revision + 1;
        out := out + [Frame(revision, index, bodies[j])];
        index := index + 1;
      }
    }

    method DrainOne(c: Chunk) returns (frames: seq<Frame>)
      requires Valid()
      modifies this`index, this`revision, this`announced, this`blocks, this`history
      ensures Valid() && history == old(history) + [c]
      ensures AllFrames(old(history), stitch) + frames == AllFrames(history, stitch)
    {
      var bodies := FrameFor(c);
      frames := Number(bodies);
      OneMore(old(history), c, frames, stitch);
    }

    method DrainOnto(c: Chunk, ghost start: seq<Frame>, out: seq<Frame>) returns (all: seq<Frame>)
      requires Valid() && start + out == AllFrames(history, stitch)
      modifies this`index, this`revision, this`announced, this`blocks, this`history
      ensures Valid() && history == old(history) + [c] && start + all == AllFrames(history, stitch)
    {
      var frames := DrainOne(c);
      Associate(start, out, frames);
      all := out + frames;
    }

    /** `drain`: every batch continues the numbering and the display where the last one stopped. */
    method Drain(chunks: seq<Chunk>) returns (out: seq<Frame>)
      requires Valid()
      modifies this`index, this`revision, this`announced, this`blocks, this`history
      ensures Valid() && history == old(history) + chunks
      ensures out == Framed(old(history), chunks, stitch)
    {
      out := [];
      ghost var before := history;
      ghost var start := AllFrames(before, stitch);
      for i := 0 to |chunks|
        invariant Valid() && history == before + chunks[..i]
        invariant start + out == AllFrames(history, stitch)
      {
        out := DrainOnto(chunks[i], start, out);
        OneFurther(before, chunks, i);
      }
      assert chunks[..|chunks|] == chunks;
      FramedIs(before, chunks, out, stitch);
    }
  }

  lemma OneMore(history: seq<Chunk>, c: Chunk, frames: seq<Frame>, stitch: Stitcher)
    requires
      var shown, from := Shows(history, c, stitch), |Display(history, stitch)|;
      |frames| == |shown| && forall i :: 0 <= i < |frames| ==> frames[i] == Frame(from + i + 1, from + i, shown[i])
    ensures AllFrames(history + [c], stitch) == AllFrames(history, stitch) + frames
    ensures |Display(history + [c], stitch)| == |Display(history, stitch)| + |frames|
  {
    assert (history + [c])[..|history|] == history;
    NumberedConcat(Display(history, stitch), Shows(history, c, stitch), frames);
  }

  // --------------------------------------------------------- what the frames say

  predicate IsDelta(b: Body, k: nat) {
    match b
    case TextFragment(index, _) => index == k
    case ReasoningFragment(index, _) => index == k
    case CallFragment(index, _, _, _) => index == k
    case _ => false
  }

  function DeltaText(bodies: seq<Body>, k: nat): string {
    if bodies == [] then ""
    else
      var b := bodies[|bodies| - 1];
      DeltaText(bodies[..|bodies| - 1], k) + DeltaText1(b, k)
  }

  function DeltaText1(b: Body, k: nat): string {
    match b
    case TextFragment(index, text) => if index == k then text else ""
    case ReasoningFragment(index, text) => if index == k then text else ""
    case CallFragment(index, _, _, args) => if index == k then args else ""
    case _ => ""
  }

  /** What a body shows as prose of a block. */
  function ProseShown(b: Body, k: nat): string {
    match b
    case TextFragment(index, text) => if index == k then text else ""
    case ReasoningFragment(index, text) => if index == k then text else ""
    case _ => ""
  }

  /** The text shown as prose of a block, delta by delta. */
  function ShownProse(bodies: seq<Body>, k: nat): string {
    if bodies == [] then "" else ShownProse(bodies[..|bodies| - 1], k) + ProseShown(bodies[|bodies| - 1], k)
  }

  lemma {:induction false} ShownProseConcat(a: seq<Body>, b: seq<Body>, k: nat)
    ensures ShownProse(a + b, k) == ShownProse(a, k) + ShownProse(b, k)
    decreases |b|
  {
    if b == [] {
      assert a + b == a;
    } else {
      var n := |b| - 1;
      assert (a + b)[..|a + b| - 1] == a + b[..n];
      ShownProseConcat(a, b[..n], k);
      Associate(ShownProse(a, k), ShownProse(b[..n], k), ProseShown(b[n], k));
    }
  }

  lemma ShownOnce(bodies: seq<Body>, k: nat)
    requires |bodies| <= 1
    ensures ShownProse(bodies, k) == if bodies == [] then "" else ProseShown(bodies[0], k)
  {
    assert ShownProse([], k) == "";
    if bodies != [] {
      assert bodies[..0] == [];
    }
  }

  lemma ShownByOne(history: seq<Chunk>, c: Chunk, stitch: Stitcher, k: nat)
    ensures ShownProse(Shows(history, c, stitch), k) == if Prose(c) && c.index == k then c.text else ""
  {
    var announced, content := Announces(history, c), Content(history, c, stitch);
    ShownProseConcat(announced, content, k);
    NoProseAnnounced(history, c, k);
    ProseOfContent(history, c, stitch, k);
    assert "" + ShownProse(content, k) == ShownProse(content, k);
  }

  lemma NoProseAnnounced(history: seq<Chunk>, c: Chunk, k: nat)
    ensures ShownProse(Announces(history, c), k) == ""
  {
    ShownOnce(Announces(history, c), k);
  }

  lemma ProseOfContent(history: seq<Chunk>, c: Chunk, stitch: Stitcher, k: nat)
    ensures ShownProse(Content(history, c, stitch), k) == if Prose(c) && c.index == k then c.text else ""
  {
    ShownOnce(Content(history, c, stitch), k);
  }

  lemma {:induction false} ShownIsWritten(chunks: seq<Chunk>, stitch: Stitcher, k: nat)
    ensures ShownProse(Display(chunks, stitch), k) == ProseText(chunks, k)
  {
    if chunks != [] {
      var front, c := chunks[..|chunks| - 1], chunks[|chunks| - 1];
      ShownIsWritten(front, stitch, k);
      ShownProseConcat(Display(front, stitch), Shows(front, c, stitch), k);
      ShownByOne(front, c, stitch, k);
    }
  }

  /** The end of a prose block shows its whole text stitched, which is all that was shown of it before; any other end,
      and one of a block that showed no prose, is the decoder's own. */
  lemma EndStitchesShown(history: seq<Chunk>, k: nat, block: Value, stitch: Stitcher)
    ensures
      var bodies := Display(history + [BlockEnd(k, block)], stitch);
      var name := OrElse(AsStr(Get(block, "type")), "");
      && bodies != [] && bodies[..|bodies| - 1] == Display(history, stitch)
      && bodies[|bodies| - 1] == End(k,
           if (name == "text" || name == "reasoning") && ShownKind(history, k).Some?
           then Obj(map["type" := Str(name),
                        "text" := Str(stitch(ShownProse(Display(history, stitch), k), ShownKind(history, k).value))])
           else block)
  {
    var end := BlockEnd(k, block);
    assert (history + [end])[..|history|] == history;
    ShownIsWritten(history, stitch, k);
    assert Announces(history, end) == [];
  }

  /** The chunk a frame tells of, if it brings anything of the model's own. */
  function Telling(b: Body): seq<Chunk> {
    match b
    case TextFragment(index, text) => [TextDelta(index, text)]
    case ReasoningFragment(index, text) => [ReasoningDelta(index, text)]
    case CallFragment(index, id, name, args) => [ToolCallDelta(index, id, name, args)]
    case Count(usage) => [Usage(usage)]
    case Start(_, _) => []
    case End(_, _) => []
  }

  function TellingAll(bodies: seq<Body>): seq<Chunk> {
    if bodies == [] then [] else TellingAll(bodies[..|bodies| - 1]) + Telling(bodies[|bodies| - 1])
  }

  function Told(chunks: seq<Chunk>): seq<Chunk> {
    if chunks == [] then []
    else
      var last := chunks[|chunks| - 1];
      Told(chunks[..|chunks| - 1]) + if Prose(last) || last.ToolCallDelta? || last.Usage? then [last] else []
  }

  lemma {:induction false} TellingMore(a: seq<Body>, b: seq<Body>)
    requires |b| <= 2
    ensures TellingAll(a + b) == TellingAll(a) + TellingAll(b)
    decreases |b|
  {
    if b == [] {
      assert a + b == a;
    } else {
      var n := |b| - 1;
      assert (a + b)[..|a + b| - 1] == a + b[..n];
      TellingMore(a, b[..n]);
      Associate(TellingAll(a), TellingAll(b[..n]), Telling(b[n]));
    }
  }

  lemma ShowsTells(history: seq<Chunk>, c: Chunk, stitch: Stitcher)
    ensures TellingAll(Shows(history, c, stitch)) == if Prose(c) || c.ToolCallDelta? || c.Usage? then [c] else []
  {
    var content := Content(history, c, stitch);
    TellingMore(Announces(history, c), content);
    AnnouncesTellNothing(history, c);
    ContentTells(history, c, stitch);
    assert [] + TellingAll(content) == TellingAll(content);
  }

  lemma AnnouncesTellNothing(history: seq<Chunk>, c: Chunk)
    ensures TellingAll(Announces(history, c)) == []
  {
    TellingFew(Announces(history, c));
  }

  lemma ContentTells(history: seq<Chunk>, c: Chunk, stitch: Stitcher)
    ensures
      TellingAll(Content(history, c, stitch)) == if Prose(c) || c.ToolCallDelta? || c.Usage? then [c] else []
  {
    TellingFew(Content(history, c, stitch));
  }

  lemma TellingFew(bodies: seq<Body>)
    requires |bodies| <= 1
    ensures TellingAll(bodies) == if bodies == [] then [] else Telling(bodies[0])
  {
    if bodies != [] {
      assert TellingAll(bodies[..0]) == [];
    }
  }

  /** The frames bring every delta and every usage of the reply as what it is, in order, and nothing more. */
  lemma {:induction false} FramesTell(chunks: seq<Chunk>, stitch: Stitcher)
    ensures TellingAll(Display(chunks, stitch)) == Told(chunks)
  {
    if chunks != [] {
      var n := |chunks| - 1;
      FramesTell(chunks[..n], stitch);
      ShowsTells(chunks[..n], chunks[n], stitch);
      TellingMore(Display(chunks[..n], stitch), Shows(chunks[..n], chunks[n], stitch));
    }
  }

  function Starts(bodies: seq<Body>, k: nat): nat {
    if bodies == [] then 0
    else
      var last := bodies[|bodies| - 1];
      Starts(bodies[..|bodies| - 1], k) + if last.Start? && last.index == k then 1 else 0
  }

  lemma {:induction false} BodiesConcat(a: seq<Body>, b: seq<Body>, k: nat)
    ensures DeltaText(a + b, k) == DeltaText(a, k) + DeltaText(b, k)
    ensures Starts(a + b, k) == Starts(a, k) + Starts(b, k)
    decreases |b|
  {
    if b == [] {
      assert a + b == a;
    } else {
      var n := |b| - 1;
      assert (a + b)[..|a + b| - 1] == a + b[..n];
      assert (a + b)[|a + b| - 1] == b[n];
      BodiesConcat(a, b[..n], k);
      Associate(DeltaText(a, k), DeltaText(b[..n], k), DeltaText1(b[n], k));
    }
  }

  lemma AnnouncesOne(history: seq<Chunk>, c: Chunk, k: nat)
    ensures DeltaText(Announces(history, c), k) == ""
    ensures Starts(Announces(history, c), k) == if FirstKind(history, k).None? && Touch(c, k).Some? then 1 else 0
  {
    AtMostOneBody(Announces(history, c), k);
  }

  lemma ContentOne(history: seq<Chunk>, c: Chunk, stitch: Stitcher, k: nat)
    ensures DeltaText(Content(history, c, stitch), k) == Fragment(c, k)
    ensures Starts(Content(history, c, stitch), k) == 0
  {
    AtMostOneBody(Content(history, c, stitch), k);
  }

  lemma AtMostOneBody(bodies: seq<Body>, k: nat)
    requires |bodies| <= 1
    ensures DeltaText(bodies, k) == if bodies == [] then "" else DeltaText1(bodies[0], k)
    ensures Starts(bodies, k) == if bodies != [] && bodies[0].Start? && bodies[0].index == k then 1 else 0
  {
    if bodies != [] {
      assert bodies[..0] == [];
    }
  }

  lemma ShowsOne(history: seq<Chunk>, c: Chunk, stitch: Stitcher, k: nat)
    ensures DeltaText(Shows(history, c, stitch), k) == Fragment(c, k)
    ensures Starts(Shows(history, c, stitch), k) == if FirstKind(history, k).None? && Touch(c, k).Some? then 1 else 0
  {
    BodiesConcat(Announces(history, c), Content(history, c, stitch), k);
    AnnouncesOne(history, c, k);
    ContentOne(history, c, stitch, k);
  }

  /** A client adding up a block's live deltas has exactly what the model wrote, and every touched block starts once. */
  lemma {:induction false} LiveText(chunks: seq<Chunk>, stitch: Stitcher, k: nat)
    ensures DeltaText(Display(chunks, stitch), k) == BlockText(chunks, k)
    ensures Starts(Display(chunks, stitch), k) == if FirstKind(chunks, k).Some? then 1 else 0
  {
    if chunks == [] {
    } else {
      var front := chunks[..|chunks| - 1];
      LiveText(front, stitch, k);
      ShowsOne(front, chunks[|chunks| - 1], stitch, k);
      BodiesConcat(Display(front, stitch), Shows(front, chunks[|chunks| - 1], stitch), k);
    }
  }

  /** No delta reaches a client before its block was started, under the kind that first touched it. */
  lemma {:induction false} StartedFirst(chunks: seq<Chunk>, stitch: Stitcher, k: nat, at: nat)
    requires at < |Display(chunks, stitch)| && IsDelta(Display(chunks, stitch)[at], k)
    ensures FirstKind(chunks, k).Some? && Start(k, FirstKind(chunks, k).value) in Display(chunks, stitch)[..at]
  {
    var front, c := chunks[..|chunks| - 1], chunks[|chunks| - 1];
    var shown := Display(front, stitch);
    if at < |shown| {
      StartedFirst(front, stitch, k, at);
      assert Display(chunks, stitch)[..at] == shown[..at];
    } else {
      StartedHere(front, c, stitch, k, at - |shown|);
      assert Display(chunks, stitch)[..at] == shown + Shows(front, c, stitch)[..at - |shown|];
    }
  }

  lemma StartedHere(front: seq<Chunk>, c: Chunk, stitch: Stitcher, k: nat, at: nat)
    requires at < |Shows(front, c, stitch)| && IsDelta(Shows(front, c, stitch)[at], k)
    ensures
      var kind := if FirstKind(front, k).Some? then FirstKind(front, k) else Touch(c, k);
      kind.Some? && Start(k, kind.value) in Display(front, stitch) + Shows(front, c, stitch)[..at]
  {
    if FirstKind(front, k).Some? {
      StartShown(front, stitch, k);
    } else {
      assert at == 1 && Shows(front, c, stitch)[..at][0] == Start(k, Touch(c, k).value);
    }
  }

  lemma {:induction false} StartShown(chunks: seq<Chunk>, stitch: Stitcher, k: nat)
    requires FirstKind(chunks, k).Some?
    ensures Start(k, FirstKind(chunks, k).value) in Display(chunks, stitch)
  {
    var front, c := chunks[..|chunks| - 1], chunks[|chunks| - 1];
    if FirstKind(front, k).Some? {
      StartShown(front, stitch, k);
    } else {
      assert Shows(front, c, stitch)[0] == Start(k, Touch(c, k).value);
    }
  }
}
