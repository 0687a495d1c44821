/** The assistant message a reply settles to, and its agreement with what was shown live and what was recorded. */
module AssembledMessage {
  import opened Json
  import opened AssistantStream
  import opened StreamRecords

  datatype Part =
    | TextPart(text: string)
    | ReasoningPart(text: string)
    | CallPart(id: string, name: string, arguments: Value)

  /** The JSON reader of a call's arguments; text it cannot read stands for an empty object. */
  type Reader = string -> Option<Value>

  // ------------------------------------------------------- what the chunks say

  function LastId(chunks: seq<Chunk>, k: nat): string {
    if chunks == [] then ""
    else
      var c := chunks[|chunks| - 1];
      if c.ToolCallDelta? && c.index == k && c.id != "" then c.id else LastId(chunks[..|chunks| - 1], k)
  }

  function LastName(chunks: seq<Chunk>, k: nat): string {
    if chunks == [] then ""
    else
      var c := chunks[|chunks| - 1];
      if c.ToolCallDelta? && c.index == k && c.name.Some? then c.name.value else LastName(chunks[..|chunks| - 1], k)
  }

  function LastUsage(chunks: seq<Chunk>): Option<Value> {
    if chunks == [] then None
    else if chunks[|chunks| - 1].Usage? then Some(chunks[|chunks| - 1].usage)
    else LastUsage(chunks[..|chunks| - 1])
  }

  /** A chunk that touches block `k`, and as what. */
  predicate Touches(c: Chunk, k: nat, kind: Kind) {
    match c
    case BlockStart(index, started) => index == k && started == kind
    case TextDelta(index, _) => index == k && kind == Text
    case ReasoningDelta(index, _) => index == k && kind == Reasoning
    case ToolCallDelta(index, _, _, _) => index == k && kind == ToolCall
    case _ => false
  }

  /** A block is of the kind as which it is touched first. */
  lemma {:induction false} KindIsFirstTouch(chunks: seq<Chunk>, k: nat, i: nat, kind: Kind)
    requires i < |chunks| && Touches(chunks[i], k, kind)
    requires forall j, other | 0 <= j < i :: !Touches(chunks[j], k, other)
    ensures FirstKind(chunks, k) == Some(kind)
  {
    var n := |chunks| - 1;
    if i < n {
      KindIsFirstTouch(chunks[..n], k, i, kind);
    } else {
      Untouched(chunks[..n], k);
    }
  }

  lemma {:induction false} Untouched(chunks: seq<Chunk>, k: nat)
    requires forall j, other | 0 <= j < |chunks| :: !Touches(chunks[j], k, other)
    ensures FirstKind(chunks, k) == None
  {
    if chunks != [] {
      var n := |chunks| - 1;
      Untouched(chunks[..n], k);
      assert forall other :: !Touches(chunks[n], k, other);
      assert Touch(chunks[n], k).Some? ==> Touches(chunks[n], k, Touch(chunks[n], k).value);
    }
  }

  /** The id, the name and the usage are the last that came. */
  lemma {:induction false} LastOnesCount(chunks: seq<Chunk>, k: nat, i: nat)
    requires i < |chunks|
    ensures chunks[i].Usage? && (forall j | i < j < |chunks| :: !chunks[j].Usage?) ==>
      LastUsage(chunks) == Some(chunks[i].usage)
    ensures CallsWithId(chunks[i], k) && (forall j | i < j < |chunks| :: !CallsWithId(chunks[j], k)) ==>
      LastId(chunks, k) == chunks[i].id
    ensures CallsWithName(chunks[i], k) && (forall j | i < j < |chunks| :: !CallsWithName(chunks[j], k)) ==>
      Some(LastName(chunks, k)) == chunks[i].name
  {
    var n := |chunks| - 1;
    if i < n {
      LastOnesCount(chunks[..n], k, i);
    }
  }

  predicate CallsWithId(c: Chunk, k: nat) {
    c.ToolCallDelta? && c.index == k && c.id != ""
  }

  predicate CallsWithName(c: Chunk, k: nat) {
    c.ToolCallDelta? && c.index == k && c.name.Some?
  }

  /** What a block becomes: nothing if prose without text, and a call in any case. */
  function PartOf(chunks: seq<Chunk>, k: nat, read: Reader): seq<Part> {
    var text := BlockText(chunks, k);
    match FirstKind(chunks, k)
    case None => []
    case Some(Text) => if text == "" then [] else [TextPart(text)]
    case Some(Reasoning) => if text == "" then [] else [ReasoningPart(text)]
    case Some(ToolCall) => [CallPart(LastId(chunks, k), LastName(chunks, k), OrElse(read(text), Obj(map[])))]
  }

  /** The parts of the blocks below `n`, in index order. */
  function PartsBelow(chunks: seq<Chunk>, n: nat, read: Reader): seq<Part> {
    if n == 0 then [] else PartsBelow(chunks, n - 1, read) + PartOf(chunks, n - 1, read)
  }

  /** No block of the list has an index this large. */
  function Bound(chunks: seq<Chunk>): (n: nat)
    ensures forall k: nat :: k >= n ==> FirstKind(chunks, k).None?
  {
    if chunks == [] then 0
    else
      var before, c := Bound(chunks[..|chunks| - 1]), chunks[|chunks| - 1];
      if (c.BlockStart? || Prose(c) || c.ToolCallDelta?) && c.index >= before then c.index + 1 else before
  }

  function Parts(chunks: seq<Chunk>, read: Reader): seq<Part> {
    PartsBelow(chunks, Bound(chunks), read)
  }

  lemma {:induction false} GapAddsNothing(chunks: seq<Chunk>, m: nat, n: nat, read: Reader)
    requires m <= n && forall k: nat :: m <= k < n ==> FirstKind(chunks, k).None?
    ensures PartsBelow(chunks, n, read) == PartsBelow(chunks, m, read)
    decreases n
  {
    if m < n {
      GapAddsNothing(chunks, m, n - 1, read);
      assert PartOf(chunks, n - 1, read) == [];
    }
  }

  // ----------------------------------------------------------------- assembly

  type Calls = map<nat, (string, string)>

  ghost predicate HoldsBlock(blocks: Blocks, calls: Calls, chunks: seq<Chunk>, k: nat) {
    && FirstKind(chunks, k) == (if k in blocks then Some(blocks[k].0) else None)
    && BlockText(chunks, k) == (if k in blocks then blocks[k].1 else "")
    && LastId(chunks, k) == (if k in calls then calls[k].0 else "")
    && LastName(chunks, k) == (if k in calls then calls[k].1 else "")
  }

  ghost predicate Holds(blocks: Blocks, calls: Calls, chunks: seq<Chunk>) {
    forall k: nat :: HoldsBlock(blocks, calls, chunks, k)
  }

  /** One chunk of the accumulation: a block keeps the kind it was first given. */
  method Take(blocks: Blocks, calls: Calls, c: Chunk, ghost chunks: seq<Chunk>)
    returns (nextBlocks: Blocks, nextCalls: Calls)
    requires Holds(blocks, calls, chunks)
    ensures Holds(nextBlocks, nextCalls, chunks + [c])
  {
    nextBlocks, nextCalls := blocks, calls;
    match c {
      case BlockStart(index, kind) =>
        if index !in nextBlocks {
          nextBlocks := nextBlocks[index := (kind, "")];
        }
      case TextDelta(index, text) =>
        var entry := if index in nextBlocks then nextBlocks[index] else (Text, "");
        nextBlocks := nextBlocks[index := (entry.0, entry.1 + text)];
      case ReasoningDelta(index, text) =>
        var entry := if index in nextBlocks then nextBlocks[index] else (Reasoning, "");
        nextBlocks := nextBlocks[index := (entry.0, entry.1 + text)];
      case ToolCallDelta(index, id, name, args) =>
        var call := if index in nextCalls then nextCalls[index] else ("", "");
        if id != "" {
          call := (id, call.1);
        }
        if name.Some? {
          call := (call.0, name.value);
        }
        nextCalls := nextCalls[index := call];
        var entry := if index in nextBlocks then nextBlocks[index] else (ToolCall, "");
        nextBlocks := nextBlocks[index := (entry.0, entry.1 + args)];
      case _ =>
    }
    forall k: nat
      ensures HoldsBlock(nextBlocks, nextCalls, chunks + [c], k)
    {
      assert HoldsBlock(blocks, calls, chunks, k);
      OneMoreChunk(chunks, c, k);
      OneMoreCall(chunks, c, k);
    }
  }

  lemma OneMoreCall(chunks: seq<Chunk>, c: Chunk, k: nat)
    ensures LastId(chunks + [c], k) ==
      if c.ToolCallDelta? && c.index == k && c.id != "" then c.id else LastId(chunks, k)
    ensures LastName(chunks + [c], k)
         == if c.ToolCallDelta? && c.index == k && c.name.Some? then c.name.value else LastName(chunks, k)
    ensures LastUsage(chunks + [c]) == if c.Usage? then Some(c.usage) else LastUsage(chunks)
  {
    assert (chunks + [c])[..|chunks|] == chunks;
  }

  /** The least key of what is left: an ordered map is walked in key order. */
  method Least(keys: set<nat>) returns (least: nat)
    requires keys != {}
    ensures least in keys && forall k :: k in keys ==> least <= k
  {
    var rest := keys;
    least :| least in rest;
    rest := rest - {least};
    while rest != {}
      invariant rest <= keys && least in keys
      invariant forall k :: k in keys && k !in rest ==> least <= k
      decreases |rest|
    {
      var k :| k in rest;
      if k < least {
        least := k;
      }
      rest := rest - {k};
    }
  }

  /** The part of one block goes behind the others. */
  method EmitBlock(blocks: Blocks, calls: Calls, read: Reader, k: nat, before: seq<Part>, ghost chunks: seq<Chunk>)
    returns (content: seq<Part>)
    requires k in blocks && HoldsBlock(blocks, calls, chunks, k)
    ensures content == before + PartOf(chunks, k, read)
  {
    content := before;
    var (kind, text) := blocks[k];
    match kind {
      case Text =>
        if text != "" {
          content := content + [TextPart(text)];
        }
      case Reasoning =>
        if text != "" {
          content := content + [ReasoningPart(text)];
        }
      case ToolCall =>
        var (id, name) := if k in calls then calls[k] else ("", "");
        content := content + [CallPart(id, name, OrElse(read(text), Obj(map[])))];
    }
  }

  /** The parts in index order, from the accumulated blocks. */
  method Emit(blocks: Blocks, calls: Calls, read: Reader, ghost chunks: seq<Chunk>) returns (content: seq<Part>)
    requires Holds(blocks, calls, chunks)
    ensures content == Parts(chunks, read)
  {
    content := [];
    var rest := blocks.Keys;
    ghost var done: nat := 0;
    while rest != {}
      invariant rest <= blocks.Keys
      invariant forall k :: k in blocks && k !in rest ==> k < done
      invariant forall k :: k in rest ==> k >= done
      invariant content == PartsBelow(chunks, done, read)
      decreases |rest|
    {
      var k := Least(rest);
      forall j: nat | done <= j < k
        ensures FirstKind(chunks, j).None?
      {
        assert HoldsBlock(blocks, calls, chunks, j);
      }
      GapAddsNothing(chunks, done, k, read);
      assert HoldsBlock(blocks, calls, chunks, k);
      content := EmitBlock(blocks, calls, read, k, content, chunks);
      done := k + 1;
      rest := rest - {k};
    }
    forall j: nat | j >= done
      ensures FirstKind(chunks, j).None?
    {
      assert HoldsBlock(blocks, calls, chunks, j);
    }
    if done <= Bound(chunks) {
      GapAddsNothing(chunks, done, Bound(chunks), read);
    } else {
      GapAddsNothing(chunks, Bound(chunks), done, read);
    }
  }

  method AssembleMessage(chunks: seq<Chunk>, read: Reader) returns (content: seq<Part>, usage: Option<Value>)
    ensures content == Parts(chunks, read)
    ensures usage == LastUsage(chunks)
  {
    var blocks: Blocks, calls: Calls := map[], map[];
    usage := None;
    for i := 0 to |chunks|
      invariant Holds(blocks, calls, chunks[..i])
      invariant usage == LastUsage(chunks[..i])
    {
      OneMoreCall(chunks[..i], chunks[i], 0);
      blocks, calls := Take(blocks, calls, chunks[i], chunks[..i]);
      if chunks[i].Usage? {
        usage := Some(chunks[i].usage);
      }
      assert chunks[..i + 1] == chunks[..i] + [chunks[i]];
    }
    assert chunks[..|chunks|] == chunks;
    content := Emit(blocks, calls, read, chunks);
  }

  // ----------------------------------------------------------------- agreement

  /** What a client adds up live for a block, and would add up from the recorded stream, is the text of its part. */
  lemma ThreeFormsAgree(chunks: seq<Chunk>, stitch: Stitcher, read: Reader, k: nat)
    ensures DeltaText(Display(chunks, stitch), k) == BlockText(chunks, k)
    ensures DeltaText(Display(ExpandAll(RecordValues(Packed(chunks))), stitch), k) == BlockText(chunks, k)
    ensures FirstKind(chunks, k).Some? ==>
      var text := DeltaText(Display(chunks, stitch), k);
      match FirstKind(chunks, k).value
      case Text => text != "" ==> TextPart(text) in Parts(chunks, read)
      case Reasoning => text != "" ==> ReasoningPart(text) in Parts(chunks, read)
      case ToolCall =>
        CallPart(LastId(chunks, k), LastName(chunks, k), OrElse(read(text), Obj(map[]))) in Parts(chunks, read)
  {
    LiveText(chunks, stitch, k);
    LiveText(ExpandAll(RecordValues(Packed(chunks))), stitch, k);
    ReplayKeepsText(chunks, k);
    if FirstKind(chunks, k).Some? && PartOf(chunks, k, read) != [] {
      PartIn(chunks, k, Bound(chunks), read, PartOf(chunks, k, read)[0]);
    }
  }

  lemma {:induction false} PartIn(chunks: seq<Chunk>, k: nat, n: nat, read: Reader, p: Part)
    requires k < n && p in PartOf(chunks, k, read)
    ensures p in PartsBelow(chunks, n, read)
    decreases n
  {
    var below, last := PartsBelow(chunks, n - 1, read), PartOf(chunks, n - 1, read);
    assert PartsBelow(chunks, n, read) == below + last;
    if k < n - 1 {
      PartIn(chunks, k, n - 1, read, p);
      assert p in below;
    } else {
      assert p in last;
    }
  }

  /** Part `i` comes from one block, with `i` parts before it from the blocks below: of the block's kind, with its text,
      and no prose without any. */
  lemma {:induction false} PartFrom(chunks: seq<Chunk>, n: nat, read: Reader, i: nat) returns (k: nat)
    requires i < |PartsBelow(chunks, n, read)|
    ensures k < n && |PartsBelow(chunks, k, read)| == i && PartOf(chunks, k, read) == [PartsBelow(chunks, n, read)[i]]
    ensures match PartsBelow(chunks, n, read)[i]
      case TextPart(text) => FirstKind(chunks, k) == Some(Text) && text == BlockText(chunks, k) != ""
      case ReasoningPart(text) => FirstKind(chunks, k) == Some(Reasoning) && text == BlockText(chunks, k) != ""
      case CallPart(id, name, arguments) =>
        && FirstKind(chunks, k) == Some(ToolCall) && id == LastId(chunks, k) && name == LastName(chunks, k)
        && arguments == OrElse(read(BlockText(chunks, k)), Obj(map[]))
    decreases n
  {
    if i < |PartsBelow(chunks, n - 1, read)| {
      k := PartFrom(chunks, n - 1, read, i);
    } else {
      k := n - 1;
    }
  }
}
