/** The packed `stream` array of a reply's log row, and reading it back for replay. */
module StreamRecords {
  import opened Json
  import opened AssistantStream
  import opened Seqs

  datatype Record =
    | Fragments(kind: Kind, index: nat, texts: seq<string>)
    | CallFragments(index: nat, id: string, name: Option<string>, args: seq<string>)
    | Raw(chunk: Chunk)

  predicate Delta(c: Chunk) {
    Prose(c) || c.ToolCallDelta?
  }

  /** `c` goes into the record that `first` opened. */
  predicate SameRecord(first: Chunk, c: Chunk) {
    || (first.TextDelta? && c.TextDelta? && first.index == c.index)
    || (first.ReasoningDelta? && c.ReasoningDelta? && first.index == c.index)
    || (first.ToolCallDelta? && c.ToolCallDelta? && first.index == c.index)
  }

  /** A run: the chunks that one record packs. */
  ghost predicate IsRun(run: seq<Chunk>) {
    run != [] && forall i :: 0 < i < |run| ==> SameRecord(run[0], run[i])
  }

  function Texts(run: seq<Chunk>): (texts: seq<string>)
    ensures |texts| == |run|
  {
    seq(|run|, i requires 0 <= i < |run| =>
      match run[i]
      case TextDelta(_, text) => text
      case ReasoningDelta(_, text) => text
      case ToolCallDelta(_, _, _, args) => args
      case _ => "")
  }

  function RecordOf(run: seq<Chunk>): Record
    requires run != []
  {
    match run[0]
    case TextDelta(index, _) => Fragments(Text, index, Texts(run))
    case ReasoningDelta(index, _) => Fragments(Reasoning, index, Texts(run))
    case ToolCallDelta(index, id, name, _) => CallFragments(index, id, name, Texts(run))
    case _ => Raw(run[0])
  }

  /** How far the record opened by the first chunk reaches. */
  function RunLength(chunks: seq<Chunk>, from: nat): (n: nat)
    requires 1 <= from <= |chunks| && IsRun(chunks[..from])
    ensures from <= n <= |chunks| && IsRun(chunks[..n])
    ensures n < |chunks| ==> !SameRecord(chunks[0], chunks[n])
    decreases |chunks| - from
  {
    if from == |chunks| || !SameRecord(chunks[0], chunks[from]) then from
    else
      assert chunks[..from + 1] == chunks[..from] + [chunks[from]];
      RunLength(chunks, from + 1)
  }

  function Packed(chunks: seq<Chunk>): seq<Record> {
    if chunks == [] then []
    else
      var n := RunLength(chunks, 1);
      [RecordOf(chunks[..n])] + Packed(chunks[n..])
  }

  function Unpacked(r: Record): seq<Chunk> {
    match r
    case Fragments(kind, index, texts) =>
      seq(|texts|, i requires 0 <= i < |texts| =>
        if kind == Text then TextDelta(index, texts[i]) else ReasoningDelta(index, texts[i]))
    case CallFragments(index, id, name, args) =>
      seq(|args|, i requires 0 <= i < |args| => ToolCallDelta(index, id, if i == 0 then name else None, args[i]))
    case Raw(c) => [c]
  }

  function UnpackedAll(records: seq<Record>): seq<Chunk> {
    if records == [] then [] else Unpacked(records[0]) + UnpackedAll(records[1..])
  }

  /** A delta that goes on a call says the same id and no name. */
  predicate Continues(a: Chunk, b: Chunk) {
    a.ToolCallDelta? && b.ToolCallDelta? && a.index == b.index ==> b.id == a.id && b.name.None?
  }

  ghost predicate Steady(chunks: seq<Chunk>) {
    forall i :: 0 <= i < |chunks| - 1 ==> Continues(chunks[i], chunks[i + 1])
  }

  lemma {:induction false} SteadyRun(run: seq<Chunk>, i: nat)
    requires IsRun(run) && Steady(run) && run[0].ToolCallDelta? && i < |run|
    ensures run[i].ToolCallDelta? && run[i].id == run[0].id && (i > 0 ==> run[i].name.None?)
    decreases i
  {
    if i > 0 {
      SteadyRun(run, i - 1);
      assert Continues(run[i - 1], run[i]);
    }
  }

  lemma RunComesBackIff(run: seq<Chunk>)
    requires IsRun(run)
    requires !Delta(run[0]) ==> |run| == 1
    ensures |Unpacked(RecordOf(run))| == |run|
    ensures (Unpacked(RecordOf(run)) == run) <==> Steady(run)
  {
    var back := Unpacked(RecordOf(run));
    if Steady(run) {
      forall i | 0 <= i < |run|
        ensures back[i] == run[i]
      {
        if run[0].ToolCallDelta? {
          SteadyRun(run, i);
        }
      }
    }
    if back == run {
      forall i | 0 <= i < |run| - 1
        ensures Continues(run[i], run[i + 1])
      {
        assert back[i] == run[i] && back[i + 1] == run[i + 1];
      }
    }
  }

  lemma SteadySplits(chunks: seq<Chunk>, n: nat)
    requires 0 < n <= |chunks| && IsRun(chunks[..n])
    requires n < |chunks| ==> !SameRecord(chunks[0], chunks[n])
    ensures Steady(chunks) <==> Steady(chunks[..n]) && Steady(chunks[n..])
  {
    if Steady(chunks[..n]) && Steady(chunks[n..]) {
      forall i | 0 <= i < |chunks| - 1
        ensures Continues(chunks[i], chunks[i + 1])
      {
        if i + 1 < n {
          assert Continues(chunks[..n][i], chunks[..n][i + 1]);
        } else if i >= n {
          assert Continues(chunks[n..][i - n], chunks[n..][i + 1 - n]);
        } else if i > 0 {
          assert SameRecord(chunks[..n][0], chunks[..n][i]);
        }
      }
    }
    if Steady(chunks) {
      forall i | 0 <= i < |chunks| - n - 1
        ensures Continues(chunks[n..][i], chunks[n..][i + 1])
      {
        assert Continues(chunks[n + i], chunks[n + i + 1]);
      }
    }
  }

  lemma RunOfOne(chunks: seq<Chunk>)
    requires chunks != [] && !Delta(chunks[0])
    ensures RunLength(chunks, 1) == 1
  {
  }

  lemma PackedHead(chunks: seq<Chunk>, n: nat)
    requires chunks != [] && n == RunLength(chunks, 1)
    ensures UnpackedAll(Packed(chunks)) == Unpacked(RecordOf(chunks[..n])) + UnpackedAll(Packed(chunks[n..]))
  {
    var records := Packed(chunks);
    assert records[0] == RecordOf(chunks[..n]) && records[1..] == Packed(chunks[n..]);
  }

  /** Unpacking what was packed gives the chunks back exactly when no delta of a call, coming right after another
      delta of the same block, changes its id or repeats a name. */
  lemma {:induction false} PackingReadsBackIff(chunks: seq<Chunk>)
    ensures |UnpackedAll(Packed(chunks))| == |chunks|
    ensures (UnpackedAll(Packed(chunks)) == chunks) <==> Steady(chunks)
    decreases |chunks|
  {
    if chunks == [] {
    } else {
      var n := RunLength(chunks, 1);
      var run, rest := chunks[..n], chunks[n..];
      if !Delta(chunks[0]) {
        RunOfOne(chunks);
      }
      RunComesBackIff(run);
      PackingReadsBackIff(rest);
      SteadySplits(chunks, n);
      PackedHead(chunks, n);
      assert chunks == run + rest;
      HalvesEqual(Unpacked(RecordOf(run)), UnpackedAll(Packed(rest)), run, rest);
    }
  }

  lemma HalvesEqual<T>(a: seq<T>, b: seq<T>, c: seq<T>, d: seq<T>)
    requires |a| == |c|
    ensures a + b == c + d <==> a == c && b == d
  {
    if a + b == c + d {
      assert a == (a + b)[..|a|] && c == (c + d)[..|c|];
      assert b == (a + b)[|a|..] && d == (c + d)[|c|..];
    }
  }

  // ------------------------------------------------------------- as JSON

  function StrArr(texts: seq<string>): Value {
    Arr(seq(|texts|, i requires 0 <= i < |texts| => Str(texts[i])))
  }

  function FailureValue(message: string, code: string): Value {
    Obj(map["message" := Str(message), "code" := Str(code)])
  }

  function ReasonValue(r: FinishReason): Value {
    match r
    case Stop => Obj(map["kind" := Str("stop")])
    case ToolCalls => Obj(map["kind" := Str("tool-calls")])
    case MaxTokens => Obj(map["kind" := Str("max-tokens")])
    case Aborted(message, code) => Obj(map["kind" := Str("aborted"), "failure" := FailureValue(message, code)])
    case Error(message, code) => Obj(map["kind" := Str("error"), "failure" := FailureValue(message, code)])
  }

  /** `chunk_value` */
  function ChunkValue(c: Chunk): Value {
    match c
    case BlockStart(index, kind) =>
      Obj(map["type" := Str("block-start"), "index" := Num(Int(index)), "blockType" := Str(KindName(kind))])
    case TextDelta(index, text) =>
      Obj(map["type" := Str("text-delta"), "index" := Num(Int(index)), "text" := Str(text)])
    case ReasoningDelta(index, text) =>
      Obj(map["type" := Str("reasoning-delta"), "index" := Num(Int(index)), "text" := Str(text)])
    case ToolCallDelta(index, id, name, args) =>
      Obj(map["type" := Str("tool-call-delta"), "index" := Num(Int(index)), "id" := Str(id),
              "name" := (if name.Some? then Str(name.value) else Null), "argumentsDelta" := Str(args)])
    case BlockEnd(index, block) =>
      Obj(map["type" := Str("block-end"), "index" := Num(Int(index)), "block" := block])
    case Usage(usage) => Obj(map["type" := Str("usage"), "usage" := usage])
    case Finish(reason) => Obj(map["type" := Str("finish"), "reason" := ReasonValue(reason)])
  }

  function ParseKind(name: string): Option<Kind> {
    match name
    case "text" => Some(Text)
    case "reasoning" => Some(Reasoning)
    case "tool-call" => Some(ToolCall)
    case _ => None
  }

  function ParseFinish(v: Value): Option<FinishReason> {
    var kind := AsStr(Get(v, "kind"));
    var failure := OrElse(Get(v, "failure"), Null);
    var message, code := OrElse(AsStr(Get(failure, "message")), ""), OrElse(AsStr(Get(failure, "code")), "");
    if kind.None? then None
    else match kind.value
      case "stop" => Some(Stop)
      case "tool-calls" => Some(ToolCalls)
      case "max-tokens" => Some(MaxTokens)
      case "aborted" => Some(Aborted(message, code))
      case "error" => Some(Error(message, code))
      case _ => None
  }

  /** `parse_chunk`: a missing index reads as zero, and a value that is not a chunk is skipped. */
  function ParseChunk(v: Value): Option<Chunk> {
    var name := AsStr(Get(v, "type"));
    var index := OrElse(AsNat(Get(v, "index")), 0);
    if name.None? then None
    else match name.value
      case "block-start" =>
        var kind := ParseKind(OrElse(AsStr(Get(v, "blockType")), "text"));
        if kind.Some? then Some(BlockStart(index, kind.value)) else None
      case "text-delta" =>
        var text := AsStr(Get(v, "text"));
        if text.Some? then Some(TextDelta(index, text.value)) else None
      case "reasoning-delta" =>
        var text := AsStr(Get(v, "text"));
        if text.Some? then Some(ReasoningDelta(index, text.value)) else None
      case "tool-call-delta" =>
        var id := AsStr(Get(v, "id"));
        if id.Some?
        then Some(ToolCallDelta(index, id.value, AsStr(Get(v, "name")), OrElse(AsStr(Get(v, "argumentsDelta")), "")))
        else None
      case "block-end" => Some(BlockEnd(index, OrElse(Get(v, "block"), Null)))
      case "usage" => Some(Usage(OrElse(Get(v, "usage"), Null)))
      case "finish" =>
        var reason := Get(v, "reason");
        if reason.None? then None
        else
          var finish := ParseFinish(reason.value);
          if finish.Some? then Some(Finish(finish.value)) else None
      case _ => None
  }

  lemma FinishReadsBack(r: FinishReason)
    ensures ParseFinish(ReasonValue(r)) == Some(r)
  {
    var v := ReasonValue(r);
    assert r.Aborted? || r.Error? ==> Get(v, "failure") == Some(FailureValue(r.message, r.code));
  }

  /** Exactly which values are chunks; a block that does not say its kind is text. */
  lemma ParsedIff(v: Value)
    ensures
      var name := OrElse(AsStr(Get(v, "type")), "");
      ParseChunk(v).Some? <==>
        || (name == "block-start" && OrElse(AsStr(Get(v, "blockType")), "text") in {"text", "reasoning", "tool-call"})
        || ((name == "text-delta" || name == "reasoning-delta") && AsStr(Get(v, "text")).Some?)
        || (name == "tool-call-delta" && AsStr(Get(v, "id")).Some?)
        || name == "block-end" || name == "usage"
        || (name == "finish" && Get(v, "reason").Some?
            && OrElse(AsStr(Get(Get(v, "reason").value, "kind")), "")
               in {"stop", "tool-calls", "max-tokens", "aborted", "error"})
  {
  }

  /** Every chunk written raw reads back as itself. */
  lemma ChunkReadsBack(c: Chunk)
    ensures ParseChunk(ChunkValue(c)) == Some(c)
  {
    match c
    case Finish(reason) => FinishReadsBack(reason);
    case _ =>
  }

  function RecordValue(r: Record): Value {
    match r
    case Fragments(kind, index, texts) =>
      Obj(map["type" := Str(if kind == Text then "text-chunks" else "reasoning-chunks"),
              "index" := Num(Int(index)), "texts" := StrArr(texts)])
    case CallFragments(index, id, name, args) =>
      var record :=
        map["type" := Str("tool-call-chunks"), "index" := Num(Int(index)), "id" := Str(id), "args" := StrArr(args)];
      Obj(if name.Some? then record["name" := Str(name.value)] else record)
    case Raw(c) => Obj(map["type" := Str("chunk"), "chunk" := ChunkValue(c)])
  }

  function Strings(items: seq<Value>): seq<string> {
    if items == [] then []
    else (if items[0].Str? then [items[0].s] else []) + Strings(items[1..])
  }

  /** One record of a recorded stream; what is not recognised yields nothing. */
  function Expand(v: Value): seq<Chunk> {
    var name := OrElse(AsStr(Get(v, "type")), "");
    var index := AsNat(Get(v, "index"));
    match name
    case "chunk" =>
      var chunk := Get(v, "chunk");
      if chunk.Some? && ParseChunk(chunk.value).Some? then [ParseChunk(chunk.value).value] else []
    case "text-chunks" => ExpandProse(v, Text)
    case "reasoning-chunks" => ExpandProse(v, Reasoning)
    case "tool-call-chunks" =>
      var id, args := AsStr(Get(v, "id")), AsArray(Get(v, "args"));
      if index.Some? && id.Some? && args.Some?
      then Unpacked(CallFragments(index.value, id.value, AsStr(Get(v, "name")), Strings(args.value)))
      else []
    case _ => []
  }

  function ExpandProse(v: Value, kind: Kind): seq<Chunk> {
    var index, texts := AsNat(Get(v, "index")), AsArray(Get(v, "texts"));
    if index.Some? && texts.Some? then Unpacked(Fragments(kind, index.value, Strings(texts.value))) else []
  }

  lemma {:induction false} StringsRead(texts: seq<string>)
    ensures Strings(StrArr(texts).items) == texts
    decreases |texts|
  {
    if texts == [] {
    } else {
      StringsRead(texts[1..]);
      assert StrArr(texts).items[1..] == StrArr(texts[1..]).items;
    }
  }

  lemma RecordReadsBack(r: Record)
    requires r.Fragments? ==> r.kind != ToolCall
    ensures Expand(RecordValue(r)) == Unpacked(r)
  {
    var v := RecordValue(r);
    match r
    case Fragments(kind, index, texts) =>
      StringsRead(texts);
      assert Get(v, "texts") == Some(StrArr(texts));
    case CallFragments(index, id, name, args) =>
      StringsRead(args);
      assert Get(v, "args") == Some(StrArr(args));
      assert AsStr(Get(v, "name")) == name;
    case Raw(c) =>
      ChunkReadsBack(c);
      assert Get(v, "chunk") == Some(ChunkValue(c));
  }

  function RecordValues(records: seq<Record>): seq<Value> {
    if records == [] then [] else [RecordValue(records[0])] + RecordValues(records[1..])
  }

  /** A record of another kind, or without what its kind needs, is skipped. */
  lemma OthersSkipped(v: Value)
    ensures
      var name := OrElse(AsStr(Get(v, "type")), "");
      var prose := name == "text-chunks" || name == "reasoning-chunks";
      var index := AsNat(Get(v, "index"));
      || (!prose && name != "chunk" && name != "tool-call-chunks")
      || (name == "chunk" && (Get(v, "chunk").None? || ParseChunk(Get(v, "chunk").value).None?))
      || (prose && (index.None? || AsArray(Get(v, "texts")).None?))
      || (name == "tool-call-chunks"
          && (index.None? || AsStr(Get(v, "id")).None? || AsArray(Get(v, "args")).None?))
      ==> Expand(v) == []
  {
  }

  function ExpandAll(stream: seq<Value>): seq<Chunk> {
    if stream == [] then [] else Expand(stream[0]) + ExpandAll(stream[1..])
  }

  ghost predicate Writable(records: seq<Record>) {
    forall i :: 0 <= i < |records| ==> (records[i].Fragments? ==> records[i].kind != ToolCall)
  }

  lemma {:induction false} PackedWritable(chunks: seq<Chunk>)
    ensures Writable(Packed(chunks))
    decreases |chunks|
  {
    if chunks == [] {
    } else {
      PackedWritable(chunks[RunLength(chunks, 1)..]);
    }
  }

  lemma {:induction false} ValuesReadBack(records: seq<Record>)
    requires Writable(records)
    ensures ExpandAll(RecordValues(records)) == UnpackedAll(records)
    decreases |records|
  {
    if records == [] {
    } else {
      RecordReadsBack(records[0]);
      ValuesReadBack(records[1..]);
      var values := RecordValues(records);
      assert values[0] == RecordValue(records[0]) && values[1..] == RecordValues(records[1..]);
    }
  }

  /** The stream a log row records replays as the chunks that were packed exactly when they were steady. */
  lemma ReplayIff(chunks: seq<Chunk>)
    ensures (ExpandAll(RecordValues(Packed(chunks))) == chunks) <==> Steady(chunks)
  {
    PackedWritable(chunks);
    ValuesReadBack(Packed(chunks));
    PackingReadsBackIff(chunks);
  }

  lemma {:induction false} SameText(a: seq<Chunk>, b: seq<Chunk>, k: nat)
    requires |a| == |b| && forall i :: 0 <= i < |a| ==> Fragment(a[i], k) == Fragment(b[i], k)
    ensures BlockText(a, k) == BlockText(b, k)
  {
    if a == [] {
    } else {
      SameText(a[..|a| - 1], b[..|b| - 1], k);
    }
  }

  /** Steady or not, a replay gives every block the text the model wrote. */
  lemma {:induction false} ReplayKeepsText(chunks: seq<Chunk>, k: nat)
    ensures BlockText(ExpandAll(RecordValues(Packed(chunks))), k) == BlockText(chunks, k)
  {
    PackedWritable(chunks);
    ValuesReadBack(Packed(chunks));
    PackedText(chunks, k);
  }

  lemma {:induction false} PackedText(chunks: seq<Chunk>, k: nat)
    ensures BlockText(UnpackedAll(Packed(chunks)), k) == BlockText(chunks, k)
    decreases |chunks|
  {
    if chunks == [] {
    } else {
      var n := RunLength(chunks, 1);
      if !Delta(chunks[0]) {
        RunOfOne(chunks);
      }
      PackedText(chunks[n..], k);
      PackedHead(chunks, n);
      RunText(chunks[..n], k);
      HalvesText(Unpacked(RecordOf(chunks[..n])), UnpackedAll(Packed(chunks[n..])), chunks[..n], chunks[n..], k);
      assert chunks == chunks[..n] + chunks[n..];
    }
  }

  lemma HalvesText(a: seq<Chunk>, b: seq<Chunk>, c: seq<Chunk>, d: seq<Chunk>, k: nat)
    requires BlockText(a, k) == BlockText(c, k) && BlockText(b, k) == BlockText(d, k)
    ensures BlockText(a + b, k) == BlockText(c + d, k)
  {
    TextConcat(a, b, k);
    TextConcat(c, d, k);
  }

  lemma RunText(run: seq<Chunk>, k: nat)
    requires IsRun(run)
    requires !Delta(run[0]) ==> |run| == 1
    ensures BlockText(Unpacked(RecordOf(run)), k) == BlockText(run, k)
  {
    var back := Unpacked(RecordOf(run));
    assert |back| == |run|;
    forall i | 0 <= i < |run|
      ensures Fragment(back[i], k) == Fragment(run[i], k)
    {
      assert i > 0 ==> SameRecord(run[0], run[i]);
    }
    SameText(back, run, k);
  }

  // ------------------------------------------------------------- the loops

  /** The inner loops of `chunk_records`: the fragments of one run, and where it ends. */
  method TakeRun(chunks: seq<Chunk>, start: nat) returns (texts: seq<string>, end: nat)
    requires start < |chunks| && Delta(chunks[start])
    ensures end == start + RunLength(chunks[start..], 1)
    ensures end <= |chunks| && texts == Texts(chunks[start..end])
  {
    var first := chunks[start];
    ghost var tail := chunks[start..];
    texts := [if first.ToolCallDelta? then first.args else first.text];
    end := start + 1;
    assert tail[..1] == [first];
    while end < |chunks| && SameRecord(first, chunks[end])
      invariant start < end <= |chunks|
      invariant IsRun(tail[..end - start])
      invariant RunLength(tail, 1) == RunLength(tail, end - start)
      invariant texts == Texts(chunks[start..end])
    {
      RunStep(tail, end - start);
      assert chunks[start..end + 1] == chunks[start..end] + [chunks[end]];
      TextsStep(chunks[start..end], chunks[end]);
      texts := texts + [if first.ToolCallDelta? then chunks[end].args else chunks[end].text];
      end := end + 1;
    }
  }

  lemma RunStep(chunks: seq<Chunk>, n: nat)
    requires 1 <= n < |chunks| && IsRun(chunks[..n]) && SameRecord(chunks[0], chunks[n])
    ensures IsRun(chunks[..n + 1]) && RunLength(chunks, n) == RunLength(chunks, n + 1)
  {
    assert chunks[..n + 1] == chunks[..n] + [chunks[n]];
  }

  lemma TextsStep(run: seq<Chunk>, c: Chunk)
    requires Delta(c)
    ensures Texts(run + [c]) == Texts(run) + [if c.ToolCallDelta? then c.args else c.text]
  {
  }

  method ChunkRecords(chunks: seq<Chunk>) returns (out: seq<Value>)
    ensures out == RecordValues(Packed(chunks))
  {
    out := [];
    var i := 0;
    while i < |chunks|
      invariant i <= |chunks|
      invariant out + RecordValues(Packed(chunks[i..])) == RecordValues(Packed(chunks))
    {
      var record;
      record, i := NextRecord(chunks, i);
      NextValue(record, Packed(chunks[i..]));
      Associate(out, [RecordValue(record)], RecordValues(Packed(chunks[i..])));
      out := out + [RecordValue(record)];
    }
    assert chunks[i..] == [];
  }

  /** One round of the outer loop: the record that starts here, and where the next one does. */
  method NextRecord(chunks: seq<Chunk>, i: nat) returns (record: Record, next: nat)
    requires i < |chunks|
    ensures i < next <= |chunks|
    ensures Packed(chunks[i..]) == [record] + Packed(chunks[next..])
  {
    ghost var tail := chunks[i..];
    var c := chunks[i];
    if Delta(c) {
      var texts;
      texts, next := TakeRun(chunks, i);
      record := if c.TextDelta? then Fragments(Text, c.index, texts)
                else if c.ReasoningDelta? then Fragments(Reasoning, c.index, texts)
                else CallFragments(c.index, c.id, c.name, texts);
    } else {
      RunOfOne(tail);
      record := Raw(c);
      next := i + 1;
    }
    assert chunks[i..next] == tail[..next - i] && tail[next - i..] == chunks[next..];
  }

  lemma NextValue(record: Record, rest: seq<Record>)
    ensures RecordValues([record] + rest) == [RecordValue(record)] + RecordValues(rest)
  {
    assert ([record] + rest)[1..] == rest;
  }

  method ExpandAssistantStream(stream: seq<Value>) returns (chunks: seq<Chunk>)
    ensures chunks == ExpandAll(stream)
  {
    chunks := [];
    for i := 0 to |stream|
      invariant chunks + ExpandAll(stream[i..]) == ExpandAll(stream)
    {
      var more := Expand(stream[i]);
      assert stream[i..][1..] == stream[i + 1..];
      Associate(chunks, more, ExpandAll(stream[i + 1..]));
      chunks := chunks + more;
    }
    assert stream[|stream|..] == [];
  }
}
