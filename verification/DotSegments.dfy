// Dot-segment removal for source-map entries, against the buffer algorithm of
// section 5.2.4 of RFC 3986.
module DotSegments {
  import Pieces

  // ---------------------------------------------------------------- segments

  predicate SlashFree(s: string) {
    '/' !in s
  }

  ghost predicate AllSlashFree(segments: seq<string>) {
    Pieces.Whole(segments, '/')
  }

  function Split(path: string): seq<string> {
    Pieces.Split(path, '/')
  }

  function Join(segments: seq<string>): string {
    Pieces.Join(segments, '/')
  }

  /** Each segment behind its own slash: the form an absolute path has. */
  function Render(segments: seq<string>): string {
    if segments == [] then "" else "/" + segments[0] + Render(segments[1..])
  }

  lemma {:induction false} RenderIsJoin(segments: seq<string>)
    requires segments != []
    ensures Render(segments) == "/" + Join(segments)
  {
    if |segments| == 1 {
    } else {
      RenderIsJoin(segments[1..]);
    }
  }

  lemma {:induction false} RenderEnd(segments: seq<string>, last: string)
    ensures Render(segments + [last]) == Render(segments) + "/" + last
  {
    if segments == [] {
      assert Render([last]) == "/" + last + Render([]);
    } else {
      RenderEnd(segments[1..], last);
      assert (segments + [last])[1..] == segments[1..] + [last];
    }
  }

  // ------------------------------------------------------------ the program

  /** What one segment does to the stack of kept segments. */
  function Step(stack: seq<string>, segment: string, keepEmpty: bool): seq<string> {
    if segment == "." || (segment == "" && !keepEmpty) then stack
    else if segment == ".." then (if stack == [] then [] else stack[..|stack| - 1])
    else stack + [segment]
  }

  function Walk(stack: seq<string>, segments: seq<string>, keepEmpty: bool): seq<string>
    decreases |segments|
  {
    if segments == [] then stack else Walk(Step(stack, segments[0], keepEmpty), segments[1..], keepEmpty)
  }

  predicate Absolute(path: string) {
    path != "" && path[0] == '/'
  }

  predicate EndsWith(text: string, end: string) {
    |end| <= |text| && forall i :: 0 <= i < |end| ==> text[|text| - |end| + i] == end[i]
  }

  /** Whether the path names a directory: its last segment is empty or a dot segment. */
  predicate Trailing(path: string) {
    EndsWith(path, "/") || EndsWith(path, "/.") || EndsWith(path, "/..")
  }

  function Closed(body: string, trailing: bool): string {
    if trailing && !EndsWith(body, "/") then body + "/" else body
  }

  function Normalized(path: string): string {
    Closed((if Absolute(path) then "/" else "") + Join(Walk([], Split(path), false)), Trailing(path))
  }

  method RemoveDotSegments(path: string) returns (result: string)
    ensures result == Normalized(path)
  {
    var out: seq<string> := [];
    var segments := Split(path);
    for i := 0 to |segments|
      invariant Walk(out, segments[i..], false) == Walk([], segments, false)
    {
      assert segments[i..][1..] == segments[i + 1..];
      match segments[i]
      case "" => {}
      case "." => {}
      case ".." =>
        if |out| > 0 {
          out := out[..|out| - 1];
        }
      case other =>
        out := out + [other];
    }
    assert segments[|segments|..] == [];
    result := "";
    if Absolute(path) {
      result := result + "/";
    }
    result := result + Join(out);
    if Trailing(path) && !EndsWith(result, "/") {
      result := result + "/";
    }
  }

  // ---------------------------------------- the buffer algorithm, as written

  predicate StartsWith(text: string, start: string) {
    |start| <= |text| && forall i :: 0 <= i < |start| ==> text[i] == start[i]
  }

  /** The output buffer without its last segment and the slash before it. */
  function DropLast(output: string): string {
    if output == "" then ""
    else if output[|output| - 1] == '/' then output[..|output| - 1]
    else DropLast(output[..|output| - 1])
  }

  /** Where the first segment ends: the next slash after the first character. */
  function SegmentEnd(input: string, from: nat): (end: nat)
    requires from <= |input|
    ensures from <= end <= |input|
    ensures SlashFree(input[from..end])
    ensures end < |input| ==> input[end] == '/'
    decreases |input| - from
  {
    if from == |input| || input[from] == '/' then from else SegmentEnd(input, from + 1)
  }

  /** One round: what is left of the input buffer, and the output buffer after it. */
  function Round(input: string, output: string): (r: (string, string))
    requires input != ""
    ensures |r.0| < |input|
  {
    if StartsWith(input, "../") then (input[3..], output)
    else if StartsWith(input, "./") then (input[2..], output)
    else if StartsWith(input, "/./") then (input[2..], output)
    else if input == "/." then ("/", output)
    else if StartsWith(input, "/../") then (input[3..], DropLast(output))
    else if input == "/.." then ("/", DropLast(output))
    else if input == "." || input == ".." then ("", output)
    else
      var end := SegmentEnd(input, 1);
      (input[end..], output + input[..end])
  }

  function Buffered(input: string, output: string): string
    decreases |input|
  {
    if input == "" then output
    else
      var (rest, next) := Round(input, output);
      Buffered(rest, next)
  }

  // ------------------------------- both as walks over the segments of the path

  /** The segments an absolute path names: all but the empty ones at either end. */
  function Named(path: string): seq<string> {
    var segments := Split(path)[1..];
    if segments != [] && segments[|segments| - 1] == "" then segments[..|segments| - 1] else segments
  }

  /** The text for what stands on the stack when the path has been read. */
  function Text(stack: seq<string>, trailing: bool): string {
    Render(stack) + if trailing then "/" else ""
  }

  predicate DirectoryName(segment: string) {
    segment == "" || segment == "." || segment == ".."
  }

  lemma {:induction false} DropLastPops(output: string, name: string)
    requires SlashFree(name)
    ensures DropLast(output + "/" + name) == output
  {
    if name == "" {
      assert (output + "/" + name)[..|output|] == output;
    } else {
      var shorter := name[..|name| - 1];
      var whole := output + "/" + name;
      assert whole[|whole| - 1] == name[|name| - 1];
      assert name[|name| - 1] in name;
      assert whole[..|whole| - 1] == output + "/" + shorter;
      DropLastPops(output, shorter);
    }
  }

  lemma DropLastIsStep(stack: seq<string>)
    requires AllSlashFree(stack)
    ensures DropLast(Render(stack)) == Render(Step(stack, "..", true))
  {
    if stack == [] {
    } else {
      var below := stack[..|stack| - 1];
      assert stack == below + [stack[|stack| - 1]];
      RenderEnd(below, stack[|stack| - 1]);
      DropLastPops(Render(below), stack[|stack| - 1]);
    }
  }

  lemma {:induction false} SegmentEndIs(name: string, rest: string, from: nat)
    requires SlashFree(name) && (rest == "" || rest[0] == '/')
    requires 1 <= from <= 1 + |name|
    ensures SegmentEnd("/" + name + rest, from) == 1 + |name|
    decreases |name| - from
  {
    var input := "/" + name + rest;
    if from == 1 + |name| {
    } else {
      assert input[from] == name[from - 1];
      assert name[from - 1] in name;
      SegmentEndIs(name, rest, from + 1);
    }
  }

  /** The whole-text and prefix cases of the algorithm that start with a slash. */
  predicate DotCase(input: string) {
    StartsWith(input, "/./") || input == "/." || StartsWith(input, "/../") || input == "/.."
  }

  lemma SlashFirst(input: string)
    requires Absolute(input)
    ensures !StartsWith(input, "../") && !StartsWith(input, "./") && input != "." && input != ".."
  {
    assert "../"[0] == '.' && "./"[0] == '.';
  }

  lemma OrdinaryName(name: string, rest: string)
    requires SlashFree(name) && (rest == "" || rest[0] == '/')
    requires name != "." && name != ".."
    ensures !DotCase("/" + name + rest)
  {
    var input := "/" + name + rest;
    assert forall i :: 0 <= i < |name| ==> input[i + 1] == name[i] && name[i] in name;
    assert rest != "" ==> input[|name| + 1] == rest[0];
    assert "/./"[2] == '/' && "/../"[3] == '/';
  }

  lemma RoundMoves(name: string, rest: string, output: string)
    requires SlashFree(name) && (rest == "" || rest[0] == '/')
    requires name != "." && name != ".."
    ensures Round("/" + name + rest, output) == (rest, output + "/" + name)
  {
    var input := "/" + name + rest;
    OrdinaryName(name, rest);
    SlashFirst(input);
    SegmentEndIs(name, rest, 1);
    assert input[1 + |name|..] == rest;
    assert input[..1 + |name|] == "/" + name;
    assert output + ("/" + name) == output + "/" + name;
  }

  /** An ordinary segment moves to the output whole. */
  lemma BufferedMoves(name: string, rest: string, output: string)
    requires SlashFree(name) && (rest == "" || rest[0] == '/')
    requires name != "." && name != ".."
    ensures Buffered("/" + name + rest, output) == Buffered(rest, output + "/" + name)
  {
    RoundMoves(name, rest, output);
  }

  /** A dot segment inside the path leaves the rest, with the output popped or not. */
  lemma BufferedDots(name: string, rest: string, output: string)
    requires name == "." || name == ".."
    requires rest != "" && rest[0] == '/'
    ensures Buffered("/" + name + rest, output)
         == Buffered(rest, if name == "." then output else DropLast(output))
  {
    var input := "/" + name + rest;
    SlashFirst(input);
    if name == "." {
      assert StartsWith(input, "/./") && input[2..] == rest;
      assert Round(input, output) == (rest, output);
    } else {
      assert input[2] == '.' && "/./"[2] == '/';
      assert StartsWith(input, "/../") && input[3..] == rest;
      assert Round(input, output) == (rest, DropLast(output));
    }
  }

  lemma BufferedEnds(name: string, output: string)
    requires DirectoryName(name)
    ensures Buffered("/" + name, output) == (if name == ".." then DropLast(output) else output) + "/"
  {
    BufferedMoves("", "", output);
    BufferedMoves("", "", DropLast(output));
    assert "/" + "" + "" == "/";
    assert output + "/" + "" == output + "/";
    assert DropLast(output) + "/" + "" == DropLast(output) + "/";
    if name == ".." {
      assert "/" + name == "/..";
      assert "/.."[2] == '.' && "/./"[2] == '/';
      assert !StartsWith("/..", "/./");
      assert Buffered("/..", output) == Buffered("/", DropLast(output)) by {
        SlashFirst("/..");
        assert Round("/..", output) == ("/", DropLast(output));
      }
    } else if name == "." {
      assert "/" + name == "/.";
      assert Buffered("/.", output) == Buffered("/", output) by {
        SlashFirst("/.");
        assert Round("/.", output) == ("/", output);
      }
    } else {
      assert "/" + name == "/";
    }
  }

  /** The stack once the last segment, which never stays as an empty one, is read. */
  function Last(stack: seq<string>, name: string): seq<string> {
    Step(stack, name, false)
  }

  /** The buffer algorithm is the walk that keeps empty segments. */
  lemma {:induction false} BufferedWalks(stack: seq<string>, segments: seq<string>)
    requires segments != [] && AllSlashFree(segments) && AllSlashFree(stack)
    ensures
      var n := |segments| - 1;
      Buffered(Render(segments), Render(stack))
      == Text(Last(Walk(stack, segments[..n], true), segments[n]), DirectoryName(segments[n]))
    decreases |segments|
  {
    var n, name, rest := |segments| - 1, segments[0], segments[1..];
    DropLastIsStep(stack);
    RenderEnd(stack, name);
    if n == 0 {
      assert Render(rest) == "" && segments[..n] == [];
      assert Render(segments) == "/" + name;
      if DirectoryName(name) {
        BufferedEnds(name, Render(stack));
      } else {
        BufferedMoves(name, "", Render(stack));
        assert "/" + name + "" == "/" + name;
      }
    } else {
      var next := Step(stack, name, true);
      assert Render(rest)[0] == '/';
      if name == "." || name == ".." {
        BufferedDots(name, Render(rest), Render(stack));
      } else {
        BufferedMoves(name, Render(rest), Render(stack));
      }
      BufferedWalks(next, rest);
      assert segments[..n][1..] == rest[..n - 1] && rest[n - 1] == segments[n];
      assert segments[..n][0] == name;
    }
  }

  lemma {:induction false} WalkEnd(stack: seq<string>, segments: seq<string>, last: string, keepEmpty: bool)
    ensures Walk(stack, segments + [last], keepEmpty) == Step(Walk(stack, segments, keepEmpty), last, keepEmpty)
    decreases |segments|
  {
    if segments == [] {
      assert (segments + [last])[1..] == [];
    } else {
      assert (segments + [last])[1..] == segments[1..] + [last];
      WalkEnd(Step(stack, segments[0], keepEmpty), segments[1..], last, keepEmpty);
    }
  }

  lemma {:induction false} WalkKeeps(stack: seq<string>, segments: seq<string>, keepEmpty: bool)
    requires AllSlashFree(segments) && AllSlashFree(stack)
    ensures AllSlashFree(Walk(stack, segments, keepEmpty))
    decreases |segments|
  {
    if segments == [] {
    } else {
      WalkKeeps(Step(stack, segments[0], keepEmpty), segments[1..], keepEmpty);
    }
  }

  /** How the text of a joined path ends is how its last segment reads. */
  lemma {:induction false} JoinEnds(segments: seq<string>)
    requires |segments| >= 2 && AllSlashFree(segments)
    ensures Trailing(Join(segments)) == DirectoryName(segments[|segments| - 1])
    ensures EndsWith(Join(segments), "/") == (segments[|segments| - 1] == "")
    ensures exists front: string :: Join(segments) == front + "/" + segments[|segments| - 1]
  {
    var path := Join(segments);
    var last := segments[|segments| - 1];
    var front := JoinFront(segments);
    TailReads(front, last);
  }

  lemma {:induction false} JoinFront(segments: seq<string>) returns (front: string)
    requires |segments| >= 2
    ensures Join(segments) == front + "/" + segments[|segments| - 1]
  {
    if |segments| == 2 {
      front := segments[0];
      assert Join(segments[1..]) == segments[1];
    } else {
      var inner := JoinFront(segments[1..]);
      var last := segments[1..][|segments| - 2];
      front := segments[0] + "/" + inner;
      assert segments[0] + "/" + (inner + "/" + last) == front + "/" + last;
    }
  }

  /** A path ends with a slash and a name exactly when that name is its last segment. */
  lemma EndsWithName(front: string, last: string, name: string)
    requires SlashFree(last) && SlashFree(name)
    ensures EndsWith(front + "/" + last, "/" + name) == (last == name)
  {
    var path, end := front + "/" + last, "/" + name;
    assert path[|front|] == '/' && end[0] == '/';
    assert |name| < |last| ==> path[|path| - |end|] == last[|last| - |end|];
    assert |last| < |name| ==> end[|name| - |last|] == name[|name| - |last| - 1];
    if EndsWith(path, end) {
      assert |name| >= |last| by {
        assert path[|path| - |end| + 0] == end[0];
      }
      assert |last| >= |name|;
      forall i | 0 <= i < |last|
        ensures last[i] == name[i]
      {
        assert path[|path| - |end| + (i + 1)] == end[i + 1];
      }
      assert last == name;
    }
  }

  lemma TailReads(front: string, last: string)
    requires SlashFree(last)
    ensures Trailing(front + "/" + last) == DirectoryName(last)
    ensures EndsWith(front + "/" + last, "/") == (last == "")
  {
    EndsWithName(front, last, "");
    EndsWithName(front, last, ".");
    EndsWithName(front, last, "..");
    assert "/" + "" == "/" && "/" + "." == "/." && "/" + ".." == "/..";
  }

  // ------------------------------------------------------ where the two agree

  /** The stack heights that decide it: all that stands, and what stands at or before an empty segment. */
  datatype Heights = Heights(standing: nat, stained: nat)

  function Climb(h: Heights, segment: string): (next: Heights)
    requires h.stained <= h.standing
    ensures next.stained <= next.standing
  {
    if segment == "." then h
    else if segment == "" then Heights(h.standing + 1, h.standing + 1)
    else if segment == ".." then
      var standing := if h.standing == 0 then 0 else h.standing - 1;
      Heights(standing, if h.stained <= standing then h.stained else standing)
    else Heights(h.standing + 1, h.stained)
  }

  function Measure(h: Heights, segments: seq<string>): (last: Heights)
    requires h.stained <= h.standing
    ensures last.stained <= last.standing
    decreases |segments|
  {
    if segments == [] then h else Measure(Climb(h, segments[0]), segments[1..])
  }

  /** The stacks of the two walks, above whatever an empty segment has stained, are the same. */
  ghost predicate Apart(keeping: seq<string>, skipping: seq<string>, h: Heights) {
    && h.stained <= h.standing == |keeping|
    && |skipping| + h.stained >= |keeping|
    && var clean := h.standing - h.stained;
       var base := |skipping| - clean;
       && keeping[h.stained..] == skipping[base..]
       && (if h.stained == 0 then base == 0 else base < h.stained)
  }

  lemma StepApart(keeping: seq<string>, skipping: seq<string>, h: Heights, segment: string)
    requires Apart(keeping, skipping, h)
    ensures Apart(Step(keeping, segment, true), Step(skipping, segment, false), Climb(h, segment))
  {
    var clean := h.standing - h.stained;
    var base := |skipping| - clean;
    var k, s := Step(keeping, segment, true), Step(skipping, segment, false);
    var next := Climb(h, segment);
    if segment == "" {
      assert k[next.stained..] == [] == s[|s|..];
    } else if segment == ".." {
      if clean > 0 {
        assert k[h.stained..] == keeping[h.stained..][..clean - 1];
        assert s[base..] == skipping[base..][..clean - 1];
      } else {
        assert k[next.stained..] == [] == s[|s|..];
      }
    } else if segment != "." {
      assert k[h.stained..] == keeping[h.stained..] + [segment];
      assert s[base..] == skipping[base..] + [segment];
    }
  }

  lemma {:induction false} WalksApart(keeping: seq<string>, skipping: seq<string>, h: Heights, segments: seq<string>)
    requires Apart(keeping, skipping, h)
    ensures Apart(Walk(keeping, segments, true), Walk(skipping, segments, false), Measure(h, segments))
    decreases |segments|
  {
    if segments == [] {
    } else {
      StepApart(keeping, skipping, h, segments[0]);
      WalksApart(Step(keeping, segments[0], true), Step(skipping, segments[0], false),
                 Climb(h, segments[0]), segments[1..]);
    }
  }

  ghost predicate Clean(stack: seq<string>) {
    forall i :: 0 <= i < |stack| ==> !DirectoryName(stack[i])
  }

  lemma {:induction false} WalkClean(stack: seq<string>, segments: seq<string>)
    requires Clean(stack)
    ensures Clean(Walk(stack, segments, false))
    decreases |segments|
  {
    if segments == [] {
    } else {
      WalkClean(Step(stack, segments[0], false), segments[1..]);
    }
  }

  lemma {:induction false} RenderInjective(a: seq<string>, b: seq<string>)
    requires AllSlashFree(a) && AllSlashFree(b)
    requires Render(a) == Render(b)
    ensures a == b
  {
    if a == [] || b == [] {
    } else {
      RenderIsJoin(a);
      RenderIsJoin(b);
      assert Render(a)[1..] == Join(a) && Render(b)[1..] == Join(b);
      Pieces.SplitJoin(a, '/');
      Pieces.SplitJoin(b, '/');
    }
  }

  lemma AbsoluteSplit(path: string)
    requires Absolute(path)
    ensures |Split(path)| >= 2 && Split(path)[0] == ""
    ensures
      var segments := Split(path)[1..];
      path == Render(segments) && Trailing(path) == DirectoryName(segments[|segments| - 1])
  {
    var all := Split(path);
    var segments := all[1..];
    assert all == [""] + Split(path[1..]);
    assert segments == Split(path[1..]);
    Pieces.JoinSplit(path, '/');
    JoinEnds(all);
    RenderIsJoin(segments);
    assert Join(all) == "" + "/" + Join(segments);
  }

  /** Only a directory path can leave nothing standing. */
  lemma NothingStands(segments: seq<string>)
    requires segments != [] && Walk([], segments, false) == []
    ensures DirectoryName(segments[|segments| - 1])
  {
    var front, last := segments[..|segments| - 1], segments[|segments| - 1];
    assert segments == front + [last];
    WalkEnd([], front, last, false);
  }

  lemma ClosedText(stack: seq<string>, trailing: bool)
    requires Clean(stack) && AllSlashFree(stack)
    requires stack == [] ==> trailing
    ensures Closed("/" + Join(stack), trailing) == Text(stack, trailing)
  {
    if stack == [] {
      assert "/" + Join(stack) == "/";
    } else {
      RenderIsJoin(stack);
      RenderTail(stack);
      assert !DirectoryName(stack[|stack| - 1]);
    }
  }

  /** What the program makes of an absolute path, in terms of its walk. */
  lemma AbsolutePath(path: string)
    requires Absolute(path)
    ensures |Split(path)| >= 2
    ensures
      var segments := Split(path)[1..];
      Normalized(path) == Text(Walk([], segments, false), DirectoryName(segments[|segments| - 1]))
  {
    AbsoluteSplit(path);
    var all := Split(path);
    var stack := Walk([], all[1..], false);
    assert Walk([], all, false) == stack by {
      assert Step([], all[0], false) == [];
    }
    WalkKeeps([], all[1..], false);
    WalkClean([], all[1..]);
    if stack == [] {
      NothingStands(all[1..]);
    }
    ClosedText(stack, Trailing(path));
  }

  lemma RenderTail(stack: seq<string>)
    requires stack != [] && AllSlashFree(stack)
    ensures EndsWith(Render(stack), "/") == (stack[|stack| - 1] == "")
  {
    var front, last := stack[..|stack| - 1], stack[|stack| - 1];
    assert stack == front + [last];
    RenderEnd(front, last);
    TailReads(Render(front), last);
  }

  /** The buffer algorithm on an absolute path, in terms of its own walk. */
  lemma BufferedPath(path: string)
    requires Absolute(path)
    ensures |Split(path)| >= 2
    ensures
      var segments := Split(path)[1..];
      Buffered(path, "") == Text(Walk([], Named(path), true), DirectoryName(segments[|segments| - 1]))
  {
    AbsoluteSplit(path);
    var segments := Split(path)[1..];
    var n := |segments| - 1;
    BufferedWalks([], segments);
    assert Render([]) == "";
    if segments[n] != "" {
      assert segments == segments[..n] + [segments[n]];
      WalkEnd([], segments[..n], segments[n], true);
    }
  }

  lemma NamedWalks(path: string)
    requires Absolute(path)
    ensures |Split(path)| >= 2 && Walk([], Split(path)[1..], false) == Walk([], Named(path), false)
  {
    AbsoluteSplit(path);
    var segments := Split(path)[1..];
    var n := |segments| - 1;
    if segments[n] == "" {
      assert segments == segments[..n] + [segments[n]];
      WalkEnd([], segments[..n], segments[n], false);
    }
  }

  lemma TextInjective(a: seq<string>, b: seq<string>, trailing: bool)
    requires AllSlashFree(a) && AllSlashFree(b)
    requires Text(a, trailing) == Text(b, trailing)
    ensures a == b
  {
    assert Render(a) == Text(a, trailing)[..|Render(a)|];
    assert Render(b) == Text(b, trailing)[..|Render(b)|];
    RenderInjective(a, b);
  }

  /** The two stacks when the path has been read: equal exactly when the results are. */
  lemma ResultsAreStacks(path: string)
    requires Absolute(path)
    ensures (Normalized(path) == Buffered(path, ""))
        <==> (Walk([], Named(path), true) == Walk([], Named(path), false))
  {
    BufferedPath(path);
    AbsolutePath(path);
    NamedWalks(path);
    WalkKeeps([], Named(path), true);
    WalkKeeps([], Named(path), false);
    if Normalized(path) == Buffered(path, "") {
      var segments := Split(path)[1..];
      TextInjective(Walk([], Named(path), true), Walk([], Named(path), false), DirectoryName(segments[|segments| - 1]));
    }
  }

  /** The program follows section 5.2.4 of RFC 3986 exactly on the absolute paths that keep nothing
      of what stands at or before an empty interior segment. */
  lemma AgreesIff(path: string)
    requires Absolute(path)
    ensures (Normalized(path) == Buffered(path, "")) <==> (Measure(Heights(0, 0), Named(path)).stained == 0)
  {
    ResultsAreStacks(path);
    var k, s, h := Walk([], Named(path), true), Walk([], Named(path), false), Measure(Heights(0, 0), Named(path));
    WalksApart([], [], Heights(0, 0), Named(path));
    if h.stained == 0 {
      assert k[0..] == k && s[0..] == s;
    }
  }

  lemma {:induction false} NothingStained(h: Heights, segments: seq<string>)
    requires h.stained == 0 && "" !in segments
    ensures Measure(h, segments).stained == 0
    decreases |segments|
  {
    if segments == [] {
    } else {
      assert segments[0] in segments;
      NothingStained(Climb(h, segments[0]), segments[1..]);
    }
  }

  /** In particular on every absolute path with no empty interior segment. */
  lemma AgreesWithoutEmptySegments(path: string)
    requires Absolute(path) && "" !in Named(path)
    ensures Normalized(path) == Buffered(path, "")
  {
    NothingStained(Heights(0, 0), Named(path));
    AgreesIff(path);
  }

  /** A doubled slash before a parent segment is where they part: the program climbs out of `a`. */
  lemma DoubledSlashDiffers()
    ensures Normalized("/a//..") != Buffered("/a//..", "")
  {
    var segments := ["", "a", "", ".."];
    assert Join(segments[3..]) == "..";
    assert Join(segments[2..]) == "/..";
    assert Join(segments[1..]) == "a//..";
    assert Join(segments) == "/a//..";
    Pieces.SplitJoin(segments, '/');
    var named := Named("/a//..");
    assert named == ["a", "", ".."];
    assert Climb(Heights(0, 0), "a") == Heights(1, 0);
    assert Climb(Heights(1, 0), "") == Heights(2, 2);
    assert Climb(Heights(2, 2), "..") == Heights(1, 1);
    assert Measure(Heights(2, 2), named[1..][1..]) == Heights(1, 1);
    assert Measure(Heights(1, 0), named[1..]) == Heights(1, 1);
    assert Measure(Heights(0, 0), named) == Heights(1, 1);
    AgreesIff("/a//..");
  }

  // --------------------------------------------------------------- the output

  lemma {:induction false} WalkAdds(stack: seq<string>, names: seq<string>, after: seq<string>)
    requires Clean(names)
    ensures Walk(stack, names + after, false) == Walk(stack + names, after, false)
    decreases |names|
  {
    if names == [] {
      assert names + after == after && stack + names == stack;
    } else {
      assert (names + after)[1..] == names[1..] + after;
      assert (stack + [names[0]]) + names[1..] == stack + names;
      assert !DirectoryName(names[0]);
      WalkAdds(stack + [names[0]], names[1..], after);
    }
  }

  /** A path of kept segments only, with or without a slash at either end. */
  function Tidy(absolute: bool, names: seq<string>, directory: bool): string {
    (if absolute then "/" else "") + Join(names) + if directory then "/" else ""
  }

  function TidySegments(absolute: bool, names: seq<string>, directory: bool): seq<string> {
    (if absolute then [""] else []) + names + if directory then [""] else []
  }

  lemma TidySplits(absolute: bool, names: seq<string>, directory: bool)
    requires names != [] && AllSlashFree(names)
    ensures Split(Tidy(absolute, names, directory)) == TidySegments(absolute, names, directory)
  {
    var segments := TidySegments(absolute, names, directory);
    var front := (if absolute then [""] else []) + names;
    if absolute {
      assert front[1..] == names;
      assert Join(front) == "/" + Join(names);
    } else {
      assert front == names;
    }
    if directory {
      Pieces.JoinAppend(front, "", '/');
      assert Join(front) + "/" + "" == Join(front) + "/";
    } else {
      assert segments == front;
    }
    assert Join(segments) == Tidy(absolute, names, directory);
    Pieces.SplitJoin(segments, '/');
  }

  lemma FirstOfJoin(names: seq<string>)
    requires names != [] && AllSlashFree(names) && names[0] != ""
    ensures Join(names) != "" && !Absolute(Join(names))
  {
    assert names[0][0] in names[0];
    assert Join(names)[0] == names[0][0];
  }

  lemma WalkTidy(absolute: bool, names: seq<string>, directory: bool)
    requires Clean(names)
    ensures Walk([], TidySegments(absolute, names, directory), false) == names
  {
    var segments, after := TidySegments(absolute, names, directory), if directory then [""] else [];
    WalkAdds([], names, after);
    assert [] + names == names;
    assert Walk(names, after, false) == names by {
      assert directory ==> after[1..] == [] && Step(names, "", false) == names;
    }
    if absolute {
      assert segments[1..] == names + after && segments[0] == "";
      assert Step([], "", false) == [];
    } else {
      assert segments == names + after;
    }
  }

  lemma TidyStays(absolute: bool, names: seq<string>, directory: bool)
    requires names != [] && AllSlashFree(names) && Clean(names)
    ensures Normalized(Tidy(absolute, names, directory)) == Tidy(absolute, names, directory)
  {
    TidySplits(absolute, names, directory);
    WalkTidy(absolute, names, directory);
    TidyEnds(absolute, names, directory);
    TidyStarts(absolute, names, directory);
    assert Tidy(absolute, names, false) == (if absolute then "/" else "") + Join(names);
  }

  lemma TidyStarts(absolute: bool, names: seq<string>, directory: bool)
    requires names != [] && AllSlashFree(names) && Clean(names)
    ensures Absolute(Tidy(absolute, names, directory)) == absolute
  {
    assert !DirectoryName(names[0]);
    FirstOfJoin(names);
  }

  lemma BareName(name: string)
    requires SlashFree(name)
    ensures !Trailing(name) && !EndsWith(name, "/")
  {
    assert forall i :: 0 <= i < |name| ==> name[i] in name;
    assert "/"[0] == '/' && "/."[0] == '/' && "/.."[0] == '/';
  }

  lemma PlainEnds(absolute: bool, names: seq<string>)
    requires names != [] && AllSlashFree(names) && Clean(names)
    ensures !Trailing(Tidy(absolute, names, false)) && !EndsWith(Tidy(absolute, names, false), "/")
  {
    var last := names[|names| - 1];
    assert !DirectoryName(last);
    TidySplits(absolute, names, false);
    var plain := Tidy(absolute, names, false);
    Pieces.JoinSplit(plain, '/');
    var segments := TidySegments(absolute, names, false);
    assert segments[|segments| - 1] == last;
    if |segments| >= 2 {
      JoinEnds(segments);
    } else {
      assert segments == [last];
      BareName(last);
    }
  }

  lemma TidyEnds(absolute: bool, names: seq<string>, directory: bool)
    requires names != [] && AllSlashFree(names) && Clean(names)
    ensures Trailing(Tidy(absolute, names, directory)) == directory
    ensures !EndsWith(Tidy(absolute, names, false), "/")
  {
    PlainEnds(absolute, names);
    var plain := Tidy(absolute, names, false);
    if directory {
      TailReads(plain, "");
      assert plain + "" == plain;
      assert plain + "/" + "" == Tidy(absolute, names, true);
    }
  }

  lemma EmptyResults()
    ensures Split("/") == ["", ""] && Split("") == [""]
    ensures Normalized("/") == "/" && Normalized("") == ""
  {
    assert Split("/") == [""] + Split("");
    WalkTidy(true, [], true);
    WalkTidy(false, [], true);
    assert TidySegments(true, [], true) == ["", ""] && TidySegments(false, [], true) == [""];
    assert !Trailing("");
  }

  /** What the program returns: nothing, the root, or a tidy path. */
  lemma ResultIsTidy(path: string)
    ensures
      var names := Walk([], Split(path), false);
      && Clean(names) && AllSlashFree(names)
      && (names == [] ==> Normalized(path) == "/" || Normalized(path) == "")
      && (names != [] ==> Normalized(path) == Tidy(Absolute(path), names, Trailing(path)))
  {
    var names := Walk([], Split(path), false);
    WalkClean([], Split(path));
    WalkKeeps([], Split(path), false);
    if names == [] {
      assert EndsWith("/", "/");
    } else {
      TidyEnds(Absolute(path), names, false);
      assert Tidy(Absolute(path), names, false) == (if Absolute(path) then "/" else "") + Join(names);
    }
  }

  /** Normalizing again changes nothing, whatever the path. */
  lemma Idempotent(path: string)
    ensures Normalized(Normalized(path)) == Normalized(path)
  {
    ResultIsTidy(path);
    EmptyResults();
    var names := Walk([], Split(path), false);
    if names != [] {
      TidyStays(Absolute(path), names, Trailing(path));
    }
  }

  /** No segment of the result is a dot segment, and only its ends are empty. */
  lemma NoDotSegments(path: string)
    ensures
      var segments := Split(Normalized(path));
      && "." !in segments && ".." !in segments
      && forall i :: 0 < i < |segments| - 1 ==> segments[i] != ""
  {
    ResultIsTidy(path);
    EmptyResults();
    var names := Walk([], Split(path), false);
    if names != [] {
      TidySplits(Absolute(path), names, Trailing(path));
      CleanInside(Absolute(path), names, Trailing(path));
    }
  }

  lemma CleanInside(absolute: bool, names: seq<string>, directory: bool)
    requires Clean(names)
    ensures
      var segments := TidySegments(absolute, names, directory);
      && "." !in segments && ".." !in segments
      && forall i :: 0 < i < |segments| - 1 ==> segments[i] != ""
  {
    var lead := if absolute then 1 else 0;
    var segments := TidySegments(absolute, names, directory);
    forall i | 0 <= i < |segments|
      ensures segments[i] != "." && segments[i] != ".." && (0 < i < |segments| - 1 ==> segments[i] != "")
    {
      if lead <= i < lead + |names| {
        assert segments[i] == names[i - lead] && !DirectoryName(names[i - lead]);
      } else {
        assert segments[i] == "";
      }
    }
  }
}
