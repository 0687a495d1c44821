/** The combo script of the boot graph and the indexed source map served beside it. */
module SourceMaps {
  import opened Json
  import opened Seqs
  import Pieces

  /** A bundle: its text without trailers, its own map when it ships one, and where its source is found. */
  datatype Bundle = Bundle(text: string, recorded: Option<Value>, url: string)

  datatype SectionMap = Recorded(recorded: Value) | Identity(mappings: string, source: string, url: string)

  datatype Section = Section(line: nat, column: nat, sectionMap: SectionMap)

  /** A prepared source ends its last line. */
  function Prepared(b: Bundle): (source: string)
    ensures source != "" && source[|source| - 1] == '\n'
  {
    if b.text != "" && b.text[|b.text| - 1] == '\n' then b.text else b.text + "\n"
  }

  /** And loses nothing of its text: at most a newline is added, where there is none. */
  lemma PreparedKeeps(b: Bundle)
    ensures b.text <= Prepared(b) && |Prepared(b)| <= |b.text| + 1
    ensures b.text != "" && b.text[|b.text| - 1] == '\n' ==> Prepared(b) == b.text
  {
  }

  function NewlineCount(text: string): nat {
    Pieces.Count(text, '\n')
  }

  // --------------------------------------------------------------- the two bodies

  /** The bundles of the script, without the map URL behind them. */
  function Script(bundles: seq<Bundle>): string {
    if bundles == [] then ""
    else Script(bundles[..|bundles| - 1]) + (Prepared(bundles[|bundles| - 1]) + ";\n")
  }

  method ComboScript(bundles: seq<Bundle>, mapUrl: string) returns (out: string)
    ensures out == Served(bundles, mapUrl)
  {
    out := "";
    for i := 0 to |bundles|
      invariant out == Script(bundles[..i])
    {
      ghost var before := out;
      out := out + Prepared(bundles[i]);
      out := out + ";\n";
      assert bundles[..i + 1][..i] == bundles[..i];
      assert out == before + (Prepared(bundles[i]) + ";\n");
    }
    assert bundles[..|bundles|] == bundles;
    out := out + ("//# sourceMappingURL=" + mapUrl + "\n");
  }

  function LineMappings(n: nat): (lines: seq<string>)
    ensures |lines| == n
    ensures forall i :: 0 <= i < n ==> lines[i] == if i == 0 then "AAAA" else "AACA"
  {
    if n == 0 then [] else LineMappings(n - 1) + [if n == 1 then "AAAA" else "AACA"]
  }

  /** `identity_section`: one mapping for each line of the source. */
  function IdentitySection(source: string, url: string): SectionMap {
    Identity(Pieces.Join(LineMappings(NewlineCount(source)), ';'), source, url)
  }

  function MapOf(b: Bundle): SectionMap {
    if b.recorded.Some? then Recorded(b.recorded.value) else IdentitySection(Prepared(b), b.url)
  }

  /** A bundle that ships a map keeps it; any other is mapped from what is served of it to where its source is found. */
  predicate OwnMap(b: Bundle, m: SectionMap) {
    match b.recorded
    case Some(recorded) => m == Recorded(recorded)
    case None => m.Identity? && b.text <= m.source && |m.source| <= |b.text| + 1 && m.url == b.url
  }

  /** The script's newlines before a bundle are what the running count says. */
  lemma ScriptLines(bundles: seq<Bundle>, i: nat)
    requires i < |bundles|
    ensures NewlineCount(Script(bundles[..i + 1]))
      == NewlineCount(Script(bundles[..i])) + NewlineCount(Prepared(bundles[i])) + 1
  {
    assert bundles[..i + 1][..i] == bundles[..i];
    var source := Prepared(bundles[i]);
    Pieces.CountConcat(Script(bundles[..i]), source + ";\n", '\n');
    Pieces.CountConcat(source, ";\n", '\n');
    assert ";\n"[1..] == "\n" && "\n"[1..] == "";
  }

  /** A bundle's section starts where the script's bundles before it end. */
  function SectionOf(bundles: seq<Bundle>, k: nat): Section
    requires k < |bundles|
  {
    Section(NewlineCount(Script(bundles[..k])), 0, MapOf(bundles[k]))
  }

  method ComboMap(bundles: seq<Bundle>) returns (sections: seq<Section>)
    ensures |sections| == |bundles|
    ensures forall k :: 0 <= k < |bundles| ==> sections[k] == SectionOf(bundles, k)
    ensures forall k | 0 <= k < |bundles| :: sections[k].column == 0 && OwnMap(bundles[k], sections[k].sectionMap)
  {
    sections := [];
    var line := 0;
    assert bundles[..0] == [];
    for i := 0 to |bundles|
      invariant |sections| == i && line == NewlineCount(Script(bundles[..i]))
      invariant forall k :: 0 <= k < i ==> sections[k] == SectionOf(bundles, k)
    {
      var section := if bundles[i].recorded.Some? then Recorded(bundles[i].recorded.value)
                     else IdentitySection(Prepared(bundles[i]), bundles[i].url);
      assert section == MapOf(bundles[i]);
      sections := sections + [Section(line, 0, section)];
      ScriptLines(bundles, i);
      line := line + (NewlineCount(Prepared(bundles[i])) + 1);
    }
    forall k | 0 <= k < |bundles|
      ensures sections[k].column == 0 && OwnMap(bundles[k], sections[k].sectionMap)
    {
      PreparedKeeps(bundles[k]);
    }
  }

  // ------------------------------------------------- reading mappings (revision 3)

  function Digit(c: char): Option<nat> {
    if 'A' <= c <= 'Z' then Some((c - 'A') as int)
    else if 'a' <= c <= 'z' then Some((c - 'a') as int + 26)
    else if '0' <= c <= '9' then Some((c - '0') as int + 52)
    else if c == '+' then Some(62)
    else if c == '/' then Some(63)
    else None
  }

  /** Five bits a digit, least first; the sixth says that another digit follows. */
  function Magnitude(s: string, weight: nat): (r: Option<(nat, string)>)
    ensures r.Some? ==> |r.value.1| < |s|
  {
    if s == "" || Digit(s[0]).None? then None
    else
      var d := Digit(s[0]).value;
      if d >= 32 then
        var more := Magnitude(s[1..], weight * 32);
        if more.Some? then Some(((d - 32) * weight + more.value.0, more.value.1)) else None
      else Some((d * weight, s[1..]))
  }

  /** The sign is the lowest bit. */
  function Signed(v: nat): int {
    if v % 2 == 1 then -(v / 2) else v / 2
  }

  function Fields(s: string): Option<seq<int>>
    decreases |s|
  {
    if s == "" then Some([])
    else
      var first := Magnitude(s, 1);
      if first.None? then None
      else
        var rest := Fields(first.value.1);
        if rest.None? then None else Some([Signed(first.value.0)] + rest.value)
  }

  lemma LastDigit(c: char, rest: string, weight: nat, d: nat)
    requires Digit(c) == Some(d) && d < 32
    ensures Magnitude([c] + rest, weight) == Some((d * weight, rest))
  {
    assert ([c] + rest)[1..] == rest;
  }

  lemma MoreDigits(c: char, rest: string, weight: nat, d: nat, v: nat, tail: string)
    requires Digit(c) == Some(d) && d >= 32 && Magnitude(rest, weight * 32) == Some((v, tail))
    ensures Magnitude([c] + rest, weight) == Some(((d - 32) * weight + v, tail))
  {
    assert ([c] + rest)[1..] == rest;
  }

  /** Two numbers, the first of two digits and the second below zero. */
  lemma ReadTwo()
    ensures Fields("gBD") == Some([16, -1])
  {
    assert "gBD" == ['g'] + "BD" && "BD" == ['B'] + "D" && "D" == ['D'] + "";
    assert Fields("") == Some([]) && Signed(3) == -1 && Signed(32) == 16;
    LastDigit('D', "", 1, 3);
    assert [-1] + [] == [-1] && Fields("D") == Some([-1]);
    LastDigit('B', "D", 32, 1);
    MoreDigits('g', "BD", 1, 32, 32, "D");
    assert Magnitude("gBD", 1) == Some((32, "D"));
    assert [16] + [-1] == [16, -1] && Fields("gBD") == Some([16, -1]);
  }

  datatype Segment =
    | Bare(column: int)
    | Mapped(column: int, source: int, line: int, sourceColumn: int)
    | Named(column: int, source: int, line: int, sourceColumn: int, name: int)

  /** Every field but the generated column runs on from the last line that had one. */
  datatype Reading = Reading(source: int, line: int, sourceColumn: int, name: int)

  function ReadSegment(f: seq<int>, column: int, r: Reading): Option<(Segment, Reading)> {
    if |f| == 1 then Some((Bare(column + f[0]), r))
    else if |f| == 4 || |f| == 5 then
      var next :=
        Reading(r.source + f[1], r.line + f[2], r.sourceColumn + f[3], if |f| == 5 then r.name + f[4] else r.name);
      Some((if |f| == 5 then Named(column + f[0], next.source, next.line, next.sourceColumn, next.name)
            else Mapped(column + f[0], next.source, next.line, next.sourceColumn),
            next))
    else None
  }

  function ReadLine(texts: seq<string>, column: int, r: Reading): Option<(seq<Segment>, Reading)>
    decreases |texts|
  {
    if texts == [] then Some(([], r))
    else
      var fields := Fields(texts[0]);
      if fields.None? then None
      else
        var segment := ReadSegment(fields.value, column, r);
        if segment.None? then None
        else
          var rest := ReadLine(texts[1..], segment.value.0.column, segment.value.1);
          if rest.None? then None else Some(([segment.value.0] + rest.value.0, rest.value.1))
  }

  function ReadLines(groups: seq<string>, r: Reading): Option<seq<seq<Segment>>>
    decreases |groups|
  {
    if groups == [] then Some([])
    else
      var line := ReadLine(if groups[0] == "" then [] else Pieces.Split(groups[0], ','), 0, r);
      if line.None? then None
      else
        var rest := ReadLines(groups[1..], line.value.1);
        if rest.None? then None else Some([line.value.0] + rest.value)
  }

  function ReadMappings(mappings: string): Option<seq<seq<Segment>>> {
    ReadLines(Pieces.Split(mappings, ';'), Reading(0, 0, 0, 0))
  }

  // -------------------------------------------------------------- what they say

  lemma OneDigit(c: char, rest: string, fields: seq<int>)
    requires c == 'A' || c == 'C'
    requires Fields(rest) == Some(fields)
    ensures Fields([c] + rest) == Some([if c == 'A' then 0 else 1] + fields)
  {
    assert ([c] + rest)[1..] == rest;
    assert Magnitude([c] + rest, 1) == Some((if c == 'A' then 0 else 2, rest));
  }

  /** The first line's mapping, and every later one's. */
  lemma ReadFields(c: char)
    requires c == 'A' || c == 'C'
    ensures Fields(['A', 'A', c, 'A']) == Some([0, 0, if c == 'A' then 0 else 1, 0])
  {
    var k := if c == 'A' then 0 else 1;
    assert Fields("") == Some([]);
    OneDigit('A', "", []);
    assert ['A'] + "" == "A" && [0] + [] == [0];
    OneDigit(c, "A", [0]);
    assert [c] + "A" == [c, 'A'] && [k] + [0] == [k, 0];
    OneDigit('A', [c, 'A'], [k, 0]);
    assert ['A'] + [c, 'A'] == ['A', c, 'A'] && [0] + [k, 0] == [0, k, 0];
    OneDigit('A', ['A', c, 'A'], [0, k, 0]);
    assert ['A'] + ['A', c, 'A'] == ['A', 'A', c, 'A'] && [0] + [0, k, 0] == [0, 0, k, 0];
  }

  lemma {:induction false} NoSeparator(text: string, sep: char)
    requires sep !in text
    ensures Pieces.Split(text, sep) == [text]
  {
    assert Pieces.Join([text], sep) == text;
    Pieces.SplitJoin([text], sep);
  }

  lemma ReadOneText(text: string, fields: seq<int>, r: Reading)
    requires ',' !in text && Fields(text) == Some(fields) && |fields| == 4
    ensures
      var next := Reading(r.source + fields[1], r.line + fields[2], r.sourceColumn + fields[3], r.name);
      ReadLine(Pieces.Split(text, ','), 0, r)
        == Some(([Mapped(fields[0], next.source, next.line, next.sourceColumn)], next))
  {
    NoSeparator(text, ',');
    var next := Reading(r.source + fields[1], r.line + fields[2], r.sourceColumn + fields[3], r.name);
    var segment := Mapped(fields[0], next.source, next.line, next.sourceColumn);
    assert ReadSegment(fields, 0, r) == Some((segment, next));
    assert [text][1..] == [] && [segment] + [] == [segment];
    assert ReadLine([], segment.column, next) == Some(([], next));
  }

  lemma ReadOne(step: int, r: Reading)
    requires step == 0 || step == 1
    ensures
      var text := if step == 0 then "AAAA" else "AACA";
      ReadLine(Pieces.Split(text, ','), 0, r)
      == Some(([Mapped(0, r.source, r.line + step, r.sourceColumn)], r.(line := r.line + step)))
  {
    var c := if step == 0 then 'A' else 'C';
    ReadFields(c);
    ReadOneText(['A', 'A', c, 'A'], [0, 0, step, 0], r);
    assert (if step == 0 then "AAAA" else "AACA") == ['A', 'A', c, 'A'];
  }

  /** From line `i` on, each line's mapping takes the reading one line further. */
  lemma {:induction false} ReadRest(lines: seq<string>, i: nat)
    requires i > 0 && forall j :: 0 <= j < |lines| ==> lines[j] == "AACA"
    ensures
      var read := ReadLines(lines, Reading(0, i - 1, 0, 0));
      read.Some? && |read.value| == |lines| && forall j ::
        0 <= j < |lines| ==> read.value[j] == [Mapped(0, 0, i + j, 0)]
    decreases |lines|
  {
    if lines == [] {
    } else {
      ReadOne(1, Reading(0, i - 1, 0, 0));
      ReadRest(lines[1..], i + 1);
    }
  }

  lemma ReadAll(n: nat)
    requires n > 0
    ensures
      var read := ReadLines(LineMappings(n), Reading(0, 0, 0, 0));
      && read.Some? && |read.value| == n && forall i :: 0 <= i < n ==> read.value[i] == [Mapped(0, 0, i, 0)]
  {
    var lines := LineMappings(n);
    ReadOne(0, Reading(0, 0, 0, 0));
    ReadRest(lines[1..], 1);
  }

  lemma SplitMappings(n: nat)
    requires n > 0
    ensures Pieces.Split(Pieces.Join(LineMappings(n), ';'), ';') == LineMappings(n)
  {
    assert ';' !in "AAAA" && ';' !in "AACA";
    Pieces.SplitJoin(LineMappings(n), ';');
  }

  /** The identity mappings of a source send line `i` to line `i`, and nothing else. */
  lemma IdentityReads(source: string)
    requires source != "" && source[|source| - 1] == '\n'
    ensures
      var read := ReadMappings(Pieces.Join(LineMappings(NewlineCount(source)), ';'));
      && read.Some? && |read.value| == NewlineCount(source)
      && forall i :: 0 <= i < |read.value| ==> read.value[i] == [Mapped(0, 0, i, 0)]
  {
    EndsCounted(source);
    ReadAll(NewlineCount(source));
    SplitMappings(NewlineCount(source));
  }

  lemma {:induction false} EndsCounted(source: string)
    requires source != "" && source[|source| - 1] == '\n'
    ensures NewlineCount(source) > 0
  {
    if |source| > 1 {
      EndsCounted(source[1..]);
    }
  }

  /** A line of a text, counted from zero. */
  function Line(text: string, n: nat): Option<string> {
    var lines := Pieces.Split(text, '\n');
    if n < |lines| then Some(lines[n]) else None
  }

  lemma LineBefore(a: string, b: string, n: nat)
    requires a != "" && a[|a| - 1] == '\n' && n < NewlineCount(a)
    ensures Line(a + b, n) == Line(a, n)
  {
    Pieces.SplitAfter(a, b, '\n');
    Pieces.CountSplit(a, '\n');
  }

  lemma LineAfter(a: string, b: string, n: nat)
    requires a == "" || a[|a| - 1] == '\n'
    ensures Line(a + b, NewlineCount(a) + n) == Line(b, n)
  {
    if a == "" {
      assert a + b == b;
    } else {
      Pieces.SplitAfter(a, b, '\n');
      Pieces.CountSplit(a, '\n');
    }
  }

  lemma ScriptEnds(bundles: seq<Bundle>)
    ensures Script(bundles) == "" || Script(bundles)[|Script(bundles)| - 1] == '\n'
  {
  }

  lemma {:induction false} ScriptSplits(bundles: seq<Bundle>, k: nat) returns (rest: string)
    requires k < |bundles|
    ensures Script(bundles) == Script(bundles[..k]) + (Prepared(bundles[k]) + rest)
    decreases |bundles| - k
  {
    if k == |bundles| - 1 {
      rest := ";\n";
    } else {
      var front := bundles[..|bundles| - 1];
      var inner := ScriptSplits(front, k);
      assert front[..k] == bundles[..k];
      var last := Prepared(bundles[|bundles| - 1]) + ";\n";
      rest := inner + last;
      Associate(Script(bundles[..k]), Prepared(bundles[k]) + inner, last);
      Associate(Prepared(bundles[k]), inner, last);
    }
  }

  function Served(bundles: seq<Bundle>, mapUrl: string): string {
    Script(bundles) + ("//# sourceMappingURL=" + mapUrl + "\n")
  }

  lemma ServedSplits(bundles: seq<Bundle>, mapUrl: string, k: nat) returns (rest: string)
    requires k < |bundles|
    ensures Served(bundles, mapUrl) == Script(bundles[..k]) + (Prepared(bundles[k]) + rest)
  {
    var inner := ScriptSplits(bundles, k);
    var tail := "//# sourceMappingURL=" + mapUrl + "\n";
    rest := inner + tail;
    var before, source := Script(bundles[..k]), Prepared(bundles[k]);
    Associate(before, source + inner, tail);
    Associate(source, inner, tail);
  }

  /** A bundle stands whole in the script, at the start of the line its section names. */
  lemma SectionStarts(bundles: seq<Bundle>, mapUrl: string, k: nat)
    requires k < |bundles|
    ensures
      var served, start, source := Served(bundles, mapUrl), |Script(bundles[..k])|, Prepared(bundles[k]);
      && start + |source| <= |served| && served[start..start + |source|] == source
      && NewlineCount(served[..start]) == SectionOf(bundles, k).line
      && (start == 0 || served[start - 1] == '\n')
  {
    var rest := ServedSplits(bundles, mapUrl, k);
    var before, source := Script(bundles[..k]), Prepared(bundles[k]);
    ScriptEnds(bundles[..k]);
    assert (before + (source + rest))[..|before|] == before;
    assert (before + (source + rest))[|before|..|before| + |source|] == source;
  }

  /** Line `n` of a bundle is the script's line `offset + n`, short of where the next section starts. */
  lemma SectionsAlign(bundles: seq<Bundle>, mapUrl: string, k: nat, n: nat)
    requires k < |bundles| && n < NewlineCount(Prepared(bundles[k]))
    ensures
      var offset := SectionOf(bundles, k).line;
      && Line(Served(bundles, mapUrl), offset + n) == Line(Prepared(bundles[k]), n)
      && Line(Prepared(bundles[k]), n).Some?
      && (k + 1 < |bundles| ==> offset + n < SectionOf(bundles, k + 1).line)
  {
    var before, source := Script(bundles[..k]), Prepared(bundles[k]);
    var rest := ServedSplits(bundles, mapUrl, k);
    ScriptEnds(bundles[..k]);
    LineAfter(before, source + rest, n);
    LineBefore(source, rest, n);
    Pieces.CountSplit(source, '\n');
    ScriptLines(bundles, k);
  }

  /** So a bundle without a map of its own is mapped line for line: reading the indexed map at any of its lines in
      the script gives the same line of the bundle. */
  lemma IdentityMapsHome(bundles: seq<Bundle>, mapUrl: string, k: nat, n: nat)
    requires k < |bundles| && bundles[k].recorded.None? && n < NewlineCount(Prepared(bundles[k]))
    ensures
      var section := SectionOf(bundles, k);
      && section.sectionMap.Identity? && section.sectionMap.source == Prepared(bundles[k])
      && (var read := ReadMappings(section.sectionMap.mappings);
          read.Some? && n < |read.value| && read.value[n] == [Mapped(0, 0, n, 0)])
      && Line(Served(bundles, mapUrl), section.line + n) == Line(section.sectionMap.source, n)
  {
    IdentityReads(Prepared(bundles[k]));
    SectionsAlign(bundles, mapUrl, k, n);
  }
}
