/** Pending input as a fold over durable splices (`agent_inbox.rs`). */
module InboxSpec {
  import opened Json
  import opened SessionLog

  datatype Target = NextTurn | NextStep

  datatype FoldError =
    | UnknownTarget(target: string)
    | BadRange(start: int, removed: int, len: nat)
    | DuplicateId(id: string)

  datatype Lists = Lists(nextTurn: seq<Value>, nextStep: seq<Value>)

  datatype Splice = Splice(target: Target, start: nat, removed: nat, inserted: seq<Value>)

  const EMPTY := Lists([], [])

  function TargetName(t: Target): string {
    match t
    case NextTurn => "next-turn"
    case NextStep => "next-step"
  }

  function ParseTarget(s: string): Option<Target> {
    match s
    case "next-turn" => Some(NextTurn)
    case "next-step" => Some(NextStep)
    case _ => None
  }

  /** The row data of a splice: a zero count is left out. */
  function ToData(s: Splice): Value {
    var m := map["target" := Str(TargetName(s.target)), "start" := NatValue(s.start), "inserted" := Arr(s.inserted)];
    Obj(if s.removed > 0 then m["removedCount" := NatValue(s.removed)] else m)
  }

  function List(l: Lists, t: Target): seq<Value> {
    if t.NextTurn? then l.nextTurn else l.nextStep
  }

  function WithList(l: Lists, t: Target, list: seq<Value>): Lists {
    if t.NextTurn? then l.(nextTurn := list) else l.(nextStep := list)
  }

  /** A message without an id, or with an empty one, has no identity to collide on. */
  function Id(m: Value): string {
    OrElse(AsStr(Get(m, "id")), "")
  }

  predicate Carries(ms: seq<Value>, id: string) {
    exists i | 0 <= i < |ms| :: Id(ms[i]) == id
  }

  /** The first identity that is met a second time. */
  function Duplicate(ms: seq<Value>): Option<string> {
    if ms == [] then None
    else
      var n := |ms| - 1;
      var earlier := Duplicate(ms[..n]);
      if earlier.Some? then earlier
      else if Id(ms[n]) != "" && Carries(ms[..n], Id(ms[n])) then Some(Id(ms[n]))
      else None
  }

  predicate Distinct(ms: seq<Value>) {
    forall i, j | 0 <= i < j < |ms| && Id(ms[i]) != "" :: Id(ms[i]) != Id(ms[j])
  }

  lemma {:induction false} DuplicateIff(ms: seq<Value>)
    ensures Duplicate(ms) == None <==> Distinct(ms)
  {
    if ms != [] {
      var n := |ms| - 1;
      DuplicateIff(ms[..n]);
      assert forall i | 0 <= i < n :: ms[..n][i] == ms[i];
    }
  }

  function Pending(l: Lists): seq<Value> {
    l.nextTurn + l.nextStep
  }

  function SpliceSeq(list: seq<Value>, start: nat, removed: nat, inserted: seq<Value>): seq<Value>
    requires start + removed <= |list|
  {
    list[..start] + inserted + list[start + removed..]
  }

  /** One durable splice.  A duplicate is noticed only after the list has changed. */
  function ApplySplice(l: Lists, data: Value): (Lists, Option<FoldError>) {
    var name := OrElse(AsStr(Get(data, "target")), "");
    var target := ParseTarget(name);
    if target == None then (l, Some(UnknownTarget(name)))
    else
      var list := List(l, target.value);
      var start := OrElse(AsInt(Get(data, "start")), -1);
      var removed := OrElse(AsInt(Get(data, "removedCount")), 0);
      if start < 0 || removed < 0 || start > |list| || start + removed > |list| then
        (l, Some(BadRange(start, removed, |list|)))
      else
        var inserted := OrElse(AsArray(Get(data, "inserted")), []);
        var l' := WithList(l, target.value, SpliceSeq(list, start, removed, inserted));
        var dup := Duplicate(Pending(l'));
        (l', if dup.Some? then Some(DuplicateId(dup.value)) else None)
  }

  datatype Folded = Ok(lists: Lists) | Err(error: FoldError)

  function FoldRow(f: Folded, row: Draft): Folded {
    if f.Err? || row.kind != InboxSpliced then f
    else
      var r := ApplySplice(f.lists, row.data);
      if r.1.Some? then Err(r.1.value) else Ok(r.0)
  }

  function Fold(rows: seq<Draft>): Folded {
    if rows == [] then Ok(EMPTY) else FoldRow(Fold(rows[..|rows| - 1]), rows[|rows| - 1])
  }

  // ----- the live inbox -----

  function Append(l: Lists, t: Target, m: Value): (Lists, Splice) {
    (WithList(l, t, List(l, t) + [m]), Splice(t, |List(l, t)|, 0, [m]))
  }

  /** Where the first message with that very id is. */
  function Find(ms: seq<Value>, id: string): Option<nat> {
    if ms == [] then None
    else if AsStr(Get(ms[0], "id")) == Some(id) then Some(0)
    else
      var rest := Find(ms[1..], id);
      if rest.Some? then Some(rest.value + 1) else None
  }

  lemma {:induction false} FindFirst(ms: seq<Value>, id: string)
    ensures Find(ms, id).Some? ==>
      && Find(ms, id).value < |ms|
      && AsStr(Get(ms[Find(ms, id).value], "id")) == Some(id)
      && forall j | 0 <= j < Find(ms, id).value :: AsStr(Get(ms[j], "id")) != Some(id)
    ensures Find(ms, id) == None ==> forall j | 0 <= j < |ms| :: AsStr(Get(ms[j], "id")) != Some(id)
  {
    if ms != [] {
      FindFirst(ms[1..], id);
      assert forall j | 0 < j < |ms| :: ms[j] == ms[1..][j - 1];
    }
  }

  function RemoveAt(ms: seq<Value>, i: nat): seq<Value>
    requires i < |ms|
  {
    ms[..i] + ms[i + 1..]
  }

  /** Step input is searched before queued turns. */
  function Remove(l: Lists, id: string): (Lists, Option<Splice>) {
    FindFirst(l.nextStep, id);
    FindFirst(l.nextTurn, id);
    var inStep, inTurn := Find(l.nextStep, id), Find(l.nextTurn, id);
    if inStep.Some? then
      (l.(nextStep := RemoveAt(l.nextStep, inStep.value)), Some(Splice(NextStep, inStep.value, 1, [])))
    else if inTurn.Some? then
      (l.(nextTurn := RemoveAt(l.nextTurn, inTurn.value)), Some(Splice(NextTurn, inTurn.value, 1, [])))
    else (l, None)
  }

  /** All step input, and at a turn boundary the oldest queued turn behind it. */
  function Claim(l: Lists, t: Target): (Lists, seq<Value>, seq<Splice>) {
    var steps := Splice(NextStep, 0, |l.nextStep|, []);
    if t.NextTurn? && l.nextTurn != [] then
      (Lists(l.nextTurn[1..], []), l.nextStep + [l.nextTurn[0]], [steps, Splice(NextTurn, 0, 1, [])])
    else (l.(nextStep := []), l.nextStep, [steps])
  }

  predicate Named(m: Value, id: string) {
    AsStr(Get(m, "id")) == Some(id)
  }

  /** One message goes, if any has that id: the first such in the step input, and only when none is there the first
      such among the queued turns. */
  lemma RemoveTakesFirst(l: Lists, id: string)
    ensures
      var (l', splice) := Remove(l, id);
      if exists i | 0 <= i < |l.nextStep| :: Named(l.nextStep[i], id) then
        && l'.nextTurn == l.nextTurn && splice.Some? && splice.value.target == NextStep
        && FirstTaken(l.nextStep, id, splice.value, l'.nextStep)
      else if exists i | 0 <= i < |l.nextTurn| :: Named(l.nextTurn[i], id) then
        && l'.nextStep == l.nextStep && splice.Some? && splice.value.target == NextTurn
        && FirstTaken(l.nextTurn, id, splice.value, l'.nextTurn)
      else l' == l && splice == None
  {
    FindFirst(l.nextStep, id);
    FindFirst(l.nextTurn, id);
  }

  predicate FirstTaken(ms: seq<Value>, id: string, s: Splice, rest: seq<Value>) {
    && s.start < |ms| && s.removed == 1 && s.inserted == []
    && Named(ms[s.start], id) && (forall j | 0 <= j < s.start :: !Named(ms[j], id))
    && rest == ms[..s.start] + ms[s.start + 1..]
  }

  /** A claim takes all step input, and for a turn the oldest queued one behind it; the rest stays queued. */
  lemma ClaimTakes(l: Lists, t: Target)
    ensures
      var (l', taken, _) := Claim(l, t);
      && l'.nextStep == []
      && (t.NextStep? ==> taken == l.nextStep && l'.nextTurn == l.nextTurn)
      && (t.NextTurn? ==> taken + l'.nextTurn == l.nextStep + l.nextTurn
                          && |taken| == |l.nextStep| + if l.nextTurn == [] then 0 else 1)
  {
    if t.NextTurn? && l.nextTurn != [] {
      assert l.nextTurn == [l.nextTurn[0]] + l.nextTurn[1..];
    }
  }

  /** The repeated identity that is reported is one that two messages carry, and the messages up to the second of them
      have no other. */
  lemma {:induction false} DuplicateIsCarriedTwice(ms: seq<Value>)
    ensures Duplicate(ms).Some? ==>
      exists i, j | 0 <= i < j < |ms| ::
        Id(ms[i]) == Id(ms[j]) == Duplicate(ms).value && Id(ms[j]) != "" && Distinct(ms[..j])
  {
    if ms != [] {
      var n := |ms| - 1;
      var front := ms[..n];
      DuplicateIsCarriedTwice(front);
      DuplicateIff(front);
      if Duplicate(front).Some? {
        var i, j :| 0 <= i < j < |front| && Id(front[i]) == Id(front[j]) == Duplicate(front).value && Id(front[j]) != ""
                    && Distinct(front[..j]);
        assert front[i] == ms[i] && front[j] == ms[j] && front[..j] == ms[..j];
      } else if Duplicate(ms).Some? {
        var i :| 0 <= i < |front| && Id(front[i]) == Id(ms[n]);
        assert front[i] == ms[i] && ms[..n] == front;
      }
    }
  }

  /** What a splice looks like in its row. */
  lemma SpliceRowReads(s: Splice)
    ensures
      var data := SpliceRow(s).data;
      && SpliceRow(s).kind == InboxSpliced
      && AsStr(Get(data, "target")) == Some(if s.target.NextTurn? then "next-turn" else "next-step")
      && AsNat(Get(data, "start")) == Some(s.start) && AsArray(Get(data, "inserted")) == Some(s.inserted)
      && OrElse(AsNat(Get(data, "removedCount")), 0) == s.removed
  {
  }

  /** What a row does: an unknown list or a range beyond it is refused; any other puts what it brings in the place of
      what it takes, and is refused exactly when an identity is then pending twice. */
  lemma SpliceTakenIff(l: Lists, data: Value)
    ensures
      var (l', error) := ApplySplice(l, data);
      var name := OrElse(AsStr(Get(data, "target")), "");
      var start, removed := OrElse(AsInt(Get(data, "start")), -1), OrElse(AsInt(Get(data, "removedCount")), 0);
      var (was, now) := if name == "next-turn" then (l.nextTurn, l'.nextTurn) else (l.nextStep, l'.nextStep);
      if name != "next-turn" && name != "next-step" then l' == l && error == Some(UnknownTarget(name))
      else if start < 0 || removed < 0 || start + removed > |was| then
        l' == l && error == Some(BadRange(start, removed, |was|))
      else
        && now == was[..start] + OrElse(AsArray(Get(data, "inserted")), []) + was[start + removed..]
        && (if name == "next-turn" then l'.nextStep == l.nextStep else l'.nextTurn == l.nextTurn)
        && (error == None <==> Distinct(Pending(l'))) && (error.Some? ==> error.value.DuplicateId?)
  {
    var l' := ApplySplice(l, data).0;
    DuplicateIff(Pending(l'));
  }

  /** The identity of a message is its `id`, when that is a text. */
  lemma IdReads(m: Value)
    ensures m.Obj? && "id" in m.members && m.members["id"].Str? ==> Id(m) == m.members["id"].s
    ensures !(m.Obj? && "id" in m.members && m.members["id"].Str?) ==> Id(m) == ""
  {
  }

  datatype Op = DoAppend(target: Target, message: Value) | DoRemove(id: string) | DoClaim(target: Target)

  /** Everything that happened to an inbox that started empty. */
  datatype History = History(
    lists: Lists,
    splices: seq<Splice>,
    appendedTurns: seq<Value>,
    appendedSteps: seq<Value>,
    claimedTurns: seq<Value>,
    claimedSteps: seq<Value>,
    removedTurns: seq<Value>,
    removedSteps: seq<Value>)

  const START := History(EMPTY, [], [], [], [], [], [], [])

  function Do(h: History, op: Op): History
  {
    match op
    case DoAppend(t, m) =>
      var r := Append(h.lists, t, m);
      h.(lists := r.0, splices := h.splices + [r.1],
         appendedTurns := if t.NextTurn? then h.appendedTurns + [m] else h.appendedTurns,
         appendedSteps := if t.NextTurn? then h.appendedSteps else h.appendedSteps + [m])
    case DoRemove(id) =>
      var r := Remove(h.lists, id);
      if r.1 == None then h else TakeAt(h, r.1.value.target, RemovedAt(h.lists, id)).(lists := r.0)
    case DoClaim(t) =>
      var r := Claim(h.lists, t);
      h.(lists := r.0, splices := h.splices + r.2,
         claimedSteps := h.claimedSteps + r.1[..|h.lists.nextStep|],
         claimedTurns := h.claimedTurns + r.1[|h.lists.nextStep|..])
  }

  /** Records the removal of the message pending at `i`. */
  function TakeAt(h: History, t: Target, i: nat): History
    requires i < |List(h.lists, t)|
  {
    var list := List(h.lists, t);
    h.(lists := WithList(h.lists, t, RemoveAt(list, i)),
       splices := h.splices + [Splice(t, i, 1, [])],
       removedTurns := if t.NextTurn? then h.removedTurns + [list[i]] else h.removedTurns,
       removedSteps := if t.NextTurn? then h.removedSteps else h.removedSteps + [list[i]])
  }

  function RemovedAt(l: Lists, id: string): (i: nat)
    requires Remove(l, id).1.Some?
    ensures i < |List(l, Remove(l, id).1.value.target)|
  {
    FindFirst(l.nextStep, id);
    FindFirst(l.nextTurn, id);
    Remove(l, id).1.value.start
  }

  function Run(ops: seq<Op>): History
  {
    if ops == [] then START else Do(Run(ops[..|ops| - 1]), ops[|ops| - 1])
  }

  /** An appended message has a blank id, or one that is not pending. */
  predicate Fresh(l: Lists, op: Op) {
    op.DoAppend? && Id(op.message) != "" ==> !Carries(Pending(l), Id(op.message))
  }

  predicate AllFresh(ops: seq<Op>) {
    ops != [] ==> AllFresh(ops[..|ops| - 1]) && Fresh(Run(ops[..|ops| - 1]).lists, ops[|ops| - 1])
  }

  function SpliceRow(s: Splice): Draft {
    Draft(InboxSpliced, ToData(s))
  }

  function SpliceRows(ss: seq<Splice>): seq<Draft> {
    seq(|ss|, i requires 0 <= i < |ss| => SpliceRow(ss[i]))
  }

  // ----- the log reproduces the live inbox -----

  /** Reading back what was written loses nothing. */
  lemma SpliceReadsBack(l: Lists, s: Splice)
    requires s.start + s.removed <= |List(l, s.target)|
    ensures
      var l' := WithList(l, s.target, SpliceSeq(List(l, s.target), s.start, s.removed, s.inserted));
      ApplySplice(l, ToData(s)) ==
        (l', if Duplicate(Pending(l')).Some? then Some(DuplicateId(Duplicate(Pending(l')).value)) else None)
  {
    var data := ToData(s);
    assert AsStr(Get(data, "target")) == Some(TargetName(s.target));
    assert ParseTarget(TargetName(s.target)) == Some(s.target);
    assert AsInt(Get(data, "start")) == Some(s.start);
    assert OrElse(AsInt(Get(data, "removedCount")), 0) == s.removed;
    assert AsArray(Get(data, "inserted")) == Some(s.inserted);
  }

  lemma FoldOneMore(rows: seq<Draft>, row: Draft)
    ensures Fold(rows + [row]) == FoldRow(Fold(rows), row)
  {
    assert (rows + [row])[..|rows|] == rows;
  }

  lemma SpliceRowsMore(ss: seq<Splice>, s: Splice)
    ensures SpliceRows(ss + [s]) == SpliceRows(ss) + [SpliceRow(s)]
  {
  }

  /** Folding one more splice whose range is good. */
  lemma FoldSplice(ss: seq<Splice>, l: Lists, s: Splice)
    requires Fold(SpliceRows(ss)) == Ok(l)
    requires s.start + s.removed <= |List(l, s.target)|
    ensures
      var l' := WithList(l, s.target, SpliceSeq(List(l, s.target), s.start, s.removed, s.inserted));
      Fold(SpliceRows(ss + [s]))
        == (if Distinct(Pending(l')) then Ok(l') else Err(DuplicateId(OrElse(Duplicate(Pending(l')), ""))))
  {
    SpliceRowsMore(ss, s);
    FoldOneMore(SpliceRows(ss), SpliceRow(s));
    SpliceReadsBack(l, s);
    DuplicateIff(Pending(WithList(l, s.target, SpliceSeq(List(l, s.target), s.start, s.removed, s.inserted))));
  }

  lemma FoldStaysFailed(ss: seq<Splice>, more: seq<Splice>)
    requires Fold(SpliceRows(ss)).Err?
    ensures Fold(SpliceRows(ss + more)).Err?
  {
    if more == [] {
      assert ss + more == ss;
    } else {
      var n := |more| - 1;
      FoldStaysFailed(ss, more[..n]);
      assert ss + more == ss + more[..n] + [more[n]];
      SpliceRowsMore(ss + more[..n], more[n]);
      FoldOneMore(SpliceRows(ss + more[..n]), SpliceRow(more[n]));
    }
  }

  /** Inserting keeps identities distinct exactly when the new one is fresh. */
  lemma InsertDistinctIff(a: seq<Value>, m: Value, b: seq<Value>)
    requires Distinct(a + b)
    ensures Distinct(a + [m] + b) <==> Id(m) == "" || !Carries(a + b, Id(m))
  {
    var ms, rest := a + [m] + b, a + b;
    assert forall i | 0 <= i < |rest| :: rest[i] == if i < |a| then ms[i] else ms[i + 1];
    if Id(m) != "" && Carries(rest, Id(m)) {
      var i :| 0 <= i < |rest| && Id(rest[i]) == Id(m);
      var j := if i < |a| then i else i + 1;
      assert ms[|a|] == m && ms[j] == rest[i] && Id(ms[j]) == Id(ms[|a|]);
      assert !Distinct(ms);
    }
    if Id(m) == "" || !Carries(rest, Id(m)) {
      forall i, j | 0 <= i < j < |ms| && Id(ms[i]) != ""
        ensures Id(ms[i]) != Id(ms[j])
      {
        var i', j' := if i < |a| then i else i - 1, if j < |a| then j else j - 1;
        if i == |a| {
          assert rest[j'] == ms[j];
        } else if j == |a| {
          assert rest[i'] == ms[i];
        } else {
          assert rest[i'] == ms[i] && rest[j'] == ms[j];
        }
      }
    }
  }

  lemma DeleteDistinct(a: seq<Value>, b: seq<Value>, c: seq<Value>)
    requires Distinct(a + b + c)
    ensures Distinct(a + c)
  {
    var was := a + b + c;
    forall i, j | 0 <= i < j < |a + c| && Id((a + c)[i]) != ""
      ensures Id((a + c)[i]) != Id((a + c)[j])
    {
      var i', j' := if i < |a| then i else i + |b|, if j < |a| then j else j + |b|;
      assert was[i'] == (a + c)[i] && was[j'] == (a + c)[j];
    }
  }

  lemma AppendFolds(h: History, t: Target, m: Value)
    requires Fold(SpliceRows(h.splices)) == Ok(h.lists) && Distinct(Pending(h.lists))
    ensures Fresh(h.lists, DoAppend(t, m)) ==>
      && Fold(SpliceRows(Do(h, DoAppend(t, m)).splices)) == Ok(Do(h, DoAppend(t, m)).lists)
      && Distinct(Pending(Do(h, DoAppend(t, m)).lists))
    ensures !Fresh(h.lists, DoAppend(t, m)) ==> Fold(SpliceRows(Do(h, DoAppend(t, m)).splices)).Err?
  {
    var l := h.lists;
    FoldSplice(h.splices, l, Append(l, t, m).1);
    assert SpliceSeq(List(l, t), |List(l, t)|, 0, [m]) == List(l, t) + [m];
    AppendDistinctIff(l, t, m);
  }

  lemma AppendDistinctIff(l: Lists, t: Target, m: Value)
    requires Distinct(Pending(l))
    ensures Distinct(Pending(Append(l, t, m).0)) <==> Fresh(l, DoAppend(t, m))
  {
    if t.NextTurn? {
      InsertDistinctIff(l.nextTurn, m, l.nextStep);
    } else {
      InsertDistinctIff(Pending(l), m, []);
      assert Pending(l) + [m] + [] == Pending(Append(l, t, m).0);
      assert Pending(l) + [] == Pending(l);
    }
  }

  /** One operation: the fold follows the live inbox, unless an append was not fresh. */
  lemma DoFolds(h: History, op: Op)
    requires Fold(SpliceRows(h.splices)) == Ok(h.lists) && Distinct(Pending(h.lists))
    ensures Fresh(h.lists, op) ==>
      Fold(SpliceRows(Do(h, op).splices)) == Ok(Do(h, op).lists) && Distinct(Pending(Do(h, op).lists))
    ensures !Fresh(h.lists, op) ==> Fold(SpliceRows(Do(h, op).splices)).Err?
  {
    var l := h.lists;
    match op {
      case DoAppend(t, m) => AppendFolds(h, t, m);
      case DoRemove(id) =>
        var r := Remove(l, id);
        if r.1.Some? {
          var t, i := r.1.value.target, RemovedAt(l, id);
          FoldSplice(h.splices, l, r.1.value);
          assert SpliceSeq(List(l, t), i, 1, []) == RemoveAt(List(l, t), i);
          RemoveDistinct(l, t, i);
        }
      case DoClaim(t) => ClaimFolds(h, t);
    }
  }

  lemma RemoveDistinct(l: Lists, t: Target, i: nat)
    requires i < |List(l, t)| && Distinct(Pending(l))
    ensures Distinct(Pending(WithList(l, t, RemoveAt(List(l, t), i))))
  {
    var list := List(l, t);
    assert list == list[..i] + [list[i]] + list[i + 1..];
    if t.NextTurn? {
      assert Pending(l) == list[..i] + [list[i]] + (list[i + 1..] + l.nextStep);
      DeleteDistinct(list[..i], [list[i]], list[i + 1..] + l.nextStep);
      assert Pending(WithList(l, t, RemoveAt(list, i))) == list[..i] + (list[i + 1..] + l.nextStep);
    } else {
      assert Pending(l) == (l.nextTurn + list[..i]) + [list[i]] + list[i + 1..];
      DeleteDistinct(l.nextTurn + list[..i], [list[i]], list[i + 1..]);
      assert Pending(WithList(l, t, RemoveAt(list, i))) == (l.nextTurn + list[..i]) + list[i + 1..];
    }
  }

  lemma ClaimFolds(h: History, t: Target)
    requires Fold(SpliceRows(h.splices)) == Ok(h.lists) && Distinct(Pending(h.lists))
    ensures Fold(SpliceRows(Do(h, DoClaim(t)).splices)) == Ok(Do(h, DoClaim(t)).lists)
    ensures Distinct(Pending(Do(h, DoClaim(t)).lists))
  {
    var l, r := h.lists, Claim(h.lists, t);
    var mid := l.(nextStep := []);
    StepsClaimed(h.splices, l);
    if |r.2| == 2 {
      TurnClaimed(h.splices + [r.2[0]], mid);
      assert h.splices + r.2 == h.splices + [r.2[0]] + [r.2[1]];
    }
  }

  /** Then the oldest queued turn. */
  lemma TurnClaimed(ss: seq<Splice>, l: Lists)
    requires Fold(SpliceRows(ss)) == Ok(l) && Distinct(Pending(l)) && l.nextTurn != []
    ensures Fold(SpliceRows(ss + [Splice(NextTurn, 0, 1, [])])) == Ok(l.(nextTurn := l.nextTurn[1..]))
    ensures Distinct(Pending(l.(nextTurn := l.nextTurn[1..])))
  {
    FoldSplice(ss, l, Splice(NextTurn, 0, 1, []));
    assert SpliceSeq(l.nextTurn, 0, 1, []) == l.nextTurn[1..];
    RemoveDistinct(l, NextTurn, 0);
    assert RemoveAt(l.nextTurn, 0) == l.nextTurn[1..];
  }

  lemma StepsClaimed(ss: seq<Splice>, l: Lists)
    requires Fold(SpliceRows(ss)) == Ok(l) && Distinct(Pending(l))
    ensures Fold(SpliceRows(ss + [Splice(NextStep, 0, |l.nextStep|, [])])) == Ok(l.(nextStep := []))
    ensures Distinct(Pending(l.(nextStep := [])))
  {
    FoldSplice(ss, l, Splice(NextStep, 0, |l.nextStep|, []));
    assert SpliceSeq(l.nextStep, 0, |l.nextStep|, []) == [];
    assert Pending(l) == l.nextTurn + l.nextStep + [];
    DeleteDistinct(l.nextTurn, l.nextStep, []);
  }

  /** An operation only adds splices, so a log that does not fold never will. */
  lemma DoStaysFailed(h: History, op: Op)
    requires Fold(SpliceRows(h.splices)).Err?
    ensures Fold(SpliceRows(Do(h, op).splices)).Err?
  {
    var more := Do(h, op).splices[|h.splices|..];
    assert h.splices + more == Do(h, op).splices;
    FoldStaysFailed(h.splices, more);
  }

  /** The splices of a run fold back to the live inbox, with distinct identities, exactly
      when every append was fresh. */
  lemma {:induction false} LogReproducesInbox(ops: seq<Op>)
    ensures AllFresh(ops) <==> Fold(SpliceRows(Run(ops).splices)).Ok?
    ensures AllFresh(ops)
      ==> Fold(SpliceRows(Run(ops).splices)) == Ok(Run(ops).lists) && Distinct(Pending(Run(ops).lists))
  {
    if ops == [] {
      assert SpliceRows([]) == [];
    } else {
      var n := |ops| - 1;
      LogReproducesInbox(ops[..n]);
      var h := Run(ops[..n]);
      if AllFresh(ops[..n]) {
        DoFolds(h, ops[n]);
      } else {
        DoStaysFailed(h, ops[n]);
      }
    }
  }

  // ----- nothing is lost, and order is kept -----

  /** `a` is `b` with some elements left out. */
  ghost predicate Picks(a: seq<Value>, b: seq<Value>, at: seq<nat>) {
    && |at| == |a|
    && (forall k | 0 <= k < |at| :: at[k] < |b| && a[k] == b[at[k]])
    && (forall j, k | 0 <= j < k < |at| :: at[j] < at[k])
  }

  /** `left` in order and then `pending` are what was put in, less what was removed. */
  ghost predicate Accounted(put: seq<Value>, left: seq<Value>, pending: seq<Value>, removed: seq<Value>, at: seq<nat>) {
    multiset(put) == multiset(left + pending) + multiset(removed) && Picks(left + pending, put, at)
  }

  /** Every appended message is claimed, removed or pending, once each; queued turns leave
      in the order they were appended, and so does step input. */
  ghost predicate Conserved(h: History, turnsAt: seq<nat>, stepsAt: seq<nat>) {
    && Accounted(h.appendedTurns, h.claimedTurns, h.lists.nextTurn, h.removedTurns, turnsAt)
    && Accounted(h.appendedSteps, h.claimedSteps, h.lists.nextStep, h.removedSteps, stepsAt)
  }

  lemma PutMore(put: seq<Value>, left: seq<Value>, pending: seq<Value>, removed: seq<Value>, at: seq<nat>, m: Value)
    requires Accounted(put, left, pending, removed, at)
    ensures Accounted(put + [m], left, pending + [m], removed, at + [|put|])
  {
    assert left + (pending + [m]) == left + pending + [m];
  }

  lemma PicksWithout(a: seq<Value>, b: seq<Value>, at: seq<nat>, j: nat)
    requires Picks(a, b, at) && j < |a|
    ensures Picks(RemoveAt(a, j), b, at[..j] + at[j + 1..])
  {
  }

  lemma CountsWithout(all: seq<Value>, removed: seq<Value>, j: nat)
    requires j < |all|
    ensures multiset(RemoveAt(all, j)) + multiset(removed + [all[j]]) == multiset(all) + multiset(removed)
  {
    assert all == all[..j] + [all[j]] + all[j + 1..];
  }

  lemma RemovedBehind(left: seq<Value>, pending: seq<Value>, i: nat) returns (all: seq<Value>)
    requires i < |pending|
    ensures all == left + pending && |left| + i < |all| && all[|left| + i] == pending[i]
    ensures RemoveAt(all, |left| + i) == left + RemoveAt(pending, i)
  {
    all := left + pending;
  }

  lemma StillPicked(put: seq<Value>, left: seq<Value>, pending: seq<Value>, at: seq<nat>, i: nat)
    requires Picks(left + pending, put, at) && i < |pending|
    ensures Picks(left + RemoveAt(pending, i), put, at[..|left| + i] + at[|left| + i + 1..])
  {
    var all := RemovedBehind(left, pending, i);
    PicksWithout(all, put, at, |left| + i);
  }

  lemma StillCounted(put: seq<Value>, left: seq<Value>, pending: seq<Value>, removed: seq<Value>, i: nat)
    requires multiset(put) == multiset(left + pending) + multiset(removed) && i < |pending|
    ensures multiset(put) == multiset(left + RemoveAt(pending, i)) + multiset(removed + [pending[i]])
  {
    var all := RemovedBehind(left, pending, i);
    CountsWithout(all, removed, |left| + i);
  }

  lemma TakeOut(put: seq<Value>, left: seq<Value>, pending: seq<Value>, removed: seq<Value>, at: seq<nat>, i: nat)
    requires Accounted(put, left, pending, removed, at) && i < |pending|
    ensures Accounted(put, left, RemoveAt(pending, i), removed + [pending[i]], at[..|left| + i] + at[|left| + i + 1..])
  {
    StillPicked(put, left, pending, at, i);
    StillCounted(put, left, pending, removed, i);
  }

  lemma MoveOn(put: seq<Value>, left: seq<Value>, pending: seq<Value>, removed: seq<Value>, at: seq<nat>, n: nat)
    requires Accounted(put, left, pending, removed, at) && n <= |pending|
    ensures Accounted(put, left + pending[..n], pending[n..], removed, at)
  {
    assert left + pending[..n] + pending[n..] == left + pending;
  }

  lemma {:induction false} RunsConserve(ops: seq<Op>) returns (turnsAt: seq<nat>, stepsAt: seq<nat>)
    ensures Conserved(Run(ops), turnsAt, stepsAt)
  {
    turnsAt, stepsAt := [], [];
    if ops != [] {
      var n := |ops| - 1;
      turnsAt, stepsAt := RunsConserve(ops[..n]);
      turnsAt, stepsAt := DoConserves(Run(ops[..n]), ops[n], turnsAt, stepsAt);
    }
  }

  lemma TurnConserves(h: History, m: Value, turnsAt: seq<nat>, stepsAt: seq<nat>) returns (turnsAt': seq<nat>)
    requires Conserved(h, turnsAt, stepsAt)
    ensures Conserved(Do(h, DoAppend(NextTurn, m)), turnsAt', stepsAt)
  {
    PutMore(h.appendedTurns, h.claimedTurns, h.lists.nextTurn, h.removedTurns, turnsAt, m);
    turnsAt' := turnsAt + [|h.appendedTurns|];
  }

  lemma StepInputConserves(h: History, m: Value, turnsAt: seq<nat>, stepsAt: seq<nat>) returns (stepsAt': seq<nat>)
    requires Conserved(h, turnsAt, stepsAt)
    ensures Conserved(Do(h, DoAppend(NextStep, m)), turnsAt, stepsAt')
  {
    PutMore(h.appendedSteps, h.claimedSteps, h.lists.nextStep, h.removedSteps, stepsAt, m);
    stepsAt' := stepsAt + [|h.appendedSteps|];
  }

  lemma DoConserves(h: History, op: Op, turnsAt: seq<nat>, stepsAt: seq<nat>)
    returns (turnsAt': seq<nat>, stepsAt': seq<nat>)
    requires Conserved(h, turnsAt, stepsAt)
    ensures Conserved(Do(h, op), turnsAt', stepsAt')
  {
    turnsAt', stepsAt' := turnsAt, stepsAt;
    match op {
      case DoAppend(NextTurn, m) => turnsAt' := TurnConserves(h, m, turnsAt, stepsAt);
      case DoAppend(NextStep, m) => stepsAt' := StepInputConserves(h, m, turnsAt, stepsAt);
      case DoRemove(id) =>
        var r := Remove(h.lists, id);
        if r.1.Some? {
          turnsAt', stepsAt' := RemoveConserves(h, r.1.value.target, RemovedAt(h.lists, id), turnsAt, stepsAt);
        }
      case DoClaim(t) => ClaimConserves(h, t, turnsAt, stepsAt);
    }
  }

  lemma RemoveConserves(h: History, t: Target, i: nat, turnsAt: seq<nat>, stepsAt: seq<nat>)
    returns (turnsAt': seq<nat>, stepsAt': seq<nat>)
    requires i < |List(h.lists, t)| && Conserved(h, turnsAt, stepsAt)
    ensures Conserved(TakeAt(h, t, i), turnsAt', stepsAt')
  {
    turnsAt', stepsAt' := turnsAt, stepsAt;
    if t.NextTurn? {
      TakeOut(h.appendedTurns, h.claimedTurns, h.lists.nextTurn, h.removedTurns, turnsAt, i);
      turnsAt' := turnsAt[..|h.claimedTurns| + i] + turnsAt[|h.claimedTurns| + i + 1..];
    } else {
      TakeOut(h.appendedSteps, h.claimedSteps, h.lists.nextStep, h.removedSteps, stepsAt, i);
      stepsAt' := stepsAt[..|h.claimedSteps| + i] + stepsAt[|h.claimedSteps| + i + 1..];
    }
  }

  lemma ClaimConserves(h: History, t: Target, turnsAt: seq<nat>, stepsAt: seq<nat>)
    requires Conserved(h, turnsAt, stepsAt)
    ensures Conserved(Do(h, DoClaim(t)), turnsAt, stepsAt)
  {
    var l, after := h.lists, Do(h, DoClaim(t));
    var turns := if t.NextTurn? && l.nextTurn != [] then 1 else 0;
    assert l.nextStep[..|l.nextStep|] == l.nextStep;
    assert after.claimedSteps == h.claimedSteps + l.nextStep && after.lists.nextStep == l.nextStep[|l.nextStep|..];
    assert after.claimedTurns == h.claimedTurns + l.nextTurn[..turns] && after.lists.nextTurn == l.nextTurn[turns..];
    MoveOn(h.appendedSteps, h.claimedSteps, l.nextStep, h.removedSteps, stepsAt, |l.nextStep|);
    MoveOn(h.appendedTurns, h.claimedTurns, l.nextTurn, h.removedTurns, turnsAt, turns);
  }
}
