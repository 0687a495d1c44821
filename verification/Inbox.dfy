/** The inbox as the driver holds it: two lists, spliced and drained in place. */
module Inbox {
  import opened Json
  import opened SessionLog
  import opened InboxSpec

  class Inbox {
    var nextTurn: seq<Value>
    var nextStep: seq<Value>

    ghost function State(): Lists
      reads this
    {
      Lists(nextTurn, nextStep)
    }

    constructor ()
      ensures State() == EMPTY
    {
      nextTurn, nextStep := [], [];
    }

    /** Whole logs can be handed in: only splice rows count. */
    static method Fold(rows: seq<Draft>) returns (inbox: Inbox, error: Option<FoldError>)
      ensures fresh(inbox)
      ensures InboxSpec.Fold(rows) == if error == None then Ok(inbox.State()) else Err(error.value)
    {
      inbox := new Inbox();
      error := None;
      for i := 0 to |rows|
        invariant fresh(inbox) && error == None
        invariant InboxSpec.Fold(rows[..i]) == Ok(inbox.State())
      {
        assert rows[..i + 1][..i] == rows[..i];
        if rows[i].kind == InboxSpliced {
          error := inbox.ApplySplice(rows[i].data);
          if error.Some? {
            FoldStuck(rows, i + 1);
            return;
          }
        }
      }
      assert rows[..|rows|] == rows;
    }

    method ApplySplice(data: Value) returns (error: Option<FoldError>)
      modifies this
      ensures (State(), error) == InboxSpec.ApplySplice(old(State()), data)
    {
      var name := OrElse(AsStr(Get(data, "target")), "");
      var target := ParseTarget(name);
      if target == None {
        return Some(UnknownTarget(name));
      }
      var list := if target == Some(NextTurn) then nextTurn else nextStep;
      var start := OrElse(AsInt(Get(data, "start")), -1);
      var removed := OrElse(AsInt(Get(data, "removedCount")), 0);
      var inserted := OrElse(AsArray(Get(data, "inserted")), []);
      if start < 0 || removed < 0 || start > |list| || start + removed > |list| {
        return Some(BadRange(start, removed, |list|));
      }
      list := list[..start] + inserted + list[start + removed..];
      if target == Some(NextTurn) {
        nextTurn := list;
      } else {
        nextStep := list;
      }
      assert State() == WithList(old(State()), target.value, list);
      var dup := CheckIdentities();
      error := if dup.Some? then Some(DuplicateId(dup.value)) else None;
    }

    static lemma DuplicateFound(ms: seq<Value>, i: nat)
      requires i < |ms| && Duplicate(ms[..i]) == None && Id(ms[i]) != "" && Carries(ms[..i], Id(ms[i]))
      ensures Duplicate(ms) == Some(Id(ms[i])) && !Distinct(ms)
    {
      assert ms[..i + 1][..i] == ms[..i];
      DuplicateStays(ms, i + 1);
      DuplicateIff(ms);
    }

    method CheckIdentities() returns (dup: Option<string>)
      ensures dup == Duplicate(Pending(State()))
      ensures dup == None <==> Distinct(Pending(State()))
    {
      var ms, seen := nextTurn + nextStep, {};
      for i := 0 to |ms|
        invariant forall id :: id in seen <==> id != "" && Carries(ms[..i], id)
        invariant Duplicate(ms[..i]) == None
      {
        assert ms[..i + 1][..i] == ms[..i];
        var id := Id(ms[i]);
        if id != "" {
          if id in seen {
            DuplicateFound(ms, i);
            return Some(id);
          }
          seen := seen + {id};
        }
        CarriesMore(ms, i);
      }
      assert ms[..|ms|] == ms;
      DuplicateIff(ms);
      dup := None;
    }

    method Claim(target: Target) returns (claimed: seq<Value>, splices: seq<Splice>)
      modifies this
      ensures (State(), claimed, splices) == InboxSpec.Claim(old(State()), target)
    {
      claimed, nextStep := nextStep, [];
      splices := [Splice(NextStep, 0, |claimed|, [])];
      if target.NextTurn? && nextTurn != [] {
        claimed := claimed + [nextTurn[0]];
        nextTurn := nextTurn[1..];
        splices := [splices[0], Splice(NextTurn, 0, 1, [])];
      }
    }

    method Append(target: Target, message: Value) returns (splice: Splice)
      modifies this
      ensures (State(), splice) == InboxSpec.Append(old(State()), target, message)
    {
      if target.NextTurn? {
        splice := Splice(target, |nextTurn|, 0, [message]);
        nextTurn := nextTurn + [message];
      } else {
        splice := Splice(target, |nextStep|, 0, [message]);
        nextStep := nextStep + [message];
      }
    }

    method Remove(id: string) returns (splice: Option<Splice>)
      modifies this
      ensures (State(), splice) == InboxSpec.Remove(old(State()), id)
    {
      var at := Locate(nextStep, id);
      if at.Some? {
        nextStep := nextStep[..at.value] + nextStep[at.value + 1..];
        return Some(Splice(NextStep, at.value, 1, []));
      }
      at := Locate(nextTurn, id);
      if at.Some? {
        nextTurn := nextTurn[..at.value] + nextTurn[at.value + 1..];
        return Some(Splice(NextTurn, at.value, 1, []));
      }
      splice := None;
    }

    static method Locate(ms: seq<Value>, id: string) returns (at: Option<nat>)
      ensures at == Find(ms, id)
      ensures at.Some? ==> at.value < |ms|
    {
      FindFirst(ms, id);
      for i := 0 to |ms|
        invariant forall j | 0 <= j < i :: AsStr(Get(ms[j], "id")) != Some(id)
      {
        if AsStr(Get(ms[i], "id")) == Some(id) {
          return Some(i);
        }
      }
      at := None;
    }
  }

  lemma {:induction false} FoldStuck(rows: seq<Draft>, i: nat)
    requires i <= |rows| && InboxSpec.Fold(rows[..i]).Err?
    ensures InboxSpec.Fold(rows) == InboxSpec.Fold(rows[..i])
    decreases |rows|
  {
    if i == |rows| {
      assert rows[..i] == rows;
    } else {
      var n := |rows| - 1;
      assert rows[..n][..i] == rows[..i];
      FoldStuck(rows[..n], i);
    }
  }

  lemma {:induction false} DuplicateStays(ms: seq<Value>, i: nat)
    requires i <= |ms| && Duplicate(ms[..i]).Some?
    ensures Duplicate(ms) == Duplicate(ms[..i])
    decreases |ms|
  {
    if i == |ms| {
      assert ms[..i] == ms;
    } else {
      var n := |ms| - 1;
      assert ms[..n][..i] == ms[..i];
      DuplicateStays(ms[..n], i);
    }
  }

  lemma CarriesMore(ms: seq<Value>, i: nat)
    requires i < |ms|
    ensures forall id :: Carries(ms[..i + 1], id) <==> Carries(ms[..i], id) || id == Id(ms[i])
  {
    forall id
      ensures Carries(ms[..i + 1], id) <==> Carries(ms[..i], id) || id == Id(ms[i])
    {
      if Carries(ms[..i], id) {
        var j :| 0 <= j < i && Id(ms[..i][j]) == id;
        assert ms[..i + 1][j] == ms[..i][j];
      }
      if id == Id(ms[i]) {
        assert ms[..i + 1][i] == ms[i];
      }
      if Carries(ms[..i + 1], id) && id != Id(ms[i]) {
        var j :| 0 <= j < i + 1 && Id(ms[..i + 1][j]) == id;
        assert ms[..i][j] == ms[..i + 1][j];
      }
    }
  }
}
