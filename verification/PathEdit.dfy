/** In-place edits of JSON documents: merge a patch, set a path, unset a path. */
module PathEdit {
  import opened Json

  type Path = seq<string>

  // ------------------------------------------------------- reading and writing

  /** What stands at a path: objects all the way down to it. */
  function Lookup(v: Value, path: Path): Option<Value>
    decreases |path|
  {
    if path == [] then Some(v)
    else if v.Obj? && path[0] in v.members then Lookup(v.members[path[0]], path[1..])
    else None
  }

  /** A cursor into the document is the address it was moved to; writing through it replaces what stands there. */
  function Write(v: Value, at: Path, x: Value): (w: Value)
    requires Lookup(v, at).Some?
    ensures Lookup(w, at) == Some(x)
    decreases |at|
  {
    if at == [] then x else Obj(v.members[at[0] := Write(v.members[at[0]], at[1..], x)])
  }

  /** Neither path leads to or through the other. */
  predicate Apart(p: Path, q: Path) {
    !(p <= q) && !(q <= p)
  }

  lemma {:induction false} LookupThrough(v: Value, at: Path, more: Path)
    ensures Lookup(v, at + more) == if Lookup(v, at).Some? then Lookup(Lookup(v, at).value, more) else None
    decreases |at|
  {
    if at == [] {
      assert at + more == more;
    } else {
      assert (at + more)[1..] == at[1..] + more;
      if v.Obj? && at[0] in v.members {
        LookupThrough(v.members[at[0]], at[1..], more);
      }
    }
  }

  lemma {:induction false} WriteBack(v: Value, at: Path)
    requires Lookup(v, at).Some?
    ensures Write(v, at, Lookup(v, at).value) == v
    decreases |at|
  {
    if at == [] {
    } else {
      WriteBack(v.members[at[0]], at[1..]);
    }
  }

  /** Writing a member and then writing through that member is one write of the member. */
  lemma {:induction false} WriteDeeper(v: Value, at: Path, m: map<string, Value>, k: string, a: Value, b: Value)
    requires Lookup(v, at).Some?
    ensures
      var w := Write(v, at, Obj(m[k := a]));
      Lookup(w, at + [k]) == Some(a) && Write(w, at + [k], b) == Write(v, at, Obj(m[k := b]))
    decreases |at|
  {
    var w := Write(v, at, Obj(m[k := a]));
    LookupThrough(w, at, [k]);
    assert Lookup(Obj(m[k := a]), [k]) == Some(a);
    if at == [] {
      assert at + [k] == [k];
      assert m[k := a][k := b] == m[k := b];
    } else {
      assert (at + [k])[1..] == at[1..] + [k];
      WriteDeeper(v.members[at[0]], at[1..], m, k, a, b);
      var first := Write(v.members[at[0]], at[1..], Obj(m[k := a]));
      var second := Write(v.members[at[0]], at[1..], Obj(m[k := b]));
      assert v.members[at[0] := first][at[0] := second] == v.members[at[0] := second];
    }
  }

  /** Moving a cursor one member down and writing there. */
  lemma WriteStep(v: Value, at: Path, k: string, x: Value)
    requires Lookup(v, at + [k]).Some?
    ensures Lookup(v, at).Some? && Lookup(v, at).value.Obj?
    ensures Write(v, at + [k], x) == Write(v, at, Obj(Lookup(v, at).value.members[k := x]))
  {
    LookupThrough(v, at, [k]);
    var m := Lookup(v, at).value.members;
    assert m[k := m[k]] == m;
    WriteBack(v, at);
    WriteDeeper(v, at, m, k, m[k], x);
  }

  // ------------------------------------------------------------------- set

  datatype EditError =
    | NonStringSegment
    | NoPath
    | RootNeedsObject
    | TraversesNonObject
    | Unsupported(op: string)

  datatype Edit = Edited(document: Value) | Refused(error: EditError)

  /** The value at a nonempty path, with objects made on the way wherever there is none. */
  function Planted(v: Value, path: Path, x: Value): (w: Value)
    requires v.Obj? && path != []
    ensures w.Obj?
    decreases |path|
  {
    var m, k := v.members, path[0];
    if |path| == 1 then Obj(m[k := x])
    else
      var next := if k in m && m[k].Obj? then m[k] else Obj(map[]);
      Obj(m[k := Planted(next, path[1..], x)])
  }

  function Assigned(v: Value, path: Path, x: Value): Edit {
    if path == [] then (if x.Obj? then Edited(x) else Refused(RootNeedsObject))
    else if v.Obj? then Edited(Planted(v, path, x))
    else Refused(TraversesNonObject)
  }

  /** `set_path`: the cursor goes down one segment a round; a refusal leaves the document as it was. */
  method SetPath(document: Value, path: Path, x: Value) returns (root: Value, error: Option<EditError>)
    ensures error.None? ==> Assigned(document, path, x) == Edited(root)
    ensures error.Some? ==> Assigned(document, path, x) == Refused(error.value) && root == document
  {
    root, error := document, None;
    if path == [] {
      if !x.Obj? {
        return root, Some(RootNeedsObject);
      }
      return x, None;
    }
    for i := 0 to |path|
      invariant Lookup(root, path[..i]).Some?
      invariant i == 0 ==> root == document
      invariant i > 0 ==> document.Obj? && Lookup(root, path[..i]).value.Obj?
      invariant i < |path|
      invariant document.Obj? ==>
        Write(root, path[..i], Planted(Lookup(root, path[..i]).value, path[i..], x)) == Planted(document, path, x)
    {
      var node := Lookup(root, path[..i]).value;
      if !node.Obj? {
        return root, Some(TraversesNonObject);
      }
      var m, k := node.members, path[i];
      assert path[i..][0] == k && path[i..][1..] == path[i + 1..];
      assert path[..i + 1] == path[..i] + [k];
      if i == |path| - 1 {
        root := Write(root, path[..i], Obj(m[k := x]));
        return root, None;
      }
      var next := if k in m && m[k].Obj? then m[k] else Obj(map[]);
      WriteDeeper(root, path[..i], m, k, next, Planted(next, path[i + 1..], x));
      root := Write(root, path[..i], Obj(m[k := next]));
    }
  }

  /** A successful set reads back, keeps every path apart from it, and puts objects on the way. */
  lemma {:induction false} SetReadsBack(v: Value, path: Path, x: Value, q: Path)
    requires v.Obj? && path != []
    ensures Lookup(Planted(v, path, x), path) == Some(x)
    ensures Apart(path, q) ==> Lookup(Planted(v, path, x), q) == Lookup(v, q)
    ensures q < path ==> Lookup(Planted(v, path, x), q).Some? && Lookup(Planted(v, path, x), q).value.Obj?
    decreases |path|
  {
    var m, k := v.members, path[0];
    if |path| == 1 {
      assert path[1..] == [];
      assert q != [] && q[0] == k ==> path <= q;
    } else {
      var next := if k in m && m[k].Obj? then m[k] else Obj(map[]);
      var below := if q == [] then [] else q[1..];
      SetReadsBack(next, path[1..], x, below);
      if q != [] && q[0] == k {
        assert path == [k] + path[1..] && q == [k] + below;
        assert Apart(path, q) ==> Apart(path[1..], below);
        assert q < path ==> below < path[1..];
        if Apart(path, q) {
          assert below != [];
          assert Lookup(next, below) == Lookup(v, q);
        }
      }
    }
  }

  /** Setting the same path again forgets the first value. */
  lemma {:induction false} LastSetWins(v: Value, path: Path, x: Value, y: Value)
    requires v.Obj? && path != []
    ensures Planted(Planted(v, path, x), path, y) == Planted(v, path, y)
    decreases |path|
  {
    var m, k := v.members, path[0];
    if |path| == 1 {
      assert m[k := x][k := y] == m[k := y];
    } else {
      var next := if k in m && m[k].Obj? then m[k] else Obj(map[]);
      LastSetWins(next, path[1..], x, y);
      assert m[k := Planted(next, path[1..], x)][k := Planted(next, path[1..], y)]
          == m[k := Planted(next, path[1..], y)];
    }
  }

  /** What a set leaves under the first segment, from what was there. */
  function Grown(child: Option<Value>, rest: Path, x: Value): Value {
    if rest == [] then x
    else Planted(if child.Some? && child.value.Obj? then child.value else Obj(map[]), rest, x)
  }

  lemma PlantedGrows(v: Value, path: Path, x: Value)
    requires v.Obj? && path != []
    ensures Planted(v, path, x) == Obj(v.members[path[0] := Grown(Get(v, path[0]), path[1..], x)])
  {
  }

  /** Two sets below one member. */
  lemma PlantedBelow(v: Value, k: string, p: Path, x: Value, q: Path, y: Value)
    requires v.Obj? && p != [] && q != [] && p[0] == q[0] == k
    ensures Planted(Planted(v, p, x), q, y)
         == Obj(v.members[k := Grown(Some(Grown(Get(v, k), p[1..], x)), q[1..], y)])
  {
    var px := Grown(Get(v, k), p[1..], x);
    PlantedGrows(v, p, x);
    PlantedGrows(Obj(v.members[k := px]), q, y);
    MapAgain(v.members, k, px, Grown(Some(px), q[1..], y));
  }

  /** Two sets below different members. */
  lemma PlantedBeside(v: Value, p: Path, x: Value, q: Path, y: Value)
    requires v.Obj? && p != [] && q != [] && p[0] != q[0]
    ensures Planted(Planted(v, p, x), q, y)
         == Obj(v.members[p[0] := Grown(Get(v, p[0]), p[1..], x)][q[0] := Grown(Get(v, q[0]), q[1..], y)])
  {
    PlantedGrows(v, p, x);
    PlantedGrows(Obj(v.members[p[0] := Grown(Get(v, p[0]), p[1..], x)]), q, y);
  }

  /** Sets at paths apart from each other can be done in either order. */
  lemma {:induction false} SetsCommute(v: Value, p: Path, x: Value, q: Path, y: Value)
    requires v.Obj? && p != [] && q != [] && Apart(p, q)
    ensures Planted(Planted(v, p, x), q, y) == Planted(Planted(v, q, y), p, x)
    decreases |p|, 1
  {
    if p[0] == q[0] {
      var k := p[0];
      assert p == [k] + p[1..] && q == [k] + q[1..];
      PlantedBelow(v, k, p, x, q, y);
      PlantedBelow(v, k, q, y, p, x);
      GrownCommutes(Get(v, k), p[1..], x, q[1..], y);
    } else {
      PlantedBeside(v, p, x, q, y);
      PlantedBeside(v, q, y, p, x);
      MapSwap(v.members, p[0], Grown(Get(v, p[0]), p[1..], x), q[0], Grown(Get(v, q[0]), q[1..], y));
    }
  }

  lemma {:induction false} GrownCommutes(child: Option<Value>, p: Path, x: Value, q: Path, y: Value)
    requires p != [] && q != [] && Apart(p, q)
    ensures Grown(Some(Grown(child, p, x)), q, y) == Grown(Some(Grown(child, q, y)), p, x)
    decreases |p|, 2
  {
    SetsCommute(if child.Some? && child.value.Obj? then child.value else Obj(map[]), p, x, q, y);
  }

  lemma MapSwap(m: map<string, Value>, j: string, a: Value, k: string, b: Value)
    requires j != k
    ensures m[j := a][k := b] == m[k := b][j := a]
  {
  }

  lemma MapAgain(m: map<string, Value>, k: string, a: Value, b: Value)
    ensures m[k := a][k := b] == m[k := b]
  {
  }

  // ----------------------------------------------------------------- unset

  function Removed(v: Value, path: Path): Value
    decreases |path|
  {
    if path == [] then Null
    else if !v.Obj? then v
    else
      var m, k := v.members, path[0];
      if |path| == 1 then Obj(m - {k})
      else if k in m && m[k].Obj? then Obj(m[k := Removed(m[k], path[1..])])
      else v
  }

  /** `unset_path`: the cursor goes down to the parent, and an absent parent is satisfied. */
  method UnsetPath(document: Value, path: Path) returns (root: Value)
    ensures root == Removed(document, path)
  {
    if path == [] {
      return Null;
    }
    root := document;
    var n := |path| - 1;
    for i := 0 to n
      invariant Lookup(root, path[..i]).Some?
      invariant root == document
      invariant Write(root, path[..i], Removed(Lookup(root, path[..i]).value, path[i..])) == Removed(document, path)
    {
      var node := Lookup(root, path[..i]).value;
      assert path[i..][0] == path[i] && path[i..][1..] == path[i + 1..];
      assert path[..i + 1] == path[..i] + [path[i]];
      WriteBack(root, path[..i]);
      LookupThrough(root, path[..i], [path[i]]);
      var next := Get(node, path[i]);
      if next.None? || !next.value.Obj? {
        return root;
      }
      assert Lookup(node, [path[i]]) == next;
      WriteStep(root, path[..i], path[i], Removed(next.value, path[i + 1..]));
    }
    var node := Lookup(root, path[..n]).value;
    WriteBack(root, path[..n]);
    assert path[n..] == [path[n]];
    if node.Obj? {
      root := Write(root, path[..n], Obj(node.members - {path[n]}));
    }
  }

  /** An unset path is absent, every path apart from it stays, and so does everything above it. */
  lemma {:induction false} UnsetIsAbsent(v: Value, path: Path, q: Path)
    requires path != []
    ensures Lookup(Removed(v, path), path) == None
    ensures Apart(path, q) ==> Lookup(Removed(v, path), q) == Lookup(v, q)
    ensures q < path ==> Lookup(Removed(v, path), q).Some? == Lookup(v, q).Some?
    ensures Lookup(v, path) == None ==> Removed(v, path) == v
    decreases |path|
  {
    if v.Obj? {
      var m, k := v.members, path[0];
      if |path| == 1 {
        assert path[1..] == [];
        assert q != [] && q[0] == k ==> path <= q;
        if k in m {
          assert Lookup(v, path) == Some(m[k]);
        } else {
          assert m - {k} == m;
        }
      } else if k in m && m[k].Obj? {
        var below := if q == [] then [] else q[1..];
        UnsetIsAbsent(m[k], path[1..], below);
        if q != [] && q[0] == k {
          assert path == [k] + path[1..] && q == [k] + below;
          assert Apart(path, q) ==> Apart(path[1..], below);
          assert q < path ==> below < path[1..];
        }
        assert m[k := m[k]] == m;
      } else if k in m {
        assert path[1..] != [];
        assert Lookup(m[k], path[1..]) == None;
      }
    }
  }

  /** Unsetting what was set gives the document back exactly when the path was absent from an object. */
  lemma {:induction false} UnsetUndoesSetIff(v: Value, path: Path, x: Value)
    requires v.Obj? && path != []
    ensures (Removed(Planted(v, path, x), path) == v)
        <==> (Lookup(v, path) == None && Lookup(v, path[..|path| - 1]).Some?
              && Lookup(v, path[..|path| - 1]).value.Obj?)
    decreases |path|
  {
    var m, k, n := v.members, path[0], |path| - 1;
    if n == 0 {
      assert path[..0] == [] && path[1..] == [];
      if k in m {
        assert k !in (m[k := x] - {k});
        assert Lookup(v, path) == Some(m[k]);
      } else {
        assert m[k := x] - {k} == m;
      }
    } else {
      assert path[..n][0] == k && path[..n][1..] == path[1..][..n - 1];
      var next := if k in m && m[k].Obj? then m[k] else Obj(map[]);
      var planted := Planted(next, path[1..], x);
      var undone := Removed(planted, path[1..]);
      assert m[k := planted][k := undone] == m[k := undone];
      assert Removed(Planted(v, path, x), path) == Obj(m[k := undone]);
      UnsetUndoesSetIff(next, path[1..], x);
      RemovedStaysObject(planted, path[1..]);
      if k in m && m[k].Obj? {
        assert (m[k := undone] == m) == (undone == m[k]);
      } else {
        assert m[k := undone] != m;
        assert Lookup(v, path[..n]).Some? ==> !Lookup(v, path[..n]).value.Obj?;
      }
    }
  }

  lemma RemovedStaysObject(v: Value, path: Path)
    requires v.Obj? && path != []
    ensures Removed(v, path).Obj?
  {
  }

  /** Setting back what an unset took gives the document back. */
  lemma {:induction false} SetRestores(v: Value, path: Path)
    requires path != [] && Lookup(v, path).Some?
    ensures v.Obj? && Removed(v, path).Obj?
    ensures Planted(Removed(v, path), path, Lookup(v, path).value) == v
    decreases |path|
  {
    var m, k := v.members, path[0];
    if |path| == 1 {
      assert path[1..] == [];
      assert (m - {k})[k := m[k]] == m;
    } else {
      assert path[1..] != [];
      SetRestores(m[k], path[1..]);
      assert m[k := Removed(m[k], path[1..])][k := m[k]] == m;
    }
  }

  // ----------------------------------------------------------------- merge

  /** Objects merge member by member; anything else is replaced whole. */
  function Merged(target: Value, patch: Value): Value
    decreases patch
  {
    if target.Obj? && patch.Obj? then
      var t, p := target.members, patch.members;
      Obj(map k | k in t.Keys + p.Keys ::
            if k !in p then t[k] else if k in t then Merged(t[k], p[k]) else p[k])
    else patch
  }

  /** One member after the merge. */
  function MergedMember(t: map<string, Value>, p: map<string, Value>, k: string): Value
    requires k in t || k in p
    decreases Obj(p)
  {
    if k !in p then t[k] else if k in t then Merged(t[k], p[k]) else p[k]
  }

  /** All but the members in `rest` have been merged. */
  ghost predicate Partly(t: map<string, Value>, p: map<string, Value>, rest: set<string>, done: map<string, Value>) {
    && rest <= p.Keys
    && (forall k :: k in t && (k in rest || k !in p) ==> k in done && done[k] == t[k])
    && (forall k :: k in p && k !in rest ==> k in done && done[k] == MergedMember(t, p, k))
    && (forall k :: k in done ==> k in t || (k in p && k !in rest))
  }

  method DeepMerge(target: Value, patch: Value) returns (merged: Value)
    ensures merged == Merged(target, patch)
    decreases patch
  {
    if !(target.Obj? && patch.Obj?) {
      return patch;
    }
    var t, p := target.members, patch.members;
    var rest := p.Keys;
    while rest != {}
      invariant Partly(target.members, p, rest, t)
      decreases |rest|
    {
      var k :| k in rest;
      PartlyStep(target.members, p, rest, t, k);
      if k in t {
        var slot := DeepMerge(t[k], p[k]);
        t := t[k := slot];
      } else {
        t := t[k := p[k]];
      }
      rest := rest - {k};
    }
    merged := Obj(t);
    PartlyDone(target, patch, t);
  }

  lemma PartlyStep(t: map<string, Value>, p: map<string, Value>, rest: set<string>, done: map<string, Value>, k: string)
    requires Partly(t, p, rest, done) && k in rest
    ensures Partly(t, p, rest - {k}, done[k := MergedMember(t, p, k)])
    ensures k in done <==> k in t
    ensures k in t ==> done[k] == t[k]
  {
  }

  lemma PartlyDone(target: Value, patch: Value, done: map<string, Value>)
    requires target.Obj? && patch.Obj? && Partly(target.members, patch.members, {}, done)
    ensures Obj(done) == Merged(target, patch)
  {
    assert done == Merged(target, patch).members;
  }

  lemma {:induction false} MergeSelf(p: Value)
    ensures Merged(p, p) == p
    decreases p
  {
    if p.Obj? {
      forall k | k in p.members
        ensures Merged(p.members[k], p.members[k]) == p.members[k]
      {
        MergeSelf(p.members[k]);
      }
    }
  }

  /** Merging the same patch again changes nothing. */
  lemma {:induction false} MergeTwice(target: Value, patch: Value)
    ensures Merged(Merged(target, patch), patch) == Merged(target, patch)
    decreases patch
  {
    if target.Obj? && patch.Obj? {
      var t, p, r := target.members, patch.members, Merged(target, patch).members;
      forall k | k in p
        ensures Merged(r[k], p[k]) == r[k]
      {
        if k in t {
          MergeTwice(t[k], p[k]);
        } else {
          MergeSelf(p[k]);
        }
      }
      assert Merged(Merged(target, patch), patch).members == r;
    } else {
      MergeSelf(patch);
    }
  }

  /** Walking the patch along `q` comes to an object without the next key. */
  predicate Misses(patch: Value, q: Path)
    decreases |q|
  {
    q != [] && patch.Obj? && (q[0] !in patch.members || Misses(patch.members[q[0]], q[1..]))
  }

  /** What any path reads after a merge, by where the walk of the patch along it ends. */
  lemma {:induction false} MergeReads(target: Value, patch: Value, q: Path)
    ensures Misses(patch, q) ==> Lookup(Merged(target, patch), q) == Lookup(target, q)
    ensures Lookup(patch, q).Some? ==>
      Lookup(Merged(target, patch), q)
      == Some(if Lookup(target, q).Some? then Merged(Lookup(target, q).value, Lookup(patch, q).value)
              else Lookup(patch, q).value)
    ensures !Misses(patch, q) && Lookup(patch, q).None? ==> Lookup(Merged(target, patch), q) == None
    decreases |q|
  {
    if q == [] {
    } else if target.Obj? && patch.Obj? {
      var t, p, k := target.members, patch.members, q[0];
      if k in t && k in p {
        MergeReads(t[k], p[k], q[1..]);
      } else if k in p {
        MissIsAbsent(p[k], q[1..]);
      }
    } else {
      MissIsAbsent(patch, q);
    }
  }

  lemma {:induction false} MissIsAbsent(patch: Value, q: Path)
    ensures Misses(patch, q) ==> Lookup(patch, q) == None
    decreases |q|
  {
    if q != [] && patch.Obj? && q[0] in patch.members {
      MissIsAbsent(patch.members[q[0]], q[1..]);
    }
  }

  // ------------------------------------------------------------- mutate operations

  function AllStrings(items: seq<Value>): (path: Option<Path>) {
    if items == [] then Some([])
    else
      var rest := AllStrings(items[1..]);
      if items[0].Str? && rest.Some? then Some([items[0].s] + rest.value) else None
  }

  /** What one operation makes of a section: the path is read before the kind of operation. */
  function Applied(section: Value, op: Value): Edit {
    var kind := OrElse(AsStr(Get(op, "op")), "");
    var items := AsArray(Get(op, "path"));
    if items.None? then Refused(NoPath)
    else
      var path := AllStrings(items.value);
      if path.None? then Refused(NonStringSegment)
      else if kind == "set" then Assigned(section, path.value, OrElse(Get(op, "value"), Null))
      else if kind == "unset" then Edited(Removed(section, path.value))
      else Refused(Unsupported(kind))
  }

  function SetOp(path: Path, x: Value): Value {
    Obj(map["op" := Str("set"), "path" := StrArr(path), "value" := x])
  }

  function UnsetOp(path: Path): Value {
    Obj(map["op" := Str("unset"), "path" := StrArr(path)])
  }

  function StrArr(path: Path): Value {
    Arr(seq(|path|, i requires 0 <= i < |path| => Str(path[i])))
  }

  /** An operation "set" sets: on a section that is an object the value is read back at the path, and nothing apart
      from it has changed. */
  lemma SetOpSets(section: Value, path: Path, x: Value, q: Path)
    requires section.Obj? && path != []
    ensures Applied(section, SetOp(path, x)).Edited?
    ensures Lookup(Applied(section, SetOp(path, x)).document, path) == Some(x)
    ensures Apart(path, q) ==> Lookup(Applied(section, SetOp(path, x)).document, q) == Lookup(section, q)
  {
    StringsOf(StrArr(path).items, path);
    assert AsArray(Get(SetOp(path, x), "path")) == Some(StrArr(path).items);
    SetReadsBack(section, path, x, q);
  }

  /** An operation "unset" unsets: nothing is left at the path, and nothing apart from it has changed. */
  lemma UnsetOpUnsets(section: Value, path: Path, q: Path)
    requires path != []
    ensures Applied(section, UnsetOp(path)).Edited?
    ensures Lookup(Applied(section, UnsetOp(path)).document, path) == None
    ensures Apart(path, q) ==> Lookup(Applied(section, UnsetOp(path)).document, q) == Lookup(section, q)
  {
    StringsOf(StrArr(path).items, path);
    assert AsArray(Get(UnsetOp(path), "path")) == Some(StrArr(path).items);
    UnsetIsAbsent(section, path, q);
  }

  /** An operation is refused exactly when its path is no list of strings, when it is neither of the two, or when the
      path cannot be set; which of these is said first goes in that order. */
  lemma RefusedIff(section: Value, op: Value)
    ensures
      var path, kind := Get(op, "path"), AsStr(Get(op, "op"));
      var strings := path.Some? && path.value.Arr? && forall i | 0 <= i < |path.value.items| ::
        path.value.items[i].Str?;
      if !strings then Applied(section, op) ==
        Refused(if path.Some? && path.value.Arr? then NonStringSegment else NoPath)
      else if kind == Some("set") then Applied(section, op).Edited? <==>
        if path.value.items == [] then Get(op, "value").Some? && Get(op, "value").value.Obj? else section.Obj?
      else if kind == Some("unset") then Applied(section, op).Edited?
      else Applied(section, op) == Refused(Unsupported(OrElse(kind, "")))
  {
    var path := Get(op, "path");
    if path.Some? && path.value.Arr? {
      var items := path.value.items;
      if forall i | 0 <= i < |items| :: items[i].Str? {
        var strings := seq(|items|, i requires 0 <= i < |items| && items[i].Str? => items[i].s);
        StringsOf(items, strings);
      } else {
        var i :| 0 <= i < |items| && !items[i].Str?;
        StringsBefore(items, i);
      }
    }
  }

  lemma {:induction false} StringsBefore(items: seq<Value>, i: nat)
    requires i < |items| && !items[i].Str?
    ensures AllStrings(items).None?
    decreases i
  {
    if i > 0 {
      StringsBefore(items[1..], i - 1);
    }
  }

  lemma {:induction false} StringsOf(items: seq<Value>, path: Path)
    requires |path| == |items| && forall i :: 0 <= i < |items| ==> items[i] == Str(path[i])
    ensures AllStrings(items) == Some(path)
    decreases |items|
  {
    if items == [] {
    } else {
      StringsOf(items[1..], path[1..]);
      assert path == [path[0]] + path[1..];
    }
  }

  method ApplyMutateOp(section: Value, op: Value) returns (document: Value, error: Option<EditError>)
    ensures error.None? ==> Applied(section, op) == Edited(document)
    ensures error.Some? ==> Applied(section, op) == Refused(error.value) && document == section
  {
    var kind := OrElse(AsStr(Get(op, "op")), "");
    var pathValue := OrElse(Get(op, "path"), Null);
    var path: Path := [];
    if !pathValue.Arr? {
      return section, Some(NoPath);
    }
    var items := pathValue.items;
    for i := 0 to |items|
      invariant |path| == i && forall j :: 0 <= j < i ==> items[j] == Str(path[j])
    {
      if !items[i].Str? {
        StringsBefore(items, i);
        return section, Some(NonStringSegment);
      }
      path := path + [items[i].s];
    }
    StringsOf(items, path);
    match kind
    case "set" =>
      document, error := SetPath(section, path, OrElse(Get(op, "value"), Null));
    case "unset" =>
      document := UnsetPath(section, path);
      error := None;
    case other =>
      document, error := section, Some(Unsupported(other));
  }
}
