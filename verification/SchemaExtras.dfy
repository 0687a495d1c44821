/** Object members no schema mentions: the boundary neither rejects nor needs them. */
module SchemaExtras {
  import opened Json
  import opened Schema

  /** `v` with every member named in `ks` taken out, at any depth. */
  function Strip(v: Value, ks: set<string>): Value {
    match v
    case Obj(m) => Obj(map k | k in m && k !in ks :: Strip(m[k], ks))
    case Arr(items) => Arr(seq(|items|, i requires 0 <= i < |items| => Strip(items[i], ks)))
    case _ => v
  }

  predicate ObjectFree(c: Value) {
    match c
    case Obj(_) => false
    case Arr(items) => forall i | 0 <= i < |items| :: ObjectFree(items[i])
    case _ => true
  }

  /** The schema names no key of `ks` and its literals contain no objects. */
  predicate Indifferent(s: Value, ks: set<string>) {
    s.Obj? && AsStr(Get(s, "$ref")) == None ==>
      && Properties(s).Keys !! ks
      && RequiredNames(s) !! ks
      && (Get(s, "const").Some? ==> ObjectFree(Get(s, "const").value))
      && (forall c | c in Members(s, "enum") :: ObjectFree(c))
      && (forall m | m in Branches(s) :: Indifferent(m, ks))
      && (forall k | k in Properties(s) :: Indifferent(Properties(s)[k], ks))
      && (Get(s, "items").Some? ==> Indifferent(Get(s, "items").value, ks))
  }

  lemma {:induction false} ObjectFreeUnstripped(c: Value, ks: set<string>)
    requires ObjectFree(c)
    ensures Strip(c, ks) == c
  {
    if c.Arr? {
      forall i | 0 <= i < |c.items|
        ensures Strip(c.items[i], ks) == c.items[i]
      {
        ObjectFreeUnstripped(c.items[i], ks);
      }
      assert Strip(c, ks).items == c.items;
    }
  }

  /** A value is a literal without objects exactly when its stripped form is. */
  lemma {:induction false} LiteralSeenStripped(v: Value, c: Value, ks: set<string>)
    requires ObjectFree(c)
    ensures Strip(v, ks) == c <==> v == c
  {
    ObjectFreeUnstripped(c, ks);
    if Strip(v, ks) == c && c.Arr? {
      forall i | 0 <= i < |v.items|
        ensures v.items[i] == c.items[i]
      {
        assert Strip(v, ks).items[i] == Strip(v.items[i], ks);
        LiteralSeenStripped(v.items[i], c.items[i], ks);
      }
      assert v.items == c.items;
    }
  }

  lemma FlatKeywordsSeenStripped(v: Value, s: Value, ks: set<string>)
    requires s.Obj? && AsStr(Get(s, "$ref")) == None && Indifferent(s, ks)
    ensures FlatKeywords(Strip(v, ks), s) == FlatKeywords(v, s)
    ensures HasRequired(Strip(v, ks), s) == HasRequired(v, s)
  {
    if Get(s, "const").Some? {
      LiteralSeenStripped(v, Get(s, "const").value, ks);
    }
    forall c | c in Members(s, "enum")
      ensures Strip(v, ks) == c <==> v == c
    {
      LiteralSeenStripped(v, c, ks);
    }
    assert Strip(v, ks) in Members(s, "enum") <==> v in Members(s, "enum");
    SameKind(v, ks);
  }

  lemma SameKind(v: Value, ks: set<string>)
    ensures forall t :: MatchesType(Strip(v, ks), t) == MatchesType(v, t)
  {
    match v {
      case Obj(_) =>
      case _ =>
    }
  }

  lemma {:induction false} ExtrasIgnored(g: Ranking, bound: nat, v: Value, s: Value, ks: set<string>)
    requires Ranked(g) && RefsBelow(g, s, bound)
    requires Indifferent(s, ks) && forall n | n in g.defs :: Indifferent(g.defs[n], ks)
    ensures Meets(g, bound, Strip(v, ks), s) == Meets(g, bound, v, s)
    decreases v, bound, s
  {
    if s.Obj? {
      var r := AsStr(Get(s, "$ref"));
      if r.Some? {
        if ResolveRef(r.value, g.defs).Some? {
          var name := RefName(r.value).value;
          ExtrasIgnored(g, g.rank[name], v, g.defs[name], ks);
        }
      } else {
        forall m | m in Branches(s)
          ensures Meets(g, bound, Strip(v, ks), m) == Meets(g, bound, v, m)
        {
          ExtrasIgnored(g, bound, v, m, ks);
        }
        assert CombinatorsMeet(g, bound, Strip(v, ks), s) == CombinatorsMeet(g, bound, v, s);
        FlatKeywordsSeenStripped(v, s, ks);
        ExtrasIgnoredInMembers(g, bound, v, s, ks);
        ExtrasIgnoredInElements(g, bound, v, s, ks);
      }
    }
  }

  lemma {:induction false} ExtrasIgnoredInMembers(g: Ranking, bound: nat, v: Value, s: Value, ks: set<string>)
    requires Ranked(g) && s.Obj? && AsStr(Get(s, "$ref")) == None
    requires Indifferent(s, ks) && forall n | n in g.defs :: Indifferent(g.defs[n], ks)
    ensures MembersMeet(g, Strip(v, ks), Properties(s)) == MembersMeet(g, v, Properties(s))
    decreases v, bound, s, 0
  {
    if v.Obj? {
      forall k | k in Properties(s) && k in v.members
        ensures RefsBelow(g, Properties(s)[k], g.top) && k in Strip(v, ks).members
        ensures Meets(g, g.top, Strip(v.members[k], ks), Properties(s)[k])
          == Meets(g, g.top, v.members[k], Properties(s)[k])
      {
        AllBelowTop(g, Properties(s)[k]);
        ExtrasIgnored(g, g.top, v.members[k], Properties(s)[k], ks);
      }
    }
  }

  lemma {:induction false} ExtrasIgnoredInElements(g: Ranking, bound: nat, v: Value, s: Value, ks: set<string>)
    requires Ranked(g) && s.Obj? && AsStr(Get(s, "$ref")) == None
    requires Indifferent(s, ks) && forall n | n in g.defs :: Indifferent(g.defs[n], ks)
    ensures ElementsMeet(g, Strip(v, ks), Get(s, "items")) == ElementsMeet(g, v, Get(s, "items"))
    decreases v, bound, s, 0
  {
    if v.Arr? && Get(s, "items").Some? {
      var items := Get(s, "items").value;
      AllBelowTop(g, items);
      var stripped := Strip(v, ks).items;
      forall i | 0 <= i < |v.items|
        ensures stripped[i] in stripped && v.items[i] in v.items
        ensures Meets(g, g.top, stripped[i], items) == Meets(g, g.top, v.items[i], items)
      {
        ExtrasIgnored(g, g.top, v.items[i], items, ks);
      }
    }
  }

  /** Two values that differ only in members the schema does not mention, at any depth and
      on either side, get the same verdict. */
  lemma UnmentionedMembersIgnored(v: Value, w: Value, document: Value, ks: set<string>)
    requires Guarded(DefsOf(document))
    requires Strip(v, ks) == Strip(w, ks)
    requires Indifferent(document, ks) && forall n | n in DefsOf(document) :: Indifferent(DefsOf(document)[n], ks)
    ensures Accepts(v, document) == Accepts(w, document)
  {
    var g: Ranking :| g.defs == DefsOf(document) && Ranked(g);
    AcceptsBy(g, v, document);
    AcceptsBy(g, w, document);
    ExtrasIgnored(g, g.top, v, document, ks);
    ExtrasIgnored(g, g.top, w, document, ks);
  }

  /** `c` with a member `k` added to every object in it. */
  function Tagged(c: Value, k: string): Value {
    match c
    case Obj(m) => Obj(m[k := Null])
    case Arr(items) => Arr(seq(|items|, i requires 0 <= i < |items| => Tagged(items[i], k)))
    case _ => c
  }

  lemma {:induction false} TagStrips(c: Value, k: string)
    ensures Strip(Tagged(c, k), {k}) == Strip(c, {k})
    ensures !ObjectFree(c) && Tagged(c, k) == c ==> Strip(c, {k}) != c
  {
    match c {
      case Obj(m) =>
        assert Strip(Tagged(c, k), {k}).members == Strip(c, {k}).members;
        if Tagged(c, k) == c {
          assert k in m && k !in Strip(c, {k}).members;
        }
      case Arr(items) =>
        forall i | 0 <= i < |items|
          ensures Strip(Tagged(items[i], k), {k}) == Strip(items[i], {k})
        {
          TagStrips(items[i], k);
        }
        assert Strip(Tagged(c, k), {k}).items == Strip(c, {k}).items;
        if !ObjectFree(c) && Tagged(c, k) == c {
          var i :| 0 <= i < |items| && !ObjectFree(items[i]);
          assert Tagged(c, k).items[i] == items[i];
          TagStrips(items[i], k);
          assert Strip(c, {k}).items[i] != items[i];
        }
      case _ =>
    }
  }

  lemma ConstBlind(c: Value, k: string)
    ensures (forall v :: Strip(v, {k}) == c <==> v == c) <==> ObjectFree(c)
  {
    if ObjectFree(c) {
      forall v
        ensures Strip(v, {k}) == c <==> v == c
      {
        LiteralSeenStripped(v, c, {k});
      }
    } else {
      TagStrips(c, k);
      var v := if Strip(c, {k}) == c then Tagged(c, k) else c;
      assert !(Strip(v, {k}) == c <==> v == c);
    }
  }

  /** The condition on literals is exact: whatever the key, members of that name change no verdict of a constant
      exactly when it contains no object. */
  lemma ConstBlindIff(c: Value, k: string, depth: nat)
    requires depth > 0
    ensures (forall v :: Verdict(depth, Strip(v, {k}), ConstSchema(c)) == Verdict(depth, v, ConstSchema(c)))
      <==> ObjectFree(c)
  {
    ConstBlind(c, k);
    forall v
      ensures Verdict(depth, Strip(v, {k}), ConstSchema(c)) == Some(Strip(v, {k}) == c)
      ensures Verdict(depth, v, ConstSchema(c)) == Some(v == c)
    {
      ConstVerdict(depth, Strip(v, {k}), c);
      ConstVerdict(depth, v, c);
    }
    if !ObjectFree(c) {
      var v :| !(Strip(v, {k}) == c <==> v == c);
      assert Verdict(depth, Strip(v, {k}), ConstSchema(c)) != Verdict(depth, v, ConstSchema(c));
    }
  }
}
