/** The schema pruning of the code generator, and what it keeps of a schema's meaning. */
module SchemaPruning {
  import opened Json
  import opened Schema

  const KEEP := {"type", "const", "enum", "required", "properties", "items", "anyOf", "oneOf", "allOf", "$ref", "$defs"}

  /** The two keywords whose value maps names to schemas. */
  predicate NameMap(key: string) {
    key == "properties" || key == "$defs"
  }

  /** A kept keyword survives, except a name map that is not an object. */
  predicate Kept(key: string, v: Value) {
    key in KEEP && (NameMap(key) ==> v.Obj?)
  }

  function Pruned(s: Value): Value {
    match s
    case Obj(m) => Obj(map k | k in m && Kept(k, m[k]) :: if NameMap(k) then PrunedNames(m[k]) else Pruned(m[k]))
    case Arr(items) => Arr(seq(|items|, i requires 0 <= i < |items| => Pruned(items[i])))
    case _ => s
  }

  /** Member names are never filtered; each member is pruned as a schema. */
  function PrunedNames(s: Value): Value {
    match s
    case Obj(m) => Obj(map n | n in m :: Pruned(m[n]))
    case _ => s
  }

  /** `prune`: the maps are filled member by member, in whatever order they come. */
  method Prune(s: Value) returns (out: Value)
    ensures out == Pruned(s)
    decreases s, 1
  {
    match s {
      case Obj(m) =>
        var rest := m.Keys;
        var kept: map<string, Value> := map[];
        while rest != {}
          invariant rest <= m.Keys
          invariant kept == map k | k in m.Keys - rest && Kept(k, m[k]) ::
            if NameMap(k) then PrunedNames(m[k]) else Pruned(m[k])
          decreases |rest|
        {
          var k :| k in rest;
          if NameMap(k) {
            if m[k].Obj? {
              var names := PruneNames(m[k]);
              kept := kept[k := names];
            }
          } else if k in KEEP {
            var sub := Prune(m[k]);
            kept := kept[k := sub];
          }
          rest := rest - {k};
        }
        out := Obj(kept);
      case Arr(items) =>
        var done: seq<Value> := [];
        for i := 0 to |items|
          invariant |done| == i
          invariant forall j | 0 <= j < i :: done[j] == Pruned(items[j])
        {
          var sub := Prune(items[i]);
          done := done + [sub];
        }
        out := Arr(done);
      case _ => out := s;
    }
  }

  method PruneNames(s: Value) returns (out: Value)
    requires s.Obj?
    ensures out == PrunedNames(s)
    decreases s, 0
  {
    var rest := s.members.Keys;
    var pruned: map<string, Value> := map[];
    while rest != {}
      invariant rest <= s.members.Keys
      invariant pruned == map n | n in s.members.Keys - rest :: Pruned(s.members[n])
      decreases |rest|
    {
      var n :| n in rest;
      var sub := Prune(s.members[n]);
      pruned := pruned[n := sub];
      rest := rest - {n};
    }
    out := Obj(pruned);
  }

  lemma {:induction false} PrunedTwice(s: Value)
    ensures Pruned(Pruned(s)) == Pruned(s)
    decreases s, 1
  {
    match s {
      case Obj(m) =>
        var p := Pruned(s).members;
        forall k | k in p
          ensures Kept(k, p[k])
          ensures (if NameMap(k) then PrunedNames(p[k]) else Pruned(p[k])) == p[k]
        {
          if NameMap(k) {
            NamesPrunedTwice(m[k]);
          } else {
            PrunedTwice(m[k]);
          }
        }
      case Arr(items) =>
        forall i | 0 <= i < |items|
          ensures Pruned(Pruned(items[i])) == Pruned(items[i])
        {
          PrunedTwice(items[i]);
        }
      case _ =>
    }
  }

  lemma {:induction false} NamesPrunedTwice(s: Value)
    ensures PrunedNames(PrunedNames(s)) == PrunedNames(s)
    decreases s, 0
  {
    if s.Obj? {
      forall n | n in s.members
        ensures Pruned(Pruned(s.members[n])) == Pruned(s.members[n])
      {
        PrunedTwice(s.members[n]);
      }
    }
  }

  // ----- literals -----

  /** The keywords the boundary enforces. */
  predicate Enforced(key: string) {
    key in {"type", "const", "enum", "required", "items", "$ref"} || key in {"properties", "$defs"}
    || key in {"allOf", "anyOf", "oneOf"}
  }

  /** A schema with enforced keywords only, at every depth; the names under `properties` and `$defs` are no keywords. */
  predicate Lean(s: Value) {
    match s
    case Obj(m) => forall k | k in m ::
      Enforced(k) && if k in {"properties", "$defs"} then LeanNames(m[k]) else Lean(m[k])
    case Arr(items) => forall i | 0 <= i < |items| :: Lean(items[i])
    case _ => true
  }

  predicate LeanNames(s: Value) {
    s.Obj? && forall n | n in s.members :: Lean(s.members[n])
  }

  /** Pruning leaves no other keyword at any depth, and takes away no enforced one but a name map that is none. */
  lemma {:induction false} PrunedIsLean(s: Value)
    ensures Lean(Pruned(s))
    ensures s.Obj? ==> forall k | k in s.members ::
      k in Pruned(s).members <==> Enforced(k) && (k in {"properties", "$defs"} ==> s.members[k].Obj?)
  {
    match s {
      case Obj(m) =>
        forall k | k in Pruned(s).members
          ensures Enforced(k)
          ensures if k in {"properties", "$defs"} then LeanNames(Pruned(s).members[k]) else Lean(Pruned(s).members[k])
        {
          if k in {"properties", "$defs"} {
            NamesAreLean(m[k]);
          } else {
            PrunedIsLean(m[k]);
          }
        }
      case Arr(items) =>
        forall i | 0 <= i < |items|
          ensures Lean(Pruned(items[i]))
        {
          PrunedIsLean(items[i]);
        }
      case _ =>
    }
  }

  lemma {:induction false} NamesAreLean(s: Value)
    requires s.Obj?
    ensures LeanNames(PrunedNames(s)) && PrunedNames(s).members.Keys == s.members.Keys
  {
    forall n | n in s.members
      ensures Lean(Pruned(s.members[n]))
    {
      PrunedIsLean(s.members[n]);
    }
  }

  /** No object in `c` has a key that pruning drops. */
  predicate KeysSurvive(c: Value) {
    match c
    case Obj(m) => forall k | k in m :: Kept(k, m[k]) && if NameMap(k) then NamesSurvive(m[k]) else KeysSurvive(m[k])
    case Arr(items) => forall i | 0 <= i < |items| :: KeysSurvive(items[i])
    case _ => true
  }

  predicate NamesSurvive(c: Value) {
    match c
    case Obj(m) => forall n | n in m :: KeysSurvive(m[n])
    case _ => true
  }

  /** Pruning returns a literal unchanged exactly when none of its keys is dropped. */
  lemma {:induction false} LiteralKeptIff(c: Value)
    ensures Pruned(c) == c <==> KeysSurvive(c)
    decreases c, 1
  {
    match c {
      case Obj(m) =>
        forall k | k in m && Kept(k, m[k])
          ensures Pruned(c).members[k] == m[k] <==> if NameMap(k) then NamesSurvive(m[k]) else KeysSurvive(m[k])
        {
          if NameMap(k) {
            NamesKeptIff(m[k]);
          } else {
            LiteralKeptIff(m[k]);
          }
        }
        if Pruned(c) == c {
          forall k | k in m
            ensures Kept(k, m[k]) && if NameMap(k) then NamesSurvive(m[k]) else KeysSurvive(m[k])
          {
            assert k in Pruned(c).members;
          }
        }
        if KeysSurvive(c) {
          assert Pruned(c).members == m;
        }
      case Arr(items) =>
        forall i | 0 <= i < |items|
          ensures Pruned(items[i]) == items[i] <==> KeysSurvive(items[i])
        {
          LiteralKeptIff(items[i]);
        }
        if Pruned(c) == c {
          forall i | 0 <= i < |items|
            ensures KeysSurvive(items[i])
          {
            assert Pruned(c).items[i] == items[i];
          }
        }
        if KeysSurvive(c) {
          assert Pruned(c).items == items;
        }
      case _ =>
    }
  }

  lemma {:induction false} NamesKeptIff(c: Value)
    ensures PrunedNames(c) == c <==> NamesSurvive(c)
    decreases c, 0
  {
    if c.Obj? {
      forall n | n in c.members
        ensures Pruned(c.members[n]) == c.members[n] <==> KeysSurvive(c.members[n])
      {
        LiteralKeptIff(c.members[n]);
      }
      if PrunedNames(c) == c {
        forall n | n in c.members
          ensures KeysSurvive(c.members[n])
        {
          assert PrunedNames(c).members[n] == c.members[n];
        }
      }
      if NamesSurvive(c) {
        assert PrunedNames(c).members == c.members;
      }
    }
  }

  /** Every `const` and `enum` value the interpreter can reach inside `s` survives pruning. */
  predicate LiteralsSurvive(s: Value) {
    s.Obj? && AsStr(Get(s, "$ref")) == None ==>
      && (Get(s, "const").Some? ==> KeysSurvive(Get(s, "const").value))
      && (forall c | c in Members(s, "enum") :: KeysSurvive(c))
      && (forall m | m in Branches(s) :: LiteralsSurvive(m))
      && (forall k | k in Properties(s) :: LiteralsSurvive(Properties(s)[k]))
      && (Get(s, "items").Some? ==> LiteralsSurvive(Get(s, "items").value))
  }

  // ----- meaning -----

  function PrunedDefs(defs: Defs): Defs {
    map n | n in defs :: Pruned(defs[n])
  }

  function PrunedRanking(g: Ranking): Ranking {
    g.(defs := PrunedDefs(g.defs))
  }

  function PrunedAll(ss: seq<Value>): seq<Value> {
    seq(|ss|, i requires 0 <= i < |ss| => Pruned(ss[i]))
  }

  /** A keyword that is no name map is pruned as a schema or an array of them. */
  lemma KeywordOfPruned(s: Value, key: string)
    requires s.Obj? && key in KEEP && !NameMap(key)
    ensures Get(Pruned(s), key) == if Get(s, key).Some? then Some(Pruned(Get(s, key).value)) else None
    ensures AsStr(Get(Pruned(s), key)) == AsStr(Get(s, key))
    ensures Members(Pruned(s), key) == PrunedAll(Members(s, key))
    ensures Alternatives(Pruned(s), key) == Alternatives(s, key)
  {
  }

  lemma PropertiesOfPruned(s: Value)
    requires s.Obj?
    ensures Properties(Pruned(s)) == PrunedDefs(Properties(s))
    ensures AsObject(Get(Pruned(s), "properties")).Some? == AsObject(Get(s, "properties")).Some?
  {
    assert "properties" in KEEP;
    assert Properties(Pruned(s)) == PrunedDefs(Properties(s));
  }

  lemma DefsOfPruned(document: Value)
    ensures DefsOf(Pruned(document)) == PrunedDefs(DefsOf(document))
  {
    if document.Obj? {
      assert "$defs" in KEEP;
      assert DefsOf(Pruned(document)) == PrunedDefs(DefsOf(document));
    }
  }

  lemma BranchesOfPruned(s: Value)
    requires s.Obj?
    ensures Branches(Pruned(s)) == PrunedAll(Branches(s))
  {
    KeywordOfPruned(s, "allOf");
    KeywordOfPruned(s, "anyOf");
    KeywordOfPruned(s, "oneOf");
    PrunedAllConcat(Members(s, "allOf"), Members(s, "anyOf"));
    PrunedAllConcat(Members(s, "allOf") + Members(s, "anyOf"), Members(s, "oneOf"));
  }

  lemma PrunedAllConcat(a: seq<Value>, b: seq<Value>)
    ensures PrunedAll(a + b) == PrunedAll(a) + PrunedAll(b)
  {
  }

  /** Pruning neither adds nor removes an unguarded reference. */
  lemma {:induction false} RefsOfPruned(g: Ranking, s: Value, bound: nat)
    requires g.rank.Keys == g.defs.Keys && RefsBelow(g, s, bound)
    ensures RefsBelow(PrunedRanking(g), Pruned(s), bound)
    decreases s
  {
    if s.Obj? {
      KeywordOfPruned(s, "$ref");
      if AsStr(Get(s, "$ref")) == None {
        BranchesOfPruned(s);
        forall m | m in Branches(Pruned(s))
          ensures RefsBelow(PrunedRanking(g), m, bound)
        {
          var i :| 0 <= i < |Branches(s)| && PrunedAll(Branches(s))[i] == m;
          assert Branches(s)[i] in Branches(s);
          RefsOfPruned(g, Branches(s)[i], bound);
        }
      }
    }
  }

  /** So the same ranking guards the pruned definitions. */
  lemma RankedPruned(g: Ranking)
    requires Ranked(g)
    ensures Ranked(PrunedRanking(g))
  {
    var h := PrunedRanking(g);
    forall n | n in h.defs
      ensures h.rank[n] < h.top && RefsBelow(h, h.defs[n], h.rank[n])
    {
      RefsOfPruned(g, g.defs[n], g.rank[n]);
    }
  }

  lemma RequiredOfPruned(s: Value)
    requires s.Obj?
    ensures RequiredNames(Pruned(s)) == RequiredNames(s)
  {
    KeywordOfPruned(s, "required");
    var listed, kept := OrElse(AsArray(Get(s, "required")), []), OrElse(AsArray(Get(Pruned(s), "required")), []);
    assert |kept| == |listed|;
    forall i | 0 <= i < |listed|
      ensures kept[i].Str? == listed[i].Str? && (listed[i].Str? ==> kept[i] == listed[i])
    {
      assert kept[i] == Pruned(listed[i]);
    }
    assert forall n :: n in RequiredNames(s) <==> exists i :: 0 <= i < |listed| && listed[i].Str? && listed[i].s == n;
    assert forall n :: n in RequiredNames(Pruned(s)) <==> exists i :: 0 <= i < |kept| && kept[i].Str? && kept[i].s == n;
    forall n
      ensures n in RequiredNames(Pruned(s)) <==> n in RequiredNames(s)
    {
      if n in RequiredNames(s) {
        var i :| 0 <= i < |listed| && listed[i].Str? && listed[i].s == n;
        assert kept[i].Str? && kept[i].s == n;
      }
      if n in RequiredNames(Pruned(s)) {
        var i :| 0 <= i < |kept| && kept[i].Str? && kept[i].s == n;
        assert listed[i].Str? && listed[i].s == n;
      }
    }
  }

  lemma FlatKeywordsKept(v: Value, s: Value)
    requires s.Obj? && AsStr(Get(s, "$ref")) == None && LiteralsSurvive(s)
    ensures FlatKeywords(v, Pruned(s)) == FlatKeywords(v, s)
  {
    KeywordOfPruned(s, "type");
    KeywordOfPruned(s, "const");
    KeywordOfPruned(s, "enum");
    if Get(s, "const").Some? {
      LiteralKeptIff(Get(s, "const").value);
    }
    if AsArray(Get(s, "enum")).Some? {
      var items := AsArray(Get(s, "enum")).value;
      forall i | 0 <= i < |items|
        ensures Pruned(items[i]) == items[i]
      {
        assert items[i] in Members(s, "enum");
        LiteralKeptIff(items[i]);
      }
      assert AsArray(Get(Pruned(s), "enum")).value == items;
    }
  }

  lemma CombinatorKept(g: Ranking, bound: nat, v: Value, ss: seq<Value>)
    requires Ranked(g) && Ranked(PrunedRanking(g))
    requires forall m | m in ss :: RefsBelow(g, m, bound) && RefsBelow(PrunedRanking(g), Pruned(m), bound)
    requires forall m | m in ss :: Meets(PrunedRanking(g), bound, v, Pruned(m)) == Meets(g, bound, v, m)
    ensures forall m | m in PrunedAll(ss) :: RefsBelow(PrunedRanking(g), m, bound)
    ensures (forall m | m in PrunedAll(ss) :: Meets(PrunedRanking(g), bound, v, m))
         == forall m | m in ss :: Meets(g, bound, v, m)
    ensures (exists m | m in PrunedAll(ss) :: Meets(PrunedRanking(g), bound, v, m))
         == exists m | m in ss :: Meets(g, bound, v, m)
  {
    assert forall i | 0 <= i < |ss| :: PrunedAll(ss)[i] == Pruned(ss[i]) && ss[i] in ss;
    assert forall m | m in ss :: Pruned(m) in PrunedAll(ss) by {
      forall m | m in ss
        ensures Pruned(m) in PrunedAll(ss)
      {
        var i :| 0 <= i < |ss| && ss[i] == m;
        assert PrunedAll(ss)[i] == Pruned(m);
      }
    }
    assert forall p | p in PrunedAll(ss) :: exists m | m in ss :: p == Pruned(m);
  }

  lemma {:induction false} MembersKept(g: Ranking, bound: nat, v: Value, s: Value)
    requires Ranked(g) && Ranked(PrunedRanking(g)) && LiteralsSurvive(s) && s.Obj? && AsStr(Get(s, "$ref")) == None
    requires forall n | n in g.defs :: LiteralsSurvive(g.defs[n])
    ensures MembersMeet(PrunedRanking(g), v, Properties(Pruned(s))) == MembersMeet(g, v, Properties(s))
    decreases v, bound, s, 0
  {
    PropertiesOfPruned(s);
    if v.Obj? {
      forall k | k in Properties(s) && k in v.members
        ensures RefsBelow(g, Properties(s)[k], g.top) && RefsBelow(PrunedRanking(g), Pruned(Properties(s)[k]), g.top)
        ensures Meets(PrunedRanking(g), g.top, v.members[k], Pruned(Properties(s)[k]))
          == Meets(g, g.top, v.members[k], Properties(s)[k])
      {
        AllBelowTop(g, Properties(s)[k]);
        RefsOfPruned(g, Properties(s)[k], g.top);
        PruningKeepsMeaning(g, g.top, v.members[k], Properties(s)[k]);
      }
    }
  }

  lemma {:induction false} ElementsKept(g: Ranking, bound: nat, v: Value, s: Value)
    requires Ranked(g) && Ranked(PrunedRanking(g)) && LiteralsSurvive(s) && s.Obj? && AsStr(Get(s, "$ref")) == None
    requires forall n | n in g.defs :: LiteralsSurvive(g.defs[n])
    ensures ElementsMeet(PrunedRanking(g), v, Get(Pruned(s), "items")) == ElementsMeet(g, v, Get(s, "items"))
    decreases v, bound, s, 0
  {
    KeywordOfPruned(s, "items");
    if v.Arr? && Get(s, "items").Some? {
      var items := Get(s, "items").value;
      AllBelowTop(g, items);
      RefsOfPruned(g, items, g.top);
      forall e | e in v.items
        ensures Meets(PrunedRanking(g), g.top, e, Pruned(items)) == Meets(g, g.top, e, items)
      {
        PruningKeepsMeaning(g, g.top, e, items);
      }
    }
  }

  lemma CombinatorsKept(g: Ranking, bound: nat, v: Value, s: Value)
    requires Ranked(g) && Ranked(PrunedRanking(g)) && s.Obj?
    requires forall m | m in Branches(s) :: RefsBelow(g, m, bound) && RefsBelow(PrunedRanking(g), Pruned(m), bound)
    requires forall m | m in Branches(s) :: Meets(PrunedRanking(g), bound, v, Pruned(m)) == Meets(g, bound, v, m)
    requires forall m | m in Branches(Pruned(s)) :: RefsBelow(PrunedRanking(g), m, bound)
    ensures CombinatorsMeet(PrunedRanking(g), bound, v, Pruned(s)) == CombinatorsMeet(g, bound, v, s)
  {
    KeywordKept(g, bound, v, s, "allOf");
    KeywordKept(g, bound, v, s, "anyOf");
    KeywordKept(g, bound, v, s, "oneOf");
  }

  /** One combining keyword of a schema, before and after. */
  lemma KeywordKept(g: Ranking, bound: nat, v: Value, s: Value, key: string)
    requires Ranked(g) && Ranked(PrunedRanking(g)) && s.Obj? && key in KEEP && !NameMap(key)
    requires forall m | m in Members(s, key) :: RefsBelow(g, m, bound) && RefsBelow(PrunedRanking(g), Pruned(m), bound)
    requires forall m | m in Members(s, key) :: Meets(PrunedRanking(g), bound, v, Pruned(m)) == Meets(g, bound, v, m)
    ensures Alternatives(Pruned(s), key) == Alternatives(s, key)
    ensures forall m | m in Members(Pruned(s), key) :: RefsBelow(PrunedRanking(g), m, bound)
    ensures (forall m | m in Members(Pruned(s), key) :: Meets(PrunedRanking(g), bound, v, m))
      == forall m | m in Members(s, key) :: Meets(g, bound, v, m)
    ensures (exists m | m in Members(Pruned(s), key) :: Meets(PrunedRanking(g), bound, v, m))
      == exists m | m in Members(s, key) :: Meets(g, bound, v, m)
  {
    KeywordOfPruned(s, key);
    CombinatorKept(g, bound, v, Members(s, key));
  }

  /** Against the pruned definitions, the pruned schema means what the schema meant. */
  lemma {:induction false} PruningKeepsMeaning(g: Ranking, bound: nat, v: Value, s: Value)
    requires Ranked(g) && RefsBelow(g, s, bound)
    requires LiteralsSurvive(s) && forall n | n in g.defs :: LiteralsSurvive(g.defs[n])
    ensures Ranked(PrunedRanking(g)) && RefsBelow(PrunedRanking(g), Pruned(s), bound)
    ensures Meets(PrunedRanking(g), bound, v, Pruned(s)) == Meets(g, bound, v, s)
    decreases v, bound, s
  {
    RankedPruned(g);
    RefsOfPruned(g, s, bound);
    if s.Obj? {
      KeywordOfPruned(s, "$ref");
      var r := AsStr(Get(s, "$ref"));
      if r.Some? {
        if ResolveRef(r.value, g.defs).Some? {
          var name := RefName(r.value).value;
          PruningKeepsMeaning(g, g.rank[name], v, g.defs[name]);
        }
      } else {
        forall m | m in Branches(s)
          ensures RefsBelow(PrunedRanking(g), Pruned(m), bound)
          ensures Meets(PrunedRanking(g), bound, v, Pruned(m)) == Meets(g, bound, v, m)
        {
          PruningKeepsMeaning(g, bound, v, m);
        }
        MembersKept(g, bound, v, s);
        ElementsKept(g, bound, v, s);
        CombinatorsKept(g, bound, v, s);
        FlatKeywordsKept(v, s);
        RequiredOfPruned(s);
        PropertiesOfPruned(s);
      }
    }
  }

  /** The guard and the verdict on every value survive, for whole documents. */
  lemma PruningKeepsVerdict(v: Value, document: Value)
    requires Guarded(DefsOf(document)) && LiteralsSurvive(document)
    requires forall n | n in DefsOf(document) :: LiteralsSurvive(DefsOf(document)[n])
    ensures Guarded(DefsOf(Pruned(document)))
    ensures Accepts(v, Pruned(document)) == Accepts(v, document)
  {
    DefsOfPruned(document);
    var g: Ranking :| g.defs == DefsOf(document) && Ranked(g);
    var h := PrunedRanking(g);
    RankedPruned(g);
    AllBelowTop(g, document);
    PruningKeepsMeaning(g, g.top, v, document);
    AcceptsBy(g, v, document);
    AcceptsBy(h, v, Pruned(document));
  }

  /** What the generator writes for an argument: `""` stands for no constraint. */
  datatype Emission = NoConstraint | Text(document: Value)

  function Emit(schema: Option<Value>): Emission {
    if schema == None || Pruned(schema.value) == Obj(map[]) then NoConstraint else Text(Pruned(schema.value))
  }

  /** `satisfies_str`, on text that parses to what was written. */
  ghost function TextVerdict(depth: nat, v: Value, text: Emission): Option<bool> {
    match text
    case NoConstraint => Some(true)
    case Text(document) => Verdict(depth, v, document)
  }

  /** From the generated table the boundary reaches the verdict of the declared schema. */
  lemma EmissionKeepsVerdict(v: Value, schema: Value) returns (d: nat)
    requires Guarded(DefsOf(schema)) && LiteralsSurvive(schema)
    requires forall n | n in DefsOf(schema) :: LiteralsSurvive(DefsOf(schema)[n])
    ensures forall e: nat | e >= d ::
      TextVerdict(e, v, Emit(Some(schema))) == Verdict(e, v, schema) == Some(Accepts(v, schema))
  {
    PruningKeepsVerdict(v, schema);
    GuardedSchemasDecide(v, schema);
    GuardedSchemasDecide(v, Pruned(schema));
    var raw: nat :| AnswersFrom(raw, v, schema, Accepts(v, schema));
    var emitted: nat :| AnswersFrom(emitted, v, Pruned(schema), Accepts(v, Pruned(schema)));
    d := raw + emitted + 1;
    if Emit(Some(schema)).NoConstraint? {
      UnconstrainedAccepts(d, v);
    }
  }

  /** An empty schema admits every value, which is what leaving it out means. */
  lemma UnconstrainedAccepts(depth: nat, v: Value)
    requires depth > 0
    ensures Verdict(depth, v, Obj(map[])) == Some(true)
  {
    var s := Obj(map[]);
    assert Members(s, "allOf") == [] && Properties(s) == map[] && DefsOf(s) == map[];
    assert RunAll(depth - 1, v, Members(s, "allOf"), map[]) == Some(true);
    assert RunProperties(depth - 1, v, Properties(s), map[]) == Some(true);
    assert RunItems(depth - 1, v, s, map[]) == Some(true);
    assert FlatKeywords(v, s) && HasRequired(v, s);
    assert Run(depth, v, s, map[]) == Some(true);
  }

  lemma ConstOfPruned(c: Value)
    ensures Pruned(ConstSchema(c)) == ConstSchema(Pruned(c))
  {
    KeywordOfPruned(ConstSchema(c), "const");
  }

  /** For a `const` the condition on literals is exact: the pruned schema gets every value the verdict it had, exactly
      when no key of the constant is dropped. */
  lemma ConstPrunedIff(c: Value, depth: nat)
    requires depth > 0
    ensures (forall v :: Verdict(depth, v, Pruned(ConstSchema(c))) == Verdict(depth, v, ConstSchema(c)))
      <==> KeysSurvive(c)
  {
    ConstOfPruned(c);
    LiteralKeptIff(c);
    forall v
      ensures Verdict(depth, v, Pruned(ConstSchema(c))) == Some(v == Pruned(c))
        && Verdict(depth, v, ConstSchema(c)) == Some(v == c)
    {
      ConstVerdict(depth, v, Pruned(c));
      ConstVerdict(depth, v, c);
    }
    assert Verdict(depth, c, Pruned(ConstSchema(c))) == Some(c == Pruned(c));
  }
}
