/** The schema interpreter of the dispatch boundary (`validate.rs`).

    `Run` is the interpreter as written: it takes early exits, it walks `allOf` and
    `anyOf` in order, and it recurses, so it is given the call depth the host can
    afford and answers `None` when that is used up.  `Meets` is what the kept
    keywords are meant to say. */
module Schema {
  import opened Json

  const REF_PREFIX := "#/$defs/"

  type Defs = map<string, Value>

  /** The definitions a whole schema document brings along. */
  function DefsOf(document: Value): Defs {
    OrElse(AsObject(Get(document, "$defs")), map[])
  }

  /** The definition a reference names; only local references have one. */
  function RefName(r: string): Option<string> {
    if |r| >= |REF_PREFIX| && r[..|REF_PREFIX|] == REF_PREFIX then Some(r[|REF_PREFIX|..]) else None
  }

  function ResolveRef(r: string, defs: Defs): Option<Value> {
    var name := RefName(r);
    if name.Some? && name.value in defs then Some(defs[name.value]) else None
  }

  predicate MatchesType(v: Value, t: string) {
    match t
    case "string" => v.Str?
    case "number" => v.Num?
    case "integer" => v.Num?
    case "boolean" => v.Bool?
    case "array" => v.Arr?
    case "object" => v.Obj?
    case "null" => v.Null?
    case _ => true
  }

  /** The names `required` lists; entries that are not strings are skipped. */
  function RequiredNames(s: Value): set<string> {
    var listed := OrElse(AsArray(Get(s, "required")), []);
    set i | 0 <= i < |listed| && listed[i].Str? :: listed[i].s
  }

  /** The keywords that look at `v` without descending into it or into `s`. */
  predicate FlatKeywords(v: Value, s: Value) {
    && (AsStr(Get(s, "type")).Some? ==> MatchesType(v, AsStr(Get(s, "type")).value))
    && (Get(s, "const").Some? ==> v == Get(s, "const").value)
    && (AsArray(Get(s, "enum")).Some? ==> v in AsArray(Get(s, "enum")).value)
  }

  /** `required` counts only next to a `properties` object and only for object values. */
  predicate HasRequired(v: Value, s: Value) {
    AsObject(Get(s, "properties")).Some? && v.Obj? ==> RequiredNames(s) <= v.members.Keys
  }

  function Members(s: Value, key: string): (ms: seq<Value>)
    ensures forall m | m in ms :: m < s
  {
    OrElse(AsArray(Get(s, key)), [])
  }

  /** Every subschema that looks at the same value as `s` does. */
  function Branches(s: Value): (ms: seq<Value>)
    ensures forall m | m in ms :: m < s
    ensures forall m | m in Members(s, "allOf") :: m in ms
    ensures forall m | m in Members(s, "anyOf") :: m in ms
    ensures forall m | m in Members(s, "oneOf") :: m in ms
  {
    Members(s, "allOf") + Members(s, "anyOf") + Members(s, "oneOf")
  }

  /** `anyOf`/`oneOf` bind only when they are arrays; an empty array admits nothing. */
  predicate Alternatives(s: Value, key: string) {
    AsArray(Get(s, key)).Some?
  }

  function Properties(s: Value): map<string, Value> {
    OrElse(AsObject(Get(s, "properties")), map[])
  }

  // ----- the interpreter, at a bounded call depth -----

  function AndThen(first: Option<bool>, second: Option<bool>): Option<bool> {
    if first == Some(true) then second else first
  }

  ghost function Run(depth: nat, v: Value, s: Value, defs: Defs): Option<bool>
    decreases depth, 2, 0
  {
    if depth == 0 then None
    else if !s.Obj? then Some(true)
    else
      var r := AsStr(Get(s, "$ref"));
      if r.Some? then
        var target := ResolveRef(r.value, defs);
        if target.Some? then Run(depth - 1, v, target.value, defs) else Some(true)
      else
        AndThen(RunAll(depth - 1, v, Members(s, "allOf"), defs),
        AndThen(if Alternatives(s, "anyOf") then RunAny(depth - 1, v, Members(s, "anyOf"), defs) else Some(true),
        AndThen(if Alternatives(s, "oneOf") then RunAny(depth - 1, v, Members(s, "oneOf"), defs) else Some(true),
        AndThen(Some(FlatKeywords(v, s)),
        AndThen(Some(HasRequired(v, s)),
        AndThen(RunProperties(depth - 1, v, Properties(s), defs),
                RunItems(depth - 1, v, s, defs)))))))
  }

  ghost function RunAll(depth: nat, v: Value, ss: seq<Value>, defs: Defs): Option<bool>
    decreases depth, 3, |ss|
  {
    if ss == [] then Some(true)
    else AndThen(Run(depth, v, ss[0], defs), RunAll(depth, v, ss[1..], defs))
  }

  ghost function RunAny(depth: nat, v: Value, ss: seq<Value>, defs: Defs): Option<bool>
    decreases depth, 3, |ss|
  {
    if ss == [] then Some(false)
    else
      var first := Run(depth, v, ss[0], defs);
      if first == Some(false) then RunAny(depth, v, ss[1..], defs) else first
  }

  /** Members are looked at in map order.  The model asks for all of them, so that what
      terminates here terminates in every order. */
  ghost function RunProperties(depth: nat, v: Value, props: map<string, Value>, defs: Defs): Option<bool>
    decreases depth, 3, 0
  {
    if !v.Obj? then Some(true)
    else if exists k | k in props && k in v.members :: Run(depth, v.members[k], props[k], defs) == None then None
    else Some(forall k | k in props && k in v.members :: Run(depth, v.members[k], props[k], defs) == Some(true))
  }

  ghost function RunItems(depth: nat, v: Value, s: Value, defs: Defs): Option<bool>
    decreases depth, 4, 0
  {
    var items := Get(s, "items");
    if items.Some? && v.Arr? then RunEach(depth, v.items, items.value, defs) else Some(true)
  }

  ghost function RunEach(depth: nat, vs: seq<Value>, s: Value, defs: Defs): Option<bool>
    decreases depth, 3, |vs|
  {
    if vs == [] then Some(true)
    else AndThen(Run(depth, vs[0], s, defs), RunEach(depth, vs[1..], s, defs))
  }

  // ----- which schemas it terminates on -----

  /** A ranking of the definitions; every rank lies below `top`. */
  datatype Ranking = Ranking(defs: Defs, rank: map<string, nat>, top: nat)

  /** Every reference `s` can follow without entering a member or an element resolves,
      if at all, to a definition ranked below `bound`. */
  predicate RefsBelow(g: Ranking, s: Value, bound: nat)
    requires g.rank.Keys == g.defs.Keys
  {
    if !s.Obj? then true
    else
      var r := AsStr(Get(s, "$ref"));
      if r.Some? then
        ResolveRef(r.value, g.defs).Some? ==> g.rank[RefName(r.value).value] < bound
      else
        forall m | m in Branches(s) :: RefsBelow(g, m, bound)
  }

  /** Following unguarded references only ever goes down in rank: no cycle of them exists. */
  ghost predicate Ranked(g: Ranking) {
    && g.rank.Keys == g.defs.Keys
    && (forall n | n in g.defs :: g.rank[n] < g.top && RefsBelow(g, g.defs[n], g.rank[n]))
  }

  /** Every `$ref` cycle passes through `properties` or `items`. */
  ghost predicate Guarded(defs: Defs) {
    exists g: Ranking :: g.defs == defs && Ranked(g)
  }

  lemma {:induction false} AllBelowTop(g: Ranking, s: Value)
    requires Ranked(g)
    ensures RefsBelow(g, s, g.top)
  {
    if s.Obj? && AsStr(Get(s, "$ref")) == None {
      forall m | m in Branches(s)
        ensures RefsBelow(g, m, g.top)
      {
        AllBelowTop(g, m);
      }
    }
  }

  // ----- what the keywords mean -----

  ghost predicate Meets(g: Ranking, bound: nat, v: Value, s: Value)
    requires Ranked(g) && RefsBelow(g, s, bound)
    decreases v, bound + 1, s
  {
    if !s.Obj? then true
    else
      var r := AsStr(Get(s, "$ref"));
      if r.Some? then
        var target := ResolveRef(r.value, g.defs);
        target.Some? ==> Meets(g, g.rank[RefName(r.value).value], v, target.value)
      else
        && FlatKeywords(v, s)
        && HasRequired(v, s)
        && CombinatorsMeet(g, bound, v, s)
        && MembersMeet(g, v, Properties(s))
        && ElementsMeet(g, v, Get(s, "items"))
  }

  /** `allOf` is a conjunction; `anyOf` and `oneOf` both ask for at least one branch. */
  ghost predicate CombinatorsMeet(g: Ranking, bound: nat, v: Value, s: Value)
    requires Ranked(g) && forall m | m in Branches(s) :: RefsBelow(g, m, bound)
    decreases v, bound + 1, s, 0
  {
    && (forall m | m in Members(s, "allOf") :: Meets(g, bound, v, m))
    && (Alternatives(s, "anyOf") ==> exists m | m in Members(s, "anyOf") :: Meets(g, bound, v, m))
    && (Alternatives(s, "oneOf") ==> exists m | m in Members(s, "oneOf") :: Meets(g, bound, v, m))
  }

  /** Every member that has a schema of its own meets it. */
  ghost predicate MembersMeet(g: Ranking, v: Value, props: map<string, Value>)
    requires Ranked(g)
    decreases v, 0
  {
    v.Obj? ==> forall k | k in props && k in v.members ::
      (AllBelowTop(g, props[k]); Meets(g, g.top, v.members[k], props[k]))
  }

  /** Every element meets the item schema. */
  ghost predicate ElementsMeet(g: Ranking, v: Value, items: Option<Value>)
    requires Ranked(g)
    decreases v, 0
  {
    v.Arr? && items.Some? ==> forall e | e in v.items ::
      (AllBelowTop(g, items.value); Meets(g, g.top, e, items.value))
  }

  // ----- the interpreter terminates and says what the keywords mean -----

  /** The recursive call on `v` and `s` is settled at `depth`. */
  ghost predicate Settled(g: Ranking, bound: nat, depth: nat, v: Value, s: Value)
    requires Ranked(g)
  {
    RefsBelow(g, s, bound) && Run(depth, v, s, g.defs) == Some(Meets(g, bound, v, s))
  }

  lemma {:induction false} AllDecided(g: Ranking, bound: nat, depth: nat, v: Value, ss: seq<Value>)
    requires Ranked(g) && forall m | m in ss :: RefsBelow(g, m, bound)
    requires forall m | m in ss :: Settled(g, bound, depth, v, m)
    ensures RunAll(depth, v, ss, g.defs) == Some(forall m | m in ss :: Meets(g, bound, v, m))
  {
    if ss != [] {
      assert ss[0] in ss && forall m :: m in ss <==> m == ss[0] || m in ss[1..];
      AllDecided(g, bound, depth, v, ss[1..]);
      assert (forall m | m in ss :: Meets(g, bound, v, m)) <==>
        Meets(g, bound, v, ss[0]) && forall m | m in ss[1..] :: Meets(g, bound, v, m);
    }
  }

  lemma {:induction false} AnyDecided(g: Ranking, bound: nat, depth: nat, v: Value, ss: seq<Value>)
    requires Ranked(g) && forall m | m in ss :: RefsBelow(g, m, bound)
    requires forall m | m in ss :: Settled(g, bound, depth, v, m)
    ensures RunAny(depth, v, ss, g.defs) == Some(exists m | m in ss :: Meets(g, bound, v, m))
  {
    if ss != [] {
      assert ss[0] in ss && forall m :: m in ss <==> m == ss[0] || m in ss[1..];
      AnyDecided(g, bound, depth, v, ss[1..]);
      assert (exists m | m in ss :: Meets(g, bound, v, m)) <==>
        Meets(g, bound, v, ss[0]) || exists m | m in ss[1..] :: Meets(g, bound, v, m);
    }
  }

  lemma {:induction false} EachDecided(g: Ranking, bound: nat, depth: nat, vs: seq<Value>, s: Value)
    requires Ranked(g) && RefsBelow(g, s, bound) && forall e | e in vs :: Settled(g, bound, depth, e, s)
    ensures RunEach(depth, vs, s, g.defs) == Some(forall e | e in vs :: Meets(g, bound, e, s))
  {
    if vs != [] {
      assert vs[0] in vs && forall e :: e in vs <==> e == vs[0] || e in vs[1..];
      EachDecided(g, bound, depth, vs[1..], s);
      assert (forall e | e in vs :: Meets(g, bound, e, s)) <==>
        Meets(g, bound, vs[0], s) && forall e | e in vs[1..] :: Meets(g, bound, e, s);
    }
  }

  lemma PropertiesDecided(g: Ranking, depth: nat, v: Value, props: map<string, Value>)
    requires Ranked(g)
    requires v.Obj? ==> forall k | k in props && k in v.members :: Settled(g, g.top, depth, v.members[k], props[k])
    ensures RunProperties(depth, v, props, g.defs) == Some(MembersMeet(g, v, props))
  {
  }

  lemma ItemsDecided(g: Ranking, depth: nat, v: Value, s: Value)
    requires Ranked(g)
    requires v.Arr? && Get(s, "items").Some? ==>
      forall e | e in v.items :: Settled(g, g.top, depth, e, Get(s, "items").value)
    ensures RunItems(depth, v, s, g.defs) == Some(ElementsMeet(g, v, Get(s, "items")))
  {
    if v.Arr? && Get(s, "items").Some? {
      AllBelowTop(g, Get(s, "items").value);
      EachDecided(g, g.top, depth, v.items, Get(s, "items").value);
    }
  }

  /** Once every recursive call is settled, the chain of early exits computes the meaning. */
  lemma {:induction false} KeywordsDecided(g: Ranking, bound: nat, v: Value, s: Value, depth: nat)
    requires Ranked(g) && RefsBelow(g, s, bound)
    requires s.Obj? && AsStr(Get(s, "$ref")) == None
    requires forall m | m in Branches(s) :: Settled(g, bound, depth, v, m)
    requires RunProperties(depth, v, Properties(s), g.defs) == Some(MembersMeet(g, v, Properties(s)))
    requires RunItems(depth, v, s, g.defs) == Some(ElementsMeet(g, v, Get(s, "items")))
    ensures Settled(g, bound, depth + 1, v, s)
  {
    AllDecided(g, bound, depth, v, Members(s, "allOf"));
    AnyDecided(g, bound, depth, v, Members(s, "anyOf"));
    AnyDecided(g, bound, depth, v, Members(s, "oneOf"));
  }

  /** At every call depth from `d` on, the interpreter answers with the meaning. */
  ghost predicate SettlesAt(g: Ranking, bound: nat, v: Value, s: Value, d: nat)
    requires Ranked(g) && RefsBelow(g, s, bound)
  {
    forall e: nat | e >= d :: Settled(g, bound, e, v, s)
  }

  lemma {:induction false} KeywordsSettle(g: Ranking, bound: nat, v: Value, s: Value, a: nat, b: nat, c: nat)
    requires Ranked(g) && RefsBelow(g, s, bound)
    requires s.Obj? && AsStr(Get(s, "$ref")) == None
    requires forall m | m in Branches(s) :: SettlesAt(g, bound, v, m, a)
    requires v.Obj? ==> forall k | k in Properties(s).Keys * v.members.Keys ::
      RefsBelow(g, Properties(s)[k], g.top) && SettlesAt(g, g.top, v.members[k], Properties(s)[k], b)
    requires v.Arr? && Get(s, "items").Some? ==> forall e | e in v.items ::
      RefsBelow(g, s.members["items"], g.top) && SettlesAt(g, g.top, e, s.members["items"], c)
    ensures SettlesAt(g, bound, v, s, a + b + c + 1)
  {
    forall e: nat | e >= a + b + c + 1
      ensures Settled(g, bound, e, v, s)
    {
      PropertiesDecided(g, e - 1, v, Properties(s));
      ItemsDecided(g, e - 1, v, s);
      KeywordsDecided(g, bound, v, s, e - 1);
    }
  }

  lemma {:induction false} Terminates(g: Ranking, bound: nat, v: Value, s: Value) returns (d: nat)
    requires Ranked(g) && RefsBelow(g, s, bound)
    ensures SettlesAt(g, bound, v, s, d)
    decreases v, bound, s
  {
    if !s.Obj? {
      d := 1;
    } else if AsStr(Get(s, "$ref")).Some? {
      var r := AsStr(Get(s, "$ref")).value;
      var target := ResolveRef(r, g.defs);
      d := 1;
      if target.Some? {
        var below := Terminates(g, g.rank[RefName(r).value], v, target.value);
        d := below + 1;
        forall e: nat | e >= d
          ensures Settled(g, bound, e, v, s)
        {
          assert Settled(g, g.rank[RefName(r).value], e - 1, v, target.value);
        }
      }
    } else {
      var branches := TerminatesOn(g, bound, v, s, Branches(s));
      var props := TerminatesOnMembers(g, bound, v, s, if v.Obj? then Properties(s).Keys * v.members.Keys else {});
      var items := TerminatesOnElements(g, bound, v, s, if v.Arr? && "items" in s.members then v.items else []);
      d := branches + props + items + 1;
      KeywordsSettle(g, bound, v, s, branches, props, items);
    }
  }

  /** Enough depth for every member of a combinator. */
  lemma {:induction false} TerminatesOn(g: Ranking, bound: nat, v: Value, s: Value, ss: seq<Value>) returns (d: nat)
    requires Ranked(g) && RefsBelow(g, s, bound)
    requires forall m | m in ss :: m < s && RefsBelow(g, m, bound)
    ensures forall m | m in ss :: SettlesAt(g, bound, v, m, d)
    decreases v, bound, s, |ss|
  {
    d := 0;
    if ss != [] {
      assert ss[0] in ss;
      var first := Terminates(g, bound, v, ss[0]);
      assert forall m | m in ss[1..] :: m in ss;
      var rest := TerminatesOn(g, bound, v, s, ss[1..]);
      d := first + rest;
      assert forall m :: m in ss <==> m == ss[0] || m in ss[1..];
    }
  }

  /** Enough depth for every object member that has a schema of its own. */
  lemma {:induction false} TerminatesOnMembers(g: Ranking, bound: nat, v: Value, s: Value, ks: set<string>)
    returns (d: nat)
    requires Ranked(g)
    requires ks != {} ==> v.Obj? && ks <= v.members.Keys && ks <= Properties(s).Keys
    ensures forall k | k in ks ::
      RefsBelow(g, Properties(s)[k], g.top) && SettlesAt(g, g.top, v.members[k], Properties(s)[k], d)
    decreases v, bound, s, |ks|
  {
    d := 0;
    if ks != {} {
      var k :| k in ks;
      AllBelowTop(g, Properties(s)[k]);
      var first := Terminates(g, g.top, v.members[k], Properties(s)[k]);
      var rest := TerminatesOnMembers(g, bound, v, s, ks - {k});
      d := first + rest;
    }
  }

  /** Enough depth for every array element. */
  lemma {:induction false} TerminatesOnElements(g: Ranking, bound: nat, v: Value, s: Value, vs: seq<Value>)
    returns (d: nat)
    requires Ranked(g)
    requires vs != [] ==> s.Obj? && "items" in s.members && forall e | e in vs :: e < v
    ensures forall e | e in vs ::
      RefsBelow(g, s.members["items"], g.top) && SettlesAt(g, g.top, e, s.members["items"], d)
    decreases v, bound, s, |vs|
  {
    d := 0;
    if vs != [] {
      assert vs[0] in vs;
      AllBelowTop(g, s.members["items"]);
      var first := Terminates(g, g.top, vs[0], s.members["items"]);
      assert forall e | e in vs[1..] :: e in vs;
      var rest := TerminatesOnElements(g, bound, v, s, vs[1..]);
      d := first + rest;
      assert forall e :: e in vs <==> e == vs[0] || e in vs[1..];
    }
  }

  /** Which ranking witnesses the guard does not matter to the meaning. */
  lemma {:induction false} RankingIrrelevant(g: Ranking, gBound: nat, h: Ranking, hBound: nat, v: Value, s: Value)
    requires Ranked(g) && RefsBelow(g, s, gBound)
    requires Ranked(h) && RefsBelow(h, s, hBound)
    requires g.defs == h.defs
    ensures Meets(g, gBound, v, s) == Meets(h, hBound, v, s)
  {
    var d := Terminates(g, gBound, v, s);
    var e := Terminates(h, hBound, v, s);
    assert Settled(g, gBound, d + e, v, s) && Settled(h, hBound, d + e, v, s);
  }

  /** What a schema document says about `v`. */
  ghost predicate Accepts(v: Value, document: Value)
    requires Guarded(DefsOf(document))
  {
    var g: Ranking :| g.defs == DefsOf(document) && Ranked(g);
    AllBelowTop(g, document);
    Meets(g, g.top, v, document)
  }

  /** `satisfies` on a whole document, which supplies its own definitions. */
  ghost function Verdict(depth: nat, v: Value, document: Value): Option<bool> {
    Run(depth, v, document, DefsOf(document))
  }

  /** The interpreter answers `b` on every stack that is deep enough. */
  ghost predicate Answers(v: Value, document: Value, b: bool) {
    exists d: nat :: AnswersFrom(d, v, document, b)
  }

  ghost predicate AnswersFrom(d: nat, v: Value, document: Value, b: bool) {
    forall e: nat | e >= d :: Verdict(e, v, document) == Some(b)
  }

  lemma AcceptsBy(g: Ranking, v: Value, document: Value)
    requires Ranked(g) && g.defs == DefsOf(document)
    ensures Guarded(DefsOf(document)) && RefsBelow(g, document, g.top)
    ensures Accepts(v, document) == Meets(g, g.top, v, document)
  {
    AllBelowTop(g, document);
    forall h: Ranking | h.defs == DefsOf(document) && Ranked(h)
      ensures RefsBelow(h, document, h.top) && Meets(h, h.top, v, document) == Meets(g, g.top, v, document)
    {
      AllBelowTop(h, document);
      RankingIrrelevant(g, g.top, h, h.top, v, document);
    }
  }

  /** The interpreter terminates on every value and decides what the keywords mean,
      provided every `$ref` cycle passes through `properties` or `items`. */
  lemma GuardedSchemasDecide(v: Value, document: Value)
    requires Guarded(DefsOf(document))
    ensures Answers(v, document, Accepts(v, document))
  {
    var g: Ranking :| g.defs == DefsOf(document) && Ranked(g);
    AcceptsBy(g, v, document);
    var d := Terminates(g, g.top, v, document);
    forall e: nat | e >= d
      ensures Verdict(e, v, document) == Some(Accepts(v, document))
    {
      assert Settled(g, g.top, e, v, document);
    }
    assert AnswersFrom(d, v, document, Accepts(v, document));
  }

  /** The subschema the interpreter goes into first, on the same value: what a reference names, or else the first
      member of the first combinator that has any. */
  function FirstStep(s: Value, defs: Defs): Option<Value> {
    var r := AsStr(Get(s, "$ref"));
    if r.Some? then ResolveRef(r.value, defs)
    else if Members(s, "allOf") != [] then Some(Members(s, "allOf")[0])
    else if Members(s, "anyOf") != [] then Some(Members(s, "anyOf")[0])
    else if Members(s, "oneOf") != [] && !Alternatives(s, "anyOf") then Some(Members(s, "oneOf")[0])
    else None
  }

  /** Schemas each of which leads first into another of them. */
  predicate Ring(defs: Defs, ring: set<Value>) {
    forall s | s in ring :: s.Obj? && FirstStep(s, defs).Some? && FirstStep(s, defs).value in ring
  }

  /** The value's depth does not bound the walk: on an unguarded ring the interpreter
      answers nothing, whatever the value and however deep the stack. */
  lemma {:induction false} RingsDiverge(defs: Defs, ring: set<Value>, s: Value, v: Value, depth: nat)
    requires Ring(defs, ring) && s in ring
    ensures Run(depth, v, s, defs) == None
    decreases depth
  {
    if depth > 0 {
      var first := FirstStep(s, defs).value;
      RingsDiverge(defs, ring, first, v, depth - 1);
      if AsStr(Get(s, "$ref")) == None && Members(s, "allOf") == [] {
        assert RunAll(depth - 1, v, Members(s, "allOf"), defs) == Some(true);
      }
    }
  }

  /** The smallest instance: a definition that refers to itself, with `null` as the value. */
  lemma SelfReferenceDiverges(depth: nat)
    ensures
      var self := Obj(map["$ref" := Str(REF_PREFIX + "a")]);
      Run(depth, Null, self, map["a" := self]) == None
  {
    var self := Obj(map["$ref" := Str(REF_PREFIX + "a")]);
    assert (REF_PREFIX + "a")[|REF_PREFIX|..] == "a";
    RingsDiverge(map["a" := self], {self}, self, Null, depth);
  }

  // ----- a schema that is one constant -----

  function ConstSchema(c: Value): Value {
    Obj(map["const" := c])
  }

  lemma ConstVerdict(depth: nat, v: Value, c: Value)
    requires depth > 0
    ensures Verdict(depth, v, ConstSchema(c)) == Some(v == c)
  {
    var s := ConstSchema(c);
    assert Members(s, "allOf") == [] && Properties(s) == map[] && DefsOf(s) == map[];
    assert RunAll(depth - 1, v, Members(s, "allOf"), map[]) == Some(true);
    assert RunProperties(depth - 1, v, Properties(s), map[]) == Some(true);
    assert RunItems(depth - 1, v, s, map[]) == Some(true);
    assert HasRequired(v, s) && (FlatKeywords(v, s) <==> v == c);
  }
}
