/** What each keyword admits, said of the values themselves, and that a schema admits what all its keywords do. */
module SchemaTables {
  import opened Json
  import opened Schema

  const TYPE_NAMES := {"string", "number", "integer", "boolean", "array", "object", "null"}

  /** The names of the kind of a value; a number has two. */
  function KindNames(v: Value): set<string> {
    match v
    case Null => {"null"}
    case Bool(_) => {"boolean"}
    case Num(_) => {"number", "integer"}
    case Str(_) => {"string"}
    case Arr(_) => {"array"}
    case Obj(_) => {"object"}
  }

  /** The schema with only these keywords. */
  function Only(s: Value, keys: set<string>): Value
    requires s.Obj?
  {
    Obj(map k | k in s.members && k in keys :: s.members[k])
  }

  lemma OnlyReads(s: Value, keys: set<string>, key: string)
    requires s.Obj?
    ensures Get(Only(s, keys), key) == if key in keys then Get(s, key) else None
  {
  }

  /** A schema that is no reference admits a value when each part of the walk does. */
  lemma Parts(depth: nat, v: Value, s: Value, defs: Defs)
    requires s.Obj? && AsStr(Get(s, "$ref")) == None
    ensures Run(depth + 1, v, s, defs) == Some(true) <==>
      && RunAll(depth, v, Members(s, "allOf"), defs) == Some(true)
      && (Alternatives(s, "anyOf") ==> RunAny(depth, v, Members(s, "anyOf"), defs) == Some(true))
      && (Alternatives(s, "oneOf") ==> RunAny(depth, v, Members(s, "oneOf"), defs) == Some(true))
      && FlatKeywords(v, s) && HasRequired(v, s)
      && RunProperties(depth, v, Properties(s), defs) == Some(true)
      && RunItems(depth, v, s, defs) == Some(true)
  {
  }

  // ----- one keyword at a time -----

  /** One `type`: the kind of that name, a number for either of its two, and anything for a name that is none. */
  lemma TypeAdmits(depth: nat, v: Value, name: string)
    requires depth > 0
    ensures Verdict(depth, v, Obj(map["type" := Str(name)])) == Some(name in TYPE_NAMES ==> name in KindNames(v))
  {
    var s := Obj(map["type" := Str(name)]);
    Plain(depth, v, s);
    assert AsStr(Get(s, "type")) == Some(name) && Get(s, "const") == None && Get(s, "enum") == None;
  }

  /** A schema without subschemas is decided by its flat keywords. */
  lemma Plain(depth: nat, v: Value, s: Value)
    requires depth > 0 && s.Obj?
    requires forall k | k in {"$ref", "$defs", "allOf", "anyOf", "oneOf", "properties", "items"} :: k !in s.members
    ensures Verdict(depth, v, s) == Some(FlatKeywords(v, s))
  {
    assert DefsOf(s) == map[] && Members(s, "allOf") == [] && Properties(s) == map[];
    assert RunAll(depth - 1, v, Members(s, "allOf"), map[]) == Some(true);
    assert RunProperties(depth - 1, v, Properties(s), map[]) == Some(true);
    assert RunItems(depth - 1, v, s, map[]) == Some(true);
    assert HasRequired(v, s);
  }

  /** One `enum`: exactly the listed values. */
  lemma EnumAdmits(depth: nat, v: Value, listed: seq<Value>)
    requires depth > 0
    ensures Verdict(depth, v, Obj(map["enum" := Arr(listed)])) == Some(exists i | 0 <= i < |listed| :: listed[i] == v)
  {
    var s := Obj(map["enum" := Arr(listed)]);
    Plain(depth, v, s);
    assert AsArray(Get(s, "enum")) == Some(listed) && Get(s, "type") == None && Get(s, "const") == None;
  }

  /** `required` beside `properties`: refused exactly when a listed name is missing from an object; what is listed
      and no name counts for nothing. */
  lemma RequiredAdmits(depth: nat, v: Value, listed: seq<Value>)
    requires depth > 0
    ensures
      var s := Obj(map["properties" := Obj(map[]), "required" := Arr(listed)]);
      Verdict(depth, v, s) ==
        Some(v.Obj? ==> forall i | 0 <= i < |listed| && listed[i].Str? :: listed[i].s in v.members)
  {
    var s := Obj(map["properties" := Obj(map[]), "required" := Arr(listed)]);
    assert DefsOf(s) == map[] && Members(s, "allOf") == [] && Properties(s) == map[];
    assert RunAll(depth - 1, v, Members(s, "allOf"), map[]) == Some(true);
    assert RunProperties(depth - 1, v, Properties(s), map[]) == Some(true);
    assert RunItems(depth - 1, v, s, map[]) == Some(true);
    assert FlatKeywords(v, s);
    RequiredIff(v, s, listed);
  }

  lemma RequiredIff(v: Value, s: Value, listed: seq<Value>)
    requires Get(s, "required") == Some(Arr(listed)) && AsObject(Get(s, "properties")).Some?
    ensures HasRequired(v, s)
      <==> (v.Obj? ==> forall i | 0 <= i < |listed| && listed[i].Str? :: listed[i].s in v.members)
  {
    if v.Obj? {
      forall i | 0 <= i < |listed| && listed[i].Str?
        ensures listed[i].s in RequiredNames(s)
      {
      }
    }
  }

  /** And alone it asks for nothing. */
  lemma RequiredAlone(depth: nat, v: Value, listed: Value)
    requires depth > 0
    ensures Verdict(depth, v, Obj(map["required" := listed])) == Some(true)
  {
    Plain(depth, v, Obj(map["required" := listed]));
  }

  /** One `properties`: every member of an object that has a schema there is admitted by it. */
  lemma PropertiesAdmit(depth: nat, v: Value, props: map<string, Value>, defs: Defs)
    ensures Run(depth + 1, v, Obj(map["properties" := Obj(props)]), defs) == Some(true) <==>
      (v.Obj? ==> forall k | k in props && k in v.members :: Run(depth, v.members[k], props[k], defs) == Some(true))
  {
    var s := Obj(map["properties" := Obj(props)]);
    Parts(depth, v, s, defs);
    assert Members(s, "allOf") == [] && Properties(s) == props && RequiredNames(s) == {};
    assert RunAll(depth, v, Members(s, "allOf"), defs) == Some(true);
  }

  /** One `items`: every element of an array is admitted by it. */
  lemma ItemsAdmit(depth: nat, v: Value, item: Value, defs: Defs)
    ensures Run(depth + 1, v, Obj(map["items" := item]), defs) == Some(true) <==>
      (v.Arr? ==> forall i | 0 <= i < |v.items| :: Run(depth, v.items[i], item, defs) == Some(true))
  {
    var s := Obj(map["items" := item]);
    Parts(depth, v, s, defs);
    assert Members(s, "allOf") == [] && Properties(s) == map[];
    assert RunAll(depth, v, Members(s, "allOf"), defs) == Some(true);
    if v.Arr? {
      EachAdmits(depth, v.items, item, defs);
    }
  }

  lemma {:induction false} EachAdmits(depth: nat, vs: seq<Value>, s: Value, defs: Defs)
    ensures RunEach(depth, vs, s, defs) == Some(true)
      <==> forall i | 0 <= i < |vs| :: Run(depth, vs[i], s, defs) == Some(true)
  {
    if vs != [] {
      EachAdmits(depth, vs[1..], s, defs);
      assert forall i | 0 < i < |vs| :: vs[i] == vs[1..][i - 1];
    }
  }

  /** One `allOf`: every member admits the value. */
  lemma AllOfAdmits(depth: nat, v: Value, ss: seq<Value>, defs: Defs)
    ensures Run(depth + 1, v, Obj(map["allOf" := Arr(ss)]), defs) == Some(true) <==>
      forall i | 0 <= i < |ss| :: Run(depth, v, ss[i], defs) == Some(true)
  {
    var s := Obj(map["allOf" := Arr(ss)]);
    Parts(depth, v, s, defs);
    assert Members(s, "allOf") == ss && Properties(s) == map[];
    AllAdmit(depth, v, ss, defs);
  }

  lemma {:induction false} AllAdmit(depth: nat, v: Value, ss: seq<Value>, defs: Defs)
    ensures RunAll(depth, v, ss, defs) == Some(true)
      <==> forall i | 0 <= i < |ss| :: Run(depth, v, ss[i], defs) == Some(true)
  {
    if ss != [] {
      AllAdmit(depth, v, ss[1..], defs);
      assert forall i | 0 < i < |ss| :: ss[i] == ss[1..][i - 1];
    }
  }

  /** One `anyOf` or `oneOf`: some member admits the value, and the walk has come back from those before it. */
  lemma AnyOfAdmits(depth: nat, v: Value, ss: seq<Value>, defs: Defs, key: string)
    requires key == "anyOf" || key == "oneOf"
    ensures Run(depth + 1, v, Obj(map[key := Arr(ss)]), defs) == Some(true) <==>
      exists i | 0 <= i < |ss| ::
        Run(depth, v, ss[i], defs) == Some(true) && forall j | 0 <= j < i :: Run(depth, v, ss[j], defs) == Some(false)
  {
    var s := Obj(map[key := Arr(ss)]);
    Parts(depth, v, s, defs);
    assert Members(s, "allOf") == [] && Members(s, key) == ss && Properties(s) == map[];
    assert RunAll(depth, v, Members(s, "allOf"), defs) == Some(true);
    AnyAdmits(depth, v, ss, defs);
  }

  lemma {:induction false} AnyAdmits(depth: nat, v: Value, ss: seq<Value>, defs: Defs)
    ensures RunAny(depth, v, ss, defs) == Some(true) <==>
      exists i | 0 <= i < |ss| ::
        Run(depth, v, ss[i], defs) == Some(true) && forall j | 0 <= j < i :: Run(depth, v, ss[j], defs) == Some(false)
  {
    if ss != [] {
      var rest := ss[1..];
      AnyAdmits(depth, v, rest, defs);
      assert forall i | 0 < i < |ss| :: ss[i] == rest[i - 1];
      if Run(depth, v, ss[0], defs) == Some(false) && RunAny(depth, v, rest, defs) == Some(true) {
        var i :| 0 <= i < |rest| && Run(depth, v, rest[i], defs) == Some(true)
                 && forall j | 0 <= j < i :: Run(depth, v, rest[j], defs) == Some(false);
        assert ss[i + 1] == rest[i];
      }
    }
  }

  /** One `$ref` to "#/$defs/n": what definition n gives; a name that is not defined asks for nothing. */
  lemma RefGives(depth: nat, v: Value, n: string, defs: Defs)
    ensures
      var s := Obj(map["$defs" := Obj(defs), "$ref" := Str("#/$defs/" + n)]);
      Verdict(depth + 1, v, s) == if n in defs then Run(depth, v, defs[n], defs) else Some(true)
  {
    var r := "#/$defs/" + n;
    assert r[..8] == "#/$defs/" && r[8..] == n;
    assert RefName(r) == Some(n);
  }

  /** A reference of any other form asks for nothing. */
  lemma ForeignRef(depth: nat, v: Value, r: string, defs: Defs)
    requires !("#/$defs/" <= r)
    ensures Verdict(depth + 1, v, Obj(map["$defs" := Obj(defs), "$ref" := Str(r)])) == Some(true)
  {
    assert |r| >= 8 ==> r[..8] != "#/$defs/";
  }

  /** What is no object is no schema, and admits everything. */
  lemma NoSchemaAdmits(depth: nat, v: Value, s: Value)
    requires depth > 0 && !s.Obj?
    ensures Verdict(depth, v, s) == Some(true)
  {
  }

  // ----- and all of them -----

  lemma NoSubschemas(depth: nat, v: Value, s: Value, defs: Defs)
    requires s.Obj? && Get(s, "allOf") == None && Get(s, "properties") == None && Get(s, "items") == None
    ensures RunAll(depth, v, Members(s, "allOf"), defs) == Some(true)
    ensures HasRequired(v, s) && RunProperties(depth, v, Properties(s), defs) == Some(true)
    ensures RunItems(depth, v, s, defs) == Some(true)
  {
    assert Members(s, "allOf") == [] && Properties(s) == map[];
  }

  /** The part of one combining keyword. */
  lemma CombinatorPart(depth: nat, v: Value, s: Value, defs: Defs, key: string)
    requires s.Obj? && key in {"allOf", "anyOf", "oneOf"}
    ensures Run(depth + 1, v, Only(s, {key}), defs) == Some(true) <==>
      if key == "allOf" then RunAll(depth, v, Members(s, key), defs) == Some(true)
      else Alternatives(s, key) ==> RunAny(depth, v, Members(s, key), defs) == Some(true)
  {
    var one := Only(s, {key});
    forall k
      ensures Get(one, k) == if k == key then Get(s, k) else None
    {
      OnlyReads(s, {key}, k);
    }
    Parts(depth, v, one, defs);
    if key != "allOf" {
      NoSubschemas(depth, v, one, defs);
    } else {
      assert Properties(one) == map[] && Members(one, key) == Members(s, key);
    }
  }

  lemma FlatPart(depth: nat, v: Value, s: Value, defs: Defs, key: string)
    requires s.Obj? && key in {"type", "const", "enum"}
    ensures Run(depth + 1, v, Only(s, {key}), defs) == Some(true) <==> FlatHolds(v, s, key)
  {
    var one := Only(s, {key});
    forall k
      ensures Get(one, k) == if k == key then Get(s, k) else None
    {
      OnlyReads(s, {key}, k);
    }
    Parts(depth, v, one, defs);
    NoSubschemas(depth, v, one, defs);
  }

  /** The part of one flat keyword. */
  predicate FlatHolds(v: Value, s: Value, key: string) {
    match key
    case "type" => AsStr(Get(s, "type")).Some? ==> MatchesType(v, AsStr(Get(s, "type")).value)
    case "const" => Get(s, "const").Some? ==> v == Get(s, "const").value
    case "enum" => AsArray(Get(s, "enum")).Some? ==> v in AsArray(Get(s, "enum")).value
    case _ => true
  }

  lemma MembersPart(depth: nat, v: Value, s: Value, defs: Defs)
    requires s.Obj?
    ensures Run(depth + 1, v, Only(s, {"properties", "required"}), defs) == Some(true) <==>
      HasRequired(v, s) && RunProperties(depth, v, Properties(s), defs) == Some(true)
  {
    var keys := {"properties", "required"};
    var some := Only(s, keys);
    forall k
      ensures Get(some, k) == if k in keys then Get(s, k) else None
    {
      OnlyReads(s, keys, k);
    }
    Parts(depth, v, some, defs);
    assert Members(some, "allOf") == [] && Properties(some) == Properties(s) && RequiredNames(some) == RequiredNames(s);
    assert RunAll(depth, v, Members(some, "allOf"), defs) == Some(true);
  }

  lemma ItemsPart(depth: nat, v: Value, s: Value, defs: Defs)
    requires s.Obj?
    ensures Run(depth + 1, v, Only(s, {"items"}), defs) == Some(true) <==> RunItems(depth, v, s, defs) == Some(true)
  {
    var one := Only(s, {"items"});
    forall k
      ensures Get(one, k) == if k == "items" then Get(s, k) else None
    {
      OnlyReads(s, {"items"}, k);
    }
    Parts(depth, v, one, defs);
    assert Members(one, "allOf") == [] && Properties(one) == map[];
    assert RunAll(depth, v, Members(one, "allOf"), defs) == Some(true);
  }

  /** What a keyword, or `properties` with `required`, asks of a value in the walk. */
  ghost predicate Part(depth: nat, v: Value, s: Value, defs: Defs, key: string) {
    match key
    case "properties" => HasRequired(v, s) && RunProperties(depth, v, Properties(s), defs) == Some(true)
    case "items" => RunItems(depth, v, s, defs) == Some(true)
    case "allOf" => RunAll(depth, v, Members(s, key), defs) == Some(true)
    case "anyOf" => Alternatives(s, key) ==> RunAny(depth, v, Members(s, key), defs) == Some(true)
    case "oneOf" => Alternatives(s, key) ==> RunAny(depth, v, Members(s, key), defs) == Some(true)
    case _ => FlatHolds(v, s, key)
  }

  const KEYWORDS := {"type", "const", "enum", "allOf", "anyOf", "oneOf", "items", "properties"}

  /** The keyword by itself; `properties` is read together with `required`. */
  function Alone(s: Value, key: string): Value
    requires s.Obj?
  {
    if key == "properties" then Only(s, {"properties", "required"}) else Only(s, {key})
  }

  lemma PartAlone(depth: nat, v: Value, s: Value, defs: Defs, key: string)
    requires s.Obj? && key in KEYWORDS
    ensures Run(depth + 1, v, Alone(s, key), defs) == Some(true) <==> Part(depth, v, s, defs, key)
  {
    if key in {"type", "const", "enum"} {
      FlatPart(depth, v, s, defs, key);
    } else if key in {"allOf", "anyOf", "oneOf"} {
      CombinatorPart(depth, v, s, defs, key);
    } else if key == "properties" {
      MembersPart(depth, v, s, defs);
    } else {
      ItemsPart(depth, v, s, defs);
    }
  }

  lemma PartsConjoin(depth: nat, v: Value, s: Value, defs: Defs)
    requires s.Obj? && AsStr(Get(s, "$ref")) == None
    ensures Run(depth + 1, v, s, defs) == Some(true) <==> forall key | key in KEYWORDS :: Part(depth, v, s, defs, key)
  {
    Parts(depth, v, s, defs);
    assert FlatKeywords(v, s) <==> FlatHolds(v, s, "type") && FlatHolds(v, s, "const") && FlatHolds(v, s, "enum");
    assert "type" in KEYWORDS && "const" in KEYWORDS && "enum" in KEYWORDS && "allOf" in KEYWORDS && "anyOf" in KEYWORDS
      && "oneOf" in KEYWORDS && "items" in KEYWORDS && "properties" in KEYWORDS;
  }

  /** A schema that is no reference admits a value exactly when each of its keywords does by itself; only `required`
      is read together with `properties`, and every other key counts for nothing. */
  lemma KeywordsConjoin(depth: nat, v: Value, s: Value, defs: Defs)
    requires s.Obj? && AsStr(Get(s, "$ref")) == None
    ensures Run(depth + 1, v, s, defs) == Some(true) <==>
      forall key | key in KEYWORDS :: Run(depth + 1, v, Alone(s, key), defs) == Some(true)
  {
    PartsConjoin(depth, v, s, defs);
    forall key | key in KEYWORDS
      ensures Run(depth + 1, v, Alone(s, key), defs) == Some(true) <==> Part(depth, v, s, defs, key)
    {
      PartAlone(depth, v, s, defs, key);
    }
  }
}
