/** The argument gate of the dispatch boundary (`validate.rs`), run on the table the generator emits. */
module ArgumentCheck {
  import opened Json
  import opened Schema
  import opened SchemaPruning

  /** An argument as the interface declares it, and as the generated table carries it. */
  datatype Declared = Declared(wire: string, required: bool, schema: Option<Value>)
  datatype Slot = Slot(wire: string, required: bool, text: Emission)

  /** `Unexpected` holds every undeclared name; the one reported is the first in map order. */
  datatype Outcome = Proceed | Missing(field: string) | Unexpected(fields: set<string>) | BadInput(field: string)

  function Generated(args: seq<Declared>): (slots: seq<Slot>)
    ensures |slots| == |args|
  {
    seq(|args|, i requires 0 <= i < |args| => Slot(args[i].wire, args[i].required, Emit(args[i].schema)))
  }

  // ------------------------------------------------------------- the gate

  function FirstMissing(slots: seq<Slot>, given: map<string, Value>): Option<string> {
    if slots == [] then None
    else if slots[0].required && slots[0].wire !in given then Some(slots[0].wire)
    else FirstMissing(slots[1..], given)
  }

  function Undeclared(slots: seq<Slot>, given: map<string, Value>): set<string> {
    set k | k in given && forall i | 0 <= i < |slots| :: slots[i].wire != k
  }

  /** The first argument whose value its schema refuses; nothing when the call depth is used up first. */
  ghost function FirstBad(depth: nat, slots: seq<Slot>, given: map<string, Value>): Option<Option<string>> {
    if slots == [] then Some(None)
    else if slots[0].wire !in given then FirstBad(depth, slots[1..], given)
    else
      match TextVerdict(depth, given[slots[0].wire], slots[0].text)
      case None => None
      case Some(true) => FirstBad(depth, slots[1..], given)
      case Some(false) => Some(Some(slots[0].wire))
  }

  /** `check`: what is missing, then what is undeclared, then what is malformed. */
  ghost function Check(depth: nat, slots: seq<Slot>, args: Value): Option<Outcome> {
    if !args.Obj? then Some(Proceed)
    else
      var missing := FirstMissing(slots, args.members);
      if missing.Some? then Some(Missing(missing.value))
      else if Undeclared(slots, args.members) != {} then Some(Unexpected(Undeclared(slots, args.members)))
      else
        var bad := FirstBad(depth, slots, args.members);
        if bad == None then None
        else if bad.value.Some? then Some(BadInput(bad.value.value))
        else Some(Proceed)
  }

  // ------------------------------------------------- what the interface asks for

  ghost predicate Allows(arg: Declared, v: Value)
    requires Sound(arg)
  {
    arg.schema.Some? ==> Accepts(v, arg.schema.value)
  }

  /** A declared schema the interpreter decides and pruning leaves alone in meaning. */
  ghost predicate Sound(arg: Declared) {
    arg.schema.Some? ==>
      var s := arg.schema.value;
      && Guarded(DefsOf(s)) && LiteralsSurvive(s)
      && forall n | n in DefsOf(s) :: LiteralsSurvive(DefsOf(s)[n])
  }

  ghost predicate AllSound(args: seq<Declared>) {
    forall i | 0 <= i < |args| :: Sound(args[i])
  }

  ghost predicate PresentBefore(args: seq<Declared>, given: map<string, Value>, n: nat)
    requires n <= |args|
  {
    forall i | 0 <= i < n :: args[i].required ==> args[i].wire in given
  }

  ghost predicate AllowedBefore(args: seq<Declared>, given: map<string, Value>, n: nat)
    requires n <= |args| && AllSound(args)
  {
    forall i | 0 <= i < n :: args[i].wire in given ==> Allows(args[i], given[args[i].wire])
  }

  function Foreign(args: seq<Declared>, given: map<string, Value>): set<string> {
    set k | k in given && forall i | 0 <= i < |args| :: args[i].wire != k
  }

  /** What the interface's own, unpruned, schemas say the outcome is. */
  ghost predicate Deserved(args: seq<Declared>, given: map<string, Value>, outcome: Outcome)
    requires AllSound(args)
  {
    var n := |args|;
    match outcome
    case Proceed => PresentBefore(args, given, n) && Foreign(args, given) == {} && AllowedBefore(args, given, n)
    case Missing(field) =>
      exists i | 0 <= i < n ::
        args[i].required && args[i].wire == field && field !in given && PresentBefore(args, given, i)
    case Unexpected(fields) => PresentBefore(args, given, n) && fields == Foreign(args, given) && fields != {}
    case BadInput(field) =>
      && PresentBefore(args, given, n) && Foreign(args, given) == {}
      && exists i | 0 <= i < n ::
        args[i].wire == field && field in given && !Allows(args[i], given[field]) && AllowedBefore(args, given, i)
  }

  // --------------------------------------------------------------- agreement

  lemma {:induction false} MissingFound(args: seq<Declared>, given: map<string, Value>, k: nat)
    requires k <= |args| && PresentBefore(args, given, k)
    ensures
      var missing := FirstMissing(Generated(args)[k..], given);
      if missing.None? then PresentBefore(args, given, |args|)
      else exists i | 0 <= i < |args| ::
        args[i].required && args[i].wire == missing.value && missing.value !in given && PresentBefore(args, given, i)
    decreases |args| - k
  {
    if k < |args| {
      assert Generated(args)[k..][0] == Generated(args)[k] && Generated(args)[k..][1..] == Generated(args)[k + 1..];
      if !(args[k].required && args[k].wire !in given) {
        MissingFound(args, given, k + 1);
      }
    }
  }

  lemma ForeignUndeclared(args: seq<Declared>, given: map<string, Value>)
    ensures Undeclared(Generated(args), given) == Foreign(args, given)
  {
    var slots := Generated(args);
    assert forall i | 0 <= i < |args| :: slots[i].wire == args[i].wire;
    forall k | k in given
      ensures (forall i | 0 <= i < |slots| :: slots[i].wire != k) <==> (forall i | 0 <= i < |args| :: args[i].wire != k)
    {
      if forall i | 0 <= i < |slots| :: slots[i].wire != k {
        forall i | 0 <= i < |args| ensures args[i].wire != k {
          assert slots[i].wire != k;
        }
      }
    }
  }

  /** From some call depth on, one emitted schema answers what the declared one means. */
  lemma SlotDecides(arg: Declared, v: Value) returns (d: nat)
    requires Sound(arg)
    ensures forall e: nat | e >= d :: TextVerdict(e, v, Emit(arg.schema)) == Some(Allows(arg, v))
  {
    if arg.schema.Some? {
      d := EmissionKeepsVerdict(v, arg.schema.value);
    } else {
      d := 0;
    }
  }

  /** The search for a refused value is settled at call depth `e`, from argument `k` on. */
  ghost predicate SearchOk(args: seq<Declared>, given: map<string, Value>, k: nat, e: nat)
    requires AllSound(args) && k <= |args|
  {
    match FirstBad(e, Generated(args)[k..], given)
    case None => false
    case Some(None) => AllowedBefore(args, given, |args|)
    case Some(Some(field)) =>
      exists i | 0 <= i < |args| ::
        args[i].wire == field && field in given && !Allows(args[i], given[field]) && AllowedBefore(args, given, i)
  }

  lemma {:induction false} BadFound(args: seq<Declared>, given: map<string, Value>, k: nat) returns (d: nat)
    requires AllSound(args) && k <= |args|
    ensures AllowedBefore(args, given, k) ==> forall e: nat | e >= d :: SearchOk(args, given, k, e)
    decreases |args| - k
  {
    if k == |args| {
      d := 0;
      assert Generated(args)[k..] == [];
    } else {
      var rest := BadFound(args, given, k + 1);
      assert Generated(args)[k..][0] == Generated(args)[k] && Generated(args)[k..][1..] == Generated(args)[k + 1..];
      if args[k].wire in given {
        var v := given[args[k].wire];
        var here := SlotDecides(args[k], v);
        d := rest + here;
        if AllowedBefore(args, given, k) {
          forall e: nat | e >= d
            ensures SearchOk(args, given, k, e)
          {
            assert TextVerdict(e, v, Emit(args[k].schema)) == Some(Allows(args[k], v));
            if Allows(args[k], v) {
              assert SearchOk(args, given, k + 1, e);
            }
          }
        }
      } else {
        d := rest;
        if AllowedBefore(args, given, k) {
          forall e: nat | e >= d
            ensures SearchOk(args, given, k, e)
          {
            assert SearchOk(args, given, k + 1, e);
          }
        }
      }
    }
  }

  /** With call depth enough, the gate that reads the generated table answers what the declared interface deserves:
      pruning the schemas changes no outcome and no reported field. */
  lemma GateFollowsInterface(args: seq<Declared>, given: map<string, Value>) returns (d: nat)
    requires AllSound(args)
    ensures forall e: nat | e >= d ::
      Check(e, Generated(args), Obj(given)).Some? && Deserved(args, given, Check(e, Generated(args), Obj(given)).value)
  {
    MissingFound(args, given, 0);
    assert Generated(args)[0..] == Generated(args);
    ForeignUndeclared(args, given);
    d := BadFound(args, given, 0);
    forall e: nat | e >= d
      ensures Check(e, Generated(args), Obj(given)).Some?
        && Deserved(args, given, Check(e, Generated(args), Obj(given)).value)
    {
      assert SearchOk(args, given, 0, e);
    }
  }

  /** At most one outcome is deserved, so the gate's is the one. */
  lemma DeservedIsUnique(args: seq<Declared>, given: map<string, Value>, a: Outcome, b: Outcome)
    requires AllSound(args) && Deserved(args, given, a) && Deserved(args, given, b)
    ensures a == b
  {
    match a {
      case Missing(field) =>
        var i :| 0 <= i < |args| && args[i].required && args[i].wire == field && field !in given
          && PresentBefore(args, given, i);
        assert !PresentBefore(args, given, |args|);
        var j :| 0 <= j < |args| && args[j].required && args[j].wire == b.field && b.field !in given
          && PresentBefore(args, given, j);
        assert i == j;
      case BadInput(field) =>
        var i :| 0 <= i < |args| && args[i].wire == field && field in given && !Allows(args[i], given[field])
          && AllowedBefore(args, given, i);
        assert !AllowedBefore(args, given, |args|);
        if b.BadInput? {
          var j :| 0 <= j < |args| && args[j].wire == b.field && b.field in given && !Allows(args[j], given[b.field])
            && AllowedBefore(args, given, j);
          assert i == j;
        }
      case _ =>
    }
  }
}
