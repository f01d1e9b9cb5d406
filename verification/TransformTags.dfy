/**
 * Transform tags: the static check at registration against the runtime walker (transform.go).
 *
 * The checker walks types, cutting cycles with the set of types it has seen;
 * the walker walks values. Soundness is that a type the checker accepts never
 * makes the walker fail, on any value, however deep and whatever the cycles.
 */
module TransformTags {
  import opened Common

  // ---------------------------------------------------------------------------
  // Types, tags and values
  // ---------------------------------------------------------------------------

  datatype Op = Trim | TrimLeft | TrimRight | Uppercase | Lowercase | RemoveEmpty | UnknownOp(name: string)

  datatype Rule = Rule(op: Op, param: string)

  type TypeId = nat

  /** tag: the rules of the field's transform tag, None where it has none. */
  datatype Field = Field(name: string, exported: bool, tag: Option<seq<Rule>>, typ: TypeId)

  datatype TypeDef =
    | StringType
    | StructType(fields: seq<Field>)
    | PointerType(elem: TypeId)
    | SliceType(elem: TypeId)
    | ArrayType(elem: TypeId, len: nat)
    | OtherType

  /** The types in play, by identity: a type may refer to itself through pointers and slices. */
  type Env = map<TypeId, TypeDef>

  predicate Refers(d: TypeDef, t: TypeId) {
    match d
    case StructType(fields) => exists f :: f in fields && f.typ == t
    case PointerType(elem) => elem == t
    case SliceType(elem) => elem == t
    case ArrayType(elem, _) => elem == t
    case _ => false
  }

  ghost predicate Closed(env: Env) { forall t, u :: t in env && Refers(env[t], u) ==> u in env }

  predicate IsStruct(env: Env, t: TypeId) { t in env && env[t].StructType? }

  predicate IsString(env: Env, t: TypeId) { t in env && env[t].StringType? }

  datatype Value =
    | Str(s: string)
    | Struct(fields: seq<Value>)
    | NilPointer
    | Pointer(target: Value)
    | NilSlice
    | Elements(elems: seq<Value>)  // of a slice or an array
    | Other

  ghost predicate HasType(env: Env, v: Value, t: TypeId)
    decreases v, 1
  {
    t in env &&
    match env[t]
    case StringType => v.Str?
    case StructType(fs) => v.Struct? && HaveTypes(env, v.fields, fs)
    case PointerType(elem) => v.NilPointer? || (v.Pointer? && HasType(env, v.target, elem))
    case SliceType(elem) => v.NilSlice? || (v.Elements? && AllHaveType(env, v.elems, elem))
    case ArrayType(elem, len) => v.Elements? && |v.elems| == len && AllHaveType(env, v.elems, elem)
    case OtherType => v.Other?
  }

  ghost predicate HaveTypes(env: Env, vs: seq<Value>, fs: seq<Field>)
    decreases vs, 0
  {
    |vs| == |fs| && forall i :: 0 <= i < |vs| ==> HasType(env, vs[i], fs[i].typ)
  }

  ghost predicate AllHaveType(env: Env, vs: seq<Value>, t: TypeId)
    decreases vs, 0
  {
    forall i :: 0 <= i < |vs| ==> HasType(env, vs[i], t)
  }

  /** How many nodes a value has, strings counting one whatever they hold. */
  function Size(v: Value): nat
    decreases v, 1
  {
    match v
    case Struct(fields) => 1 + Sizes(fields)
    case Pointer(target) => 1 + Size(target)
    case Elements(elems) => 1 + Sizes(elems)
    case _ => 1
  }

  function Sizes(vs: seq<Value>): nat
    decreases vs, 0
  {
    if vs == [] then 0 else Size(vs[0]) + Sizes(vs[1..])
  }

  // ---------------------------------------------------------------------------
  // String operations
  // ---------------------------------------------------------------------------

  /** The strings package, as far as the operations use it. */
  datatype Strings = Strings(
    trimSpace: string -> string,
    trimLeftSpace: string -> string,
    trimRightSpace: string -> string,
    trimLeft: (string, string) -> string,
    trimRight: (string, string) -> string,
    toUpper: string -> string,
    toLower: string -> string)

  datatype Error =
    | RemoveEmptyOnNonSlice(field: string)
    | NoSuchOp(field: string, op: string)
    | UnsupportedSlice(field: string)
    | UnsupportedType(field: string)

  datatype Result<+T> = Done(value: T) | Failed(error: Error)

  /** What one operation other than removeempty makes of a string. */
  function Changed(lib: Strings, s: string, r: Rule): string {
    match r.op
    case Trim => lib.trimSpace(s)
    case TrimLeft => if r.param == "" then lib.trimLeftSpace(s) else lib.trimLeft(s, r.param)
    case TrimRight => if r.param == "" then lib.trimRightSpace(s) else lib.trimRight(s, r.param)
    case Uppercase => lib.toUpper(s)
    case Lowercase => lib.toLower(s)
    case _ => s
  }

  /** applyStringOps, outside a slice or inside one. */
  function StringOps(lib: Strings, field: string, s: string, rules: seq<Rule>, inSlice: bool): Result<string>
    decreases |rules|
  {
    if rules == [] then Done(s)
    else if rules[0].op.UnknownOp? then Failed(NoSuchOp(field, rules[0].op.name))
    else if rules[0].op.RemoveEmpty? && !inSlice then Failed(RemoveEmptyOnNonSlice(field))
    else StringOps(lib, field, Changed(lib, s, rules[0]), rules[1..], inSlice)
  }

  function NonEmpty(xs: seq<string>): seq<string> {
    if xs == [] then []
    else NonEmpty(xs[..|xs| - 1]) + if xs[|xs| - 1] != "" then [xs[|xs| - 1]] else []
  }

  function AllChanged(lib: Strings, xs: seq<string>, r: Rule): seq<string> {
    seq(|xs|, i requires 0 <= i < |xs| => Changed(lib, xs[i], r))
  }

  /** applySliceStringOps, one rule after the other over the whole slice. */
  function SliceOps(lib: Strings, field: string, xs: seq<string>, rules: seq<Rule>): Result<seq<string>>
    decreases |rules|
  {
    if rules == [] then Done(xs)
    else if rules[0].op.RemoveEmpty? then SliceOps(lib, field, NonEmpty(xs), rules[1..])
    else if rules[0].op.UnknownOp? && xs != [] then Failed(NoSuchOp(field, rules[0].op.name))
    else SliceOps(lib, field, AllChanged(lib, xs, rules[0]), rules[1..])
  }

  /** What becomes of one element on its own. */
  datatype Fate = Kept(s: string) | Dropped | Refused(op: string)

  function FateOf(lib: Strings, x: string, rules: seq<Rule>): Fate
    decreases |rules|
  {
    if rules == [] then Kept(x)
    else if rules[0].op.RemoveEmpty? then if x == "" then Dropped else FateOf(lib, x, rules[1..])
    else if rules[0].op.UnknownOp? then Refused(rules[0].op.name)
    else FateOf(lib, Changed(lib, x, rules[0]), rules[1..])
  }

  function Survivors(lib: Strings, xs: seq<string>, rules: seq<Rule>): seq<string> {
    if xs == [] then []
    else
      var last := FateOf(lib, xs[|xs| - 1], rules);
      Survivors(lib, xs[..|xs| - 1], rules) + if last.Kept? then [last.s] else []
  }

  lemma {:induction false} SurvivorsAfterFilter(lib: Strings, xs: seq<string>, rules: seq<Rule>)
    requires rules != [] && rules[0].op.RemoveEmpty?
    ensures Survivors(lib, NonEmpty(xs), rules[1..]) == Survivors(lib, xs, rules)
  {
    if xs != [] {
      var init, x := xs[..|xs| - 1], xs[|xs| - 1];
      SurvivorsAfterFilter(lib, init, rules);
      if x != "" {
        assert NonEmpty(xs)[..|NonEmpty(xs)| - 1] == NonEmpty(init);
      } else {
        assert NonEmpty(xs) == NonEmpty(init);
      }
    }
  }

  lemma {:induction false} SurvivorsAfterChange(lib: Strings, xs: seq<string>, rules: seq<Rule>)
    requires rules != [] && !rules[0].op.RemoveEmpty? && !rules[0].op.UnknownOp?
    ensures Survivors(lib, AllChanged(lib, xs, rules[0]), rules[1..]) == Survivors(lib, xs, rules)
  {
    if xs != [] {
      var init := xs[..|xs| - 1];
      SurvivorsAfterChange(lib, init, rules);
      assert AllChanged(lib, xs, rules[0])[..|xs| - 1] == AllChanged(lib, init, rules[0]);
    }
  }

  lemma {:induction false} NonEmptyHolds(xs: seq<string>, x: string)
    ensures x in NonEmpty(xs) <==> x in xs && x != ""
  {
    if xs != [] {
      NonEmptyHolds(xs[..|xs| - 1], x);
      assert xs == xs[..|xs| - 1] + [xs[|xs| - 1]];
    }
  }

  /**
   * The rules run one after the other over the whole slice, yet each element fares as it would alone:
   * operations before removeempty run on every element, those after it only on the survivors.
   */
  lemma {:induction false} SliceIsElementwise(lib: Strings, field: string, xs: seq<string>, rules: seq<Rule>)
    ensures var r := SliceOps(lib, field, xs, rules);
      && (r.Done? <==> forall x :: x in xs ==> !FateOf(lib, x, rules).Refused?)
      && (r.Done? ==> r.value == Survivors(lib, xs, rules))
      && (r.Failed? ==> exists x :: x in xs && FateOf(lib, x, rules).Refused?
                                 && r.error == NoSuchOp(field, FateOf(lib, x, rules).op))
    decreases |rules|
  {
    if rules == [] {
      NothingToDo(lib, xs);
    } else if rules[0].op.RemoveEmpty? {
      SliceIsElementwise(lib, field, NonEmpty(xs), rules[1..]);
      SurvivorsAfterFilter(lib, xs, rules);
      forall x ensures x in NonEmpty(xs) <==> x in xs && x != "" { NonEmptyHolds(xs, x); }
    } else if rules[0].op.UnknownOp? {
      if xs == [] {
        SliceIsElementwise(lib, field, AllChanged(lib, xs, rules[0]), rules[1..]);
      } else {
        assert xs[0] in xs;
      }
    } else {
      var ys := AllChanged(lib, xs, rules[0]);
      SliceIsElementwise(lib, field, ys, rules[1..]);
      SurvivorsAfterChange(lib, xs, rules);
      assert forall i :: 0 <= i < |xs| ==> FateOf(lib, xs[i], rules) == FateOf(lib, ys[i], rules[1..]);
      assert forall i :: 0 <= i < |xs| ==> ys[i] in ys && xs[i] in xs;
    }
  }

  lemma {:induction false} NothingToDo(lib: Strings, xs: seq<string>)
    ensures Survivors(lib, xs, []) == xs
  {
    if xs != [] {
      NothingToDo(lib, xs[..|xs| - 1]);
      assert xs == xs[..|xs| - 1] + [xs[|xs| - 1]];
    }
  }

  lemma {:induction false} NonEmptyIsNoLonger(xs: seq<string>)
    ensures |NonEmpty(xs)| <= |xs|
  {
    if xs != [] { NonEmptyIsNoLonger(xs[..|xs| - 1]); }
  }

  /** The removeempty step: filters the first `live` strings of `out` into its own front, and says how many are left. */
  method FilterInPlace(out: array<string>, live: nat) returns (left: nat)
    requires live <= out.Length
    modifies out
    ensures left <= live && out[..left] == NonEmpty(old(out[..live]))
  {
    left := 0;
    ghost var all := out[..live];
    for i := 0 to live
      invariant left <= i && out[..left] == NonEmpty(all[..i])
      invariant forall j :: i <= j < live ==> out[j] == all[j]
    {
      assert all[..i + 1][..i] == all[..i];
      var s := out[i];
      if s != "" {
        out[left] := s;
        left := left + 1;
        assert out[..left] == NonEmpty(all[..i]) + [s];
      }
    }
    assert all[..live] == all;
  }

  /** applySliceStringOps: the buffer is rewritten and filtered in place, rule by rule. */
  method ApplySliceStringOps(lib: Strings, field: string, xs: seq<string>, rules: seq<Rule>)
    returns (r: Result<seq<string>>)
    ensures r == SliceOps(lib, field, xs, rules)
  {
    var out := new string[|xs|](i requires 0 <= i < |xs| => xs[i]);
    var live: nat := |xs|;
    assert out[..live] == xs;
    for k := 0 to |rules|
      invariant live <= out.Length
      invariant SliceOps(lib, field, out[..live], rules[k..]) == SliceOps(lib, field, xs, rules)
    {
      var rule := rules[k];
      ghost var before := out[..live];
      assert rules[k..][1..] == rules[k + 1..];
      if rule.op.RemoveEmpty? {
        live := FilterInPlace(out, live);
      } else {
        for i := 0 to live
          invariant rule.op.UnknownOp? ==> i == 0
          invariant forall j :: 0 <= j < i ==> out[j] == Changed(lib, before[j], rule)
          invariant forall j :: i <= j < live ==> out[j] == before[j]
        {
          if rule.op.UnknownOp? {
            return Failed(NoSuchOp(field, rule.op.name));
          }
          out[i] := Changed(lib, out[i], rule);
        }
        assert out[..live] == AllChanged(lib, before, rule);
      }
    }
    r := Done(out[..live]);
  }

  // ---------------------------------------------------------------------------
  // The walker
  // ---------------------------------------------------------------------------

  function RulesOf(f: Field): seq<Rule> { if f.tag.Some? then f.tag.value else [] }

  function StringsOf(v: Value): seq<string>
    requires v.NilSlice? || (v.Elements? && forall i :: 0 <= i < |v.elems| ==> v.elems[i].Str?)
  {
    if v.NilSlice? then [] else seq(|v.elems|, i requires 0 <= i < |v.elems| => v.elems[i].s)
  }

  function ToValues(xs: seq<string>): (vs: seq<Value>)
    ensures |vs| == |xs| && forall i :: 0 <= i < |xs| ==> vs[i] == Str(xs[i])
  {
    seq(|xs|, i requires 0 <= i < |xs| => Str(xs[i]))
  }

  lemma {:induction false} StringsCountOne(vs: seq<Value>)
    requires forall i :: 0 <= i < |vs| ==> vs[i].Str?
    ensures Sizes(vs) == |vs|
  {
    if vs != [] { StringsCountOne(vs[1..]); }
  }

  lemma {:induction false} SliceOpsIsNoLonger(lib: Strings, field: string, xs: seq<string>, rules: seq<Rule>)
    requires SliceOps(lib, field, xs, rules).Done?
    ensures |SliceOps(lib, field, xs, rules).value| <= |xs|
    decreases |rules|
  {
    if rules != [] {
      if rules[0].op.RemoveEmpty? {
        NonEmptyIsNoLonger(xs);
        SliceOpsIsNoLonger(lib, field, NonEmpty(xs), rules[1..]);
      } else {
        SliceOpsIsNoLonger(lib, field, AllChanged(lib, xs, rules[0]), rules[1..]);
      }
    }
  }

  /** applyFieldRules. A nil slice stays nil, and rules on a pointer to anything but a string do nothing. */
  function ApplyFieldRules(env: Env, lib: Strings, f: Field, v: Value): (r: Result<Value>)
    requires Closed(env) && HasType(env, v, f.typ)
    ensures r.Done? ==> HasType(env, r.value, f.typ) && Size(r.value) <= Size(v)
  {
    match env[f.typ]
    case StringType =>
      (match StringOps(lib, f.name, v.s, RulesOf(f), false)
       case Done(s) => Done(Str(s))
       case Failed(e) => Failed(e))
    case PointerType(elem) =>
      if v.NilPointer? || !IsString(env, elem) then Done(v)
      else
        assert HasType(env, v.target, elem);
        (match StringOps(lib, f.name, v.target.s, RulesOf(f), false)
         case Done(s) => Done(Pointer(Str(s)))
         case Failed(e) => Failed(e))
    case SliceType(elem) =>
      if !IsString(env, elem) then Failed(UnsupportedSlice(f.name))
      else
        assert v.Elements? ==> AllHaveType(env, v.elems, elem);
        assert v.Elements? ==> forall i :: 0 <= i < |v.elems| ==> HasType(env, v.elems[i], elem);
        (match SliceOps(lib, f.name, StringsOf(v), RulesOf(f))
         case Done(xs) =>
           SliceOpsIsNoLonger(lib, f.name, StringsOf(v), RulesOf(f));
           StringsCountOne(ToValues(xs));
           if v.NilSlice? then Done(v) else StringsCountOne(v.elems); Done(Elements(ToValues(xs)))
         case Failed(e) => Failed(e))
    case _ => Failed(UnsupportedType(f.name))
  }

  /** applyTransformsValue, on a struct. */
  function ApplyStruct(env: Env, lib: Strings, v: Value, t: TypeId): (r: Result<Value>)
    requires Closed(env) && IsStruct(env, t) && HasType(env, v, t)
    ensures r.Done? ==> HasType(env, r.value, t)
    decreases Size(v), 0
  {
    assert forall f :: f in env[t].fields ==> Refers(env[t], f.typ);
    match ApplyFields(env, lib, v.fields, env[t].fields)
    case Done(vs) => Done(Struct(vs))
    case Failed(e) => Failed(e)
  }

  function ApplyFields(env: Env, lib: Strings, vs: seq<Value>, fs: seq<Field>): (r: Result<seq<Value>>)
    requires Closed(env) && HaveTypes(env, vs, fs)
    ensures r.Done? ==> HaveTypes(env, r.value, fs)
    decreases Sizes(vs), 3
  {
    if vs == [] then Done([])
    else
      match ApplyField(env, lib, vs[0], fs[0])
      case Failed(e) => Failed(e)
      case Done(v) =>
        match ApplyFields(env, lib, vs[1..], fs[1..])
        case Failed(e) => Failed(e)
        case Done(rest) => Done([v] + rest)
  }

  function ApplyField(env: Env, lib: Strings, v: Value, f: Field): (r: Result<Value>)
    requires Closed(env) && HasType(env, v, f.typ)
    ensures r.Done? ==> HasType(env, r.value, f.typ)
    decreases Size(v), 2
  {
    if !f.exported then Done(v)
    else
      match if RulesOf(f) != [] then ApplyFieldRules(env, lib, f, v) else Done(v)
      case Failed(e) => Failed(e)
      case Done(ruled) => RecurseInto(env, lib, ruled, f.typ)
  }

  /** The element types of a slice or array that the walk goes into. */
  predicate Walkable(env: Env, t: TypeId) {
    IsStruct(env, t) || (t in env && env[t].PointerType? && IsStruct(env, env[t].elem))
  }

  /** recurseIntoField. */
  function RecurseInto(env: Env, lib: Strings, v: Value, t: TypeId): (r: Result<Value>)
    requires Closed(env) && HasType(env, v, t)
    ensures r.Done? ==> HasType(env, r.value, t)
    decreases Size(v), 1
  {
    match env[t]
    case StructType(_) => ApplyStruct(env, lib, v, t)
    case PointerType(elem) =>
      if v.NilPointer? || !IsStruct(env, elem) then Done(v)
      else
        (match ApplyStruct(env, lib, v.target, elem)
         case Done(target) => Done(Pointer(target))
         case Failed(e) => Failed(e))
    case SliceType(elem) =>
      if v.NilSlice? || !Walkable(env, elem) then Done(v)
      else
        (match ApplyElems(env, lib, v.elems, elem)
         case Done(elems) => Done(Elements(elems))
         case Failed(e) => Failed(e))
    case ArrayType(elem, _) =>
      if !Walkable(env, elem) then Done(v)
      else
        (match ApplyElems(env, lib, v.elems, elem)
         case Done(elems) => Done(Elements(elems))
         case Failed(e) => Failed(e))
    case _ => Done(v)
  }

  function ApplyElems(env: Env, lib: Strings, vs: seq<Value>, t: TypeId): (r: Result<seq<Value>>)
    requires Closed(env) && AllHaveType(env, vs, t)
    ensures r.Done? ==> |r.value| == |vs| && AllHaveType(env, r.value, t)
    decreases Sizes(vs), 3
  {
    if vs == [] then Done([])
    else
      match RecurseInto(env, lib, vs[0], t)
      case Failed(e) => Failed(e)
      case Done(v) =>
        match ApplyElems(env, lib, vs[1..], t)
        case Failed(e) => Failed(e)
        case Done(rest) => Done([v] + rest)
  }

  /** ApplyTransforms: through the pointers to a struct; anything else is left alone. */
  function ApplyTransforms(env: Env, lib: Strings, v: Value, t: TypeId): (r: Result<Value>)
    requires Closed(env) && HasType(env, v, t)
    ensures r.Done? ==> HasType(env, r.value, t)
    decreases v
  {
    match v
    case Pointer(target) =>
      (match ApplyTransforms(env, lib, target, env[t].elem)
       case Done(x) => Done(Pointer(x))
       case Failed(e) => Failed(e))
    case Struct(_) => ApplyStruct(env, lib, v, t)
    case _ => Done(v)
  }

  // ---------------------------------------------------------------------------
  // The checker
  // ---------------------------------------------------------------------------

  datatype CheckError =
    | TagOnUnsupportedType(field: string)
    | RemoveEmptyOnNonSliceField(field: string)
    | UnknownOpInTag(field: string, op: string)

  predicate IsStringField(env: Env, t: TypeId) {
    IsString(env, t) || (t in env && env[t].PointerType? && IsString(env, env[t].elem))
  }

  predicate IsStringSlice(env: Env, t: TypeId) { t in env && env[t].SliceType? && IsString(env, env[t].elem) }

  predicate RuleOk(r: Rule, inSlice: bool) { !r.op.UnknownOp? && (r.op.RemoveEmpty? ==> inSlice) }

  /** The struct type validateTransformTagsChildren goes on to. */
  function Child(env: Env, t: TypeId): Option<TypeId> {
    if t !in env then None
    else
      match env[t]
      case StructType(_) => Some(t)
      case PointerType(elem) => if IsStruct(env, elem) then Some(elem) else None
      case SliceType(elem) => ChildOfElem(env, elem)
      case ArrayType(elem, _) => ChildOfElem(env, elem)
      case _ => None
  }

  function ChildOfElem(env: Env, t: TypeId): Option<TypeId> {
    if IsStruct(env, t) then Some(t)
    else if t in env && env[t].PointerType? && IsStruct(env, env[t].elem) then Some(env[t].elem)
    else None
  }

  /** The tag on a field, if there is one, is on a type that takes it and has only operations the type takes. */
  ghost predicate TagOk(env: Env, f: Field) {
    f.tag.Some? ==>
      (IsStringField(env, f.typ) || IsStringSlice(env, f.typ)) &&
      forall r :: r in f.tag.value ==> RuleOk(r, IsStringSlice(env, f.typ))
  }

  ghost predicate FieldOk(env: Env, types: set<TypeId>, f: Field) {
    f.exported ==> TagOk(env, f) && (Child(env, f.typ).Some? ==> Child(env, f.typ).value in types)
  }

  /** The exported fields of t have good tags, and lead to nothing outside `types`. */
  ghost predicate Good(env: Env, types: set<TypeId>, t: TypeId) {
    IsStruct(env, t) && forall f :: f in env[t].fields ==> FieldOk(env, types, f)
  }

  ghost predicate AllGood(env: Env, types: set<TypeId>) { forall t :: t in types ==> Good(env, types, t) }

  /** Every struct type met from t on has good tags. */
  ghost predicate Safe(env: Env, t: TypeId) { exists types :: t in types && AllGood(env, types) }

  /** validateTransformTagOnField. */
  method CheckTag(env: Env, f: Field) returns (err: Option<CheckError>)
    requires f.tag.Some?
    ensures err.None? <==> TagOk(env, f)
  {
    var isStringSlice := IsStringSlice(env, f.typ);
    if !IsStringField(env, f.typ) && !isStringSlice {
      return Some(TagOnUnsupportedType(f.name));
    }
    var rules := f.tag.value;
    for i := 0 to |rules|
      invariant forall j :: 0 <= j < i ==> RuleOk(rules[j], isStringSlice)
    {
      assert rules[i] in rules;
      match rules[i].op {
        case RemoveEmpty =>
          if !isStringSlice { return Some(RemoveEmptyOnNonSliceField(f.name)); }
        case UnknownOp(op) =>
          return Some(UnknownOpInTag(f.name, op));
        case _ =>
      }
    }
    err := None;
  }

  class Checker {
    const env: Env
    var seen: set<TypeId>

    constructor (env: Env)
      ensures this.env == env && seen == {}
    {
      this.env, seen := env, {};
    }

    /** validateTransformTagsType. */
    method CheckType(t: TypeId) returns (err: Option<CheckError>)
      requires Closed(env) && IsStruct(env, t) && seen <= env.Keys
      modifies this
      ensures old(seen) <= seen <= env.Keys
      ensures err.None? ==> t in seen && forall s :: s in seen - old(seen) ==> Good(env, seen, s)
      ensures err.Some? ==> forall types :: AllGood(env, types) ==> t !in types
      decreases |env.Keys - seen|, 0
    {
      if t in seen { return None; }
      FewerLeft(env.Keys, seen, seen + {t});
      seen := seen + {t};
      var fields := env[t].fields;
      for i := 0 to |fields|
        invariant old(seen) + {t} <= seen <= env.Keys
        invariant forall s :: s in seen - old(seen) - {t} ==> Good(env, seen, s)
        invariant forall j :: 0 <= j < i ==> FieldOk(env, seen, fields[j])
      {
        ghost var before := seen;
        SubsetIsNoLarger(env.Keys - seen, env.Keys - old(seen) - {t});
        assert Refers(env[t], fields[i].typ);
        err := CheckField(fields[i]);
        if err.Some? {
          forall types | AllGood(env, types) ensures t !in types { assert t in types ==> Good(env, types, t); }
          return;
        }
        forall s | s in before - old(seen) - {t} ensures Good(env, seen, s) { GoodGrows(env, before, seen, s); }
      }
      err := None;
    }

    /** One round of its loop. */
    method CheckField(f: Field) returns (err: Option<CheckError>)
      requires Closed(env) && f.typ in env && seen <= env.Keys
      modifies this
      ensures old(seen) <= seen <= env.Keys
      ensures err.None? ==> FieldOk(env, seen, f) && forall s :: s in seen - old(seen) ==> Good(env, seen, s)
      ensures err.Some? ==> forall types :: AllGood(env, types) ==> !FieldOk(env, types, f)
      decreases |env.Keys - seen|, 2
    {
      if !f.exported { return None; }
      if f.tag.Some? {
        err := CheckTag(env, f);
        if err.Some? { return; }
      }
      err := CheckChildren(f.typ);
    }

    /** validateTransformTagsChildren. */
    method CheckChildren(t: TypeId) returns (err: Option<CheckError>)
      requires Closed(env) && t in env && seen <= env.Keys
      modifies this
      ensures old(seen) <= seen <= env.Keys
      ensures err.None? ==> forall s :: s in seen - old(seen) ==> Good(env, seen, s)
      ensures err.None? && Child(env, t).Some? ==> Child(env, t).value in seen
      ensures err.Some? ==> Child(env, t).Some? && forall types :: AllGood(env, types) ==> Child(env, t).value !in types
      decreases |env.Keys - seen|, 1
    {
      match env[t] {
        case StructType(_) => err := CheckType(t);
        case PointerType(elem) => if env[elem].StructType? { err := CheckType(elem); } else { err := None; }
        case SliceType(_) | ArrayType(_, _) =>
          var elem := env[t].elem;
          if env[elem].StructType? {
            err := CheckType(elem);
          } else if env[elem].PointerType? && env[env[elem].elem].StructType? {
            err := CheckType(env[elem].elem);
          } else {
            err := None;
          }
        case _ => err := None;
      }
    }
  }

  lemma GoodGrows(env: Env, types: set<TypeId>, more: set<TypeId>, t: TypeId)
    requires Good(env, types, t) && types <= more
    ensures Good(env, more, t)
  {
    forall f | f in env[t].fields ensures FieldOk(env, more, f) { assert FieldOk(env, types, f); }
  }

  /** A type that pointers lead out of after n steps: anything but `type P *P` and its like. */
  ghost predicate EndsAfter(env: Env, t: TypeId, n: nat)
    decreases n
  {
    t in env && if env[t].PointerType? then n > 0 && EndsAfter(env, env[t].elem, n - 1) else n == 0
  }

  /** The type n pointers lead to, or anything once they have led out. */
  ghost predicate Accepted(env: Env, t: TypeId, n: nat)
    requires EndsAfter(env, t, n)
    decreases n
  {
    if env[t].PointerType? then Accepted(env, env[t].elem, n - 1) else env[t].StructType? ==> Safe(env, t)
  }

  /** ValidateTransformTags: accepts exactly the types from which only good tags are met. */
  method ValidateTransformTags(env: Env, t: Option<TypeId>, ghost n: nat) returns (err: Option<CheckError>)
    requires Closed(env) && (t.Some? ==> EndsAfter(env, t.value, n))
    ensures err.None? <==> t.None? || Accepted(env, t.value, n)
  {
    if t.None? { return None; }
    var base := t.value;
    ghost var left := n;
    while env[base].PointerType?
      invariant EndsAfter(env, base, left) && (Accepted(env, t.value, n) <==> Accepted(env, base, left))
      decreases left
    {
      base, left := env[base].elem, left - 1;
    }
    if !env[base].StructType? { return None; }
    var checker := new Checker(env);
    err := checker.CheckType(base);
    if err.None? {
      assert AllGood(env, checker.seen);
    }
  }

  // ---------------------------------------------------------------------------
  // When a field's rules fail
  // ---------------------------------------------------------------------------

  /** The string operations fail or not whatever the string. */
  lemma {:induction false} StringOpsFailOnBadRulesOnly(lib: Strings, field: string, s: string, rules: seq<Rule>,
                                                       inSlice: bool)
    ensures StringOps(lib, field, s, rules, inSlice).Done? <==> forall r :: r in rules ==> RuleOk(r, inSlice)
    decreases |rules|
  {
    if rules != [] {
      assert rules == [rules[0]] + rules[1..];
      assert rules[0] in rules;
      assert forall r :: r in rules[1..] ==> r in rules;
      if RuleOk(rules[0], inSlice) {
        StringOpsFailOnBadRulesOnly(lib, field, Changed(lib, s, rules[0]), rules[1..], inSlice);
        assert forall r :: r in rules ==> r == rules[0] || r in rules[1..];
      }
    }
  }

  /** The rules before the first unknown operation. */
  function KnownPrefix(rules: seq<Rule>): seq<Rule> {
    if rules == [] || rules[0].op.UnknownOp? then [] else [rules[0]] + KnownPrefix(rules[1..])
  }

  predicate HasUnknown(rules: seq<Rule>) { exists r :: r in rules && r.op.UnknownOp? }

  ghost predicate HasBad(rules: seq<Rule>) { exists r :: r in rules && !RuleOk(r, false) }

  /** An element meets an unknown operation exactly if there is one and the rules before it keep the element. */
  lemma {:induction false} RefusedExactly(lib: Strings, x: string, rules: seq<Rule>)
    ensures FateOf(lib, x, rules).Refused? <==> HasUnknown(rules) && FateOf(lib, x, KnownPrefix(rules)).Kept?
    decreases |rules|
  {
    if rules != [] {
      assert rules == [rules[0]] + rules[1..] && rules[0] in rules;
      assert HasUnknown(rules) <==> rules[0].op.UnknownOp? || HasUnknown(rules[1..]);
      if !rules[0].op.UnknownOp? {
        var rest := KnownPrefix(rules)[1..];
        assert rest == KnownPrefix(rules[1..]);
        if !rules[0].op.RemoveEmpty? || x != "" {
          RefusedExactly(lib, if rules[0].op.RemoveEmpty? then x else Changed(lib, x, rules[0]), rules[1..]);
        }
      }
    }
  }

  lemma {:induction false} SurvivorsExist(lib: Strings, xs: seq<string>, rules: seq<Rule>)
    ensures Survivors(lib, xs, rules) != [] <==> exists x :: x in xs && FateOf(lib, x, rules).Kept?
  {
    if xs != [] {
      var init, last := xs[..|xs| - 1], xs[|xs| - 1];
      SurvivorsExist(lib, init, rules);
      assert xs == init + [last];
      assert last in xs && forall x :: x in xs <==> x in init || x == last;
    }
  }

  /** A slice fails exactly if some element is left when the first unknown operation is reached. */
  lemma SliceFailsExactly(lib: Strings, field: string, xs: seq<string>, rules: seq<Rule>)
    ensures SliceOps(lib, field, xs, rules).Failed? <==>
            HasUnknown(rules) && Survivors(lib, xs, KnownPrefix(rules)) != []
  {
    SliceIsElementwise(lib, field, xs, rules);
    SurvivorsExist(lib, xs, KnownPrefix(rules));
    forall x ensures FateOf(lib, x, rules).Refused? <==> HasUnknown(rules) && FateOf(lib, x, KnownPrefix(rules)).Kept? {
      RefusedExactly(lib, x, rules);
    }
  }

  /** What makes rules fail, over every type of field and every value of it. */
  ghost predicate FailsOn(env: Env, lib: Strings, f: Field, v: Value)
    requires Closed(env) && HasType(env, v, f.typ)
  {
    match env[f.typ]
    case StringType => HasBad(RulesOf(f))
    case PointerType(elem) => v.Pointer? && IsString(env, elem) && HasBad(RulesOf(f))
    case SliceType(elem) =>
      !IsString(env, elem) ||
      (StringsIn(env, v, f.typ); HasUnknown(RulesOf(f)) && Survivors(lib, StringsOf(v), KnownPrefix(RulesOf(f))) != [])
    case _ => true
  }

  lemma StringsIn(env: Env, v: Value, t: TypeId)
    requires HasType(env, v, t) && IsStringSlice(env, t)
    ensures v.NilSlice? || (v.Elements? && forall i :: 0 <= i < |v.elems| ==> v.elems[i].Str?)
  {
    if v.Elements? {
      assert AllHaveType(env, v.elems, env[t].elem);
      assert forall i :: 0 <= i < |v.elems| ==> HasType(env, v.elems[i], env[t].elem);
    }
  }

  /** Not every mismatch is an error: rules fail exactly then. */
  lemma FieldRulesFailExactly(env: Env, lib: Strings, f: Field, v: Value)
    requires Closed(env) && HasType(env, v, f.typ)
    ensures ApplyFieldRules(env, lib, f, v).Failed? <==> FailsOn(env, lib, f, v)
  {
    match env[f.typ]
    case StringType => StringOpsFailOnBadRulesOnly(lib, f.name, v.s, RulesOf(f), false);
    case PointerType(elem) =>
      if v.Pointer? && IsString(env, elem) {
        assert HasType(env, v.target, elem);
        StringOpsFailOnBadRulesOnly(lib, f.name, v.target.s, RulesOf(f), false);
      }
    case SliceType(elem) =>
      if IsString(env, elem) {
        StringsIn(env, v, f.typ);
        SliceFailsExactly(lib, f.name, StringsOf(v), RulesOf(f));
      }
    case _ =>
  }

  const POINTER_TO_OTHER: Env := map[0 := PointerType(1), 1 := OtherType]
  const STRING_SLICE: Env := map[0 := SliceType(1), 1 := StringType]

  /** Rules on a pointer to anything but a string do nothing, though the check refuses them. */
  lemma PointerRulesAreIgnored(lib: Strings)
    ensures var f := Field("F", true, Some([Rule(Trim, "")]), 0);
      !TagOk(POINTER_TO_OTHER, f) && ApplyFieldRules(POINTER_TO_OTHER, lib, f, Pointer(Other)) == Done(Pointer(Other))
  {
    assert HasType(POINTER_TO_OTHER, Other, 1);
  }

  /** An unknown operation on a slice that is empty by then goes unnoticed, though the check refuses it. */
  lemma UnknownOpMayGoUnnoticed(lib: Strings)
    ensures var f := Field("F", true, Some([Rule(RemoveEmpty, ""), Rule(UnknownOp("shout"), "")]), 0);
      !TagOk(STRING_SLICE, f) && ApplyFieldRules(STRING_SLICE, lib, f, Elements([Str("")])) == Done(Elements([]))
  {
    var rules := [Rule(RemoveEmpty, ""), Rule(UnknownOp("shout"), "")];
    assert rules[1] in rules;
    var v := Elements([Str("")]);
    assert HasType(STRING_SLICE, Str(""), 1) && AllHaveType(STRING_SLICE, v.elems, 1);
    assert StringsOf(v) == [""] && NonEmpty([""]) == [];
    assert SliceOps(lib, "F", [""], rules) == SliceOps(lib, "F", [], rules[1..]);
    assert SliceOps(lib, "F", [], rules[1..]) == SliceOps(lib, "F", AllChanged(lib, [], rules[1]), rules[1..][1..]);
    assert AllChanged(lib, [], rules[1]) == [];
    assert ToValues([]) == [];
  }

  /** Some string is left when the rules come to their first unknown operation. */
  ghost predicate LeavesSome(lib: Strings, rules: seq<Rule>) { exists x :: FateOf(lib, x, KnownPrefix(rules)).Kept? }

  /** A field on which some value makes the walker fail. */
  ghost predicate CanFail(env: Env, lib: Strings, f: Field) {
    RulesOf(f) != [] && f.typ in env &&
    match env[f.typ]
    case StringType => HasBad(RulesOf(f))
    case PointerType(elem) => IsString(env, elem) && HasBad(RulesOf(f))
    case SliceType(elem) => !IsString(env, elem) || (HasUnknown(RulesOf(f)) && LeavesSome(lib, RulesOf(f)))
    case _ => true
  }

  /** String operations that change nothing. */
  const PLAIN := Strings(s => s, s => s, s => s, (s, c) => s, (s, c) => s, s => s, s => s)

  lemma {:induction false} PlainKeeps(rules: seq<Rule>)
    ensures FateOf(PLAIN, "x", KnownPrefix(rules)) == Kept("x")
    decreases |rules|
  {
    if rules != [] && !rules[0].op.UnknownOp? {
      PlainKeeps(rules[1..]);
      assert KnownPrefix(rules)[1..] == KnownPrefix(rules[1..]);
      assert Changed(PLAIN, "x", rules[0]) == "x";
    }
  }

  /** The check refuses what can fail with some operations, and beyond that only tags on types that take none. */
  lemma TagCheckIsExact(env: Env, f: Field)
    requires Closed(env) && f.typ in env && f.tag.Some?
    ensures TagOk(env, f) <==>
            (forall lib :: !CanFail(env, lib, f)) && (IsStringField(env, f.typ) || IsStringSlice(env, f.typ))
  {
    assert RulesOf(f) == [] ==> !HasBad(RulesOf(f)) && !HasUnknown(RulesOf(f));
    PlainKeeps(RulesOf(f));
    assert LeavesSome(PLAIN, RulesOf(f));
    assert CanFail(env, PLAIN, f) || !CanFail(env, PLAIN, f);
  }

  lemma CannotFail(env: Env, lib: Strings, f: Field, v: Value)
    requires Closed(env) && HasType(env, v, f.typ) && RulesOf(f) != [] && !CanFail(env, lib, f)
    ensures ApplyFieldRules(env, lib, f, v).Done?
  {
    FieldRulesFailExactly(env, lib, f, v);
    if IsStringSlice(env, f.typ) {
      StringsIn(env, v, f.typ);
      SurvivorsExist(lib, StringsOf(v), KnownPrefix(RulesOf(f)));
    }
  }

  // ---------------------------------------------------------------------------
  // Soundness: what is accepted never fails
  // ---------------------------------------------------------------------------

  /** The struct type the walk goes on to, if some value of t takes it there: an array of no elements does not. */
  function LiveChild(env: Env, t: TypeId): Option<TypeId> {
    if t in env && env[t].ArrayType? && env[t].len == 0 then None else Child(env, t)
  }

  ghost predicate QuietField(env: Env, lib: Strings, types: set<TypeId>, f: Field) {
    f.exported ==> !CanFail(env, lib, f) && (LiveChild(env, f.typ).Some? ==> LiveChild(env, f.typ).value in types)
  }

  ghost predicate Quiet(env: Env, lib: Strings, types: set<TypeId>, t: TypeId) {
    IsStruct(env, t) && forall f :: f in env[t].fields ==> QuietField(env, lib, types, f)
  }

  /** No field of these types can fail, and the walk stays among them. */
  ghost predicate AllQuiet(env: Env, lib: Strings, types: set<TypeId>) {
    forall t :: t in types ==> Quiet(env, lib, types, t)
  }

  lemma GoodIsQuiet(env: Env, lib: Strings, types: set<TypeId>)
    requires Closed(env) && AllGood(env, types)
    ensures AllQuiet(env, lib, types)
  {
    forall t | t in types ensures Quiet(env, lib, types, t) {
      assert Good(env, types, t);
      forall f | f in env[t].fields ensures QuietField(env, lib, types, f) {
        assert FieldOk(env, types, f) && Refers(env[t], f.typ);
        if f.tag.Some? { TagCheckIsExact(env, f); }
      }
    }
  }

  lemma {:induction false} StructNeverFails(env: Env, lib: Strings, types: set<TypeId>, v: Value, t: TypeId)
    requires Closed(env) && AllQuiet(env, lib, types) && t in types && IsStruct(env, t) && HasType(env, v, t)
    ensures ApplyStruct(env, lib, v, t).Done?
    decreases Size(v), 0
  {
    assert Quiet(env, lib, types, t);
    FieldsNeverFail(env, lib, types, v.fields, env[t].fields);
  }

  lemma {:induction false} FieldsNeverFail(env: Env, lib: Strings, types: set<TypeId>, vs: seq<Value>, fs: seq<Field>)
    requires Closed(env) && AllQuiet(env, lib, types) && HaveTypes(env, vs, fs)
    requires forall f :: f in fs ==> QuietField(env, lib, types, f)
    ensures ApplyFields(env, lib, vs, fs).Done?
    decreases Sizes(vs), 3
  {
    if vs != [] {
      assert fs[0] in fs;
      forall f | f in fs[1..] ensures QuietField(env, lib, types, f) { assert f in fs; }
      FieldNeverFails(env, lib, types, vs[0], fs[0]);
      FieldsNeverFail(env, lib, types, vs[1..], fs[1..]);
    }
  }

  lemma {:induction false} FieldNeverFails(env: Env, lib: Strings, types: set<TypeId>, v: Value, f: Field)
    requires Closed(env) && AllQuiet(env, lib, types) && HasType(env, v, f.typ) && QuietField(env, lib, types, f)
    ensures ApplyField(env, lib, v, f).Done?
    decreases Size(v), 2
  {
    if f.exported {
      var ruled := v;
      if RulesOf(f) != [] {
        CannotFail(env, lib, f, v);
        ruled := ApplyFieldRules(env, lib, f, v).value;
      }
      ValueNeverFails(env, lib, types, ruled, f.typ);
    }
  }

  lemma {:induction false} ValueNeverFails(env: Env, lib: Strings, types: set<TypeId>, v: Value, t: TypeId)
    requires Closed(env) && AllQuiet(env, lib, types) && HasType(env, v, t)
    requires LiveChild(env, t).Some? ==> LiveChild(env, t).value in types
    ensures RecurseInto(env, lib, v, t).Done?
    decreases Size(v), 1
  {
    match env[t]
    case StructType(_) => StructNeverFails(env, lib, types, v, t);
    case PointerType(elem) =>
      if v.Pointer? && IsStruct(env, elem) { StructNeverFails(env, lib, types, v.target, elem); }
    case SliceType(elem) =>
      if v.Elements? && Walkable(env, elem) { ElemsNeverFail(env, lib, types, v.elems, elem); }
    case ArrayType(elem, _) =>
      if Walkable(env, elem) && v.elems != [] { ElemsNeverFail(env, lib, types, v.elems, elem); }
    case _ =>
  }

  lemma {:induction false} ElemsNeverFail(env: Env, lib: Strings, types: set<TypeId>, vs: seq<Value>, t: TypeId)
    requires Closed(env) && AllQuiet(env, lib, types) && AllHaveType(env, vs, t)
    requires LiveChild(env, t).Some? ==> LiveChild(env, t).value in types
    ensures ApplyElems(env, lib, vs, t).Done?
    decreases Sizes(vs), 3
  {
    if vs != [] {
      ValueNeverFails(env, lib, types, vs[0], t);
      ElemsNeverFail(env, lib, types, vs[1..], t);
    }
  }

  /** A type that passes the check at registration never makes the walker fail, whatever value a request brings. */
  lemma {:induction false} AcceptedNeverFails(env: Env, lib: Strings, v: Value, t: TypeId, n: nat)
    requires Closed(env) && EndsAfter(env, t, n) && Accepted(env, t, n) && HasType(env, v, t)
    ensures ApplyTransforms(env, lib, v, t).Done? && HasType(env, ApplyTransforms(env, lib, v, t).value, t)
    decreases v
  {
    match v
    case Pointer(target) => AcceptedNeverFails(env, lib, target, env[t].elem, n - 1);
    case Struct(_) =>
      var types :| t in types && AllGood(env, types);
      GoodIsQuiet(env, lib, types);
      StructNeverFails(env, lib, types, v, t);
    case _ =>
  }

  // ---------------------------------------------------------------------------
  // Safety as reachability
  // ---------------------------------------------------------------------------

  /** Struct types met one after the other, each a child of an exported field of the one before. */
  ghost predicate IsWalk(env: Env, p: seq<TypeId>) {
    p != [] && forall i :: 0 <= i < |p| - 1 ==> Leads(env, p[i], p[i + 1])
  }

  ghost predicate Leads(env: Env, t: TypeId, u: TypeId) {
    IsStruct(env, t) && exists f :: f in env[t].fields && f.exported && Child(env, f.typ) == Some(u)
  }

  ghost predicate Meets(env: Env, t: TypeId, u: TypeId) { exists p :: IsWalk(env, p) && p[0] == t && p[|p| - 1] == u }

  ghost predicate TagsOk(env: Env, t: TypeId) {
    IsStruct(env, t) && forall f :: f in env[t].fields && f.exported ==> TagOk(env, f)
  }

  lemma {:induction false} WalkStaysGood(env: Env, types: set<TypeId>, p: seq<TypeId>)
    requires AllGood(env, types) && IsWalk(env, p) && p[0] in types
    ensures p[|p| - 1] in types
    decreases |p|
  {
    if |p| > 1 {
      assert Leads(env, p[0], p[1]) && Good(env, types, p[0]);
      var f :| f in env[p[0]].fields && f.exported && Child(env, f.typ) == Some(p[1]);
      assert FieldOk(env, types, f);
      forall i | 0 <= i < |p[1..]| - 1 ensures Leads(env, p[1..][i], p[1..][i + 1]) {
        assert Leads(env, p[i + 1], p[i + 1 + 1]);
      }
      WalkStaysGood(env, types, p[1..]);
    }
  }

  lemma MeetsFurther(env: Env, t: TypeId, u: TypeId, w: TypeId)
    requires Meets(env, t, u) && Leads(env, u, w)
    ensures Meets(env, t, w)
  {
    var p :| IsWalk(env, p) && p[0] == t && p[|p| - 1] == u;
    var q := p + [w];
    forall i | 0 <= i < |q| - 1 ensures Leads(env, q[i], q[i + 1]) {
      assert i < |p| - 1 ==> Leads(env, p[i], p[i + 1]);
    }
    assert IsWalk(env, q) && q[0] == t && q[|q| - 1] == w;
  }

  /** The check accepts exactly when every struct type that can be met has good tags. */
  lemma SafeIsReachability(env: Env, t: TypeId)
    requires Closed(env) && IsStruct(env, t)
    ensures Safe(env, t) <==> forall u :: Meets(env, t, u) ==> TagsOk(env, u)
  {
    if Safe(env, t) {
      var types :| t in types && AllGood(env, types);
      forall u | Meets(env, t, u) ensures TagsOk(env, u) {
        var p :| IsWalk(env, p) && p[0] == t && p[|p| - 1] == u;
        WalkStaysGood(env, types, p);
        assert Good(env, types, u);
        assert forall f :: f in env[u].fields ==> FieldOk(env, types, f);
      }
    }
    if forall u :: Meets(env, t, u) ==> TagsOk(env, u) {
      var types := set u | u in env && Meets(env, t, u);
      assert IsWalk(env, [t]) && [t][0] == t;
      forall u | u in types ensures Good(env, types, u) {
        assert TagsOk(env, u);
        forall f | f in env[u].fields ensures FieldOk(env, types, f) {
          if f.exported && Child(env, f.typ).Some? {
            var w := Child(env, f.typ).value;
            assert Leads(env, u, w);
            MeetsFurther(env, t, u, w);
          }
        }
      }
      assert t in types;
    }
  }

  // ---------------------------------------------------------------------------
  // What the walk rewrites
  // ---------------------------------------------------------------------------

  datatype Step = ToField(i: nat) | ToTarget | ToElem(i: nat)

  /** The part of a value at a path. */
  function Get(v: Value, p: seq<Step>): Option<Value> {
    if p == [] then Some(v)
    else
      match (v, p[0])
      case (Struct(fields), ToField(i)) => if i < |fields| then Get(fields[i], p[1..]) else None
      case (Pointer(target), ToTarget) => Get(target, p[1..])
      case (Elements(elems), ToElem(i)) => if i < |elems| then Get(elems[i], p[1..]) else None
      case _ => None
  }

  /** What the tags say of the string, or the string slice, at a path. */
  datatype Treatment = Untouched | Rewritten(rules: seq<Rule>) | Filtered(rules: seq<Rule>) | NotALeaf

  function FieldTreatment(env: Env, f: Field, p: seq<Step>): Treatment
    decreases |p|, 1
  {
    if f.exported then Treat(env, f.typ, p, RulesOf(f)) else Untouched
  }

  function Treat(env: Env, t: TypeId, p: seq<Step>, rules: seq<Rule>): Treatment
    decreases |p|, 0
  {
    if t !in env then NotALeaf
    else
      match env[t]
      case StringType => Rewritten(rules)
      case StructType(fs) =>
        if p != [] && p[0].ToField? && p[0].i < |fs| then FieldTreatment(env, fs[p[0].i], p[1..]) else NotALeaf
      case PointerType(elem) =>
        if p == [] then NotALeaf
        else if IsStruct(env, elem) then Treat(env, elem, p[1..], [])
        else if IsString(env, elem) then Rewritten(rules)
        else Untouched
      case SliceType(elem) =>
        if p == [] then if IsString(env, elem) then Filtered(rules) else NotALeaf
        else if Walkable(env, elem) then Treat(env, elem, p[1..], [])
        else if IsString(env, elem) then NotALeaf
        else Untouched
      case ArrayType(elem, _) =>
        if p == [] then NotALeaf else if Walkable(env, elem) then Treat(env, elem, p[1..], []) else Untouched
      case OtherType => Untouched
  }

  /** One string through all its rules. */
  function Through(lib: Strings, s: string, rules: seq<Rule>): string
    decreases |rules|
  {
    if rules == [] then s else Through(lib, Changed(lib, s, rules[0]), rules[1..])
  }

  lemma {:induction false} StringOpsGoThrough(lib: Strings, field: string, s: string, rules: seq<Rule>, inSlice: bool)
    requires StringOps(lib, field, s, rules, inSlice).Done?
    ensures StringOps(lib, field, s, rules, inSlice).value == Through(lib, s, rules)
    decreases |rules|
  {
    if rules != [] { StringOpsGoThrough(lib, field, Changed(lib, s, rules[0]), rules[1..], inSlice); }
  }

  /** before and after: a string rewritten by its rules, a string slice filtered by them, anything else as it was. */
  ghost predicate Treated(lib: Strings, treatment: Treatment, before: Option<Value>, after: Option<Value>) {
    match treatment
    case Untouched => after == before
    case Rewritten(rules) =>
      before.Some? && before.value.Str? ==> after == Some(Str(Through(lib, before.value.s, rules)))
    case Filtered(rules) =>
      before.Some? ==>
        if before.value.Elements? && (forall i :: 0 <= i < |before.value.elems| ==> before.value.elems[i].Str?)
        then after == Some(Elements(ToValues(Survivors(lib, StringsOf(before.value), rules))))
        else after == before
    case NotALeaf => true
  }

  lemma {:induction false} FieldsOneByOne(env: Env, lib: Strings, vs: seq<Value>, fs: seq<Field>, i: nat)
    requires Closed(env) && HaveTypes(env, vs, fs) && i < |vs| && ApplyFields(env, lib, vs, fs).Done?
    ensures ApplyField(env, lib, vs[i], fs[i]) == Done(ApplyFields(env, lib, vs, fs).value[i])
    decreases |vs|
  {
    if i > 0 { FieldsOneByOne(env, lib, vs[1..], fs[1..], i - 1); }
  }

  lemma {:induction false} ElemsOneByOne(env: Env, lib: Strings, vs: seq<Value>, t: TypeId, i: nat)
    requires Closed(env) && AllHaveType(env, vs, t) && i < |vs| && ApplyElems(env, lib, vs, t).Done?
    ensures RecurseInto(env, lib, vs[i], t) == Done(ApplyElems(env, lib, vs, t).value[i])
    decreases |vs|
  {
    if i > 0 { ElemsOneByOne(env, lib, vs[1..], t, i - 1); }
  }

  lemma {:induction false} StructTreated(env: Env, lib: Strings, v: Value, t: TypeId, p: seq<Step>)
    requires Closed(env) && IsStruct(env, t) && HasType(env, v, t) && ApplyStruct(env, lib, v, t).Done?
    ensures Treated(lib, Treat(env, t, p, []), Get(v, p), Get(ApplyStruct(env, lib, v, t).value, p))
    decreases |p|, 0
  {
    if p != [] && p[0].ToField? && p[0].i < |env[t].fields| {
      FieldsOneByOne(env, lib, v.fields, env[t].fields, p[0].i);
      assert HaveTypes(env, v.fields, env[t].fields);
      FieldTreated(env, lib, v.fields[p[0].i], env[t].fields[p[0].i], p[1..]);
    }
  }

  lemma {:induction false} FieldTreated(env: Env, lib: Strings, v: Value, f: Field, p: seq<Step>)
    requires Closed(env) && HasType(env, v, f.typ) && ApplyField(env, lib, v, f).Done?
    ensures Treated(lib, FieldTreatment(env, f, p), Get(v, p), Get(ApplyField(env, lib, v, f).value, p))
    decreases |p|, 2
  {
    if f.exported {
      if IsString(env, f.typ) || IsStringField(env, f.typ) || IsStringSlice(env, f.typ) {
        LeafTreated(env, lib, v, f, p);
      } else {
        ValueTreated(env, lib, v, f.typ, p, RulesOf(f));
      }
    }
  }

  lemma LeafTreated(env: Env, lib: Strings, v: Value, f: Field, p: seq<Step>)
    requires Closed(env) && HasType(env, v, f.typ) && ApplyField(env, lib, v, f).Done? && f.exported
    requires IsStringField(env, f.typ) || IsStringSlice(env, f.typ)
    ensures Treated(lib, Treat(env, f.typ, p, RulesOf(f)), Get(v, p), Get(ApplyField(env, lib, v, f).value, p))
  {
    var rules := RulesOf(f);
    match env[f.typ]
    case StringType =>
      if rules != [] { StringOpsGoThrough(lib, f.name, v.s, rules, false); }
    case PointerType(elem) =>
      if v.Pointer? {
        assert HasType(env, v.target, elem);
        if rules != [] { StringOpsGoThrough(lib, f.name, v.target.s, rules, false); }
      }
    case SliceType(elem) =>
      assert v.Elements? ==> AllHaveType(env, v.elems, elem);
      assert v.Elements? ==> forall i :: 0 <= i < |v.elems| ==> HasType(env, v.elems[i], elem);
      SliceIsElementwise(lib, f.name, StringsOf(v), rules);
      if rules == [] && v.Elements? {
        NothingToDo(lib, StringsOf(v));
        assert v.elems == ToValues(StringsOf(v));
      }
    case _ =>
  }

  /** Rules do nothing to a value of any other type, and the walk goes on. */
  lemma {:induction false} ValueTreated(env: Env, lib: Strings, v: Value, t: TypeId, p: seq<Step>, rules: seq<Rule>)
    requires Closed(env) && HasType(env, v, t) && RecurseInto(env, lib, v, t).Done?
    requires rules == [] || (!IsStringField(env, t) && !IsStringSlice(env, t))
    ensures Treated(lib, Treat(env, t, p, rules), Get(v, p), Get(RecurseInto(env, lib, v, t).value, p))
    decreases |p|, 1
  {
    match env[t]
    case StructType(_) => StructTreated(env, lib, v, t, p);
    case PointerType(elem) =>
      if p != [] && IsStruct(env, elem) && v.Pointer? && p[0].ToTarget? {
        StructTreated(env, lib, v.target, elem, p[1..]);
      }
    case SliceType(elem) => ElemTreated(env, lib, v, t, p, rules);
    case ArrayType(elem, _) => ElemTreated(env, lib, v, t, p, rules);
    case _ =>
  }

  lemma {:induction false} ElemTreated(env: Env, lib: Strings, v: Value, t: TypeId, p: seq<Step>, rules: seq<Rule>)
    requires Closed(env) && HasType(env, v, t) && RecurseInto(env, lib, v, t).Done?
    requires env[t].SliceType? || env[t].ArrayType?
    requires rules == [] || !IsStringSlice(env, t)
    ensures Treated(lib, Treat(env, t, p, rules), Get(v, p), Get(RecurseInto(env, lib, v, t).value, p))
    decreases |p|, 0
  {
    var elem := env[t].elem;
    if v.Elements? {
      assert AllHaveType(env, v.elems, elem);
      assert forall i :: 0 <= i < |v.elems| ==> HasType(env, v.elems[i], elem);
      if p == [] {
        if IsStringSlice(env, t) {
          NothingToDo(lib, StringsOf(v));
          assert v.elems == ToValues(StringsOf(v));
        }
      } else if Walkable(env, elem) && p[0].ToElem? && p[0].i < |v.elems| {
        ElemsOneByOne(env, lib, v.elems, elem, p[0].i);
        ValueTreated(env, lib, v.elems[p[0].i], elem, p[1..], []);
      }
    }
  }
}
