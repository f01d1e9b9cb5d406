/**
 * The walker fails on some value of a type exactly if a field that can fail
 * is reachable from it (transform.go). The static check refuses such types,
 * and beyond them only types with a tag that nothing would ever run.
 */
module TransformExact {
  import opened Common
  import opened TransformTags

  // ---------------------------------------------------------------------------
  // Values to fail on
  // ---------------------------------------------------------------------------

  /** No type contains itself by value, as Go requires; rank orders the types by what they contain. */
  ghost predicate Grounded(env: Env, rank: map<TypeId, nat>) {
    && (forall t :: t in env ==> t in rank)
    && (forall t, f :: t in env && env[t].StructType? && f in env[t].fields ==> f.typ in rank && rank[f.typ] < rank[t])
    && (forall t :: t in env && env[t].ArrayType? && env[t].len > 0 ==>
        env[t].elem in rank && rank[env[t].elem] < rank[t])
  }

  function Repeat<T>(x: T, n: nat): (s: seq<T>)
    ensures |s| == n && forall i :: 0 <= i < n ==> s[i] == x
  {
    seq(n, i => x)
  }

  /** The zero value of a type. */
  ghost function Zero(env: Env, rank: map<TypeId, nat>, t: TypeId): (v: Value)
    requires Closed(env) && Grounded(env, rank) && t in env
    ensures HasType(env, v, t)
    decreases rank[t]
  {
    assert forall u :: Refers(env[t], u) ==> u in env;
    match env[t]
    case StringType => Str("")
    case StructType(fs) =>
      assert forall f :: f in fs ==> Refers(env[t], f.typ);
      Struct(seq(|fs|, i requires 0 <= i < |fs| => Zero(env, rank, fs[i].typ)))
    case PointerType(_) => NilPointer
    case SliceType(_) => NilSlice
    case ArrayType(elem, len) =>
      if len == 0 then Elements([])
      else
        var elems := Repeat(Zero(env, rank, elem), len);
        assert AllHaveType(env, elems, elem);
        Elements(elems)
    case OtherType => Other
  }

  /** A string that rules leave when they come to their first unknown operation, if there is one. */
  ghost function Lasting(lib: Strings, rules: seq<Rule>): (x: string)
    ensures LeavesSome(lib, rules) ==> FateOf(lib, x, KnownPrefix(rules)).Kept?
  {
    if x :| FateOf(lib, x, KnownPrefix(rules)).Kept? then x else ""
  }

  /** A value of a field's type on which its rules fail. */
  ghost function BadValue(env: Env, lib: Strings, rank: map<TypeId, nat>, f: Field): (v: Value)
    requires Closed(env) && Grounded(env, rank) && f.typ in env
  {
    match env[f.typ]
    case PointerType(elem) => if IsString(env, elem) then Pointer(Str("")) else NilPointer
    case SliceType(elem) => if IsString(env, elem) then Elements([Str(Lasting(lib, RulesOf(f)))]) else NilSlice
    case _ => Zero(env, rank, f.typ)
  }

  lemma BadValueFails(env: Env, lib: Strings, rank: map<TypeId, nat>, f: Field)
    requires Closed(env) && Grounded(env, rank) && CanFail(env, lib, f)
    ensures HasType(env, BadValue(env, lib, rank, f), f.typ)
    ensures ApplyFieldRules(env, lib, f, BadValue(env, lib, rank, f)).Failed?
  {
    var v := BadValue(env, lib, rank, f);
    assert forall u :: Refers(env[f.typ], u) ==> u in env;
    match env[f.typ] {
      case PointerType(elem) =>
        assert HasType(env, Str(""), elem);
      case SliceType(elem) =>
        if IsString(env, elem) {
          var x := Lasting(lib, RulesOf(f));
          assert HasType(env, Str(x), elem) && AllHaveType(env, v.elems, elem);
          assert StringsOf(v) == [x] && x in [x];
          SurvivorsExist(lib, [x], KnownPrefix(RulesOf(f)));
        }
      case _ =>
    }
    FieldRulesFailExactly(env, lib, f, v);
  }

  // ---------------------------------------------------------------------------
  // Leading the walk to it
  // ---------------------------------------------------------------------------

  /** A value of t that takes the walk to w. */
  ghost function Holding(env: Env, t: TypeId, w: Value): Value
    requires Closed(env) && LiveChild(env, t).Some?
  {
    match env[t]
    case PointerType(_) => Pointer(w)
    case SliceType(elem) => Elements([if IsStruct(env, elem) then w else Pointer(w)])
    case ArrayType(elem, len) => Elements(Repeat(if IsStruct(env, elem) then w else Pointer(w), len))
    case _ => w
  }

  lemma HoldingFails(env: Env, lib: Strings, t: TypeId, w: Value)
    requires Closed(env) && LiveChild(env, t).Some?
    requires HasType(env, w, LiveChild(env, t).value) && ApplyStruct(env, lib, w, LiveChild(env, t).value).Failed?
    ensures HasType(env, Holding(env, t, w), t) && RecurseInto(env, lib, Holding(env, t, w), t).Failed?
  {
    var v := Holding(env, t, w);
    match env[t]
    case SliceType(elem) => ElementFails(env, lib, elem, w, v.elems);
    case ArrayType(elem, _) => ElementFails(env, lib, elem, w, v.elems);
    case _ =>
  }

  lemma ElementFails(env: Env, lib: Strings, elem: TypeId, w: Value, vs: seq<Value>)
    requires Closed(env) && ChildOfElem(env, elem).Some? && vs != []
    requires HasType(env, w, ChildOfElem(env, elem).value)
             && ApplyStruct(env, lib, w, ChildOfElem(env, elem).value).Failed?
    requires forall i :: 0 <= i < |vs| ==> vs[i] == if IsStruct(env, elem) then w else Pointer(w)
    ensures AllHaveType(env, vs, elem) && ApplyElems(env, lib, vs, elem).Failed?
  {
    forall i | 0 <= i < |vs| ensures HasType(env, vs[i], elem) {
    }
    assert RecurseInto(env, lib, vs[0], elem).Failed?;
  }

  lemma {:induction false} OneFieldFails(env: Env, lib: Strings, vs: seq<Value>, fs: seq<Field>, i: nat)
    requires Closed(env) && HaveTypes(env, vs, fs) && i < |vs| && ApplyField(env, lib, vs[i], fs[i]).Failed?
    ensures ApplyFields(env, lib, vs, fs).Failed?
    decreases |vs|
  {
    if i > 0 { OneFieldFails(env, lib, vs[1..], fs[1..], i - 1); }
  }

  /** A struct that is zero but for one field, on which the walker fails. */
  lemma StructAround(env: Env, lib: Strings, rank: map<TypeId, nat>, t: TypeId, k: nat, w: Value) returns (v: Value)
    requires Closed(env) && Grounded(env, rank) && IsStruct(env, t) && k < |env[t].fields|
    requires HasType(env, w, env[t].fields[k].typ) && ApplyField(env, lib, w, env[t].fields[k]).Failed?
    ensures HasType(env, v, t) && ApplyStruct(env, lib, v, t).Failed?
  {
    var fs := env[t].fields;
    var zero := Zero(env, rank, t);
    assert HaveTypes(env, zero.fields, fs);
    v := Struct(zero.fields[k := w]);
    assert forall i :: 0 <= i < |fs| ==> HasType(env, zero.fields[i], fs[i].typ);
    assert HaveTypes(env, v.fields, fs);
    OneFieldFails(env, lib, v.fields, fs, k);
  }

  /** A field's own rules, if it has any, leave a value that holds a struct as it is, or fail. */
  lemma HeldValueFails(env: Env, lib: Strings, f: Field, w: Value)
    requires Closed(env) && f.exported && f.typ in env && LiveChild(env, f.typ).Some?
    requires HasType(env, w, LiveChild(env, f.typ).value)
             && ApplyStruct(env, lib, w, LiveChild(env, f.typ).value).Failed?
    ensures HasType(env, Holding(env, f.typ, w), f.typ) && ApplyField(env, lib, Holding(env, f.typ, w), f).Failed?
  {
    HoldingFails(env, lib, f.typ, w);
  }

  // ---------------------------------------------------------------------------
  // Exactly when
  // ---------------------------------------------------------------------------

  /** Struct types met one after the other by the walk over some value. */
  ghost predicate IsLiveWalk(env: Env, p: seq<TypeId>) {
    p != [] && forall i :: 0 <= i < |p| - 1 ==> LeadsLive(env, p[i], p[i + 1])
  }

  ghost predicate LeadsLive(env: Env, t: TypeId, u: TypeId) {
    IsStruct(env, t) && exists f :: f in env[t].fields && f.exported && LiveChild(env, f.typ) == Some(u)
  }

  ghost predicate MeetsLive(env: Env, t: TypeId, u: TypeId) {
    exists p :: IsLiveWalk(env, p) && p[0] == t && p[|p| - 1] == u
  }

  /** A struct type with an exported field that can fail. */
  ghost predicate Fragile(env: Env, lib: Strings, t: TypeId) {
    IsStruct(env, t) && exists f :: f in env[t].fields && f.exported && CanFail(env, lib, f)
  }

  lemma RestIsLiveWalk(env: Env, p: seq<TypeId>)
    requires IsLiveWalk(env, p) && |p| > 1
    ensures LeadsLive(env, p[0], p[1]) && IsLiveWalk(env, p[1..])
  {
    var rest := p[1..];
    forall i | 0 <= i < |rest| - 1 ensures LeadsLive(env, rest[i], rest[i + 1]) {
      assert LeadsLive(env, p[i + 1], p[i + 1 + 1]);
    }
  }

  lemma FragileValue(env: Env, lib: Strings, rank: map<TypeId, nat>, t: TypeId) returns (v: Value)
    requires Closed(env) && Grounded(env, rank) && Fragile(env, lib, t)
    ensures HasType(env, v, t) && ApplyStruct(env, lib, v, t).Failed?
  {
    var f :| f in env[t].fields && f.exported && CanFail(env, lib, f);
    var k :| 0 <= k < |env[t].fields| && env[t].fields[k] == f;
    BadValueFails(env, lib, rank, f);
    v := StructAround(env, lib, rank, t, k, BadValue(env, lib, rank, f));
  }

  lemma LeadingValue(env: Env, lib: Strings, rank: map<TypeId, nat>, t: TypeId, u: TypeId, w: Value) returns (v: Value)
    requires Closed(env) && Grounded(env, rank) && LeadsLive(env, t, u)
    requires HasType(env, w, u) && IsStruct(env, u) && ApplyStruct(env, lib, w, u).Failed?
    ensures HasType(env, v, t) && ApplyStruct(env, lib, v, t).Failed?
  {
    var f :| f in env[t].fields && f.exported && LiveChild(env, f.typ) == Some(u);
    assert Refers(env[t], f.typ);
    var k :| 0 <= k < |env[t].fields| && env[t].fields[k] == f;
    HeldValueFails(env, lib, f, w);
    v := StructAround(env, lib, rank, t, k, Holding(env, f.typ, w));
  }

  /** Built from the fragile type back along the path to it. */
  lemma {:induction false} FailingValue(env: Env, lib: Strings, rank: map<TypeId, nat>, p: seq<TypeId>)
    returns (v: Value)
    requires Closed(env) && Grounded(env, rank) && IsLiveWalk(env, p) && Fragile(env, lib, p[|p| - 1])
    ensures IsStruct(env, p[0]) && HasType(env, v, p[0]) && ApplyStruct(env, lib, v, p[0]).Failed?
    decreases |p|
  {
    if |p| == 1 {
      v := FragileValue(env, lib, rank, p[0]);
    } else {
      RestIsLiveWalk(env, p);
      var w := FailingValue(env, lib, rank, p[1..]);
      v := LeadingValue(env, lib, rank, p[0], p[1], w);
    }
  }

  lemma MeetsLiveFurther(env: Env, t: TypeId, u: TypeId, w: TypeId)
    requires MeetsLive(env, t, u) && LeadsLive(env, u, w)
    ensures MeetsLive(env, t, w)
  {
    var p :| IsLiveWalk(env, p) && p[0] == t && p[|p| - 1] == u;
    var q := p + [w];
    forall i | 0 <= i < |q| - 1 ensures LeadsLive(env, q[i], q[i + 1]) {
      assert i < |p| - 1 ==> LeadsLive(env, p[i], p[i + 1]);
    }
    assert IsLiveWalk(env, q) && q[0] == t && q[|q| - 1] == w;
  }

  lemma MetTypesAreQuiet(env: Env, lib: Strings, t: TypeId) returns (types: set<TypeId>)
    requires Closed(env) && IsStruct(env, t) && forall u :: MeetsLive(env, t, u) ==> !Fragile(env, lib, u)
    ensures t in types && AllQuiet(env, lib, types)
  {
    types := set u | u in env && IsStruct(env, u) && MeetsLive(env, t, u);
    assert IsLiveWalk(env, [t]) && [t][0] == t;
    forall u | u in types ensures Quiet(env, lib, types, u) {
      forall f | f in env[u].fields ensures QuietField(env, lib, types, f) {
        if f.exported && LiveChild(env, f.typ).Some? {
          var w := LiveChild(env, f.typ).value;
          assert LeadsLive(env, u, w);
          MeetsLiveFurther(env, t, u, w);
        }
      }
    }
  }

  /** Whatever the operations, some value of t makes the walker fail exactly if a fragile struct type is met from t. */
  lemma WalkerFailsExactly(env: Env, lib: Strings, rank: map<TypeId, nat>, t: TypeId)
    requires Closed(env) && Grounded(env, rank) && IsStruct(env, t)
    ensures (exists v :: HasType(env, v, t) && ApplyStruct(env, lib, v, t).Failed?)
            <==> exists u :: MeetsLive(env, t, u) && Fragile(env, lib, u)
  {
    if exists u :: MeetsLive(env, t, u) && Fragile(env, lib, u) {
      var u :| MeetsLive(env, t, u) && Fragile(env, lib, u);
      var p :| IsLiveWalk(env, p) && p[0] == t && p[|p| - 1] == u;
      var v := FailingValue(env, lib, rank, p);
      assert HasType(env, v, t) && ApplyStruct(env, lib, v, t).Failed?;
    } else {
      var types := MetTypesAreQuiet(env, lib, t);
      forall v | HasType(env, v, t) ensures !ApplyStruct(env, lib, v, t).Failed? {
        StructNeverFails(env, lib, types, v, t);
      }
    }
  }
}
