/**
 * Name allocation in the generated Go client (generate_go.go).
 *
 * Types get distinct names by moving up through qualification levels, then by
 * numeric suffixes; imports get suffixes; parameters get underscores. Every
 * search runs until a name is free, so it ends only because the names to
 * avoid are finitely many and the names tried never repeat.
 */
module GoNames {
  import opened Common

  // ---------------------------------------------------------------------------
  // Numbers in decimal
  // ---------------------------------------------------------------------------

  function Digit(d: nat): char
    requires d < 10
  {
    "0123456789"[d]
  }

  /** %d. */
  function Decimal(n: nat): string {
    if n < 10 then [Digit(n)] else Decimal(n / 10) + [Digit(n % 10)]
  }

  lemma {:induction false} DecimalInjective(a: nat, b: nat)
    requires Decimal(a) == Decimal(b)
    ensures a == b
  {
    var s := Decimal(a);
    LastDigit(a);
    LastDigit(b);
    assert a % 10 == b % 10;
    if a >= 10 && b >= 10 {
      assert Decimal(a / 10) == s[..|s| - 1] == Decimal(b / 10);
      DecimalInjective(a / 10, b / 10);
    }
  }

  lemma LastDigit(n: nat)
    ensures var s := Decimal(n); |s| > 0 && s[|s| - 1] == Digit(n % 10)
    ensures n < 10 <==> |Decimal(n)| == 1
    ensures n >= 10 ==> Decimal(n)[..|Decimal(n)| - 1] == Decimal(n / 10)
  {
    DecimalNotEmpty(n / 10);
  }

  lemma DecimalNotEmpty(n: nat)
    ensures |Decimal(n)| > 0
  {
  }

  // ---------------------------------------------------------------------------
  // Searching for a free name
  // ---------------------------------------------------------------------------

  /** The n-th name tried for a base, from 1: base, base2, base3, ... */
  function Suffixed(base: string, n: nat): string { if n <= 1 then base else base + Decimal(n) }

  lemma SuffixedInjective(base: string, m: nat, n: nat)
    requires 1 <= m && 1 <= n && Suffixed(base, m) == Suffixed(base, n)
    ensures m == n
  {
    DecimalNotEmpty(m);
    DecimalNotEmpty(n);
    if m > 1 && n > 1 {
      assert Suffixed(base, m)[|base|..] == Decimal(m) && Suffixed(base, n)[|base|..] == Decimal(n);
      DecimalInjective(m, n);
    }
  }

  /** name is the first of its base that is not blocked. */
  ghost predicate FirstFree(base: string, blocked: set<string>, name: string) {
    exists n: nat :: 1 <= n && name == Suffixed(base, n) && name !in blocked && BlockedUpTo(base, blocked, n)
  }

  ghost predicate BlockedUpTo(base: string, blocked: set<string>, n: nat) {
    forall j: nat :: 1 <= j < n ==> Suffixed(base, j) in blocked
  }

  lemma FirstFreeIsUnique(base: string, blocked: set<string>, a: string, b: string)
    requires FirstFree(base, blocked, a) && FirstFree(base, blocked, b)
    ensures a == b
  {
    var m: nat :| 1 <= m && a == Suffixed(base, m) && a !in blocked && BlockedUpTo(base, blocked, m);
    var n: nat :| 1 <= n && b == Suffixed(base, n) && b !in blocked && BlockedUpTo(base, blocked, n);
    assert m >= n || Suffixed(base, m) in blocked;
    assert n >= m || Suffixed(base, n) in blocked;
  }

  /** A list without repetition is no longer than a set it lies in. */
  lemma {:induction false} Pigeonhole(tried: seq<string>, blocked: set<string>)
    requires forall i, j :: 0 <= i < j < |tried| ==> tried[i] != tried[j]
    requires forall t :: t in tried ==> t in blocked
    ensures |tried| <= |blocked|
  {
    if tried != [] {
      var init, last := tried[..|tried| - 1], tried[|tried| - 1];
      assert last in tried;
      forall t | t in init ensures t in blocked - {last} {
        assert t in tried;
        var i :| 0 <= i < |init| && init[i] == t;
        assert tried[i] == t;
      }
      Pigeonhole(init, blocked - {last});
    }
  }

  lemma TriedOnce(base: string, blocked: set<string>, n: nat)
    requires 1 <= n && BlockedUpTo(base, blocked, n)
    ensures n - 1 <= |blocked|
  {
    var tried := seq(n - 1, i requires 0 <= i < n - 1 => Suffixed(base, i + 1));
    forall i, j | 0 <= i < j < |tried| ensures tried[i] != tried[j] {
      if tried[i] == tried[j] { SuffixedInjective(base, i + 1, j + 1); }
    }
    Pigeonhole(tried, blocked);
  }

  /** The search loop of assignNames and assignImportNames; blocked is what it avoids. */
  method FreeName(base: string, blocked: set<string>) returns (name: string)
    ensures FirstFree(base, blocked, name)
  {
    name := base;
    var n := 2;
    while name in blocked
      invariant n >= 2 && name == Suffixed(base, n - 1) && BlockedUpTo(base, blocked, n - 1)
      decreases |blocked| + 2 - n
    {
      name := base + Decimal(n);
      TriedOnce(base, blocked, n);
      n := n + 1;
    }
  }

  // ---------------------------------------------------------------------------
  // Levels
  // ---------------------------------------------------------------------------

  type TypeId = nat

  ghost predicate NoRepeats<T>(s: seq<T>) { forall i, j :: 0 <= i < j < |s| ==> s[i] != s[j] }

  ghost predicate IsPermutation<T>(a: seq<T>, b: seq<T>) {
    NoRepeats(a) && NoRepeats(b) && (forall x :: x in a ==> x in b) && (forall x :: x in b ==> x in a)
  }

  type Levels = map<TypeId, nat>

  /** goTypeNameCandidate by type and level. */
  type Candidates = (TypeId, nat) -> string

  ghost predicate Collides(order: seq<TypeId>, candidate: Candidates, fixed: set<string>, levels: Levels, t: TypeId)
    requires t in levels && forall u :: u in order ==> u in levels
  {
    candidate(t, levels[t]) in fixed ||
    exists u :: u in order && u != t && candidate(u, levels[u]) == candidate(t, levels[t])
  }

  ghost predicate Covers(order: seq<TypeId>, levels: Levels) {
    forall u :: u in levels <==> u in order
  }

  const ROUNDS: nat := 4

  function Lowest(order: seq<TypeId>): Levels { map t | t in order :: 0 }

  /** One round: whatever collides moves up, if it can. */
  ghost function Bumped(order: seq<TypeId>, candidate: Candidates, fixed: set<string>, levels: Levels): Levels
    requires Covers(order, levels)
  {
    map t | t in levels ::
      if levels[t] < 2 && Collides(order, candidate, fixed, levels, t) then levels[t] + 1 else levels[t]
  }

  ghost function Rounds(order: seq<TypeId>, candidate: Candidates, fixed: set<string>, levels: Levels,
                        k: nat): (r: Levels)
    requires Covers(order, levels)
    ensures Covers(order, r)
    decreases k
  {
    if k == 0 then levels else Rounds(order, candidate, fixed, Bumped(order, candidate, fixed, levels), k - 1)
  }

  lemma {:induction false} StableRounds(order: seq<TypeId>, candidate: Candidates, fixed: set<string>, levels: Levels,
                                        k: nat)
    requires Covers(order, levels) && Bumped(order, candidate, fixed, levels) == levels
    ensures Rounds(order, candidate, fixed, levels, k) == levels
    decreases k
  {
    if k > 0 { StableRounds(order, candidate, fixed, levels, k - 1); }
  }

  lemma NextRound(order: seq<TypeId>, candidate: Candidates, fixed: set<string>, levels: Levels, k: nat)
    requires Covers(order, levels) && k > 0
    ensures Rounds(order, candidate, fixed, levels, k)
         == Rounds(order, candidate, fixed, Bumped(order, candidate, fixed, levels), k - 1)
  {
  }

  /** The types that share a name, by name. */
  ghost predicate Grouped(order: seq<TypeId>, candidate: Candidates, levels: Levels, groups: map<string, seq<TypeId>>)
    requires Covers(order, levels)
  {
    && (forall name :: name in groups ==> groups[name] != [] && NoRepeats(groups[name]))
    && (forall name, t :: name in groups && t in groups[name] ==> t in order && candidate(t, levels[t]) == name)
    && (forall t :: t in order ==> candidate(t, levels[t]) in groups && t in groups[candidate(t, levels[t])])
  }

  lemma GroupsCollide(order: seq<TypeId>, candidate: Candidates, fixed: set<string>, levels: Levels,
                      groups: map<string, seq<TypeId>>, t: TypeId)
    requires Covers(order, levels) && Grouped(order, candidate, levels, groups) && t in order
    ensures var n := candidate(t, levels[t]);
      n in groups && t in groups[n]
          && (Collides(order, candidate, fixed, levels, t) <==> |groups[n]| >= 2 || n in fixed)
  {
    var n := candidate(t, levels[t]);
    var types := groups[n];
    if |types| >= 2 {
      var u := if types[0] == t then types[1] else types[0];
      assert u in types && u != t;
      assert u in order && candidate(u, levels[u]) == n;
    } else {
      forall u | u in order && candidate(u, levels[u]) == n ensures u == t {
        assert u in types && t in types && |types| == 1;
      }
    }
  }

  /** Group after group: the types of the names not in `rest` are bumped, the others not yet. */
  ghost predicate PartlyBumped(order: seq<TypeId>, candidate: Candidates, fixed: set<string>, levels: Levels,
                               rest: set<string>, now: Levels)
    requires Covers(order, levels) && Covers(order, now)
  {
    forall t :: t in order ==>
      now[t] == if candidate(t, levels[t]) in rest then levels[t] else Bumped(order, candidate, fixed, levels)[t]
  }

  lemma GroupsCover(order: seq<TypeId>, candidate: Candidates, levels: Levels, groups: map<string, seq<TypeId>>)
    requires Covers(order, levels) && Grouped(order, candidate, levels, groups)
    ensures forall t :: t in order ==> candidate(t, levels[t]) in groups
  {
  }

  lemma GroupBumped(order: seq<TypeId>, candidate: Candidates, fixed: set<string>, levels: Levels,
                    groups: map<string, seq<TypeId>>, rest: set<string>, n: string, before: Levels, now: Levels)
    requires Covers(order, levels) && Grouped(order, candidate, levels, groups)
    requires Covers(order, before) && PartlyBumped(order, candidate, fixed, levels, rest, before)
    requires n in rest && n in groups && Covers(order, now)
    requires forall t :: t in order ==>
      now[t] == if t in groups[n] && (|groups[n]| >= 2 || n in fixed) && before[t] < 2 then before[t] + 1 else before[t]
    ensures PartlyBumped(order, candidate, fixed, levels, rest - {n}, now)
  {
    var bumped := Bumped(order, candidate, fixed, levels);
    forall t | t in order ensures now[t] == if candidate(t, levels[t]) in rest - {n} then levels[t] else bumped[t] {
      GroupsCollide(order, candidate, fixed, levels, groups, t);
      InOwnGroup(order, candidate, levels, groups, t, n);
    }
  }

  lemma InOwnGroup(order: seq<TypeId>, candidate: Candidates, levels: Levels, groups: map<string, seq<TypeId>>,
                   t: TypeId, n: string)
    requires Covers(order, levels) && Grouped(order, candidate, levels, groups) && t in order && n in groups
    ensures t in groups[n] <==> candidate(t, levels[t]) == n
  {
  }

  function NameAt(candidate: Candidates, levels: Levels, t: TypeId): string {
    if t in levels then candidate(t, levels[t]) else ""
  }

  function BaseOf(candidate: Candidates, levels: Levels): TypeId -> string {
    (t: TypeId) => NameAt(candidate, levels, t)
  }

  /** The names given to keys. */
  function Given<K(==)>(keys: seq<K>, names: map<K, string>): set<string> {
    set k | k in keys && k in names :: names[k]
  }

  lemma NextDiffers(names: seq<string>, name: string)
    requires NoRepeats(names) && name !in SetOf(names)
    ensures NoRepeats(names + [name])
    ensures forall j :: 0 <= j <= |names| ==> (names + [name])[..j] == names[..j]
    ensures names[..|names|] == names
  {
    assert forall j :: 0 <= j < |names| ==> names[j] in SetOf(names);
  }

  /** In the order of keys, each has the first name of its base free by then. */
  ghost predicate Allotted<K(!new)>(keys: seq<K>, base: K -> string, avoid: set<string>, names: map<K, string>) {
    && (forall k :: k in keys ==> k in names)
    && (forall k :: k in names ==> k in keys)
    && forall i :: 0 <= i < |keys| ==> AllottedAt(keys, base, avoid, names, i)
  }

  ghost predicate AllottedAt<K(!new)>(keys: seq<K>, base: K -> string, avoid: set<string>, names: map<K, string>,
                                      i: nat)
    requires i < |keys| && keys[i] in names
  {
    FirstFree(base(keys[i]), avoid + Given(keys[..i], names), names[keys[i]])
  }

  /** The next of keys that do not repeat gets its name. */
  lemma AllotNext<K(!new)>(keys: seq<K>, i: nat, base: K -> string, avoid: set<string>, names: map<K, string>,
                           free: string)
    requires NoRepeats(keys) && i < |keys| && Allotted(keys[..i], base, avoid, names)
    requires FirstFree(base(keys[i]), avoid + Given(keys[..i], names), free)
    ensures Allotted(keys[..i + 1], base, avoid, names[keys[i] := free])
    ensures Given(keys[..i + 1], names[keys[i] := free]) == Given(keys[..i], names) + {free}
  {
    assert keys[..i + 1] == keys[..i] + [keys[i]];
    AllotOneMore(keys[..i], base, avoid, names, keys[i], free);
  }

  lemma AllotOneMore<K(!new)>(keys: seq<K>, base: K -> string, avoid: set<string>, names: map<K, string>,
                              k: K, free: string)
    requires Allotted(keys, base, avoid, names) && k !in keys
    requires FirstFree(base(k), avoid + Given(keys, names), free)
    ensures Allotted(keys + [k], base, avoid, names[k := free])
    ensures Given(keys + [k], names[k := free]) == Given(keys, names) + {free}
  {
    var keys', names' := keys + [k], names[k := free];
    assert names'[k] == free && keys'[|keys|] == k;
    forall i | 0 <= i < |keys'| ensures AllottedAt(keys', base, avoid, names', i) {
      if i < |keys| {
        assert AllottedAt(keys, base, avoid, names, i) && keys[i] in keys && keys'[i] == keys[i];
        assert keys'[..i] == keys[..i];
        assert Given(keys'[..i], names') == Given(keys[..i], names);
      } else {
        assert keys'[..i] == keys;
        assert Given(keys'[..i], names') == Given(keys, names);
      }
    }
    forall n | n in Given(keys, names) + {free} ensures n in Given(keys', names') {
      if n != free {
        var m :| m in keys && m in names && names[m] == n;
        assert m in keys' && m in names' && names'[m] == n;
      } else {
        assert k in keys' && k in names' && names'[k] == n;
      }
    }
  }

  function Prefixed(prefix: string, names: seq<string>): seq<string> {
    seq(|names|, i requires 0 <= i < |names| => prefix + names[i])
  }

  /** The constants of the enums, in the order they claim their names. */
  function EnumClaims(order: seq<TypeId>, name: map<TypeId, string>, members: TypeId -> seq<string>): seq<string>
    requires forall t :: t in order ==> t in name
  {
    if order == [] then []
    else
      var t := order[|order| - 1];
      EnumClaims(order[..|order| - 1], name, members) + Prefixed(name[t], members(t))
  }

  /** No constant has the name of another, or one taken. */
  ghost predicate Clean(taken: set<string>, claims: seq<string>) {
    NoRepeats(claims) && forall c :: c in claims ==> c !in taken
  }

  lemma OneMoreClaim(taken: set<string>, claims: seq<string>, c: string)
    ensures Clean(taken, claims + [c]) <==> Clean(taken, claims) && c !in taken && c !in claims
  {
    var claims' := claims + [c];
    assert forall i :: 0 <= i < |claims| ==> claims'[i] == claims[i];
    if Clean(taken, claims') {
      assert forall d :: d in claims ==> d in claims';
      assert c in claims';
      forall i | 0 <= i < |claims| ensures claims[i] != c {
        assert claims'[i] != claims'[|claims|];
      }
    }
  }

  /** claim, for each of names: a clash is an error, and the rest take their names. */
  method ClaimAll(names: seq<string>, taken: set<string>, consts0: set<string>, errs0: seq<string>,
                  ghost before: seq<string>)
    returns (consts: set<string>, errs: seq<string>)
    requires consts0 <= SetOf(before) && taken + consts0 == taken + SetOf(before)
    requires errs0 == [] <==> Clean(taken, before)
    ensures consts <= SetOf(before + names) && taken + consts == taken + SetOf(before + names)
    ensures errs == [] <==> Clean(taken, before + names)
  {
    consts, errs := consts0, errs0;
    assert before + names[..0] == before;
    for i := 0 to |names|
      invariant consts <= SetOf(before + names[..i]) && taken + consts == taken + SetOf(before + names[..i])
      invariant errs == [] <==> Clean(taken, before + names[..i])
    {
      var name := names[i];
      OneMoreClaim(taken, before + names[..i], name);
      assert before + names[..i + 1] == before + names[..i] + [name];
      assert SetOf(before + names[..i + 1]) == SetOf(before + names[..i]) + {name};
      assert name in taken + consts <==> name in taken + SetOf(before + names[..i]);
      assert name in SetOf(before + names[..i]) <==> name in before + names[..i];
      if name in taken || name in consts {
        errs := errs + [name];
      } else {
        consts := consts + {name};
      }
    }
    assert names[..|names|] == names;
  }

  // ---------------------------------------------------------------------------
  // Parameters
  // ---------------------------------------------------------------------------

  function Underscored(base: string, k: nat): string { if k == 0 then base else Underscored(base, k - 1) + "_" }

  lemma {:induction false} UnderscoredLength(base: string, k: nat)
    ensures |Underscored(base, k)| == |base| + k
  {
    if k > 0 { UnderscoredLength(base, k - 1); }
  }

  /** name is base with the fewest underscores that free it. */
  ghost predicate ShortestFree(base: string, blocked: set<string>, name: string) {
    exists k: nat :: name == Underscored(base, k) && name !in blocked && TriedUpTo(base, blocked, k)
  }

  ghost predicate TriedUpTo(base: string, blocked: set<string>, k: nat) {
    forall j: nat :: j < k ==> Underscored(base, j) in blocked
  }

  lemma UnderscoresTriedOnce(base: string, blocked: set<string>, k: nat)
    requires TriedUpTo(base, blocked, k)
    ensures k <= |blocked|
  {
    var tried := seq(k, i requires 0 <= i < k => Underscored(base, i));
    forall i, j | 0 <= i < j < |tried| ensures tried[i] != tried[j] {
      UnderscoredLength(base, i);
      UnderscoredLength(base, j);
    }
    Pigeonhole(tried, blocked);
  }

  /** buildParams' search loop. */
  method FreeParamName(base: string, blocked: set<string>) returns (name: string)
    ensures ShortestFree(base, blocked, name)
  {
    name := base;
    ghost var k: nat := 0;
    while name in blocked
      invariant name == Underscored(base, k) && TriedUpTo(base, blocked, k)
      decreases |blocked| - k
    {
      UnderscoresTriedOnce(base, blocked, k + 1);
      name := name + "_";
      k := k + 1;
    }
  }

  /** A parameter's name in the handler's source, or its number. */
  function ParamBase(srcNames: seq<string>, isIdent: string -> bool, i: nat): string {
    if i < |srcNames| && srcNames[i] !in {"", "_", "arg"} && isIdent(srcNames[i]) then srcNames[i]
    else "arg" + Decimal(i)
  }

  class Generator {
    const order: seq<TypeId>  // in order of discovery
    const candidate: Candidates
    var level: Levels
    var name: map<TypeId, string>
    var topLevel: set<string>
    var importNames: map<string, string>

    constructor (order: seq<TypeId>, candidate: Candidates, paths: map<string, string>)
      ensures this.order == order && this.candidate == candidate && importNames == paths
    {
      this.order, this.candidate, this.importNames := order, candidate, paths;
      level, name, topLevel := map[], map[], {};
    }

    /** The loop that groups the types by name. */
    method GroupByName() returns (groups: map<string, seq<TypeId>>)
      requires NoRepeats(order) && Covers(order, level)
      ensures Grouped(order, candidate, level, groups)
    {
      groups := map[];
      for i := 0 to |order|
        invariant forall n :: n in groups ==> groups[n] != [] && NoRepeats(groups[n])
        invariant forall n, t :: n in groups && t in groups[n] ==> t in order[..i] && candidate(t, level[t]) == n
        invariant forall t :: t in order[..i] ==>
                  candidate(t, level[t]) in groups && t in groups[candidate(t, level[t])]
      {
        var t := order[i];
        assert t !in order[..i];
        assert order[..i + 1] == order[..i] + [t];
        var n := candidate(t, level[t]);
        groups := groups[n := (if n in groups then groups[n] else []) + [t]];
      }
      assert order[..|order|] == order;
    }

    /** The loop over the groups, in whatever order the map gives them. */
    method BumpGroups(groups: map<string, seq<TypeId>>, fixed: set<string>) returns (changed: bool)
      requires Covers(order, level) && Grouped(order, candidate, level, groups)
      modifies this`level
      ensures level == Bumped(order, candidate, fixed, old(level))
      ensures !changed ==> level == old(level)
    {
      changed := false;
      var rest := groups.Keys;
      GroupsCover(order, candidate, level, groups);
      while rest != {}
        invariant rest <= groups.Keys && Covers(order, level)
        invariant PartlyBumped(order, candidate, fixed, old(level), rest, level)
        invariant !changed ==> level == old(level)
        decreases |rest|
      {
        var n :| n in rest;
        var c := BumpGroup(n, groups, fixed, old(level), rest);
        changed := changed || c;
        rest := rest - {n};
      }
    }

    method BumpGroup(n: string, groups: map<string, seq<TypeId>>, fixed: set<string>, ghost levels: Levels,
                     ghost rest: set<string>)
      returns (changed: bool)
      requires Covers(order, levels) && Grouped(order, candidate, levels, groups) && n in groups && n in rest
      requires Covers(order, level) && PartlyBumped(order, candidate, fixed, levels, rest, level)
      modifies this`level
      ensures Covers(order, level) && PartlyBumped(order, candidate, fixed, levels, rest - {n}, level)
      ensures !changed ==> level == old(level)
    {
      var types := groups[n];
      changed := false;
      if |types| >= 2 || n in fixed {
        changed := BumpAll(types);
      }
      GroupBumped(order, candidate, fixed, levels, groups, rest, n, old(level), level);
    }

    method BumpAll(types: seq<TypeId>) returns (changed: bool)
      requires NoRepeats(types) && forall t :: t in types ==> t in level
      modifies this`level
      ensures level.Keys == old(level).Keys
      ensures forall t :: t in level ==>
        level[t] == if t in types && old(level)[t] < 2 then old(level)[t] + 1 else old(level)[t]
      ensures !changed ==> level == old(level)
    {
      changed := false;
      for i := 0 to |types|
        invariant level.Keys == old(level).Keys
        invariant forall t :: t in level ==>
          level[t] == if t in types[..i] && old(level)[t] < 2 then old(level)[t] + 1 else old(level)[t]
        invariant !changed ==> level == old(level)
      {
        var t := types[i];
        assert t !in types[..i] && types[..i + 1] == types[..i] + [t];
        if level[t] < 2 {
          level := level[t := level[t] + 1];
          changed := true;
        }
      }
      assert types[..|types|] == types;
    }

    /** The level phase of assignNames: the levels do not depend on the order of any map. */
    method AssignLevels(fixed: set<string>)
      requires NoRepeats(order)
      modifies this`level
      ensures level == Rounds(order, candidate, fixed, Lowest(order), ROUNDS)
    {
      level := Lowest(order);
      ghost var final := Rounds(order, candidate, fixed, level, ROUNDS);
      for round := 0 to ROUNDS
        invariant Covers(order, level) && Rounds(order, candidate, fixed, level, ROUNDS - round) == final
      {
        var groups := GroupByName();
        ghost var before := level;
        var changed := BumpGroups(groups, fixed);
        NextRound(order, candidate, fixed, before, ROUNDS - round);
        if !changed {
          StableRounds(order, candidate, fixed, before, ROUNDS - round);
          break;
        }
      }
    }

    /** The suffix phase of assignNames, in sorted order. */
    method AssignSuffixes(sorted: seq<TypeId>, fixed: set<string>)
      requires NoRepeats(sorted) && forall t :: t in sorted ==> t in level
      modifies this`name
      ensures Allotted(sorted, BaseOf(candidate, level), fixed, name)
    {
      ghost var base := BaseOf(candidate, level);
      name := map[];
      var taken: set<string> := {};
      for i := 0 to |sorted|
        invariant taken == Given(sorted[..i], name)
        invariant Allotted(sorted[..i], base, fixed, name)
      {
        var t := sorted[i];
        var free := FreeName(candidate(t, level[t]), fixed + taken);
        AllotNext(sorted, i, base, fixed, name, free);
        taken := taken + {free};
        name := name[t := free];
      }
      assert sorted[..|sorted|] == sorted;
    }

    /** The claims of assignNames: the constants share the namespace of the types. */
    method ClaimConstants(fixed: set<string>, members: TypeId -> seq<string>, codes: seq<string>)
      returns (errs: seq<string>)
      requires forall t :: t in order ==> t in name
      modifies this`topLevel
      ensures errs == [] <==> Clean(fixed + name.Values, EnumClaims(order, name, members) + Prefixed("ErrCode", codes))
      ensures topLevel == fixed + name.Values + SetOf(EnumClaims(order, name, members) + Prefixed("ErrCode", codes))
    {
      var taken := fixed + name.Values;
      var consts: set<string> := {};
      errs := [];
      for i := 0 to |order|
        invariant consts <= SetOf(EnumClaims(order[..i], name, members))
        invariant taken + consts == taken + SetOf(EnumClaims(order[..i], name, members))
        invariant errs == [] <==> Clean(taken, EnumClaims(order[..i], name, members))
      {
        assert order[..i + 1][..i] == order[..i];
        assert order[i] in order;
        consts, errs :=
          ClaimAll(Prefixed(name[order[i]], members(order[i])), taken, consts, errs,
              EnumClaims(order[..i], name, members));
      }
      assert order[..|order|] == order;
      consts, errs := ClaimAll(Prefixed("ErrCode", codes), taken, consts, errs, EnumClaims(order, name, members));
      topLevel := taken + consts;
    }

    /** assignNames. sort is the order it takes the types in for a given choice of levels. */
    method AssignNames(fixed: set<string>, sort: Levels -> seq<TypeId>, members: TypeId -> seq<string>,
                       codes: seq<string>)
      returns (errs: seq<string>)
      requires NoRepeats(order) && forall levels: Levels :: IsPermutation(sort(levels), order)
      modifies this`level, this`name, this`topLevel
      ensures level == Rounds(order, candidate, fixed, Lowest(order), ROUNDS)
      ensures Allotted(sort(level), BaseOf(candidate, level), fixed, name)
      ensures forall t :: t in order <==> t in name
      ensures errs == [] <==> Clean(fixed + name.Values, EnumClaims(order, name, members) + Prefixed("ErrCode", codes))
      ensures topLevel == fixed + name.Values + SetOf(EnumClaims(order, name, members) + Prefixed("ErrCode", codes))
    {
      AssignLevels(fixed);
      assert Covers(order, level);
      var sorted := sort(level);
      AssignSuffixes(sorted, fixed);
      errs := ClaimConstants(fixed, members, codes);
    }

    /** assignImportNames: paths are the imports in sorted order. */
    method AssignImportNames(paths: seq<string>, pkgName: string -> string, avoid: set<string>)
      requires NoRepeats(paths) && SetOf(paths) == importNames.Keys
      modifies this`importNames
      ensures importNames.Keys == old(importNames.Keys) && Allotted(paths, pkgName, avoid, importNames)
    {
      var used: set<string> := {};
      var named: map<string, string> := map[];
      for i := 0 to |paths|
        invariant used == Given(paths[..i], named)
        invariant Allotted(paths[..i], pkgName, avoid, named)
      {
        var p := paths[i];
        var local := FreeName(pkgName(p), avoid + used);
        AllotNext(paths, i, pkgName, avoid, named, local);
        used := used + {local};
        named := named[p := local];
      }
      assert paths[..|paths|] == paths;
      importNames := named;
      assert forall p :: p in named <==> p in SetOf(paths);
    }

    /** buildParams: reserved are the names of goReservedParamNames, isIdent is token.IsIdentifier. */
    method BuildParams(count: nat, srcNames: seq<string>, reserved: set<string>, isIdent: string -> bool)
      returns (params: seq<string>)
      ensures |params| == count && NoRepeats(params)
      ensures forall i :: 0 <= i < count ==>
        ShortestFree(ParamBase(srcNames, isIdent, i),
                     reserved + importNames.Values + topLevel + SetOf(params[..i]), params[i])
    {
      params := [];
      for i := 0 to count
        invariant |params| == i && NoRepeats(params)
        invariant forall j :: 0 <= j < i ==>
          ShortestFree(ParamBase(srcNames, isIdent, j),
                       reserved + importNames.Values + topLevel + SetOf(params[..j]), params[j])
      {
        var blocked := reserved + importNames.Values + topLevel + SetOf(params);
        var name := FreeParamName(ParamBase(srcNames, isIdent, i), blocked);
        NextDiffers(params, name);
        params := params + [name];
      }
    }
  }

  // ---------------------------------------------------------------------------
  // What the phases guarantee together
  // ---------------------------------------------------------------------------

  /** Every key has a name of its own, and none to avoid. */
  lemma AllottedIsDistinct<K(!new)>(keys: seq<K>, base: K -> string, avoid: set<string>, names: map<K, string>)
    requires Allotted(keys, base, avoid, names) && NoRepeats(keys)
    ensures forall i :: 0 <= i < |keys| ==> keys[i] in names && names[keys[i]] !in avoid
    ensures forall i, j :: 0 <= i < j < |keys| ==> names[keys[i]] != names[keys[j]]
  {
    forall i | 0 <= i < |keys| ensures names[keys[i]] !in avoid + Given(keys[..i], names) {
      assert AllottedAt(keys, base, avoid, names, i);
    }
    forall i, j | 0 <= i < j < |keys| ensures names[keys[i]] != names[keys[j]] {
      assert keys[i] in keys[..j];
    }
  }

  /** The names follow from the order and the bases alone: nothing else that varies between runs shows in them. */
  lemma {:induction false} AllottedIsUnique<K(!new)>(keys: seq<K>, base: K -> string, avoid: set<string>,
                                                     a: map<K, string>, b: map<K, string>, i: nat)
    requires Allotted(keys, base, avoid, a) && Allotted(keys, base, avoid, b) && i < |keys|
    ensures a[keys[i]] == b[keys[i]]
    decreases i
  {
    forall j | 0 <= j < i ensures a[keys[j]] == b[keys[j]] { AllottedIsUnique(keys, base, avoid, a, b, j); }
    forall k | k in keys[..i] ensures a[k] == b[k] {
      var j :| 0 <= j < i && keys[j] == k;
    }
    assert Given(keys[..i], a) == Given(keys[..i], b);
    assert AllottedAt(keys, base, avoid, a, i) && AllottedAt(keys, base, avoid, b, i);
    FirstFreeIsUnique(base(keys[i]), avoid + Given(keys[..i], a), a[keys[i]], b[keys[i]]);
  }

  /** A base that nothing before it takes is kept as it is. */
  lemma FreeBaseIsKept<K(!new)>(keys: seq<K>, base: K -> string, avoid: set<string>, names: map<K, string>, i: nat)
    requires Allotted(keys, base, avoid, names) && i < |keys|
    ensures names[keys[i]] == base(keys[i]) <==> base(keys[i]) !in avoid + Given(keys[..i], names)
  {
    assert AllottedAt(keys, base, avoid, names, i);
    var blocked := avoid + Given(keys[..i], names);
    if base(keys[i]) !in blocked {
      assert Suffixed(base(keys[i]), 1) == base(keys[i]) && BlockedUpTo(base(keys[i]), blocked, 1);
      FirstFreeIsUnique(base(keys[i]), blocked, names[keys[i]], base(keys[i]));
    }
  }
}
