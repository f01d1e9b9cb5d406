/**
 * Acronym-aware names (naming.go).
 *
 * toKebabAcronyms jumps over runs of capitals and steps its index back when
 * the last capital of a run belongs to the next word. It is specified by a
 * rule that looks only at a character and its neighbours.
 */
module Naming {

  /** unicode.IsUpper, IsLower and ToLower. */
  datatype Letters = Letters(upper: char -> bool, lower: char -> bool, toLower: char -> char)

  /** What of Unicode the names rely on: no letter is both cases, and no letter lowers to a dash. */
  ghost predicate Sane(u: Letters) {
    && (forall c :: !(u.upper(c) && u.lower(c)))
    && !u.upper('-') && forall c :: u.upper(c) ==> u.toLower(c) != '-'
  }

  function Lowered(u: Letters, c: char): char { if u.upper(c) then u.toLower(c) else c }

  // ---------------------------------------------------------------------------
  // Kebab case
  // ---------------------------------------------------------------------------

  /** Whether a word begins at k: a capital after something else, or one that a small letter follows. */
  predicate Dash(u: Letters, s: string, k: nat)
    requires k < |s|
  {
    k > 0 && u.upper(s[k]) && (!u.upper(s[k - 1]) || (k + 1 < |s| && u.lower(s[k + 1])))
  }

  /** The first n characters in kebab case. */
  function Kebab(u: Letters, s: string, n: nat): string
    requires n <= |s|
  {
    if n == 0 then ""
    else Kebab(u, s, n - 1) + (if Dash(u, s, n - 1) then "-" else "") + [Lowered(u, s[n - 1])]
  }

  /** The run of capitals from i on, less its last one if that begins a word. */
  method RunEnd(u: Letters, s: string, i: nat) returns (end: nat)
    requires Sane(u) && i < |s| && u.upper(s[i])
    ensures i < end <= |s| && forall k :: i <= k < end ==> u.upper(s[k])
    ensures end < |s| && end - i > 1 ==> !u.lower(s[end])
    ensures end < |s| && u.upper(s[end]) ==> Dash(u, s, end)
  {
    var j := i;
    while j < |s| && u.upper(s[j])
      invariant i <= j <= |s| && forall k :: i <= k < j ==> u.upper(s[k])
    {
      j := j + 1;
    }
    var splitLast := j - i > 1 && j < |s| && u.lower(s[j]);
    end := if splitLast then j - 1 else j;
  }

  /** Appends the run lowered: inside it no word begins. */
  method LowerRun(u: Letters, s: string, i: nat, end: nat, start: string) returns (result: string)
    requires Sane(u) && i < end <= |s| && forall k :: i <= k < end ==> u.upper(s[k])
    requires end < |s| && end - i > 1 ==> !u.lower(s[end])
    requires i == 0 || Dash(u, s, i)
    requires start == Kebab(u, s, i) + if i > 0 then "-" else ""
    ensures result == Kebab(u, s, end)
  {
    result := start + [u.toLower(s[i])];
    assert result == Kebab(u, s, i + 1);
    var k := i + 1;
    while k < end
      invariant i < k <= end && result == Kebab(u, s, k)
    {
      assert !Dash(u, s, k) && Kebab(u, s, k) + "" == Kebab(u, s, k);
      result := result + [u.toLower(s[k])];
      k := k + 1;
    }
  }

  /** toKebabAcronyms. */
  method ToKebabAcronyms(u: Letters, s: string) returns (result: string)
    requires Sane(u)
    ensures result == Kebab(u, s, |s|)
  {
    if |s| == 0 { return ""; }
    result := "";
    var i := 0;
    while i < |s|
      invariant 0 <= i <= |s| && result == Kebab(u, s, i)
      invariant i < |s| && u.upper(s[i]) ==> i == 0 || Dash(u, s, i)
      decreases |s| - i
    {
      var r := s[i];
      if !u.upper(r) {
        assert result + "" == result;
        result := result + [r];
        i := i + 1;
        continue;
      }
      if i > 0 { result := result + "-"; } else { assert result + "" == result; }
      var end := RunEnd(u, s, i);
      result := LowerRun(u, s, i, end, result);
      i := end - 1;  // the index steps back to the last capital of a split run
      i := i + 1;
    }
  }

  function Erase(s: string): string {
    if s == "" then "" else Erase(s[..|s| - 1]) + if s[|s| - 1] == '-' then "" else [s[|s| - 1]]
  }

  lemma EraseAppends(s: string, c: char)
    ensures Erase(s + [c]) == Erase(s) + if c == '-' then "" else [c]
  {
    assert (s + [c])[..|s|] == s;
  }

  function AllLowered(u: Letters, s: string): string { seq(|s|, i requires 0 <= i < |s| => Lowered(u, s[i])) }

  lemma AllLoweredGrows(u: Letters, s: string, n: nat)
    requires n < |s|
    ensures AllLowered(u, s[..n + 1]) == AllLowered(u, s[..n]) + [Lowered(u, s[n])]
  {
  }

  lemma EraseGrows(u: Letters, s: string, n: nat)
    requires Sane(u) && '-' !in s && n < |s|
    ensures Erase(Kebab(u, s, n + 1)) == Erase(Kebab(u, s, n)) + [Lowered(u, s[n])]
  {
    var before, c := Kebab(u, s, n), Lowered(u, s[n]);
    assert s[n] in s && c != '-';
    if Dash(u, s, n) {
      assert Kebab(u, s, n + 1) == before + "-" + [c];
      EraseAppends(before, '-');
      EraseAppends(before + "-", c);
    } else {
      assert Kebab(u, s, n + 1) == before + [c] by { assert before + "" == before; }
      EraseAppends(before, c);
    }
  }

  /** Dashes aside, the name is the input with its capitals lowered: no character is lost, added or moved. */
  lemma {:induction false} ErasingGivesLowered(u: Letters, s: string, n: nat)
    requires Sane(u) && '-' !in s && n <= |s|
    ensures Erase(Kebab(u, s, n)) == AllLowered(u, s[..n])
  {
    if n > 0 {
      ErasingGivesLowered(u, s, n - 1);
      EraseGrows(u, s, n - 1);
      AllLoweredGrows(u, s, n - 1);
    }
  }

  ghost predicate DashesSeparate(s: string) {
    s != "" ==> s[0] != '-' && s[|s| - 1] != '-' && forall i :: 0 <= i < |s| - 1 ==> s[i] != '-' || s[i + 1] != '-'
  }

  /** Dashes only ever stand between words: none leads, trails or is doubled. */
  lemma {:induction false} DashesAreSeparators(u: Letters, s: string, n: nat)
    requires Sane(u) && '-' !in s && n <= |s|
    ensures DashesSeparate(Kebab(u, s, n)) && (n > 0 ==> Kebab(u, s, n) != "")
  {
    if n > 0 {
      DashesAreSeparators(u, s, n - 1);
      assert s[n - 1] in s;
    }
  }

  // ---------------------------------------------------------------------------
  // Camel case
  // ---------------------------------------------------------------------------

  predicate AllUpper(u: Letters, s: string) { forall c :: c in s ==> u.upper(c) }

  /** Whether position k belongs to the leading acronym. */
  predicate Lowers(u: Letters, s: string, k: nat)
    requires k < |s|
  {
    AllUpper(u, s[..k + 1]) && (k == 0 || k + 1 == |s| || !u.lower(s[k + 1]))
  }

  function LowerCamel(u: Letters, s: string): string {
    seq(|s|, k requires 0 <= k < |s| => if Lowers(u, s, k) then u.toLower(s[k]) else s[k])
  }

  lemma LowersInRun(u: Letters, s: string, upper: nat, k: nat)
    requires Sane(u) && upper <= |s| && k < |s|
    requires (forall i :: 0 <= i < upper ==> u.upper(s[i])) && (upper < |s| ==> !u.upper(s[upper]))
    ensures Lowers(u, s, k) <==> k < upper && (k == 0 || k + 1 < upper || upper == |s| || !u.lower(s[upper]))
  {
    if k < upper {
      assert forall c :: c in s[..k + 1] ==> u.upper(c);
    } else {
      assert s[..k + 1][upper] == s[upper];
    }
  }

  method LowerFirst(u: Letters, runes: array<char>, end: nat)
    requires end <= runes.Length
    modifies runes
    ensures forall i :: 0 <= i < runes.Length ==>
      runes[i] == if i < end then u.toLower(old(runes[i])) else old(runes[i])
  {
    for i := 0 to end
      invariant forall k :: 0 <= k < runes.Length ==>
        runes[k] == if k < i then u.toLower(old(runes[k])) else old(runes[k])
    {
      runes[i] := u.toLower(runes[i]);
    }
  }

  /** toLowerCamelAcronyms. */
  method ToLowerCamelAcronyms(u: Letters, s: string) returns (result: string)
    requires Sane(u)
    ensures result == LowerCamel(u, s)
  {
    var runes := new char[|s|](i requires 0 <= i < |s| => s[i]);
    var upper := 0;
    while upper < |s| && u.upper(runes[upper])
      invariant 0 <= upper <= |s| && forall k :: 0 <= k < upper ==> u.upper(s[k])
    {
      upper := upper + 1;
    }
    forall k | 0 <= k < |s|
      ensures Lowers(u, s, k) <==> k < upper && (k == 0 || k + 1 < upper || upper == |s| || !u.lower(s[upper]))
    {
      LowersInRun(u, s, upper, k);
    }
    if upper == 0 {
      assert s == LowerCamel(u, s);
      return s;
    }
    if upper == |s| {
      LowerFirst(u, runes, |s|);
      return runes[..];
    }
    if upper == 1 {
      runes[0] := u.toLower(runes[0]);
      return runes[..];
    }
    var end := upper;
    if upper < |s| && u.lower(runes[upper]) { end := upper - 1; }
    LowerFirst(u, runes, end);
    result := runes[..];
  }

  /** Both styles agree on where a leading acronym ends. */
  lemma StylesAgreeOnAcronym(u: Letters, s: string, k: nat)
    requires Sane(u) && k < |s| && AllUpper(u, s[..k + 1])
    ensures Lowers(u, s, k) <==> k == 0 || !Dash(u, s, k)
  {
    assert s[k] in s[..k + 1];
    assert k > 0 ==> s[..k + 1][k - 1] == s[k - 1];
    assert k > 0 ==> s[k - 1] in s[..k + 1];
  }
}
