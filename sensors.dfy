/** Sensor text parsing of app/services/sensors.py: splitting a state text
    such as "22.5 C" into number and unit, and building the sensor list of an
    ESPHome web page from the tuples the three `re.findall` calls return. The
    regular-expression engine is not modelled for the page patterns: their
    `findall` results are inputs. The unit patterns are modelled exactly,
    through the split they accept. */
module Sensors {
  import opened Wrappers
  import opened Text
  import opened Schemas

  // ---------------------------------------------------------------- state and unit

  /** A character of the class `[\d.,-]`. */
  predicate IsNumChar(c: char) { IsDigit(c) || c == '.' || c == ',' || c == '-' }

  /** The first index at or after `x` whose character is not in `[\d.,-]`
      (or `|s|`). */
  function NumericEnd(s: string, x: nat): (e: nat)
    requires x <= |s|
    ensures x <= e <= |s|
    ensures forall y :: x <= y < e ==> IsNumChar(s[y])
    ensures e < |s| ==> !IsNumChar(s[e])
    decreases |s| - x
  {
    if x == |s| || !IsNumChar(s[x]) then x else NumericEnd(s, x + 1)
  }

  /** The first index at or after `x` whose character is not whitespace. */
  function SpaceEnd(s: string, x: nat): (e: nat)
    requires x <= |s|
    ensures x <= e <= |s|
    ensures forall y :: x <= y < e ==> IsSpace(s[y])
    ensures e < |s| ==> !IsSpace(s[e])
    decreases |s| - x
  {
    if x == |s| || !IsSpace(s[x]) then x else SpaceEnd(s, x + 1)
  }

  lemma NumericEndUnique(s: string, x: nat, e: nat)
    requires x <= e <= |s|
    requires forall y :: x <= y < e ==> IsNumChar(s[y])
    requires e < |s| ==> !IsNumChar(s[e])
    ensures e == NumericEnd(s, x)
  {
    var k := NumericEnd(s, x);
    if e < k {
      assert false;
    } else if k < e {
      assert false;
    }
  }

  lemma SpaceEndUnique(s: string, x: nat, e: nat)
    requires x <= e <= |s|
    requires forall y :: x <= y < e ==> IsSpace(s[y])
    requires e < |s| ==> !IsSpace(s[e])
    ensures e == SpaceEnd(s, x)
  {
    var k := SpaceEnd(s, x);
    if e < k {
      assert false;
    } else if k < e {
      assert false;
    }
  }

  /** The unit group of one pattern of `_parse_state_unit`: an alternation of
      literals, or the generic `[a-zA-Z/]+`. */
  datatype UnitPattern = OneOf(units: seq<string>) | Letters

  /** The eleven patterns, in the order they are tried. */
  const UnitPatterns: seq<UnitPattern> := [
    OneOf(["%"]),
    OneOf(["\U{00B0}C", "\U{00B0}c", "\U{00B0}F", "\U{00B0}f"]),
    OneOf(["C", "F", "K"]),
    OneOf(["hPa", "Pa", "mbar", "bar"]),
    OneOf(["lx", "lux"]),
    OneOf(["dB", "dBm"]),
    OneOf(["V", "mV", "A", "mA", "W", "kW", "kWh", "Wh"]),
    OneOf(["ppm", "ppb", "ug/m3", "mg/m3"]),
    OneOf(["mm", "cm", "m", "km", "in", "ft"]),
    OneOf(["s", "ms", "min", "h"]),
    Letters
  ]

  predicate IsUnitLetter(c: char) { IsLetter(c) || c == '/' }

  /** A non-empty run of `[a-zA-Z/]`. */
  predicate LetterRun(u: string) { u != [] && forall i :: 0 <= i < |u| ==> IsUnitLetter(u[i]) }

  /** Whether the unit group of `p` matches exactly `u`. */
  predicate UnitMatches(p: UnitPattern, u: string) {
    match p
    case OneOf(us) => u in us
    case Letters => LetterRun(u)
  }

  /** `re.match(r'^([\d.,-]+)\s*(unit)\s*$', s)` succeeds with group 1 equal
      to `s[..i]` and group 2 equal to `s[j..k]`. */
  predicate RegexSplit(s: string, p: UnitPattern, i: nat, j: nat, k: nat) {
    && 0 < i <= j <= k <= |s|
    && (forall y :: 0 <= y < i ==> IsNumChar(s[y]))
    && (forall y :: i <= y < j ==> IsSpace(s[y]))
    && UnitMatches(p, s[j..k])
    && (forall y :: k <= y < |s| ==> IsSpace(s[y]))
  }

  /** Some pattern of `ps` accepts the split (i, j, k) of `s`. */
  ghost predicate AcceptedSplit(s: string, ps: seq<UnitPattern>, i: nat, j: nat, k: nat) {
    exists n :: 0 <= n < |ps| && RegexSplit(s, ps[n], i, j, k)
  }

  /** Non-empty, not starting like a number, free of whitespace. */
  predicate UnitShape(u: string) {
    u != [] && !IsNumChar(u[0]) && forall i :: 0 <= i < |u| ==> !IsSpace(u[i])
  }

  /** Every unit any pattern of `ps` accepts has the shape above. */
  ghost predicate ShapedPatterns(ps: seq<UnitPattern>) {
    forall n, u :: 0 <= n < |ps| && UnitMatches(ps[n], u) ==> UnitShape(u)
  }

  /** The listed units that are not letter runs. */
  const SymbolUnits: set<string> := {"%", "\U{00B0}C", "\U{00B0}c", "\U{00B0}F", "\U{00B0}f", "ug/m3", "mg/m3"}

  /** The units the eleven patterns accept, in closed form: every listed unit
      other than the symbol units is itself a letter run. */
  predicate KnownUnit(u: string) { u in SymbolUnits || LetterRun(u) }

  /** Membership in SymbolUnits decided character by character. */
  predicate IsSymbolUnit(u: string) {
    || (|u| == 1 && u[0] == '%')
    || (|u| == 2 && u[0] == '\U{00B0}' && (u[1] == 'C' || u[1] == 'c' || u[1] == 'F' || u[1] == 'f'))
    || (|u| == 5 && (u[0] == 'u' || u[0] == 'm') && u[1] == 'g' && u[2] == '/' && u[3] == 'm' && u[4] == '3')
  }

  lemma IsSymbolUnitIff(u: string)
    ensures IsSymbolUnit(u) <==> u in SymbolUnits
  {
    if IsSymbolUnit(u) {
      if |u| == 1 {
        assert u == "%";
      } else if |u| == 2 {
        assert u == ['\U{00B0}', u[1]];
      } else {
        assert u == [u[0], 'g', '/', 'm', '3'];
      }
    }
  }

  /** `u[x..]` consists of unit letters only. */
  predicate LettersFrom(u: string, x: nat)
    requires x <= |u|
    decreases |u| - x
  {
    x == |u| || (IsUnitLetter(u[x]) && LettersFrom(u, x + 1))
  }

  /** KnownUnit decided by scanning, the form the closed-form parser uses. */
  predicate IsKnownUnit(u: string) {
    IsSymbolUnit(u) || (u != [] && LettersFrom(u, 0))
  }

  lemma {:induction false} LettersFromIff(u: string, x: nat)
    requires x <= |u|
    ensures LettersFrom(u, x) <==> forall y :: x <= y < |u| ==> IsUnitLetter(u[y])
    decreases |u| - x
  {
    if x < |u| {
      LettersFromIff(u, x + 1);
    }
  }

  lemma IsKnownUnitIff(u: string)
    ensures IsKnownUnit(u) <==> KnownUnit(u)
  {
    IsSymbolUnitIff(u);
    LettersFromIff(u, 0);
  }

  lemma KnownUnitShape(u: string)
    requires KnownUnit(u)
    ensures UnitShape(u)
  {
  }

  predicate AllKnown(us: seq<string>) { forall n :: 0 <= n < |us| ==> KnownUnit(us[n]) }

  lemma KnownLow(n: nat)
    requires n < 5
    ensures AllKnown(UnitPatterns[n].units)
  {
    if n == 0 { assert AllKnown(UnitPatterns[0].units); }
    else if n == 1 { assert AllKnown(UnitPatterns[1].units); }
    else if n == 2 { assert AllKnown(UnitPatterns[2].units); }
    else if n == 3 { assert AllKnown(UnitPatterns[3].units); }
    else { assert AllKnown(UnitPatterns[4].units); }
  }

  lemma KnownHigh(n: nat)
    requires 5 <= n < 10
    ensures AllKnown(UnitPatterns[n].units)
  {
    if n == 5 { assert AllKnown(UnitPatterns[5].units); }
    else if n == 6 { assert AllKnown(UnitPatterns[6].units); }
    else if n == 7 { assert AllKnown(UnitPatterns[7].units); }
    else if n == 8 { assert AllKnown(UnitPatterns[8].units); }
    else { assert AllKnown(UnitPatterns[9].units); }
  }

  /** The closed form accepts exactly the units some pattern accepts. */
  lemma KnownUnitIff(u: string)
    ensures KnownUnit(u) <==> exists n :: 0 <= n < |UnitPatterns| && UnitMatches(UnitPatterns[n], u)
  {
    if KnownUnit(u) {
      if LetterRun(u) {
        assert UnitMatches(UnitPatterns[10], u);
      } else if u == "%" {
        assert UnitMatches(UnitPatterns[0], u);
      } else if u == "ug/m3" || u == "mg/m3" {
        assert UnitMatches(UnitPatterns[7], u);
      } else {
        assert UnitMatches(UnitPatterns[1], u);
      }
    }
    forall n | 0 <= n < |UnitPatterns| && UnitMatches(UnitPatterns[n], u) ensures KnownUnit(u) {
      if n < 5 {
        KnownLow(n);
        assert u in UnitPatterns[n].units;
      } else if n < 10 {
        KnownHigh(n);
        assert u in UnitPatterns[n].units;
      }
    }
  }

  lemma UnitPatternsShaped()
    ensures ShapedPatterns(UnitPatterns)
  {
    forall n, u | 0 <= n < |UnitPatterns| && UnitMatches(UnitPatterns[n], u) ensures UnitShape(u) {
      KnownUnitIff(u);
      KnownUnitShape(u);
    }
  }

  /** `re.match` of one pattern on stripped text: the numeric group is
      the maximal numeric prefix and the unit starts after the whitespace
      that follows it (no unit starts with a numeric or space character). */
  function MatchPattern(s: string, p: UnitPattern): Option<(string, string)> {
    var i := NumericEnd(s, 0);
    var j := SpaceEnd(s, i);
    if i > 0 && UnitMatches(p, s[j..|s|]) then Some((s[..i], s[j..|s|])) else None
  }

  /** The first pattern of `ps` that matches. */
  function FirstMatch(s: string, ps: seq<UnitPattern>): Option<(string, string)>
    decreases |ps|
  {
    if ps == [] then None
    else if MatchPattern(s, ps[0]).Some? then MatchPattern(s, ps[0])
    else FirstMatch(s, ps[1..])
  }

  /** FirstMatch finds a match exactly when some pattern matches, and then
      returns what a matching pattern returns. */
  lemma {:induction false} FirstMatchSpec(s: string, ps: seq<UnitPattern>)
    ensures FirstMatch(s, ps).Some? <==> exists n :: 0 <= n < |ps| && MatchPattern(s, ps[n]).Some?
    ensures FirstMatch(s, ps).Some? ==> exists n :: 0 <= n < |ps| && MatchPattern(s, ps[n]) == FirstMatch(s, ps)
    decreases |ps|
  {
    if ps != [] && MatchPattern(s, ps[0]).None? {
      FirstMatchSpec(s, ps[1..]);
      assert forall n :: 0 < n < |ps| ==> ps[n] == ps[1..][n - 1];
    }
  }

  /** `_parse_state_unit` over a list of patterns tried in order. */
  function ParseWith(text: string, ps: seq<UnitPattern>): (string, string) {
    if text == "" then ("", "")
    else
      var s := Strip(text);
      var m := FirstMatch(s, ps);
      if m.Some? then m.value else (s, "")
  }

  /** `_parse_state_unit` as written: the eleven patterns tried in order. */
  function FirstMatchParse(text: string): (string, string) {
    ParseWith(text, UnitPatterns)
  }

  /** `_parse_state_unit` in closed form, which the page parser uses. */
  function ParseStateUnit(text: string): (string, string) {
    if text == "" then ("", "")
    else
      var s := Strip(text);
      var i := NumericEnd(s, 0);
      var j := SpaceEnd(s, i);
      if i > 0 && IsKnownUnit(s[j..|s|]) then (s[..i], s[j..|s|]) else (s, "")
  }

  /** The closed form computes what the pattern loop computes. */
  lemma ParseStateUnitIsFirstMatch(text: string)
    ensures ParseStateUnit(text) == FirstMatchParse(text)
  {
    if text != "" {
      var s := Strip(text);
      var i := NumericEnd(s, 0);
      var j := SpaceEnd(s, i);
      FirstMatchSpec(s, UnitPatterns);
      KnownUnitIff(s[j..|s|]);
      IsKnownUnitIff(s[j..|s|]);
      if i > 0 && KnownUnit(s[j..|s|]) {
        var n :| 0 <= n < |UnitPatterns| && UnitMatches(UnitPatterns[n], s[j..|s|]);
        assert MatchPattern(s, UnitPatterns[n]).Some?;
      }
    }
  }

  lemma {:induction false} ParseWithSound(text: string, ps: seq<UnitPattern>)
    requires ShapedPatterns(ps)
    ensures text == "" ==> ParseWith(text, ps) == ("", "")
    ensures text != "" ==>
      var s := Strip(text);
      var r := ParseWith(text, ps);
      && (r.1 == "" ==> r.0 == s)
      && (r.1 != "" ==>
            && 0 < |r.0| && |r.0| + |r.1| <= |s| && r.0 == s[..|r.0|] && r.1 == s[|s| - |r.1|..|s|]
            && AcceptedSplit(s, ps, |r.0|, |s| - |r.1|, |s|)
            && (|r.0| < |s| ==> !IsNumChar(s[|r.0|]))
            && UnitShape(r.1))
  {
    if text != "" {
      var s := Strip(text);
      var m := FirstMatch(s, ps);
      FirstMatchSpec(s, ps);
      if m.Some? {
        var n :| 0 <= n < |ps| && MatchPattern(s, ps[n]) == m;
        var i := NumericEnd(s, 0);
        var j := SpaceEnd(s, i);
        assert RegexSplit(s, ps[n], i, j, |s|);
      }
    }
  }

  lemma {:induction false} ParseWithComplete(text: string, ps: seq<UnitPattern>, n: nat, i: nat, j: nat, k: nat)
    requires ShapedPatterns(ps) && text != "" && n < |ps| && RegexSplit(Strip(text), ps[n], i, j, k)
    ensures ParseWith(text, ps) == (Strip(text)[..i], Strip(text)[j..k])
  {
    var s := Strip(text);
    assert UnitShape(s[j..k]);
    assert s[j..k][0] == s[j];
    if k < |s| {
      assert false;
    }
    NumericEndUnique(s, 0, i);
    SpaceEndUnique(s, i, j);
    assert MatchPattern(s, ps[n]).Some?;
    FirstMatchSpec(s, ps);
  }

  /** What a result means. The empty text gives ("", ""). Otherwise, with `s`
      the stripped text, either the unit is empty and the state is `s`, or
      some pattern accepts `s` split as state, whitespace and unit, with the
      state the maximal, non-empty numeric prefix of `s` and the unit free of
      whitespace. */
  lemma ParseStateUnitSound(text: string)
    ensures text == "" ==> ParseStateUnit(text) == ("", "")
    ensures text != "" ==>
      var s := Strip(text);
      var r := ParseStateUnit(text);
      && (r.1 == "" ==> r.0 == s)
      && (r.1 != "" ==>
            && 0 < |r.0| && |r.0| + |r.1| <= |s| && r.0 == s[..|r.0|] && r.1 == s[|s| - |r.1|..|s|]
            && AcceptedSplit(s, UnitPatterns, |r.0|, |s| - |r.1|, |s|)
            && (|r.0| < |s| ==> !IsNumChar(s[|r.0|]))
            && UnitShape(r.1))
  {
    if text != "" {
      var s := Strip(text);
      var i := NumericEnd(s, 0);
      var j := SpaceEnd(s, i);
      var u := s[j..|s|];
      if i > 0 && IsKnownUnit(u) {
        IsKnownUnitIff(u);
        KnownUnitIff(u);
        KnownUnitShape(u);
        var n :| 0 <= n < |UnitPatterns| && UnitMatches(UnitPatterns[n], u);
        assert RegexSplit(s, UnitPatterns[n], i, j, |s|);
      }
    }
  }

  /** The groups are determined: whenever some pattern accepts a split of
      the stripped text, the result is that split's two groups. */
  lemma ParseStateUnitComplete(text: string, n: nat, i: nat, j: nat, k: nat)
    requires text != "" && n < |UnitPatterns| && RegexSplit(Strip(text), UnitPatterns[n], i, j, k)
    ensures ParseStateUnit(text) == (Strip(text)[..i], Strip(text)[j..k])
  {
    ParseStateUnitIsFirstMatch(text);
    UnitPatternsShaped();
    ParseWithComplete(text, UnitPatterns, n, i, j, k);
  }

  /** When no pattern accepts any split, the stripped text comes back with
      an empty unit. */
  lemma ParseStateUnitNoMatch(text: string)
    requires text != ""
    requires forall n, i, j, k :: 0 <= n < |UnitPatterns| ==> !RegexSplit(Strip(text), UnitPatterns[n], i, j, k)
    ensures ParseStateUnit(text) == (Strip(text), "")
  {
    ParseStateUnitSound(text);
  }

  /** A text that is not blank yields a non-empty state. */
  lemma ParseStateNonEmpty(text: string)
    requires Strip(text) != ""
    ensures ParseStateUnit(text).0 != ""
  {
  }

  /** Worked example: a letter unit after a space. */
  lemma LetterUnitExample()
    ensures ParseStateUnit("22.5 C") == ("22.5", "C")
  {
    var s := "22.5 C";
    NumericEndUnique(s, 0, 4);
    SpaceEndUnique(s, 4, 5);
    assert s[5..|s|] == "C" && LetterRun("C");
    assert s[..4] == "22.5";
  }

  /** Worked example: a symbol unit with no space. */
  lemma SymbolUnitExample()
    ensures ParseStateUnit("65%") == ("65", "%")
  {
    var u := "65%";
    NumericEndUnique(u, 0, 2);
    SpaceEndUnique(u, 2, 2);
    assert u[2..|u|] == "%";
    assert u[..2] == "65";
  }

  /** Worked example: a bare number has no unit. */
  lemma BareNumberExample()
    ensures ParseStateUnit("2") == ("2", "")
  {
    var v := "2";
    NumericEndUnique(v, 0, 1);
    SpaceEndUnique(v, 1, 1);
    assert v[1..|v|] == "";
    assert !IsKnownUnit("");
  }

  // ---------------------------------------------------------------- display names

  /** Dashes and underscores become spaces. */
  function Despaced(c: char): char {
    if c == '-' || c == '_' then ' ' else c
  }

  /** `entity_id.replace("-", " ").replace("_", " ").title()`. */
  function DisplayName(id: string): (n: string)
    ensures |n| == |id|
  {
    Title(ReplaceChar(ReplaceChar(id, '-', ' '), '_', ' '))
  }

  lemma CaseKeepsMarks(c: char)
    ensures (LowerChar(c) == ' ' <==> c == ' ') && (UpperChar(c) == ' ' <==> c == ' ')
    ensures c != '-' && c != '_' ==>
      LowerChar(c) != '-' && UpperChar(c) != '-' && LowerChar(c) != '_' && UpperChar(c) != '_'
  {
  }

  /** Character `i` of a display name: the despaced character, lowered after
      a letter of the id and upper-cased otherwise. */
  lemma DisplayNameAt(id: string, i: nat)
    requires i < |id|
    ensures DisplayName(id)[i] ==
      if i > 0 && IsLetter(id[i - 1]) then LowerChar(Despaced(id[i])) else UpperChar(Despaced(id[i]))
  {
    var t2 := ReplaceChar(ReplaceChar(id, '-', ' '), '_', ' ');
    assert t2[i] == Despaced(id[i]);
    assert i > 0 ==> t2[i - 1] == Despaced(id[i - 1]);
    assert DisplayName(id)[i] == TitleCharAt(t2, i);
  }

  /** A display name has a space exactly where the id has a space, a dash or
      an underscore, and no dash or underscore at all. */
  lemma DisplayNameChars(id: string)
    ensures forall i :: 0 <= i < |id| ==>
      && (DisplayName(id)[i] == ' ' <==> (id[i] == ' ' || id[i] == '-' || id[i] == '_'))
      && DisplayName(id)[i] != '-' && DisplayName(id)[i] != '_'
  {
    forall i | 0 <= i < |id|
      ensures (DisplayName(id)[i] == ' ' <==> (id[i] == ' ' || id[i] == '-' || id[i] == '_'))
      ensures DisplayName(id)[i] != '-' && DisplayName(id)[i] != '_'
    {
      DisplayNameAt(id, i);
      CaseKeepsMarks(Despaced(id[i]));
    }
  }

  // ---------------------------------------------------------------- the web page

  /** One tuple of a two-group `re.findall`. */
  datatype Groups = Groups(first: string, second: string)

  /** `[x]` for a present value, `[]` otherwise. */
  function Found<T>(o: Option<T>): seq<T> {
    if o.Some? then [o.value] else []
  }

  /** The present values among the first `n` options, in order. */
  function Present<T>(os: seq<Option<T>>, n: nat): seq<T>
    requires n <= |os|
    decreases n
  {
    if n == 0 then [] else Present(os, n - 1) + Found(os[n - 1])
  }

  /** Every present option among the first `n` is kept. */
  lemma {:induction false} PresentKeeps<T>(os: seq<Option<T>>, n: nat)
    requires n <= |os|
    ensures forall k :: 0 <= k < n && os[k].Some? ==> os[k].value in Present(os, n)
    decreases n
  {
    if n > 0 {
      PresentKeeps(os, n - 1);
      assert forall x :: x in Present(os, n - 1) ==> x in Present(os, n);
    }
  }

  /** Every kept value comes from one of the first `n` options. */
  lemma {:induction false} PresentOnly<T>(os: seq<Option<T>>, n: nat)
    requires n <= |os|
    ensures forall x :: x in Present(os, n) ==> exists k :: 0 <= k < n && os[k] == Some(x)
    decreases n
  {
    if n > 0 {
      PresentOnly(os, n - 1);
      assert forall x :: x in Present(os, n) ==> x in Present(os, n - 1) || x in Found(os[n - 1]);
    }
  }

  /** The sensor an entity-pattern match contributes: none when the stripped
      id or the stripped state is empty. */
  function EntitySensor(m: Groups): Option<Sensor> {
    var id := Strip(m.first);
    var st := Strip(m.second);
    if id == "" || st == "" then None
    else
      var su := ParseStateUnit(st);
      Some(Sensor(id, DisplayName(id), su.0, su.1))
  }

  /** The contribution of each match of one entity pattern. */
  function EntityRows(ms: seq<Groups>): (os: seq<Option<Sensor>>)
    ensures |os| == |ms| && forall k :: 0 <= k < |ms| ==> os[k] == EntitySensor(ms[k])
    decreases |ms|
  {
    if ms == [] then [] else [EntitySensor(ms[0])] + EntityRows(ms[1..])
  }

  /** The sensors of the first `n` matches of one entity pattern, in match
      order. */
  function EntitySensorsUpTo(ms: seq<Groups>, n: nat): seq<Sensor>
    requires n <= |ms|
    decreases n
  {
    if n == 0 then [] else EntitySensorsUpTo(ms, n - 1) + Found(EntitySensor(ms[n - 1]))
  }

  /** The sensors of one entity pattern's matches. */
  function EntitySensors(ms: seq<Groups>): seq<Sensor> {
    EntitySensorsUpTo(ms, |ms|)
  }

  lemma {:induction false} EntitySensorsArePresent(ms: seq<Groups>, n: nat)
    requires n <= |ms|
    ensures EntitySensorsUpTo(ms, n) == Present(EntityRows(ms), n)
    decreases n
  {
    if n > 0 {
      EntitySensorsArePresent(ms, n - 1);
    }
  }

  /** The sensors of the first `n` entity patterns, pattern by pattern. */
  function EntityPass(lists: seq<seq<Groups>>, n: nat): seq<Sensor>
    requires n <= |lists|
    decreases n
  {
    if n == 0 then [] else EntityPass(lists, n - 1) + EntitySensors(lists[n - 1])
  }

  /** `{s["id"] for s in sensors}`. */
  function Ids(ss: seq<Sensor>): set<string> {
    set s | s in ss :: s.id
  }

  function JsonSensor(m: Groups): Sensor {
    var id := Strip(m.first);
    var su := ParseStateUnit(Strip(m.second));
    Sensor(id, DisplayName(id), su.0, su.1)
  }

  /** The sensor each JSON match would yield, in match order. */
  function JsonRows(ms: seq<Groups>): (cs: seq<Sensor>)
    ensures |cs| == |ms| && forall k :: 0 <= k < |ms| ==> cs[k] == JsonSensor(ms[k])
  {
    seq(|ms|, k requires 0 <= k < |ms| => JsonSensor(ms[k]))
  }

  /** The first `n` candidates whose id is not in `seen`, in order; `seen`
      does not grow. */
  function Unseen(cs: seq<Sensor>, n: nat, seen: set<string>): seq<Sensor>
    requires n <= |cs|
    decreases n
  {
    if n == 0 then [] else Unseen(cs, n - 1, seen) + (if cs[n - 1].id in seen then [] else [cs[n - 1]])
  }

  /** The sensors of the first `n` JSON matches whose stripped id is not in
      `seen` (a match's id is `JsonSensor(m).id`). */
  function JsonSensors(ms: seq<Groups>, n: nat, seen: set<string>): seq<Sensor>
    requires n <= |ms|
  {
    Unseen(JsonRows(ms), n, seen)
  }

  /** One more match extends the JSON pass by its sensor exactly when its
      stripped id is not in `seen`. */
  lemma JsonRowsStep(ms: seq<Groups>, i: nat, seen: set<string>)
    requires i < |ms|
    ensures Strip(ms[i].first) in seen ==> JsonSensors(ms, i + 1, seen) == JsonSensors(ms, i, seen)
    ensures Strip(ms[i].first) !in seen ==> JsonSensors(ms, i + 1, seen) == JsonSensors(ms, i, seen) + [JsonSensor(ms[i])]
  {
    var cs := JsonRows(ms);
    assert cs[i] == JsonSensor(ms[i]) && cs[i].id == Strip(ms[i].first);
  }

  /** A header row of the sensor table. */
  predicate IsHeader(name: string) { IsHeaderWord(Lower(name)) }

  /** The six column titles the table loop skips. */
  predicate IsHeaderWord(w: string) {
    w == "name" || w == "entity" || w == "sensor" || w == "state" || w == "value" || w == "type"
  }

  /** A state the table uses for "no reading". */
  predicate IsMissing(state: string) { state == "N/A" || state == "n/a" || state == "-" }

  /** `name.lower().replace(" ", "_")`. */
  function TableRowId(name: string): string {
    ReplaceChar(Lower(name), ' ', '_')
  }

  /** The sensor a table row would contribute if its id were new: header
      rows and rows with an empty or missing state give none. (The loop tests
      the id before parsing the state; parsing has no effect, so the order
      does not change the outcome.) */
  function TableRowSensor(m: Groups): Option<Sensor> {
    var name := Strip(m.first);
    if IsHeader(name) then None
    else
      var su := ParseStateUnit(Strip(m.second));
      if su.0 != "" && !IsMissing(su.0) then Some(Sensor(TableRowId(name), name, su.0, su.1)) else None
  }

  /** The candidate of each table row. */
  function TableRows(ms: seq<Groups>): (os: seq<Option<Sensor>>)
    ensures |os| == |ms| && forall k :: 0 <= k < |ms| ==> os[k] == TableRowSensor(ms[k])
    decreases |ms|
  {
    if ms == [] then [] else [TableRowSensor(ms[0])] + TableRows(ms[1..])
  }

  /** The table loop over the first `n` row candidates: a candidate is taken
      when its id is not yet in `seen_ids`, which then grows by it. */
  function TablePass(rows: seq<Option<Sensor>>, n: nat, seen: set<string>): (seq<Sensor>, set<string>)
    requires n <= |rows|
    decreases n
  {
    if n == 0 then ([], seen)
    else
      var prev := TablePass(rows, n - 1, seen);
      var row := rows[n - 1];
      if row.Some? && row.value.id !in prev.1 then (prev.0 + [row.value], prev.1 + {row.value.id}) else prev
  }

  /** `parse_esphome_web_page`: entity results, then JSON results, then
      table results. */
  function PageSensors(entity: seq<seq<Groups>>, json: seq<Groups>, table: seq<Groups>): seq<Sensor> {
    var e := EntityPass(entity, |entity|);
    e + JsonSensors(json, |json|, Ids(e)) + TablePass(TableRows(table), |table|, Ids(e)).0
  }

  /** The inner entity loop: the sensors of one pattern's matches (the
      per-match strip, skip and parse is EntitySensor). */
  method CollectMatchSensors(ms: seq<Groups>) returns (sensors: seq<Sensor>)
    ensures sensors == EntitySensors(ms)
  {
    sensors := [];
    for i := 0 to |ms|
      invariant sensors == EntitySensorsUpTo(ms, i)
    {
      sensors := sensors + Found(EntitySensor(ms[i]));
    }
  }

  /** The outer entity loop, over the entity patterns' match lists. */
  method CollectEntitySensors(entity: seq<seq<Groups>>) returns (sensors: seq<Sensor>)
    ensures sensors == EntityPass(entity, |entity|)
  {
    sensors := [];
    for p := 0 to |entity|
      invariant sensors == EntityPass(entity, p)
    {
      var found := CollectMatchSensors(entity[p]);
      sensors := sensors + found;
    }
  }

  /** The JSON loop: `seen` is read but not extended. */
  method CollectJsonSensors(json: seq<Groups>, seen: set<string>) returns (sensors: seq<Sensor>)
    ensures sensors == JsonSensors(json, |json|, seen)
  {
    sensors := [];
    for i := 0 to |json|
      invariant sensors == JsonSensors(json, i, seen)
    {
      JsonRowsStep(json, i, seen);
      if Strip(json[i].first) !in seen {
        sensors := sensors + [JsonSensor(json[i])];
      }
    }
  }

  /** The table loop: collects accepted rows and grows `seen` (the per-row
      header, state and id tests are TableRowSensor). */
  method CollectTableSensors(table: seq<Groups>, seen0: set<string>)
    returns (sensors: seq<Sensor>, seen: set<string>)
    ensures (sensors, seen) == TablePass(TableRows(table), |table|, seen0)
  {
    sensors, seen := [], seen0;
    for i := 0 to |table|
      invariant (sensors, seen) == TablePass(TableRows(table), i, seen0)
    {
      var row := TableRowSensor(table[i]);
      if row.Some? && row.value.id !in seen {
        sensors := sensors + [row.value];
        seen := seen + {row.value.id};
      }
    }
  }

  /** `parse_esphome_web_page` on the three patterns' `findall` results. */
  method ParseEsphomeWebPage(entity: seq<seq<Groups>>, json: seq<Groups>, table: seq<Groups>) returns (sensors: seq<Sensor>)
    ensures sensors == PageSensors(entity, json, table)
  {
    sensors := CollectEntitySensors(entity);
    var seenIds := Ids(sensors);
    var fromJson := CollectJsonSensors(json, seenIds);
    sensors := sensors + fromJson;
    var fromTable;
    fromTable, seenIds := CollectTableSensors(table, seenIds);
    sensors := sensors + fromTable;
  }

  // ---------------------------------------------------------------- what the page parser promises

  /** An entity-pattern sensor: non-empty id and state, display name of its id. */
  predicate EntityShaped(s: Sensor) {
    s.id != "" && s.state != "" && s.name == DisplayName(s.id)
  }

  predicate AllEntityShaped(ss: seq<Sensor>) {
    forall k :: 0 <= k < |ss| ==> EntityShaped(ss[k])
  }

  /** No sensor of `ss` has an id in `seen`. */
  predicate NoneSeen(ss: seq<Sensor>, seen: set<string>) {
    forall k :: 0 <= k < |ss| ==> ss[k].id !in seen
  }

  predicate DistinctIds(ss: seq<Sensor>) {
    forall p, q :: 0 <= p < q < |ss| ==> ss[p].id != ss[q].id
  }

  /** A table sensor: not a header row, id derived from the row name, a
      present state. */
  predicate TableShaped(s: Sensor) {
    && !IsHeader(s.name)
    && s.id == TableRowId(s.name)
    && s.state != "" && !IsMissing(s.state)
  }

  predicate AllTableShaped(ss: seq<Sensor>) {
    forall k :: 0 <= k < |ss| ==> TableShaped(ss[k])
  }

  /** A match with a non-empty stripped id and state gives a sensor, and that
      sensor has a non-empty state and the display name of its id. */
  lemma EntitySensorShaped(m: Groups)
    ensures EntitySensor(m).Some? <==> Strip(m.first) != "" && Strip(m.second) != ""
    ensures EntitySensor(m).Some? ==> EntityShaped(EntitySensor(m).value)
  {
    if EntitySensor(m).Some? {
      ParseStateNonEmpty(Strip(m.second));
    }
  }

  /** Exactly the matches with a non-empty stripped id and state contribute:
      each such match's sensor is in the result, each sensor of the result is
      some match's sensor, and all of them are entity-shaped. */
  lemma EntitySensorsSpec(ms: seq<Groups>)
    ensures forall k :: 0 <= k < |ms| && EntitySensor(ms[k]).Some? ==> EntitySensor(ms[k]).value in EntitySensors(ms)
    ensures forall x :: x in EntitySensors(ms) ==> exists k :: 0 <= k < |ms| && EntitySensor(ms[k]) == Some(x)
    ensures AllEntityShaped(EntitySensors(ms))
  {
    var rows := EntityRows(ms);
    EntitySensorsArePresent(ms, |ms|);
    PresentKeeps(rows, |ms|);
    PresentOnly(rows, |ms|);
    var ss := EntitySensors(ms);
    forall j | 0 <= j < |ss| ensures EntityShaped(ss[j]) {
      assert ss[j] in ss;
      var k :| 0 <= k < |ms| && rows[k] == Some(ss[j]);
      EntitySensorShaped(ms[k]);
    }
  }

  lemma AllEntityShapedAppend(a: seq<Sensor>, b: seq<Sensor>)
    requires AllEntityShaped(a) && AllEntityShaped(b)
    ensures AllEntityShaped(a + b)
  {
    assert forall k :: |a| <= k < |a + b| ==> (a + b)[k] == b[k - |a|];
  }

  lemma {:induction false} EntityPassSpec(lists: seq<seq<Groups>>, n: nat)
    requires n <= |lists|
    ensures AllEntityShaped(EntityPass(lists, n))
    decreases n
  {
    if n > 0 {
      EntityPassSpec(lists, n - 1);
      EntitySensorsSpec(lists[n - 1]);
      AllEntityShapedAppend(EntityPass(lists, n - 1), EntitySensors(lists[n - 1]));
    }
  }

  lemma {:induction false} UnseenFresh(cs: seq<Sensor>, n: nat, seen: set<string>)
    requires n <= |cs|
    ensures NoneSeen(Unseen(cs, n, seen), seen)
    decreases n
  {
    if n > 0 {
      UnseenFresh(cs, n - 1, seen);
    }
  }

  lemma {:induction false} UnseenCovers(cs: seq<Sensor>, n: nat, seen: set<string>)
    requires n <= |cs|
    ensures forall k :: 0 <= k < n && cs[k].id !in seen ==> cs[k] in Unseen(cs, n, seen)
    decreases n
  {
    if n > 0 {
      UnseenCovers(cs, n - 1, seen);
    }
  }

  lemma {:induction false} UnseenOnly(cs: seq<Sensor>, n: nat, seen: set<string>)
    requires n <= |cs|
    ensures forall x :: x in Unseen(cs, n, seen) ==> exists k :: 0 <= k < n && cs[k].id !in seen && x == cs[k]
    decreases n
  {
    if n > 0 {
      UnseenOnly(cs, n - 1, seen);
    }
  }

  /** No JSON sensor reuses an id in `seen`. */
  lemma JsonSensorsFresh(ms: seq<Groups>, n: nat, seen: set<string>)
    requires n <= |ms|
    ensures NoneSeen(JsonSensors(ms, n, seen), seen)
  {
    UnseenFresh(JsonRows(ms), n, seen);
  }

  /** Every one of the first `n` JSON matches whose id is not in `seen`
      yields its sensor. */
  lemma JsonSensorsCovers(ms: seq<Groups>, n: nat, seen: set<string>)
    requires n <= |ms|
    ensures forall k :: 0 <= k < n && Strip(ms[k].first) !in seen ==> JsonSensor(ms[k]) in JsonSensors(ms, n, seen)
  {
    var cs := JsonRows(ms);
    UnseenCovers(cs, n, seen);
    forall k | 0 <= k < n && Strip(ms[k].first) !in seen
      ensures JsonSensor(ms[k]) in JsonSensors(ms, n, seen)
    {
      assert cs[k] == JsonSensor(ms[k]) && cs[k].id == Strip(ms[k].first);
    }
  }

  /** Each JSON sensor is the sensor of one of the first `n` matches, and
      that match's id is not in `seen`. */
  lemma JsonSensorsOnly(ms: seq<Groups>, n: nat, seen: set<string>)
    requires n <= |ms|
    ensures forall x :: x in JsonSensors(ms, n, seen) ==>
      exists k :: 0 <= k < n && Strip(ms[k].first) !in seen && x == JsonSensor(ms[k])
  {
    var cs := JsonRows(ms);
    UnseenOnly(cs, n, seen);
    forall x | x in JsonSensors(ms, n, seen)
      ensures exists k :: 0 <= k < n && Strip(ms[k].first) !in seen && x == JsonSensor(ms[k])
    {
      var k :| 0 <= k < n && cs[k].id !in seen && x == cs[k];
      assert cs[k] == JsonSensor(ms[k]) && cs[k].id == Strip(ms[k].first);
    }
  }

  /** Each JSON sensor carries the display name of its id. */
  lemma JsonSensorsNamed(ms: seq<Groups>, n: nat, seen: set<string>)
    requires n <= |ms|
    ensures forall k :: 0 <= k < |JsonSensors(ms, n, seen)| ==>
      JsonSensors(ms, n, seen)[k].name == DisplayName(JsonSensors(ms, n, seen)[k].id)
  {
    var js := JsonSensors(ms, n, seen);
    JsonSensorsOnly(ms, n, seen);
    forall k | 0 <= k < |js| ensures js[k].name == DisplayName(js[k].id) {
      assert js[k] in js;
    }
  }

  lemma IdsAppend(ss: seq<Sensor>, s: Sensor)
    ensures Ids(ss + [s]) == Ids(ss) + {s.id}
  {
    assert forall x :: x in ss + [s] <==> x in ss || x == s;
  }

  /** The table pass grows `seen_ids` by exactly the ids it adds. */
  lemma {:induction false} TablePassSeen(rows: seq<Option<Sensor>>, n: nat, seen: set<string>)
    requires n <= |rows|
    ensures TablePass(rows, n, seen).1 == seen + Ids(TablePass(rows, n, seen).0)
    decreases n
  {
    if n > 0 {
      var prev := TablePass(rows, n - 1, seen);
      TablePassSeen(rows, n - 1, seen);
      if rows[n - 1].Some? && rows[n - 1].value.id !in prev.1 {
        IdsAppend(prev.0, rows[n - 1].value);
      }
    }
  }

  /** The sensors the table pass adds have new ids: none is in the initial
      `seen`, and they are pairwise distinct. */
  lemma {:induction false} TablePassFresh(rows: seq<Option<Sensor>>, n: nat, seen: set<string>)
    requires n <= |rows|
    ensures NoneSeen(TablePass(rows, n, seen).0, seen)
    ensures DistinctIds(TablePass(rows, n, seen).0)
    decreases n
  {
    if n > 0 {
      var prev := TablePass(rows, n - 1, seen);
      TablePassFresh(rows, n - 1, seen);
      TablePassSeen(rows, n - 1, seen);
      var row := rows[n - 1];
      if row.Some? && row.value.id !in prev.1 {
        var x := row.value;
        forall k | 0 <= k < |prev.0| ensures prev.0[k].id != x.id {
          assert prev.0[k] in prev.0;
        }
      }
    }
  }

  /** Every present candidate's id ends up in `seen_ids`: a row is dropped
      only when its id was already there. */
  lemma {:induction false} TablePassCovers(rows: seq<Option<Sensor>>, n: nat, seen: set<string>)
    requires n <= |rows|
    ensures forall k :: 0 <= k < n && rows[k].Some? ==> rows[k].value.id in TablePass(rows, n, seen).1
    ensures seen <= TablePass(rows, n, seen).1
    decreases n
  {
    if n > 0 {
      TablePassCovers(rows, n - 1, seen);
    }
  }

  /** Each sensor the table pass adds is one of the first `n` candidates. */
  lemma {:induction false} TablePassOnly(rows: seq<Option<Sensor>>, n: nat, seen: set<string>)
    requires n <= |rows|
    ensures forall x :: x in TablePass(rows, n, seen).0 ==> exists k :: 0 <= k < n && rows[k] == Some(x)
    decreases n
  {
    if n > 0 {
      TablePassOnly(rows, n - 1, seen);
    }
  }

  /** A row candidate is never a header row, has a present state and the id
      derived from its name. */
  lemma TableRowShaped(m: Groups)
    ensures TableRowSensor(m).Some? ==> TableShaped(TableRowSensor(m).value)
    ensures TableRowSensor(m).Some? ==> TableRowSensor(m).value.name == Strip(m.first)
  {
  }

  /** Header rows, empty and missing states never appear, and each id is
      derived from its row name. */
  lemma TableSensorsShaped(table: seq<Groups>, seen: set<string>)
    ensures AllTableShaped(TablePass(TableRows(table), |table|, seen).0)
  {
    var rows := TableRows(table);
    var t := TablePass(rows, |table|, seen).0;
    TablePassOnly(rows, |table|, seen);
    forall j | 0 <= j < |t| ensures TableShaped(t[j]) {
      assert t[j] in t;
      var k :| 0 <= k < |table| && rows[k] == Some(t[j]);
      TableRowShaped(table[k]);
    }
  }

  lemma NoneSeenAppend(a: seq<Sensor>, b: seq<Sensor>, seen: set<string>)
    requires NoneSeen(a, seen) && NoneSeen(b, seen)
    ensures NoneSeen(a + b, seen)
  {
    assert forall k :: |a| <= k < |a + b| ==> (a + b)[k] == b[k - |a|];
  }

  lemma SplitThree<T>(a: seq<T>, b: seq<T>, c: seq<T>)
    ensures (a + b + c)[..|a|] == a && (a + b + c)[|a|..] == b + c
    ensures (a + b + c)[|a + b + c| - |c|..] == c
    ensures (a + b + c)[|a|..|a + b + c| - |c|] == b
  {
    assert a + b + c == a + (b + c);
  }

  /** The page-level guarantees: entity results come first and each has
      a non-empty id and state; no later result reuses an entity id; the
      table results close the list and their ids are pairwise distinct. */
  lemma PageSensorsSpec(entity: seq<seq<Groups>>, json: seq<Groups>, table: seq<Groups>)
    ensures var e := EntityPass(entity, |entity|);
      var t := TablePass(TableRows(table), |table|, Ids(e)).0;
      var r := PageSensors(entity, json, table);
      && |e| + |t| <= |r| && r[..|e|] == e && r[|r| - |t|..] == t
      && AllEntityShaped(e)
      && NoneSeen(r[|e|..], Ids(e))
      && DistinctIds(t) && AllTableShaped(t)
  {
    var e := EntityPass(entity, |entity|);
    var js := JsonSensors(json, |json|, Ids(e));
    var t := TablePass(TableRows(table), |table|, Ids(e)).0;
    EntityPassSpec(entity, |entity|);
    JsonSensorsFresh(json, |json|, Ids(e));
    TablePassFresh(TableRows(table), |table|, Ids(e));
    TableSensorsShaped(table, Ids(e));
    SplitThree(e, js, t);
    NoneSeenAppend(js, t, Ids(e));
  }

  /** Between the entity and the table results stand exactly the sensors of
      the JSON matches whose id no entity result took: each such match
      yields one, and nothing else appears there. */
  lemma PageSensorsJson(entity: seq<seq<Groups>>, json: seq<Groups>, table: seq<Groups>)
    ensures var e := EntityPass(entity, |entity|);
      var t := TablePass(TableRows(table), |table|, Ids(e)).0;
      var r := PageSensors(entity, json, table);
      |e| + |t| <= |r| &&
      (forall k :: 0 <= k < |json| && Strip(json[k].first) !in Ids(e) ==> JsonSensor(json[k]) in r[|e|..|r| - |t|]) &&
      (forall j :: |e| <= j < |r| - |t| ==>
        exists k :: 0 <= k < |json| && Strip(json[k].first) !in Ids(e) && r[j] == JsonSensor(json[k]))
  {
    var e := EntityPass(entity, |entity|);
    var js := JsonSensors(json, |json|, Ids(e));
    var t := TablePass(TableRows(table), |table|, Ids(e)).0;
    var r := PageSensors(entity, json, table);
    assert r == e + js + t;
    SplitThree(e, js, t);
    assert r[|e|..|r| - |t|] == js;
    JsonSensorsCovers(json, |json|, Ids(e));
    JsonSensorsOnly(json, |json|, Ids(e));
    forall j | |e| <= j < |r| - |t|
      ensures exists k :: 0 <= k < |json| && Strip(json[k].first) !in Ids(e) && r[j] == JsonSensor(json[k])
    {
      assert r[j] == js[j - |e|] && js[j - |e|] in js;
    }
  }

  /** `seen_ids` is not extended by the JSON loop: two JSON matches with one
      id both appear. */
  lemma JsonDuplicatesKept()
    ensures var r := PageSensors([], [Groups("a", "1"), Groups("a", "2")], []);
      |r| == 2 && r[0].id == "a" && r[1].id == "a"
  {
    var ms := [Groups("a", "1"), Groups("a", "2")];
    assert Ids([]) == {};
    assert Strip("a") == "a";
    assert JsonSensors(ms, 2, {}) == [JsonSensor(ms[0]), JsonSensor(ms[1])];
  }

  /** A plain row "x" / "2" is taken as sensor x with state 2 and no unit. */
  lemma TableRowExample()
    ensures TableRowSensor(Groups("x", "2")) == Some(Sensor("x", "x", "2", ""))
  {
    BareNumberExample();
    assert Strip("x") == "x" && Strip("2") == "2";
    assert Lower("x") == "x";
    assert TableRowId("x") == "x";
  }

  /** Nor do JSON ids reach the table loop: a table row may repeat one. */
  lemma TableRepeatsJsonId()
    ensures var r := PageSensors([], [Groups("x", "1")], [Groups("x", "2")]);
      |r| == 2 && r[0].id == "x" && r[1].id == "x"
  {
    TableRowExample();
    assert Ids([]) == {};
    assert Strip("x") == "x";
    assert JsonSensors([Groups("x", "1")], 1, {}) == [JsonSensor(Groups("x", "1"))];
    assert TableRows([Groups("x", "2")]) == [Some(Sensor("x", "x", "2", ""))];
  }
}
