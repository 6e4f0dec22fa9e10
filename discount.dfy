/**
 * The maximum-discount extractor of the base scraper: four fixed regular
 * expressions searched with `re.findall` over the lower-cased page text, every
 * captured number inside the plausible window 5..90 kept, and the largest one
 * reported.
 *
 * Each pattern is modelled by the one match Python's backtracking matcher can
 * produce at a position (for these patterns, giving back a digit or a space
 * never lets the rest match), and `findall` by a left-to-right scan that
 * resumes after every match.
 */
module Discount {
  import opened Util

  /** Python's `\s`, restricted to ASCII whitespace. */
  predicate IsSpace(c: char)
  {
    c == ' ' || c == '\t' || c == '\n' || c == '\r' || c == '\U{000B}' || c == '\U{000C}'
  }

  /** End of the maximal run of digits that starts at `i`. */
  function RunEnd(t: string, i: nat): (j: nat)
    requires i <= |t|
    ensures i <= j <= |t|
    ensures forall k | i <= k < j :: IsDigit(t[k])
    ensures j == |t| || !IsDigit(t[j])
    decreases |t| - i
  {
    if i < |t| && IsDigit(t[i]) then RunEnd(t, i + 1) else i
  }

  /** End of the maximal run of whitespace that starts at `i`. */
  function SpaceEnd(t: string, i: nat): (j: nat)
    requires i <= |t|
    ensures i <= j <= |t|
    ensures forall k | i <= k < j :: IsSpace(t[k])
    ensures j == |t| || !IsSpace(t[j])
    decreases |t| - i
  {
    if i < |t| && IsSpace(t[i]) then SpaceEnd(t, i + 1) else i
  }

  /** One regex match: where it ends and which span its group captured. */
  datatype Match = Match(end: nat, capStart: nat, capEnd: nat)

  /** The four patterns, in the order the extractor tries them. */
  datatype Pattern =
    | UpTo         // (?:up to|upp till|bis zu)\s*(\d+)\s*%
    | PercentWord  // (\d+)\s*%\s*(?:off|rabatt|av)
    | Minus        // -\s*(\d+)\s*%
    | Bare         // (\d+)\s*%

  const Patterns: seq<Pattern> := [UpTo, PercentWord, Minus, Bare]

  /** `(\d+)\s*%` anchored at `i`. */
  function DigitsThenPercent(t: string, i: nat): (r: Option<Match>)
    requires i <= |t|
    ensures r.Some? ==> r.value.capStart == i && r.value.capEnd == RunEnd(t, i)
    ensures r.Some? ==> i < r.value.capEnd < r.value.end <= |t| && t[r.value.end - 1] == '%'
  {
    if i < |t| && IsDigit(t[i]) then
      var j := RunEnd(t, i);
      var k := SpaceEnd(t, j);
      if k < |t| && t[k] == '%' then Some(Match(k + 1, i, j)) else None
    else None
  }

  /** `prefix\s*(\d+)\s*%` anchored at `pos`. */
  function AfterPrefix(t: string, pos: nat, prefix: string): (r: Option<Match>)
    requires pos <= |t|
  {
    if OccursAt(t, prefix, pos) then DigitsThenPercent(t, SpaceEnd(t, pos + |prefix|)) else None
  }

  /** The first alternative that matches, as in a regex alternation. */
  function FirstOf<T>(a: Option<T>, b: Option<T>): Option<T>
  {
    if a.Some? then a else b
  }

  /** A match of the keyword alternation `(?:off|rabatt|av)` ending the pattern. */
  function WordAfter(t: string, w: nat): Option<nat>
  {
    if OccursAt(t, "off", w) then Some(w + 3)
    else if OccursAt(t, "rabatt", w) then Some(w + 6)
    else if OccursAt(t, "av", w) then Some(w + 2)
    else None
  }

  /** The match of pattern `p` that starts at `pos`, if any. */
  function MatchAt(p: Pattern, t: string, pos: nat): (r: Option<Match>)
    requires pos <= |t|
  {
    match p
    case UpTo =>
      FirstOf(AfterPrefix(t, pos, "up to"),
              FirstOf(AfterPrefix(t, pos, "upp till"), AfterPrefix(t, pos, "bis zu")))
    case PercentWord =>
      (match DigitsThenPercent(t, pos)
       case None => None
       case Some(m) =>
         match WordAfter(t, SpaceEnd(t, m.end))
         case None => None
         case Some(e) => Some(Match(e, m.capStart, m.capEnd)))
    case Minus => AfterPrefix(t, pos, "-")
    case Bare => DigitsThenPercent(t, pos)
  }

  /** `i` starts a maximal run of digits. */
  predicate IsRunStart(t: string, i: nat)
  {
    i < |t| && IsDigit(t[i]) && (i == 0 || !IsDigit(t[i - 1]))
  }

  /** `m` captured exactly what `(\d+)\s*%` captures at a maximal digit run. */
  predicate IsBareCapture(t: string, m: Match)
  {
    && IsRunStart(t, m.capStart)
    && DigitsThenPercent(t, m.capStart).Some?
    && DigitsThenPercent(t, m.capStart).value.capEnd == m.capEnd
  }

  /** A prefixed match starts its capture right after the prefix and any spaces. */
  lemma AfterPrefixShape(t: string, pos: nat, prefix: string)
    requires pos <= |t|
    requires prefix != [] && !IsDigit(prefix[|prefix| - 1])
    requires AfterPrefix(t, pos, prefix).Some?
    ensures var m := AfterPrefix(t, pos, prefix).value;
      && m.capStart == SpaceEnd(t, pos + |prefix|)
      && WellShaped(UpTo, t, pos, m) && WellShaped(Minus, t, pos, m)
  {
    var i := SpaceEnd(t, pos + |prefix|);
    if i == pos + |prefix| {
      assert t[i - 1] == t[pos..pos + |prefix|][|prefix| - 1];
    } else {
      assert IsSpace(t[i - 1]);
    }
  }

  lemma PercentWordShape(t: string, pos: nat)
    requires pos <= |t|
    requires MatchAt(PercentWord, t, pos).Some?
    ensures var m := MatchAt(PercentWord, t, pos).value;
      var d := DigitsThenPercent(t, pos).value;
      && d.capStart == m.capStart && d.capEnd == m.capEnd
      && pos < m.end <= |t| && !IsDigit(t[m.end - 1])
  {
    var m := MatchAt(PercentWord, t, pos).value;
    var d := DigitsThenPercent(t, pos).value;
    var w := SpaceEnd(t, d.end);
    if OccursAt(t, "off", w) {
      assert t[m.end - 1] == t[w..w + 3][2];
    } else if OccursAt(t, "rabatt", w) {
      assert t[m.end - 1] == t[w..w + 6][5];
    } else {
      assert t[m.end - 1] == t[w..w + 2][1];
    }
  }

  /** The facts the scan relies on about a match `m` of pattern `p` found at `pos`. */
  predicate WellShaped(p: Pattern, t: string, pos: nat, m: Match)
  {
    && pos < m.end <= |t|
    && !IsDigit(t[m.end - 1])
    && m.capStart < |t|
    && DigitsThenPercent(t, m.capStart).Some?
    && DigitsThenPercent(t, m.capStart).value.capEnd == m.capEnd
    && (if p.Bare? || p.PercentWord? then m.capStart == pos
        else m.capStart > pos && !IsDigit(t[m.capStart - 1]))
  }

  lemma UpToShape(t: string, pos: nat)
    requires pos <= |t|
    requires MatchAt(UpTo, t, pos).Some?
    ensures WellShaped(UpTo, t, pos, MatchAt(UpTo, t, pos).value)
  {
    var a := AfterPrefix(t, pos, "up to");
    var b := AfterPrefix(t, pos, "upp till");
    var c := AfterPrefix(t, pos, "bis zu");
    assert MatchAt(UpTo, t, pos) == FirstOf(a, FirstOf(b, c));
    if a.Some? {
      AfterPrefixShape(t, pos, "up to");
    } else if b.Some? {
      AfterPrefixShape(t, pos, "upp till");
    } else {
      AfterPrefixShape(t, pos, "bis zu");
    }
  }

  /** What every match of every pattern looks like. */
  lemma MatchAtShape(p: Pattern, t: string, pos: nat)
    requires pos <= |t|
    requires MatchAt(p, t, pos).Some?
    ensures WellShaped(p, t, pos, MatchAt(p, t, pos).value)
  {
    match p
    case PercentWord =>
      PercentWordShape(t, pos);
    case UpTo =>
      UpToShape(t, pos);
    case Minus =>
      AfterPrefixShape(t, pos, "-");
    case Bare =>
  }

  /** `re.findall(p, t[pos:])` as the list of matches, left to right. */
  function FindAll(p: Pattern, t: string, pos: nat): seq<Match>
    requires pos <= |t|
    decreases |t| - pos
  {
    if pos == |t| then []
    else
      match MatchAt(p, t, pos)
      case None => FindAll(p, t, pos + 1)
      case Some(m) =>
        MatchAtShape(p, t, pos);
        [m] + FindAll(p, t, m.end)
  }

  /** Python's `int(match)` on a captured group. */
  function ValueOf(t: string, m: Match): nat
  {
    if m.capStart <= m.capEnd <= |t| && AllDigits(t[m.capStart..m.capEnd])
    then DigitsValue(t[m.capStart..m.capEnd]) else 0
  }

  function Values(t: string, ms: seq<Match>): (vs: seq<nat>)
    ensures |vs| == |ms|
    ensures forall i | 0 <= i < |ms| :: vs[i] == ValueOf(t, ms[i])
  {
    seq(|ms|, i requires 0 <= i < |ms| => ValueOf(t, ms[i]))
  }

  /** The numbers `re.findall(p, t)` returns. */
  function PatternValues(p: Pattern, t: string): seq<nat>
  {
    Values(t, FindAll(p, t, 0))
  }

  /** Every number written as digits followed by optional whitespace and `%`. */
  function PercentValues(t: string): seq<nat>
  {
    PatternValues(Bare, t)
  }

  /** A digit-led match also matches one position earlier when that is a digit too. */
  lemma DigitLedShiftsLeft(p: Pattern, t: string, pos: nat)
    requires p.Bare? || p.PercentWord?
    requires 0 < pos <= |t| && IsDigit(t[pos - 1])
    requires MatchAt(p, t, pos).Some?
    ensures MatchAt(p, t, pos - 1).Some?
  {
    assert RunEnd(t, pos - 1) == RunEnd(t, pos);
    var d := DigitsThenPercent(t, pos).value;
    var d' := DigitsThenPercent(t, pos - 1).value;
    assert d'.end == d.end;
  }

  /** The match found at a position the scan may resume from captured a maximal run. */
  lemma MatchCapturesRun(p: Pattern, t: string, pos: nat)
    requires pos <= |t|
    requires pos == 0 || !IsDigit(t[pos - 1]) || MatchAt(p, t, pos - 1).None?
    requires MatchAt(p, t, pos).Some?
    ensures IsBareCapture(t, MatchAt(p, t, pos).value)
    ensures pos < MatchAt(p, t, pos).value.end <= |t|
    ensures !IsDigit(t[MatchAt(p, t, pos).value.end - 1])
  {
    MatchAtShape(p, t, pos);
    if (p.Bare? || p.PercentWord?) && pos > 0 && IsDigit(t[pos - 1]) {
      DigitLedShiftsLeft(p, t, pos);
    }
  }

  /**
   * Every match the scan reports captured a maximal digit run followed by
   * optional whitespace and `%`.  The precondition says the scan did not
   * resume in the middle of a run that could have matched one position earlier.
   */
  lemma {:induction false} FindAllCapturesRuns(p: Pattern, t: string, pos: nat)
    requires pos <= |t|
    requires pos == 0 || !IsDigit(t[pos - 1]) || MatchAt(p, t, pos - 1).None?
    ensures forall m | m in FindAll(p, t, pos) :: IsBareCapture(t, m)
    decreases |t| - pos, 1
  {
    if pos < |t| {
      if MatchAt(p, t, pos).None? {
        SkipCapturesRuns(p, t, pos);
      } else {
        TakeCapturesRuns(p, t, pos);
      }
    }
  }

  lemma {:induction false} SkipCapturesRuns(p: Pattern, t: string, pos: nat)
    requires pos < |t| && MatchAt(p, t, pos).None?
    ensures forall m | m in FindAll(p, t, pos) :: IsBareCapture(t, m)
    decreases |t| - pos, 0
  {
    FindAllCapturesRuns(p, t, pos + 1);
    assert FindAll(p, t, pos) == FindAll(p, t, pos + 1);
  }

  lemma {:induction false} TakeCapturesRuns(p: Pattern, t: string, pos: nat)
    requires pos < |t| && MatchAt(p, t, pos).Some?
    requires pos == 0 || !IsDigit(t[pos - 1]) || MatchAt(p, t, pos - 1).None?
    ensures forall m | m in FindAll(p, t, pos) :: IsBareCapture(t, m)
    decreases |t| - pos, 0
  {
    var m := MatchAt(p, t, pos).value;
    MatchCapturesRun(p, t, pos);
    FindAllCapturesRuns(p, t, m.end);
    FindAllTakes(p, t, pos);
    BareCapturesCons(t, m, FindAll(p, t, m.end));
  }

  /** A match at `pos` is reported, and the scan resumes where it ends. */
  lemma FindAllTakes(p: Pattern, t: string, pos: nat)
    requires pos < |t| && MatchAt(p, t, pos).Some?
    ensures MatchAt(p, t, pos).value.end <= |t|
    ensures FindAll(p, t, pos) == [MatchAt(p, t, pos).value] + FindAll(p, t, MatchAt(p, t, pos).value.end)
  {
    MatchAtShape(p, t, pos);
  }

  lemma BareCapturesCons(t: string, m: Match, rest: seq<Match>)
    requires IsBareCapture(t, m)
    requires forall x | x in rest :: IsBareCapture(t, x)
    ensures forall x | x in [m] + rest :: IsBareCapture(t, x)
  {
    forall x | x in [m] + rest ensures IsBareCapture(t, x) {
      if x != m { assert x in rest; }
    }
  }

  /** The bare pattern's scan reports every maximal run followed by `%`. */
  lemma {:induction false} BareFindsEveryRun(t: string, pos: nat, s: nat)
    requires pos <= s
    requires IsRunStart(t, s) && DigitsThenPercent(t, s).Some?
    ensures DigitsThenPercent(t, s).value in FindAll(Bare, t, pos)
    decreases |t| - pos
  {
    if pos < s {
      match MatchAt(Bare, t, pos)
      case None =>
        BareFindsEveryRun(t, pos + 1, s);
      case Some(m) =>
        assert s > 0 && !IsDigit(t[s - 1]) && IsDigit(t[s]);
        assert m.end <= s;
        BareFindsEveryRun(t, m.end, s);
    }
  }

  /**
   * The three context patterns add nothing: every number they capture is
   * also captured by the bare pattern `(\d+)\s*%`.
   */
  lemma ContextPatternsAddNothing(p: Pattern, t: string)
    ensures forall v | v in PatternValues(p, t) :: v in PercentValues(t)
  {
    FindAllCapturesRuns(p, t, 0);
    var ms := FindAll(p, t, 0);
    forall v | v in PatternValues(p, t) ensures v in PercentValues(t) {
      var i :| 0 <= i < |ms| && PatternValues(p, t)[i] == v;
      var m := ms[i];
      assert m in ms;
      var b := DigitsThenPercent(t, m.capStart).value;
      BareFindsEveryRun(t, 0, m.capStart);
      var bs := FindAll(Bare, t, 0);
      var j :| 0 <= j < |bs| && bs[j] == b;
      assert ValueOf(t, m) == ValueOf(t, b);
      assert PercentValues(t)[j] == v;
    }
  }

  /** The plausible discount window. */
  predicate InWindow(v: nat) { 5 <= v <= 90 }

  /** The largest value inside the window, or 0 when there is none. */
  function MaxInWindow(vs: seq<nat>): (m: nat)
    ensures m == 0 || (InWindow(m) && m in vs)
    ensures forall v | v in vs && InWindow(v) :: v <= m
    ensures m == 0 <==> forall v | v in vs :: !InWindow(v)
  {
    if vs == [] then 0
    else
      var init := vs[..|vs| - 1];
      var v := vs[|vs| - 1];
      assert vs == init + [v];
      var m := MaxInWindow(init);
      if InWindow(v) && v > m then v else m
  }

  /** Any value that is 0 or in-window, present, and above every in-window value is the maximum. */
  lemma MaxInWindowUnique(vs: seq<nat>, m: nat)
    requires m == 0 || (InWindow(m) && m in vs)
    requires forall v | v in vs && InWindow(v) :: v <= m
    ensures m == MaxInWindow(vs)
  {
  }

  /** The discount `_extract_max_discount` reports: None when no number is in range. */
  function MaxDiscount(t: string): (r: Option<nat>)
  {
    var m := MaxInWindow(PercentValues(t));
    if m > 0 then Some(m) else None
  }

  /** What the extractor promises, stated on the bare scan alone. */
  lemma MaxDiscountSpec(t: string)
    ensures MaxDiscount(t).None? <==> forall v | v in PercentValues(t) :: !InWindow(v)
    ensures MaxDiscount(t).Some? ==>
      && InWindow(MaxDiscount(t).value)
      && MaxDiscount(t).value in PercentValues(t)
      && forall v | v in PercentValues(t) && InWindow(v) :: v <= MaxDiscount(t).value
  {
  }

  /**
   * `_extract_max_discount`: run each of the four patterns, keep a running
   * maximum of the captured numbers that fall inside 5..90.
   */
  method ExtractMaxDiscount(t: string) returns (r: Option<nat>)
    ensures r == MaxDiscount(t)
    ensures r.Some? ==> InWindow(r.value)
  {
    var maxDiscount: nat := 0;
    var pi := 0;
    while pi < |Patterns|
      invariant 0 <= pi <= |Patterns|
      invariant maxDiscount == 0 || (InWindow(maxDiscount) && maxDiscount in PercentValues(t))
      invariant pi == |Patterns| ==>
        forall v | v in PercentValues(t) && InWindow(v) :: v <= maxDiscount
    {
      var p := Patterns[pi];
      var matches := FindAll(p, t, 0);
      ContextPatternsAddNothing(p, t);
      var mi := 0;
      while mi < |matches|
        invariant 0 <= mi <= |matches|
        invariant maxDiscount == 0 || (InWindow(maxDiscount) && maxDiscount in PercentValues(t))
        invariant forall k | 0 <= k < mi && InWindow(ValueOf(t, matches[k])) ::
          ValueOf(t, matches[k]) <= maxDiscount
      {
        var discount := ValueOf(t, matches[mi]);
        assert discount == PatternValues(p, t)[mi];
        if 5 <= discount <= 90 {
          maxDiscount := if maxDiscount >= discount then maxDiscount else discount;
        }
        mi := mi + 1;
      }
      if p == Bare {
        forall v | v in PercentValues(t) && InWindow(v) ensures v <= maxDiscount {
          var k :| 0 <= k < |matches| && PercentValues(t)[k] == v;
        }
      }
      pi := pi + 1;
    }
    MaxInWindowUnique(PercentValues(t), maxDiscount);
    r := if maxDiscount > 0 then Some(maxDiscount) else None;
  }

  /** A percentage outside the window is skipped: "95% 40%" reports 40. */
  lemma OutOfWindowIgnored()
    ensures MaxDiscount("95% 40%") == Some(40)
  {
    var t := "95% 40%";
    assert RunEnd(t, 0) == 2;
    assert SpaceEnd(t, 2) == 2;
    assert DigitsThenPercent(t, 0) == Some(Match(3, 0, 2));
    assert DigitsThenPercent(t, 3) == None;
    assert RunEnd(t, 4) == 6;
    assert SpaceEnd(t, 6) == 6;
    assert DigitsThenPercent(t, 4) == Some(Match(7, 4, 6));
    assert FindAll(Bare, t, 7) == [];
    assert FindAll(Bare, t, 4) == [Match(7, 4, 6)];
    assert FindAll(Bare, t, 3) == [Match(7, 4, 6)];
    assert FindAll(Bare, t, 0) == [Match(3, 0, 2), Match(7, 4, 6)];
    assert t[0..2] == "95";
    assert t[4..6] == "40";
    assert "95"[..1] == "9" && "9"[..0] == "";
    assert DigitsValue("95") == 95;
    assert "40"[..1] == "4" && "4"[..0] == "";
    assert DigitsValue("40") == 40;
    assert ValueOf(t, Match(3, 0, 2)) == 95;
    assert ValueOf(t, Match(7, 4, 6)) == 40;
    assert PercentValues(t) == [95, 40];
    assert MaxInWindow([95, 40]) == 40 by { assert [95, 40][..1] == [95]; }
  }
}
