/**
 * `src/bot/engine.ts`: the chatbot's free-text preference extractor
 * (`parsePrefs`) and its priority-ordered reply router (`replyToUser`).
 *
 * Every regular expression of the extractor is modelled by hand as the
 * leftmost match a backtracking engine finds; the comments on each pattern say
 * why the model's search visits the same candidates in the same order. The
 * rupee sign in the patterns is one optional character; the file stores it
 * mis-encoded as three characters, which, read literally, would make its first
 * two characters mandatory in the patterns.
 */
module Engine {
  import opened Wrappers
  import opened Strings
  import opened LeadDraft
  import opened Localities

  const RUPEE: char := '\U{20B9}'
  const EN_DASH: char := '\U{2013}'

  /** `norm`: lower-case, then trim. */
  function Norm(s: string): (r: string)
    ensures |r| <= |s|
    ensures r == [] || (!IsSpace(r[0]) && !IsSpace(r[|r| - 1]))
  {
    Trim(Lower(s))
  }

  /** The normalised text has no upper-case letter left. */
  lemma NormLowerCase(s: string)
    ensures forall i :: 0 <= i < |Norm(s)| ==> !('A' <= Norm(s)[i] <= 'Z')
  {
    var start := TrimSlice(Lower(s));
  }

  /** The normalised text is a lower-cased piece of the input: only its ends are dropped. */
  lemma NormIsLoweredSlice(s: string) returns (start: nat)
    ensures start + |Norm(s)| <= |s|
    ensures forall i :: 0 <= i < |Norm(s)| ==> Norm(s)[i] == LowerChar(s[start + i])
  {
    var lowered := Lower(s);
    start := TrimSlice(lowered);
    var r := Trim(lowered);
    forall i | 0 <= i < |r| ensures r[i] == LowerChar(s[start + i]) {
      assert r[i] == lowered[start + i];
    }
  }

  /** Normalising twice is normalising once. */
  lemma NormIdempotent(s: string)
    ensures Norm(Norm(s)) == Norm(s)
  {
    NormLowerCase(s);
    LowerIdentity(Norm(s));
    TrimIdempotent(Lower(s));
  }

  /** `\b` at position `x`: exactly one of the neighbouring characters is a word character. */
  predicate Boundary(s: string, x: int)
    requires 0 <= x <= |s|
  {
    (x > 0 && IsWordChar(s[x - 1])) != (x < |s| && IsWordChar(s[x]))
  }

  // ---------------------------------------------------------------- area

  /** The suburb whose name occurs first in the priority Malad, Kandivali, Borivali. */
  function SuburbMentioned(q: string): (r: Option<Suburb>)
    ensures r.Some? ==> Contains(q, Lower(SuburbName(r.value)))
    ensures r == Some(Kandivali) ==> !Contains(q, "malad")
    ensures r == Some(Borivali) ==> !Contains(q, "malad") && !Contains(q, "kandivali")
    ensures r.None? <==> !Contains(q, "malad") && !Contains(q, "kandivali") && !Contains(q, "borivali")
  {
    assert Lower("Malad") == "malad" && Lower("Kandivali") == "kandivali" && Lower("Borivali") == "borivali";
    if Contains(q, "malad") then Some(Malad)
    else if Contains(q, "kandivali") then Some(Kandivali)
    else if Contains(q, "borivali") then Some(Borivali)
    else None
  }

  predicate WestCue(q: string) {
    Contains(q, "west") || Contains(q, "w ") || EndsWith(q, " w")
  }

  predicate EastCue(q: string) {
    Contains(q, "east") || Contains(q, "e ") || EndsWith(q, " e")
  }

  /** The side named in the text; a West cue wins over an East cue. */
  function SideMentioned(q: string): (r: Option<Side>)
    ensures r == Some(West) <==> WestCue(q)
    ensures r == Some(East) <==> !WestCue(q) && EastCue(q)
  {
    if WestCue(q) then Some(West) else if EastCue(q) then Some(East) else None
  }

  /** The `areaMatch` of the extractor: set only when both a suburb and a side are found. */
  function AreaRule(q: string): (r: Option<Area>)
    ensures r.Some? <==> SuburbMentioned(q).Some? && SideMentioned(q).Some?
    ensures r.Some? ==> r.value.suburb == SuburbMentioned(q).value && r.value.side == SideMentioned(q).value
  {
    match (SuburbMentioned(q), SideMentioned(q))
    case (Some(suburb), Some(side)) => Some(Area(suburb, side))
    case _ => None
  }

  /** The summary parts of the area rule: the area, or one East/West hint per suburb mentioned. */
  function AreaParts(q: string, area: Option<Area>): seq<string> {
    if area.Some? then ["Area: " + AreaName(area.value)]
    else
      (if Contains(q, "malad") then ["Area: Malad (East/West?)"] else []) +
      (if Contains(q, "kandivali") then ["Area: Kandivali (East/West?)"] else []) +
      (if Contains(q, "borivali") then ["Area: Borivali (East/West?)"] else [])
  }

  // ---------------------------------------------------------------- bhk

  /**
   * `\b(1|2)\s*<suffix>\b` matched at index `i`. The suffixes start with a
   * letter, so the greedy `\s*` never has to give anything back.
   */
  predicate BhkAt(q: string, suffix: string, i: nat) {
    i < |q| && (q[i] == '1' || q[i] == '2') && Boundary(q, i) &&
    var p := SkipSpaces(q, i + 1);
    OccursAt(q, suffix, p) && Boundary(q, p + |suffix|)
  }

  /** The leftmost match of `\b(1|2)\s*<suffix>\b`, as the index of its digit. */
  function BhkMatch(q: string, suffix: string): (r: Option<nat>)
    ensures r.Some? ==> BhkAt(q, suffix, r.value) && forall j :: 0 <= j < r.value ==> !BhkAt(q, suffix, j)
    ensures r.None? ==> forall j :: 0 <= j < |q| ==> !BhkAt(q, suffix, j)
  {
    var matchesAt := (j: nat) => BhkAt(q, suffix, j);
    assert forall j: nat :: matchesAt(j) == BhkAt(q, suffix, j);
    FirstFrom(0, |q|, matchesAt)
  }

  function BhkOfDigit(c: char): Bhk {
    if c == '1' then One else Two
  }

  /** Some unit pattern matches at `j`. */
  predicate AnyBhkAt(q: string, j: nat) {
    BhkAt(q, "bhk", j) || BhkAt(q, "b", j) || BhkAt(q, "bed", j)
  }

  /** The bhk rule: the three patterns in turn, then the "1bhk"/"2bhk" substring fallback. */
  function BhkRule(q: string): (r: Option<Bhk>)
    ensures r.Some? ==> r.value == One || r.value == Two
    ensures r.Some? ==> Contains(q, BhkCode(r.value) + "bhk") ||
                        exists j :: 0 <= j < |q| && AnyBhkAt(q, j) && BhkCode(r.value) == [q[j]]
    ensures r.None? <==> (forall j :: 0 <= j < |q| ==> !AnyBhkAt(q, j)) &&
                         !Contains(q, "1bhk") && !Contains(q, "2bhk")
    // The patterns in turn: "bhk" wherever it is, then "b", then "bed", then the fallbacks.
    ensures BhkMatch(q, "bhk").Some? ==> r == Some(BhkOfDigit(q[BhkMatch(q, "bhk").value]))
    ensures BhkMatch(q, "bhk").None? && BhkMatch(q, "b").Some? ==>
      r == Some(BhkOfDigit(q[BhkMatch(q, "b").value]))
    ensures BhkMatch(q, "bhk").None? && BhkMatch(q, "b").None? && BhkMatch(q, "bed").Some? ==>
      r == Some(BhkOfDigit(q[BhkMatch(q, "bed").value]))
    ensures BhkMatch(q, "bhk").None? && BhkMatch(q, "b").None? && BhkMatch(q, "bed").None? ==>
      r == (if Contains(q, "1bhk") then Some(One) else if Contains(q, "2bhk") then Some(Two) else None)
  {
    var m1, m2, m3 := BhkMatch(q, "bhk"), BhkMatch(q, "b"), BhkMatch(q, "bed");
    if m1.Some? then
      assert AnyBhkAt(q, m1.value);
      Some(BhkOfDigit(q[m1.value]))
    else if m2.Some? then
      assert AnyBhkAt(q, m2.value);
      Some(BhkOfDigit(q[m2.value]))
    else if m3.Some? then
      assert AnyBhkAt(q, m3.value);
      Some(BhkOfDigit(q[m3.value]))
    else if Contains(q, "1bhk") then
      assert BhkCode(One) + "bhk" == "1bhk";
      Some(One)
    else if Contains(q, "2bhk") then
      assert BhkCode(Two) + "bhk" == "2bhk";
      Some(Two)
    else None
  }

  /** In "2 bed 1bhk" the `\s*` after the first digit ends at index 2. */
  lemma SkipAfterTwo()
    ensures SkipSpaces("2 bed 1bhk", 1) == 2
  {
    assert IsSpace("2 bed 1bhk"[1]) && !IsSpace("2 bed 1bhk"[2]);
  }

  /** "2 bed" matches the "bed" pattern at the start of "2 bed 1bhk". */
  lemma BedMatchesFirst()
    ensures BhkAt("2 bed 1bhk", "bed", 0)
  {
    SkipAfterTwo();
    assert "2 bed 1bhk"[2..5] == "bed";
  }

  /** The "bhk" pattern does not match at the start of "2 bed 1bhk". */
  lemma NoBhkAtStart()
    ensures !BhkAt("2 bed 1bhk", "bhk", 0)
  {
    SkipAfterTwo();
    assert "2 bed 1bhk"[3] == 'e';
  }

  /** "1bhk" matches the "bhk" pattern at index 6 of "2 bed 1bhk". */
  lemma BhkMatchesAtSix()
    ensures BhkAt("2 bed 1bhk", "bhk", 6)
  {
    var q := "2 bed 1bhk";
    assert SkipSpaces(q, 7) == 7 by {
      assert !IsSpace(q[7]);
    }
    assert q[7..10] == "bhk";
  }

  /** The leftmost "bhk" match in "2 bed 1bhk" is the one at index 6. */
  lemma FirstBhkAtSix()
    ensures BhkMatch("2 bed 1bhk", "bhk") == Some(6)
  {
    var q := "2 bed 1bhk";
    BhkMatchesAtSix();
    NoBhkAtStart();
    assert forall j :: 1 <= j < 6 ==> q[j] != '1' && q[j] != '2';
  }

  /**
   * The "bhk" pattern is tried first over the whole text: in "2 bed 1bhk" the
   * "bed" pattern matches earlier, yet the bhk read is 1.
   */
  lemma BhkPatternBeatsBed()
    ensures BhkAt("2 bed 1bhk", "bed", 0)
    ensures BhkRule("2 bed 1bhk") == Some(One)
  {
    BedMatchesFirst();
    FirstBhkAtSix();
    assert "2 bed 1bhk"[6] == '1';
  }

  function BhkParts(bhk: Option<Bhk>): seq<string> {
    if bhk.Some? then [BhkCode(bhk.value) + "BHK"] else []
  }

  // ---------------------------------------------------------------- furnishing, profile, move-in

  const FULLY_FURNISHED: seq<string> := ["furnished", "fully furnished", "full furnished"]
  const SEMI_FURNISHED: seq<string> := ["semi", "semi-furnished", "semi furnished"]
  const UNFURNISHED: seq<string> := ["unfurnished", "un-furnished"]

  /** The furnishing rule: F, then S, then U, first match wins. */
  function FurnishingRule(q: string): (r: Option<Furnishing>)
    ensures r == Some(F) <==> HasAny(q, FULLY_FURNISHED)
    ensures r == Some(S) <==> !HasAny(q, FULLY_FURNISHED) && HasAny(q, SEMI_FURNISHED)
    ensures r == Some(U) <==> !HasAny(q, FULLY_FURNISHED) && !HasAny(q, SEMI_FURNISHED) && HasAny(q, UNFURNISHED)
    ensures r.None? <==> !HasAny(q, FULLY_FURNISHED) && !HasAny(q, SEMI_FURNISHED) && !HasAny(q, UNFURNISHED)
  {
    if HasAny(q, FULLY_FURNISHED) then Some(F)
    else if HasAny(q, SEMI_FURNISHED) then Some(S)
    else if HasAny(q, UNFURNISHED) then Some(U)
    else None
  }

  lemma ContainsFurnished(w: string, at: nat)
    requires at + 9 <= |w| && w[at..at + 9] == "furnished"
    ensures Contains(w, "furnished")
  {
    ContainsAt(w, "furnished", at);
  }

  /**
   * Every "unfurnished" and "semi-furnished" text contains "furnished", which
   * the F rule checks first: the rule never yields U, and yields S only for a
   * text without "furnished".
   */
  lemma FurnishedShadowsOthers(q: string)
    ensures FurnishingRule(q) != Some(U)
    ensures FurnishingRule(q) == Some(S) ==> !Contains(q, "furnished")
  {
    assert FULLY_FURNISHED[0] == "furnished";
    if HasAny(q, UNFURNISHED) {
      var k :| 0 <= k < |UNFURNISHED| && Contains(q, UNFURNISHED[k]);
      if k == 0 {
        assert "unfurnished"[2..11] == "furnished";
        ContainsFurnished("unfurnished", 2);
      } else {
        assert "un-furnished"[3..12] == "furnished";
        ContainsFurnished("un-furnished", 3);
      }
      HasAnyVia(q, UNFURNISHED[k], FULLY_FURNISHED, 0);
    }
  }

  function FurnishingParts(f: Option<Furnishing>): seq<string> {
    match f
    case None => []
    case Some(F) => ["Furnished"]
    case Some(S) => ["Semi-furnished"]
    case Some(U) => ["Unfurnished"]
  }

  const FAMILY_WORDS: seq<string> := ["family"]
  const BACHELOR_WORDS: seq<string> := ["bachelor", "single", "boys", "girls"]
  const COMPANY_WORDS: seq<string> := ["company", "corporate"]

  /** The profile rule: Family, then Bachelor, then Company, first match wins. */
  function ProfileRule(q: string): (r: Option<Profile>)
    ensures r == Some(Family) <==> HasAny(q, FAMILY_WORDS)
    ensures r == Some(Bachelor) <==> !HasAny(q, FAMILY_WORDS) && HasAny(q, BACHELOR_WORDS)
    ensures r == Some(Company) <==> !HasAny(q, FAMILY_WORDS) && !HasAny(q, BACHELOR_WORDS) && HasAny(q, COMPANY_WORDS)
    ensures r.None? <==> !HasAny(q, FAMILY_WORDS) && !HasAny(q, BACHELOR_WORDS) && !HasAny(q, COMPANY_WORDS)
  {
    if HasAny(q, FAMILY_WORDS) then Some(Family)
    else if HasAny(q, BACHELOR_WORDS) then Some(Bachelor)
    else if HasAny(q, COMPANY_WORDS) then Some(Company)
    else None
  }

  function ProfileParts(p: Option<Profile>): seq<string> {
    match p
    case None => []
    case Some(Family) => ["Profile: Family"]
    case Some(Bachelor) => ["Profile: Bachelor"]
    case Some(Company) => ["Profile: Company"]
  }

  const IMMEDIATE_WORDS: seq<string> := ["immediate", "today", "asap"]
  const DAY_WORDS: seq<string> := ["day", "days", "within"]
  const MONTH_WORDS: seq<string> := ["30", "month", "1 month", "one month", "30+"]

  /** The move-in rule: Immediate, then "7", then "15", then "30+", first match wins. */
  function MoveInRule(q: string): (r: Option<MoveIn>)
    ensures r == Some(Immediate) <==> HasAny(q, IMMEDIATE_WORDS)
    ensures r == Some(Within7) <==>
      !HasAny(q, IMMEDIATE_WORDS) && Contains(q, "7") && HasAny(q, DAY_WORDS)
    ensures r == Some(Within15) <==>
      !HasAny(q, IMMEDIATE_WORDS) && !(Contains(q, "7") && HasAny(q, DAY_WORDS)) &&
      Contains(q, "15") && HasAny(q, DAY_WORDS)
    ensures r == Some(ThirtyPlus) <==>
      !HasAny(q, IMMEDIATE_WORDS) && !(Contains(q, "7") && HasAny(q, DAY_WORDS)) &&
      !(Contains(q, "15") && HasAny(q, DAY_WORDS)) && HasAny(q, MONTH_WORDS)
    ensures r.None? <==>
      !HasAny(q, IMMEDIATE_WORDS) && !(Contains(q, "7") && HasAny(q, DAY_WORDS)) &&
      !(Contains(q, "15") && HasAny(q, DAY_WORDS)) && !HasAny(q, MONTH_WORDS)
  {
    if HasAny(q, IMMEDIATE_WORDS) then Some(Immediate)
    else if Contains(q, "7") && HasAny(q, DAY_WORDS) then Some(Within7)
    else if Contains(q, "15") && HasAny(q, DAY_WORDS) then Some(Within15)
    else if HasAny(q, MONTH_WORDS) then Some(ThirtyPlus)
    else None
  }

  /** A "7" anywhere counts, so "17 days" (or "27 days") reads as a seven-day move-in. */
  lemma SeventeenReadsAsSeven(q: string)
    requires Contains(q, "17") && HasAny(q, DAY_WORDS) && !HasAny(q, IMMEDIATE_WORDS)
    ensures MoveInRule(q) == Some(Within7)
  {
    assert "17"[1..2] == "7";
    ContainsAt("17", "7", 1);
    ContainsTransitive(q, "17", "7");
  }

  function MoveInParts(m: Option<MoveIn>): seq<string> {
    match m
    case None => []
    case Some(Immediate) => ["Move-in: Immediate"]
    case Some(Within7) => ["Move-in: 7 days"]
    case Some(Within15) => ["Move-in: 15 days"]
    case Some(ThirtyPlus) => ["Move-in: 30+"]
  }

  // ---------------------------------------------------------------- budget

  datatype Unit = KUnit | LakhUnit | NoUnit

  /** `toK` on an integer amount: lakhs times 100, thousands as they are, bare rupees rounded to thousands. */
  function ToK(v: nat, u: Unit): (k: nat)
    ensures u == KUnit ==> k == v
    ensures u == LakhUnit ==> k == 100 * v
    ensures u == NoUnit && v < 1000 ==> k == v
    ensures u == NoUnit && v >= 1000 ==> 1000 * k <= v + 500 < 1000 * k + 1000
  {
    match u
    case LakhUnit => 100 * v
    case KUnit => v
    case NoUnit => if v >= 1000 then (v + 500) / 1000 else v
  }

  /** A `\d+` run starts at `i`: a greedy `\d+` in a leftmost match always covers a whole run. */
  predicate RunStart(q: string, i: nat) {
    i < |q| && IsDigit(q[i]) && (i == 0 || !IsDigit(q[i - 1]))
  }

  /** The value of the digit run from `i` to `e` */
  function RunValue(q: string, i: nat, e: nat): nat
    requires i <= e <= |q| && forall k :: i <= k < e ==> IsDigit(q[k])
  {
    assert AllDigits(q[i..e]) by {
      forall k | 0 <= k < e - i ensures IsDigit(q[i..e][k]) { assert q[i..e][k] == q[i + k]; }
    }
    DigitsValue(q[i..e])
  }

  /**
   * `\s*(?:-|to)\s*₹?\s*\d+\s*(?:k|l|lakh)?` from `p` (the tail of the range
   * pattern after its first amount): the second amount, or `None`. In the unit
   * alternation "l" is tried before "lakh" and nothing follows, so "lakh" is
   * captured as "l", which converts alike.
   */
  function RangeTail(q: string, p: nat): Option<(nat, Unit)>
    requires p <= |q|
  {
    var s := SkipSpaces(q, p);
    if !(s < |q| && q[s] == '-') && !OccursAt(q, "to", s) then None
    else
      var t0 := SkipSpaces(q, if s < |q| && q[s] == '-' then s + 1 else s + 2);
      var t := if t0 < |q| && q[t0] == RUPEE then SkipSpaces(q, t0 + 1) else t0;
      if t < |q| && IsDigit(q[t]) then
        var e := SkipDigits(q, t);
        var u := SkipSpaces(q, e);
        var unit := if u < |q| && q[u] == 'k' then KUnit else if u < |q| && q[u] == 'l' then LakhUnit else NoUnit;
        Some((RunValue(q, t, e), unit))
      else None
  }

  /**
   * The range pattern `(₹?\s*\d+\s*(?:k|l|lakh)?)\s*(?:-|to)\s*(₹?\s*\d+\s*(?:k|l|lakh)?)`
   * with its first amount on the digit run at `i`: the two amounts converted by
   * `toK`. The optional unit is tried as "k", "l", "lakh" and then as absent,
   * each against the rest of the pattern.
   */
  function RangeAt(q: string, i: nat): Option<(nat, nat)> {
    if !RunStart(q, i) then None
    else
      var e := SkipDigits(q, i);
      var v := RunValue(q, i, e);
      var p := SkipSpaces(q, e);
      var first: Option<(Unit, (nat, Unit))> :=
        if OccursAt(q, "k", p) && RangeTail(q, p + 1).Some? then Some((KUnit, RangeTail(q, p + 1).value))
        else if OccursAt(q, "l", p) && RangeTail(q, p + 1).Some? then Some((LakhUnit, RangeTail(q, p + 1).value))
        else if OccursAt(q, "lakh", p) && RangeTail(q, p + 4).Some? then Some((LakhUnit, RangeTail(q, p + 4).value))
        else if RangeTail(q, p).Some? then Some((NoUnit, RangeTail(q, p).value))
        else None;
      match first
      case None => None
      case Some((u1, (w, u2))) => Some((ToK(v, u1), ToK(w, u2)))
  }

  /**
   * The single-amount pattern `₹?\s*(\d+)\s*(k|l|lakh)\b` on the run at `i`:
   * the amount converted by `toK` on the digits and the unit together.
   */
  function SingleAt(q: string, i: nat): Option<nat> {
    if !RunStart(q, i) then None
    else
      var e := SkipDigits(q, i);
      var v := RunValue(q, i, e);
      var p := SkipSpaces(q, e);
      if OccursAt(q, "k", p) && Boundary(q, p + 1) then Some(ToK(v, KUnit))
      else if OccursAt(q, "l", p) && Boundary(q, p + 1) then Some(ToK(v, LakhUnit))
      else if OccursAt(q, "lakh", p) && Boundary(q, p + 4) then Some(ToK(v, LakhUnit))
      else None
  }

  /** The leftmost match of the range pattern, as the start of its first digit run. */
  function FirstRange(q: string): (r: Option<nat>)
    ensures r.Some? ==> r.value < |q| && RangeAt(q, r.value).Some?
    ensures r.Some? ==> forall j :: 0 <= j < r.value ==> RangeAt(q, j).None?
    ensures r.None? ==> forall j :: 0 <= j < |q| ==> RangeAt(q, j).None?
  {
    var matchesAt := (j: nat) => RangeAt(q, j).Some?;
    assert forall j: nat :: matchesAt(j) == RangeAt(q, j).Some?;
    FirstFrom(0, |q|, matchesAt)
  }

  /** The leftmost match of the single-amount pattern, as the start of its digit run. */
  function FirstSingle(q: string): (r: Option<nat>)
    ensures r.Some? ==> r.value < |q| && SingleAt(q, r.value).Some?
    ensures r.Some? ==> forall j :: 0 <= j < r.value ==> SingleAt(q, j).None?
    ensures r.None? ==> forall j :: 0 <= j < |q| ==> SingleAt(q, j).None?
  {
    var matchesAt := (j: nat) => SingleAt(q, j).Some?;
    assert forall j: nat :: matchesAt(j) == SingleAt(q, j).Some?;
    FirstFrom(0, |q|, matchesAt)
  }

  datatype BudgetMatch = RangeMatch(a: nat, b: nat) | SingleMatch(k: nat)

  /** The budget rule: the leftmost range match, or, only when there is none, the leftmost single amount. */
  function BudgetRule(q: string): (r: Option<BudgetMatch>)
    ensures r.Some? && r.value.RangeMatch? <==> FirstRange(q).Some?
    ensures r.Some? && r.value.SingleMatch? <==> FirstRange(q).None? && FirstSingle(q).Some?
  {
    match FirstRange(q)
    case Some(i) =>
      var (a, b) := RangeAt(q, i).value;
      Some(RangeMatch(a, b))
    case None =>
      match FirstSingle(q)
      case Some(i) => Some(SingleMatch(SingleAt(q, i).value))
      case None => None
  }

  function Min(a: int, b: int): int { if a <= b then a else b }
  function Max(a: int, b: int): int { if a >= b then a else b }

  /** The budget window a match sets: ordered bounds for a range, a ten-thousand margin for a single amount. */
  function BudgetBounds(m: BudgetMatch): (r: (int, int))
    ensures m.RangeMatch? ==> r.0 <= r.1 && ((r.0 == m.a && r.1 == m.b) || (r.0 == m.b && r.1 == m.a))
    ensures m.SingleMatch? ==> r.0 == (if m.k >= 30 then m.k - 10 else 20) && r.1 == m.k + 10
  {
    match m
    case RangeMatch(a, b) => (Min(a, b), Max(a, b))
    case SingleMatch(k) => (Max(20, k - 10), k + 10)
  }

  /** The single-amount window is ordered only from 10k up: "5k" sets 20 to 15. */
  lemma SingleWindowOrderedFromTen(k: nat)
    ensures var r := BudgetBounds(SingleMatch(k)); r.0 <= r.1 <==> k >= 10
  {
  }

  /** A one-digit run followed by a point matches neither pattern: no unit, dash or "to" follows it. */
  lemma NoMatchBeforePoint(q: string, i: nat)
    requires RunStart(q, i) && i + 1 < |q| && q[i + 1] == '.'
    ensures RangeAt(q, i).None? && SingleAt(q, i).None?
  {
    assert SkipDigits(q, i + 1) == i + 1;
    assert SkipDigits(q, i) == i + 1;
    assert SkipSpaces(q, i + 1) == i + 1;
    assert !OccursAt(q, "k", i + 1) && !OccursAt(q, "l", i + 1) && !OccursAt(q, "lakh", i + 1);
    NoTailAt(q, i + 1);
  }

  /** No range tail starts at the end of the text or at a character other than a space, a dash or 't'. */
  lemma NoTailAt(q: string, p: nat)
    requires p <= |q| && (p == |q| || (!IsSpace(q[p]) && q[p] != '-' && q[p] != 't'))
    ensures RangeTail(q, p).None?
  {
    assert SkipSpaces(q, p) == p;
    assert !OccursAt(q, "to", p) by {
      if p + 2 <= |q| { assert q[p..p + 2][0] == q[p]; }
    }
  }

  /** A one-digit run followed by " lakh" at the end of the text: where the run and the unit end. */
  lemma LakhAtEndSteps(q: string, i: nat)
    requires RunStart(q, i) && i + 6 == |q| && q[i + 1] == ' ' && q[i + 2..] == "lakh"
    ensures SkipDigits(q, i) == i + 1 && SkipSpaces(q, i + 1) == i + 2
    ensures q[i + 2] == 'l' && q[i + 3] == 'a'
    ensures OccursAt(q, "l", i + 2) && OccursAt(q, "lakh", i + 2)
    ensures RunValue(q, i, i + 1) == DigitValue(q[i])
  {
    assert q[i + 2] == 'l' && q[i + 3] == 'a' by { assert q[i + 2..][0] == q[i + 2] && q[i + 2..][1] == q[i + 3]; }
    assert SkipDigits(q, i + 1) == i + 1;
    assert SkipSpaces(q, i + 2) == i + 2;
    assert RunValue(q, i, i + 1) == DigitValue(q[i]) by {
      var d := q[i..i + 1];
      assert RunValue(q, i, i + 1) == DigitsValue(d);
      assert d[..0] == [] && d[0] == q[i];
      assert DigitsValue(d) == 10 * DigitsValue(d[..0]) + DigitValue(d[0]);
    }
    assert OccursAt(q, "lakh", i + 2) by { assert q[i + 2..i + 6] == q[i + 2..]; }
  }

  /** A one-digit run followed by " lakh" at the end of the text starts no range. */
  lemma LakhAtEndNoRange(q: string, i: nat)
    requires RunStart(q, i) && i + 6 == |q| && q[i + 1] == ' ' && q[i + 2..] == "lakh"
    ensures RangeAt(q, i).None?
  {
    LakhAtEndSteps(q, i);
    NoTailAt(q, i + 2);
    NoTailAt(q, i + 3);
    NoTailAt(q, i + 6);
  }

  /** A one-digit run followed by " lakh" at the end of the text is that digit in lakh. */
  lemma LakhAtEndSingle(q: string, i: nat)
    requires RunStart(q, i) && i + 6 == |q| && q[i + 1] == ' ' && q[i + 2..] == "lakh"
    ensures SingleAt(q, i) == Some(100 * DigitValue(q[i]))
  {
    LakhAtEndSteps(q, i);
    assert !Boundary(q, i + 3) && Boundary(q, i + 6);
  }

  /** With no range match, the budget is the single amount at the first position where one matches. */
  lemma SingleWhenNoRange(q: string, i: nat)
    requires FirstRange(q).None? && i < |q| && SingleAt(q, i).Some?
    requires forall j :: 0 <= j < i ==> SingleAt(q, j).None?
    ensures BudgetRule(q) == Some(SingleMatch(SingleAt(q, i).value))
  {
    assert FirstSingle(q) == Some(i);
  }

  /** The budget is the range match at the first position where one matches. */
  lemma RangeWhenFirst(q: string, i: nat)
    requires i < |q| && RangeAt(q, i).Some?
    requires forall j :: 0 <= j < i ==> RangeAt(q, j).None?
    ensures BudgetRule(q) == Some(RangeMatch(RangeAt(q, i).value.0, RangeAt(q, i).value.1))
  {
    assert FirstRange(q) == Some(i);
  }

  /** The digit runs of "1.5 lakh": one before the point and one after it, followed by " lakh". */
  lemma DecimalLakhShape()
    ensures var q := "1.5 lakh"; |q| == 8 && RunStart(q, 0) && q[1] == '.' && RunStart(q, 2) && q[3] == ' ' && q[4..] == "lakh"
    ensures var q := "1.5 lakh"; forall j :: 0 <= j < |q| && RunStart(q, j) ==> j == 0 || j == 2
  {
    var q := "1.5 lakh";
    assert !RunStart(q, 1) && !RunStart(q, 3) && !RunStart(q, 4) && !RunStart(q, 5);
    assert !RunStart(q, 6) && !RunStart(q, 7);
  }

  /**
   * A text shaped like "1.5 lakh" (a digit, a point, a digit, " lakh", and no
   * other digit run) sets the single amount of the digit after the point, in lakh.
   */
  lemma FractionLakhReads(q: string)
    requires |q| == 8 && RunStart(q, 0) && q[1] == '.' && RunStart(q, 2) && q[3] == ' ' && q[4..] == "lakh"
    requires forall j :: 0 <= j < |q| && RunStart(q, j) ==> j == 0 || j == 2
    ensures FirstRange(q).None?
    ensures BudgetRule(q) == Some(SingleMatch(100 * DigitValue(q[2])))
  {
    NoMatchBeforePoint(q, 0);
    LakhAtEndNoRange(q, 2);
    assert FirstRange(q).None?;
    LakhAtEndSingle(q, 2);
    assert !RunStart(q, 1);
    SingleWhenNoRange(q, 2);
  }

  /**
   * A decimal amount is read from the digits after its point alone: "1.5 lakh"
   * sets the single amount 500k, not the 150k that `parseFloat` gives.
   */
  lemma DecimalLakhReadsFraction()
    ensures var q := "1.5 lakh"; BudgetRule(q) == Some(SingleMatch(500))
  {
    DecimalLakhShape();
    FractionLakhReads("1.5 lakh");
  }

  /** "1.5-2l": the tail after the first run "5" is a dash and then 2 lakh. */
  lemma DecimalRangeTail()
    ensures var q := "1.5-2l"; RangeTail(q, 3) == Some((2, LakhUnit))
  {
    var q := "1.5-2l";
    assert SkipSpaces(q, 3) == 3;
    assert SkipSpaces(q, 4) == 4;
    assert SkipDigits(q, 4) == 5;
    assert SkipSpaces(q, 5) == 5;
    assert RunValue(q, 4, 5) == 2 by { assert q[4..5] == "2"; }
  }

  /** "1.5-2l": the range match on the run after the point is 5k to 200k. */
  lemma DecimalRangeAtTwo()
    ensures var q := "1.5-2l"; RangeAt(q, 2) == Some((5, 200))
  {
    var q := "1.5-2l";
    DecimalRangeTail();
    assert SkipDigits(q, 2) == 3;
    assert SkipSpaces(q, 3) == 3;
    assert RunValue(q, 2, 3) == 5 by { assert q[2..3] == "5"; }
  }

  /**
   * The same in a range: "1.5-2l" is read as 5k to 200k, where `parseFloat`
   * and `Math.round` give 2k to 200k.
   */
  lemma DecimalRangeReadsFraction()
    ensures var q := "1.5-2l"; BudgetRule(q) == Some(RangeMatch(5, 200))
  {
    var q := "1.5-2l";
    NoMatchBeforePoint(q, 0);
    DecimalRangeAtTwo();
    assert !RunStart(q, 1);
    RangeWhenFirst(q, 2);
  }

  /** The lower bound a budget match writes, if any. */
  function BudgetLow(m: Option<BudgetMatch>): Option<int> {
    if m.Some? then Some(BudgetBounds(m.value).0) else None
  }

  /** The upper bound a budget match writes, if any. */
  function BudgetHigh(m: Option<BudgetMatch>): Option<int> {
    if m.Some? then Some(BudgetBounds(m.value).1) else None
  }

  function BudgetParts(m: Option<BudgetMatch>): seq<string> {
    match m
    case None => []
    case Some(RangeMatch(a, b)) =>
      ["Budget: " + [RUPEE] + NatToString(Min(a, b)) + "k" + [EN_DASH] + [RUPEE] + NatToString(Max(a, b)) + "k"]
    case Some(SingleMatch(k)) => ["Budget: ~" + [RUPEE] + NatToString(k) + "k"]
  }

  // ---------------------------------------------------------------- notes

  predicate NoLineTerminator(s: string) {
    forall i :: 0 <= i < |s| ==> !IsLineTerminator(s[i])
  }

  /**
   * `/\bnotes?\s*:\s*(.+)$/i` on the original input, matched at `i`: the
   * captured text. The letters compare ASCII-case-insensitively. After the
   * greedy `s?`, the only way on is `\s*:`, so giving the "s" back never helps.
   * The greedy `\s*` after the colon leaves `.+` the rest of the input; when
   * that rest is empty it gives back its last whitespace character, which `.`
   * accepts unless it ends a line.
   */
  function NoteAt(input: string, i: nat): Option<string> {
    if !(i + 4 <= |input| && Lower(input[i..i + 4]) == "note" && Boundary(input, i)) then None
    else
      var p := if i + 4 < |input| && LowerChar(input[i + 4]) == 's' then i + 5 else i + 4;
      var c := SkipSpaces(input, p);
      if !(c < |input| && input[c] == ':') then None
      else
        var w := SkipSpaces(input, c + 1);
        if w < |input| then
          if NoLineTerminator(input[w..]) then Some(input[w..]) else None
        else if w > c + 1 && !IsLineTerminator(input[w - 1]) then Some(input[w - 1..])
        else None
  }

  const MAX_NOTE := 200

  /** The leftmost match of the notes pattern. */
  function FirstNote(input: string): (r: Option<nat>)
    ensures r.Some? ==> r.value < |input| && NoteAt(input, r.value).Some?
    ensures r.Some? ==> forall j :: 0 <= j < r.value ==> NoteAt(input, j).None?
    ensures r.None? ==> forall j :: 0 <= j < |input| ==> NoteAt(input, j).None?
  {
    var matchesAt := (j: nat) => NoteAt(input, j).Some?;
    assert forall j: nat :: matchesAt(j) == NoteAt(input, j).Some?;
    FirstFrom(0, |input|, matchesAt)
  }

  /** What a match captures is the rest of the original input from some index. */
  lemma NoteIsSuffix(input: string, i: nat) returns (a: nat)
    requires NoteAt(input, i).Some?
    ensures a <= |input| && NoteAt(input, i).value == input[a..]
  {
    var p := if i + 4 < |input| && LowerChar(input[i + 4]) == 's' then i + 5 else i + 4;
    var c := SkipSpaces(input, p);
    var w := SkipSpaces(input, c + 1);
    a := if w < |input| then w else w - 1;
  }

  /**
   * The notes rule: the leftmost match's capture, trimmed and cut to 200
   * characters. The note is a piece of the original input, so its case is kept.
   */
  function NotesRule(input: string): (r: Option<string>)
    ensures r.Some? ==> |r.value| <= MAX_NOTE
    ensures r.Some? ==> r.value == [] || !IsSpace(r.value[0])
    ensures r.None? <==> forall j :: 0 <= j < |input| ==> NoteAt(input, j).None?
    ensures r.Some? ==> r == Some(Take(Trim(NoteAt(input, FirstNote(input).value).value), MAX_NOTE))
    ensures r.Some? ==> exists k :: OccursAt(input, r.value, k)
  {
    match FirstNote(input)
    case Some(i) =>
      NoteOccurs(input, i);
      Some(Take(Trim(NoteAt(input, i).value), MAX_NOTE))
    case None => None
  }

  /** The trimmed, cut capture of a match is a piece of the input. */
  lemma NoteOccurs(input: string, i: nat)
    requires NoteAt(input, i).Some?
    ensures exists k :: OccursAt(input, Take(Trim(NoteAt(input, i).value), MAX_NOTE), k)
  {
    var a := NoteIsSuffix(input, i);
    TrimmedSuffixOccurs(input, a, NoteAt(input, i).value);
  }

  /** Trimming a suffix of `s` and cutting it leaves a piece of `s`. */
  lemma TrimmedSuffixOccurs(s: string, a: nat, v: string)
    requires a <= |s| && v == s[a..]
    ensures exists k :: OccursAt(s, Take(Trim(v), MAX_NOTE), k)
  {
    var start := TrimSlice(v);
    PrefixOfSliceOccurs(s, a, start, Trim(v), Take(Trim(v), MAX_NOTE));
  }

  /** A prefix of a slice of a suffix of `s` occurs in `s`. */
  lemma PrefixOfSliceOccurs(s: string, a: nat, start: nat, t: string, n: string)
    requires a <= |s| && start + |t| <= |s| - a && t == s[a..][start..start + |t|]
    requires |n| <= |t| && n == t[..|n|]
    ensures OccursAt(s, n, a + start)
  {
    assert s[a + start..a + start + |n|] == n by {
      forall k | 0 <= k < |n| ensures s[a + start + k] == n[k] {
        assert n[k] == t[k] == s[a..][start + k];
      }
    }
  }

  /** `Lower("Note") == "note"` */
  lemma LowerNote()
    ensures Lower("Note") == "note"
  {
    assert Lower("Note")[0] == 'n';
  }

  /** "Note: " followed by text starting with no whitespace, on one line, captures that text. */
  lemma NoteAfterLabel(x: string)
    requires x != [] && !IsSpace(x[0]) && NoLineTerminator(x)
    ensures NoteAt("Note: " + x, 0) == Some(x)
  {
    var input := "Note: " + x;
    assert input[0..4] == "Note";
    LowerNote();
    assert input[4] == ':' && input[5] == ' ' && input[6] == x[0];
    assert SkipSpaces(input, 4) == 4;
    assert SkipSpaces(input, 5) == 6;
    assert input[6..] == x;
  }

  /** A match at the very start is the leftmost one. */
  lemma NoteAtStartIsFirst(input: string)
    requires NoteAt(input, 0).Some?
    ensures FirstNote(input) == Some(0)
  {
  }

  /**
   * "Note: " followed by one line of at most 200 characters, with no
   * whitespace at either end, gives that line, in the case it was typed.
   */
  lemma NoteAfterLabelKept(x: string)
    requires x != [] && !IsSpace(x[0]) && !IsSpace(x[|x| - 1]) && NoLineTerminator(x) && |x| <= MAX_NOTE
    ensures NotesRule("Note: " + x) == Some(x)
  {
    NoteAfterLabel(x);
    NoteAtStartIsFirst("Note: " + x);
    TrimIdentity(x);
  }

  /** "Near STATION" is one line with no whitespace at its ends. */
  lemma NearStationShape()
    ensures var x := "Near STATION";
      x != [] && !IsSpace(x[0]) && !IsSpace(x[|x| - 1]) && NoLineTerminator(x) && |x| <= MAX_NOTE
  {
  }

  /** A note keeps the case it was typed in. */
  lemma NoteKeepsCase()
    ensures var x := "Near STATION"; NotesRule("Note: " + x) == Some(x)
  {
    NearStationShape();
    NoteAfterLabelKept("Near STATION");
  }

  /** A note label followed only by a space still counts: the note is empty but present. */
  lemma BlankNoteIsPresent()
    ensures NoteAt("note: ", 0) == Some(" ")
    ensures NotesRule("note: ") == Some("")
  {
    assert Lower("note: "[0..4]) == "note" by {
      assert "note: "[0..4] == "note";
      LowerIdentity("note");
    }
    assert SkipSpaces("note: ", 4) == 4;
    assert SkipSpaces("note: ", 6) == 6;
    assert SkipSpaces("note: ", 5) == 6;
    assert "note: "[5..] == " ";
    assert Trim(" ") == "";
  }

  function NotesParts(n: Option<string>): seq<string> {
    if n.Some? then ["Added note"] else []
  }

  function LocalityParts(l: Option<string>): seq<string> {
    if l.Some? then ["Locality: " + l.value] else []
  }

  // ---------------------------------------------------------------- parsePrefs

  /** The outcome of every rule of `parsePrefs` on one message. */
  datatype RuleResults = RuleResults(
    area: Option<Area>, bhk: Option<Bhk>, furnishing: Option<Furnishing>, profile: Option<Profile>,
    moveIn: Option<MoveIn>, budget: Option<BudgetMatch>, notes: Option<string>, locality: Option<string>)

  /** The rules on `input`; the locality search is narrowed by the area this same message set. */
  function RulesOf(input: string): RuleResults {
    var q := Norm(input);
    var area := AreaRule(q);
    RuleResults(area, BhkRule(q), FurnishingRule(q), ProfileRule(q), MoveInRule(q), BudgetRule(q),
                NotesRule(input), DetectLocality(input, area))
  }

  /** The patch the rules build: one key per rule that fired, both budget keys together. */
  function PatchOf(r: RuleResults): (p: Draft)
    ensures p.name.None? && p.phone.None? && p.prefillTs.None?
    ensures p.area == r.area && p.bhk == r.bhk && p.furnishing == r.furnishing && p.profile == r.profile
    ensures p.moveIn == r.moveIn && p.notes == r.notes && p.locality == r.locality
    ensures p.budgetMinK.Some? <==> r.budget.Some?
    ensures p.budgetMaxK.Some? <==> r.budget.Some?
    ensures r.budget.Some? ==> (p.budgetMinK.value, p.budgetMaxK.value) == BudgetBounds(r.budget.value)
  {
    Draft(name := None, phone := None, area := r.area,
          budgetMinK := BudgetLow(r.budget), budgetMaxK := BudgetHigh(r.budget),
          bhk := r.bhk, furnishing := r.furnishing, moveIn := r.moveIn, profile := r.profile,
          locality := r.locality, notes := r.notes, prefillTs := None)
  }

  /** The summary parts, rule by rule in the order the rules run. */
  function PartsOf(q: string, r: RuleResults): seq<string> {
    AreaParts(q, r.area) + BhkParts(r.bhk) + FurnishingParts(r.furnishing) + ProfileParts(r.profile) +
    MoveInParts(r.moveIn) + BudgetParts(r.budget) + NotesParts(r.notes) + LocalityParts(r.locality)
  }

  datatype Parsed = Parsed(patch: Draft, summaryParts: seq<string>)

  /** What `parsePrefs` returns for `input`. */
  function Extract(input: string): Parsed {
    var r := RulesOf(input);
    Parsed(PatchOf(r), PartsOf(Norm(input), r))
  }

  /** The area step of `parsePrefs`. */
  method AddArea(q: string, patch: Draft, parts: seq<string>) returns (patch': Draft, parts': seq<string>)
    ensures patch' == patch.(area := Pick(patch.area, AreaRule(q)))
    ensures parts' == parts + AreaParts(q, AreaRule(q))
  {
    patch', parts' := patch, parts;
    var areaMatch := AreaRule(q);
    if areaMatch.Some? {
      patch' := patch'.(area := areaMatch);
      parts' := parts' + ["Area: " + AreaName(areaMatch.value)];
    } else {
      if Contains(q, "malad") { parts' := parts' + ["Area: Malad (East/West?)"]; }
      if Contains(q, "kandivali") { parts' := parts' + ["Area: Kandivali (East/West?)"]; }
      if Contains(q, "borivali") { parts' := parts' + ["Area: Borivali (East/West?)"]; }
    }
  }

  /** The bhk step of `parsePrefs`. */
  method AddBhk(q: string, patch: Draft, parts: seq<string>) returns (patch': Draft, parts': seq<string>)
    ensures patch' == patch.(bhk := Pick(patch.bhk, BhkRule(q)))
    ensures parts' == parts + BhkParts(BhkRule(q))
  {
    patch', parts' := patch, parts;
    var bhk := BhkRule(q);
    if bhk.Some? {
      patch' := patch'.(bhk := bhk);
      parts' := parts' + [BhkCode(bhk.value) + "BHK"];
    }
  }

  /** The furnishing step of `parsePrefs`. */
  method AddFurnishing(q: string, patch: Draft, parts: seq<string>) returns (patch': Draft, parts': seq<string>)
    ensures patch' == patch.(furnishing := Pick(patch.furnishing, FurnishingRule(q)))
    ensures parts' == parts + FurnishingParts(FurnishingRule(q))
  {
    patch', parts' := patch, parts;
    if HasAny(q, FULLY_FURNISHED) {
      assert FurnishingRule(q) == Some(F);
      patch' := patch'.(furnishing := Some(F));
      parts' := parts' + ["Furnished"];
    } else if HasAny(q, SEMI_FURNISHED) {
      assert FurnishingRule(q) == Some(S);
      patch' := patch'.(furnishing := Some(S));
      parts' := parts' + ["Semi-furnished"];
    } else if HasAny(q, UNFURNISHED) {
      assert FurnishingRule(q) == Some(U);
      patch' := patch'.(furnishing := Some(U));
      parts' := parts' + ["Unfurnished"];
    }
  }

  /** The profile step of `parsePrefs`. */
  method AddProfile(q: string, patch: Draft, parts: seq<string>) returns (patch': Draft, parts': seq<string>)
    ensures patch' == patch.(profile := Pick(patch.profile, ProfileRule(q)))
    ensures parts' == parts + ProfileParts(ProfileRule(q))
  {
    patch', parts' := patch, parts;
    if HasAny(q, FAMILY_WORDS) {
      assert ProfileRule(q) == Some(Family);
      patch' := patch'.(profile := Some(Family));
      parts' := parts' + ["Profile: Family"];
    } else if HasAny(q, BACHELOR_WORDS) {
      assert ProfileRule(q) == Some(Bachelor);
      patch' := patch'.(profile := Some(Bachelor));
      parts' := parts' + ["Profile: Bachelor"];
    } else if HasAny(q, COMPANY_WORDS) {
      assert ProfileRule(q) == Some(Company);
      patch' := patch'.(profile := Some(Company));
      parts' := parts' + ["Profile: Company"];
    }
  }

  /** The move-in step of `parsePrefs`. */
  method AddMoveIn(q: string, patch: Draft, parts: seq<string>) returns (patch': Draft, parts': seq<string>)
    ensures patch' == patch.(moveIn := Pick(patch.moveIn, MoveInRule(q)))
    ensures parts' == parts + MoveInParts(MoveInRule(q))
  {
    patch', parts' := patch, parts;
    if HasAny(q, IMMEDIATE_WORDS) {
      assert MoveInRule(q) == Some(Immediate);
      patch' := patch'.(moveIn := Some(Immediate));
      parts' := parts' + ["Move-in: Immediate"];
    } else if Contains(q, "7") && HasAny(q, DAY_WORDS) {
      assert MoveInRule(q) == Some(Within7);
      patch' := patch'.(moveIn := Some(Within7));
      parts' := parts' + ["Move-in: 7 days"];
    } else if Contains(q, "15") && HasAny(q, DAY_WORDS) {
      assert MoveInRule(q) == Some(Within15);
      patch' := patch'.(moveIn := Some(Within15));
      parts' := parts' + ["Move-in: 15 days"];
    } else if HasAny(q, MONTH_WORDS) {
      assert MoveInRule(q) == Some(ThirtyPlus);
      patch' := patch'.(moveIn := Some(ThirtyPlus));
      parts' := parts' + ["Move-in: 30+"];
    }
  }

  /** The budget step of `parsePrefs`: the range pattern, else the single-amount pattern; both keys or neither. */
  method AddBudget(q: string, patch: Draft, parts: seq<string>) returns (patch': Draft, parts': seq<string>)
    ensures patch' == patch.(budgetMinK := Pick(patch.budgetMinK, BudgetLow(BudgetRule(q))),
                             budgetMaxK := Pick(patch.budgetMaxK, BudgetHigh(BudgetRule(q))))
    ensures parts' == parts + BudgetParts(BudgetRule(q))
  {
    patch', parts' := patch, parts;
    var rangeStart := FirstRange(q);
    if rangeStart.Some? {
      var (a, b) := RangeAt(q, rangeStart.value).value;
      assert BudgetLow(BudgetRule(q)) == Some(Min(a, b)) && BudgetHigh(BudgetRule(q)) == Some(Max(a, b)) by {
        assert BudgetRule(q) == Some(RangeMatch(a, b));
      }
      patch' := patch'.(budgetMinK := Some(Min(a, b)), budgetMaxK := Some(Max(a, b)));
      parts' := parts' + ["Budget: " + [RUPEE] + NatToString(Min(a, b)) + "k" + [EN_DASH] + [RUPEE] + NatToString(Max(a, b)) + "k"];
    } else {
      var singleStart := FirstSingle(q);
      if singleStart.Some? {
        var k := SingleAt(q, singleStart.value).value;
        assert BudgetLow(BudgetRule(q)) == Some(Max(20, k as int - 10)) && BudgetHigh(BudgetRule(q)) == Some(k + 10) by {
          assert BudgetRule(q) == Some(SingleMatch(k));
        }
        patch' := patch'.(budgetMinK := Some(Max(20, k as int - 10)), budgetMaxK := Some(k + 10));
        parts' := parts' + ["Budget: ~" + [RUPEE] + NatToString(k) + "k"];
      } else {
        assert BudgetLow(BudgetRule(q)) == None && BudgetHigh(BudgetRule(q)) == None;
      }
    }
  }

  /** The notes step of `parsePrefs`, on the original input. */
  method AddNotes(input: string, patch: Draft, parts: seq<string>) returns (patch': Draft, parts': seq<string>)
    ensures patch' == patch.(notes := Pick(patch.notes, NotesRule(input)))
    ensures parts' == parts + NotesParts(NotesRule(input))
  {
    patch', parts' := patch, parts;
    var noteStart := FirstNote(input);
    if noteStart.Some? {
      patch' := patch'.(notes := Some(Take(Trim(NoteAt(input, noteStart.value).value), MAX_NOTE)));
      parts' := parts' + ["Added note"];
    }
  }

  /** The locality step of `parsePrefs`, narrowed by the area already in the patch. */
  method AddLocality(input: string, patch: Draft, parts: seq<string>) returns (patch': Draft, parts': seq<string>)
    ensures patch' == patch.(locality := Pick(patch.locality, DetectLocality(input, patch.area)))
    ensures parts' == parts + LocalityParts(DetectLocality(input, patch.area))
  {
    patch', parts' := patch, parts;
    var detected := DetectLocality(input, patch.area);
    if detected.Some? {
      patch' := patch'.(locality := detected);
      parts' := parts' + ["Locality: " + detected.value];
    }
  }

  /** `parsePrefs(input)`: builds the patch and the summary parts one rule at a time. */
  method ParsePrefs(input: string) returns (patch: Draft, parts: seq<string>)
    ensures Parsed(patch, parts) == Extract(input)
  {
    var q := Norm(input);
    ghost var r := RulesOf(input);
    patch := EmptyPatch;
    parts := [];
    patch, parts := AddArea(q, patch, parts);
    assert parts == AreaParts(q, r.area);
    patch, parts := AddBhk(q, patch, parts);
    assert parts == AreaParts(q, r.area) + BhkParts(r.bhk);
    patch, parts := AddFurnishing(q, patch, parts);
    patch, parts := AddProfile(q, patch, parts);
    patch, parts := AddMoveIn(q, patch, parts);
    assert parts == AreaParts(q, r.area) + BhkParts(r.bhk) + FurnishingParts(r.furnishing) +
                    ProfileParts(r.profile) + MoveInParts(r.moveIn);
    patch, parts := AddBudget(q, patch, parts);
    patch, parts := AddNotes(input, patch, parts);
    assert patch.area == r.area;
    patch, parts := AddLocality(input, patch, parts);
    assert patch == PatchOf(r);
  }

  /** `isMeaningfulPatch`: the patch has at least one key. */
  predicate IsMeaningful(patch: Draft) {
    Keys(patch) != {}
  }

  /** Every key the rules set comes with a summary part. */
  lemma KeysHaveParts(q: string, r: RuleResults)
    ensures IsMeaningful(PatchOf(r)) ==> PartsOf(q, r) != []
  {
    var p := PatchOf(r);
    if IsMeaningful(p) {
      var f :| f in Keys(p);
    }
  }

  /** A meaningful patch never shows the "Got it." summary. */
  lemma MeaningfulPatchHasSummary(input: string)
    ensures IsMeaningful(Extract(input).patch) ==> Extract(input).summaryParts != []
  {
    KeysHaveParts(Norm(input), RulesOf(input));
  }

  /** A patch built by the rules has no name, phone or prefill stamp, and both budget keys or neither. */
  lemma PatchOfKeys(r: RuleResults)
    ensures Keys(PatchOf(r)) <=
      {AreaKey, BudgetMinKey, BudgetMaxKey, BhkKey, FurnishingKey, MoveInKey, ProfileKey, LocalityKey, NotesKey}
    ensures Has(PatchOf(r), BudgetMinKey) <==> Has(PatchOf(r), BudgetMaxKey)
  {
    var p := PatchOf(r);
    forall f | f in Keys(p)
      ensures f in {AreaKey, BudgetMinKey, BudgetMaxKey, BhkKey, FurnishingKey, MoveInKey, ProfileKey, LocalityKey, NotesKey}
    {
      assert Has(p, f);
    }
  }

  /** The patch `parsePrefs` returns sets only the fields the chat can speak about. */
  lemma ExtractedKeys(input: string)
    ensures Keys(Extract(input).patch) <=
      {AreaKey, BudgetMinKey, BudgetMaxKey, BhkKey, FurnishingKey, MoveInKey, ProfileKey, LocalityKey, NotesKey}
    ensures Has(Extract(input).patch, BudgetMinKey) <==> Has(Extract(input).patch, BudgetMaxKey)
  {
    PatchOfKeys(RulesOf(input));
  }

  /** A detected locality belongs to the area set by the same message, if one was. */
  lemma LocalityFollowsArea(input: string)
    ensures var p := Extract(input).patch;
            p.area.Some? && p.locality.Some? ==> p.locality.value in LocalitiesOf(p.area.value.suburb)
  {
    var r := RulesOf(input);
    if r.area.Some? {
      DetectLocalityInArea(input, r.area.value);
    }
  }

  // ---------------------------------------------------------------- replyToUser

  /** `QuickAction` of `src/bot/knowledge.ts`. */
  datatype QuickAction =
    | Scroll(caption: string, targetId: string)
    | WhatsApp(caption: string, text: string)
    | Tel(caption: string)
    | Link(caption: string, href: string)
    | ApplyDraft(caption: string, draft: Draft, scrollToId: Option<string>)

  /** Which branch of `replyToUser` answered. */
  datatype Topic =
    | Greeting | Captured | AreasCovered | Fees | Visits | Documents | Deposit
    | Profiles | Pets | BudgetHelp | MoveInHelp | ContactInfo | Fallback

  /** A reply: its branch, the summary it captured (that branch only) and its quick actions. */
  datatype Reply = Reply(topic: Topic, summary: Option<string>, quickActions: seq<QuickAction>)

  /** The keywords of each keyword branch. */
  function Keywords(t: Topic): seq<string> {
    match t
    case Greeting => ["hi", "hello", "hey", "hii", "namaste"]
    case AreasCovered => ["area", "areas", "location", "where", "cover", "covered", "malad", "kandivali", "borivali"]
    case Fees => ["broker", "brokerage", "fee", "fees", "charge", "charges", "commission"]
    case Visits => ["visit", "schedule", "site", "show", "see", "inspection"]
    case Documents => ["doc", "docs", "documents", "paper", "paperwork", "agreement", "lease"]
    case Deposit => ["deposit", "security", "advance"]
    case Profiles => ["bachelor", "bachelors", "single", "sharing", "family", "company", "corporate"]
    case Pets => ["pet", "dog", "cat"]
    case BudgetHelp => ["budget", "rent", "k", "lakh", "price"]
    case MoveInHelp => ["move", "movein", "immediate", "7", "15", "30", "month"]
    case ContactInfo => ["contact", "call", "phone", "number", "instagram", "ig"]
    case Captured => []
    case Fallback => []
  }

  /** The position of each branch in the if-chain. */
  function Rank(t: Topic): nat {
    match t
    case Greeting => 0
    case Captured => 1
    case AreasCovered => 2
    case Fees => 3
    case Visits => 4
    case Documents => 5
    case Deposit => 6
    case Profiles => 7
    case Pets => 8
    case BudgetHelp => 9
    case MoveInHelp => 10
    case ContactInfo => 11
    case Fallback => 12
  }

  /** The condition of each branch: its keywords, or a meaningful patch for the capturing branch. */
  predicate Triggers(t: Topic, q: string, meaningful: bool) {
    match t
    case Captured => meaningful
    case Fallback => false
    case _ => HasAny(q, Keywords(t))
  }

  /** The branch taken: the if-chain of `replyToUser`. */
  function Route(q: string, meaningful: bool): (t: Topic)
    ensures t != Fallback ==> Triggers(t, q, meaningful)
    ensures forall u :: Rank(u) < Rank(t) ==> !Triggers(u, q, meaningful)
    ensures t == Fallback <==> forall u :: !Triggers(u, q, meaningful)
  {
    var t :=
    if HasAny(q, Keywords(Greeting)) then Greeting
    else if meaningful then Captured
    else if HasAny(q, Keywords(AreasCovered)) then AreasCovered
    else if HasAny(q, Keywords(Fees)) then Fees
    else if HasAny(q, Keywords(Visits)) then Visits
    else if HasAny(q, Keywords(Documents)) then Documents
    else if HasAny(q, Keywords(Deposit)) then Deposit
    else if HasAny(q, Keywords(Profiles)) then Profiles
    else if HasAny(q, Keywords(Pets)) then Pets
    else if HasAny(q, Keywords(BudgetHelp)) then BudgetHelp
    else if HasAny(q, Keywords(MoveInHelp)) then MoveInHelp
    else if HasAny(q, Keywords(ContactInfo)) then ContactInfo
    else Fallback;
    assert t != Fallback ==> Triggers(t, q, meaningful);
    t
  }

  const LEAD_ID := "lead"
  const BASE_WHATSAPP_TEXT := "Hi! I’m looking for a rental home in Mumbai (Malad/Kandivali/Borivali)."
  const INSTAGRAM := "https://instagram.com/ayushjha.creates"

  /** `baseQuickActions` */
  const BASE_ACTIONS: seq<QuickAction> := [
    Scroll("Fill Lead Form", LEAD_ID),
    Scroll("See FAQ", "faq"),
    WhatsApp("WhatsApp", BASE_WHATSAPP_TEXT)
  ]

  const VISIT_ACTIONS: seq<QuickAction> := [
    Scroll("Request shortlist", LEAD_ID), Scroll("How it works", "how"),
    WhatsApp("WhatsApp to book", "Hi! I want to schedule a site visit. My preferences are:")]
  const BUDGET_ACTIONS: seq<QuickAction> := [
    Scroll("Set budget in form", LEAD_ID),
    WhatsApp("Send budget on WhatsApp", "Hi! My budget is __. Looking for __BHK in __.")]
  const MOVE_IN_ACTIONS: seq<QuickAction> := [
    Scroll("Choose move-in", LEAD_ID),
    WhatsApp("Send move-in", "Hi! My move-in date is __. Looking for __BHK in __, budget __.")]
  const CONTACT_ACTIONS: seq<QuickAction> := [
    WhatsApp("WhatsApp now", "Hi! I need help finding a rental home."),
    Link("Open Instagram", INSTAGRAM)]

  /** The quick actions of each branch. */
  function ActionsFor(t: Topic, patch: Draft): seq<QuickAction> {
    match t
    case Captured => [ApplyDraft("Apply to Form", patch, Some(LEAD_ID))] + BASE_ACTIONS
    case Visits => VISIT_ACTIONS
    case BudgetHelp => BUDGET_ACTIONS
    case MoveInHelp => MOVE_IN_ACTIONS
    case ContactInfo => CONTACT_ACTIONS
    case _ => BASE_ACTIONS
  }

  const SUMMARY_SEPARATOR := " • "

  /** Some quick action applies a draft to the form. */
  predicate OffersApply(actions: seq<QuickAction>) {
    exists i :: 0 <= i < |actions| && actions[i].ApplyDraft?
  }

  /** No action of `acts` applies a draft. */
  predicate NoApply(acts: seq<QuickAction>) {
    forall i :: 0 <= i < |acts| ==> !acts[i].ApplyDraft?
  }

  /** None of the fixed action lists applies a draft. */
  lemma FixedActionsNoApply()
    ensures NoApply(BASE_ACTIONS) && NoApply(VISIT_ACTIONS) && NoApply(BUDGET_ACTIONS)
    ensures NoApply(MOVE_IN_ACTIONS) && NoApply(CONTACT_ACTIONS)
  {
  }

  /** No branch but the capturing one lists an action that applies a draft. */
  lemma OthersOfferNoApply(t: Topic, patch: Draft)
    requires t != Captured
    ensures NoApply(ActionsFor(t, patch))
  {
    FixedActionsNoApply();
  }

  /** Only the capturing branch offers to apply a draft, and it offers it first. */
  lemma OnlyCapturedOffersApply(t: Topic, patch: Draft)
    ensures OffersApply(ActionsFor(t, patch)) <==> t == Captured
    ensures t == Captured ==> ActionsFor(t, patch)[0] == ApplyDraft("Apply to Form", patch, Some(LEAD_ID))
  {
    var acts := ActionsFor(t, patch);
    if t == Captured {
      assert acts[0].ApplyDraft?;
    } else {
      OthersOfferNoApply(t, patch);
    }
  }

  /**
   * The reply for the normalised text `q` once `parsed` is what `parsePrefs`
   * returned: the greeting wins over everything, a meaningful patch comes next,
   * then the keyword branches in order.
   */
  function ReplyFor(q: string, parsed: Parsed): (r: Reply)
    requires IsMeaningful(parsed.patch) ==> parsed.summaryParts != []
    ensures r.topic == Route(q, IsMeaningful(parsed.patch))
    ensures OffersApply(r.quickActions) <==> r.topic == Captured
    ensures r.topic == Captured ==>
      r.quickActions[0] == ApplyDraft("Apply to Form", parsed.patch, Some(LEAD_ID)) &&
      r.summary == Some(Join(parsed.summaryParts, SUMMARY_SEPARATOR))
    ensures r.topic != Captured ==> r.summary.None?
  {
    OnlyCapturedOffersApply(Route(q, IsMeaningful(parsed.patch)), parsed.patch);
    OnlyCapturedOffersApply(Greeting, EmptyPatch);
    if HasAny(q, Keywords(Greeting)) then Reply(Greeting, None, ActionsFor(Greeting, EmptyPatch))
    else if IsMeaningful(parsed.patch) then
      var summary := if |parsed.summaryParts| > 0 then Join(parsed.summaryParts, SUMMARY_SEPARATOR) else "Got it.";
      Reply(Captured, Some(summary), ActionsFor(Captured, parsed.patch))
    else
      var t := Route(q, false);
      Reply(t, None, ActionsFor(t, parsed.patch))
  }

  /** `replyToUser(input)` */
  function ReplyToUser(input: string): (r: Reply)
    ensures r.topic == Route(Norm(input), IsMeaningful(Extract(input).patch))
    ensures OffersApply(r.quickActions) <==> r.topic == Captured
    ensures r.topic == Captured ==>
      r.quickActions[0] == ApplyDraft("Apply to Form", Extract(input).patch, Some(LEAD_ID)) &&
      r.summary == Some(Join(Extract(input).summaryParts, SUMMARY_SEPARATOR))
    ensures r.topic != Captured ==> r.summary.None?
  {
    MeaningfulPatchHasSummary(input);
    ReplyFor(Norm(input), Extract(input))
  }

  /** Any text containing "hi" (as "within", "this" or "which" do) gets the greeting and nothing is captured. */
  lemma HiShadowsPreferences(input: string, mid: string)
    requires Contains(Norm(input), mid) && Contains(mid, "hi")
    ensures ReplyToUser(input).topic == Greeting
    ensures !OffersApply(ReplyToUser(input).quickActions)
  {
    HasAnyVia(Norm(input), mid, Keywords(Greeting), 0);
  }

  lemma HiInWithin()
    ensures Contains("within", "hi")
  {
    assert OccursAt("within", "hi", 3) by { assert "within"[3..5] == "hi"; }
    ContainsAt("within", "hi", 3);
  }

  /** "within" is one of the move-in rule's words, yet any message holding it is answered as a greeting. */
  lemma WithinIsAGreeting(input: string)
    requires Contains(Norm(input), "within")
    ensures ReplyToUser(input).topic == Greeting
  {
    HiInWithin();
    HiShadowsPreferences(input, "within");
  }
}
