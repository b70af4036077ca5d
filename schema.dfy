/**
 * `src/features/lead-form/schema.ts`: the option lists, the lead schema's field
 * constraints (as explicit predicates), the labels, the lead score and the
 * budget formatting helpers.
 */
module Schema {
  import opened Wrappers
  import opened Strings
  import opened LeadDraft

  const BHK_OPTIONS: seq<Bhk> := [One, Two, Three, FourPlus]
  const FURNISHING_OPTIONS: seq<Furnishing> := [F, S, U]
  const MOVE_IN_OPTIONS: seq<MoveIn> := [Immediate, Within7, Within15, ThirtyPlus]
  const PROFILE_OPTIONS: seq<Profile> := [Family, Bachelor, Company]

  /** Every value of each enum is listed. */
  lemma OptionListsComplete(b: Bhk, f: Furnishing, m: MoveIn, p: Profile)
    ensures b in BHK_OPTIONS && f in FURNISHING_OPTIONS && m in MOVE_IN_OPTIONS && p in PROFILE_OPTIONS
  {
    match b
    case One => assert BHK_OPTIONS[0] == b;
    case Two => assert BHK_OPTIONS[1] == b;
    case Three => assert BHK_OPTIONS[2] == b;
    case FourPlus => assert BHK_OPTIONS[3] == b;
    match f
    case F => assert FURNISHING_OPTIONS[0] == f;
    case S => assert FURNISHING_OPTIONS[1] == f;
    case U => assert FURNISHING_OPTIONS[2] == f;
    match m
    case Immediate => assert MOVE_IN_OPTIONS[0] == m;
    case Within7 => assert MOVE_IN_OPTIONS[1] == m;
    case Within15 => assert MOVE_IN_OPTIONS[2] == m;
    case ThirtyPlus => assert MOVE_IN_OPTIONS[3] == m;
    match p
    case Family => assert PROFILE_OPTIONS[0] == p;
    case Bachelor => assert PROFILE_OPTIONS[1] == p;
    case Company => assert PROFILE_OPTIONS[2] == p;
  }

  /**
   * The values the form hands to the schema: each enum field is the raw string
   * the control holds (absent when nothing is chosen), budgets are numbers.
   */
  datatype LeadFormValues = LeadFormValues(
    area: Option<string>,
    budgetMinK: int,
    budgetMaxK: int,
    bhk: Option<string>,
    furnishing: Option<string>,
    locality: Option<string>,
    moveIn: Option<string>,
    profile: Option<string>,
    notes: Option<string>,
    name: string,
    phone: string,
    honeypot: Option<string>)

  /** The schema's keys, in declaration order. */
  datatype FormField =
    | AreaField | BudgetMinField | BudgetMaxField | BhkField | FurnishingField | LocalityField
    | MoveInField | ProfileField | NotesField | NameField | PhoneField | HoneypotField

  const SCHEMA_FIELDS: seq<FormField> := [
    AreaField, BudgetMinField, BudgetMaxField, BhkField, FurnishingField, LocalityField,
    MoveInField, ProfileField, NotesField, NameField, PhoneField, HoneypotField
  ]

  const MIN_BUDGET_K := 10
  const MAX_BUDGET_K := 300
  const MAX_NOTES := 500
  const MIN_NAME := 2
  const MAX_NAME := 80

  predicate InBudgetBounds(k: int) {
    MIN_BUDGET_K <= k <= MAX_BUDGET_K
  }

  /** `/^\d{10}$/` */
  predicate IsTenDigitPhone(s: string) {
    |s| == 10 && AllDigits(s)
  }

  /** The constraint the schema puts on one key. */
  predicate FieldOk(v: LeadFormValues, f: FormField) {
    match f
    case AreaField => v.area.Some? && AreaFromName(v.area.value).Some?
    case BudgetMinField => InBudgetBounds(v.budgetMinK)
    case BudgetMaxField => InBudgetBounds(v.budgetMaxK)
    case BhkField => v.bhk.Some? && BhkFromCode(v.bhk.value).Some?
    case FurnishingField => v.furnishing.Some? && FurnishingFromCode(v.furnishing.value).Some?
    case LocalityField => true
    case MoveInField => v.moveIn.Some? && MoveInFromCode(v.moveIn.value).Some?
    case ProfileField => v.profile.Some? && ProfileFromCode(v.profile.value).Some?
    case NotesField => v.notes.None? || |v.notes.value| <= MAX_NOTES
    case NameField => MIN_NAME <= |v.name| <= MAX_NAME
    case PhoneField => IsTenDigitPhone(v.phone)
    case HoneypotField => v.honeypot.None? || v.honeypot.value == ""
  }

  /** `leadSchema.safeParse(v).success` */
  predicate Valid(v: LeadFormValues) {
    forall f :: FieldOk(v, f)
  }

  /** The keys whose constraint fails, in schema order (the issue list). */
  function Issues(v: LeadFormValues, fields: seq<FormField>): (r: seq<FormField>)
    ensures forall f :: f in r <==> f in fields && !FieldOk(v, f)
    ensures |r| <= |fields|
  {
    if |fields| == 0 then []
    else (if FieldOk(v, fields[0]) then [] else [fields[0]]) + Issues(v, fields[1..])
  }

  /** Every key appears in the schema's list. */
  lemma SchemaListsEveryField(f: FormField)
    ensures f in SCHEMA_FIELDS
  {
    match f
    case AreaField => assert SCHEMA_FIELDS[0] == f;
    case BudgetMinField => assert SCHEMA_FIELDS[1] == f;
    case BudgetMaxField => assert SCHEMA_FIELDS[2] == f;
    case BhkField => assert SCHEMA_FIELDS[3] == f;
    case FurnishingField => assert SCHEMA_FIELDS[4] == f;
    case LocalityField => assert SCHEMA_FIELDS[5] == f;
    case MoveInField => assert SCHEMA_FIELDS[6] == f;
    case ProfileField => assert SCHEMA_FIELDS[7] == f;
    case NotesField => assert SCHEMA_FIELDS[8] == f;
    case NameField => assert SCHEMA_FIELDS[9] == f;
    case PhoneField => assert SCHEMA_FIELDS[10] == f;
    case HoneypotField => assert SCHEMA_FIELDS[11] == f;
  }

  /** The schema accepts exactly the values with no issue. */
  lemma ValidIffNoIssues(v: LeadFormValues)
    ensures Valid(v) <==> Issues(v, SCHEMA_FIELDS) == []
  {
    if !Valid(v) {
      var f :| !FieldOk(v, f);
      SchemaListsEveryField(f);
      assert f in Issues(v, SCHEMA_FIELDS);
    }
    var issues := Issues(v, SCHEMA_FIELDS);
    if issues != [] {
      assert issues[0] in issues;
    }
  }

  /** The schema has no cross-field rule: an inverted budget window is accepted. */
  lemma NoBudgetOrderRule()
    ensures Valid(LeadFormValues(Some("Malad West"), 90, 40, Some("1"), Some("S"), None,
                                 Some("Immediate"), Some("Family"), None, "Asha", "9876543210", None))
  {
    var v := LeadFormValues(Some("Malad West"), 90, 40, Some("1"), Some("S"), None,
                            Some("Immediate"), Some("Family"), None, "Asha", "9876543210", None);
    assert AreaName(Area(Malad, West)) == "Malad West";
    forall f ensures FieldOk(v, f) {
    }
  }

  /** `FURNISHING_LABELS` */
  function FurnishingLabel(f: Furnishing): string {
    match f
    case F => "Furnished"
    case S => "Semi-furnished"
    case U => "Unfurnished"
  }

  /** `MOVE_IN_LABELS` */
  function MoveInLabel(m: MoveIn): string {
    match m
    case Immediate => "Immediately"
    case Within7 => "Within 7 days"
    case Within15 => "Within 15 days"
    case ThirtyPlus => "30+ days"
  }

  /** The label maps are total and tell their values apart. */
  lemma LabelsDistinct(f1: Furnishing, f2: Furnishing, m1: MoveIn, m2: MoveIn)
    ensures FurnishingLabel(f1) == FurnishingLabel(f2) ==> f1 == f2
    ensures MoveInLabel(m1) == MoveInLabel(m2) ==> m1 == m2
  {
    if FurnishingLabel(f1) == FurnishingLabel(f2) {
      assert |FurnishingLabel(f1)| == |FurnishingLabel(f2)|;
      assert FurnishingLabel(f1)[0] == FurnishingLabel(f2)[0];
    }
    if MoveInLabel(m1) == MoveInLabel(m2) {
      assert |MoveInLabel(m1)| == |MoveInLabel(m2)|;
      assert MoveInLabel(m1)[7] == MoveInLabel(m2)[7];
    }
  }

  datatype LeadScore = Hot | Warm | Cold

  /** `getLeadScore` */
  function GetLeadScore(m: MoveIn): (r: LeadScore)
    ensures r == Hot <==> m == Immediate || m == Within7
    ensures r == Warm <==> m == Within15
    ensures r == Cold <==> m == ThirtyPlus
  {
    if m == Immediate || m == Within7 then Hot
    else if m == Within15 then Warm
    else assert m == ThirtyPlus; Cold
  }

  /** How soon the move is: the order of the move-in options. */
  function Urgency(m: MoveIn): nat {
    match m
    case Immediate => 3
    case Within7 => 2
    case Within15 => 1
    case ThirtyPlus => 0
  }

  function Heat(s: LeadScore): nat {
    match s
    case Hot => 2
    case Warm => 1
    case Cold => 0
  }

  /** A sooner move never scores colder. */
  lemma LeadScoreMonotone(m1: MoveIn, m2: MoveIn)
    requires Urgency(m1) <= Urgency(m2)
    ensures Heat(GetLeadScore(m1)) <= Heat(GetLeadScore(m2))
  {
  }

  /** `Math.round(x / 5) * 5` for an integer `x`: halves cannot occur, so this is floor((x + 2.5) / 5) * 5. */
  function RoundToFive(x: int): (r: int)
    ensures r % 5 == 0
    ensures -2 <= r - x <= 2
  {
    ((2 * x + 5) / 10) * 5
  }

  /** The rounded value is the nearest multiple of five. */
  lemma RoundToFiveNearest(x: int, m: int)
    ensures Abs(RoundToFive(x) - x) <= Abs(5 * m - x)
  {
  }

  function Abs(n: int): nat {
    if n < 0 then -n else n
  }

  lemma RoundToFiveMonotone(x: int, y: int)
    requires x <= y
    ensures RoundToFive(x) <= RoundToFive(y)
  {
    assert (2 * x + 5) / 10 <= (2 * y + 5) / 10;
  }

  /** Multiples of five are left alone. */
  lemma RoundToFiveFixed(m: int)
    ensures RoundToFive(5 * m) == 5 * m
  {
  }

  /** `toBudgetRange(minK, maxK)`: "a-bk" with both bounds rounded to a multiple of five. */
  function ToBudgetRange(minK: int, maxK: int): string {
    IntToString(RoundToFive(minK)) + "-" + IntToString(RoundToFive(maxK)) + "k"
  }

  /** For an ordered, non-negative window the text reads back as two ordered multiples of five. */
  lemma ToBudgetRangeReadBack(minK: nat, maxK: nat)
    requires minK <= maxK
    ensures var a, b := NatToString(RoundToFive(minK)), NatToString(RoundToFive(maxK));
            ToBudgetRange(minK, maxK) == a + "-" + b + "k" &&
            DigitsValue(a) == RoundToFive(minK) <= DigitsValue(b) == RoundToFive(maxK)
  {
    RoundToFiveMonotone(minK, maxK);
    NatToStringRoundTrip(RoundToFive(minK));
    NatToStringRoundTrip(RoundToFive(maxK));
  }

  /**
   * The budget text of the share widget and of both WhatsApp builders:
   * `toBudgetRange` when both bounds are truthy (present and not 0), else "40-60k".
   */
  function BudgetText(d: Draft): string {
    if d.budgetMinK.Some? && d.budgetMinK.value != 0 && d.budgetMaxK.Some? && d.budgetMaxK.value != 0
    then ToBudgetRange(d.budgetMinK.value, d.budgetMaxK.value)
    else "40-60k"
  }

  /** The fallback text is the default draft's own window, formatted. */
  lemma BudgetTextFallback(d: Draft)
    requires d.budgetMinK.None? || d.budgetMaxK.None? || d.budgetMinK == Some(0) || d.budgetMaxK == Some(0)
    ensures BudgetText(d) == BudgetText(DefaultDraft) == ToBudgetRange(40, 60)
  {
    RoundToFiveFixed(8);
    RoundToFiveFixed(12);
    assert IntToString(40) == "40" by {
      assert NatToString(40) == NatToString(4) + [DigitChar(0)];
    }
    assert IntToString(60) == "60" by {
      assert NatToString(60) == NatToString(6) + [DigitChar(0)];
    }
  }

  /** `fmtINR(k)` */
  function FmtINR(k: int): (r: string)
    ensures |r| >= 3 && r[0] == '₹' && r[|r| - 1] == 'k'
  {
    "₹" + IntToString(k) + "k"
  }

  /** The amount between the sign and the "k" reads back as `k`. */
  lemma FmtINRReadBack(k: nat)
    ensures var r := FmtINR(k); AllDigits(r[1..|r| - 1]) && DigitsValue(r[1..|r| - 1]) == k
  {
    var r := FmtINR(k);
    assert r[1..|r| - 1] == NatToString(k);
    NatToStringRoundTrip(k);
  }
}
