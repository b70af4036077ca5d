/**
 * `src/state/leadDraft.tsx`: the shared, in-memory rental-request draft that
 * every surface of the site (hero, both forms, chatbot, URL prefill, share
 * widgets) reads and shallow-merges patches into.
 */
module LeadDraft {
  import opened Wrappers

  datatype Suburb = Malad | Kandivali | Borivali
  datatype Side = West | East

  /** One of the six areas: a suburb and a side. */
  datatype Area = Area(suburb: Suburb, side: Side)

  datatype Bhk = One | Two | Three | FourPlus
  datatype Furnishing = F | S | U
  datatype MoveIn = Immediate | Within7 | Within15 | ThirtyPlus
  datatype Profile = Family | Bachelor | Company

  function SuburbName(s: Suburb): string {
    match s
    case Malad => "Malad"
    case Kandivali => "Kandivali"
    case Borivali => "Borivali"
  }

  function SideName(s: Side): string {
    match s
    case West => "West"
    case East => "East"
  }

  /** The area's string literal, e.g. "Kandivali East". */
  function AreaName(a: Area): string {
    SuburbName(a.suburb) + " " + SideName(a.side)
  }

  /** `AREAS`, in the order both `urlPrefill.ts` and `schema.ts` list it. */
  const AREAS: seq<Area> := [
    Area(Malad, West), Area(Malad, East),
    Area(Kandivali, West), Area(Kandivali, East),
    Area(Borivali, West), Area(Borivali, East)
  ]

  lemma AreasComplete(a: Area)
    ensures a in AREAS
  {
    match a
    case Area(Malad, West) => assert AREAS[0] == a;
    case Area(Malad, East) => assert AREAS[1] == a;
    case Area(Kandivali, West) => assert AREAS[2] == a;
    case Area(Kandivali, East) => assert AREAS[3] == a;
    case Area(Borivali, West) => assert AREAS[4] == a;
    case Area(Borivali, East) => assert AREAS[5] == a;
  }

  function BhkCode(b: Bhk): string {
    match b
    case One => "1"
    case Two => "2"
    case Three => "3"
    case FourPlus => "4+"
  }

  function FurnishingCode(f: Furnishing): string {
    match f
    case F => "F"
    case S => "S"
    case U => "U"
  }

  function MoveInCode(m: MoveIn): string {
    match m
    case Immediate => "Immediate"
    case Within7 => "7"
    case Within15 => "15"
    case ThirtyPlus => "30+"
  }

  function ProfileCode(p: Profile): string {
    match p
    case Family => "Family"
    case Bachelor => "Bachelor"
    case Company => "Company"
  }

  /** No two areas share a literal. */
  lemma AreaNameInjective(a: Area, b: Area)
    requires AreaName(a) == AreaName(b)
    ensures a == b
  {
    var sa, sb := AreaName(a), AreaName(b);
    assert |sa| == |SuburbName(a.suburb)| + 5 && |sb| == |SuburbName(b.suburb)| + 5;
    assert a.suburb == b.suburb;
    assert sa[|SuburbName(a.suburb)| + 1] == SideName(a.side)[0];
    assert sb[|SuburbName(b.suburb)| + 1] == SideName(b.side)[0];
  }

  /** The area whose literal is `s`, if any. */
  function AreaFromName(s: string): (r: Option<Area>)
    ensures forall a :: r == Some(a) <==> AreaName(a) == s
  {
    assert forall a, b :: AreaName(a) == s && AreaName(b) == s ==> a == b by {
      forall a, b | AreaName(a) == s && AreaName(b) == s ensures a == b { AreaNameInjective(a, b); }
    }
    if s == AreaName(Area(Malad, West)) then Some(Area(Malad, West))
    else if s == AreaName(Area(Malad, East)) then Some(Area(Malad, East))
    else if s == AreaName(Area(Kandivali, West)) then Some(Area(Kandivali, West))
    else if s == AreaName(Area(Kandivali, East)) then Some(Area(Kandivali, East))
    else if s == AreaName(Area(Borivali, West)) then Some(Area(Borivali, West))
    else if s == AreaName(Area(Borivali, East)) then Some(Area(Borivali, East))
    else None
  }

  function BhkFromCode(s: string): (r: Option<Bhk>)
    ensures forall b :: r == Some(b) <==> BhkCode(b) == s
  {
    if s == "1" then Some(One) else if s == "2" then Some(Two)
    else if s == "3" then Some(Three) else if s == "4+" then Some(FourPlus)
    else None
  }

  function FurnishingFromCode(s: string): (r: Option<Furnishing>)
    ensures forall f :: r == Some(f) <==> FurnishingCode(f) == s
  {
    if s == "F" then Some(F) else if s == "S" then Some(S) else if s == "U" then Some(U) else None
  }

  function MoveInFromCode(s: string): (r: Option<MoveIn>)
    ensures forall m :: r == Some(m) <==> MoveInCode(m) == s
  {
    if s == "Immediate" then Some(Immediate) else if s == "7" then Some(Within7)
    else if s == "15" then Some(Within15) else if s == "30+" then Some(ThirtyPlus)
    else None
  }

  function ProfileFromCode(s: string): (r: Option<Profile>)
    ensures forall p :: r == Some(p) <==> ProfileCode(p) == s
  {
    if s == "Family" then Some(Family) else if s == "Bachelor" then Some(Bachelor)
    else if s == "Company" then Some(Company)
    else None
  }

  /**
   * `LeadDraft`; the same shape serves as `Partial<LeadDraft>`, the patch type,
   * where `None` is an absent key. Budgets are in thousands of rupees.
   */
  datatype Draft = Draft(
    name: Option<string>,
    phone: Option<string>,
    area: Option<Area>,
    budgetMinK: Option<int>,
    budgetMaxK: Option<int>,
    bhk: Option<Bhk>,
    furnishing: Option<Furnishing>,
    moveIn: Option<MoveIn>,
    profile: Option<Profile>,
    locality: Option<string>,
    notes: Option<string>,
    prefillTs: Option<int>)

  /** The keys of a draft. */
  datatype Field =
    | NameKey | PhoneKey | AreaKey | BudgetMinKey | BudgetMaxKey | BhkKey
    | FurnishingKey | MoveInKey | ProfileKey | LocalityKey | NotesKey | PrefillTsKey

  /** The key `f` is present in `d`. */
  predicate Has(d: Draft, f: Field) {
    match f
    case NameKey => d.name.Some?
    case PhoneKey => d.phone.Some?
    case AreaKey => d.area.Some?
    case BudgetMinKey => d.budgetMinK.Some?
    case BudgetMaxKey => d.budgetMaxK.Some?
    case BhkKey => d.bhk.Some?
    case FurnishingKey => d.furnishing.Some?
    case MoveInKey => d.moveIn.Some?
    case ProfileKey => d.profile.Some?
    case LocalityKey => d.locality.Some?
    case NotesKey => d.notes.Some?
    case PrefillTsKey => d.prefillTs.Some?
  }

  /** `a` and `b` agree on the key `f` (both absent, or both present with one value). */
  predicate SameAt(a: Draft, b: Draft, f: Field) {
    match f
    case NameKey => a.name == b.name
    case PhoneKey => a.phone == b.phone
    case AreaKey => a.area == b.area
    case BudgetMinKey => a.budgetMinK == b.budgetMinK
    case BudgetMaxKey => a.budgetMaxK == b.budgetMaxK
    case BhkKey => a.bhk == b.bhk
    case FurnishingKey => a.furnishing == b.furnishing
    case MoveInKey => a.moveIn == b.moveIn
    case ProfileKey => a.profile == b.profile
    case LocalityKey => a.locality == b.locality
    case NotesKey => a.notes == b.notes
    case PrefillTsKey => a.prefillTs == b.prefillTs
  }

  /** `Object.keys(d)` */
  function Keys(d: Draft): set<Field> {
    set f: Field | Has(d, f)
  }

  /** Drafts that agree on every key are equal. */
  lemma Extensionality(a: Draft, b: Draft)
    requires forall f :: SameAt(a, b, f)
    ensures a == b
  {
    assert SameAt(a, b, NameKey) && SameAt(a, b, PhoneKey) && SameAt(a, b, AreaKey);
    assert SameAt(a, b, BudgetMinKey) && SameAt(a, b, BudgetMaxKey) && SameAt(a, b, BhkKey);
    assert SameAt(a, b, FurnishingKey) && SameAt(a, b, MoveInKey) && SameAt(a, b, ProfileKey);
    assert SameAt(a, b, LocalityKey) && SameAt(a, b, NotesKey) && SameAt(a, b, PrefillTsKey);
  }

  /** `{}` */
  const EmptyPatch := Draft(None, None, None, None, None, None, None, None, None, None, None, None)

  lemma EmptyPatchHasNoKeys()
    ensures Keys(EmptyPatch) == {}
  {
  }

  /** `DEFAULT_DRAFT` */
  const DefaultDraft := Draft(
    name := None, phone := None, area := Some(Area(Malad, West)),
    budgetMinK := Some(40), budgetMaxK := Some(60),
    bhk := Some(One), furnishing := Some(S), moveIn := Some(Immediate), profile := Some(Family),
    locality := Some(""), notes := Some(""), prefillTs := None)

  /** The default draft has an ordered budget window and empty free-text fields. */
  lemma DefaultDraftShape()
    ensures DefaultDraft.budgetMinK.value <= DefaultDraft.budgetMaxK.value
    ensures DefaultDraft.locality == Some("") && DefaultDraft.notes == Some("")
    ensures Keys(DefaultDraft) == {AreaKey, BudgetMinKey, BudgetMaxKey, BhkKey, FurnishingKey,
                                   MoveInKey, ProfileKey, LocalityKey, NotesKey}
  {
  }

  function Pick<T>(current: Option<T>, patched: Option<T>): Option<T> {
    if patched.Some? then patched else current
  }

  /** `{ ...d, ...patch }`: a shallow merge where every key of the patch wins. */
  function Merge(d: Draft, patch: Draft): (r: Draft)
    ensures forall f :: Has(patch, f) ==> SameAt(r, patch, f)
    ensures forall f :: !Has(patch, f) ==> SameAt(r, d, f)
  {
    Draft(
      Pick(d.name, patch.name), Pick(d.phone, patch.phone), Pick(d.area, patch.area),
      Pick(d.budgetMinK, patch.budgetMinK), Pick(d.budgetMaxK, patch.budgetMaxK),
      Pick(d.bhk, patch.bhk), Pick(d.furnishing, patch.furnishing), Pick(d.moveIn, patch.moveIn),
      Pick(d.profile, patch.profile), Pick(d.locality, patch.locality), Pick(d.notes, patch.notes),
      Pick(d.prefillTs, patch.prefillTs))
  }

  /** The merged draft has exactly the keys of either side. */
  lemma MergeKeys(d: Draft, patch: Draft)
    ensures Keys(Merge(d, patch)) == Keys(d) + Keys(patch)
  {
    var r := Merge(d, patch);
    forall f ensures Has(r, f) <==> Has(d, f) || Has(patch, f) {
      if Has(patch, f) { assert SameAt(r, patch, f); } else { assert SameAt(r, d, f); }
    }
  }

  /** Applying the same patch twice is applying it once. */
  lemma MergeIdempotent(d: Draft, patch: Draft)
    ensures Merge(Merge(d, patch), patch) == Merge(d, patch)
  {
  }

  /** The empty patch changes nothing. */
  lemma MergeEmpty(d: Draft)
    ensures Merge(d, EmptyPatch) == d
  {
  }

  /** Two consecutive merges are one merge of the combined patch (later keys win). */
  lemma MergeCompose(d: Draft, p: Draft, q: Draft)
    ensures Merge(Merge(d, p), q) == Merge(d, Merge(p, q))
  {
  }

  /** The merge validates nothing: it can leave the budget window inverted. */
  lemma MergeDoesNotOrderBudget()
    ensures var r := Merge(DefaultDraft, EmptyPatch.(budgetMinK := Some(90)));
            r.budgetMinK.value > r.budgetMaxK.value
  {
  }

  /** The provider's state: one mutable draft. */
  class DraftStore {
    var draft: Draft

    /** `useState<LeadDraft>(DEFAULT_DRAFT)` */
    constructor ()
      ensures draft == DefaultDraft
    {
      draft := DefaultDraft;
    }

    /** `setDraft(patch)`: shallow merge into the current draft. */
    method SetDraft(patch: Draft)
      modifies this
      ensures draft == Merge(old(draft), patch)
      ensures forall f :: Has(patch, f) ==> SameAt(draft, patch, f)
      ensures forall f :: !Has(patch, f) ==> SameAt(draft, old(draft), f)
    {
      draft := Merge(draft, patch);
    }

    /** `clearDraft()`: back to the default draft, from any state. */
    method ClearDraft()
      modifies this
      ensures draft == DefaultDraft
    {
      draft := DefaultDraft;
    }
  }

  const OutsideProviderError := "useLeadDraft must be used within LeadDraftProvider"

  /** `useLeadDraft()`: the provided store, or the error it throws outside a provider. */
  function UseLeadDraft(provided: Option<DraftStore>): (r: Result<DraftStore, string>)
    ensures r.Success? <==> provided.Some?
    ensures r.Success? ==> r.value == provided.value
    ensures r.Failure? ==> r.error == OutsideProviderError
  {
    match provided
    case Some(store) => Success(store)
    case None => Failure(OutsideProviderError)
  }
}
