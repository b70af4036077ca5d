/**
 * `src/components/ShareWidget.tsx`: the second share-link builder, the widget's
 * budget text and the test that shows its trigger.
 *
 * The builder starts from an empty query and writes each truthy field of the
 * draft in a fixed order, then `scroll=1`. It writes the budget bounds under
 * the names `budgetMin` and `budgetMax`, which the prefill parser never reads;
 * `BudgetKeys` lets the model state both that builder and the one that writes
 * them under `min` and `max`, the names the prefill reads.
 */
module ShareWidget {
  import opened Wrappers
  import opened Strings
  import opened LeadDraft
  import opened Schema
  import opened UrlPrefill

  /** The names the budget bounds are written under. */
  datatype BudgetKeys = WrittenKeys | IntendedKeys

  function MinKey(keys: BudgetKeys): string {
    match keys
    case WrittenKeys => "budgetMin"
    case IntendedKeys => "min"
  }

  function MaxKey(keys: BudgetKeys): string {
    match keys
    case WrittenKeys => "budgetMax"
    case IntendedKeys => "max"
  }

  /** `if (draft.budgetMinK)`: a bound is written when it is present and not 0. */
  function WidgetBudget(k: Option<int>): Option<string> {
    if k.Some? && k.value != 0 then Some(IntToString(k.value)) else None
  }

  /** `if (draft.locality)`: the locality is written untrimmed, when not empty. */
  function WidgetLocality(d: Draft): Option<string> {
    if d.locality.Some? && d.locality.value != "" then d.locality else None
  }

  /** The query `buildShareUrl` fills, one `set` after another on an empty query. */
  function WidgetQuery(d: Draft, keys: BudgetKeys): Params {
    Set(Through8(d, keys), "scroll", "1")
  }

  /** The query after the `set`s of area and bhk. */
  function Through2(d: Draft): Params {
    SetOpt(SetOpt([], "area", AreaValue(d)), "bhk", BhkValue(d))
  }

  /** ... then the two budget bounds. */
  function Through4(d: Draft, keys: BudgetKeys): Params {
    SetOpt(SetOpt(Through2(d), MinKey(keys), WidgetBudget(d.budgetMinK)), MaxKey(keys), WidgetBudget(d.budgetMaxK))
  }

  /** ... then furnishing and move-in. */
  function Through6(d: Draft, keys: BudgetKeys): Params {
    SetOpt(SetOpt(Through4(d, keys), "furnishing", FurnishingValue(d)), "moveIn", MoveInValue(d))
  }

  /** ... then profile and locality. */
  function Through8(d: Draft, keys: BudgetKeys): Params {
    SetOpt(SetOpt(Through6(d, keys), "profile", ProfileValue(d)), "locality", WidgetLocality(d))
  }

  /** The origin's root with that query. */
  function ShareUrl(origin: string, d: Draft, keys: BudgetKeys): Url {
    Url(origin, "/", WidgetQuery(d, keys))
  }

  /** The `set`s of area and bhk. */
  method WriteAreaBhk(q: Params, d: Draft) returns (q': Params)
    ensures q' == SetOpt(SetOpt(q, "area", AreaValue(d)), "bhk", BhkValue(d))
  {
    q' := q;
    if d.area.Some? { q' := Set(q', "area", AreaName(d.area.value)); }
    if d.bhk.Some? { q' := Set(q', "bhk", BhkCode(d.bhk.value)); }
  }

  /** The `set`s of the two budget bounds, under the names `keys` gives. */
  method WriteBudget(q: Params, d: Draft, keys: BudgetKeys) returns (q': Params)
    ensures q' == SetOpt(SetOpt(q, MinKey(keys), WidgetBudget(d.budgetMinK)), MaxKey(keys), WidgetBudget(d.budgetMaxK))
  {
    q' := q;
    if d.budgetMinK.Some? && d.budgetMinK.value != 0 { q' := Set(q', MinKey(keys), IntToString(d.budgetMinK.value)); }
    if d.budgetMaxK.Some? && d.budgetMaxK.value != 0 { q' := Set(q', MaxKey(keys), IntToString(d.budgetMaxK.value)); }
  }

  /** The `set`s of furnishing and move-in. */
  method WriteTerms(q: Params, d: Draft) returns (q': Params)
    ensures q' == SetOpt(SetOpt(q, "furnishing", FurnishingValue(d)), "moveIn", MoveInValue(d))
  {
    q' := q;
    if d.furnishing.Some? { q' := Set(q', "furnishing", FurnishingCode(d.furnishing.value)); }
    if d.moveIn.Some? { q' := Set(q', "moveIn", MoveInCode(d.moveIn.value)); }
  }

  /** The `set`s of profile and locality. */
  method WriteProfileLocality(q: Params, d: Draft) returns (q': Params)
    ensures q' == SetOpt(SetOpt(q, "profile", ProfileValue(d)), "locality", WidgetLocality(d))
  {
    q' := q;
    if d.profile.Some? { q' := Set(q', "profile", ProfileCode(d.profile.value)); }
    if d.locality.Some? && d.locality.value != "" { q' := Set(q', "locality", d.locality.value); }
  }

  /** The `buildShareUrl` procedure, with the budget names as `keys` says. */
  method BuildShareUrl(origin: string, d: Draft, keys: BudgetKeys) returns (r: Url)
    ensures r == ShareUrl(origin, d, keys)
  {
    var q: Params := [];
    q := WriteAreaBhk(q, d);
    q := WriteBudget(q, d, keys);
    q := WriteTerms(q, d);
    q := WriteProfileLocality(q, d);
    q := Set(q, "scroll", "1");
    r := Url(origin, "/", q);
  }

  /** The pair `(name, v)` when there is a value, else nothing. */
  function Entry(name: string, v: Option<string>): Params {
    if v.Some? then [(name, v.value)] else []
  }

  /** Every pair of `p` has one of the names `names`. */
  predicate NamesIn(p: Params, names: seq<string>) {
    forall i :: 0 <= i < |p| ==> p[i].0 in names
  }

  /** A `set` of a name the query does not hold, if there is a value, appends the pair. */
  lemma SetOptNew(p: Params, names: seq<string>, name: string, v: Option<string>)
    requires NamesIn(p, names) && name !in names
    ensures SetOpt(p, name, v) == p + Entry(name, v)
    ensures NamesIn(p + Entry(name, v), names + [name])
  {
    if v.Some? {
      SetNew(p, name, v.value);
    }
  }

  /** The four stages append the written pairs, each stage under names the earlier ones do not use. */
  lemma Through2InOrder(d: Draft)
    ensures Through2(d) == Entry("area", AreaValue(d)) + Entry("bhk", BhkValue(d))
    ensures NamesIn(Through2(d), ["area", "bhk"])
  {
    SetOptNew([], [], "area", AreaValue(d));
    assert [] + Entry("area", AreaValue(d)) == Entry("area", AreaValue(d));
    SetOptNew(Entry("area", AreaValue(d)), ["area"], "bhk", BhkValue(d));
  }

  lemma Through4InOrder(d: Draft, keys: BudgetKeys)
    ensures Through4(d, keys) == Through2(d) +
      Entry(MinKey(keys), WidgetBudget(d.budgetMinK)) + Entry(MaxKey(keys), WidgetBudget(d.budgetMaxK))
    ensures NamesIn(Through4(d, keys), ["area", "bhk", MinKey(keys), MaxKey(keys)])
  {
    Through2InOrder(d);
    var q2 := Through2(d);
    SetOptNew(q2, ["area", "bhk"], MinKey(keys), WidgetBudget(d.budgetMinK));
    var q3 := q2 + Entry(MinKey(keys), WidgetBudget(d.budgetMinK));
    SetOptNew(q3, ["area", "bhk", MinKey(keys)], MaxKey(keys), WidgetBudget(d.budgetMaxK));
  }

  lemma Through6InOrder(d: Draft, keys: BudgetKeys)
    ensures Through6(d, keys) == Through4(d, keys) +
      Entry("furnishing", FurnishingValue(d)) + Entry("moveIn", MoveInValue(d))
    ensures NamesIn(Through6(d, keys), ["area", "bhk", MinKey(keys), MaxKey(keys), "furnishing", "moveIn"])
  {
    Through4InOrder(d, keys);
    var names := ["area", "bhk", MinKey(keys), MaxKey(keys)];
    var q4 := Through4(d, keys);
    SetOptNew(q4, names, "furnishing", FurnishingValue(d));
    var q5 := q4 + Entry("furnishing", FurnishingValue(d));
    SetOptNew(q5, names + ["furnishing"], "moveIn", MoveInValue(d));
  }

  lemma Through8InOrder(d: Draft, keys: BudgetKeys)
    ensures Through8(d, keys) == Through6(d, keys) +
      Entry("profile", ProfileValue(d)) + Entry("locality", WidgetLocality(d))
    ensures NamesIn(Through8(d, keys),
                    ["area", "bhk", MinKey(keys), MaxKey(keys), "furnishing", "moveIn", "profile", "locality"])
  {
    Through6InOrder(d, keys);
    var names := ["area", "bhk", MinKey(keys), MaxKey(keys), "furnishing", "moveIn"];
    var q6 := Through6(d, keys);
    SetOptNew(q6, names, "profile", ProfileValue(d));
    var q7 := q6 + Entry("profile", ProfileValue(d));
    SetOptNew(q7, names + ["profile"], "locality", WidgetLocality(d));
  }

  /**
   * The query holds exactly the truthy fields, in the order area, bhk, lower
   * bound, upper bound, furnishing, move-in, profile, locality, and ends with
   * `scroll=1`.
   */
  lemma WidgetQueryInOrder(d: Draft, keys: BudgetKeys)
    ensures WidgetQuery(d, keys) ==
      Entry("area", AreaValue(d)) + Entry("bhk", BhkValue(d)) +
      Entry(MinKey(keys), WidgetBudget(d.budgetMinK)) + Entry(MaxKey(keys), WidgetBudget(d.budgetMaxK)) +
      Entry("furnishing", FurnishingValue(d)) + Entry("moveIn", MoveInValue(d)) +
      Entry("profile", ProfileValue(d)) + Entry("locality", WidgetLocality(d)) + [("scroll", "1")]
  {
    Through2InOrder(d);
    Through4InOrder(d, keys);
    Through6InOrder(d, keys);
    Through8InOrder(d, keys);
    SetOptNew(Through8(d, keys),
      ["area", "bhk", MinKey(keys), MaxKey(keys), "furnishing", "moveIn", "profile", "locality"], "scroll", Some("1"));
  }

  /** Every name of the widget's query reads as the field it carries; no other name is present. */
  lemma WidgetQueryGet(d: Draft, keys: BudgetKeys, k: string)
    ensures Get(WidgetQuery(d, keys), k) ==
      if k == "scroll" then Some("1")
      else if k == "locality" then WidgetLocality(d)
      else if k == "profile" then ProfileValue(d)
      else if k == "moveIn" then MoveInValue(d)
      else if k == "furnishing" then FurnishingValue(d)
      else if k == MaxKey(keys) then WidgetBudget(d.budgetMaxK)
      else if k == MinKey(keys) then WidgetBudget(d.budgetMinK)
      else if k == "bhk" then BhkValue(d)
      else if k == "area" then AreaValue(d)
      else None
  {
    var p1 := SetOpt([], "area", AreaValue(d));
    var p2 := Through2(d);
    var p3 := SetOpt(p2, MinKey(keys), WidgetBudget(d.budgetMinK));
    var p4 := Through4(d, keys);
    var p5 := SetOpt(p4, "furnishing", FurnishingValue(d));
    var p6 := Through6(d, keys);
    var p7 := SetOpt(p6, "profile", ProfileValue(d));
    var p8 := Through8(d, keys);
    SetOptGet([], "area", AreaValue(d), k);
    SetOptGet(p1, "bhk", BhkValue(d), k);
    SetOptGet(p2, MinKey(keys), WidgetBudget(d.budgetMinK), k);
    SetOptGet(p3, MaxKey(keys), WidgetBudget(d.budgetMaxK), k);
    SetOptGet(p4, "furnishing", FurnishingValue(d), k);
    SetOptGet(p5, "moveIn", MoveInValue(d), k);
    SetOptGet(p6, "profile", ProfileValue(d), k);
    SetOptGet(p7, "locality", WidgetLocality(d), k);
    SetGet(p8, "scroll", "1", k);
  }

  /** What each name the prefill reads finds in the widget's query. */
  lemma WidgetQueryValues(d: Draft, keys: BudgetKeys)
    ensures var q := WidgetQuery(d, keys);
      Get(q, "area") == AreaValue(d) && Get(q, "locality") == WidgetLocality(d) &&
      Get(q, "bhk") == BhkValue(d) && Get(q, "furnishing") == FurnishingValue(d) &&
      Get(q, "moveIn") == MoveInValue(d) && Get(q, "profile") == ProfileValue(d) &&
      Get(q, "min") == (if keys == IntendedKeys then WidgetBudget(d.budgetMinK) else None) &&
      Get(q, "max") == (if keys == IntendedKeys then WidgetBudget(d.budgetMaxK) else None) &&
      Get(q, "notes") == None && Get(q, "openForm") == None && Get(q, "scroll") == Some("1")
  {
    WidgetQueryGet(d, keys, "area");
    WidgetQueryGet(d, keys, "locality");
    WidgetQueryGet(d, keys, "bhk");
    WidgetQueryGet(d, keys, "min");
    WidgetQueryGet(d, keys, "max");
    WidgetQueryGet(d, keys, "furnishing");
    WidgetQueryGet(d, keys, "moveIn");
    WidgetQueryGet(d, keys, "profile");
    WidgetQueryGet(d, keys, "notes");
    WidgetQueryGet(d, keys, "openForm");
    WidgetQueryGet(d, keys, "scroll");
  }

  /**
   * The widget's link as written, read by the prefill: the budget is lost
   * whatever the draft holds, the form is not opened, and the page scrolls.
   */
  lemma WrittenLinkDropsBudget(origin: string, d: Draft)
    ensures var r := Prefill(ShareUrl(origin, d, WrittenKeys).params);
      r.patch.budgetMinK.None? && r.patch.budgetMaxK.None? && !r.autoOpen && r.autoScroll
  {
    var q := ShareUrl(origin, d, WrittenKeys).params;
    WidgetQueryValues(d, WrittenKeys);
    PrefillFields(q);
  }

  /** Sharing the default draft: the link carries `budgetMin=40`, yet the prefill reads no budget. */
  lemma DefaultDraftLinkLosesBudget(origin: string)
    ensures Get(ShareUrl(origin, DefaultDraft, WrittenKeys).params, "budgetMin") == Some("40")
    ensures Prefill(ShareUrl(origin, DefaultDraft, WrittenKeys).params).patch.budgetMinK.None?
  {
    WidgetQueryGet(DefaultDraft, WrittenKeys, "budgetMin");
    assert IntToString(40) == "40" by {
      assert NatToString(40) == NatToString(4) + [DigitChar(0)];
    }
    WrittenLinkDropsBudget(origin, DefaultDraft);
  }

  /**
   * The link with the budget under `min` and `max`, read by the prefill: every
   * field comes back as the draft holds it (a bhk only when 1 or 2, a budget
   * bound only when truthy and then clamped into `[10, 300]`), no notes, and the
   * page scrolls without opening the form.
   */
  lemma IntendedLinkReadBack(origin: string, d: Draft)
    ensures var r := Prefill(ShareUrl(origin, d, IntendedKeys).params);
      r.patch.area == d.area &&
      r.patch.locality == WidgetLocality(d) &&
      r.patch.bhk == (if d.bhk == Some(One) || d.bhk == Some(Two) then d.bhk else None) &&
      r.patch.furnishing == d.furnishing && r.patch.moveIn == d.moveIn && r.patch.profile == d.profile &&
      r.patch.budgetMinK == (if d.budgetMinK.Some? && d.budgetMinK.value != 0
                             then Some(Clamp(d.budgetMinK.value, MIN_PARAM_K, MAX_PARAM_K)) else None) &&
      r.patch.budgetMaxK == (if d.budgetMaxK.Some? && d.budgetMaxK.value != 0
                             then Some(Clamp(d.budgetMaxK.value, MIN_PARAM_K, MAX_PARAM_K)) else None) &&
      r.patch.notes.None? && !r.autoOpen && r.autoScroll
  {
    var q := ShareUrl(origin, d, IntendedKeys).params;
    WidgetQueryValues(d, IntendedKeys);
    PrefillFields(q);
    AreaValueReadBack(d);
    BhkValueReadBack(d);
    EnumValuesReadBack(d);
    BudgetValueReadBack(if d.budgetMinK.Some? && d.budgetMinK.value != 0 then d.budgetMinK else None);
    BudgetValueReadBack(if d.budgetMaxK.Some? && d.budgetMaxK.value != 0 then d.budgetMaxK else None);
  }

  /** `hasPrefs`: the trigger is shown when the draft has an area and a bhk. */
  predicate HasPrefs(d: Draft) {
    d.area.Some? && d.bhk.Some?
  }

  /** When the trigger shows, the shared link carries the area and the bhk first. */
  lemma HasPrefsLinkStarts(origin: string, d: Draft, keys: BudgetKeys)
    requires HasPrefs(d)
    ensures var q := ShareUrl(origin, d, keys).params;
      |q| >= 3 && q[0] == ("area", AreaName(d.area.value)) && q[1] == ("bhk", BhkCode(d.bhk.value))
  {
    WidgetQueryInOrder(d, keys);
  }
}
