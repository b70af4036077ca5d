/**
 * `src/components/WhatsAppFab.tsx`: the floating WhatsApp button's link. The
 * draft fills a personal message when it holds a name; absent fields take
 * fixed defaults, and the recipient follows the shared ten-digit rule.
 */
module WhatsAppFab {
  import opened Wrappers
  import opened Strings
  import opened Utils
  import opened LeadDraft
  import opened Schema

  /** "1–2", with an en dash: the bhk a draft without one is described with. */
  const DEFAULT_BHK := "1–2"
  const FAB_DEFAULT_AREA := "Mumbai Western Suburbs"
  /** The generic message, written as its greeting and the rest. */
  const FAB_GENERIC := "Hi! " + "I'm looking for a rental home in Mumbai Western Suburbs. Please share options."

  /** `draft.name?.trim() || ""` */
  function DraftName(d: Draft): (r: string)
    ensures r == [] || (!IsSpace(r[0]) && !IsSpace(r[|r| - 1]))
  {
    if d.name.Some? then Trim(d.name.value) else ""
  }

  /** `draft.bhk ?? "1–2"` */
  function DraftBhk(d: Draft): string {
    if d.bhk.Some? then BhkCode(d.bhk.value) else DEFAULT_BHK
  }

  /** `draft.moveIn ? MOVE_IN_LABELS[draft.moveIn] ?? draft.moveIn : ""`; the label map is total. */
  function DraftMoveIn(d: Draft): string {
    if d.moveIn.Some? then MoveInLabel(d.moveIn.value) else ""
  }

  /** `cond ? prefix + v : ""` for the optional clauses, whose test is on `v`'s truthiness. */
  function Clause(prefix: string, v: string): string {
    if v == "" then "" else prefix + v
  }

  /** The move-in label is never empty, so its clause is there exactly when the draft has a move-in. */
  lemma MoveInClausePresent(d: Draft)
    ensures Clause(", move-in ", DraftMoveIn(d)) == "" <==> d.moveIn.None?
    ensures d.moveIn.Some? ==> Clause(", move-in ", DraftMoveIn(d)) == ", move-in " + MoveInLabel(d.moveIn.value)
  {
    if d.moveIn.Some? {
      assert |MoveInLabel(d.moveIn.value)| > 0;
    }
  }

  /** The profile code is never empty, so its clause is there exactly when the draft has a profile. */
  lemma ProfileClausePresent(d: Draft)
    ensures Clause(", ", FabProfile(d)) == "" <==> d.profile.None?
    ensures d.profile.Some? ==> Clause(", ", FabProfile(d)) == ", " + ProfileCode(d.profile.value)
  {
    if d.profile.Some? {
      assert |ProfileCode(d.profile.value)| > 0;
    }
  }

  function FabArea(d: Draft): string {
    if d.area.Some? then AreaName(d.area.value) else FAB_DEFAULT_AREA
  }

  function FabProfile(d: Draft): string {
    if d.profile.Some? then ProfileCode(d.profile.value) else ""
  }

  /** The common opening of the personal messages of both WhatsApp builders. */
  function Opening(name: string, bhk: string, area: string, budget: string): string {
    "Hi, I'm " + name + ". Need " + bhk + " BHK in " + area + ", budget " + budget
  }

  /** The personal message from its parts; the optional clauses follow the budget. */
  function PersonalText(name: string, bhk: string, area: string, budget: string, moveIn: string, profile: string): (r: string)
    ensures |r| > 8 && r[2] == ',' && r[|r| - 1] == '.'
    ensures IsPrefix(Opening(name, bhk, area, budget), r)
    ensures r == Opening(name, bhk, area, budget) + Clause(", move-in ", moveIn) + Clause(", ", profile) + "."
  {
    var open := Opening(name, bhk, area, budget);
    var r := open + (Clause(", move-in ", moveIn) + Clause(", ", profile) + ".");
    PrefixOfAppend(open, Clause(", move-in ", moveIn) + Clause(", ", profile) + ".");
    OpeningShape(name, bhk, area, budget);
    r
  }

  lemma OpeningShape(name: string, bhk: string, area: string, budget: string)
    ensures |Opening(name, bhk, area, budget)| > 8 && Opening(name, bhk, area, budget)[2] == ','
  {
    var hi := "Hi, I'm ";
    assert Opening(name, bhk, area, budget) == hi + (name + ". Need " + bhk + " BHK in " + area + ", budget " + budget);
  }

  lemma PrefixOfAppend(a: string, b: string)
    ensures IsPrefix(a, a + b)
  {
    assert (a + b)[..|a|] == a;
  }

  lemma GenericShape()
    ensures |FAB_GENERIC| > 2 && FAB_GENERIC[2] == '!'
  {
    var hi := "Hi! ";
    assert hi[2] == '!';
  }

  /**
   * The message: personal when the trimmed name is not empty (the bhk and
   * area texts are never empty), the generic one otherwise.
   */
  function FabMessage(d: Draft): (r: string)
    ensures DraftName(d) == "" ==> r == FAB_GENERIC
    ensures DraftName(d) != "" ==> r != FAB_GENERIC && |r| > 0 && r[|r| - 1] == '.'
    ensures DraftName(d) != "" ==> IsPrefix(Opening(DraftName(d), DraftBhk(d), FabArea(d), BudgetText(d)), r)
    // The move-in and profile clauses follow the budget exactly when the draft holds those fields.
    ensures DraftName(d) != "" ==>
      r == Opening(DraftName(d), DraftBhk(d), FabArea(d), BudgetText(d)) +
           (if d.moveIn.Some? then ", move-in " + MoveInLabel(d.moveIn.value) else "") +
           (if d.profile.Some? then ", " + ProfileCode(d.profile.value) else "") + "."
  {
    var name := DraftName(d);
    if name != "" then
      GenericShape();
      MoveInClausePresent(d);
      ProfileClausePresent(d);
      PersonalText(name, DraftBhk(d), FabArea(d), BudgetText(d), DraftMoveIn(d), FabProfile(d))
    else FAB_GENERIC
  }

  /** The button's link: the shared recipient rule and the message. */
  function FabLink(d: Draft, phone10: string): (r: WaLink)
    ensures r.recipient == WaRecipient(phone10)
    ensures r.text == FabMessage(d)
  {
    WaLink(WaRecipient(phone10), FabMessage(d))
  }

  /** With a name and nothing else, every default shows: "1–2", the suburbs, "40-60k". */
  lemma FabDefaults(d: Draft)
    requires DraftName(d) != "" && d.bhk.None? && d.area.None? && d.budgetMinK.None?
    requires d.moveIn.None? && d.profile.None?
    ensures FabMessage(d) == Opening(DraftName(d), DEFAULT_BHK, FAB_DEFAULT_AREA, ToBudgetRange(40, 60)) + "."
  {
    assert BudgetText(d) == ToBudgetRange(40, 60) by { BudgetTextFallback(d); }
    assert DraftBhk(d) == DEFAULT_BHK && FabArea(d) == FAB_DEFAULT_AREA;
    assert DraftMoveIn(d) == "" && FabProfile(d) == "";
  }

  /** The link never carries furnishing, locality, notes, the draft's phone or its timestamp. */
  lemma FabLinkIgnores(d: Draft, e: Draft, phone10: string)
    requires d.name == e.name && d.bhk == e.bhk && d.area == e.area && d.moveIn == e.moveIn && d.profile == e.profile
    requires d.budgetMinK == e.budgetMinK && d.budgetMaxK == e.budgetMaxK
    ensures FabLink(d, phone10) == FabLink(e, phone10)
  {
    assert DraftName(d) == DraftName(e) && DraftBhk(d) == DraftBhk(e) && FabArea(d) == FabArea(e);
    assert BudgetText(d) == BudgetText(e) && DraftMoveIn(d) == DraftMoveIn(e) && FabProfile(d) == FabProfile(e);
  }
}
