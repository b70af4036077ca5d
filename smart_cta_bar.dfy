/**
 * `src/components/SmartCtaBar.tsx`: the sticky mobile call-to-action bar. It
 * shows once the page is scrolled past the top and before the footer, its
 * button label follows whether the lead form is on screen, and its WhatsApp
 * link is built from the draft like the floating button's, with its own
 * defaults and without the profile.
 */
module SmartCtaBar {
  import opened Wrappers
  import opened Strings
  import opened Utils
  import opened LeadDraft
  import opened Schema
  import opened WhatsAppFab

  const CTA_DEFAULT_AREA := "Western Suburbs"
  const NEAR_LEAD_LABEL := "Submit & get shortlist"
  const FAR_LABEL := "Find my flat →"

  /** `draft.area ?? "Western Suburbs"` */
  function CtaArea(d: Draft): string {
    if d.area.Some? then AreaName(d.area.value) else CTA_DEFAULT_AREA
  }

  /** The message without a name: greeting, bhk, area, budget per month. */
  function UnnamedText(bhk: string, area: string, budget: string): (r: string)
    ensures |r| > 2 && r[2] == '!' && r[|r| - 1] == '.'
  {
    var hi := "Hi! ";
    var r := hi + ("Looking for " + bhk + " BHK in " + area + ", budget " + budget + "/mo.");
    assert hi[2] == '!';
    r
  }

  /**
   * The bar's message. With a name it is the floating button's personal text
   * with no profile clause; without one it is the short text, which names no
   * move-in. The two kinds differ at their third character.
   */
  function CtaMessage(d: Draft): (r: string)
    ensures DraftName(d) != "" ==>
      r == PersonalText(DraftName(d), DraftBhk(d), CtaArea(d), BudgetText(d), DraftMoveIn(d), "")
    ensures DraftName(d) == "" ==> r == UnnamedText(DraftBhk(d), CtaArea(d), BudgetText(d))
    ensures |r| > 2 && (r[2] == ',' <==> DraftName(d) != "")
  {
    var name := DraftName(d);
    if name != "" then
      var open := Opening(name, DraftBhk(d), CtaArea(d), BudgetText(d));
      var mv := Clause(", move-in ", DraftMoveIn(d));
      assert Clause(", ", "") == "";
      assert open + mv + "." == open + (mv + Clause(", ", "") + ".");
      open + mv + "."
    else
      UnnamedText(DraftBhk(d), CtaArea(d), BudgetText(d))
  }

  /** The bar's link: the shared recipient rule and the message. */
  function CtaLink(d: Draft, phone10: string): (r: WaLink)
    ensures r.recipient == WaRecipient(phone10)
    ensures r.text == CtaMessage(d)
  {
    WaLink(WaRecipient(phone10), CtaMessage(d))
  }

  /**
   * For a named draft with an area and no profile, the bar and the floating
   * button send the same text; only their fallbacks differ.
   */
  lemma CtaAgreesWithFab(d: Draft)
    requires DraftName(d) != "" && d.area.Some? && d.profile.None?
    ensures CtaMessage(d) == FabMessage(d)
  {
    assert CtaArea(d) == FabArea(d) && FabProfile(d) == "";
  }

  /** The bar never carries the profile or anything but name, bhk, area, budget and move-in. */
  lemma CtaLinkIgnores(d: Draft, e: Draft, phone10: string)
    requires d.name == e.name && d.bhk == e.bhk && d.area == e.area && d.moveIn == e.moveIn
    requires d.budgetMinK == e.budgetMinK && d.budgetMaxK == e.budgetMaxK
    ensures CtaLink(d, phone10) == CtaLink(e, phone10)
  {
    assert DraftName(d) == DraftName(e) && DraftBhk(d) == DraftBhk(e) && CtaArea(d) == CtaArea(e);
    assert BudgetText(d) == BudgetText(e) && DraftMoveIn(d) == DraftMoveIn(e);
  }

  /** Without a name the move-in does not show either. */
  lemma UnnamedIgnoresMoveIn(d: Draft, e: Draft)
    requires DraftName(d) == "" && DraftName(e) == ""
    requires d.bhk == e.bhk && d.area == e.area
    requires d.budgetMinK == e.budgetMinK && d.budgetMaxK == e.budgetMaxK
    ensures CtaMessage(d) == CtaMessage(e)
  {
    assert DraftBhk(d) == DraftBhk(e) && CtaArea(d) == CtaArea(e) && BudgetText(d) == BudgetText(e);
  }

  /**
   * `y > 200 && y < docH - winH - 100`: past the first 200 pixels and more
   * than 100 pixels above the bottom of the page.
   */
  predicate Show(y: int, docH: int, winH: int)
  {
    y > 200 && y < docH - winH - 100
  }

  /** The bar can show only on a page that scrolls by more than 300 pixels. */
  lemma ShowNeedsRoom(y: int, docH: int, winH: int)
    ensures Show(y, docH, winH) ==> y > 200 && docH - winH > 301
    ensures docH - winH > 301 ==> Show(201, docH, winH)
  {
  }

  /** `e.some(en => en.isIntersecting)` */
  function AnyIntersecting(entries: seq<bool>): (r: bool)
    ensures r <==> exists i :: 0 <= i < |entries| && entries[i]
  {
    if entries == [] then false
    else entries[0] || AnyIntersecting(entries[1..])
  }

  /** The button's label. */
  function CtaLabel(nearLead: bool): (r: string)
    ensures r == (if nearLead then NEAR_LEAD_LABEL else FAR_LABEL)
    ensures r != ""
  {
    if nearLead then NEAR_LEAD_LABEL else FAR_LABEL
  }

  /** The bar's two state flags. */
  class CtaBar {
    var show: bool
    var nearLead: bool

    /** `useState(false)` twice; mounting then runs `OnScroll` once. */
    constructor ()
      ensures !show && !nearLead
    {
      show := false;
      nearLead := false;
    }

    /** The button's current label. */
    function Label(): string
      reads this
    {
      CtaLabel(nearLead)
    }

    /** The scroll listener. */
    method OnScroll(y: int, docH: int, winH: int)
      modifies this
      ensures show == Show(y, docH, winH) && nearLead == old(nearLead)
    {
      show := Show(y, docH, winH);
    }

    /** The intersection observer's callback on its batch of entries. */
    method OnIntersect(entries: seq<bool>)
      modifies this
      ensures nearLead <==> exists i :: 0 <= i < |entries| && entries[i]
      ensures show == old(show)
      ensures Label() == (if nearLead then NEAR_LEAD_LABEL else FAR_LABEL)
    {
      nearLead := AnyIntersecting(entries);
    }
  }
}
