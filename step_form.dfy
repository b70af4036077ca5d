/**
 * `src/features/lead-form/LeadForm.tsx`: the three-step lead form. Each step
 * validates its own fields before the next one opens, a module-wide cooldown
 * spaces submissions a minute apart, the budget sliders cannot cross, and a
 * locality that does not belong to a newly chosen area is cleared.
 */
module StepForm {
  import opened Wrappers
  import opened Strings
  import opened Utils
  import opened LeadDraft
  import opened Schema
  import opened Localities

  /** The form's steps. */
  type StepNo = s: int | 1 <= s <= 3 witness 1

  /** `COOLDOWN_MS` */
  const COOLDOWN_MS := 60000

  /** The fields `trigger` validates before leaving step 1 and step 2. */
  const STEP1_FIELDS: seq<FormField> := [AreaField, BudgetMinField, BudgetMaxField, BhkField, FurnishingField]
  const STEP2_FIELDS: seq<FormField> := [MoveInField, ProfileField]

  /** `trigger(fields)` resolves true: each listed field meets the schema. */
  predicate FieldsOk(v: LeadFormValues, fields: seq<FormField>) {
    forall i :: 0 <= i < |fields| ==> FieldOk(v, fields[i])
  }

  /** The step `goNext` leaves the form on: forward only when this step's fields validate. */
  function NextStep(step: StepNo, v: LeadFormValues): (r: StepNo)
    ensures step == 1 ==> (r == 2 <==> FieldsOk(v, STEP1_FIELDS)) && (r == 1 || r == 2)
    ensures step == 2 ==> (r == 3 <==> FieldsOk(v, STEP2_FIELDS)) && (r == 2 || r == 3)
    ensures step == 3 ==> r == 3
  {
    if step == 1 && FieldsOk(v, STEP1_FIELDS) then 2
    else if step == 2 && FieldsOk(v, STEP2_FIELDS) then 3
    else step
  }

  /** `goBack`: 3 goes to 2, anything else to 1. */
  function PrevStep(step: StepNo): (r: StepNo)
    ensures step == 3 ==> r == 2
    ensures step != 3 ==> r == 1
    ensures r <= step
  {
    if step == 3 then 2 else 1
  }

  /** Going back after a step forward returns to where the form was. */
  lemma BackUndoesNext(step: StepNo, v: LeadFormValues)
    requires NextStep(step, v) != step
    ensures PrevStep(NextStep(step, v)) == step
  {
  }

  /** The last step is reached only with both earlier steps' fields valid, one step at a time. */
  lemma ThirdStepNeedsBothSteps(v: LeadFormValues)
    requires NextStep(NextStep(1, v), v) == 3
    ensures FieldsOk(v, STEP1_FIELDS) && FieldsOk(v, STEP2_FIELDS)
  {
  }

  /** `Math.ceil((COOLDOWN_MS - elapsed) / 1000)` */
  function WaitSeconds(elapsed: int): (r: int)
    ensures (r - 1) * 1000 < COOLDOWN_MS - elapsed <= r * 1000
    ensures 0 <= elapsed < COOLDOWN_MS ==> 1 <= r <= 60
  {
    (COOLDOWN_MS - elapsed + 999) / 1000
  }

  function WaitMessage(wait: int): string {
    "Please wait " + IntToString(wait) + "s before submitting again."
  }

  /**
   * The locality-invalidation effect, shared by both lead forms: an empty
   * locality stays, a non-empty one stays only when it equals a suggestion
   * ignoring case and surrounding spaces, and is cleared otherwise.
   */
  predicate IsSuggested(locality: string, suggestions: seq<string>) {
    exists i :: 0 <= i < |suggestions| && Lower(suggestions[i]) == Lower(Trim(locality))
  }

  function KeepLocality(locality: string, suggestions: seq<string>): (r: string)
    ensures r == locality <==> (locality == "" || IsSuggested(locality, suggestions))
    ensures r != locality ==> r == ""
  {
    if locality == "" then locality
    else if IsSuggested(locality, suggestions) then locality
    else ""
  }

  /** The effect is settled after one run. */
  lemma KeepLocalityIdempotent(locality: string, suggestions: seq<string>)
    ensures KeepLocality(KeepLocality(locality, suggestions), suggestions) == KeepLocality(locality, suggestions)
  {
  }

  /** A picked suggestion without surrounding spaces, in any case, survives. */
  lemma SuggestionKept(suggestions: seq<string>, i: int, typed: string)
    requires 0 <= i < |suggestions| && Lower(typed) == Lower(suggestions[i])
    requires typed == [] || (!IsSpace(typed[0]) && !IsSpace(typed[|typed| - 1]))
    ensures KeepLocality(typed, suggestions) == typed
  {
    TrimIdentity(typed);
  }

  /** The area the form starts on: the draft's, or Malad West. */
  function FormArea(d: Draft): Area {
    if d.area.Some? then d.area.value else Area(Malad, West)
  }

  function OrEmpty(s: Option<string>): string {
    if s.Some? then s.value else ""
  }

  /** `defaultValues`: the draft's fields, each with the form's own default. */
  function InitialValues(d: Draft): (r: LeadFormValues)
    ensures FieldOk(r, AreaField) && FieldOk(r, BhkField) && FieldOk(r, FurnishingField)
    ensures FieldsOk(r, STEP2_FIELDS) && FieldOk(r, HoneypotField)
    ensures r.honeypot == Some("")
  {
    LeadFormValues(
      area := Some(AreaName(FormArea(d))),
      budgetMinK := if d.budgetMinK.Some? then d.budgetMinK.value else 40,
      budgetMaxK := if d.budgetMaxK.Some? then d.budgetMaxK.value else 60,
      bhk := Some(if d.bhk.Some? then BhkCode(d.bhk.value) else "2"),
      furnishing := Some(FurnishingCode(if d.furnishing.Some? then d.furnishing.value else S)),
      locality := Some(OrEmpty(d.locality)),
      moveIn := Some(MoveInCode(if d.moveIn.Some? then d.moveIn.value else Immediate)),
      profile := Some(ProfileCode(if d.profile.Some? then d.profile.value else Family)),
      notes := Some(OrEmpty(d.notes)),
      name := OrEmpty(d.name),
      phone := OrEmpty(d.phone),
      honeypot := Some(""))
  }

  /** Step 1 of a freshly loaded form is blocked exactly when a draft budget bound lies outside the schema's range. */
  lemma InitialStepOneOk(d: Draft)
    ensures var v := InitialValues(d);
            FieldsOk(v, STEP1_FIELDS) <==> InBudgetBounds(v.budgetMinK) && InBudgetBounds(v.budgetMaxK)
  {
    var v := InitialValues(d);
    assert FieldOk(v, AreaField) && FieldOk(v, BhkField) && FieldOk(v, FurnishingField);
    if InBudgetBounds(v.budgetMinK) && InBudgetBounds(v.budgetMaxK) {
      forall i | 0 <= i < |STEP1_FIELDS| ensures FieldOk(v, STEP1_FIELDS[i]) {
      }
    } else {
      assert !FieldOk(v, STEP1_FIELDS[1]) || !FieldOk(v, STEP1_FIELDS[2]);
    }
  }

  /** The patch the draft-sync effect writes: every field of the form, the phone as digits. */
  function SyncPatch(v: LeadFormValues): (r: Draft)
    ensures r.phone == Some(OnlyDigits(v.phone)) && r.name == Some(v.name)
    ensures r.budgetMinK == Some(v.budgetMinK) && r.budgetMaxK == Some(v.budgetMaxK)
    ensures r.locality == v.locality && r.notes == v.notes && r.prefillTs.None?
    ensures r.area.Some? <==> v.area.Some? && AreaFromName(v.area.value).Some?
    ensures r.area.Some? ==> AreaName(r.area.value) == v.area.value
  {
    Draft(
      name := Some(v.name),
      phone := Some(OnlyDigits(v.phone)),
      area := if v.area.Some? then AreaFromName(v.area.value) else None,
      budgetMinK := Some(v.budgetMinK),
      budgetMaxK := Some(v.budgetMaxK),
      bhk := if v.bhk.Some? then BhkFromCode(v.bhk.value) else None,
      furnishing := if v.furnishing.Some? then FurnishingFromCode(v.furnishing.value) else None,
      moveIn := if v.moveIn.Some? then MoveInFromCode(v.moveIn.value) else None,
      profile := if v.profile.Some? then ProfileFromCode(v.profile.value) else None,
      locality := v.locality,
      notes := v.notes,
      prefillTs := None)
  }

  /**
   * Loading the form from a draft and syncing straight back leaves every
   * field the draft has as it was, once its phone is already digits.
   */
  lemma SyncRestoresDraft(d: Draft)
    requires d.phone.Some? ==> AllDigits(d.phone.value)
    ensures var r := Merge(d, SyncPatch(InitialValues(d)));
            forall f :: Has(d, f) && f != PrefillTsKey ==> SameAt(r, d, f)
  {
    var v := InitialValues(d);
    var p := SyncPatch(v);
    if d.area.Some? { assert AreaFromName(AreaName(d.area.value)) == d.area; }
    if d.bhk.Some? { assert BhkFromCode(BhkCode(d.bhk.value)) == d.bhk; }
    if d.furnishing.Some? { assert FurnishingFromCode(FurnishingCode(d.furnishing.value)) == d.furnishing; }
    if d.moveIn.Some? { assert MoveInFromCode(MoveInCode(d.moveIn.value)) == d.moveIn; }
    if d.profile.Some? { assert ProfileFromCode(ProfileCode(d.profile.value)) == d.profile; }
  }

  /** `s?.trim() || undefined` */
  function TrimmedOrNone(s: Option<string>): (r: Option<string>)
    ensures r.None? <==> s.None? || Trim(s.value) == ""
    ensures r.Some? ==> r.value == Trim(s.value) && r.value != ""
  {
    if s.Some? && Trim(s.value) != "" then Some(Trim(s.value)) else None
  }

  /** The lead request `onSubmit` sends (time, device, page and variant left out). */
  datatype LeadRequest = LeadRequest(
    name: string,
    phone: string,
    area: string,
    locality: Option<string>,
    budgetRange: string,
    bhk: string,
    furnishing: string,
    moveIn: string,
    profile: string,
    notes: Option<string>,
    source: string,
    honeypot: Option<string>)

  /** The request for values the schema accepted. */
  function RequestOf(v: LeadFormValues): (r: LeadRequest)
    requires Valid(v)
    ensures r.name == Trim(v.name) && r.phone == v.phone && IsTenDigitPhone(r.phone)
    ensures AreaFromName(r.area).Some? && BhkFromCode(r.bhk).Some?
    ensures r.locality == TrimmedOrNone(v.locality) && r.notes == TrimmedOrNone(v.notes)
    ensures r.budgetRange == ToBudgetRange(v.budgetMinK, v.budgetMaxK) && r.source == "Website"
  {
    assert FieldOk(v, AreaField) && FieldOk(v, BhkField) && FieldOk(v, FurnishingField);
    assert FieldOk(v, MoveInField) && FieldOk(v, ProfileField) && FieldOk(v, PhoneField);
    LeadRequest(
      name := Trim(v.name),
      phone := OnlyDigits(v.phone),
      area := v.area.value,
      locality := TrimmedOrNone(v.locality),
      budgetRange := ToBudgetRange(v.budgetMinK, v.budgetMaxK),
      bhk := v.bhk.value,
      furnishing := v.furnishing.value,
      moveIn := v.moveIn.value,
      profile := v.profile.value,
      notes := TrimmedOrNone(v.notes),
      source := "Website",
      honeypot := v.honeypot)
  }

  /** A filled honeypot. */
  predicate HoneypotFilled(v: LeadFormValues) {
    v.honeypot.Some? && Trim(v.honeypot.value) != ""
  }

  /**
   * The schema already demands an empty honeypot, so the honeypot check in
   * `onSubmit` never fires: a bot-filled form stops at validation instead.
   */
  lemma HoneypotCheckUnreachable(v: LeadFormValues)
    requires Valid(v)
    ensures !HoneypotFilled(v)
  {
    assert FieldOk(v, HoneypotField);
  }

  /** `v > maxK ? maxK : v` */
  function SlideMin(v: int, maxK: int): (r: int)
    ensures r <= maxK && (v <= maxK ==> r == v)
  {
    if v > maxK then maxK else v
  }

  /** `v < minK ? minK : v` */
  function SlideMax(v: int, minK: int): (r: int)
    ensures r >= minK && (v >= minK ==> r == v)
  {
    if v < minK then minK else v
  }

  /** The slider's preset windows. */
  const PRESETS: seq<(int, int)> := [(30, 45), (40, 60), (60, 90), (90, 130)]

  /** Every preset is an ordered window within the schema's bounds. */
  lemma PresetsOrdered()
    ensures forall i :: 0 <= i < |PRESETS| ==>
      PRESETS[i].0 < PRESETS[i].1 && InBudgetBounds(PRESETS[i].0) && InBudgetBounds(PRESETS[i].1)
  {
  }

  /** What `submitLead` resolves to. */
  datatype SubmitResult = Accepted(leadId: string) | Rejected(error: string)

  /** The analytics events the form logs. */
  datatype FormEvent = CompletedStep(step: int) | ViewFormStep(step: int) | SubmitSuccess(leadId: string)

  /** `let lastSubmitTs = 0`: one clock reading shared by every mounted form. */
  class Cooldown {
    var lastSubmitTs: int

    constructor ()
      ensures lastSubmitTs == 0
    {
      lastSubmitTs := 0;
    }
  }

  /** A submission at `now` is held back by the cooldown. */
  predicate CoolingDown(lastSubmitTs: int, now: int) {
    now - lastSubmitTs < COOLDOWN_MS
  }

  /** The form's state. */
  class LeadFormState {
    var step: StepNo
    var values: LeadFormValues
    var globalError: Option<string>
    var submitting: bool
    var submitted: bool
    var leadId: Option<string>
    var logged: seq<FormEvent>
    const gate: Cooldown
    const store: DraftStore

    /** Mounting: the default values from the draft, then one run of the locality check. */
    constructor (store: DraftStore, gate: Cooldown)
      ensures this.store == store && this.gate == gate
      ensures step == 1 && !submitting && !submitted && leadId.None? && globalError.None? && logged == []
      ensures values == InitialValues(store.draft).(locality :=
        Some(KeepLocality(OrEmpty(store.draft.locality), GetLocalitiesForArea(FormArea(store.draft)))))
    {
      this.store := store;
      this.gate := gate;
      step := 1;
      var v := InitialValues(store.draft);
      values := v.(locality := Some(KeepLocality(v.locality.value, GetLocalitiesForArea(FormArea(store.draft)))));
      globalError := None;
      submitting := false;
      submitted := false;
      leadId := None;
      logged := [];
    }

    /**
     * `goNext()`: the error is cleared, the step advances when its fields
     * validate (logging the completed step), and the view of the following
     * step is logged either way.
     */
    method GoNext()
      modifies this
      ensures step == NextStep(old(step), values) && values == old(values) && globalError.None?
      ensures logged == old(logged) + (if step != old(step) then [CompletedStep(old(step))] else []) +
        [ViewFormStep(old(step) + 1)]
      ensures submitting == old(submitting) && submitted == old(submitted) && leadId == old(leadId)
    {
      globalError := None;
      var next := NextStep(step, values);
      if next != step {
        logged := logged + [CompletedStep(step)];
      }
      logged := logged + [ViewFormStep(step + 1)];
      step := next;
    }

    /** `goBack()` */
    method GoBack()
      modifies this
      ensures step == PrevStep(old(step)) && globalError.None?
      ensures values == old(values) && logged == old(logged)
      ensures submitting == old(submitting) && submitted == old(submitted) && leadId == old(leadId)
    {
      globalError := None;
      step := PrevStep(step);
    }

    /** Choosing an area; a change of area runs the locality check against the new area's list. */
    method ChangeArea(a: Area)
      modifies this
      ensures old(values).area == Some(AreaName(a)) ==> values == old(values)
      ensures old(values).area != Some(AreaName(a)) ==>
        values == old(values).(area := Some(AreaName(a)),
          locality := Some(KeepLocality(OrEmpty(old(values).locality), GetLocalitiesForArea(a))))
      ensures step == old(step) && logged == old(logged) && globalError == old(globalError)
    {
      if values.area != Some(AreaName(a)) {
        var loc := KeepLocality(OrEmpty(values.locality), GetLocalitiesForArea(a));
        values := values.(area := Some(AreaName(a)), locality := Some(loc));
      }
    }

    /** The typeahead's `onChange`. */
    method SetLocality(v: string)
      modifies this
      ensures values == old(values).(locality := Some(v))
      ensures step == old(step) && logged == old(logged) && globalError == old(globalError)
    {
      values := values.(locality := Some(v));
    }

    /** The minimum slider: it stops at the maximum. */
    method SetMinSlider(v: int)
      modifies this
      ensures values == old(values).(budgetMinK := SlideMin(v, old(values).budgetMaxK))
      ensures values.budgetMinK <= values.budgetMaxK
      ensures step == old(step) && logged == old(logged) && globalError == old(globalError)
    {
      values := values.(budgetMinK := SlideMin(v, values.budgetMaxK));
    }

    /** The maximum slider: it stops at the minimum. */
    method SetMaxSlider(v: int)
      modifies this
      ensures values == old(values).(budgetMaxK := SlideMax(v, old(values).budgetMinK))
      ensures values.budgetMinK <= values.budgetMaxK
      ensures step == old(step) && logged == old(logged) && globalError == old(globalError)
    {
      values := values.(budgetMaxK := SlideMax(v, values.budgetMinK));
    }

    /** A preset button: both bounds at once, an ordered window within the schema's range. */
    method ApplyPreset(i: nat)
      requires i < |PRESETS|
      modifies this
      ensures values == old(values).(budgetMinK := PRESETS[i].0, budgetMaxK := PRESETS[i].1)
      ensures values.budgetMinK < values.budgetMaxK
      ensures InBudgetBounds(values.budgetMinK) && InBudgetBounds(values.budgetMaxK)
      ensures step == old(step) && logged == old(logged) && globalError == old(globalError)
    {
      PresetsOrdered();
      values := values.(budgetMinK := PRESETS[i].0, budgetMaxK := PRESETS[i].1);
    }

    /** The draft-sync effect. */
    method SyncDraft()
      modifies store
      ensures store.draft == Merge(old(store.draft), SyncPatch(values))
    {
      store.SetDraft(SyncPatch(values));
    }

    /**
     * `handleSubmit(onSubmit)` at the clock reading `now`. Values the schema
     * rejects stop before `onSubmit`. Within the cooldown the wait is reported;
     * otherwise the cooldown restarts at `now`, the form is marked submitting
     * and the request is returned for sending.
     */
    method Submit(now: int) returns (req: Option<LeadRequest>)
      modifies this, gate
      ensures !Valid(old(values)) ==>
        req.None? && globalError == old(globalError) && gate.lastSubmitTs == old(gate.lastSubmitTs) &&
        submitting == old(submitting)
      ensures Valid(old(values)) && CoolingDown(old(gate.lastSubmitTs), now) ==>
        req.None? && globalError == Some(WaitMessage(WaitSeconds(now - old(gate.lastSubmitTs)))) &&
        gate.lastSubmitTs == old(gate.lastSubmitTs) && submitting == old(submitting)
      ensures Valid(old(values)) && !CoolingDown(old(gate.lastSubmitTs), now) ==>
        req == Some(RequestOf(old(values))) && globalError.None? && gate.lastSubmitTs == now && submitting
      ensures values == old(values) && step == old(step) && logged == old(logged)
      ensures submitted == old(submitted) && leadId == old(leadId)
    {
      if !Valid(values) {
        return None;
      }
      globalError := None;
      if CoolingDown(gate.lastSubmitTs, now) {
        globalError := Some(WaitMessage(WaitSeconds(now - gate.lastSubmitTs)));
        return None;
      }
      HoneypotCheckUnreachable(values);
      submitting := true;
      gate.lastSubmitTs := now;
      req := Some(RequestOf(values));
    }

    /** The request's outcome; `finally` clears the submitting flag either way. */
    method Complete(result: SubmitResult)
      modifies this
      ensures !submitting
      ensures result.Accepted? ==>
        leadId == Some(result.leadId) && submitted && logged == old(logged) + [SubmitSuccess(result.leadId)] &&
        globalError == old(globalError)
      ensures result.Rejected? ==>
        globalError == Some(result.error) && leadId == old(leadId) && submitted == old(submitted) &&
        logged == old(logged)
      ensures values == old(values) && step == old(step)
    {
      submitting := false;
      match result
      case Accepted(id) =>
        leadId := Some(id);
        submitted := true;
        logged := logged + [SubmitSuccess(id)];
      case Rejected(e) =>
        globalError := Some(e);
    }
  }

  /** A second submission less than a minute after an accepted one is held back, for any earlier clock reading. */
  lemma CooldownBlocksWithinAMinute(accepted: int, now: int)
    requires accepted <= now < accepted + COOLDOWN_MS
    ensures CoolingDown(accepted, now)
    ensures 1 <= WaitSeconds(now - accepted) <= 60
  {
  }
}
