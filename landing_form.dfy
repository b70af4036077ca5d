/**
 * `src/components/LeadForm.tsx`: the landing page's three-step lead form,
 * kept in plain component state. Step 1 needs a name and a ten-digit phone;
 * the sliders stay within 20-150 thousand and cannot cross; submitting needs
 * an API address and no step errors, and the reply is read leniently.
 */
module LandingForm {
  import opened Wrappers
  import opened Strings
  import opened Utils
  import opened LeadDraft
  import opened Schema
  import opened Localities
  import StepForm

  const SLIDER_LO := 20
  const SLIDER_HI := 150
  const PHONE_ERROR := "Phone must be exactly 10 digits"
  const NAME_ERROR := "Name is required"
  const AREA_ERROR := "Area is required"
  const MISSING_API_URL := "Missing API URL. Set VITE_LEAD_API_URL in .env and restart the dev server."
  const FIX_FIELDS := "Please fix the highlighted fields before submitting."
  const NETWORK_ERROR := "Network error. Please try again."
  const CREATED := "Created"

  /** `clamp(n, min, max)` = `Math.max(min, Math.min(max, n))` */
  function Clamp(n: int, lo: int, hi: int): (r: int)
    ensures lo <= hi ==> lo <= r <= hi
    ensures lo <= n <= hi ==> r == n
    ensures lo <= hi && n < lo ==> r == lo
    ensures lo <= hi && n > hi ==> r == hi
  {
    var m := if hi <= n then hi else n;
    if lo >= m then lo else m
  }

  /** `validatePhone(phone)`: an error exactly when the digits are not ten. */
  function ValidatePhone(phone: string): (r: Option<string>)
    ensures r.Some? <==> |OnlyDigits(phone)| != 10
    ensures r.Some? ==> r.value == PHONE_ERROR
  {
    if |OnlyDigits(phone)| != 10 then Some(PHONE_ERROR) else None
  }

  /** The phone the form reports to the page: its digits when there are ten, otherwise empty. */
  function ReportedPhone(phone: string): (r: string)
    ensures r == "" || |r| == 10
    ensures |OnlyDigits(phone)| == 10 <==> r != ""
    ensures r != "" ==> r == OnlyDigits(phone) && AllDigits(r)
  {
    var p := OnlyDigits(phone);
    if |p| == 10 then p else ""
  }

  /** A key of the error records `stepErrors` and `step2Errors` build. */
  datatype FieldError = NameRequired | PhoneInvalid | AreaRequired | BhkRequired | MoveInRequired | ProfileRequired | FurnishingRequired

  /** The text each key carries. */
  function Message(e: FieldError): string {
    match e
    case NameRequired => NAME_ERROR
    case PhoneInvalid => PHONE_ERROR
    case AreaRequired => AREA_ERROR
    case BhkRequired => "BHK is required"
    case MoveInRequired => "Move-in is required"
    case ProfileRequired => "Profile is required"
    case FurnishingRequired => "Furnishing is required"
  }

  /** An error record's keys in insertion order. */
  type Errors = seq<FieldError>

  /** The step-1 record from its three tests, keys in insertion order. */
  function Step1Record(nameBlank: bool, phoneBad: bool, areaEmpty: bool): (r: Errors)
    ensures NameRequired in r <==> nameBlank
    ensures PhoneInvalid in r <==> phoneBad
    ensures AreaRequired in r <==> areaEmpty
    ensures r == [] <==> !nameBlank && !phoneBad && !areaEmpty
  {
    (if nameBlank then [NameRequired] else []) +
    (if phoneBad then [PhoneInvalid] else []) +
    (if areaEmpty then [AreaRequired] else [])
  }

  /** `stepErrors`: a blank name, a bad phone, an empty area literal. */
  function StepErrors(name: string, phone: string, area: Area): (r: Errors)
    ensures r == [] <==> Trim(name) != "" && |OnlyDigits(phone)| == 10
    ensures NameRequired in r <==> Trim(name) == ""
    ensures PhoneInvalid in r <==> |OnlyDigits(phone)| != 10
    ensures AreaRequired !in r
  {
    var nameBlank := Trim(name) == "";
    var phoneBad := ValidatePhone(phone).Some?;
    var areaEmpty := AreaName(area) == "";
    assert !areaEmpty by { assert |AreaName(area)| > 0; }
    Step1Record(nameBlank, phoneBad, areaEmpty)
  }

  /**
   * `step2Errors`: each choice whose code is empty. The choices are always
   * one of their options and no option's code is empty, so the list is
   * always empty and step 2 never blocks.
   */
  function Step2Errors(bhk: Bhk, moveIn: MoveIn, profile: Profile, furnishing: Furnishing): (r: Errors)
    ensures r == []
  {
    var e1: Errors := if BhkCode(bhk) == "" then [BhkRequired] else [];
    var e2: Errors := if MoveInCode(moveIn) == "" then [MoveInRequired] else [];
    var e3: Errors := if ProfileCode(profile) == "" then [ProfileRequired] else [];
    var e4: Errors := if FurnishingCode(furnishing) == "" then [FurnishingRequired] else [];
    assert BhkCode(bhk) != "" && MoveInCode(moveIn) != "" && ProfileCode(profile) != "" && FurnishingCode(furnishing) != "";
    e1 + e2 + e3 + e4
  }

  /** The landing form's preset windows. */
  const LANDING_PRESETS: seq<(int, int)> := [(30, 45), (40, 60), (60, 90), (90, 120)]

  /** Every preset is an ordered window inside the slider's range. */
  lemma LandingPresetsInRange()
    ensures forall i :: 0 <= i < |LANDING_PRESETS| ==>
      SLIDER_LO <= LANDING_PRESETS[i].0 < LANDING_PRESETS[i].1 <= SLIDER_HI
  {
  }

  /** The minimum slider: clamped to the slider's range, then stopped at the maximum. */
  function MinSlide(v: int, maxK: int): (r: int)
    ensures r <= maxK
    ensures SLIDER_LO <= maxK ==> SLIDER_LO <= r <= SLIDER_HI
  {
    StepForm.SlideMin(Clamp(v, SLIDER_LO, SLIDER_HI), maxK)
  }

  /** The maximum slider: clamped to the slider's range, then stopped at the minimum. */
  function MaxSlide(v: int, minK: int): (r: int)
    ensures r >= minK
    ensures minK <= SLIDER_HI ==> SLIDER_LO <= r <= SLIDER_HI
  {
    StepForm.SlideMax(Clamp(v, SLIDER_LO, SLIDER_HI), minK)
  }

  /** The form's inputs, one per `useState` of the component. */
  datatype Fields = Fields(
    name: string,
    phone: string,
    area: Area,
    locality: string,
    budgetMinK: int,
    budgetMaxK: int,
    bhk: Bhk,
    furnishing: Furnishing,
    moveIn: MoveIn,
    profile: Profile,
    notes: string)

  /**
   * The inputs on mounting: each from the draft or its default (bhk "1" in
   * this form), then one run of the locality check against the area's list.
   */
  function InitialFields(d: Draft): (r: Fields)
    ensures r.area == StepForm.FormArea(d) && r.locality == StepForm.KeepLocality(StepForm.OrEmpty(d.locality), GetLocalitiesForArea(r.area))
    ensures d.name.Some? ==> r.name == d.name.value
    ensures d.phone.Some? ==> r.phone == d.phone.value
    ensures d.budgetMinK.Some? ==> r.budgetMinK == d.budgetMinK.value
    ensures d.budgetMaxK.Some? ==> r.budgetMaxK == d.budgetMaxK.value
    ensures d.bhk.Some? ==> r.bhk == d.bhk.value
    ensures d.notes.Some? ==> r.notes == d.notes.value
    ensures d == DefaultDraft ==>
      r == Fields("", "", Area(Malad, West), "", 40, 60, One, S, Immediate, Family, "")
  {
    var area := StepForm.FormArea(d);
    Fields(
      name := StepForm.OrEmpty(d.name),
      phone := StepForm.OrEmpty(d.phone),
      area := area,
      locality := StepForm.KeepLocality(StepForm.OrEmpty(d.locality), GetLocalitiesForArea(area)),
      budgetMinK := if d.budgetMinK.Some? then d.budgetMinK.value else 40,
      budgetMaxK := if d.budgetMaxK.Some? then d.budgetMaxK.value else 60,
      bhk := if d.bhk.Some? then d.bhk.value else One,
      furnishing := if d.furnishing.Some? then d.furnishing.value else S,
      moveIn := if d.moveIn.Some? then d.moveIn.value else Immediate,
      profile := if d.profile.Some? then d.profile.value else Family,
      notes := StepForm.OrEmpty(d.notes))
  }

  /** The step-1 error record of the inputs. */
  function FieldsStepErrors(f: Fields): Errors {
    StepErrors(f.name, f.phone, f.area)
  }

  /** The step-2 error record of the inputs. */
  function FieldsStep2Errors(f: Fields): Errors {
    Step2Errors(f.bhk, f.moveIn, f.profile, f.furnishing)
  }

  /** Neither step has an error: what `submit` demands before it sends. */
  predicate Clean(f: Fields) {
    FieldsStepErrors(f) == [] && FieldsStep2Errors(f) == []
  }

  /** Only a name and a ten-digit phone can hold a submission back. */
  lemma CleanIffNameAndPhone(f: Fields)
    ensures Clean(f) <==> Trim(f.name) != "" && |OnlyDigits(f.phone)| == 10
  {
  }

  /** The request body `submit` posts (time, device, page, variant and campaign tags left out). */
  datatype Payload = Payload(
    name: string,
    phone: string,
    area: Area,
    locality: Option<string>,
    budgetRange: string,
    bhk: Bhk,
    furnishing: Furnishing,
    moveIn: MoveIn,
    profile: Profile,
    notes: Option<string>,
    source: string)

  /** The body `submit` builds; the form's own `toBudgetRange` is the same rounding as the schema's. */
  function PayloadOf(f: Fields): Payload {
    Payload(Trim(f.name), OnlyDigits(f.phone), f.area, StepForm.TrimmedOrNone(Some(f.locality)),
      ToBudgetRange(f.budgetMinK, f.budgetMaxK), f.bhk, f.furnishing, f.moveIn, f.profile,
      StepForm.TrimmedOrNone(Some(f.notes)), "landing")
  }

  /**
   * A body built from inputs `submit` accepts carries a name, a ten-digit
   * phone, the area, and a locality and notes only when they are not blank.
   */
  lemma PayloadOfCleanFields(f: Fields)
    requires Clean(f)
    ensures var p := PayloadOf(f);
            p.name != "" && |p.phone| == 10 && AllDigits(p.phone) && p.area == f.area && p.source == "landing"
    ensures var p := PayloadOf(f);
            (p.locality.Some? <==> Trim(f.locality) != "") && (p.locality.Some? ==> p.locality.value == Trim(f.locality)) &&
            (p.notes.Some? <==> Trim(f.notes) != "") && (p.notes.Some? ==> p.notes.value == Trim(f.notes))
  {
  }

  /** The patch the draft-sync effect writes: every input, the phone as digits. */
  function SyncPatch(f: Fields): (r: Draft)
    ensures r.phone == Some(OnlyDigits(f.phone)) && r.name == Some(f.name) && r.area == Some(f.area)
    ensures r.budgetMinK == Some(f.budgetMinK) && r.budgetMaxK == Some(f.budgetMaxK)
    ensures r.locality == Some(f.locality) && r.notes == Some(f.notes) && r.prefillTs.None?
    ensures forall k :: k != PrefillTsKey ==> Has(r, k)
  {
    Draft(Some(f.name), Some(OnlyDigits(f.phone)), Some(f.area), Some(f.budgetMinK), Some(f.budgetMaxK),
      Some(f.bhk), Some(f.furnishing), Some(f.moveIn), Some(f.profile), Some(f.locality), Some(f.notes), None)
  }

  /**
   * Mounting on a draft and syncing straight back leaves every field the draft
   * has as it was, once its phone is digits and its locality fits its area.
   */
  lemma SyncRestoresDraft(d: Draft)
    requires d.phone.Some? ==> AllDigits(d.phone.value)
    requires d.locality.Some? ==> StepForm.KeepLocality(d.locality.value, GetLocalitiesForArea(StepForm.FormArea(d))) == d.locality.value
    ensures var r := Merge(d, SyncPatch(InitialFields(d)));
            forall k :: Has(d, k) && k != PrefillTsKey ==> SameAt(r, d, k)
  {
    if d.area.Some? { assert StepForm.FormArea(d) == d.area.value; }
  }

  /** The reply body: nothing (empty or not JSON), or the JSON object's four optional strings. */
  datatype Body = NoBody | Json(message: Option<string>, error: Option<string>, leadId: Option<string>, id: Option<string>)

  /** What the `fetch` comes back with. */
  datatype Response = Http(ok: bool, status: int, body: Body) | NetworkFailure(message: Option<string>)

  /** The first of the options that holds a non-empty string. */
  function FirstTruthy(a: Option<string>, b: Option<string>, fallback: string): (r: string)
    ensures a.Some? && a.value != "" ==> r == a.value
    ensures !(a.Some? && a.value != "") && b.Some? && b.value != "" ==> r == b.value
    ensures !(a.Some? && a.value != "") && !(b.Some? && b.value != "") ==> r == fallback
  {
    if a.Some? && a.value != "" then a.value
    else if b.Some? && b.value != "" then b.value
    else fallback
  }

  /** A failed reply's message: the body's `message`, else its `error`, else the status. */
  function FailureMessage(body: Body, status: int): (r: string)
    ensures r != ""
    ensures body.NoBody? ==> r == "Request failed (" + IntToString(status) + ")"
  {
    var fallback := "Request failed (" + IntToString(status) + ")";
    if body.Json? then FirstTruthy(body.message, body.error, fallback) else fallback
  }

  /** An accepted reply's id: the body's `leadId`, else its `id`, else "Created". */
  function SuccessId(body: Body): (r: string)
    ensures r != ""
    ensures body.NoBody? ==> r == CREATED
  {
    if body.Json? then FirstTruthy(body.leadId, body.id, CREATED) else CREATED
  }

  /** A thrown error's message, else the fixed network text. */
  function NetworkMessage(message: Option<string>): (r: string)
    ensures r != ""
    ensures message.Some? && message.value != "" ==> r == message.value
  {
    if message.Some? && message.value != "" then message.value else NETWORK_ERROR
  }

  /** The form's state. */
  class LandingFormState {
    var step: StepForm.StepNo
    var fields: Fields
    var submitting: bool
    var successLeadId: Option<string>
    var errorMsg: Option<string>
    /** `envApiUrl()`: the configured address, trimmed. */
    const apiUrl: string
    const store: DraftStore

    /** Mounting on the store's draft with the configured address `env`. */
    constructor (store: DraftStore, env: string)
      ensures this.store == store && apiUrl == Trim(env)
      ensures step == 1 && fields == InitialFields(store.draft)
      ensures !submitting && successLeadId.None? && errorMsg.None?
    {
      this.store := store;
      apiUrl := Trim(env);
      step := 1;
      fields := InitialFields(store.draft);
      submitting := false;
      successLeadId := None;
      errorMsg := None;
    }

    /** `nextStep()`: 1 to 2 without step-1 errors, 2 to 3 without step-2 errors, 3 stays. */
    method NextStep()
      modifies this
      ensures errorMsg.None? && fields == old(fields)
      ensures old(step) == 1 ==> (step == 2 <==> FieldsStepErrors(fields) == []) && (step == 1 || step == 2)
      ensures old(step) == 2 ==> step == 3
      ensures old(step) == 3 ==> step == 3
      ensures submitting == old(submitting) && successLeadId == old(successLeadId)
    {
      errorMsg := None;
      if step == 1 {
        if FieldsStepErrors(fields) != [] {
          return;
        }
        step := 2;
        return;
      }
      if step == 2 {
        if FieldsStep2Errors(fields) != [] {
          return;
        }
        step := 3;
      }
    }

    /** `prevStep()`: the same rule as the step form's `goBack`. */
    method PrevStep()
      modifies this
      ensures step == StepForm.PrevStep(old(step)) && errorMsg.None? && fields == old(fields)
      ensures submitting == old(submitting) && successLeadId == old(successLeadId)
    {
      errorMsg := None;
      step := StepForm.PrevStep(step);
    }

    /** The name input. */
    method TypeName(v: string)
      modifies this
      ensures fields == old(fields).(name := v)
      ensures step == old(step) && errorMsg == old(errorMsg) && submitting == old(submitting)
    {
      fields := fields.(name := v);
    }

    /** The phone input keeps only the digits typed. */
    method TypePhone(v: string)
      modifies this
      ensures fields == old(fields).(phone := OnlyDigits(v)) && AllDigits(fields.phone)
      ensures step == old(step) && errorMsg == old(errorMsg) && submitting == old(submitting)
    {
      fields := fields.(phone := OnlyDigits(v));
    }

    /** The area select; a change of area runs the locality check against the new area's list. */
    method SetArea(a: Area)
      modifies this
      ensures old(fields).area == a ==> fields == old(fields)
      ensures old(fields).area != a ==>
        fields == old(fields).(area := a, locality := StepForm.KeepLocality(old(fields).locality, GetLocalitiesForArea(a)))
      ensures fields.locality == "" || fields.locality == old(fields).locality
      ensures step == old(step) && errorMsg == old(errorMsg) && submitting == old(submitting)
    {
      if fields.area != a {
        fields := fields.(area := a, locality := StepForm.KeepLocality(fields.locality, GetLocalitiesForArea(a)));
      }
    }

    /** The typeahead's `onChange`. */
    method SetLocality(v: string)
      modifies this
      ensures fields == old(fields).(locality := v)
      ensures step == old(step) && errorMsg == old(errorMsg) && submitting == old(submitting)
    {
      fields := fields.(locality := v);
    }

    /** The slider window is ordered and inside the slider's range. */
    predicate BudgetInBand()
      reads this
    {
      SLIDER_LO <= fields.budgetMinK <= fields.budgetMaxK <= SLIDER_HI
    }

    /** The minimum slider. */
    method SetMinSlider(v: int)
      modifies this
      ensures fields == old(fields).(budgetMinK := MinSlide(v, old(fields).budgetMaxK))
      ensures fields.budgetMinK <= fields.budgetMaxK
      ensures old(BudgetInBand()) ==> BudgetInBand()
      ensures step == old(step) && errorMsg == old(errorMsg) && submitting == old(submitting)
    {
      fields := fields.(budgetMinK := MinSlide(v, fields.budgetMaxK));
    }

    /** The maximum slider. */
    method SetMaxSlider(v: int)
      modifies this
      ensures fields == old(fields).(budgetMaxK := MaxSlide(v, old(fields).budgetMinK))
      ensures fields.budgetMinK <= fields.budgetMaxK
      ensures old(BudgetInBand()) ==> BudgetInBand()
      ensures step == old(step) && errorMsg == old(errorMsg) && submitting == old(submitting)
    {
      fields := fields.(budgetMaxK := MaxSlide(v, fields.budgetMinK));
    }

    /** A preset button: it sets both bounds, always inside the band. */
    method ApplyPreset(i: nat)
      requires i < |LANDING_PRESETS|
      modifies this
      ensures fields == old(fields).(budgetMinK := LANDING_PRESETS[i].0, budgetMaxK := LANDING_PRESETS[i].1)
      ensures BudgetInBand() && fields.budgetMinK < fields.budgetMaxK
      ensures step == old(step) && errorMsg == old(errorMsg) && submitting == old(submitting)
    {
      LandingPresetsInRange();
      fields := fields.(budgetMinK := LANDING_PRESETS[i].0, budgetMaxK := LANDING_PRESETS[i].1);
    }

    /** The draft-sync effect: every input lands in the draft. */
    method SyncDraft()
      modifies store
      ensures store.draft == Merge(old(store.draft), SyncPatch(fields))
    {
      store.SetDraft(SyncPatch(fields));
    }

    /** The phone-sync effect: what the page is told the phone is. */
    function PhoneForPage(): (r: string)
      reads this
      ensures r == "" || (|r| == 10 && AllDigits(r))
    {
      ReportedPhone(fields.phone)
    }

    /**
     * `submit()` up to the request: no address or any step error stops it
     * with a message; otherwise it is marked submitting and the body returned.
     */
    method Submit() returns (payload: Option<Payload>)
      modifies this`errorMsg, this`successLeadId, this`submitting
      ensures fields == old(fields) && step == old(step) && successLeadId.None?
      ensures apiUrl == "" ==> payload.None? && errorMsg == Some(MISSING_API_URL) && submitting == old(submitting)
      ensures apiUrl != "" && !Clean(fields) ==>
        payload.None? && errorMsg == Some(FIX_FIELDS) && submitting == old(submitting)
      ensures apiUrl != "" && Clean(fields) ==> payload == Some(PayloadOf(fields)) && errorMsg.None? && submitting
    {
      errorMsg := None;
      successLeadId := None;
      if apiUrl == "" {
        errorMsg := Some(MISSING_API_URL);
        return None;
      }
      payload := SendIfClean();
    }

    /** The final validation of `submit()` and the sending state it enters. */
    method SendIfClean() returns (payload: Option<Payload>)
      modifies this`submitting, this`errorMsg
      ensures !Clean(fields) ==> payload.None? && errorMsg == Some(FIX_FIELDS) && submitting == old(submitting)
      ensures Clean(fields) ==> payload == Some(PayloadOf(fields)) && errorMsg == old(errorMsg) && submitting
    {
      var clean := Clean(fields);
      if clean {
        submitting := true;
        payload := Some(PayloadOf(fields));
      } else {
        errorMsg := Some(FIX_FIELDS);
        payload := None;
      }
    }

    /** The reply to the request; `finally` clears the submitting flag. */
    method Complete(res: Response)
      modifies this
      ensures !submitting && fields == old(fields) && step == old(step)
      ensures res.NetworkFailure? ==> errorMsg == Some(NetworkMessage(res.message)) && successLeadId == old(successLeadId)
      ensures res.Http? && !res.ok ==> errorMsg == Some(FailureMessage(res.body, res.status)) && successLeadId == old(successLeadId)
      ensures res.Http? && res.ok ==> successLeadId == Some(SuccessId(res.body)) && errorMsg == old(errorMsg)
    {
      submitting := false;
      match res
      case NetworkFailure(m) =>
        errorMsg := Some(NetworkMessage(m));
      case Http(ok, status, body) =>
        if !ok {
          errorMsg := Some(FailureMessage(body, status));
        } else {
          successLeadId := Some(SuccessId(body));
        }
    }
  }
}
