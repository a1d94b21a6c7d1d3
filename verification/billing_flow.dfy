/**
 * The three-tab billing wizard (frontend/components/dashboard/billing-flow.tsx):
 * state `(activeTab, brandData, creatorData)`, moved forward by the two form
 * submits and backward by the summary's Edit buttons and the creator form's
 * Back button, with the tab triggers gated on the stored records.
 *
 * Only what the screen offers can happen: a form can be submitted only while
 * its tab is shown, Back exists only on the creator tab, the Edit buttons
 * exist only while the summary is rendered, and a disabled tab trigger does
 * nothing. `Step` treats an event the screen does not offer as a no-op, and a
 * submit whose values fail the form's schema also leaves the state as it is.
 */
module BillingFlow {
  import opened Wrappers
  import opened Records
  import BrandBillingForm
  import CreatorPayoutForm
  import BillingSummary

  datatype Tab = BrandTab | CreatorTab | SummaryTab

  datatype State = State(activeTab: Tab, brandData: Option<BrandBilling>, creatorData: Option<CreatorPayout>)

  datatype Event =
    | SubmitBrand(brandValues: BrandBilling)
    | SubmitCreator(creatorValues: CreatorPayout)
    | Edit(step: BillingSummary.EditStep)
    | Back
    | SelectTab(tab: Tab)

  /** `useState("brand")` and two `useState(null)`. */
  const Init: State := State(BrandTab, None, None)

  /** The Edit callback's argument names the tab to show. */
  function EditTab(step: BillingSummary.EditStep): (t: Tab)
    ensures t != SummaryTab
  {
    match step
    case BrandStep => BrandTab
    case CreatorStep => CreatorTab
  }

  /** A tab trigger can be clicked: brand always, creator once a brand record is stored, summary once a creator record is. */
  predicate TabEnabled(s: State, t: Tab) {
    match t
    case BrandTab => true
    case CreatorTab => s.brandData.Some?
    case SummaryTab => s.creatorData.Some?
  }

  /** The summary card renders `BillingSummary` only when both records are stored. */
  function SummaryContent(s: State): (r: Option<BillingSummary.View>)
    ensures r.Some? <==> s.brandData.Some? && s.creatorData.Some?
    ensures r.Some? ==> r.value.brandCard.editTarget == BillingSummary.BrandStep
    ensures r.Some? ==> r.value.creatorCard.editTarget == BillingSummary.CreatorStep
  {
    if s.brandData.Some? && s.creatorData.Some? then
      Some(BillingSummary.Render(s.brandData.value, s.creatorData.value))
    else None
  }

  /** Whether the screen in state `s` offers the event at all. */
  predicate Offered(s: State, e: Event) {
    match e
    case SubmitBrand(_) => s.activeTab == BrandTab
    case SubmitCreator(_) => s.activeTab == CreatorTab
    case Edit(_) => s.activeTab == SummaryTab && SummaryContent(s).Some?
    case Back => s.activeTab == CreatorTab
    case SelectTab(t) => TabEnabled(s, t)
  }

  /**
   * What every reachable state satisfies: a creator record only after a brand
   * record, the creator tab only with a brand record, the summary tab only with
   * a creator record, and every stored record valid under its form's schema.
   */
  predicate Inv(s: State, isEmail: string -> bool) {
    && (s.creatorData.Some? ==> s.brandData.Some?)
    && (s.activeTab == CreatorTab ==> s.brandData.Some?)
    && (s.activeTab == SummaryTab ==> s.creatorData.Some?)
    && (s.brandData.Some? ==> BrandBillingForm.Valid(s.brandData.value, isEmail))
    && (s.creatorData.Some? ==> CreatorPayoutForm.Valid(s.creatorData.value))
  }

  /**
   * One user action. A valid brand submit stores the record and opens the
   * creator tab (`handleBrandFormSubmit`); a valid creator submit stores it and
   * opens the summary (`handleCreatorFormSubmit`); Edit, Back and the tab
   * triggers change only the tab.
   */
  function Step(s: State, e: Event, isEmail: string -> bool): (r: State)
    ensures Inv(s, isEmail) ==> Inv(r, isEmail)
    ensures !Offered(s, e) ==> r == s
    ensures s.brandData.Some? ==> r.brandData.Some?
    ensures s.creatorData.Some? ==> r.creatorData.Some?
    ensures !e.SubmitBrand? ==> r.brandData == s.brandData
    ensures !e.SubmitCreator? ==> r.creatorData == s.creatorData
    ensures e.SubmitBrand? && Offered(s, e) ==>
      (BrandBillingForm.Valid(e.brandValues, isEmail) <==> r == State(CreatorTab, Some(e.brandValues), s.creatorData))
    ensures e.SubmitCreator? && Offered(s, e) ==>
      (CreatorPayoutForm.Valid(e.creatorValues) <==> r == State(SummaryTab, s.brandData, Some(e.creatorValues)))
    ensures e.SubmitBrand? && !BrandBillingForm.Valid(e.brandValues, isEmail) ==> r == s
    ensures e.SubmitCreator? && !CreatorPayoutForm.Valid(e.creatorValues) ==> r == s
    ensures e.Edit? && Offered(s, e) ==> r.activeTab == EditTab(e.step)
    ensures e.Back? && Offered(s, e) ==> r.activeTab == BrandTab
    ensures e.SelectTab? && Offered(s, e) ==> r.activeTab == e.tab
  {
    if !Offered(s, e) then s
    else
      match e
      case SubmitBrand(v) =>
        (match BrandBillingForm.Validate(v, isEmail)
         case Ok(data) => s.(activeTab := CreatorTab, brandData := Some(data))
         case Err(_) => s)
      case SubmitCreator(v) =>
        (match CreatorPayoutForm.Validate(v)
         case Ok(data) => s.(activeTab := SummaryTab, creatorData := Some(data))
         case Err(_) => s)
      case Edit(step) => s.(activeTab := EditTab(step))
      case Back => s.(activeTab := BrandTab)
      case SelectTab(t) => s.(activeTab := t)
  }

  /**
   * The creator form's callbacks as the wizard wires them: `onCreatorSubmit`
   * is `handleCreatorFormSubmit` and `onBack` shows the brand tab.
   */
  function CreatorFormCallback(s: State, req: CreatorPayoutForm.Request, isEmail: string -> bool): State {
    if req.SubmitCreator? then Step(s, SubmitCreator(req.data), isEmail)
    else if req.GoBack? then Step(s, Back, isEmail)
    else s
  }

  /**
   * On the creator tab, the Back button leads to the brand tab whatever the
   * fields hold, and the submit button stores the values and opens the summary
   * exactly when they pass the schema, leaving the state alone otherwise.
   */
  lemma CreatorFormWiring(s: State, v: CreatorPayout, isEmail: string -> bool)
    requires s.activeTab == CreatorTab
    ensures CreatorFormCallback(s, CreatorPayoutForm.OnBackClick(v), isEmail) == Step(s, Back, isEmail)
    ensures CreatorFormCallback(s, CreatorPayoutForm.OnBackClick(v), isEmail) == s.(activeTab := BrandTab)
    ensures CreatorFormCallback(s, CreatorPayoutForm.OnSubmitClick(v), isEmail) == Step(s, SubmitCreator(v), isEmail)
    ensures CreatorPayoutForm.Valid(v) ==>
      CreatorFormCallback(s, CreatorPayoutForm.OnSubmitClick(v), isEmail) == State(SummaryTab, s.brandData, Some(v))
    ensures !CreatorPayoutForm.Valid(v) ==> CreatorFormCallback(s, CreatorPayoutForm.OnSubmitClick(v), isEmail) == s
  {
  }

  /** A sequence of user actions, applied in order. */
  function Run(s: State, es: seq<Event>, isEmail: string -> bool): State
    decreases |es|
  {
    if es == [] then s else Run(Step(s, es[0], isEmail), es[1..], isEmail)
  }

  lemma InitInv(isEmail: string -> bool)
    ensures Inv(Init, isEmail)
    ensures SummaryContent(Init).None?
  {
  }

  /** Every state the wizard can reach from any state satisfying the invariant satisfies it too. */
  lemma {:induction false} RunPreservesInv(s: State, es: seq<Event>, isEmail: string -> bool)
    requires Inv(s, isEmail)
    ensures Inv(Run(s, es, isEmail), isEmail)
    decreases |es|
  {
    if es != [] {
      RunPreservesInv(Step(s, es[0], isEmail), es[1..], isEmail);
    }
  }

  /** Records are never reset to null: once stored, a record stays stored through any actions. */
  lemma {:induction false} RecordsNeverReset(s: State, es: seq<Event>, isEmail: string -> bool)
    ensures s.brandData.Some? ==> Run(s, es, isEmail).brandData.Some?
    ensures s.creatorData.Some? ==> Run(s, es, isEmail).creatorData.Some?
    decreases |es|
  {
    if es != [] {
      RecordsNeverReset(Step(s, es[0], isEmail), es[1..], isEmail);
    }
  }

  /**
   * From the initial state, whatever the user does, a creator record is only
   * ever stored together with a brand record, and whenever the summary tab is
   * shown the summary itself is rendered.
   */
  lemma Reachable(es: seq<Event>, isEmail: string -> bool)
    ensures var s := Run(Init, es, isEmail);
      && (s.creatorData.Some? ==> s.brandData.Some?)
      && (s.activeTab == SummaryTab ==> SummaryContent(s).Some?)
      && (s.activeTab == CreatorTab ==> s.brandData.Some?)
  {
    InitInv(isEmail);
    RunPreservesInv(Init, es, isEmail);
  }

  /**
   * Going back from the summary to edit the brand and submitting it again
   * opens the creator tab, not the summary, and keeps the creator record.
   */
  lemma EditBrandThenResubmit(s: State, v: BrandBilling, isEmail: string -> bool)
    requires Inv(s, isEmail) && s.activeTab == SummaryTab
    requires BrandBillingForm.Valid(v, isEmail)
    ensures Run(s, [Edit(BillingSummary.BrandStep), SubmitBrand(v)], isEmail) == State(CreatorTab, Some(v), s.creatorData)
  {
    var es := [Edit(BillingSummary.BrandStep), SubmitBrand(v)];
    var s1 := Step(s, es[0], isEmail);
    assert s1 == s.(activeTab := BrandTab);
    assert es[1..] == [SubmitBrand(v)] && es[1..][1..] == [];
    var s2 := Step(s1, SubmitBrand(v), isEmail);
    assert Run(s, es, isEmail) == Run(s1, es[1..], isEmail) == Run(s2, [], isEmail) == s2;
  }

  /** The happy path: a valid brand and a valid creator submitted in turn lead to the rendered summary. */
  lemma HappyPath(b: BrandBilling, c: CreatorPayout, isEmail: string -> bool)
    requires BrandBillingForm.Valid(b, isEmail) && CreatorPayoutForm.Valid(c)
    ensures Run(Init, [SubmitBrand(b), SubmitCreator(c)], isEmail) == State(SummaryTab, Some(b), Some(c))
    ensures SummaryContent(State(SummaryTab, Some(b), Some(c))) == Some(BillingSummary.Render(b, c))
  {
    var es := [SubmitBrand(b), SubmitCreator(c)];
    var s1 := Step(Init, es[0], isEmail);
    assert s1 == State(CreatorTab, Some(b), None);
    assert es[1..] == [SubmitCreator(c)] && es[1..][1..] == [];
    var s2 := Step(s1, SubmitCreator(c), isEmail);
    assert Run(Init, es, isEmail) == Run(s1, es[1..], isEmail) == Run(s2, [], isEmail) == s2;
  }

  /** Before a brand record is stored neither later tab can be opened. */
  lemma LaterTabsLocked(s: State, t: Tab, isEmail: string -> bool)
    requires s.brandData.None? && Inv(s, isEmail)
    requires t != BrandTab
    ensures Step(s, SelectTab(t), isEmail) == s
  {
  }
}
