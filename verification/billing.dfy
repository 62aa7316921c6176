/**
 * The billing screen: a read-only billing table and an editable plan table.
 * Each plan row keeps a pending edit of its email limit until it is saved,
 * and per-plan `saving` / `removing` flags disable only that row's buttons
 * while its request is in flight. Every async handler is a transition from
 * the state before the click to the state after its last await, driven by
 * which of its awaits failed.
 */
module Billing {
  import opened Js
  import opened Screen

  /** A row of the `/billing` table. */
  datatype BillingRow = BillingRow(name: Value, plan: string, role: Value, emailLimit: Value, status: Value, expiry: Value)

  /** A plan of `/billing/plans`. */
  datatype Plan = Plan(name: string, emailLimit: Value, price: Value, stripePriceId: Value, description: Value)

  /** The inputs of the add-plan form, by their `name` attribute. */
  datatype FormField = NameField | EmailLimitField | PriceField | StripePriceIdField | DescriptionField

  datatype NewPlanForm = NewPlanForm(name: string, emailLimit: string, price: string, stripePriceId: string, description: string)

  const EmptyForm: NewPlanForm := NewPlanForm("", "", "", "", "")

  /** The screen's state hooks. `planEdits` maps a plan to its pending input, `None` once cleared to undefined. */
  datatype State = State(
    loading: bool,
    error: Option<string>,
    billingData: seq<BillingRow>,
    plans: seq<Plan>,
    planEdits: map<string, Option<string>>,
    saving: map<string, bool>,
    newPlan: NewPlanForm,
    addLoading: bool,
    addMessage: string,
    removing: map<string, bool>)

  const InitialState: State := State(true, None, [], [], map[], map[], EmptyForm, false, "", map[])

  const LoadError: string := "Failed to fetch billing data"

  /** The billing table is read first and stored before the plans are read. */
  function LoadBilling(billing: Outcome<seq<BillingRow>>, plans: Outcome<seq<Plan>>): (s: State)
    ensures !s.loading
    ensures billing.Failure? ==> s.error == Some(LoadError) && s.billingData == [] && s.plans == []
    ensures billing.Success? ==> s.billingData == billing.value
    ensures billing.Success? && plans.Failure? ==> s.error == Some(LoadError) && s.plans == []
    ensures billing.Success? && plans.Success? ==> s.error.None? && s.plans == plans.value
    ensures s.(loading := InitialState.loading, error := InitialState.error,
      billingData := InitialState.billingData, plans := InitialState.plans) == InitialState
  {
    match billing
    case Failure => InitialState.(loading := false, error := Some(LoadError))
    case Success(rows) =>
      match plans
      case Failure => InitialState.(loading := false, error := Some(LoadError), billingData := rows)
      case Success(ps) => InitialState.(loading := false, billingData := rows, plans := ps)
  }

  /** Loading, then the error, then the two tables. */
  function BillingScreen(s: State): (v: View<State>)
    ensures v.LoadingView? <==> s.loading
    ensures !s.loading && ErrorSet(s.error) ==> v == ErrorView(s.error.value)
    ensures v.ContentView? <==> !s.loading && !ErrorSet(s.error)
    ensures v.ContentView? ==> v.content == s
  {
    Render(Load(s.loading, s.error, s))
  }

  /** After the mount-time reads the page shows both tables when both reads succeed, and the fetch error otherwise. */
  lemma LoadedBillingScreen(billing: Outcome<seq<BillingRow>>, plans: Outcome<seq<Plan>>)
    ensures billing.Success? && plans.Success? ==>
      BillingScreen(LoadBilling(billing, plans)) == ContentView(LoadBilling(billing, plans))
    ensures billing.Failure? || plans.Failure? ==>
      BillingScreen(LoadBilling(billing, plans)) == ErrorView(LoadError)
  {
  }

  /** `planEdits[name]`: undefined for a plan never edited. */
  function EditOf(edits: map<string, Option<string>>, name: string): Option<string> {
    if name in edits then edits[name] else None
  }

  /** The limit input shows the pending edit when there is one, else the server's limit. */
  function DisplayedLimit(edits: map<string, Option<string>>, plan: Plan): (v: Value)
    ensures EditOf(edits, plan.name).Some? ==> v == Str(EditOf(edits, plan.name).value)
    ensures EditOf(edits, plan.name).None? ==> v == plan.emailLimit
  {
    match EditOf(edits, plan.name)
    case Some(text) => Str(text)
    case None => plan.emailLimit
  }

  /** `handlePlanEdit`: records the input of one plan and leaves every other plan's edit alone. */
  function HandlePlanEdit(edits: map<string, Option<string>>, name: string, value: string): (r: map<string, Option<string>>)
    ensures EditOf(r, name) == Some(value)
    ensures forall other :: other != name ==> EditOf(r, other) == EditOf(edits, other)
  {
    edits[name := Some(value)]
  }

  /** After typing into a row the row shows what was typed. */
  lemma EditIsDisplayed(edits: map<string, Option<string>>, plan: Plan, value: string)
    ensures DisplayedLimit(HandlePlanEdit(edits, plan.name, value), plan) == Str(value)
  {
  }

  /** `flags[name]` as a button's `disabled`: undefined counts as false. */
  predicate IsFlagged(flags: map<string, bool>, name: string) {
    name in flags && flags[name]
  }

  function SetFlag(flags: map<string, bool>, name: string, on: bool): (r: map<string, bool>)
    ensures IsFlagged(r, name) == on
    ensures forall other :: other != name ==> IsFlagged(r, other) == IsFlagged(flags, other)
  {
    flags[name := on]
  }

  /** How far `handleSavePlan` got: the PATCH, the plans refresh, or the billing refresh failed, or all succeeded. */
  datatype SaveOutcome =
    | PatchFailed
    | PlansRefreshFailed
    | BillingRefreshFailed(plans: seq<Plan>)
    | Saved(plans: seq<Plan>, billing: seq<BillingRow>)

  /** The PATCH body carries `Number(planEdits[name])`; `None` is an undefined edit. */
  datatype SaveRequest = SaveRequest(path: string, emailLimit: Option<string>)

  datatype SaveEffect = SaveEffect(state: State, request: SaveRequest, alert: Option<string>)

  const SaveFailedAlert: string := "Failed to update plan"

  /** The first statement of `handleSavePlan`: the row's Save button is disabled. */
  function BeginSave(s: State, name: string): (r: State)
    ensures IsFlagged(r.saving, name)
    ensures forall other :: other != name ==> IsFlagged(r.saving, other) == IsFlagged(s.saving, other)
    ensures r.(saving := s.saving) == s
  {
    s.(saving := SetFlag(s.saving, name, true))
  }

  /** The awaits of `handleSavePlan` and its `finally`. */
  function FinishSave(s: State, name: string, outcome: SaveOutcome): (r: State)
    ensures !IsFlagged(r.saving, name)
    ensures forall other :: other != name ==> IsFlagged(r.saving, other) == IsFlagged(s.saving, other)
  {
    var cleared := s.planEdits[name := None];
    var done := SetFlag(s.saving, name, false);
    match outcome
    case PatchFailed => s.(saving := done)
    case PlansRefreshFailed => s.(saving := done)
    case BillingRefreshFailed(ps) => s.(plans := ps, planEdits := cleared, saving := done)
    case Saved(ps, rows) => s.(plans := ps, planEdits := cleared, billingData := rows, saving := done)
  }

  /**
   * `handleSavePlan`. The edit is cleared only once the PATCH and the plans
   * refresh have succeeded; a failure of the final billing refresh still
   * raises the alert, but the edit is already gone.
   */
  function HandleSavePlan(s: State, name: string, outcome: SaveOutcome): (e: SaveEffect)
    ensures e.request == SaveRequest("/billing/plan/" + name, EditOf(s.planEdits, name))
    ensures !IsFlagged(e.state.saving, name)
    ensures forall other :: other != name ==> IsFlagged(e.state.saving, other) == IsFlagged(s.saving, other)
    ensures e.alert.None? <==> outcome.Saved?
    ensures e.alert.Some? ==> e.alert.value == SaveFailedAlert
    ensures outcome.PatchFailed? || outcome.PlansRefreshFailed? ==>
      e.state.planEdits == s.planEdits && e.state.plans == s.plans
    ensures outcome.BillingRefreshFailed? || outcome.Saved? ==>
      e.state.plans == outcome.plans
      && EditOf(e.state.planEdits, name).None?
      && forall other :: other != name ==> EditOf(e.state.planEdits, other) == EditOf(s.planEdits, other)
    ensures outcome.Saved? ==> e.state.billingData == outcome.billing
    ensures !outcome.Saved? ==> e.state.billingData == s.billingData
    ensures e.state.newPlan == s.newPlan && e.state.addMessage == s.addMessage && e.state.removing == s.removing
    ensures e.state.(saving := s.saving, planEdits := s.planEdits, plans := s.plans, billingData := s.billingData) == s
  {
    var r := FinishSave(BeginSave(s, name), name, outcome);
    SaveEffect(r, SaveRequest("/billing/plan/" + name, EditOf(s.planEdits, name)),
      if outcome.Saved? then None else Some(SaveFailedAlert))
  }

  /** After a successful save the row falls back to the limit the server now reports. */
  lemma SavedShowsServerLimit(s: State, name: string, plans: seq<Plan>, rows: seq<BillingRow>, plan: Plan)
    requires plan in plans && plan.name == name
    ensures var r := HandleSavePlan(s, name, Saved(plans, rows)).state;
      plan in r.plans && DisplayedLimit(r.planEdits, plan) == plan.emailLimit
  {
  }

  /** A save rejected at its PATCH keeps showing what was typed. */
  lemma FailedSaveKeepsEdit(s: State, plan: Plan, value: string)
    ensures var edited := s.(planEdits := HandlePlanEdit(s.planEdits, plan.name, value));
      DisplayedLimit(HandleSavePlan(edited, plan.name, PatchFailed).state.planEdits, plan) == Str(value)
  {
  }

  /** Saving one plan neither sets nor clears another plan's in-flight flag. */
  lemma SaveFlagsIndependent(s: State, a: string, b: string, outcome: SaveOutcome)
    requires a != b
    ensures IsFlagged(FinishSave(BeginSave(BeginSave(s, a), b), a, outcome).saving, b)
    ensures !IsFlagged(FinishSave(BeginSave(BeginSave(s, a), b), a, outcome).saving, a)
  {
  }

  /** `handleNewPlanChange`: one form field takes the typed value. */
  function SetFormField(form: NewPlanForm, field: FormField, value: string): (r: NewPlanForm)
    ensures FormValue(r, field) == value
    ensures forall other :: other != field ==> FormValue(r, other) == FormValue(form, other)
  {
    match field
    case NameField => form.(name := value)
    case EmailLimitField => form.(emailLimit := value)
    case PriceField => form.(price := value)
    case StripePriceIdField => form.(stripePriceId := value)
    case DescriptionField => form.(description := value)
  }

  function FormValue(form: NewPlanForm, field: FormField): string {
    match field
    case NameField => form.name
    case EmailLimitField => form.emailLimit
    case PriceField => form.price
    case StripePriceIdField => form.stripePriceId
    case DescriptionField => form.description
  }

  /** How far an add or a remove got: the POST/DELETE failed, the plans refresh failed, or both succeeded. */
  datatype MutationOutcome = RequestFailed | RefreshFailed | Refreshed(plans: seq<Plan>)

  const AddedMessage: string := "Plan added successfully!"
  const AddFailedMessage: string := "Sorry, failed to add plan. Please check your input and try again."
  const RemovedMessage: string := "Plan removed successfully."
  const RemoveFailedMessage: string := "Sorry, failed to remove plan."

  /** The first statements of `handleAddPlan`: the button shows "Adding..." and the message is cleared. */
  function BeginAdd(s: State): (r: State)
    ensures r.addLoading && r.addMessage == ""
    ensures r.(addLoading := s.addLoading, addMessage := s.addMessage) == s
  {
    s.(addLoading := true, addMessage := "")
  }

  /**
   * The awaits of `handleAddPlan`. The form is reset right after the POST
   * succeeds, before the plans refresh, so a failed refresh shows the
   * failure message over an already empty form.
   */
  function FinishAdd(s: State, outcome: MutationOutcome): (r: State)
    ensures !r.addLoading
    ensures outcome.RequestFailed? ==> r.newPlan == s.newPlan && r.plans == s.plans
    ensures !outcome.RequestFailed? ==> r.newPlan == EmptyForm
    ensures r.(addLoading := s.addLoading, addMessage := s.addMessage, newPlan := s.newPlan, plans := s.plans) == s
    ensures r.addMessage == (if outcome.Refreshed? then AddedMessage else AddFailedMessage)
    ensures r.plans == (if outcome.Refreshed? then outcome.plans else s.plans)
    ensures r.planEdits == s.planEdits && r.saving == s.saving && r.removing == s.removing
    ensures r.billingData == s.billingData
  {
    match outcome
    case RequestFailed => s.(addLoading := false, addMessage := AddFailedMessage)
    case RefreshFailed => s.(addLoading := false, addMessage := AddFailedMessage, newPlan := EmptyForm)
    case Refreshed(ps) => s.(addLoading := false, addMessage := AddedMessage, newPlan := EmptyForm, plans := ps)
  }

  function HandleAddPlan(s: State, outcome: MutationOutcome): (r: State)
    ensures !r.addLoading
    ensures outcome.RequestFailed? ==> r.newPlan == s.newPlan
    ensures !outcome.RequestFailed? ==> r.newPlan == EmptyForm
    ensures r.(addLoading := s.addLoading, addMessage := s.addMessage, newPlan := s.newPlan, plans := s.plans) == s
    ensures outcome.Refreshed? ==> r.newPlan == EmptyForm && r.addMessage == AddedMessage
    ensures !outcome.Refreshed? ==> r.addMessage == AddFailedMessage
  {
    FinishAdd(BeginAdd(s), outcome)
  }

  /**
   * Adding a plan touches only the form, its message and the plan list: the
   * billing table, pending edits and every row's Save and Remove flags are as
   * they were, and the plan list changes only to a refreshed one.
   */
  lemma AddLeavesRowsAlone(s: State, outcome: MutationOutcome)
    ensures var r := HandleAddPlan(s, outcome);
      && r.billingData == s.billingData && r.planEdits == s.planEdits
      && r.saving == s.saving && r.removing == s.removing
      && r.loading == s.loading && r.error == s.error
      && r.plans == (if outcome.Refreshed? then outcome.plans else s.plans)
  {
  }

  /** After the confirmation: the row's Remove button is disabled and the message cleared. */
  function BeginRemove(s: State, name: string): (r: State)
    ensures IsFlagged(r.removing, name) && r.addMessage == ""
    ensures forall other :: other != name ==> IsFlagged(r.removing, other) == IsFlagged(s.removing, other)
    ensures r.(removing := s.removing, addMessage := s.addMessage) == s
  {
    s.(removing := SetFlag(s.removing, name, true), addMessage := "")
  }

  function FinishRemove(s: State, name: string, outcome: MutationOutcome): (r: State)
    ensures !IsFlagged(r.removing, name)
    ensures forall other :: other != name ==> IsFlagged(r.removing, other) == IsFlagged(s.removing, other)
    ensures r.addMessage == (if outcome.Refreshed? then RemovedMessage else RemoveFailedMessage)
    ensures r.plans == (if outcome.Refreshed? then outcome.plans else s.plans)
    ensures r.planEdits == s.planEdits && r.saving == s.saving && r.newPlan == s.newPlan
  {
    var done := SetFlag(s.removing, name, false);
    match outcome
    case RequestFailed => s.(removing := done, addMessage := RemoveFailedMessage)
    case RefreshFailed => s.(removing := done, addMessage := RemoveFailedMessage)
    case Refreshed(ps) => s.(removing := done, addMessage := RemovedMessage, plans := ps)
  }

  /** `handleRemovePlan`: declining the confirmation changes nothing at all. */
  function HandleRemovePlan(s: State, name: string, confirmed: bool, outcome: MutationOutcome): (r: State)
    ensures !confirmed ==> r == s
    ensures confirmed ==> !IsFlagged(r.removing, name)
    ensures confirmed ==> r.addMessage == (if outcome.Refreshed? then RemovedMessage else RemoveFailedMessage)
    ensures r.(removing := s.removing, addMessage := s.addMessage, plans := s.plans) == s
    ensures forall other :: other != name ==> IsFlagged(r.removing, other) == IsFlagged(s.removing, other)
  {
    if !confirmed then s else FinishRemove(BeginRemove(s, name), name, outcome)
  }

  /**
   * Removing a plan touches only the message, that plan's Remove flag and the
   * plan list: pending edits, Save flags, the add form and the billing table
   * are as they were, and the list is replaced only by a successful refresh.
   */
  lemma RemoveLeavesRowsAlone(s: State, name: string, confirmed: bool, outcome: MutationOutcome)
    ensures var r := HandleRemovePlan(s, name, confirmed, outcome);
      && r.planEdits == s.planEdits && r.saving == s.saving && r.newPlan == s.newPlan
      && r.billingData == s.billingData && r.addLoading == s.addLoading
      && r.loading == s.loading && r.error == s.error
      && r.plans == (if confirmed && outcome.Refreshed? then outcome.plans else s.plans)
  {
  }
}
