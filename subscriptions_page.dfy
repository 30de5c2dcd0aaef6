/**
 * The subscription plans page (src/pages/SubscriptionsPage.tsx): the
 * create, update and delete handlers, and the page state that decides
 * whether the form is open, in which mode, and which plan is about to be
 * deleted.
 *
 * The API wrappers never raise (they catch every failure into an
 * `ApiResponse`), so each handler is given the response its call resolves
 * to.  `window.location.reload()` after a success is recorded as the outcome
 * `Reloaded`; a handler that throws is recorded as `Threw(message)`.
 */
module SubscriptionsPage {
  import opened Wrappers
  import Api
  import SubscriptionForm
  import SubscriptionList

  /** `CreateSubscriptionRequest` and `UpdateSubscriptionRequest`: the seven fields the backend takes. */
  datatype SubscriptionRequest = SubscriptionRequest(
    name: string,
    description: string,
    price: real,
    currency: string,
    duration: SubscriptionForm.Duration,
    features: seq<string>,
    status: string)

  /** How a submit handler ends: the page reloads, or the handler throws. */
  datatype Outcome = Reloaded | Threw(message: string)

  /** The form's `mode` prop. */
  datatype FormMode = CreateMode | EditMode

  /** Which handler the form's `onSubmit` is wired to. */
  datatype Handler = CreateHandler | UpdateHandler

  /** The plan the delete dialog asks about. */
  datatype DeleteTarget = DeleteTarget(id: string, name: string)

  const CreateFailed := "Failed to create subscription"
  const UpdateFailed := "Failed to update subscription"
  const IdRequired := "Subscription ID is required for update"

  /** The request body both submit handlers build from the form data. */
  function ToRequest(data: SubscriptionForm.FormData): SubscriptionRequest {
    SubscriptionRequest(data.name, data.description, data.price, data.currency,
                        data.duration, data.features, data.status)
  }

  /**
   * Two forms give the same request exactly when they agree on the seven
   * transmitted fields; trial period, limits, support level and the plan
   * flags are never sent.
   */
  lemma ToRequestIffSameFields(f: SubscriptionForm.FormData, g: SubscriptionForm.FormData)
    ensures ToRequest(f) == ToRequest(g) <==>
      && f.name == g.name && f.description == g.description && f.price == g.price
      && f.currency == g.currency && f.duration == g.duration && f.features == g.features
      && f.status == g.status
  {
  }

  /** What a request that got a response leads to: a reload on success, else the response's message or the fallback is thrown. */
  function AfterResponse<T>(resp: Api.ApiResponse<T>, fallback: string): (o: Outcome)
    ensures o.Reloaded? <==> resp.success
    ensures o.Threw? ==> o.message == Api.MessageOr(resp.message, fallback)
  {
    if resp.success then Reloaded else Threw(Api.MessageOr(resp.message, fallback))
  }

  /** `handleCreateSubscription`: always posts the request; its response decides the outcome. */
  function HandleCreate<T>(data: SubscriptionForm.FormData, resp: Api.ApiResponse<T>): (r: (Api.Call, SubscriptionRequest, Outcome))
    ensures r.0 == Api.CreateSubscription && r.1 == ToRequest(data)
    ensures r.2 == AfterResponse(resp, CreateFailed)
  {
    (Api.CreateSubscription, ToRequest(data), AfterResponse(resp, CreateFailed))
  }

  /**
   * `handleUpdateSubscription`: without a truthy id on the record being
   * edited it throws before any request; otherwise it PUTs the request to
   * that id and the response decides the outcome.
   */
  function HandleUpdate<T>(editing: Option<SubscriptionList.EditRecord>, data: SubscriptionForm.FormData,
                           resp: Api.ApiResponse<T>): (r: (Option<(Api.Call, SubscriptionRequest)>, Outcome))
  {
    if editing.None? || editing.value.id.None? || editing.value.id.value == "" then
      (None, Threw(IdRequired))
    else
      (Some((Api.UpdateSubscription(editing.value.id.value), ToRequest(data))), AfterResponse(resp, UpdateFailed))
  }

  /** A thrown outcome always carries a non-empty message, so the form can show why it stayed open. */
  lemma ThrownMessagesNonEmpty<T>(editing: Option<SubscriptionList.EditRecord>, data: SubscriptionForm.FormData,
                                  resp: Api.ApiResponse<T>)
    ensures HandleCreate(data, resp).2.Threw? ==> HandleCreate(data, resp).2.message != ""
    ensures HandleUpdate(editing, data, resp).1.Threw? ==> HandleUpdate(editing, data, resp).1.message != ""
  {
  }

  /**
   * The update handler requests something exactly when the edited record
   * carries a non-empty id, and then it is the PUT of the form's request to
   * that id; otherwise it throws the missing-id message and the response
   * plays no part.
   */
  lemma HandleUpdateSpec<T>(editing: Option<SubscriptionList.EditRecord>, data: SubscriptionForm.FormData,
                            resp: Api.ApiResponse<T>)
    ensures var (called, outcome) := HandleUpdate(editing, data, resp);
      && (called.Some? <==> editing.Some? && editing.value.id.Some? && editing.value.id.value != "")
      && (called.Some? ==> called.value == (Api.UpdateSubscription(editing.value.id.value), ToRequest(data))
                           && outcome == AfterResponse(resp, UpdateFailed))
      && (called.None? ==> outcome == Threw(IdRequired))
  {
  }

  /**
   * The plan-list edit button as written hands over a record without an id,
   * so every update submitted after it throws the missing-id message and no
   * request is made, whatever the form holds and whatever the backend would say.
   */
  lemma AsWrittenEditNeverUpdates<T>(s: SubscriptionList.Subscription, data: SubscriptionForm.FormData,
                                     resp: Api.ApiResponse<T>)
    ensures HandleUpdate(SubscriptionList.HandleEditAsWritten(true, s), data, resp) == (None, Threw(IdRequired))
  {
  }

  /**
   * With the record carrying the plan's id, an update after the edit button
   * is the PUT of the form's request to that plan, and it reloads exactly
   * when the backend reports success.
   */
  lemma EditReachesUpdateEndpoint<T>(s: SubscriptionList.Subscription, data: SubscriptionForm.FormData,
                                     resp: Api.ApiResponse<T>)
    requires s.id != ""
    ensures var (called, outcome) := HandleUpdate(SubscriptionList.HandleEdit(true, s), data, resp);
      && called == Some((Api.UpdateSubscription(s.id), ToRequest(data)))
      && (outcome == Reloaded <==> resp.success)
  {
  }

  /**
   * The page's state: `isFormOpen`, `editingSubscription`,
   * `deleteConfirmOpen`, `subscriptionToDelete`, `isDeleting`, and the one
   * plan form it renders, which stays mounted while only `isOpen` changes.
   */
  class PageState {
    const form: SubscriptionForm.SubscriptionFormComponent
    var isFormOpen: bool
    var editing: Option<SubscriptionList.EditRecord>
    var deleteConfirmOpen: bool
    var toDelete: Option<DeleteTarget>
    var isDeleting: bool

    /**
     * A fresh page: the form closed, nothing being edited, no delete dialog.
     * The form is mounted now, with `initialData={editingSubscription}`
     * still undefined.
     */
    constructor ()
      ensures !isFormOpen && editing.None? && !deleteConfirmOpen && toDelete.None? && !isDeleting
      ensures fresh(form) && form.formData == SubscriptionForm.InitialFormData(None) == SubscriptionForm.Defaults
      ensures form.errors == map[] && !form.isSubmitting
    {
      form := new SubscriptionForm.SubscriptionFormComponent(None);
      isFormOpen := false;
      editing := None;
      deleteConfirmOpen := false;
      toDelete := None;
      isDeleting := false;
    }

    /** The form is in edit mode exactly when a record is being edited. */
    function Mode(): (m: FormMode)
      reads this
      ensures m == EditMode <==> editing.Some?
    {
      if editing.Some? then EditMode else CreateMode
    }

    /** The form's `onSubmit` is the update handler exactly when a record is being edited. */
    function SubmitHandler(): (h: Handler)
      reads this
      ensures h == UpdateHandler <==> Mode() == EditMode
    {
      if editing.Some? then UpdateHandler else CreateHandler
    }

    /** The "Create Plan" button: opens the form and nothing else. */
    method OpenCreate()
      modifies this
      ensures isFormOpen
      ensures editing == old(editing) && deleteConfirmOpen == old(deleteConfirmOpen)
      ensures toDelete == old(toDelete) && isDeleting == old(isDeleting)
    {
      isFormOpen := true;
    }

    /**
     * `handleEditSubscription`: remembers the record, switches the form to
     * edit mode and the update handler, and opens it.  The mounted form's
     * data is left as it was: nothing hands it the record.
     */
    method HandleEditSubscription(rec: SubscriptionList.EditRecord)
      modifies this
      ensures editing == Some(rec) && isFormOpen
      ensures Mode() == EditMode && SubmitHandler() == UpdateHandler
      ensures form.formData == old(form.formData)
      ensures deleteConfirmOpen == old(deleteConfirmOpen) && toDelete == old(toDelete) && isDeleting == old(isDeleting)
    {
      editing := Some(rec);
      isFormOpen := true;
    }

    /** `handleEditSubscription` with the form re-reading its initial data, as intended. */
    method HandleEditSubscriptionWithSync(rec: SubscriptionList.EditRecord)
      modifies this, form
      ensures editing == Some(rec) && isFormOpen
      ensures Mode() == EditMode && SubmitHandler() == UpdateHandler
      ensures form.formData == SubscriptionForm.Merge(old(form.formData), rec.data)
      ensures form.errors == old(form.errors) && form.isSubmitting == old(form.isSubmitting)
      ensures deleteConfirmOpen == old(deleteConfirmOpen) && toDelete == old(toDelete) && isDeleting == old(isDeleting)
    {
      HandleEditSubscription(rec);
      form.SyncInitialData(Some(rec.data));
    }

    /** `handleDeleteSubscription`: remembers the plan and opens the confirmation dialog. */
    method HandleDeleteSubscription(id: string, name: string)
      modifies this
      ensures toDelete == Some(DeleteTarget(id, name)) && deleteConfirmOpen
      ensures isFormOpen == old(isFormOpen) && editing == old(editing) && isDeleting == old(isDeleting)
    {
      toDelete := Some(DeleteTarget(id, name));
      deleteConfirmOpen := true;
    }

    /**
     * `confirmDeleteSubscription`.  With no plan selected it answers false
     * and changes nothing.  Otherwise it deletes the selected plan with
     * `isDeleting` set during the call, answers whether the backend reported
     * success, and always ends with the dialog closed, no plan selected and
     * `isDeleting` false.
     */
    method ConfirmDelete<T>(resp: Api.ApiResponse<T>) returns (ok: bool, called: Option<Api.Call>, ghost deletingDuringCall: bool)
      modifies this
      ensures old(toDelete).None? ==>
        && !ok && called.None?
        && deleteConfirmOpen == old(deleteConfirmOpen) && toDelete == old(toDelete) && isDeleting == old(isDeleting)
      ensures old(toDelete).Some? ==>
        && called == Some(Api.DeleteSubscription(old(toDelete).value.id))
        && deletingDuringCall
        && (ok <==> resp.success)
        && !deleteConfirmOpen && toDelete.None? && !isDeleting
      ensures isFormOpen == old(isFormOpen) && editing == old(editing)
    {
      if toDelete.None? {
        return false, None, false;
      }
      isDeleting := true;
      called := Some(Api.DeleteSubscription(toDelete.value.id));
      deletingDuringCall := isDeleting;
      ok := resp.success;
      isDeleting := false;
      deleteConfirmOpen := false;
      toDelete := None;
    }

    /** `cancelDelete`: closes the dialog and forgets the plan. */
    method CancelDelete()
      modifies this
      ensures !deleteConfirmOpen && toDelete.None?
      ensures isFormOpen == old(isFormOpen) && editing == old(editing) && isDeleting == old(isDeleting)
    {
      deleteConfirmOpen := false;
      toDelete := None;
    }

    /** `handleCloseForm`: closes the form and leaves edit mode. */
    method HandleCloseForm()
      modifies this
      ensures !isFormOpen && editing.None? && Mode() == CreateMode && SubmitHandler() == CreateHandler
      ensures deleteConfirmOpen == old(deleteConfirmOpen) && toDelete == old(toDelete) && isDeleting == old(isDeleting)
    {
      isFormOpen := false;
      editing := None;
    }
  }

  /**
   * The edit button as the page is written: the form was mounted with no
   * plan, and choosing one changes only the page's state, so the opened form
   * shows the defaults instead of the plan.
   */
  method EditShowsPlanAsWritten(s: SubscriptionList.Subscription) returns (shown: SubscriptionForm.FormData)
    ensures shown == SubscriptionForm.Defaults
    ensures s.name != "" ==> shown.name != s.name
  {
    var page := new PageState();
    var rec := SubscriptionList.HandleEdit(true, s);
    page.HandleEditSubscription(rec.value);
    shown := page.form.formData;
  }

  /**
   * The same with the form re-reading its initial data: the opened form
   * shows the plan's own fields, and only the trial period keeps its default.
   */
  method EditShowsPlanWithSync(s: SubscriptionList.Subscription) returns (shown: SubscriptionForm.FormData)
    ensures shown.name == s.name && shown.description == s.description && shown.price == s.price
    ensures shown.duration == s.duration && shown.features == s.features && shown.status == s.status
    ensures shown.currency == "IDR" && shown.maxStores == 5 && shown.maxProducts == 1000
    ensures shown.trialPeriod == SubscriptionForm.Defaults.trialPeriod
  {
    var page := new PageState();
    var rec := SubscriptionList.HandleEdit(true, s);
    page.HandleEditSubscriptionWithSync(rec.value);
    shown := page.form.formData;
    SubscriptionList.EditPrefillsForm(SubscriptionForm.Defaults, s);
  }
}
