/** The Projects page controller: its state and the handlers that change it.
    Each handler runs to completion in one step; the outcome of its API
    request is a parameter (`requestOk`, or the record the server returns),
    and `today` stands for `new Date().toISOString().slice(0, 10)`. */
module ProjectsPage {
  import opened Common
  import opened ProjectRecords
  import opened ProjectViews

  /** The create form. */
  datatype ProjectForm = ProjectForm(
    title: string,
    client: int,
    dueDate: string,
    startDate: string,
    paymentStatus: PaymentStatus,
    paymentAmount: Amount,
    paymentCurrency: string)

  /** The form as it starts and as a successful create leaves it. */
  const BlankForm := ProjectForm("", 0, "", "", Unpaid, "0", "USD")

  /** The body of `POST /projects/`. */
  datatype ProjectPayload = ProjectPayload(
    title: string,
    client: int,
    status: Status,
    startDate: string,
    dueDate: Option<string>,
    paymentStatus: PaymentStatus,
    paymentAmount: Amount,
    paymentCurrency: string)

  /** The create payload: a new project is always active, an empty start date
      falls back to today and an empty due date is sent as `null`. */
  function CreatePayload(form: ProjectForm, today: string): (r: ProjectPayload)
    ensures r.status == Active
    ensures form.startDate != "" ==> r.startDate == form.startDate
    ensures form.startDate == "" ==> r.startDate == today
    ensures r.dueDate.None? <==> form.dueDate == ""
    ensures r.dueDate.Some? ==> r.dueDate.value == form.dueDate
    ensures r.title == form.title && r.client == form.client
    ensures r.paymentStatus == form.paymentStatus && r.paymentAmount == form.paymentAmount
    ensures r.paymentCurrency == form.paymentCurrency
  {
    ProjectPayload(
      form.title,
      form.client,
      Active,
      if form.startDate != "" then form.startDate else today,
      if form.dueDate != "" then Some(form.dueDate) else None,
      form.paymentStatus,
      form.paymentAmount,
      form.paymentCurrency)
  }

  /** One entry of `editingPaymentValues`: the text typed as amount and the
      chosen currency. */
  datatype PaymentDraft = PaymentDraft(amount: string, currency: string)

  /** `prev[p.id] || { amount: "", currency: "USD" }`. */
  const BlankDraft := PaymentDraft("", "USD")

  /** The draft `startEditPayment(p)` opens with. */
  function DraftOf(p: Project): (d: PaymentDraft)
    ensures d.amount == "" <==> p.paymentAmount.None?
    ensures p.paymentAmount.Some? ==> d.amount == p.paymentAmount.value
    ensures d.currency == p.paymentCurrency.GetOr("USD")
  {
    PaymentDraft(
      if p.paymentAmount.None? then "" else p.paymentAmount.value,
      p.paymentCurrency.GetOr("USD"))
  }

  /** The body of the payment `PATCH`; an amount of `None` is sent as `null`. */
  datatype PaymentBody = PaymentBody(amount: Option<Amount>, currency: string)

  /** What `saveEditPayment` makes of a draft: an empty amount becomes null
      and an empty currency becomes "USD". */
  function PaymentRequest(d: PaymentDraft): (b: PaymentBody)
    ensures b.amount.None? <==> d.amount == ""
    ensures b.amount.Some? ==> b.amount.value == d.amount
    ensures b.currency != ""
    ensures d.currency != "" ==> b.currency == d.currency
  {
    PaymentBody(
      if d.amount == "" then None else Some(d.amount),
      if d.currency == "" then "USD" else d.currency)
  }

  /** Opening the payment editor on a project and saving it untouched writes
      back the amount and currency the project already had (a missing currency
      becomes "USD"). */
  lemma UneditedPaymentRoundTrip(p: Project)
    ensures var b := PaymentRequest(DraftOf(p));
      Merge(p, PaymentPatch(b.amount, b.currency))
        == p.(paymentCurrency := Some(if p.paymentCurrency == Some("") || p.paymentCurrency.None? then "USD" else p.paymentCurrency.value))
  {
  }

  /** The status the toggle switches to: a completed project becomes active,
      and any other one, on hold included, becomes completed. */
  function Toggled(s: Status): (r: Status)
    ensures r != s && r != OnHold
    ensures r == Active <==> s == Completed
  {
    if s == Completed then Active else Completed
  }

  /** Toggling twice restores an active or completed status; a project on
      hold comes back active. */
  lemma ToggleTwice(s: Status)
    ensures Toggled(Toggled(s)) == s <==> s != OnHold
    ensures s == OnHold ==> Toggled(Toggled(s)) == Active
  {
  }

  /** The outcome of a `GET`: rejected, or a response whose `data` may be
      missing (`null`). */
  datatype Fetch<T> = FetchFailed | Fetched(data: Option<T>)

  class Page {
    var projects: seq<Project>
    var clients: seq<Client>
    var adding: bool
    var loading: bool
    var error: string
    var form: ProjectForm
    var tab: Tab
    var search: string
    var confirmingDeleteId: Option<int>
    var editingPaymentId: Option<int>
    var editingPaymentValues: map<int, PaymentDraft>
    var editingPaymentStatusId: Option<int>
    var editingPaymentStatusValue: Option<PaymentStatus>
    var confirmToggleStatusId: Option<int>

    /** The initial state of every `useState`. */
    constructor ()
      ensures projects == [] && clients == [] && !adding && loading && error == ""
      ensures form == BlankForm && tab == AllTab && search == ""
      ensures confirmingDeleteId.None? && editingPaymentId.None? && editingPaymentValues == map[]
      ensures editingPaymentStatusId.None? && editingPaymentStatusValue.None? && confirmToggleStatusId.None?
    {
      projects, clients := [], [];
      adding, loading, error := false, true, "";
      form, tab, search := BlankForm, AllTab, "";
      confirmingDeleteId, editingPaymentId, editingPaymentValues := None, None, map[];
      editingPaymentStatusId, editingPaymentStatusValue, confirmToggleStatusId := None, None, None;
    }

    /** The list the page renders. */
    function Visible(): (r: seq<Project>)
      reads this
      ensures IsSubsequence(r, projects)
    {
      FilterProjects(projects, clients, tab, search)
    }

    /** The mount effect: both lists are replaced only when both requests
      succeed (a missing body counts as an empty list); otherwise the lists
      stay and the error is set. Loading ends either way. */
    method Load(projectsReply: Fetch<seq<Project>>, clientsReply: Fetch<seq<Client>>)
      modifies this`projects, this`clients, this`error, this`loading
      ensures !loading
      ensures projectsReply.Fetched? && clientsReply.Fetched? ==>
        projects == projectsReply.data.GetOr([]) && clients == clientsReply.data.GetOr([]) && error == old(error)
      ensures !(projectsReply.Fetched? && clientsReply.Fetched?) ==>
        projects == old(projects) && clients == old(clients) && error == "Failed to load projects or clients."
    {
      if projectsReply.Fetched? && clientsReply.Fetched? {
        projects := projectsReply.data.GetOr([]);
        clients := clientsReply.data.GetOr([]);
      } else {
        error := "Failed to load projects or clients.";
      }
      loading := false;
    }

    method SelectTab(t: Tab)
      modifies this`tab
      ensures tab == t
    {
      tab := t;
    }

    method EditSearch(text: string)
      modifies this`search
      ensures search == text
    {
      search := text;
    }

    /** `patchProjectField`: apply the patch to the record with that id at
      once, then keep it if the request succeeds or put the snapshot back if
      it fails. */
    method PatchProjectField(projectId: int, patch: Patch, requestOk: bool) returns (saved: bool)
      modifies this`projects, this`error
      ensures saved == requestOk
      ensures requestOk ==> projects == PatchById(old(projects), projectId, patch) && error == old(error)
      ensures !requestOk ==>
        error == "Failed to update project."
        && projects == Restore(PatchById(old(projects), projectId, patch), projectId, FindById(old(projects), projectId))
      ensures !requestOk && UniqueIds(old(projects)) ==> projects == old(projects)
    {
      OptimisticPatch(projectId, patch, requestOk, "Failed to update project.");
      saved := requestOk;
    }

    /** The pattern the page's update handlers share: the patch is applied to
      the list at once; when the request fails, the record as it was before
      is put back and `failure` becomes the error. With unique ids the list
      is then exactly the one before the update. */
    method OptimisticPatch(projectId: int, patch: Patch, requestOk: bool, failure: string)
      modifies this`projects, this`error
      ensures requestOk ==> projects == PatchById(old(projects), projectId, patch) && error == old(error)
      ensures !requestOk ==>
        error == failure
        && projects == Restore(PatchById(old(projects), projectId, patch), projectId, FindById(old(projects), projectId))
      ensures !requestOk && UniqueIds(old(projects)) ==> projects == old(projects)
    {
      var prev := FindById(projects, projectId);
      if UniqueIds(projects) {
        RollbackRestores(projects, projectId, patch);
      }
      projects := PatchById(projects, projectId, patch);
      if !requestOk {
        projects := Restore(projects, projectId, prev);
        error := failure;
      }
    }

    /** The inline "Delete" button: opens the confirmation for one project. */
    method RequestDelete(projectId: int)
      modifies this`confirmingDeleteId
      ensures confirmingDeleteId == Some(projectId)
    {
      confirmingDeleteId := Some(projectId);
    }

    /** The confirmation's "Cancel" button. */
    method CancelDelete()
      modifies this`confirmingDeleteId
      ensures confirmingDeleteId.None?
    {
      confirmingDeleteId := None;
    }

    /** `performDelete`: remove the record at once and close the confirmation;
      if the request fails, the whole pre-delete list comes back. */
    method PerformDelete(project: Project, requestOk: bool)
      modifies this`projects, this`confirmingDeleteId, this`error
      ensures confirmingDeleteId.None?
      ensures requestOk ==> projects == RemoveById(old(projects), project.id) && error == old(error)
      ensures !requestOk ==> projects == old(projects) && error == "Failed to delete project."
    {
      var prevProjects := projects;
      projects := RemoveById(projects, project.id);
      confirmingDeleteId := None;
      if !requestOk {
        projects := prevProjects;
        error := "Failed to delete project.";
      }
    }

    /** "New Project" opens the create form. */
    method OpenAddForm()
      modifies this`adding
      ensures adding
    {
      adding := true;
    }

    /** The create form's "Cancel" button. */
    method CloseAddForm()
      modifies this`adding
      ensures !adding
    {
      adding := false;
    }

    /** `addProject`: not optimistic. The server's record is prepended and the
      form reset only after the request succeeds; a failure leaves list, form
      and `adding` as they were. */
    method AddProject(today: string, reply: Option<Project>) returns (payload: ProjectPayload)
      modifies this`projects, this`adding, this`form, this`error
      ensures payload == CreatePayload(old(form), today)
      ensures reply.Some? ==> projects == [reply.value] + old(projects) && !adding && form == BlankForm && error == ""
      ensures reply.None? ==>
        projects == old(projects) && adding == old(adding) && form == old(form)
        && error == "Could not create project."
    {
      error := "";
      payload := CreatePayload(form, today);
      if reply.Some? {
        projects := [reply.value] + projects;
        adding := false;
        form := BlankForm;
      } else {
        error := "Could not create project.";
      }
    }

    /** `startEditPayment`: open the payment editor on a project with its
      current amount and currency. */
    method StartEditPayment(p: Project)
      modifies this`editingPaymentId, this`editingPaymentValues
      ensures editingPaymentId == Some(p.id)
      ensures editingPaymentValues == old(editingPaymentValues)[p.id := DraftOf(p)]
    {
      editingPaymentId := Some(p.id);
      editingPaymentValues := editingPaymentValues[p.id := DraftOf(p)];
    }

    /** Typing in the amount box of the payment editor. */
    method EditPaymentAmount(projectId: int, text: string)
      modifies this`editingPaymentValues
      ensures projectId in editingPaymentValues && editingPaymentValues[projectId].amount == text
      ensures editingPaymentValues[projectId].currency
        == (if projectId in old(editingPaymentValues) then old(editingPaymentValues)[projectId].currency else "USD")
      ensures editingPaymentValues - {projectId} == old(editingPaymentValues) - {projectId}
    {
      var d := if projectId in editingPaymentValues then editingPaymentValues[projectId] else BlankDraft;
      editingPaymentValues := editingPaymentValues[projectId := d.(amount := text)];
    }

    /** Choosing a currency in the payment editor. */
    method EditPaymentCurrency(projectId: int, currency: string)
      modifies this`editingPaymentValues
      ensures projectId in editingPaymentValues && editingPaymentValues[projectId].currency == currency
      ensures editingPaymentValues[projectId].amount
        == (if projectId in old(editingPaymentValues) then old(editingPaymentValues)[projectId].amount else "")
      ensures editingPaymentValues - {projectId} == old(editingPaymentValues) - {projectId}
    {
      var d := if projectId in editingPaymentValues then editingPaymentValues[projectId] else BlankDraft;
      editingPaymentValues := editingPaymentValues[projectId := d.(currency := currency)];
    }

    /** `cancelEditPayment`: close the editor if it is open on this project and
      drop this project's draft. */
    method CancelEditPayment(projectId: int)
      modifies this`editingPaymentId, this`editingPaymentValues
      ensures editingPaymentId == (if old(editingPaymentId) == Some(projectId) then None else old(editingPaymentId))
      ensures editingPaymentValues == old(editingPaymentValues) - {projectId}
    {
      if editingPaymentId == Some(projectId) {
        editingPaymentId := None;
      }
      editingPaymentValues := editingPaymentValues - {projectId};
    }

    /** `saveEditPayment`: nothing without a draft; otherwise the draft's amount
      and currency are applied to the record at once, the draft is dropped, and
      a failed request puts the pre-edit record back. */
    method SaveEditPayment(projectId: int, requestOk: bool) returns (sent: Option<PaymentBody>)
      modifies this`projects, this`error, this`editingPaymentId, this`editingPaymentValues
      ensures projectId !in old(editingPaymentValues) ==>
        sent.None?
        && projects == old(projects) && error == old(error)
        && editingPaymentId == old(editingPaymentId) && editingPaymentValues == old(editingPaymentValues)
      ensures projectId in old(editingPaymentValues) ==>
        var body := PaymentRequest(old(editingPaymentValues)[projectId]);
        var patched := PatchById(old(projects), projectId, PaymentPatch(body.amount, body.currency));
        && sent == Some(body)
        && editingPaymentValues == old(editingPaymentValues) - {projectId}
        && editingPaymentId == (if old(editingPaymentId) == Some(projectId) then None else old(editingPaymentId))
        && (requestOk ==> projects == patched && error == old(error))
        && (!requestOk ==> projects == Restore(patched, projectId, FindById(old(projects), projectId))
                           && error == "Failed to update payment.")
      ensures projectId in old(editingPaymentValues) && !requestOk && UniqueIds(old(projects)) ==>
        projects == old(projects)
    {
      if projectId !in editingPaymentValues {
        sent := None;
        return;
      }
      var body := PaymentRequest(editingPaymentValues[projectId]);
      var patch := PaymentPatch(body.amount, body.currency);
      CancelEditPayment(projectId);
      sent := Some(body);
      OptimisticPatch(projectId, patch, requestOk, "Failed to update payment.");
    }

    /** `startEditPaymentStatus`: open the status editor with the project's
      payment status, "unpaid" when it has none. */
    method StartEditPaymentStatus(p: Project)
      modifies this`editingPaymentStatusId, this`editingPaymentStatusValue
      ensures editingPaymentStatusId == Some(p.id)
      ensures editingPaymentStatusValue == Some(p.paymentStatus.GetOr(Unpaid))
    {
      editingPaymentStatusId := Some(p.id);
      editingPaymentStatusValue := Some(p.paymentStatus.GetOr(Unpaid));
    }

    /** Choosing an option in the status editor. */
    method ChoosePaymentStatus(s: PaymentStatus)
      modifies this`editingPaymentStatusValue
      ensures editingPaymentStatusValue == Some(s)
    {
      editingPaymentStatusValue := Some(s);
    }

    /** `cancelEditPaymentStatus`. */
    method CancelEditPaymentStatus()
      modifies this`editingPaymentStatusId, this`editingPaymentStatusValue
      ensures editingPaymentStatusId.None? && editingPaymentStatusValue.None?
    {
      editingPaymentStatusId := None;
      editingPaymentStatusValue := None;
    }

    /** `saveEditPaymentStatus`: nothing without a chosen value; otherwise the
      value is applied at once, the editor is closed, and a failed request
      puts the pre-edit record back. */
    method SaveEditPaymentStatus(projectId: int, requestOk: bool) returns (sent: Option<PaymentStatus>)
      modifies this`projects, this`error, this`editingPaymentStatusId, this`editingPaymentStatusValue
      ensures old(editingPaymentStatusValue).None? ==>
        sent.None?
        && projects == old(projects) && error == old(error)
        && editingPaymentStatusId == old(editingPaymentStatusId) && editingPaymentStatusValue.None?
      ensures old(editingPaymentStatusValue).Some? ==>
        var patched := PatchById(old(projects), projectId, PaymentStatusPatch(old(editingPaymentStatusValue).value));
        && sent == old(editingPaymentStatusValue)
        && editingPaymentStatusId.None? && editingPaymentStatusValue.None?
        && (requestOk ==> projects == patched && error == old(error))
        && (!requestOk ==> projects == Restore(patched, projectId, FindById(old(projects), projectId))
                           && error == "Failed to update payment status.")
      ensures old(editingPaymentStatusValue).Some? && !requestOk && UniqueIds(old(projects)) ==>
        projects == old(projects)
    {
      if editingPaymentStatusValue.None? {
        sent := None;
        return;
      }
      var value := editingPaymentStatusValue.value;
      var patch := PaymentStatusPatch(value);
      editingPaymentStatusId := None;
      editingPaymentStatusValue := None;
      sent := Some(value);
      OptimisticPatch(projectId, patch, requestOk, "Failed to update payment status.");
    }

    /** `startToggleStatusConfirm`. */
    method StartToggleStatusConfirm(p: Project)
      modifies this`confirmToggleStatusId
      ensures confirmToggleStatusId == Some(p.id)
    {
      confirmToggleStatusId := Some(p.id);
    }

    /** `cancelToggleStatusConfirm`. */
    method CancelToggleStatusConfirm()
      modifies this`confirmToggleStatusId
      ensures confirmToggleStatusId.None?
    {
      confirmToggleStatusId := None;
    }

    /** `confirmToggleStatus`: nothing for an unknown id (the confirmation
      stays open); otherwise the confirmation closes and the swapped status
      goes through `patchProjectField`. */
    method ConfirmToggleStatus(projectId: int, requestOk: bool) returns (sent: Option<Status>)
      modifies this`projects, this`error, this`confirmToggleStatusId
      ensures FindById(old(projects), projectId).None? ==>
        sent.None?
        && projects == old(projects) && error == old(error) && confirmToggleStatusId == old(confirmToggleStatusId)
      ensures FindById(old(projects), projectId).Some? ==>
        var patched := PatchById(old(projects), projectId,
                                 StatusPatch(Toggled(FindById(old(projects), projectId).value.status)));
        && sent == Some(Toggled(FindById(old(projects), projectId).value.status))
        && confirmToggleStatusId.None?
        && (requestOk ==> projects == patched && error == old(error))
        && (!requestOk ==> projects == Restore(patched, projectId, FindById(old(projects), projectId))
                           && error == "Failed to update project.")
      ensures FindById(old(projects), projectId).Some? && !requestOk && UniqueIds(old(projects)) ==>
        projects == old(projects)
    {
      var p := FindById(projects, projectId);
      if p.None? {
        sent := None;
        return;
      }
      var newStatus := Toggled(p.value.status);
      confirmToggleStatusId := None;
      var _ := PatchProjectField(projectId, StatusPatch(newStatus), requestOk);
      sent := Some(newStatus);
    }
  }

  /** After a successful toggle the record with that id carries the swapped
      status, and every other field is as before. */
  lemma ToggleSwapsStatus(ps: seq<Project>, projectId: int, p: Project)
    requires FindById(ps, projectId) == Some(p)
    ensures FindById(PatchById(ps, projectId, StatusPatch(Toggled(p.status))), projectId)
         == Some(p.(status := Toggled(p.status)))
  {
    FindAfterPatch(ps, projectId, StatusPatch(Toggled(p.status)));
  }
}
