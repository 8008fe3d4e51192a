/** The Invoices page controller: the mount-time load and the create form. */
module InvoicesPage {
  import opened Common

  datatype InvoiceStatus = Draft | Sent | Paid | Overdue

  /** An invoice as the server returns it; `total` stays text. */
  datatype Invoice = Invoice(
    id: int,
    number: string,
    client: int,
    clientName: Option<string>,
    issueDate: Option<string>,
    dueDate: Option<string>,
    status: InvoiceStatus,
    total: string)

  /** `{ id, name }`, as the Invoices page keeps its clients. */
  datatype InvoiceClient = InvoiceClient(id: int, name: string)

  /** The create form, posted as it stands. */
  datatype InvoiceForm = InvoiceForm(number: string, client: int, total: string, status: InvoiceStatus, dueDate: string)

  /** The form as it starts and as a successful create leaves it. */
  const BlankForm := InvoiceForm("", 0, "0.00", Draft, "")

  const LoadFailed := "Failed to load invoices or clients."
  const CreateFailed := "Could not create invoice. Check your inputs."

  class Page {
    var invoices: seq<Invoice>
    var clients: seq<InvoiceClient>
    var adding: bool
    var loading: bool
    var error: string
    var form: InvoiceForm

    constructor ()
      ensures invoices == [] && clients == [] && !adding && loading && error == "" && form == BlankForm
    {
      invoices, clients := [], [];
      adding, loading, error, form := false, true, "", BlankForm;
    }

    /** The mount effect: `Promise.all` of both requests (`None` is a rejected
      request). Both lists are set only when both succeed; any failure sets
      the error and keeps the lists. `loading` ends false either way. */
    method Load(invoicesReply: Option<seq<Invoice>>, clientsReply: Option<seq<InvoiceClient>>)
      modifies this`invoices, this`clients, this`error, this`loading
      ensures !loading
      ensures invoicesReply.Some? && clientsReply.Some? ==>
        invoices == invoicesReply.value && clients == clientsReply.value && error == old(error)
      ensures invoicesReply.None? || clientsReply.None? ==>
        invoices == old(invoices) && clients == old(clients) && error == LoadFailed
    {
      if invoicesReply.Some? && clientsReply.Some? {
        invoices := invoicesReply.value;
        clients := clientsReply.value;
      } else {
        error := LoadFailed;
      }
      loading := false;
    }

    /** "New Invoice". */
    method OpenAddForm()
      modifies this`adding
      ensures adding
    {
      adding := true;
    }

    /** The form's "Cancel". */
    method CloseAddForm()
      modifies this`adding
      ensures !adding
    {
      adding := false;
    }

    /** `addInvoice`: the error is cleared, the form is posted as it is, and
      only a successful reply changes the list: the new invoice goes first
      and the form closes and resets. A failure keeps list, form and
      `adding`, and sets the error. */
    method AddInvoice(reply: Option<Invoice>) returns (body: InvoiceForm)
      modifies this`invoices, this`adding, this`form, this`error
      ensures body == old(form)
      ensures reply.Some? ==>
        invoices == [reply.value] + old(invoices) && !adding && form == BlankForm && error == ""
      ensures reply.None? ==>
        invoices == old(invoices) && form == old(form) && adding == old(adding) && error == CreateFailed
    {
      error := "";
      body := form;
      if reply.Some? {
        invoices := [reply.value] + invoices;
        adding := false;
        form := BlankForm;
      } else {
        error := CreateFailed;
      }
    }
  }
}
