/** The Invoices page: a table over an in-memory invoice list, filtered by
    one search box run over the number, title and client joined into a
    single string and by a status select; a "Create Invoice" form whose
    amount and tax inputs keep the total in step, and which prepends an
    invoice. Money is whole units. */
module Invoices {
  import opened Wrappers
  import opened Text
  import Lists

  datatype InvoiceStatus = Draft | Sent | Viewed | Paid | Overdue | Cancelled

  datatype Invoice = Invoice(
    id: string,
    invoiceNumber: string,
    title: string,
    client: string,
    amount: int,
    tax: int,
    total: int,
    status: InvoiceStatus,
    dueDate: string,
    sentAt: Option<string>)

  /** The create form's `Partial<InvoiceRow>`; an undefined string is "". */
  datatype InvoiceDraft = InvoiceDraft(
    invoiceNumber: string,
    title: string,
    client: string,
    amount: Option<int>,
    tax: Option<int>,
    total: Option<int>,
    status: Option<InvoiceStatus>,
    dueDate: string)

  const InvoicesSeed: seq<Invoice> := [
    Invoice("1", "INV-2024-001", "Website Redesign - Phase 1", "TechCorp Solutions",
            7500, 600, 8100, Paid, "2024-01-31", Some("2024-01-15")),
    Invoice("2", "INV-2024-002", "Marketing Campaign - Final Payment", "Marketing Masters",
            4000, 320, 4320, Sent, "2024-02-15", Some("2024-02-01")),
    Invoice("3", "INV-2024-003", "Mobile App - Milestone 1", "E-commerce Plus",
            9000, 720, 9720, Viewed, "2024-03-05", Some("2024-02-27")),
    Invoice("4", "INV-2024-004", "Consulting - January", "Consulting Group",
            2000, 0, 2000, Overdue, "2024-01-20", Some("2024-01-10")),
    Invoice("5", "INV-2024-005", "Design Sprint", "Design Studio Pro",
            3200, 256, 3456, Draft, "2024-03-20", None)
  ]

  /** The form's initial and reset value; `today` is the clock's date. */
  function BlankDraft(today: string): InvoiceDraft {
    InvoiceDraft("", "", "", Some(0), Some(0), Some(0), Some(Draft), today)
  }

  /** An invoice whose total is its amount plus its tax. */
  predicate Consistent(inv: Invoice) {
    inv.total == inv.amount + inv.tax
  }

  /** The same for the form, where an undefined number reads as 0. */
  predicate DraftConsistent(d: InvoiceDraft) {
    d.total.GetOr(0) == d.amount.GetOr(0) + d.tax.GetOr(0)
  }

  lemma SeedsConsistent()
    ensures forall i :: 0 <= i < |InvoicesSeed| ==> Consistent(InvoicesSeed[i])
  {
  }

  // ---------------------------------------------------------------- filter

  /** `[invoiceNumber, title, client].join(' ')` */
  function SearchText(inv: Invoice): string {
    Join([inv.invoiceNumber, inv.title, inv.client])
  }

  predicate Matches(inv: Invoice, term: string, status: Lists.Choice<InvoiceStatus>) {
    Includes(SearchText(inv), term) && Lists.Admits(status, inv.status)
  }

  function Matcher(term: string, status: Lists.Choice<InvoiceStatus>): Invoice -> bool {
    (inv: Invoice) => Matches(inv, term, status)
  }

  /** A term found in the number, the title or the client is found by the search. */
  lemma FieldMatchIsFound(inv: Invoice, term: string)
    requires Includes(inv.invoiceNumber, term) || Includes(inv.title, term) || Includes(inv.client, term)
    ensures Includes(SearchText(inv), term)
  {
    var parts := [inv.invoiceNumber, inv.title, inv.client];
    if Includes(inv.invoiceNumber, term) {
      IncludesPartOfJoin(parts, 0, term);
    } else if Includes(inv.title, term) {
      IncludesPartOfJoin(parts, 1, term);
    } else {
      IncludesPartOfJoin(parts, 2, term);
    }
  }

  lemma UnfilteredKeepsAll(invs: seq<Invoice>, term: string, status: Lists.Choice<InvoiceStatus>)
    ensures term == "" && status.All? ==> Lists.Filter(invs, Matcher(term, status)) == invs
  {
    if term == "" && status.All? {
      forall i | 0 <= i < |invs| ensures Matcher(term, status)(invs[i]) {
        IncludesEmpty(SearchText(invs[i]));
      }
      Lists.FilterKeepsAll(invs, Matcher(term, status));
    }
  }

  /** `filtered`: the invoices that pass the search and the status select, in list order. */
  function FilterInvoices(invs: seq<Invoice>, term: string, status: Lists.Choice<InvoiceStatus>): (r: seq<Invoice>)
    ensures forall i :: 0 <= i < |r| ==> r[i] in invs && Matches(r[i], term, status)
    ensures forall i :: 0 <= i < |invs| && Matches(invs[i], term, status) ==> invs[i] in r
    ensures Lists.IsSubsequence(r, invs)
    ensures forall v :: multiset(r)[v] == if Matches(v, term, status) then multiset(invs)[v] else 0
    ensures term == "" && status.All? ==> r == invs
  {
    var keep := Matcher(term, status);
    Lists.FilterIsSubsequence(invs, keep);
    Lists.FilterCounts(invs, keep);
    UnfilteredKeepsAll(invs, term, status);
    assert forall v :: keep(v) == Matches(v, term, status);
    Lists.Filter(invs, keep)
  }

  // ------------------------------------------------------------- form edits

  /** The amount input: sets the amount and recomputes the total from the tax. */
  function WithAmount(d: InvoiceDraft, amount: int): (r: InvoiceDraft)
    ensures DraftConsistent(r) && r.amount == Some(amount)
    ensures r.tax == d.tax && r.(amount := d.amount, total := d.total) == d
  {
    d.(amount := Some(amount), total := Some(amount + d.tax.GetOr(0)))
  }

  /** The tax input: sets the tax and recomputes the total from the amount. */
  function WithTax(d: InvoiceDraft, tax: int): (r: InvoiceDraft)
    ensures DraftConsistent(r) && r.tax == Some(tax)
    ensures r.amount == d.amount && r.(tax := d.tax, total := d.total) == d
  {
    d.(tax := Some(tax), total := Some(tax + d.amount.GetOr(0)))
  }

  /** The total input: sets only the total, so the form stays consistent
      exactly when the value typed is the amount plus the tax. */
  function WithTotal(d: InvoiceDraft, total: int): (r: InvoiceDraft)
    ensures DraftConsistent(r) <==> total == d.amount.GetOr(0) + d.tax.GetOr(0)
    ensures r.total == Some(total) && r.(total := d.total) == d
  {
    d.(total := Some(total))
  }

  // ------------------------------------------------------------------ create

  predicate CanCreate(d: InvoiceDraft) {
    d.invoiceNumber != "" && d.title != "" && d.client != ""
  }

  function NewInvoice(d: InvoiceDraft, id: string, today: string): Invoice {
    Invoice(id, d.invoiceNumber, d.title, d.client, d.amount.GetOr(0), d.tax.GetOr(0),
            d.total.GetOr(0), d.status.GetOr(Draft),
            if d.dueDate != "" then d.dueDate else today, None)
  }

  /** The invoice list after "Create Invoice" with id `id` (`String(Date.now())`). */
  function SubmitInvoice(invs: seq<Invoice>, d: InvoiceDraft, id: string, today: string): (r: seq<Invoice>)
    ensures !CanCreate(d) ==> r == invs
    ensures CanCreate(d) ==>
      && |r| == |invs| + 1 && r[1..] == invs
      && r[0].id == id && r[0].invoiceNumber == d.invoiceNumber
      && r[0].title == d.title && r[0].client == d.client
      && r[0].amount == (if d.amount.Some? then d.amount.value else 0)
      && r[0].tax == (if d.tax.Some? then d.tax.value else 0)
      && r[0].total == (if d.total.Some? then d.total.value else 0)
      && r[0].status == (if d.status.Some? then d.status.value else Draft)
      && r[0].dueDate == (if d.dueDate == "" then today else d.dueDate)
      && r[0].sentAt.None?
      && (DraftConsistent(d) <==> Consistent(r[0]))
  {
    if CanCreate(d) then [NewInvoice(d, id, today)] + invs else invs
  }

  /** Nothing stops a second invoice with a number already in use. */
  lemma SubmitAllowsDuplicateNumber(invs: seq<Invoice>, d: InvoiceDraft, id: string, today: string, k: nat)
    requires CanCreate(d) && k < |invs| && invs[k].invoiceNumber == d.invoiceNumber
    ensures var r := SubmitInvoice(invs, d, id, today);
            |r| == |invs| + 1 && r[0].invoiceNumber == r[k + 1].invoiceNumber
  {
  }

  /** Filling the form by the amount and tax inputs only (and leaving the
      total input alone) creates an invoice whose total adds up. */
  lemma {:induction false} EditsThenCreateConsistent(d: InvoiceDraft, amount: int, tax: int, id: string, today: string)
    requires CanCreate(d)
    ensures var r := SubmitInvoice([], WithTax(WithAmount(d, amount), tax), id, today);
            Consistent(r[0]) && r[0].amount == amount && r[0].tax == tax
  {
    var e := WithTax(WithAmount(d, amount), tax);
    assert DraftConsistent(e) && e.amount == Some(amount) && e.tax == Some(tax);
    assert CanCreate(e);
  }

  // --------------------------------------------------------------- the page

  class InvoicesPage {
    var invoiceList: seq<Invoice>
    var search: string
    var statusFilter: Lists.Choice<InvoiceStatus>
    var isCreateOpen: bool
    var newInvoice: InvoiceDraft

    constructor (today: string)
      ensures invoiceList == InvoicesSeed && search == "" && statusFilter == Lists.All
      ensures !isCreateOpen && newInvoice == BlankDraft(today)
    {
      invoiceList := InvoicesSeed;
      search := "";
      statusFilter := Lists.All;
      isCreateOpen := false;
      newInvoice := BlankDraft(today);
    }

    /** What the table renders. */
    function Filtered(): seq<Invoice>
      reads this
    {
      FilterInvoices(invoiceList, search, statusFilter)
    }

    method SetFilters(term: string, status: Lists.Choice<InvoiceStatus>)
      modifies this
      ensures search == term && statusFilter == status
      ensures invoiceList == old(invoiceList) && isCreateOpen == old(isCreateOpen) && newInvoice == old(newInvoice)
    {
      search, statusFilter := term, status;
    }

    method OpenCreate()
      modifies this
      ensures isCreateOpen
      ensures invoiceList == old(invoiceList) && newInvoice == old(newInvoice)
      ensures search == old(search) && statusFilter == old(statusFilter)
    {
      isCreateOpen := true;
    }

    /** The Cancel button and the modal backdrop: `setIsCreateOpen(false)`. */
    method CloseCreate()
      modifies this
      ensures !isCreateOpen
      ensures invoiceList == old(invoiceList) && newInvoice == old(newInvoice)
      ensures search == old(search) && statusFilter == old(statusFilter)
    {
      isCreateOpen := false;
    }

    /** The number, title, client and due-date inputs. */
    method EditText(invoiceNumber: string, title: string, client: string, dueDate: string)
      modifies this
      ensures newInvoice == old(newInvoice).(invoiceNumber := invoiceNumber, title := title,
                                             client := client, dueDate := dueDate)
      ensures invoiceList == old(invoiceList) && isCreateOpen == old(isCreateOpen)
      ensures search == old(search) && statusFilter == old(statusFilter)
    {
      newInvoice := newInvoice.(invoiceNumber := invoiceNumber, title := title,
                                client := client, dueDate := dueDate);
    }

    /** The amount input's `onChange`. */
    method EditAmount(amount: int)
      modifies this
      ensures newInvoice == WithAmount(old(newInvoice), amount)
      ensures DraftConsistent(newInvoice)
      ensures invoiceList == old(invoiceList) && isCreateOpen == old(isCreateOpen)
      ensures search == old(search) && statusFilter == old(statusFilter)
    {
      newInvoice := newInvoice.(amount := Some(amount), total := Some(amount + newInvoice.tax.GetOr(0)));
    }

    /** The tax input's `onChange`. */
    method EditTax(tax: int)
      modifies this
      ensures newInvoice == WithTax(old(newInvoice), tax)
      ensures DraftConsistent(newInvoice)
      ensures invoiceList == old(invoiceList) && isCreateOpen == old(isCreateOpen)
      ensures search == old(search) && statusFilter == old(statusFilter)
    {
      newInvoice := newInvoice.(tax := Some(tax), total := Some(tax + newInvoice.amount.GetOr(0)));
    }

    /** The total input's `onChange`. */
    method EditTotal(total: int)
      modifies this
      ensures newInvoice == WithTotal(old(newInvoice), total)
      ensures invoiceList == old(invoiceList) && isCreateOpen == old(isCreateOpen)
      ensures search == old(search) && statusFilter == old(statusFilter)
    {
      newInvoice := newInvoice.(total := Some(total));
    }

    /** The "Create Invoice" button. */
    method Create(id: string, today: string)
      modifies this
      ensures invoiceList == SubmitInvoice(old(invoiceList), old(newInvoice), id, today)
      ensures CanCreate(old(newInvoice)) ==> !isCreateOpen && newInvoice == BlankDraft(today)
      ensures !CanCreate(old(newInvoice)) ==> isCreateOpen == old(isCreateOpen) && newInvoice == old(newInvoice)
      ensures search == old(search) && statusFilter == old(statusFilter)
    {
      if !CanCreate(newInvoice) {
        return;
      }
      invoiceList := [NewInvoice(newInvoice, id, today)] + invoiceList;
      isCreateOpen := false;
      newInvoice := BlankDraft(today);
    }
  }
}
