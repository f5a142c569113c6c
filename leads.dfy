/** The Leads page: a table over an in-memory lead list, filtered by one
    search box run over the name, company and email joined into a single
    string, and by a status and a priority select; a "Create Lead" form
    prepends a lead. */
module Leads {
  import opened Wrappers
  import opened Text
  import Lists

  datatype LeadStatus = New | Contacted | Qualified | ProposalSent | Negotiation | Won | Lost

  datatype LeadPriority = Low | Medium | High

  /** `LeadRow`; the optional fields of the record are options. */
  datatype Lead = Lead(
    id: string,
    name: string,
    company: Option<string>,
    email: Option<string>,
    phone: Option<string>,
    status: LeadStatus,
    priority: LeadPriority,
    value: Option<int>,
    source: Option<string>,
    createdAt: string,
    nextStep: Option<string>)

  /** The create form's `Partial<LeadRow>`; an undefined name is "". */
  datatype LeadDraft = LeadDraft(
    name: string,
    company: Option<string>,
    email: Option<string>,
    status: Option<LeadStatus>,
    priority: Option<LeadPriority>,
    value: Option<int>,
    source: Option<string>,
    nextStep: Option<string>)

  const LeadsSeed: seq<Lead> := [
    Lead("1", "David Wilson", Some("Consulting Group"), Some("david@consultinggroup.com"), None,
         Contacted, Medium, Some(15000), Some("Website"), "2024-01-12", Some("Schedule demo")),
    Lead("2", "Lisa Thompson", Some("E-commerce Plus"), Some("lisa@ecommerceplus.com"), None,
         Qualified, High, Some(30000), Some("Referral"), "2024-01-18", Some("Send proposal")),
    Lead("3", "Emma Rodriguez", Some("Marketing Masters"), Some("emma@marketingmasters.com"), None,
         New, High, Some(8000), Some("Cold Outreach"), "2024-01-22", Some("Discovery call")),
    Lead("4", "Mike Chen", Some("Design Studio Pro"), Some("mike@designstudio.com"), None,
         ProposalSent, Medium, Some(12000), Some("Website"), "2024-01-25", Some("Follow up"))
  ]

  /** The form's initial and reset value. */
  const BlankDraft: LeadDraft :=
    LeadDraft("", Some(""), Some(""), Some(New), Some(Medium), Some(0), Some("Website"), Some(""))

  // ---------------------------------------------------------------- filter

  /** `[name, company ?? '', email ?? ''].join(' ')` */
  function SearchText(l: Lead): string {
    Join([l.name, l.company.GetOr(""), l.email.GetOr("")])
  }

  predicate SearchMatches(l: Lead, term: string) {
    Includes(SearchText(l), term)
  }

  predicate Matches(l: Lead, term: string, status: Lists.Choice<LeadStatus>,
                    priority: Lists.Choice<LeadPriority>) {
    SearchMatches(l, term) && Lists.Admits(status, l.status) && Lists.Admits(priority, l.priority)
  }

  function Matcher(term: string, status: Lists.Choice<LeadStatus>,
                   priority: Lists.Choice<LeadPriority>): Lead -> bool {
    (l: Lead) => Matches(l, term, status, priority)
  }

  /** A term found in any one of the three fields is found by the search. */
  lemma FieldMatchIsFound(l: Lead, term: string)
    requires Includes(l.name, term) || Includes(l.company.GetOr(""), term) || Includes(l.email.GetOr(""), term)
    ensures SearchMatches(l, term)
  {
    var parts := [l.name, l.company.GetOr(""), l.email.GetOr("")];
    if Includes(l.name, term) {
      IncludesPartOfJoin(parts, 0, term);
    } else if Includes(l.company.GetOr(""), term) {
      IncludesPartOfJoin(parts, 1, term);
    } else {
      IncludesPartOfJoin(parts, 2, term);
    }
  }

  /** The converse fails: a term may span the space between two fields. */
  lemma TermSpansFields()
    ensures var l := Lead("5", "Ann", Some("Co"), None, None, New, Low, None, None, "", None);
            && SearchMatches(l, "ann co")
            && !Includes(l.name, "ann co") && !Includes(l.company.GetOr(""), "ann co")
            && !Includes(l.email.GetOr(""), "ann co")
  {
    var l := Lead("5", "Ann", Some("Co"), None, None, New, Low, None, None, "", None);
    assert SearchText(l) == "Ann Co ";
    assert Lower("Ann Co ")[..6] == "ann co";
    ContainsAt(Lower("Ann Co "), Lower("ann co"), 0);
    if Includes("Ann", "ann co") {
      ContainsNeedsRoom(Lower("Ann"), Lower("ann co"));
    }
    if Includes("Co", "ann co") {
      ContainsNeedsRoom(Lower("Co"), Lower("ann co"));
    }
    if Includes("", "ann co") {
      ContainsNeedsRoom(Lower(""), Lower("ann co"));
    }
  }

  lemma UnfilteredKeepsAll(ls: seq<Lead>, term: string, status: Lists.Choice<LeadStatus>,
                           priority: Lists.Choice<LeadPriority>)
    ensures term == "" && status.All? && priority.All? ==> Lists.Filter(ls, Matcher(term, status, priority)) == ls
  {
    if term == "" && status.All? && priority.All? {
      forall i | 0 <= i < |ls| ensures Matcher(term, status, priority)(ls[i]) {
        IncludesEmpty(SearchText(ls[i]));
      }
      Lists.FilterKeepsAll(ls, Matcher(term, status, priority));
    }
  }

  /** `filtered`: the leads that pass the search and both selects, in list order. */
  function FilterLeads(ls: seq<Lead>, term: string, status: Lists.Choice<LeadStatus>,
                       priority: Lists.Choice<LeadPriority>): (r: seq<Lead>)
    ensures forall i :: 0 <= i < |r| ==> r[i] in ls && Matches(r[i], term, status, priority)
    ensures forall i :: 0 <= i < |ls| && Matches(ls[i], term, status, priority) ==> ls[i] in r
    ensures Lists.IsSubsequence(r, ls)
    ensures forall l :: multiset(r)[l] == if Matches(l, term, status, priority) then multiset(ls)[l] else 0
    ensures term == "" && status.All? && priority.All? ==> r == ls
  {
    var keep := Matcher(term, status, priority);
    Lists.FilterIsSubsequence(ls, keep);
    Lists.FilterCounts(ls, keep);
    UnfilteredKeepsAll(ls, term, status, priority);
    assert forall l :: keep(l) == Matches(l, term, status, priority);
    Lists.Filter(ls, keep)
  }

  // ------------------------------------------------------------------ create

  predicate CanCreate(d: LeadDraft) {
    d.name != ""
  }

  function NewLead(d: LeadDraft, id: string, now: string): Lead {
    Lead(id, d.name, d.company, d.email, None, d.status.GetOr(New), d.priority.GetOr(Medium),
         Some(d.value.GetOr(0)), d.source, now, d.nextStep)
  }

  /** The lead list after "Create Lead" with id `id` (`String(Date.now())`)
      at time `now` (`new Date().toISOString()`). */
  function SubmitLead(ls: seq<Lead>, d: LeadDraft, id: string, now: string): (r: seq<Lead>)
    ensures !CanCreate(d) ==> r == ls
    ensures CanCreate(d) ==>
      && |r| == |ls| + 1 && r[1..] == ls
      && r[0].id == id && r[0].name == d.name && r[0].createdAt == now
      && r[0].company == d.company && r[0].email == d.email && r[0].phone.None?
      && r[0].status == (if d.status.Some? then d.status.value else New)
      && r[0].priority == (if d.priority.Some? then d.priority.value else Medium)
      && r[0].value == Some(if d.value.Some? then d.value.value else 0)
      && r[0].source == d.source && r[0].nextStep == d.nextStep
  {
    if CanCreate(d) then [NewLead(d, id, now)] + ls else ls
  }

  /** After a create, the visible list is the new lead (when it passes the
      filters) in front of the list that was visible before. */
  lemma SubmitThenFilter(ls: seq<Lead>, d: LeadDraft, id: string, now: string, term: string,
                         status: Lists.Choice<LeadStatus>, priority: Lists.Choice<LeadPriority>)
    requires CanCreate(d)
    ensures var l := NewLead(d, id, now);
            FilterLeads(SubmitLead(ls, d, id, now), term, status, priority)
            == (if Matches(l, term, status, priority) then [l] else []) + FilterLeads(ls, term, status, priority)
  {
    Lists.FilterCons(NewLead(d, id, now), ls, Matcher(term, status, priority));
  }

  // --------------------------------------------------------------- the page

  class LeadsPage {
    var leadList: seq<Lead>
    var search: string
    var statusFilter: Lists.Choice<LeadStatus>
    var priorityFilter: Lists.Choice<LeadPriority>
    var isCreateOpen: bool
    var newLead: LeadDraft

    constructor ()
      ensures leadList == LeadsSeed && search == ""
      ensures statusFilter == Lists.All && priorityFilter == Lists.All
      ensures !isCreateOpen && newLead == BlankDraft
    {
      leadList := LeadsSeed;
      search := "";
      statusFilter := Lists.All;
      priorityFilter := Lists.All;
      isCreateOpen := false;
      newLead := BlankDraft;
    }

    /** What the table renders. */
    function Filtered(): seq<Lead>
      reads this
    {
      FilterLeads(leadList, search, statusFilter, priorityFilter)
    }

    method SetFilters(term: string, status: Lists.Choice<LeadStatus>, priority: Lists.Choice<LeadPriority>)
      modifies this
      ensures search == term && statusFilter == status && priorityFilter == priority
      ensures leadList == old(leadList) && isCreateOpen == old(isCreateOpen) && newLead == old(newLead)
    {
      search, statusFilter, priorityFilter := term, status, priority;
    }

    /** The form's field-by-field `setNewLead({ ...newLead, f: v })`. */
    method EditDraft(d: LeadDraft)
      modifies this
      ensures newLead == d
      ensures leadList == old(leadList) && isCreateOpen == old(isCreateOpen)
      ensures search == old(search) && statusFilter == old(statusFilter) && priorityFilter == old(priorityFilter)
    {
      newLead := d;
    }

    method OpenCreate()
      modifies this
      ensures isCreateOpen
      ensures leadList == old(leadList) && newLead == old(newLead)
      ensures search == old(search) && statusFilter == old(statusFilter) && priorityFilter == old(priorityFilter)
    {
      isCreateOpen := true;
    }

    /** The Cancel button and the modal backdrop: `setIsCreateOpen(false)`. */
    method CloseCreate()
      modifies this
      ensures !isCreateOpen
      ensures leadList == old(leadList) && newLead == old(newLead)
      ensures search == old(search) && statusFilter == old(statusFilter) && priorityFilter == old(priorityFilter)
    {
      isCreateOpen := false;
    }

    /** The "Create Lead" button. */
    method Create(id: string, now: string)
      modifies this
      ensures leadList == SubmitLead(old(leadList), old(newLead), id, now)
      ensures CanCreate(old(newLead)) ==> !isCreateOpen && newLead == BlankDraft
      ensures !CanCreate(old(newLead)) ==> isCreateOpen == old(isCreateOpen) && newLead == old(newLead)
      ensures search == old(search) && statusFilter == old(statusFilter) && priorityFilter == old(priorityFilter)
    {
      if !CanCreate(newLead) {
        return;
      }
      leadList := [NewLead(newLead, id, now)] + leadList;
      isCreateOpen := false;
      newLead := BlankDraft;
    }
  }
}
