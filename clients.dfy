/** The Clients page: a table over an in-memory client list with a search
    box, a status and a priority select, and an "Add Client" form that
    prepends a client whose id is one more than the largest id in use. */
module Clients {
  import opened Text
  import Lists

  datatype ClientStatus = Active | Prospect | Inactive

  datatype ClientPriority = High | Medium | Low

  datatype Client = Client(
    id: int,
    name: string,
    company: string,
    email: string,
    phone: string,
    status: ClientStatus,
    priority: ClientPriority,
    lastContact: string,
    totalProjects: int,
    totalRevenue: int,
    tags: seq<string>)

  /** The "Add Client" form. */
  datatype ClientDraft = ClientDraft(
    name: string,
    company: string,
    email: string,
    phone: string,
    status: ClientStatus,
    priority: ClientPriority)

  const InitialClients: seq<Client> := [
    Client(1, "Sarah Johnson", "TechCorp Solutions", "sarah@techcorp.com", "+1 (555) 123-4567",
           Active, High, "2024-01-15", 3, 15000, ["Technology", "Enterprise"]),
    Client(2, "Mike Chen", "Design Studio Pro", "mike@designstudio.com", "+1 (555) 234-5678",
           Active, Medium, "2024-01-10", 2, 8500, ["Design", "Creative"]),
    Client(3, "Emma Rodriguez", "Marketing Masters", "emma@marketingmasters.com", "+1 (555) 345-6789",
           Prospect, High, "2024-01-12", 0, 0, ["Marketing", "Startup"]),
    Client(4, "David Wilson", "Consulting Group", "david@consultinggroup.com", "+1 (555) 456-7890",
           Inactive, Low, "2023-12-20", 1, 5000, ["Consulting", "B2B"]),
    Client(5, "Lisa Thompson", "E-commerce Plus", "lisa@ecommerceplus.com", "+1 (555) 567-8901",
           Active, Medium, "2024-01-08", 4, 22000, ["E-commerce", "Retail"])
  ]

  /** The form's initial and reset value. */
  const BlankDraft: ClientDraft := ClientDraft("", "", "", "", Active, Medium)

  // ---------------------------------------------------------------- filter

  predicate SearchMatches(c: Client, term: string) {
    Includes(c.name, term) || Includes(c.company, term) || Includes(c.email, term)
  }

  /** The `filteredClients` predicate: search, status select and priority select together. */
  predicate Matches(c: Client, term: string, status: Lists.Choice<ClientStatus>,
                    priority: Lists.Choice<ClientPriority>) {
    SearchMatches(c, term) && Lists.Admits(status, c.status) && Lists.Admits(priority, c.priority)
  }

  function Matcher(term: string, status: Lists.Choice<ClientStatus>,
                   priority: Lists.Choice<ClientPriority>): Client -> bool {
    (c: Client) => Matches(c, term, status, priority)
  }

  lemma UnfilteredKeepsAll(cs: seq<Client>, term: string, status: Lists.Choice<ClientStatus>,
                           priority: Lists.Choice<ClientPriority>)
    ensures term == "" && status.All? && priority.All? ==> Lists.Filter(cs, Matcher(term, status, priority)) == cs
  {
    if term == "" && status.All? && priority.All? {
      forall i | 0 <= i < |cs| ensures Matcher(term, status, priority)(cs[i]) {
        IncludesEmpty(cs[i].name);
      }
      Lists.FilterKeepsAll(cs, Matcher(term, status, priority));
    }
  }

  /** `filteredClients`: the clients that pass all three filters, in list order. */
  function FilterClients(cs: seq<Client>, term: string, status: Lists.Choice<ClientStatus>,
                         priority: Lists.Choice<ClientPriority>): (r: seq<Client>)
    ensures forall i :: 0 <= i < |r| ==> r[i] in cs && Matches(r[i], term, status, priority)
    ensures forall i :: 0 <= i < |cs| && Matches(cs[i], term, status, priority) ==> cs[i] in r
    ensures Lists.IsSubsequence(r, cs)
    ensures forall c :: multiset(r)[c] == if Matches(c, term, status, priority) then multiset(cs)[c] else 0
    ensures term == "" && status.All? && priority.All? ==> r == cs
  {
    var keep := Matcher(term, status, priority);
    Lists.FilterIsSubsequence(cs, keep);
    Lists.FilterCounts(cs, keep);
    UnfilteredKeepsAll(cs, term, status, priority);
    assert forall c :: keep(c) == Matches(c, term, status, priority);
    Lists.Filter(cs, keep)
  }

  // -------------------------------------------------------------------- ids

  /** `Math.max(...clientList.map(c => c.id))` on a non-empty list. */
  function MaxId(cs: seq<Client>): (m: int)
    requires |cs| > 0
    ensures forall i :: 0 <= i < |cs| ==> cs[i].id <= m
    ensures exists i :: 0 <= i < |cs| && cs[i].id == m
  {
    if |cs| == 1 then cs[0].id
    else
      var rest := MaxId(cs[1..]);
      assert forall i :: 1 <= i < |cs| ==> cs[i] == cs[1..][i - 1];
      if cs[0].id < rest then rest else cs[0].id
  }

  /** The id the next client gets: larger than every id in use, hence fresh. */
  function NextId(cs: seq<Client>): (id: int)
    requires |cs| > 0
    ensures forall i :: 0 <= i < |cs| ==> cs[i].id < id
    ensures exists i :: 0 <= i < |cs| && cs[i].id == id - 1
  {
    MaxId(cs) + 1
  }

  /** No two clients of the list share an id. */
  predicate DistinctIds(cs: seq<Client>) {
    forall i, j :: 0 <= i < j < |cs| ==> cs[i].id != cs[j].id
  }

  // ------------------------------------------------------------------ create

  predicate CanAdd(d: ClientDraft) {
    d.name != ""
  }

  function NewClient(d: ClientDraft, id: int, today: string): Client {
    Client(id, d.name, d.company, d.email, d.phone, d.status, d.priority, today, 0, 0, [])
  }

  /** The client list after "Add Client"; `today` is the clock's date. */
  function SubmitClient(cs: seq<Client>, d: ClientDraft, today: string): (r: seq<Client>)
    requires |cs| > 0
    ensures !CanAdd(d) ==> r == cs
    ensures CanAdd(d) ==>
      && |r| == |cs| + 1 && r[1..] == cs
      && r[0].id == NextId(cs) && (forall i :: 0 <= i < |cs| ==> cs[i].id < r[0].id)
      && r[0].name == d.name && r[0].company == d.company && r[0].email == d.email
      && r[0].phone == d.phone && r[0].status == d.status && r[0].priority == d.priority
      && r[0].lastContact == today
      && r[0].totalProjects == 0 && r[0].totalRevenue == 0 && r[0].tags == []
  {
    if CanAdd(d) then [NewClient(d, NextId(cs), today)] + cs else cs
  }

  /** Adding a client never creates a duplicate id. */
  lemma {:induction false} SubmitKeepsIdsDistinct(cs: seq<Client>, d: ClientDraft, today: string)
    requires |cs| > 0 && DistinctIds(cs)
    ensures var r := SubmitClient(cs, d, today);
            |r| > 0 && DistinctIds(r)
  {
    var r := SubmitClient(cs, d, today);
    if CanAdd(d) {
      forall i, j | 0 <= i < j < |r| ensures r[i].id != r[j].id {
        if i == 0 {
          assert r[j] == cs[j - 1];
        } else {
          assert r[i] == cs[i - 1] && r[j] == cs[j - 1];
        }
      }
    }
  }

  // --------------------------------------------------------------- the page

  class ClientsPage {
    var clientList: seq<Client>
    var searchTerm: string
    var statusFilter: Lists.Choice<ClientStatus>
    var priorityFilter: Lists.Choice<ClientPriority>
    var isCreateOpen: bool
    var newClient: ClientDraft

    /** The list is never empty (it starts with the seeds and nothing deletes),
        so `Math.max` always has an argument, and ids stay distinct. */
    predicate Valid()
      reads this
    {
      |clientList| > 0 && DistinctIds(clientList)
    }

    constructor ()
      ensures Valid()
      ensures clientList == InitialClients && searchTerm == ""
      ensures statusFilter == Lists.All && priorityFilter == Lists.All
      ensures !isCreateOpen && newClient == BlankDraft
    {
      clientList := InitialClients;
      searchTerm := "";
      statusFilter := Lists.All;
      priorityFilter := Lists.All;
      isCreateOpen := false;
      newClient := BlankDraft;
    }

    /** What the table renders. */
    function FilteredClients(): seq<Client>
      reads this
    {
      FilterClients(clientList, searchTerm, statusFilter, priorityFilter)
    }

    method SetFilters(term: string, status: Lists.Choice<ClientStatus>, priority: Lists.Choice<ClientPriority>)
      modifies this
      ensures searchTerm == term && statusFilter == status && priorityFilter == priority
      ensures clientList == old(clientList) && isCreateOpen == old(isCreateOpen) && newClient == old(newClient)
    {
      searchTerm, statusFilter, priorityFilter := term, status, priority;
    }

    /** The form's field-by-field `setNewClient({ ...newClient, f: v })`. */
    method EditDraft(d: ClientDraft)
      modifies this
      ensures newClient == d
      ensures clientList == old(clientList) && isCreateOpen == old(isCreateOpen)
      ensures searchTerm == old(searchTerm) && statusFilter == old(statusFilter) && priorityFilter == old(priorityFilter)
    {
      newClient := d;
    }

    method OpenCreate()
      modifies this
      ensures isCreateOpen
      ensures clientList == old(clientList) && newClient == old(newClient)
      ensures searchTerm == old(searchTerm) && statusFilter == old(statusFilter) && priorityFilter == old(priorityFilter)
    {
      isCreateOpen := true;
    }

    /** The Cancel button and the modal backdrop: `setIsCreateOpen(false)`. */
    method CloseCreate()
      modifies this
      ensures !isCreateOpen
      ensures clientList == old(clientList) && newClient == old(newClient)
      ensures searchTerm == old(searchTerm) && statusFilter == old(statusFilter) && priorityFilter == old(priorityFilter)
    {
      isCreateOpen := false;
    }

    /** The "Add Client" button; `today` is `new Date().toISOString().slice(0,10)`. */
    method Add(today: string)
      requires Valid()
      modifies this
      ensures Valid()
      ensures clientList == SubmitClient(old(clientList), old(newClient), today)
      ensures CanAdd(old(newClient)) ==> !isCreateOpen && newClient == BlankDraft
      ensures !CanAdd(old(newClient)) ==> isCreateOpen == old(isCreateOpen) && newClient == old(newClient)
      ensures searchTerm == old(searchTerm) && statusFilter == old(statusFilter) && priorityFilter == old(priorityFilter)
    {
      SubmitKeepsIdsDistinct(clientList, newClient, today);
      if !CanAdd(newClient) {
        return;
      }
      var created := NewClient(newClient, NextId(clientList), today);
      clientList := [created] + clientList;
      isCreateOpen := false;
      newClient := BlankDraft;
    }
  }
}
