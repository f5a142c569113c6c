# WorkOrbit dashboard lists, modelled in Dafny

WorkOrbit is a CRM for freelancers written in Next.js. Each dashboard page keeps the same kind of client-side state:
- an in-memory list seeded with demo records;
- a draft record behind a "create" form;
- a few filter values (a search box and one or two select boxes).

This project models those states and the handlers that change them. It covers the Projects (Kanban board), Clients, Leads, Invoices, Communications and Calendar pages. It proves what the handlers promise about the lists:
- what a search keeps;
- where a dragged card lands;
- what a create adds;
- which month a calendar step reaches.

Layout, one module per file:

- `wrappers.dfy` (`Wrappers`): `Option`, for the optional fields of the records and drafts. `GetOr` is the `||`/`??` default.
- `lists.dfy` (`Lists`): the array operations the pages use.
  - `Filter` is `Array.prototype.filter`.
  - `RemoveAt` and `InsertAt` are `splice`.
  - `Choice` is a select box whose value is `'all'`/`'ALL'` or one enumeration value.
  - `IsSubsequence` states that order is preserved.
- `text.dfy` (`Text`): the search helpers.
  - `Lower` is `toLowerCase`, on ASCII letters.
  - `Contains` is `includes`.
  - `Join` is `join(' ')`.
  - `StrLe` is the string order used by the calendar sort.
- One module per page: `projects.dfy`, `clients.dfy`, `leads.dfy`, `invoices.dfy`, `communications.dfy`, `calendar.dfy`.

Each page module contains:
- its records, as datatypes;
- its seeds, as constants;
- a pure function for each derived list or handler result (`FilterProjects`, `GroupByStatus`, `Reinsert`, `SubmitClient`, `MonthEvents`, `ShiftMonth`, ...), with the lemmas about it;
- a class for the page's React state.

Each class has one field per modelled `useState` and one method per modelled handler. Each method's `ensures` ties the new state to the pure function. The in-place update of `projects`, `clientList` and the other lists is therefore a reassignment of a `seq` field.

Two behaviours of the pages are worth stating up front:
- **Search on three pages.** The Leads, Invoices and Communications searches run over the fields joined with spaces, so a term can match across a field boundary (`Leads.TermSpansFields`).
- **Kanban drag.** A drag moves whichever project sits at the column index in the whole array; see "## Findings".

## Model

| member | source | states |
|---|---|---|
| Projects.FilterProjects | src/app/dashboard/projects/page.tsx:164-168 | a project is kept iff the lower-cased term occurs in its lower-cased title, client or description; each kept project occurs as often as in the list and the result keeps the list order; an empty search keeps every project |
| Projects.EmptySearchKeepsAll | src/app/dashboard/projects/page.tsx:164-168 | with the empty search term every project passes the filter |
| Projects.GroupByStatus | src/app/dashboard/projects/page.tsx:170-176 | the bucket of each status holds exactly the grouped projects of that status, in their order; no bucket is empty |
| Projects.GroupKeys | src/app/dashboard/projects/page.tsx:170-176 | a status has a bucket iff some grouped project has that status |
| Projects.BucketSizesSum | src/app/dashboard/projects/page.tsx:170-176 | the five column counts add up to the number of grouped projects |
| Projects.Reinsert | src/app/dashboard/projects/page.tsx:182-187 | after a drag, the length and the multiset of ids are unchanged; the dragged project is at `min(destination.index, n-1)` with the destination status; removing it from the new array gives the old array without it, so all other projects keep their fields and relative order |
| Projects.ProjectsPage.HandleDragEnd | src/app/dashboard/projects/page.tsx:178-188 | no destination: nothing changes; a source index past the end: nothing changes, because the handler throws; otherwise `projects` becomes `Reinsert` of the old array |
| Projects.SubmitProject | src/app/dashboard/projects/page.tsx:515-530 | an empty title or client leaves the list unchanged; otherwise one project is prepended with the given id, empty team and tags, status, priority, progress and budget taken from the draft or defaulted to planning, medium, 0 and 0, and a start date and deadline taken from the draft or, when empty, set to today; the old list is the tail |
| Projects.SubmitThenFilter | src/app/dashboard/projects/page.tsx:530 | after a create, the searched list is the new project (if the search finds it) in front of the previously searched list |
| Projects.ProjectsPage.Create | src/app/dashboard/projects/page.tsx:514-533 | the list becomes `SubmitProject`; on success the form closes and the draft resets to the blank draft; on rejection the draft and the form are untouched |
| Projects.ProjectsPage.constructor | src/app/dashboard/projects/page.tsx:146-162 | the page starts with the five seed projects, an empty search, the form closed and the blank draft |
| Projects.ProjectsPage.SetSearchTerm | src/app/dashboard/projects/page.tsx:299 | only the search term changes |
| Projects.ProjectsPage.EditDraft | src/app/dashboard/projects/page.tsx:461 | only the draft changes |
| Projects.ProjectsPage.OpenCreate | src/app/dashboard/projects/page.tsx:281 | only the form's open flag changes |
| Projects.ProjectsPage.CloseCreate | src/app/dashboard/projects/page.tsx:452 | only the form's open flag is cleared; the draft keeps what was typed |
| Projects.CardIndex | src/app/dashboard/projects/page.tsx:341-342 | the array position of the card the board shows at a column position is a valid index and holds that card |
| Projects.MoveCardLands | src/app/dashboard/projects/page.tsx:341-342 | the corrected move keeps the length and the multiset of ids, and the grabbed card appears in the target column at the drop position (or last), with the target column's other cards in their order |
| Projects.DragMovesWrongCard | src/app/dashboard/projects/page.tsx:182-185 | with no search, if the first card of a column is not the array's first project, dragging that card moves array position 0, which is a different project |
| Projects.FirstCardOfColumn | src/app/dashboard/projects/page.tsx:164-180 | with no search, the first card of a column is the first project of the array that has that status |
| Projects.SeedBoardDragsWrongCard | src/app/dashboard/projects/page.tsx:37-98 | the seeded board satisfies the premises of `DragMovesWrongCard` for the "Completed" column: its only card is project 3, while project 1 sits at index 0 |
| Clients.FilterClients | src/app/dashboard/clients/page.tsx:115-123 | a client passes iff the search finds the term in name, company or email and both selects are `'all'` or equal to its status or priority; each passing client occurs as often as in the list, in list order; with no filters the list is returned whole |
| Clients.UnfilteredKeepsAll | src/app/dashboard/clients/page.tsx:115-123 | an empty search with both selects on `'all'` keeps every client |
| Clients.MaxId | src/app/dashboard/clients/page.tsx:234 | `Math.max` over the ids is an upper bound of every id and is one of them |
| Clients.NextId | src/app/dashboard/clients/page.tsx:234 | the new id is larger than every id in the list, so it is fresh |
| Clients.SubmitClient | src/app/dashboard/clients/page.tsx:232-246 | an empty name leaves the list unchanged; otherwise one client is prepended with id `NextId` (the largest id plus one, so above every id in use), the draft's fields, 0 projects, 0 revenue and no tags; the old list is the tail |
| Clients.SubmitKeepsIdsDistinct | src/app/dashboard/clients/page.tsx:234 | adding a client keeps the ids pairwise distinct |
| Clients.ClientsPage.constructor | src/app/dashboard/clients/page.tsx:100-113 | the page starts with the five seed clients, no filters, the form closed and the blank draft, and the list is non-empty with distinct ids |
| Clients.ClientsPage.SetFilters | src/app/dashboard/clients/page.tsx:150-168 | only the search term and the two selects change |
| Clients.ClientsPage.EditDraft | src/app/dashboard/clients/page.tsx:192-220 | only the draft changes |
| Clients.ClientsPage.OpenCreate | src/app/dashboard/clients/page.tsx:133 | only the form's open flag changes |
| Clients.ClientsPage.CloseCreate | src/app/dashboard/clients/page.tsx:186 | only the form's open flag is cleared; the draft keeps what was typed |
| Clients.ClientsPage.Add | src/app/dashboard/clients/page.tsx:231-249 | the list becomes `SubmitClient` and stays non-empty with distinct ids; on success the form closes and the draft resets to empty strings with status active and priority medium |
| Text.IncludesPartOfJoin | src/app/dashboard/leads/page.tsx:66-69 | a term found in one part of a space-joined string is found in the joined string |
| Leads.FieldMatchIsFound | src/app/dashboard/leads/page.tsx:66-69 | a term found in the name, the company or the email is found by the joined search |
| Leads.TermSpansFields | src/app/dashboard/leads/page.tsx:66-69 | the converse fails: "ann co" finds the lead "Ann" of company "Co" though no single field contains it |
| Leads.FilterLeads | src/app/dashboard/leads/page.tsx:64-74 | a lead passes iff the joined search finds the term and both selects are `'ALL'` or equal; each passing lead occurs as often as in the list, in list order; with no filters the list is returned whole |
| Leads.UnfilteredKeepsAll | src/app/dashboard/leads/page.tsx:64-74 | an empty search with both selects on `'ALL'` keeps every lead |
| Leads.SubmitLead | src/app/dashboard/leads/page.tsx:236-249 | an empty name leaves the list unchanged; otherwise one lead is prepended with status defaulting to NEW, priority to MEDIUM, value to 0, no phone, and the draft's company, email, source and next step; the old list is the tail |
| Leads.SubmitThenFilter | src/app/dashboard/leads/page.tsx:249 | after a create, the filtered list is the new lead (if it passes) in front of the previously filtered list |
| Leads.LeadsPage.constructor | src/app/dashboard/leads/page.tsx:47-62 | the page starts with the four seed leads, no filters, the form closed and the blank draft |
| Leads.LeadsPage.SetFilters | src/app/dashboard/leads/page.tsx:96-117 | only the search and the two selects change |
| Leads.LeadsPage.EditDraft | src/app/dashboard/leads/page.tsx:190-230 | only the draft changes |
| Leads.LeadsPage.OpenCreate | src/app/dashboard/leads/page.tsx:83 | only the form's open flag changes |
| Leads.LeadsPage.CloseCreate | src/app/dashboard/leads/page.tsx:184 | only the form's open flag is cleared; the draft keeps what was typed |
| Leads.LeadsPage.Create | src/app/dashboard/leads/page.tsx:235-252 | the list becomes `SubmitLead`; on success the form closes and the draft resets to status NEW, priority MEDIUM, value 0 and source Website |
| Invoices.SeedsConsistent | src/app/dashboard/invoices/page.tsx:31-35 | every seed invoice has total = amount + tax |
| Invoices.FieldMatchIsFound | src/app/dashboard/invoices/page.tsx:56-59 | a term found in the number, the title or the client is found by the joined search |
| Invoices.FilterInvoices | src/app/dashboard/invoices/page.tsx:54-63 | an invoice passes iff the joined search over number, title and client finds the term and the select is `'ALL'` or equal; each passing invoice occurs as often as in the list, in list order; with no filters the list is returned whole |
| Invoices.UnfilteredKeepsAll | src/app/dashboard/invoices/page.tsx:54-63 | an empty search with the select on `'ALL'` keeps every invoice |
| Invoices.WithAmount | src/app/dashboard/invoices/page.tsx:179-182 | editing the amount leaves total = amount + tax and changes nothing but the amount and the total |
| Invoices.WithTax | src/app/dashboard/invoices/page.tsx:186-189 | editing the tax leaves total = amount + tax and changes nothing but the tax and the total |
| Invoices.WithTotal | src/app/dashboard/invoices/page.tsx:193 | editing the total changes only the total, and the draft stays consistent iff the typed total is amount + tax |
| Invoices.SubmitInvoice | src/app/dashboard/invoices/page.tsx:204-217 | a missing number, title or client leaves the list unchanged; otherwise one invoice is prepended with no sent date, status defaulting to DRAFT, amounts defaulting to 0 and the due date defaulting to today; it adds up iff the draft did; the old list is the tail |
| Invoices.SubmitAllowsDuplicateNumber | src/app/dashboard/invoices/page.tsx:204-217 | a create with an invoice number already in the list succeeds, leaving two invoices with that number |
| Invoices.EditsThenCreateConsistent | src/app/dashboard/invoices/page.tsx:179-217 | a draft filled through the amount and tax inputs creates an invoice whose total adds up |
| Invoices.InvoicesPage.constructor | src/app/dashboard/invoices/page.tsx:39-53 | the page starts with the five seed invoices, no filters, the form closed and the blank draft |
| Invoices.InvoicesPage.SetFilters | src/app/dashboard/invoices/page.tsx:85-92 | only the search and the select change |
| Invoices.InvoicesPage.OpenCreate | src/app/dashboard/invoices/page.tsx:72 | only the form's open flag changes |
| Invoices.InvoicesPage.CloseCreate | src/app/dashboard/invoices/page.tsx:160 | only the form's open flag is cleared; the draft keeps what was typed |
| Invoices.InvoicesPage.EditText | src/app/dashboard/invoices/page.tsx:166-198 | only the number, title, client and due date of the draft change |
| Invoices.InvoicesPage.EditAmount | src/app/dashboard/invoices/page.tsx:179-182 | the draft becomes `WithAmount` and adds up |
| Invoices.InvoicesPage.EditTax | src/app/dashboard/invoices/page.tsx:186-189 | the draft becomes `WithTax` and adds up |
| Invoices.InvoicesPage.EditTotal | src/app/dashboard/invoices/page.tsx:193 | the draft becomes `WithTotal` |
| Invoices.InvoicesPage.Create | src/app/dashboard/invoices/page.tsx:203-220 | the list becomes `SubmitInvoice`; on success the form closes and the draft resets to the blank draft |
| Communications.FieldMatchIsFound | src/app/dashboard/communications/page.tsx:43 | a term found in the subject or the client is found by the joined search |
| Communications.FilterCommunications | src/app/dashboard/communications/page.tsx:41-47 | an entry passes iff the search over subject and client joined finds the term and the type select is `'ALL'` or equal; each passing entry occurs as often as in the list, in list order; with no filters the list is returned whole |
| Communications.UnfilteredKeepsAll | src/app/dashboard/communications/page.tsx:41-47 | an empty search with the select on `'ALL'` keeps every entry |
| Communications.SubmitCommunication | src/app/dashboard/communications/page.tsx:161-172 | a missing client or subject leaves the list unchanged; otherwise one entry is prepended with type, direction and status defaulting to EMAIL, OUTBOUND and DRAFT, the time defaulting to now and the draft's notes; the old list is the tail |
| Communications.SubmitThenFilter | src/app/dashboard/communications/page.tsx:172 | after a log, the filtered list is the new entry (if it passes) in front of the previously filtered list |
| Communications.CommunicationsPage.constructor | src/app/dashboard/communications/page.tsx:35-39 | the page starts with the four seed entries, no filters, the form closed and the blank form |
| Communications.CommunicationsPage.SetFilters | src/app/dashboard/communications/page.tsx:69-76 | only the search and the type select change |
| Communications.CommunicationsPage.EditForm | src/app/dashboard/communications/page.tsx:126-155 | only the form changes |
| Communications.CommunicationsPage.OpenCreate | src/app/dashboard/communications/page.tsx:56 | only the form's open flag changes |
| Communications.CommunicationsPage.CloseCreate | src/app/dashboard/communications/page.tsx:119 | only the form's open flag is cleared; the form keeps what was typed |
| Communications.CommunicationsPage.Log | src/app/dashboard/communications/page.tsx:160-175 | the list becomes `SubmitCommunication`; on success the form closes and resets to EMAIL, OUTBOUND, DRAFT with empty subject and client and no notes |
| Calendar.ParseDate | src/app/dashboard/calendar/page.tsx:33-34 | a date read as a month yields a month number 0..11 and a four-digit year |
| Calendar.ParseFormattedDate | src/app/dashboard/calendar/page.tsx:33-34 | reading `YYYY-MM-DD` gives back its year and its month counted from 0 |
| Calendar.EventLeTotal | src/app/dashboard/calendar/page.tsx:35 | any two events are ordered one way or the other by date, then time |
| Calendar.EventLeTransitive | src/app/dashboard/calendar/page.tsx:35 | the date-then-time order is transitive |
| Calendar.Insert | src/app/dashboard/calendar/page.tsx:35 | inserting into a sorted list gives a sorted list with exactly one more occurrence of the event |
| Calendar.SortEvents | src/app/dashboard/calendar/page.tsx:35 | the sort's result is in date-then-time order and a permutation of its input |
| Calendar.SortSorted | src/app/dashboard/calendar/page.tsx:35 | a list already in order is left as it is |
| Calendar.MonthEvents | src/app/dashboard/calendar/page.tsx:29-36 | an event is listed iff it is dated in the current month; the result is a permutation of the events selected from the list, and is sorted by date then time |
| Calendar.EmptyMonth | src/app/dashboard/calendar/page.tsx:29-36 | a month in which no event is dated lists nothing |
| Calendar.WholeMonthInOrder | src/app/dashboard/calendar/page.tsx:29-36 | when every event is in the month and already in order, the month lists them all as they are |
| Calendar.SeedInFebruary | src/app/dashboard/calendar/page.tsx:15-20 | every seeded event is dated in February 2024 |
| Calendar.SeedSorted | src/app/dashboard/calendar/page.tsx:15-20 | the seeds are in date order |
| Calendar.SeedFebruaryListsAll | src/app/dashboard/calendar/page.tsx:29-36 | paged to February 2024, the page lists the four seeds in their order |
| Calendar.ShiftMonth | src/app/dashboard/calendar/page.tsx:38-41 | stepping by `delta` months gives a month number 0..11 and moves the count `year*12 + month` by exactly `delta` |
| Calendar.ShiftMonthInverse | src/app/dashboard/calendar/page.tsx:38-41 | stepping forward and back by the same count returns to the start month |
| Calendar.ShiftMonthCompose | src/app/dashboard/calendar/page.tsx:38-41 | two steps are one step by their sum |
| Calendar.YearCarry | src/app/dashboard/calendar/page.tsx:38-41 | December + 1 is January of the next year, and January - 1 is December of the previous year |
| Calendar.CalendarPage.constructor | src/app/dashboard/calendar/page.tsx:27 | the page starts at the clock's month |
| Calendar.CalendarPage.ChangeMonth | src/app/dashboard/calendar/page.tsx:38-42 | the current month becomes `ShiftMonth` of the old one and stays a valid month |

## Left out

- Rendering is not modelled. This covers the JSX markup, CSS classes, icons, modals and the Kanban/list view toggle. The Projects page's "All Clients" select and "More Filters" button change no state.
- The drag-and-drop library is not modelled. Only the `result` record it passes to `handleDragEnd` is: a source column and index, and an optional destination column and index.
- The clock is not modelled. `Date.now()` ids and the `new Date()` dates and times are method parameters.
- `prisma/seed.ts`, `src/app/page.tsx`, `src/app/dashboard/page.tsx`, `src/app/layout.tsx` and `src/components/providers/QueryProvider.tsx` are not part of this model. They hold database seeding, static pages and third-party configuration.
- Projects.ProjectsPage.HandleDragEnd: the source writes the new status into the moved object in place. That object is shared with the previous `projects` array and, on a drag from the initial state, with the module-level `initialProjects` (src/app/dashboard/projects/page.tsx:37, 146), so the write also changes the seeds a remount of the page starts from. The model builds a new record instead, so neither change is captured.
- View-only state is left out: the Projects page's `viewMode` (src/app/dashboard/projects/page.tsx:148) and the Clients page's `selectedClient` (src/app/dashboard/clients/page.tsx:103, toggled at line 354) have no field, since no modelled list or filter depends on them.
- Projects.ProjectsPage.EditDraft, Clients.ClientsPage.EditDraft, Leads.LeadsPage.EditDraft and Communications.CommunicationsPage.EditForm: the field-by-field `onChange` handlers of each form are collapsed into one replacement of the draft. The invoice amount, tax and total inputs are modelled one by one, because they recompute the total.
- Text.Lower: `toLowerCase` is modelled on ASCII letters only. Other characters are left unchanged.
- Text.StrLe: `localeCompare` is modelled as lexicographic order on characters. That matches it on the digit-and-dash date and time strings the calendar sorts, but not on locale rules in general.
- Money is modelled as integers. `Number(e.target.value)` can produce fractions, and NaN, which `|| 0` turns into 0.
- Clients.MaxId, Clients.NextId, Clients.SubmitClient: these require a non-empty list. On an empty list `Math.max()` is `-Infinity`, which this model does not represent. The case cannot arise on the page: the list starts with five clients and nothing deletes, which `Clients.ClientsPage.Valid` keeps.
- Calendar.ParseDate: only the `YYYY-MM-DD` form is read. The day is checked to be in 1..31 but not against the length of the month. The date is read as a calendar date, without the shift that the UTC parse followed by the local `getMonth` causes in time zones west of UTC.
- Calendar.ShiftMonth: only the year and the month of `currentMonth` are modelled. JavaScript's `setMonth` keeps the day of the month, so on the 29th–31st it can spill into the following month; that overflow is not modelled.
- Calendar.SortEvents: the sort inserts each event after the events equal to it, as the stable `Array.prototype.sort` does. Stability is not stated as a contract.

## Findings

| source | as written | input that shows it | evidently intended | confidence | as-written member | corrected member |
|---|---|---|---|---|---|---|
| src/app/dashboard/projects/page.tsx:182-185 | `handleDragEnd` splices the whole `projects` array at `source.index` and `destination.index`. The board hands these out as positions inside one searched, grouped column (lines 341-342). | The seeded board with no search: drag the only card of "Completed" (project 3, column position 0). Array position 0 is moved instead: project 1 ("Website Redesign") gets the target status, and project 3 stays where it is. | The grabbed card moves to the drop position of the target column. Both positions are first turned into positions of the whole array. | high; not executed | Projects.DragMovesWrongCard | Projects.MoveCardLands |

The page class `Projects.ProjectsPage` keeps the behaviour as written: `HandleDragEnd` uses `Projects.Reinsert` with the column positions. The corrected move is:
- `Projects.CardIndex` turns a column position into the card's array position;
- `Projects.MoveCard` moves the card, using `Lists.NthIndex` for the drop position;
- `Projects.MoveCardLands` proves that the card lands in the target column at the drop position.
