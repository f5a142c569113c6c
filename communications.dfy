/** The Communications page: a timeline over an in-memory list of emails,
    calls, meetings and messages, filtered by one search box run over the
    subject and client joined into a single string and by a type select; a
    "Log Communication" form prepends an entry. */
module Communications {
  import opened Wrappers
  import opened Text
  import Lists

  datatype CommunicationType = Email | Call | Meeting | Message

  datatype Direction = Inbound | Outbound

  datatype CommunicationStatus = Draft | Scheduled | Sent | Delivered | Read | Failed

  /** `CommunicationRow`; its `type` field is named `kind` here. */
  datatype Communication = Communication(
    id: string,
    kind: CommunicationType,
    subject: string,
    client: string,
    direction: Direction,
    status: CommunicationStatus,
    time: string,
    notes: Option<string>)

  /** The log form's `Partial<CommunicationRow>`; an undefined string is "". */
  datatype CommunicationDraft = CommunicationDraft(
    kind: Option<CommunicationType>,
    direction: Option<Direction>,
    status: Option<CommunicationStatus>,
    subject: string,
    client: string,
    time: string,
    notes: Option<string>)

  const CommunicationsSeed: seq<Communication> := [
    Communication("1", Email, "Project Update - Website Redesign", "TechCorp Solutions", Outbound, Sent,
                  "2024-01-18T10:00:00Z", Some("Client happy with progress")),
    Communication("2", Call, "Kickoff Call - Mobile App", "E-commerce Plus", Inbound, Sent,
                  "2024-01-15T14:30:00Z", Some("Need proposal by end of week")),
    Communication("3", Meeting, "Roadmap Planning", "Marketing Masters", Outbound, Scheduled,
                  "2024-02-10T09:00:00Z", None),
    Communication("4", Message, "Design Feedback", "Design Studio Pro", Inbound, Read,
                  "2024-02-05T12:15:00Z", None)
  ]

  /** The form's initial and reset value; `now` is the clock's time. The
      reset leaves the notes undefined. */
  function BlankForm(now: string): CommunicationDraft {
    CommunicationDraft(Some(Email), Some(Outbound), Some(Draft), "", "", now, None)
  }

  // ---------------------------------------------------------------- filter

  /** `[subject, client].join(' ')` */
  function SearchText(c: Communication): string {
    Join([c.subject, c.client])
  }

  predicate Matches(c: Communication, term: string, kind: Lists.Choice<CommunicationType>) {
    Includes(SearchText(c), term) && Lists.Admits(kind, c.kind)
  }

  function Matcher(term: string, kind: Lists.Choice<CommunicationType>): Communication -> bool {
    (c: Communication) => Matches(c, term, kind)
  }

  /** A term found in the subject or the client is found by the search. */
  lemma FieldMatchIsFound(c: Communication, term: string)
    requires Includes(c.subject, term) || Includes(c.client, term)
    ensures Includes(SearchText(c), term)
  {
    if Includes(c.subject, term) {
      IncludesPartOfJoin([c.subject, c.client], 0, term);
    } else {
      IncludesPartOfJoin([c.subject, c.client], 1, term);
    }
  }

  lemma UnfilteredKeepsAll(cs: seq<Communication>, term: string, kind: Lists.Choice<CommunicationType>)
    ensures term == "" && kind.All? ==> Lists.Filter(cs, Matcher(term, kind)) == cs
  {
    if term == "" && kind.All? {
      forall i | 0 <= i < |cs| ensures Matcher(term, kind)(cs[i]) {
        IncludesEmpty(SearchText(cs[i]));
      }
      Lists.FilterKeepsAll(cs, Matcher(term, kind));
    }
  }

  /** `filtered`: the entries that pass the search and the type select, in list order. */
  function FilterCommunications(cs: seq<Communication>, term: string,
                                kind: Lists.Choice<CommunicationType>): (r: seq<Communication>)
    ensures forall i :: 0 <= i < |r| ==> r[i] in cs && Matches(r[i], term, kind)
    ensures forall i :: 0 <= i < |cs| && Matches(cs[i], term, kind) ==> cs[i] in r
    ensures Lists.IsSubsequence(r, cs)
    ensures forall c :: multiset(r)[c] == if Matches(c, term, kind) then multiset(cs)[c] else 0
    ensures term == "" && kind.All? ==> r == cs
  {
    var keep := Matcher(term, kind);
    Lists.FilterIsSubsequence(cs, keep);
    Lists.FilterCounts(cs, keep);
    UnfilteredKeepsAll(cs, term, kind);
    assert forall c :: keep(c) == Matches(c, term, kind);
    Lists.Filter(cs, keep)
  }

  // --------------------------------------------------------------------- log

  predicate CanLog(f: CommunicationDraft) {
    f.client != "" && f.subject != ""
  }

  function NewCommunication(f: CommunicationDraft, id: string, now: string): Communication {
    Communication(id, f.kind.GetOr(Email), f.subject, f.client, f.direction.GetOr(Outbound),
                  f.status.GetOr(Draft), if f.time != "" then f.time else now, f.notes)
  }

  /** The list after "Log" with id `id` (`String(Date.now())`) at time `now`. */
  function SubmitCommunication(cs: seq<Communication>, f: CommunicationDraft, id: string, now: string)
    : (r: seq<Communication>)
    ensures !CanLog(f) ==> r == cs
    ensures CanLog(f) ==>
      && |r| == |cs| + 1 && r[1..] == cs
      && r[0].id == id && r[0].subject == f.subject && r[0].client == f.client
      && r[0].kind == (if f.kind.Some? then f.kind.value else Email)
      && r[0].direction == (if f.direction.Some? then f.direction.value else Outbound)
      && r[0].status == (if f.status.Some? then f.status.value else Draft)
      && r[0].time == (if f.time == "" then now else f.time)
      && r[0].notes == f.notes
  {
    if CanLog(f) then [NewCommunication(f, id, now)] + cs else cs
  }

  /** After a log, the visible list is the new entry (when it passes the
      filters) in front of the list that was visible before. */
  lemma SubmitThenFilter(cs: seq<Communication>, f: CommunicationDraft, id: string, now: string,
                         term: string, kind: Lists.Choice<CommunicationType>)
    requires CanLog(f)
    ensures var c := NewCommunication(f, id, now);
            FilterCommunications(SubmitCommunication(cs, f, id, now), term, kind)
            == (if Matches(c, term, kind) then [c] else []) + FilterCommunications(cs, term, kind)
  {
    Lists.FilterCons(NewCommunication(f, id, now), cs, Matcher(term, kind));
  }

  // --------------------------------------------------------------- the page

  class CommunicationsPage {
    var items: seq<Communication>
    var search: string
    var typeFilter: Lists.Choice<CommunicationType>
    var isCreateOpen: bool
    var form: CommunicationDraft

    constructor (now: string)
      ensures items == CommunicationsSeed && search == "" && typeFilter == Lists.All
      ensures !isCreateOpen && form == BlankForm(now)
    {
      items := CommunicationsSeed;
      search := "";
      typeFilter := Lists.All;
      isCreateOpen := false;
      form := BlankForm(now);
    }

    /** What the timeline renders. */
    function Filtered(): seq<Communication>
      reads this
    {
      FilterCommunications(items, search, typeFilter)
    }

    method SetFilters(term: string, kind: Lists.Choice<CommunicationType>)
      modifies this
      ensures search == term && typeFilter == kind
      ensures items == old(items) && isCreateOpen == old(isCreateOpen) && form == old(form)
    {
      search, typeFilter := term, kind;
    }

    /** The form's field-by-field `setForm({ ...form, f: v })`. */
    method EditForm(f: CommunicationDraft)
      modifies this
      ensures form == f
      ensures items == old(items) && isCreateOpen == old(isCreateOpen)
      ensures search == old(search) && typeFilter == old(typeFilter)
    {
      form := f;
    }

    method OpenCreate()
      modifies this
      ensures isCreateOpen
      ensures items == old(items) && form == old(form)
      ensures search == old(search) && typeFilter == old(typeFilter)
    {
      isCreateOpen := true;
    }

    /** The Cancel button and the modal backdrop: `setIsCreateOpen(false)`. */
    method CloseCreate()
      modifies this
      ensures !isCreateOpen
      ensures items == old(items) && form == old(form)
      ensures search == old(search) && typeFilter == old(typeFilter)
    {
      isCreateOpen := false;
    }

    /** The "Log" button. */
    method Log(id: string, now: string)
      modifies this
      ensures items == SubmitCommunication(old(items), old(form), id, now)
      ensures CanLog(old(form)) ==> !isCreateOpen && form == BlankForm(now)
      ensures !CanLog(old(form)) ==> isCreateOpen == old(isCreateOpen) && form == old(form)
      ensures search == old(search) && typeFilter == old(typeFilter)
    {
      if !CanLog(form) {
        return;
      }
      items := [NewCommunication(form, id, now)] + items;
      isCreateOpen := false;
      form := BlankForm(now);
    }
  }
}
