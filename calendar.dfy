/** The Calendar page: a month view that lists the seeded events falling in
    the current month, ordered by date and then time, with buttons that step
    the month back and forth. */
module Calendar {
  import opened Wrappers
  import opened Text
  import Lists

  datatype EventType = Meeting | Call | Deadline | FollowUp

  /** `EventItem`; its `type` field is named `kind` here. */
  datatype Event = Event(
    id: string,
    title: string,
    date: string,
    time: string,
    kind: EventType,
    client: Option<string>)

  /** The part of the current `Date` the page reads: `getFullYear()` and the
      zero-based `getMonth()`. */
  datatype YearMonth = YearMonth(year: int, month: int) {
    predicate Valid() {
      0 <= month < 12
    }
  }

  const EventsSeed: seq<Event> := [
    Event("1", "Kickoff Meeting - Mobile App", "2024-02-10", "09:00", Meeting, Some("E-commerce Plus")),
    Event("2", "Invoice Due - Marketing Campaign", "2024-02-15", "17:00", Deadline, Some("Marketing Masters")),
    Event("3", "Follow up with Mike", "2024-02-20", "10:00", FollowUp, Some("Design Studio Pro")),
    Event("4", "Client Call - Progress Review", "2024-02-22", "14:00", Call, Some("TechCorp Solutions"))
  ]

  // ---------------------------------------------------------- date strings

  predicate IsDigit(c: char) {
    '0' <= c <= '9'
  }

  predicate AllDigits(s: string) {
    forall i :: 0 <= i < |s| ==> IsDigit(s[i])
  }

  /** The decimal value of a string of digits. */
  function DigitsValue(s: string): (n: int)
    requires AllDigits(s)
    ensures n >= 0
  {
    if s == [] then 0
    else DigitsValue(s[..|s| - 1]) * 10 + (s[|s| - 1] as int - '0' as int)
  }

  function Pow10(w: nat): (p: nat)
    ensures p >= 1
  {
    if w == 0 then 1 else 10 * Pow10(w - 1)
  }

  /** `n` written with exactly `w` digits, zero-padded. */
  function Pad(n: nat, w: nat): (s: string)
    requires n < Pow10(w)
    ensures |s| == w && AllDigits(s)
  {
    if w == 0 then ""
    else Pad(n / 10, w - 1) + [('0' as int + n % 10) as char]
  }

  lemma {:induction false} PadValue(n: nat, w: nat)
    requires n < Pow10(w)
    ensures DigitsValue(Pad(n, w)) == n
  {
    if w > 0 {
      var s := Pad(n, w);
      PadValue(n / 10, w - 1);
      assert s[..w - 1] == Pad(n / 10, w - 1);
    }
  }

  /** `new Date(date)` for a date-only string `YYYY-MM-DD`, reduced to its
      year and zero-based month; `None` stands for an invalid date, whose
      year and month equal no month. */
  function ParseDate(date: string): (r: Option<YearMonth>)
    ensures r.Some? ==> r.value.Valid() && 0 <= r.value.year <= 9999
  {
    if |date| == 10 && date[4] == '-' && date[7] == '-'
       && AllDigits(date[..4]) && AllDigits(date[5..7]) && AllDigits(date[8..])
    then
      var y, m, d := DigitsValue(date[..4]), DigitsValue(date[5..7]), DigitsValue(date[8..]);
      assert y < 10000 by { DigitsBound(date[..4]); }
      if 1 <= m <= 12 && 1 <= d <= 31 then Some(YearMonth(y, m - 1)) else None
    else None
  }

  lemma {:induction false} DigitsBound(s: string)
    requires AllDigits(s)
    ensures DigitsValue(s) < Pow10(|s|)
  {
    if s != [] {
      DigitsBound(s[..|s| - 1]);
    }
  }

  /** `YYYY-MM-DD` for a year, a one-based month and a day. */
  function FormatDate(year: nat, month: nat, day: nat): (s: string)
    requires year < 10000 && month < 100 && day < 100
    ensures |s| == 10
  {
    Pad(year, 4) + "-" + Pad(month, 2) + "-" + Pad(day, 2)
  }

  /** Reading a well-formed date gives back its year and its month, counted from 0. */
  lemma ParseFormattedDate(year: nat, month: nat, day: nat)
    requires year < 10000 && 1 <= month <= 12 && 1 <= day <= 31
    ensures ParseDate(FormatDate(year, month, day)) == Some(YearMonth(year, month - 1))
  {
    var s := FormatDate(year, month, day);
    assert s[..4] == Pad(year, 4);
    assert s[5..7] == Pad(month, 2);
    assert s[8..] == Pad(day, 2);
    PadValue(year, 4);
    PadValue(month, 2);
    PadValue(day, 2);
  }

  // ----------------------------------------------------------------- order

  /** The sort comparator `a.date.localeCompare(b.date) || a.time.localeCompare(b.time)`
      read as "`a` may come before `b`". */
  predicate EventLe(a: Event, b: Event) {
    if a.date == b.date then StrLe(a.time, b.time) else StrLe(a.date, b.date)
  }

  lemma EventLeTotal(a: Event, b: Event)
    ensures EventLe(a, b) || EventLe(b, a)
  {
    if a.date == b.date {
      StrLeTotal(a.time, b.time);
    } else {
      StrLeTotal(a.date, b.date);
    }
  }

  lemma EventLeTransitive(a: Event, b: Event, c: Event)
    requires EventLe(a, b) && EventLe(b, c)
    ensures EventLe(a, c)
  {
    if a.date == b.date && b.date == c.date {
      StrLeTransitive(a.time, b.time, c.time);
    } else if a.date != b.date && b.date != c.date {
      StrLeTransitive(a.date, b.date, c.date);
      if a.date == c.date {
        StrLeAntisymmetric(a.date, b.date);
      }
    }
  }

  predicate Sorted(s: seq<Event>) {
    forall i, j :: 0 <= i < j < |s| ==> EventLe(s[i], s[j])
  }

  /** Puts `e` into a sorted list after every element that does not come
      strictly after it, so equal keys keep their order. */
  function Insert(e: Event, s: seq<Event>): (r: seq<Event>)
    requires Sorted(s)
    ensures Sorted(r)
    ensures multiset(r) == multiset(s) + multiset{e}
  {
    if s == [] then [e]
    else if !EventLe(s[0], e) then
      EventLeTotal(s[0], e);
      forall j | 0 <= j < |s| ensures EventLe(e, s[j]) {
        if j > 0 {
          EventLeTransitive(e, s[0], s[j]);
        }
      }
      [e] + s
    else
      var rest := Insert(e, s[1..]);
      assert s == [s[0]] + s[1..];
      forall j | 0 <= j < |rest| ensures EventLe(s[0], rest[j]) {
        assert rest[j] in multiset(rest);
        if rest[j] != e {
          assert rest[j] in multiset(s[1..]);
          var k :| 0 <= k < |s[1..]| && s[1..][k] == rest[j];
          assert s[k + 1] == rest[j];
        }
      }
      [s[0]] + rest
  }

  /** `Array.prototype.sort` with the comparator above: a stable sort. */
  function SortEvents(xs: seq<Event>): (r: seq<Event>)
    ensures Sorted(r)
    ensures multiset(r) == multiset(xs)
  {
    if xs == [] then []
    else
      assert xs == xs[..|xs| - 1] + [xs[|xs| - 1]];
      Insert(xs[|xs| - 1], SortEvents(xs[..|xs| - 1]))
  }

  /** An element that no element of the sorted list comes strictly after goes last. */
  lemma {:induction false} InsertAfterAll(e: Event, s: seq<Event>)
    requires Sorted(s) && forall k :: 0 <= k < |s| ==> EventLe(s[k], e)
    ensures Insert(e, s) == s + [e]
  {
    if s != [] {
      assert EventLe(s[0], e);
      InsertAfterAll(e, s[1..]);
      assert s == [s[0]] + s[1..];
    }
  }

  /** Sorting a list that is already in order leaves it as it is. */
  lemma {:induction false} SortSorted(xs: seq<Event>)
    requires Sorted(xs)
    ensures SortEvents(xs) == xs
  {
    if xs != [] {
      var init := xs[..|xs| - 1];
      assert Sorted(init);
      SortSorted(init);
      InsertAfterAll(xs[|xs| - 1], init);
      assert init + [xs[|xs| - 1]] == xs;
    }
  }

  // ---------------------------------------------------------- month events

  function InMonth(ym: YearMonth): Event -> bool {
    (e: Event) => ParseDate(e.date) == Some(ym)
  }

  /** `monthEvents`: the events dated in month `ym`, in date-then-time order. */
  function MonthEvents(events: seq<Event>, ym: YearMonth): (r: seq<Event>)
    ensures forall e :: e in r <==> e in events && ParseDate(e.date) == Some(ym)
    ensures multiset(r) == multiset(Lists.Filter(events, InMonth(ym)))
    ensures Sorted(r)
  {
    var picked := Lists.Filter(events, InMonth(ym));
    var r := SortEvents(picked);
    Lists.FilterCounts(events, InMonth(ym));
    forall e ensures e in r <==> e in events && ParseDate(e.date) == Some(ym) {
      assert multiset(r)[e] == multiset(picked)[e];
      assert InMonth(ym)(e) == (ParseDate(e.date) == Some(ym));
      assert (e in r) == (e in multiset(r)) && (e in events) == (e in multiset(events));
    }
    r
  }

  /** A month that no event is dated in shows the empty list. */
  lemma EmptyMonth(events: seq<Event>, ym: YearMonth)
    requires forall i :: 0 <= i < |events| ==> ParseDate(events[i].date) != Some(ym)
    ensures MonthEvents(events, ym) == []
  {
    Lists.FilterKeepsNone(events, InMonth(ym));
    assert multiset(MonthEvents(events, ym)) == multiset{};
  }

  /** When every event is dated in the month and the list is already in
      order, the month lists all of them as they are. */
  lemma WholeMonthInOrder(events: seq<Event>, ym: YearMonth)
    requires forall i :: 0 <= i < |events| ==> ParseDate(events[i].date) == Some(ym)
    requires Sorted(events)
    ensures MonthEvents(events, ym) == events
  {
    Lists.FilterKeepsAll(events, InMonth(ym));
    SortSorted(events);
  }

  /** Any day of February 2024 written out reads as that month. */
  lemma February2024(day: nat)
    requires 1 <= day <= 31
    ensures ParseDate("2024-02-" + Pad(day, 2)) == Some(YearMonth(2024, 1))
  {
    ParseFormattedDate(2024, 2, day);
    assert Pad(2024, 4) == "2024" && Pad(2, 2) == "02";
    assert FormatDate(2024, 2, day) == "2024-02-" + Pad(day, 2);
  }

  /** Every seeded event is dated in February 2024. */
  lemma SeedInFebruary(i: nat)
    requires i < |EventsSeed|
    ensures ParseDate(EventsSeed[i].date) == Some(YearMonth(2024, 1))
  {
    var day := if i == 0 then 10 else if i == 1 then 15 else if i == 2 then 20 else 22;
    February2024(day);
    assert Pad(day, 2) == EventsSeed[i].date[8..];
    assert EventsSeed[i].date == "2024-02-" + Pad(day, 2);
  }

  /** A list in which each event may come before the next one is sorted. */
  lemma {:induction false} ChainSorted(xs: seq<Event>)
    requires forall i :: 0 <= i < |xs| - 1 ==> EventLe(xs[i], xs[i + 1])
    ensures Sorted(xs)
  {
    if |xs| > 1 {
      ChainSorted(xs[1..]);
      forall j | 1 <= j < |xs| ensures EventLe(xs[0], xs[j]) {
        if j > 1 {
          assert EventLe(xs[1..][0], xs[1..][j - 1]);
          EventLeTransitive(xs[0], xs[1], xs[j]);
        }
      }
      forall i, j | 0 <= i < j < |xs| ensures EventLe(xs[i], xs[j]) {
        if i > 0 {
          assert EventLe(xs[1..][i - 1], xs[1..][j - 1]);
        }
      }
    }
  }

  /** The seeds are listed in date order. */
  lemma SeedSorted()
    ensures Sorted(EventsSeed)
  {
    assert StrLe("10", "15") && StrLe("15", "20") && StrLe("20", "22");
    forall i | 0 <= i < |EventsSeed| - 1 ensures EventLe(EventsSeed[i], EventsSeed[i + 1]) {
      var a, b := EventsSeed[i].date, EventsSeed[i + 1].date;
      assert a == "2024-02-" + a[8..] && b == "2024-02-" + b[8..];
      StrLeCommonPrefix("2024-02-", a[8..], b[8..]);
    }
    ChainSorted(EventsSeed);
  }

  /** Paged to February 2024, the page lists all four seeded events in their seeded order. */
  lemma SeedFebruaryListsAll()
    ensures MonthEvents(EventsSeed, YearMonth(2024, 1)) == EventsSeed
  {
    forall i | 0 <= i < |EventsSeed| ensures ParseDate(EventsSeed[i].date) == Some(YearMonth(2024, 1)) {
      SeedInFebruary(i);
    }
    SeedSorted();
    WholeMonthInOrder(EventsSeed, YearMonth(2024, 1));
  }

  // ---------------------------------------------------------- month paging

  /** `changeMonth(delta)`: `setMonth(getMonth() + delta)` carries whole
      years in or out of the month number. */
  function ShiftMonth(ym: YearMonth, delta: int): (r: YearMonth)
    requires ym.Valid()
    ensures r.Valid()
    ensures r.year * 12 + r.month == ym.year * 12 + ym.month + delta
  {
    var t := ym.year * 12 + ym.month + delta;
    YearMonth(t / 12, t % 12)
  }

  /** Two months with the same count from year 0 are the same month. */
  lemma {:induction false} MonthIndexInjective(a: YearMonth, b: YearMonth)
    requires a.Valid() && b.Valid() && a.year * 12 + a.month == b.year * 12 + b.month
    ensures a == b
  {
    assert (a.year - b.year) * 12 == b.month - a.month;
  }

  /** Going forward and back by the same count returns to the start month. */
  lemma ShiftMonthInverse(ym: YearMonth, delta: int)
    requires ym.Valid()
    ensures ShiftMonth(ShiftMonth(ym, delta), -delta) == ym
  {
    MonthIndexInjective(ShiftMonth(ShiftMonth(ym, delta), -delta), ym);
  }

  /** Steps add up: `delta1` months and then `delta2` are `delta1 + delta2`. */
  lemma ShiftMonthCompose(ym: YearMonth, delta1: int, delta2: int)
    requires ym.Valid()
    ensures ShiftMonth(ShiftMonth(ym, delta1), delta2) == ShiftMonth(ym, delta1 + delta2)
  {
    MonthIndexInjective(ShiftMonth(ShiftMonth(ym, delta1), delta2), ShiftMonth(ym, delta1 + delta2));
  }

  /** The next month after December is January of the following year, and
      the month before January is December of the previous one. */
  lemma YearCarry(year: int)
    ensures ShiftMonth(YearMonth(year, 11), 1) == YearMonth(year + 1, 0)
    ensures ShiftMonth(YearMonth(year, 0), -1) == YearMonth(year - 1, 11)
  {
    MonthIndexInjective(ShiftMonth(YearMonth(year, 11), 1), YearMonth(year + 1, 0));
    MonthIndexInjective(ShiftMonth(YearMonth(year, 0), -1), YearMonth(year - 1, 11));
  }

  // --------------------------------------------------------------- the page

  class CalendarPage {
    var currentMonth: YearMonth

    /** `today` is the clock's current month. */
    constructor (today: YearMonth)
      requires today.Valid()
      ensures currentMonth == today
    {
      currentMonth := today;
    }

    /** What the list renders. */
    function Shown(): seq<Event>
      reads this
    {
      MonthEvents(EventsSeed, currentMonth)
    }

    method ChangeMonth(delta: int)
      requires currentMonth.Valid()
      modifies this
      ensures currentMonth.Valid()
      ensures currentMonth == ShiftMonth(old(currentMonth), delta)
    {
      var t := currentMonth.year * 12 + currentMonth.month + delta;
      currentMonth := YearMonth(t / 12, t % 12);
    }
  }
}
