/**
 * The list updates and the table view shared by the local state hook and the
 * server-backed page: replace, remove and re-status entries by id, duplicate an
 * entry, and the status filter, search and date sort of `filteredEntries`.
 */
module EntryLists {
  import opened Wrappers
  import opened Seqs
  import opened Text
  import opened Dates
  import opened IncomeTypes
  import opened IncomeUtils
  import opened Sorting

  // ---------------------------------------------------------------------------
  // Updates by id
  // ---------------------------------------------------------------------------

  /** `prev.map(e => e.id === updated.id ? updated : e)`. */
  function ReplaceById(entries: seq<Entry>, updated: Entry): (r: seq<Entry>)
    ensures |r| == |entries|
    ensures forall i :: 0 <= i < |r| ==> r[i] == if entries[i].id == updated.id then updated else entries[i]
    ensures forall i :: 0 <= i < |r| ==> r[i].id == entries[i].id
  {
    MapSeq(entries, (e: Entry) => if e.id == updated.id then updated else e)
  }

  /** Replacing with the same record twice is replacing once. */
  lemma ReplaceByIdIdempotent(entries: seq<Entry>, updated: Entry)
    ensures ReplaceById(ReplaceById(entries, updated), updated) == ReplaceById(entries, updated)
  {
  }

  /** `prev.filter(e => e.id !== id)`. */
  function RemoveById(entries: seq<Entry>, id: Id): (r: seq<Entry>)
    ensures forall i :: 0 <= i < |r| ==> r[i].id != id && r[i] in entries
    ensures forall i :: 0 <= i < |entries| && entries[i].id != id ==> entries[i] in r
  {
    Filter(entries, (e: Entry) => e.id != id)
  }

  /** Removal keeps the survivors in order, removes nothing when the id is absent, and can be split at any point. */
  lemma RemoveByIdOrder(a: seq<Entry>, b: seq<Entry>, id: Id)
    ensures RemoveById(a + b, id) == RemoveById(a, id) + RemoveById(b, id)
    ensures (forall i :: 0 <= i < |a| ==> a[i].id != id) ==> RemoveById(a, id) == a
  {
    FilterAppend(a, b, (e: Entry) => e.id != id);
    if forall i :: 0 <= i < |a| ==> a[i].id != id {
      FilterAll(a, (e: Entry) => e.id != id);
    }
  }

  /**
   * The record `updateStatus` builds: the new status, a sending date set to today
   * only if there was none, and on payment today's paid date and the full amount paid.
   */
  function WithStatus(e: Entry, status: Status, today: CalDate): (r: Entry)
    ensures r.status == status
    ensures r.invoiceSentDate == if status == Sent && e.invoiceSentDate.None? then Some(today) else e.invoiceSentDate
    ensures r.paidDate == if status == Paid then Some(today) else e.paidDate
    ensures r.amountPaid == if status == Paid then e.amountGross else e.amountPaid
    ensures r.(status := e.status, invoiceSentDate := e.invoiceSentDate, paidDate := e.paidDate, amountPaid := e.amountPaid) == e
  {
    var sentDate := if status == Sent && e.invoiceSentDate.None? then Some(today) else e.invoiceSentDate;
    if status == Paid then
      e.(status := status, invoiceSentDate := sentDate, paidDate := Some(today), amountPaid := e.amountGross)
    else
      e.(status := status, invoiceSentDate := sentDate)
  }

  /** Marking as sent a second time keeps the first sending date; after payment the whole amount is paid. */
  lemma WithStatusSentTwice(e: Entry, first: CalDate, second: CalDate)
    ensures WithStatus(WithStatus(e, Sent, first), Sent, second) == WithStatus(e, Sent, first)
    ensures WithStatus(e, Sent, first).invoiceSentDate.Some?
    ensures WithStatus(e, Paid, first).amountPaid == e.amountGross
  {
  }

  /** `updateStatus` over the list: only entries with the id change, and they change as `WithStatus` says. */
  function SetStatusById(entries: seq<Entry>, id: Id, status: Status, today: CalDate): (r: seq<Entry>)
    ensures |r| == |entries|
    ensures forall i :: 0 <= i < |r| ==> r[i] == if entries[i].id == id then WithStatus(entries[i], status, today) else entries[i]
  {
    MapSeq(entries, (e: Entry) => if e.id != id then e else WithStatus(e, status, today))
  }

  /** Marking the same entry as sent twice leaves the list as after the first time. */
  lemma SetSentTwice(entries: seq<Entry>, id: Id, first: CalDate, second: CalDate)
    ensures SetStatusById(SetStatusById(entries, id, Sent, first), id, Sent, second) == SetStatusById(entries, id, Sent, first)
  {
    var once := SetStatusById(entries, id, Sent, first);
    var twice := SetStatusById(once, id, Sent, second);
    forall i | 0 <= i < |entries| ensures twice[i] == once[i] {
      if entries[i].id == id {
        WithStatusSentTwice(entries[i], first, second);
      }
    }
  }

  /**
   * The copy `duplicateEntry` makes: a fresh id, dated today with today's weekday, back
   * to done with nothing paid and no invoice or payment date; everything else copied.
   */
  function Duplicate(e: Entry, id: Id, today: CalDate): (r: Entry)
    ensures r.id == id && r.date == today && r.weekday == Weekday(today)
    ensures r.status == Done && r.amountPaid == 0.0 && r.invoiceSentDate.None? && r.paidDate.None?
    ensures r.description == e.description && r.amountGross == e.amountGross && r.client == e.client
    ensures r.vatType == e.vatType && r.notes == e.notes && r.category == e.category
  {
    e.(id := id, date := today, weekday := Weekday(today), status := Done, amountPaid := 0.0,
       invoiceSentDate := None, paidDate := None)
  }

  // ---------------------------------------------------------------------------
  // The table view
  // ---------------------------------------------------------------------------

  /** The test a status filter chip applies to one entry. */
  predicate MatchesFilter(e: Entry, f: FilterType, now: Now) {
    match f
    case All => true
    case ReadyToInvoice => DisplayStatus(e, now) == Some(Done)
    case Invoiced => DisplayStatus(e, now) == Some(Sent)
    case PaidOnly => DisplayStatus(e, now) == Some(Paid)
    case OverdueOnly => IsOverdue(e, now, OverdueDays)
  }

  /** The `switch (activeFilter)` step: "all" leaves the list as it is. */
  function ApplyStatusFilter(entries: seq<Entry>, f: FilterType, now: Now): seq<Entry> {
    match f
    case All => entries
    case ReadyToInvoice => Filter(entries, e => DisplayStatus(e, now) == Some(Done))
    case Invoiced => Filter(entries, e => DisplayStatus(e, now) == Some(Sent))
    case PaidOnly => Filter(entries, e => DisplayStatus(e, now) == Some(Paid))
    case OverdueOnly => Filter(entries, e => IsOverdue(e, now, OverdueDays))
  }

  /** The search test for a lower-cased query: description, client or a non-empty category contains it. */
  predicate MatchesSearch(e: Entry, query: string) {
    || Contains(ToLower(e.description), query)
    || Contains(ToLower(e.client), query)
    || (e.category.Some? && e.category.value != "" && Contains(ToLower(e.category.value), query))
  }

  /** The search step: skipped for a blank query, otherwise it tests the lower-cased (untrimmed) query. */
  function ApplySearch(entries: seq<Entry>, searchQuery: string): seq<Entry> {
    if Trim(searchQuery) == [] then entries
    else Filter(entries, e => MatchesSearch(e, ToLower(searchQuery)))
  }

  /** The sort key: the date's day number, negated for newest first. */
  function DateKey(dir: SortDirection): Entry -> int {
    (e: Entry) => if dir == Desc then -DayNumber(e.date) else DayNumber(e.date)
  }

  /** Status filter, search, then a stable sort by date. */
  function View(entries: seq<Entry>, f: FilterType, searchQuery: string, dir: SortDirection, now: Now): seq<Entry> {
    SortBy(ApplySearch(ApplyStatusFilter(entries, f, now), searchQuery), DateKey(dir))
  }

  /** An entry passes both the status filter and the search. */
  predicate Selected(e: Entry, f: FilterType, searchQuery: string, now: Now) {
    MatchesFilter(e, f, now) && (Trim(searchQuery) == [] || MatchesSearch(e, ToLower(searchQuery)))
  }

  /** Before sorting, the two steps keep exactly the selected entries, in input order. */
  lemma FilterStepsSelect(entries: seq<Entry>, f: FilterType, searchQuery: string, now: Now)
    ensures ApplySearch(ApplyStatusFilter(entries, f, now), searchQuery)
         == Filter(entries, e => Selected(e, f, searchQuery, now))
  {
    var mf := e => MatchesFilter(e, f, now);
    var sel := e => Selected(e, f, searchQuery, now);
    assert ApplyStatusFilter(entries, f, now) == Filter(entries, mf) by {
      match f
      case All => FilterAll(entries, mf);
      case ReadyToInvoice => FilterSame(entries, mf, e => DisplayStatus(e, now) == Some(Done));
      case Invoiced => FilterSame(entries, mf, e => DisplayStatus(e, now) == Some(Sent));
      case PaidOnly => FilterSame(entries, mf, e => DisplayStatus(e, now) == Some(Paid));
      case OverdueOnly => FilterSame(entries, mf, e => IsOverdue(e, now, OverdueDays));
    }
    if Trim(searchQuery) == [] {
      FilterSame(entries, mf, sel);
    } else {
      var ms := e => MatchesSearch(e, ToLower(searchQuery));
      FilterFilter(entries, mf, ms, sel);
    }
  }

  /** A list sorted by the date key is in date order, newest first for the descending key. */
  lemma DateOrdered(v: seq<Entry>, dir: SortDirection)
    requires SortedBy(v, DateKey(dir))
    ensures forall i, j :: 0 <= i < j < |v| ==>
              if dir == Desc then OnOrBefore(v[j].date, v[i].date) else OnOrBefore(v[i].date, v[j].date)
  {
    forall i, j | 0 <= i < j < |v|
      ensures if dir == Desc then OnOrBefore(v[j].date, v[i].date) else OnOrBefore(v[i].date, v[j].date)
    {
      assert DateKey(dir)(v[i]) <= DateKey(dir)(v[j]);
      DayNumberOrder(v[i].date, v[j].date);
    }
  }

  /** The view holds exactly the selected entries. */
  lemma ViewSelects(entries: seq<Entry>, f: FilterType, searchQuery: string, dir: SortDirection, now: Now)
    ensures var v := View(entries, f, searchQuery, dir, now);
            && (forall i :: 0 <= i < |v| ==> v[i] in entries && Selected(v[i], f, searchQuery, now))
            && (forall i :: 0 <= i < |entries| && Selected(entries[i], f, searchQuery, now) ==> entries[i] in v)
  {
    var p := e => Selected(e, f, searchQuery, now);
    FilterStepsSelect(entries, f, searchQuery, now);
    SortByFilterMembers(entries, p, DateKey(dir));
  }

  /** The view is in date order, newest first when descending. */
  lemma ViewOrdered(entries: seq<Entry>, f: FilterType, searchQuery: string, dir: SortDirection, now: Now)
    ensures var v := View(entries, f, searchQuery, dir, now);
            forall i, j :: 0 <= i < j < |v| ==>
              if dir == Desc then OnOrBefore(v[j].date, v[i].date) else OnOrBefore(v[i].date, v[j].date)
  {
    DateOrdered(View(entries, f, searchQuery, dir, now), dir);
  }

  /**
   * `filteredEntries`: the selected entries, each once, ordered by date in the chosen
   * direction, with entries of the same date in their input order.
   */
  lemma ViewSpec(entries: seq<Entry>, f: FilterType, searchQuery: string, dir: SortDirection, now: Now, d: int)
    ensures var v := View(entries, f, searchQuery, dir, now);
            var sel := Filter(entries, e => Selected(e, f, searchQuery, now));
            && multiset(v) == multiset(sel)
            && (forall i :: 0 <= i < |v| ==> v[i] in entries && Selected(v[i], f, searchQuery, now))
            && (forall i :: 0 <= i < |entries| && Selected(entries[i], f, searchQuery, now) ==> entries[i] in v)
            && (forall i, j :: 0 <= i < j < |v| ==>
                  if dir == Desc then OnOrBefore(v[j].date, v[i].date) else OnOrBefore(v[i].date, v[j].date))
            && Filter(v, KeyIs(DateKey(dir), d)) == Filter(sel, KeyIs(DateKey(dir), d))
  {
    var sel := Filter(entries, e => Selected(e, f, searchQuery, now));
    FilterStepsSelect(entries, f, searchQuery, now);
    ViewSelects(entries, f, searchQuery, dir, now);
    ViewOrdered(entries, f, searchQuery, dir, now);
    SortByStable(sel, DateKey(dir), d);
  }
}
