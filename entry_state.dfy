/**
 * `useIncomeState`, the self-contained state of the income page: the entry list, the
 * drawer selection and the filter settings, with the actions that change them and the
 * client list, view and dashboard derived from them.
 */
module IncomeState {
  import opened Wrappers
  import opened Dates
  import opened IncomeTypes
  import opened IncomeUtils
  import opened EntryLists

  /** The previous month's paid income the local dashboard compares against. */
  const MockPreviousMonthPaid: real := 8500.0

  /** Every entry drawn from a month's bucket is an entry of that month. */
  lemma MonthMembers(entries: seq<Entry>, month: int, year: int, r: seq<Entry>)
    requires forall i :: 0 <= i < |r| ==> r[i] in FilterByMonth(entries, month, year)
    ensures forall i :: 0 <= i < |r| ==> r[i] in entries && InMonth(r[i], month, year)
  {
    var m := FilterByMonth(entries, month, year);
    forall i | 0 <= i < |r| ensures r[i] in entries && InMonth(r[i], month, year) {
      assert r[i] in m;
      var j :| 0 <= j < |m| && m[j] == r[i];
    }
  }

  /** A view that keeps every selected entry of a month's bucket keeps every selected entry of that month. */
  lemma MonthComplete(entries: seq<Entry>, month: int, year: int, f: FilterType, q: string, now: Now, r: seq<Entry>)
    requires var m := FilterByMonth(entries, month, year);
             forall i :: 0 <= i < |m| && Selected(m[i], f, q, now) ==> m[i] in r
    ensures forall i :: 0 <= i < |entries| && MonthSelected(entries[i], month, year, f, q, now) ==> entries[i] in r
  {
    var m := FilterByMonth(entries, month, year);
    forall i | 0 <= i < |entries| && MonthSelected(entries[i], month, year, f, q, now) ensures entries[i] in r {
      var j :| 0 <= j < |m| && m[j] == entries[i];
    }
  }

  /** The entry is in the given month and passes the filter and search. */
  predicate MonthSelected(e: Entry, month: int, year: int, f: FilterType, q: string, now: Now) {
    InMonth(e, month, year) && Selected(e, f, q, now)
  }

  /** The view of one month: its selected entries, all of them, in date order. */
  lemma MonthView(entries: seq<Entry>, month: int, year: int, f: FilterType, q: string, dir: SortDirection, now: Now)
    ensures var r := View(FilterByMonth(entries, month, year), f, q, dir, now);
            && (forall i :: 0 <= i < |r| ==> r[i] in entries && MonthSelected(r[i], month, year, f, q, now))
            && (forall i :: 0 <= i < |entries| && MonthSelected(entries[i], month, year, f, q, now) ==> entries[i] in r)
            && (forall i, j :: 0 <= i < j < |r| ==>
                  if dir == Desc then OnOrBefore(r[j].date, r[i].date) else OnOrBefore(r[i].date, r[j].date))
  {
    var m := FilterByMonth(entries, month, year);
    var r := View(m, f, q, dir, now);
    ViewSelects(m, f, q, dir, now);
    ViewOrdered(m, f, q, dir, now);
    MonthMembers(entries, month, year, r);
    MonthComplete(entries, month, year, f, q, now, r);
  }

  class IncomeState {
    var entries: seq<Entry>
    var selectedEntry: Option<Entry>
    var isDrawerOpen: bool
    var activeFilter: FilterType
    var selectedMonth: int
    var selectedYear: int
    var searchQuery: string
    var sortDirection: SortDirection

    /** The initial state: the given entries, nothing selected, every filter off, the current month, newest first. */
    constructor(initial: seq<Entry>, now: Now)
      ensures entries == initial && selectedEntry == None && !isDrawerOpen
      ensures activeFilter == All && searchQuery == "" && sortDirection == Desc
      ensures selectedMonth == now.today.month && selectedYear == now.today.year
    {
      entries := initial;
      selectedEntry := None;
      isDrawerOpen := false;
      activeFilter := All;
      selectedMonth := now.today.month;
      selectedYear := now.today.year;
      searchQuery := "";
      sortDirection := Desc;
    }

    /** The filter settings, which no action changes. */
    function Settings(): (FilterType, int, int, string, SortDirection)
      reads this
    {
      (activeFilter, selectedMonth, selectedYear, searchQuery, sortDirection)
    }

    /** `clients`. */
    function Clients(): (r: seq<string>)
      reads this
      ensures Text.StrictlySorted(r)
      ensures forall c :: c in r <==> exists i :: 0 <= i < |entries| && entries[i].client == c
    {
      UniqueClients(entries)
    }

    /** `filteredEntries`: the selected month first, then the shared status filter, search and date sort. */
    function FilteredEntries(now: Now): (r: seq<Entry>)
      reads this
      ensures forall i :: 0 <= i < |r| ==>
                r[i] in entries && MonthSelected(r[i], selectedMonth, selectedYear, activeFilter, searchQuery, now)
      ensures forall i :: 0 <= i < |entries| && MonthSelected(entries[i], selectedMonth, selectedYear, activeFilter, searchQuery, now)
                ==> entries[i] in r
      ensures forall i, j :: 0 <= i < j < |r| ==>
                if sortDirection == Desc then OnOrBefore(r[j].date, r[i].date) else OnOrBefore(r[i].date, r[j].date)
    {
      MonthView(entries, selectedMonth, selectedYear, activeFilter, searchQuery, sortDirection, now);
      View(FilterByMonth(entries, selectedMonth, selectedYear), activeFilter, searchQuery, sortDirection, now)
    }

    /** `kpis`: the roll-up of the selected month against the fixed previous-month figure. */
    function Kpis(now: Now): (k: KPIData)
      reads this
      ensures k.overdueCount <= k.invoicedCount <= |entries|
      ensures k.trend == Trend(k.totalPaid, MockPreviousMonthPaid)
    {
      CalculateKPIs(entries, selectedMonth, selectedYear, MockPreviousMonthPaid, now)
    }

    /** `addEntry`: prepends the draft with the next numeric id and the weekday of its date. */
    method AddEntry(d: Draft)
      modifies this
      ensures entries == [FromDraft(d, NumId(GenerateId(old(entries))), Weekday(d.date))] + old(entries)
      ensures selectedEntry == old(selectedEntry) && isDrawerOpen == old(isDrawerOpen)
      ensures Settings() == old(Settings())
    {
      var id := GenerateId(entries);
      var newEntry := FromDraft(d, NumId(id), Weekday(d.date));
      entries := [newEntry] + entries;
    }

    /** `updateEntry`: replaces the entries with that id, and the selection if it has that id. */
    method UpdateEntry(updated: Entry)
      modifies this
      ensures entries == ReplaceById(old(entries), updated)
      ensures selectedEntry == if old(selectedEntry).Some? && old(selectedEntry).value.id == updated.id
                               then Some(updated) else old(selectedEntry)
      ensures isDrawerOpen == old(isDrawerOpen) && Settings() == old(Settings())
    {
      entries := ReplaceById(entries, updated);
      if selectedEntry.Some? && selectedEntry.value.id == updated.id {
        selectedEntry := Some(updated);
      }
    }

    /** `deleteEntry`: removes the entries with that id; a selection with that id is cleared and the drawer closed. */
    method DeleteEntry(id: Id)
      modifies this
      ensures entries == RemoveById(old(entries), id)
      ensures old(selectedEntry).Some? && old(selectedEntry).value.id == id ==> selectedEntry == None && !isDrawerOpen
      ensures !(old(selectedEntry).Some? && old(selectedEntry).value.id == id) ==>
                selectedEntry == old(selectedEntry) && isDrawerOpen == old(isDrawerOpen)
      ensures Settings() == old(Settings())
    {
      var matched := selectedEntry.Some? && selectedEntry.value.id == id;
      entries := RemoveById(entries, id);
      if matched {
        selectedEntry := None;
        isDrawerOpen := false;
      }
    }

    /** `updateStatus`: re-statuses the entries with that id; the selection is left as it was. */
    method UpdateStatus(id: Id, status: Status, today: CalDate)
      modifies this
      ensures entries == SetStatusById(old(entries), id, status, today)
      ensures selectedEntry == old(selectedEntry) && isDrawerOpen == old(isDrawerOpen)
      ensures Settings() == old(Settings())
    {
      entries := SetStatusById(entries, id, status, today);
    }

    /** `markAsPaid`: `updateStatus` to paid. */
    method MarkAsPaid(id: Id, today: CalDate)
      modifies this
      ensures entries == SetStatusById(old(entries), id, Paid, today)
      ensures forall i :: 0 <= i < |entries| && entries[i].id == id ==>
                entries[i].status == Paid && entries[i].amountPaid == entries[i].amountGross
      ensures selectedEntry == old(selectedEntry) && isDrawerOpen == old(isDrawerOpen)
      ensures Settings() == old(Settings())
    {
      UpdateStatus(id, Paid, today);
    }

    /** `markInvoiceSent`: `updateStatus` to sent, which keeps an existing sending date. */
    method MarkInvoiceSent(id: Id, today: CalDate)
      modifies this
      ensures entries == SetStatusById(old(entries), id, Sent, today)
      ensures forall i :: 0 <= i < |entries| && entries[i].id == id ==>
                entries[i].status == Sent && entries[i].invoiceSentDate.Some?
      ensures selectedEntry == old(selectedEntry) && isDrawerOpen == old(isDrawerOpen)
      ensures Settings() == old(Settings())
    {
      UpdateStatus(id, Sent, today);
    }

    /** `duplicateEntry`: prepends a fresh copy of the entry dated today. */
    method DuplicateEntry(e: Entry, today: CalDate)
      modifies this
      ensures entries == [Duplicate(e, NumId(GenerateId(old(entries))), today)] + old(entries)
      ensures selectedEntry == old(selectedEntry) && isDrawerOpen == old(isDrawerOpen)
      ensures Settings() == old(Settings())
    {
      var copy := Duplicate(e, NumId(GenerateId(entries)), today);
      entries := [copy] + entries;
    }

    /** `openDrawer`. */
    method OpenDrawer(e: Entry)
      modifies this
      ensures selectedEntry == Some(e) && isDrawerOpen
      ensures entries == old(entries) && Settings() == old(Settings())
    {
      selectedEntry := Some(e);
      isDrawerOpen := true;
    }

    /** `closeDrawer`. */
    method CloseDrawer()
      modifies this
      ensures selectedEntry == None && !isDrawerOpen
      ensures entries == old(entries) && Settings() == old(Settings())
    {
      isDrawerOpen := false;
      selectedEntry := None;
    }
  }
}
