/**
 * The derivation layer of the income page: the status an entry shows, the overdue
 * flag, month bucketing, the dashboard roll-up, id allocation, the client list and
 * the text of the CSV export.
 */
module IncomeUtils {
  import opened Wrappers
  import opened Seqs
  import opened Text
  import opened Dates
  import opened Currency
  import opened IncomeTypes
  import opened Tally

  // ---------------------------------------------------------------------------
  // Display status and overdue
  // ---------------------------------------------------------------------------

  /**
   * `getDisplayStatus`: a sent or paid entry shows its stored status; work marked done
   * shows as done once its date is past and has no status (`null`) until then.
   */
  function DisplayStatus(e: Entry, now: Now): (r: Option<Status>)
    ensures e.status != Done ==> r == Some(e.status)
    ensures e.status == Done ==> (r == Some(Done) <==> Before(e.date, now.today))
    ensures e.status == Done ==> (r == None <==> !Before(e.date, now.today))
  {
    IsPastDateIsBefore(e.date, now);
    if e.status == Sent || e.status == Paid then Some(e.status)
    else
      assert e.status == Done;
      if !IsPastDate(e.date, now) then None else Some(Done)
  }

  /** The default threshold of `isOverdue`, in days. */
  const OverdueDays: int := 30

  /** `isOverdue(entry, daysThreshold)`: a sent invoice whose sending date lies more than the threshold in whole days back. */
  function IsOverdue(e: Entry, now: Now, threshold: int): (r: bool)
    ensures r <==> e.status == Sent && e.invoiceSentDate.Some?
                   && DayNumber(now.today) - DayNumber(e.invoiceSentDate.value) > threshold
  {
    if e.status != Sent || e.invoiceSentDate.None? then false
    else
      DaysSinceIsDayDifference(e.invoiceSentDate.value, now);
      DaysSince(e.invoiceSentDate.value, now) > threshold
  }

  // ---------------------------------------------------------------------------
  // Month bucketing
  // ---------------------------------------------------------------------------

  /** The entry's date falls in the given month (1-based) of the given year. */
  predicate InMonth(e: Entry, month: int, year: int) {
    MonthYear(e.date).0 == month && MonthYear(e.date).1 == year
  }

  /** `filterByMonth`. */
  function FilterByMonth(entries: seq<Entry>, month: int, year: int): (r: seq<Entry>)
    ensures forall i :: 0 <= i < |r| ==> r[i] in entries && r[i].date.month == month && r[i].date.year == year
    ensures forall i :: 0 <= i < |entries| && entries[i].date.month == month && entries[i].date.year == year
                        ==> entries[i] in r
  {
    Filter(entries, e => InMonth(e, month, year))
  }

  /** Month bucketing keeps the original order: it distributes over concatenation. */
  lemma FilterByMonthAppend(a: seq<Entry>, b: seq<Entry>, month: int, year: int)
    ensures FilterByMonth(a + b, month, year) == FilterByMonth(a, month, year) + FilterByMonth(b, month, year)
  {
    FilterAppend(a, b, e => InMonth(e, month, year));
  }

  /** Bucketing twice by the same month changes nothing. */
  lemma FilterByMonthIdempotent(entries: seq<Entry>, month: int, year: int)
    ensures FilterByMonth(FilterByMonth(entries, month, year), month, year) == FilterByMonth(entries, month, year)
  {
    var r := FilterByMonth(entries, month, year);
    FilterAll(r, e => InMonth(e, month, year));
  }

  // ---------------------------------------------------------------------------
  // The dashboard roll-up
  // ---------------------------------------------------------------------------

  function Gross(e: Entry): real { e.amountGross }

  function PaidAmount(e: Entry): real { e.amountPaid }

  /** What is still owed on an entry, rounded as `Currency.subtract` does. */
  function Owed(e: Entry): real { Subtract(e.amountGross, e.amountPaid) }

  predicate IsSent(e: Entry) { e.status == Sent }

  predicate IsPaid(e: Entry) { e.status == Paid }

  /**
   * The month-over-month trend in percent: `multiply(divide(subtract(paid, prev), prev), 100)`
   * when there was income last month, 0 otherwise. It is always a whole number of percent.
   */
  function Trend(totalPaid: real, previousMonthPaid: real): (r: real)
    ensures previousMonthPaid <= 0.0 ==> r == 0.0
    ensures r == r.Floor as real
    ensures previousMonthPaid > 0.0 && TwoDecimals(totalPaid) && TwoDecimals(previousMonthPaid) ==>
              -0.5 <= r - 100.0 * (totalPaid - previousMonthPaid) / previousMonthPaid <= 0.5
  {
    if previousMonthPaid > 0.0 then
      var q := Divide(Subtract(totalPaid, previousMonthPaid), previousMonthPaid);
      MultiplyByHundred(q);
      if TwoDecimals(totalPaid) && TwoDecimals(previousMonthPaid) then
        AddSubtractExact(totalPaid, previousMonthPaid);
        TrendBound(q, totalPaid - previousMonthPaid, previousMonthPaid);
        Multiply(q, 100.0)
      else
        Multiply(q, 100.0)
    else 0.0
  }

  lemma TrendBound(q: real, d: real, p: real)
    requires p > 0.0
    requires -0.005 <= q - d / p <= 0.005
    ensures -0.5 <= q * 100.0 - 100.0 * d / p <= 0.5
  {
    assert q * 100.0 - 100.0 * d / p == 100.0 * (q - d / p);
  }

  /** The roll-up's own test for work ready to invoice: a past date and neither sent nor paid. */
  predicate ReadyByRule(e: Entry, now: Now) {
    IsPastDate(e.date, now) && e.status != Sent && e.status != Paid
  }

  /** `calculateKPIs(entries, currentMonth, currentYear, previousMonthPaid)`. */
  function CalculateKPIs(entries: seq<Entry>, month: int, year: int, previousMonthPaid: real, now: Now): (k: KPIData)
    ensures k.overdueCount <= k.invoicedCount <= |entries|
    ensures k.thisMonthCount <= |entries| && k.readyToInvoiceCount <= |entries|
    ensures TwoDecimals(k.outstanding) && TwoDecimals(k.readyToInvoice)
    ensures TwoDecimals(k.thisMonth) && TwoDecimals(k.totalPaid)
    ensures previousMonthPaid <= 0.0 ==> k.trend == 0.0
  {
    var monthEntries := FilterByMonth(entries, month, year);
    var sent := Filter(entries, IsSent);
    var ready := Filter(entries, e => ReadyByRule(e, now));
    var totalPaid := MoneySum(MapSeq(Filter(monthEntries, IsPaid), PaidAmount));
    var overdue := Filter(entries, e => IsOverdue(e, now, OverdueDays));
    FilterCountMonotone(entries, e => IsOverdue(e, now, OverdueDays), IsSent);
    KPIData(
      outstanding := MoneySum(MapSeq(sent, Owed)),
      readyToInvoice := MoneySum(MapSeq(ready, Gross)),
      readyToInvoiceCount := |ready|,
      thisMonth := MoneySum(MapSeq(monthEntries, Gross)),
      thisMonthCount := |monthEntries|,
      trend := Trend(totalPaid, previousMonthPaid),
      totalPaid := totalPaid,
      overdueCount := |overdue|,
      invoicedCount := |sent|)
  }

  /** Every amount of every entry is a whole number of cents (as amounts read from the database are). */
  predicate CentAmounts(entries: seq<Entry>) {
    forall i :: 0 <= i < |entries| ==> TwoDecimals(entries[i].amountGross) && TwoDecimals(entries[i].amountPaid)
  }

  predicate ShowsDone(e: Entry, now: Now) { DisplayStatus(e, now) == Some(Done) }

  predicate PaidInMonth(e: Entry, month: int, year: int) { InMonth(e, month, year) && e.status == Paid }

  function Outstanding(e: Entry): real { e.amountGross - e.amountPaid }

  /** The counts of the roll-up, each against its own reference count. */
  lemma KpiCounts(entries: seq<Entry>, month: int, year: int, prev: real, now: Now)
    ensures var k := CalculateKPIs(entries, month, year, prev, now);
            && k.readyToInvoiceCount == CountWhere(entries, e => ShowsDone(e, now))
            && k.thisMonthCount == CountWhere(entries, e => InMonth(e, month, year))
            && k.invoicedCount == CountWhere(entries, IsSent)
            && k.overdueCount == CountWhere(entries, e => IsOverdue(e, now, OverdueDays))
  {
    var readyP := e => ReadyByRule(e, now);
    forall i | 0 <= i < |entries|
      ensures readyP(entries[i]) == ShowsDone(entries[i], now)
    {
      IsPastDateIsBefore(entries[i].date, now);
    }
    FilterSame(entries, readyP, e => ShowsDone(e, now));
    CountIsFilterLength(entries, e => ShowsDone(e, now));
    CountIsFilterLength(entries, e => InMonth(e, month, year));
    CountIsFilterLength(entries, IsSent);
    CountIsFilterLength(entries, e => IsOverdue(e, now, OverdueDays));
  }

  /** For amounts in whole cents, the sums of the roll-up are the exact sums over the entries they describe. */
  lemma KpiSums(entries: seq<Entry>, month: int, year: int, prev: real, now: Now)
    requires CentAmounts(entries)
    ensures var k := CalculateKPIs(entries, month, year, prev, now);
            && k.outstanding == SumWhere(entries, IsSent, Outstanding)
            && k.readyToInvoice == SumWhere(entries, e => ShowsDone(e, now), Gross)
            && k.thisMonth == SumWhere(entries, e => InMonth(e, month, year), Gross)
            && k.totalPaid == SumWhere(entries, e => PaidInMonth(e, month, year), PaidAmount)
  {
    var readyP := e => ReadyByRule(e, now);
    forall i | 0 <= i < |entries|
      ensures readyP(entries[i]) == ShowsDone(entries[i], now)
      ensures Owed(entries[i]) == Outstanding(entries[i])
    {
      IsPastDateIsBefore(entries[i].date, now);
      AddSubtractExact(entries[i].amountGross, entries[i].amountPaid);
    }
    RoundedFilteredSum(entries, IsSent, Owed);
    SumSameQuantity(entries, IsSent, Owed, Outstanding);
    RoundedFilteredSum(entries, readyP, Gross);
    SumSame(entries, readyP, e => ShowsDone(e, now), Gross);
    RoundedFilteredSum(entries, e => InMonth(e, month, year), Gross);
    var inMonth := e => InMonth(e, month, year);
    FilterFilter(entries, inMonth, IsPaid, e => PaidInMonth(e, month, year));
    RoundedFilteredSum(entries, e => PaidInMonth(e, month, year), PaidAmount);
  }

  // ---------------------------------------------------------------------------
  // Ids and clients
  // ---------------------------------------------------------------------------

  /** `Math.max(...positive numeric ids, 0)`. */
  function MaxPositiveId(entries: seq<Entry>): (m: nat)
    ensures forall i :: 0 <= i < |entries| && entries[i].id.NumId? ==> entries[i].id.n <= m
    ensures m == 0 || exists i :: 0 <= i < |entries| && entries[i].id == NumId(m)
  {
    if entries == [] then 0
    else
      var init := entries[..|entries| - 1];
      var last := entries[|entries| - 1];
      var m' := MaxPositiveId(init);
      assert forall i :: 0 <= i < |init| ==> init[i] == entries[i];
      if last.id.NumId? && last.id.n > m' then last.id.n else m'
  }

  /** `generateId`: one more than the largest positive numeric id, so at least 1 and used by no entry. */
  function GenerateId(entries: seq<Entry>): (r: int)
    ensures r >= 1
    ensures forall i :: 0 <= i < |entries| ==> entries[i].id != NumId(r)
    ensures forall i :: 0 <= i < |entries| && entries[i].id.NumId? ==> entries[i].id.n < r
    ensures r == 1 || exists i :: 0 <= i < |entries| && entries[i].id == NumId(r - 1)
  {
    MaxPositiveId(entries) + 1
  }

  function ClientOf(e: Entry): string { e.client }

  /** `getUniqueClients` (and the hook's `clients`): each client once, in the default sort order. */
  function UniqueClients(entries: seq<Entry>): (r: seq<string>)
    ensures StrictlySorted(r)
    ensures forall c :: c in r <==> exists i :: 0 <= i < |entries| && entries[i].client == c
  {
    var names := MapSeq(entries, ClientOf);
    assert forall c :: c in names <==> exists i :: 0 <= i < |entries| && entries[i].client == c by {
      forall c ensures c in names ==> exists i :: 0 <= i < |entries| && entries[i].client == c {
        if c in names {
          var j :| 0 <= j < |names| && names[j] == c;
          assert entries[j].client == c;
        }
      }
    }
    SortedUnique(names)
  }

  /** The client list is the only strictly sorted list of exactly the entries' clients. */
  lemma UniqueClientsDetermined(entries: seq<Entry>, list: seq<string>)
    requires StrictlySorted(list)
    requires forall c :: c in list <==> exists i :: 0 <= i < |entries| && entries[i].client == c
    ensures list == UniqueClients(entries)
  {
    StrictlySortedUnique(list, UniqueClients(entries));
  }

  // ---------------------------------------------------------------------------
  // CSV export
  // ---------------------------------------------------------------------------

  /** The header cells: date, day, description, amount, paid, client, status, invoice date, category. */
  const CsvHeaders: seq<string> := ["תאריך", "יום", "תיאור", "סכום", "שולם", "לקוח", "סטטוס", "תאריך שליחת חשבונית", "קטגוריה"]

  /** The byte order mark the file starts with. */
  const Bom: char := '\U{FEFF}'

  /** The nine cells of an entry's row, before quoting. */
  function CsvCells(e: Entry): (cells: seq<string>)
    ensures |cells| == |CsvHeaders|
  {
    [ IsoText(e.date), e.weekday, e.description, NumberText(e.amountGross), NumberText(e.amountPaid),
      e.client, StatusLabel(e.status),
      (if e.invoiceSentDate.Some? then IsoText(e.invoiceSentDate.value) else ""),
      e.category.GetOr("") ]
  }

  /** A cell wrapped in double quotes; quotes inside are not escaped. */
  function Quote(cell: string): (q: string)
    ensures |q| == |cell| + 2 && q[0] == '"' && q[|q| - 1] == '"' && q[1..|q| - 1] == cell
  {
    "\"" + cell + "\""
  }

  function CsvRow(e: Entry): string {
    Join(MapSeq(CsvCells(e), Quote), ',')
  }

  /** `csvContent`: the header line, then one line per entry. */
  function CsvContent(entries: seq<Entry>): string {
    Join([Join(CsvHeaders, ',')] + MapSeq(entries, CsvRow), '\n')
  }

  /** The text handed to the download: the byte order mark, then the content. */
  function CsvFile(entries: seq<Entry>): (s: string)
    ensures |s| >= 1 && s[0] == Bom && s[1..] == CsvContent(entries)
  {
    [Bom] + CsvContent(entries)
  }

  /** No cell of any entry contains a line break. */
  predicate NoLineBreaks(entries: seq<Entry>) {
    forall i, j :: 0 <= i < |entries| && 0 <= j < |CsvHeaders| ==> '\n' !in CsvCells(entries[i])[j]
  }

  lemma HeaderHasNoLineBreak()
    ensures '\n' !in Join(CsvHeaders, ',')
  {
    forall i | 0 <= i < |CsvHeaders| ensures '\n' !in CsvHeaders[i] {
    }
    JoinAvoids(CsvHeaders, ',', '\n');
  }

  lemma RowHasNoLineBreak(e: Entry)
    requires forall j :: 0 <= j < |CsvHeaders| ==> '\n' !in CsvCells(e)[j]
    ensures '\n' !in CsvRow(e)
  {
    var quoted := MapSeq(CsvCells(e), Quote);
    forall j | 0 <= j < |quoted| ensures '\n' !in quoted[j] {
      assert quoted[j] == "\"" + CsvCells(e)[j] + "\"";
    }
    JoinAvoids(quoted, ',', '\n');
  }

  /** Unless a cell holds a line break, the file's lines are the header and then each entry's row, in input order. */
  lemma CsvLines(entries: seq<Entry>)
    requires NoLineBreaks(entries)
    ensures Split(CsvFile(entries)[1..], '\n') == [Join(CsvHeaders, ',')] + MapSeq(entries, CsvRow)
    ensures |Split(CsvFile(entries)[1..], '\n')| == 1 + |entries|
  {
    HeaderHasNoLineBreak();
    RowsHaveNoLineBreak(entries);
    SplitLines(Join(CsvHeaders, ','), MapSeq(entries, CsvRow));
  }

  lemma RowsHaveNoLineBreak(entries: seq<Entry>)
    requires NoLineBreaks(entries)
    ensures forall i :: 0 <= i < |entries| ==> '\n' !in MapSeq(entries, CsvRow)[i]
  {
    forall i | 0 <= i < |entries| ensures '\n' !in MapSeq(entries, CsvRow)[i] {
      RowHasNoLineBreak(entries[i]);
    }
  }

  /** Unless a cell holds a comma, a row splits on commas into exactly its nine quoted cells. */
  lemma CsvRowCells(e: Entry)
    requires forall j :: 0 <= j < |CsvHeaders| ==> ',' !in CsvCells(e)[j]
    ensures Split(CsvRow(e), ',') == MapSeq(CsvCells(e), Quote)
  {
    var quoted := MapSeq(CsvCells(e), Quote);
    forall j | 0 <= j < |quoted| ensures ',' !in quoted[j] {
      assert quoted[j] == "\"" + CsvCells(e)[j] + "\"";
    }
    SplitJoin(quoted, ',');
  }
}
