/**
 * `IncomePageClient`, the server-backed income page: the mapping from stored rows to
 * the entries the page shows, the form fields it sends back, the optimistic list
 * updates it makes before the server answers, and the client list, view and
 * dashboard it derives.
 */
module IncomePage {
  import opened Wrappers
  import opened Seqs
  import opened Dates
  import opened Currency
  import opened IncomeTypes
  import opened IncomeUtils
  import opened EntryLists
  import opened Tally
  import Text
  import S = IncomeStore

  // ---------------------------------------------------------------------------
  // Rows to entries
  // ---------------------------------------------------------------------------

  /** The shown status: paid if either column says paid, else sent if the invoice went out, else done. */
  function UiStatus(invoice: S.InvoiceStatus, payment: S.PaymentStatus): Status {
    if payment == S.PaidInFull || invoice == S.InvoicePaid then Paid
    else if invoice == S.InvoiceSent then Sent
    else Done
  }

  /** The shown VAT type: exempt at rate 0, else VAT-inclusive or on top by the flag. */
  function UiVat(r: S.Row): VatType {
    if ParseFloat(r.vatRate) == Some(0.0) then Exempt
    else if r.includesVat then Inclusive
    else Taxable
  }

  /** `dbEntryToUIEntry`. */
  function ToUIEntry(r: S.StoredRow): (e: Entry)
    ensures e.id == StrId(r.id) && e.date == r.date && e.client == r.clientName && e.description == r.description
    ensures ParseFloat(r.amountGross) == Some(e.amountGross) && ParseFloat(r.amountPaid) == Some(e.amountPaid)
    ensures e.status == Paid <==> r.paymentStatus == S.PaidInFull || r.invoiceStatus == S.InvoicePaid
    ensures e.status == Sent <==> r.invoiceStatus == S.InvoiceSent && r.paymentStatus != S.PaidInFull
    ensures e.vatType == Exempt <==> S.Amount(r.vatRate) == 0.0
    ensures e.vatType == Inclusive <==> S.Amount(r.vatRate) != 0.0 && r.includesVat
    ensures e.notes == r.notes && e.category == r.category
    ensures e.invoiceSentDate == r.invoiceSentDate && e.paidDate == r.paidDate
    ensures e.weekday == Weekday(r.date)
  {
    Entry(StrId(r.id), r.date, Weekday(r.date), r.description,
          ParseFloat(r.amountGross).value, ParseFloat(r.amountPaid).value, r.clientName,
          UiStatus(r.invoiceStatus, r.paymentStatus), UiVat(r),
          r.notes, r.invoiceSentDate, r.paidDate, r.category)
  }

  // ---------------------------------------------------------------------------
  // Entries to form fields
  // ---------------------------------------------------------------------------

  /** The fields the add and edit forms send; `None` is a field left out of the form. */
  datatype EntryForm = EntryForm(
    id: Option<string>,
    date: CalDate,
    description: string,
    clientName: string,
    amountGross: string,
    amountPaid: string,
    category: Option<string>,
    notes: Option<string>,
    invoiceStatus: S.InvoiceStatus,
    paymentStatus: Option<S.PaymentStatus>,
    vatRate: Option<string>,
    includesVat: bool)

  /** The status fields: paid sends both statuses, sent and done only the invoice status. */
  function StatusFields(s: Status): (S.InvoiceStatus, Option<S.PaymentStatus>) {
    match s
    case Paid => (S.InvoicePaid, Some(S.PaidInFull))
    case Sent => (S.InvoiceSent, None)
    case Done => (S.Draft, None)
  }

  /** The VAT fields: only an exempt entry sends a rate, "0". */
  function VatFields(v: VatType): (Option<string>, bool) {
    match v
    case Exempt => (Some("0"), false)
    case Inclusive => (None, true)
    case Taxable => (None, false)
  }

  /** A text field the add form appends only when it is non-empty. */
  function IfNonEmpty(x: Option<string>): (r: Option<string>)
    ensures r.Some? <==> x.Some? && x.value != ""
    ensures r.Some? ==> r == x
  {
    if x.Some? && x.value != "" then x else None
  }

  /** `addEntry`'s form. */
  function AddForm(d: Draft): EntryForm {
    var status := StatusFields(d.status);
    var vat := VatFields(d.vatType);
    EntryForm(None, d.date, d.description, d.client, NumberText(d.amountGross), NumberText(d.amountPaid),
              IfNonEmpty(d.category), IfNonEmpty(d.notes), status.0, status.1, vat.0, vat.1)
  }

  /** `id.toString()`. */
  function IdText(id: Id): (t: string)
    ensures id.StrId? ==> t == id.s
    ensures id.NumId? ==> |t| >= 1 && (t[0] == '-' <==> id.n < 0)
    ensures id.NumId? ==>
              var digits := if id.n < 0 then t[1..] else t;
              && (forall i :: 0 <= i < |digits| ==> Text.IsDigit(digits[i]))
              && Text.DigitsValue(digits) == if id.n < 0 then -id.n else id.n
  {
    match id
    case StrId(s) => s
    case NumId(n) =>
      var m := if n < 0 then -n else n;
      Text.DigitStringValue(m);
      if n < 0 then
        assert ("-" + Text.DigitString(m))[1..] == Text.DigitString(m);
        "-" + Text.DigitString(m)
      else
        Text.DigitString(m)
  }

  /** `updateEntry`'s form: the id and every field, an absent category or note sent as empty text. */
  function UpdateForm(e: Entry): EntryForm {
    var status := StatusFields(e.status);
    var vat := VatFields(e.vatType);
    EntryForm(Some(IdText(e.id)), e.date, e.description, e.client, NumberText(e.amountGross), NumberText(e.amountPaid),
              Some(e.category.GetOr("")), Some(e.notes.GetOr("")), status.0, status.1, vat.0, vat.1)
  }

  /**
   * How the create action is taken to read the form: numbers with `parseFloat`, the
   * other fields as sent, and nothing created when an amount does not read as a number.
   */
  function ActionCreateInput(f: EntryForm): Option<S.CreateInput> {
    match (ParseFloat(f.amountGross), ParseFloat(f.amountPaid))
    case (Some(gross), Some(paid)) =>
      var rate := if f.vatRate.Some? then ParseFloat(f.vatRate.value) else None;
      Some(S.CreateInput(f.date, f.description, f.clientName, gross, Some(paid), rate, Some(f.includesVat),
                         Some(f.invoiceStatus), f.paymentStatus, f.category, f.notes, None, None))
    case _ => None
  }

  /** How the update action is taken to read the form, as for creating, against the form's id. */
  function ActionUpdateInput(f: EntryForm): Option<S.UpdateInput> {
    match (f.id, ParseFloat(f.amountGross), ParseFloat(f.amountPaid))
    case (Some(id), Some(gross), Some(paid)) =>
      var rate := if f.vatRate.Some? then ParseFloat(f.vatRate.value) else None;
      Some(S.UpdateInput(id, Some(f.date), Some(f.description), Some(f.clientName), Some(gross), Some(paid), rate,
                         Some(f.includesVat), Some(f.invoiceStatus), f.paymentStatus, f.category, f.notes, None, None))
    case _ => None
  }

  /** The text "0" the exempt form sends reads as zero. */
  lemma ParseZero()
    ensures ParseFloat("0") == Some(0.0)
  {
    assert Text.LeadingSpaces("0") == 0;
    ParseWhole("0");
    assert "0"[..0] == [];
    assert Text.DigitsValue("0") == 0;
  }

  lemma ZeroRate()
    ensures ParseFloat("0") == Some(0.0)
    ensures S.Amount(ToFixed2(0.0)) == 0.0
  {
    ParseZero();
    ParseToFixed(0.0);
    Round2Exact(0.0);
  }

  /** A create input carrying exactly what the add form of `d` sends. */
  predicate InputOfDraft(input: S.CreateInput, d: Draft) {
    && input.date == d.date && input.description == d.description && input.clientName == d.client
    && input.amountGross == d.amountGross && input.amountPaid == Some(d.amountPaid)
    && input.vatRate == (if d.vatType == Exempt then Some(0.0) else None)
    && input.includesVat == Some(d.vatType == Inclusive)
    && input.invoiceStatus == Some(StatusFields(d.status).0)
    && input.paymentStatus == StatusFields(d.status).1
    && input.category == IfNonEmpty(d.category) && input.notes == IfNonEmpty(d.notes)
    && input.invoiceSentDate == None && input.paidDate == None
  }

  /** What the create action reads from the add form of a draft with whole-cent amounts. */
  lemma AddFormInput(d: Draft)
    requires TwoDecimals(d.amountGross) && TwoDecimals(d.amountPaid)
    ensures ActionCreateInput(AddForm(d)).Some?
    ensures InputOfDraft(ActionCreateInput(AddForm(d)).value, d)
  {
    NumberTextRoundTrip(d.amountGross);
    NumberTextRoundTrip(d.amountPaid);
    ZeroRate();
  }

  /** The row created from such an input reads back as the draft. */
  lemma EntryOfInput(input: S.CreateInput, d: Draft, id: string, stamp: int)
    requires TwoDecimals(d.amountGross) && TwoDecimals(d.amountPaid)
    requires InputOfDraft(input, d)
    ensures var e := ToUIEntry(S.NewRow(input, id, stamp));
            && e.status == d.status && e.vatType == d.vatType
            && e.amountGross == d.amountGross && e.amountPaid == d.amountPaid
            && e.date == d.date && e.description == d.description && e.client == d.client
            && e.category == IfNonEmpty(d.category) && e.notes == IfNonEmpty(d.notes)
            && e.invoiceSentDate == None && e.paidDate == None
  {
    NewEntryAmounts(input, d, id, stamp);
    NewEntryStatus(input, d, id, stamp);
    NewEntryVat(input, d, id, stamp);
  }

  lemma NewEntryAmounts(input: S.CreateInput, d: Draft, id: string, stamp: int)
    requires TwoDecimals(d.amountGross) && TwoDecimals(d.amountPaid)
    requires InputOfDraft(input, d)
    ensures var e := ToUIEntry(S.NewRow(input, id, stamp));
            e.amountGross == d.amountGross && e.amountPaid == d.amountPaid
  {
    var r := S.NewRow(input, id, stamp);
    ParseToFixed(d.amountGross);
    ParseToFixed(d.amountPaid);
    Round2Exact(d.amountGross);
    Round2Exact(d.amountPaid);
    assert r.amountGross == ToFixed2(d.amountGross) && r.amountPaid == ToFixed2(d.amountPaid);
  }

  lemma NewEntryStatus(input: S.CreateInput, d: Draft, id: string, stamp: int)
    requires InputOfDraft(input, d)
    ensures ToUIEntry(S.NewRow(input, id, stamp)).status == d.status
  {
    var r := S.NewRow(input, id, stamp);
    assert r.invoiceStatus == StatusFields(d.status).0;
    assert r.paymentStatus == StatusFields(d.status).1.GetOr(S.Unpaid);
    StatusFieldsShown(d.status);
  }

  /** The status fields the forms send for a status, a missing payment status read as unpaid, show that status. */
  lemma StatusFieldsShown(s: Status)
    ensures UiStatus(StatusFields(s).0, StatusFields(s).1.GetOr(S.Unpaid)) == s
  {
  }

  lemma NewEntryVat(input: S.CreateInput, d: Draft, id: string, stamp: int)
    requires InputOfDraft(input, d)
    ensures ToUIEntry(S.NewRow(input, id, stamp)).vatType == d.vatType
  {
    var r := S.NewRow(input, id, stamp);
    if d.vatType == Exempt {
      ZeroRate();
      assert r.vatRate == ToFixed2(0.0);
    } else {
      DefaultRate();
      assert r.vatRate == ToFixed2(S.DefaultVatRate);
    }
  }

  /** What the update action reads from the edit form of an entry with whole-cent amounts. */
  lemma UpdateFormInput(e: Entry)
    requires TwoDecimals(e.amountGross) && TwoDecimals(e.amountPaid)
    ensures ActionUpdateInput(UpdateForm(e)).Some?
    ensures var u := ActionUpdateInput(UpdateForm(e)).value;
            && u.amountGross == Some(e.amountGross) && u.amountPaid == Some(e.amountPaid)
            && u.vatRate == (if e.vatType == Exempt then Some(0.0) else None)
            && u.includesVat == Some(e.vatType == Inclusive)
            && u.invoiceStatus == Some(StatusFields(e.status).0)
            && u.paymentStatus == StatusFields(e.status).1
  {
    NumberTextRoundTrip(e.amountGross);
    NumberTextRoundTrip(e.amountPaid);
    ZeroRate();
  }

  /**
   * An entry added through the form comes back from the database as it was given: same
   * status and VAT type (the default rate 17 standing in when no rate is sent), same
   * amounts in whole cents, an empty category or note dropped, and no invoice or
   * payment date, which the form does not send.
   */
  lemma CreateRoundTrip(d: Draft, id: string, stamp: int)
    requires TwoDecimals(d.amountGross) && TwoDecimals(d.amountPaid)
    ensures ActionCreateInput(AddForm(d)).Some?
    ensures var e := ToUIEntry(S.NewRow(ActionCreateInput(AddForm(d)).value, id, stamp));
            && e.status == d.status && e.vatType == d.vatType
            && e.amountGross == d.amountGross && e.amountPaid == d.amountPaid
            && e.date == d.date && e.description == d.description && e.client == d.client
            && e.category == IfNonEmpty(d.category) && e.notes == IfNonEmpty(d.notes)
            && e.invoiceSentDate == None && e.paidDate == None
  {
    AddFormInput(d);
    EntryOfInput(ActionCreateInput(AddForm(d)).value, d, id, stamp);
  }

  /** The default rate 17 the database stands in for an omitted rate reads back as 17. */
  lemma DefaultRate()
    ensures S.Amount(ToFixed2(S.DefaultVatRate)) == S.DefaultVatRate
  {
    ParseToFixed(S.DefaultVatRate);
    TwoDecimalsOfInt(17);
    Round2Exact(S.DefaultVatRate);
  }

  /** After an edit, the entry shows the status it was given, unless the row was already paid. */
  lemma UpdateStatusRoundTrip(r: S.StoredRow, e: Entry, stamp: int)
    requires TwoDecimals(e.amountGross) && TwoDecimals(e.amountPaid)
    requires r.paymentStatus != S.PaidInFull
    ensures ActionUpdateInput(UpdateForm(e)).Some?
    ensures ToUIEntry(S.Updated(r, ActionUpdateInput(UpdateForm(e)).value, stamp)).status == e.status
  {
    UpdateFormInput(e);
  }

  /** A row once paid in full keeps showing paid whatever status the edit form sends. */
  lemma PaidRowStaysPaid(r: S.StoredRow, e: Entry, stamp: int)
    requires TwoDecimals(e.amountGross) && TwoDecimals(e.amountPaid)
    requires r.paymentStatus == S.PaidInFull
    ensures ActionUpdateInput(UpdateForm(e)).Some?
    ensures ToUIEntry(S.Updated(r, ActionUpdateInput(UpdateForm(e)).value, stamp)).status == Paid
  {
    UpdateFormInput(e);
    PaidAfterUpdate(r, ActionUpdateInput(UpdateForm(e)).value, e.status, stamp);
  }

  /** A paid row updated with the payment status the edit form sends for any status still shows paid. */
  lemma PaidAfterUpdate(r: S.StoredRow, u: S.UpdateInput, s: Status, stamp: int)
    requires r.paymentStatus == S.PaidInFull && u.paymentStatus == StatusFields(s).1
    ensures ToUIEntry(S.Updated(r, u, stamp)).status == Paid
  {
    assert u.paymentStatus.GetOr(r.paymentStatus) == S.PaidInFull;
    S.UpdatedStatuses(r, u, stamp);
  }

  /** The rate an edit leaves: "0" written as `0.00` for an exempt entry, else the stored rate. */
  lemma RateAfterEdit(r: S.StoredRow, e: Entry, stamp: int)
    requires TwoDecimals(e.amountGross) && TwoDecimals(e.amountPaid)
    ensures ActionUpdateInput(UpdateForm(e)).Some?
    ensures var r' := S.Updated(r, ActionUpdateInput(UpdateForm(e)).value, stamp);
            && r'.includesVat == (e.vatType == Inclusive)
            && r'.vatRate == if e.vatType == Exempt then ToFixed2(0.0) else r.vatRate
  {
    UpdateFormInput(e);
    ZeroRate();
  }

  /** After an edit, the entry shows the VAT type it was given, unless the row's stored rate is 0. */
  lemma UpdateVatRoundTrip(r: S.StoredRow, e: Entry, stamp: int)
    requires TwoDecimals(e.amountGross) && TwoDecimals(e.amountPaid)
    requires S.Amount(r.vatRate) != 0.0 || e.vatType == Exempt
    ensures ActionUpdateInput(UpdateForm(e)).Some?
    ensures ToUIEntry(S.Updated(r, ActionUpdateInput(UpdateForm(e)).value, stamp)).vatType == e.vatType
  {
    RateAfterEdit(r, e, stamp);
    ZeroRate();
  }

  /** A row stored at rate 0 keeps showing exempt whatever VAT type the edit form sends. */
  lemma ExemptRowStaysExempt(r: S.StoredRow, e: Entry, stamp: int)
    requires TwoDecimals(e.amountGross) && TwoDecimals(e.amountPaid)
    requires S.Amount(r.vatRate) == 0.0
    ensures ActionUpdateInput(UpdateForm(e)).Some?
    ensures ToUIEntry(S.Updated(r, ActionUpdateInput(UpdateForm(e)).value, stamp)).vatType == Exempt
  {
    RateAfterEdit(r, e, stamp);
    ZeroRate();
  }

  // ---------------------------------------------------------------------------
  // Server queries against what the page shows
  // ---------------------------------------------------------------------------

  /** The outstanding query picks exactly the rows the page shows as sent. */
  lemma OutstandingIsShownSent(r: S.StoredRow)
    ensures S.OutstandingRow(r) <==> ToUIEntry(r).status == Sent
  {
  }

  /** The overdue query picks exactly the rows `isOverdue` flags on the page. */
  lemma OverdueAgrees(r: S.StoredRow, now: Now)
    ensures S.OverdueRow(r, now.today) <==> IsOverdue(ToUIEntry(r), now, OverdueDays)
  {
  }

  /** Neither cancelled nor a draft already paid in full: the rows where the two ready tests can agree. */
  predicate ReadyComparable(r: S.Row) {
    r.invoiceStatus != S.Cancelled && !(r.invoiceStatus == S.Draft && r.paymentStatus == S.PaidInFull)
  }

  /**
   * The ready-to-invoice query picks the rows the page shows as done, except cancelled
   * rows and draft rows already paid in full.
   */
  lemma ReadyAgrees(r: S.StoredRow, now: Now)
    requires ReadyComparable(r)
    ensures S.ReadyRow(r, now.today) <==> ShowsDone(ToUIEntry(r), now)
  {
  }

  /** A past cancelled row the server does not count as ready still shows as done, ready to invoice, on the page. */
  lemma CancelledShowsReady(r: S.StoredRow, now: Now)
    requires r.invoiceStatus == S.Cancelled && r.paymentStatus != S.PaidInFull
    requires Before(r.date, now.today)
    ensures !S.ReadyRow(r, now.today) && ShowsDone(ToUIEntry(r), now)
  {
  }

  /** A past draft already paid in full counts as ready on the server but shows paid on the page. */
  lemma PaidDraftCountsReady(r: S.StoredRow, now: Now)
    requires r.invoiceStatus == S.Draft && r.paymentStatus == S.PaidInFull
    requires Before(r.date, now.today)
    ensures S.ReadyRow(r, now.today) && ToUIEntry(r).status == Paid && !ShowsDone(ToUIEntry(r), now)
  {
  }

  /** A row test counts on the rows as an entry test counts on their entries when the two agree row by row. */
  lemma {:induction false} CountShown(rows: seq<S.StoredRow>, p: S.Row -> bool, q: Entry -> bool)
    requires forall i :: 0 <= i < |rows| ==> p(rows[i]) == q(ToUIEntry(rows[i]))
    ensures CountWhere<S.Row>(rows, p) == CountWhere(MapSeq(rows, ToUIEntry), q)
  {
    if rows != [] {
      var init := rows[..|rows| - 1];
      CountShown(init, p, q);
      MapInit(rows, ToUIEntry);
      var listing: seq<S.Row> := rows;
      assert listing[..|listing| - 1] == init;
    }
  }

  /**
   * The server's month aggregates and the page's own roll-up of the same rows count the
   * same jobs in the month, the same invoices waiting for payment and the same overdue
   * invoices; they count the same
   * work ready to invoice when no row is cancelled or a draft already paid in full.
   */
  lemma ServerCountsAgree(rows: seq<S.StoredRow>, year: nat, month: nat, prev: real, now: Now)
    requires 1 <= month <= 12 && (month > 1 || year >= 1)
    ensures var a := S.AggregatesForMonth(rows, year, month, now.today);
            var k := CalculateKPIs(MapSeq(rows, ToUIEntry), month, year, prev, now);
            && a.jobsCount == k.thisMonthCount
            && a.invoicedCount == k.invoicedCount
            && a.overdueCount == k.overdueCount
            && ((forall i :: 0 <= i < |rows| ==> ReadyComparable(rows[i])) ==> a.readyToInvoiceCount == k.readyToInvoiceCount)
  {
    MonthCountAgrees(rows, year, month, prev, now);
    InvoicedCountAgrees(rows, year, month, prev, now);
    OverdueCountAgrees(rows, year, month, prev, now);
    if forall i :: 0 <= i < |rows| ==> ReadyComparable(rows[i]) {
      ReadyCountAgrees(rows, year, month, prev, now);
    }
  }

  /** The page's month test on an entry and the server's month range on its date select the same days. */
  lemma MonthMatchesBounds(e: Entry, month: nat, year: nat)
    requires 1 <= month <= 12
    ensures InMonth(e, month, year) <==> S.InRange(e.date, S.MonthBounds(year, month))
  {
    S.MonthBoundsSpan(year, month, e.date);
  }

  /** The server's count of the month's jobs equals the page roll-up's count of the month's entries. */
  lemma MonthCountAgrees(rows: seq<S.StoredRow>, year: nat, month: nat, prev: real, now: Now)
    requires 1 <= month <= 12 && (month > 1 || year >= 1)
    ensures S.AggregatesForMonth(rows, year, month, now.today).jobsCount
         == CalculateKPIs(MapSeq(rows, ToUIEntry), month, year, prev, now).thisMonthCount
  {
    var b := S.MonthBounds(year, month);
    KpiCounts(MapSeq(rows, ToUIEntry), month, year, prev, now);
    forall i | 0 <= i < |rows| ensures S.InRange(rows[i].date, b) == InMonth(ToUIEntry(rows[i]), month, year) {
      MonthMatchesBounds(ToUIEntry(rows[i]), month, year);
    }
    CountShown(rows, (r: S.Row) => S.InRange(r.date, b), e => InMonth(e, month, year));
  }

  /** The server and the page count the same invoices waiting for payment. */
  lemma InvoicedCountAgrees(rows: seq<S.StoredRow>, year: nat, month: nat, prev: real, now: Now)
    requires 1 <= month <= 12 && (month > 1 || year >= 1)
    ensures S.AggregatesForMonth(rows, year, month, now.today).invoicedCount
         == CalculateKPIs(MapSeq(rows, ToUIEntry), month, year, prev, now).invoicedCount
  {
    var listing: seq<S.Row> := rows;
    S.AggregateCounts(rows, year, month, now.today);
    KpiCounts(MapSeq(rows, ToUIEntry), month, year, prev, now);
    forall i | 0 <= i < |rows| ensures S.OutstandingRow(rows[i]) == IsSent(ToUIEntry(rows[i])) {
      OutstandingIsShownSent(rows[i]);
    }
    CountShown(rows, (r: S.Row) => S.OutstandingRow(r), IsSent);
    CountIsFilterLength(listing, (r: S.Row) => S.OutstandingRow(r));
  }

  /** The server and the page count the same overdue invoices. */
  lemma OverdueCountAgrees(rows: seq<S.StoredRow>, year: nat, month: nat, prev: real, now: Now)
    requires 1 <= month <= 12 && (month > 1 || year >= 1)
    ensures S.AggregatesForMonth(rows, year, month, now.today).overdueCount
         == CalculateKPIs(MapSeq(rows, ToUIEntry), month, year, prev, now).overdueCount
  {
    var listing: seq<S.Row> := rows;
    S.AggregateCounts(rows, year, month, now.today);
    KpiCounts(MapSeq(rows, ToUIEntry), month, year, prev, now);
    forall i | 0 <= i < |rows| ensures S.OverdueRow(rows[i], now.today) == IsOverdue(ToUIEntry(rows[i]), now, OverdueDays) {
      OverdueAgrees(rows[i], now);
    }
    CountShown(rows, (r: S.Row) => S.OverdueRow(r, now.today), e => IsOverdue(e, now, OverdueDays));
    CountIsFilterLength(listing, (r: S.Row) => S.OverdueRow(r, now.today));
  }

  /** With no cancelled row and no draft paid in full, the server and the page count the same work ready to invoice. */
  lemma ReadyCountAgrees(rows: seq<S.StoredRow>, year: nat, month: nat, prev: real, now: Now)
    requires 1 <= month <= 12 && (month > 1 || year >= 1)
    requires forall i :: 0 <= i < |rows| ==> ReadyComparable(rows[i])
    ensures S.AggregatesForMonth(rows, year, month, now.today).readyToInvoiceCount
         == CalculateKPIs(MapSeq(rows, ToUIEntry), month, year, prev, now).readyToInvoiceCount
  {
    var listing: seq<S.Row> := rows;
    S.AggregateCounts(rows, year, month, now.today);
    KpiCounts(MapSeq(rows, ToUIEntry), month, year, prev, now);
    forall i | 0 <= i < |rows| ensures S.ReadyRow(rows[i], now.today) == ShowsDone(ToUIEntry(rows[i]), now) {
      ReadyAgrees(rows[i], now);
    }
    CountShown(rows, (r: S.Row) => S.ReadyRow(r, now.today), e => ShowsDone(e, now));
    CountIsFilterLength(listing, (r: S.Row) => S.ReadyRow(r, now.today));
  }

  // ---------------------------------------------------------------------------
  // Optimistic list updates
  // ---------------------------------------------------------------------------

  /** `markAsPaid`'s record: status paid, paid today, the whole amount paid. */
  function PaidNow(e: Entry, today: CalDate): Entry {
    e.(status := Paid, paidDate := Some(today), amountPaid := e.amountGross)
  }

  /** `markInvoiceSent`'s record: status sent, with today as the sending date. */
  function SentNow(e: Entry, today: CalDate): Entry {
    e.(status := Sent, invoiceSentDate := Some(today))
  }

  /** The optimistic `markAsPaid` list: exactly the entries with the id become paid today, in place. */
  function MarkPaidById(entries: seq<Entry>, id: Id, today: CalDate): (r: seq<Entry>)
    ensures |r| == |entries|
    ensures forall i :: 0 <= i < |r| ==> r[i] == if entries[i].id == id then PaidNow(entries[i], today) else entries[i]
  {
    MapSeq(entries, (e: Entry) => if e.id != id then e else PaidNow(e, today))
  }

  /** The optimistic `markInvoiceSent` list: exactly the entries with the id become sent today, in place. */
  function MarkSentById(entries: seq<Entry>, id: Id, today: CalDate): (r: seq<Entry>)
    ensures |r| == |entries|
    ensures forall i :: 0 <= i < |r| ==> r[i] == if entries[i].id == id then SentNow(entries[i], today) else entries[i]
  {
    MapSeq(entries, (e: Entry) => if e.id != id then e else SentNow(e, today))
  }

  /** Marking as paid is the same list change as `updateStatus` to paid. */
  lemma MarkPaidIsUpdateStatus(entries: seq<Entry>, id: Id, today: CalDate)
    ensures MarkPaidById(entries, id, today) == SetStatusById(entries, id, Paid, today)
  {
    var a := MarkPaidById(entries, id, today);
    var b := SetStatusById(entries, id, Paid, today);
    forall i | 0 <= i < |entries| ensures a[i] == b[i] {
      if entries[i].id == id {
        assert a[i] == PaidNow(entries[i], today);
        assert b[i] == WithStatus(entries[i], Paid, today);
      }
    }
  }

  /**
   * Marking as sent agrees with `updateStatus` to sent exactly when the entry had no
   * sending date or already had today's: it overwrites an earlier date, which
   * `updateStatus` keeps.
   */
  lemma MarkSentOverwrites(e: Entry, today: CalDate)
    ensures SentNow(e, today) == WithStatus(e, Sent, today) <==> e.invoiceSentDate.None? || e.invoiceSentDate == Some(today)
    ensures SentNow(e, today).invoiceSentDate == Some(today)
  {
    if SentNow(e, today) == WithStatus(e, Sent, today) {
      assert SentNow(e, today).invoiceSentDate == WithStatus(e, Sent, today).invoiceSentDate;
    }
  }

  /** `duplicateEntry`'s draft: the entry dated today, back to done with nothing paid and no dates. */
  function DuplicateDraft(e: Entry, today: CalDate): Draft {
    ToDraft(e).(date := today, status := Done, amountPaid := 0.0, invoiceSentDate := None, paidDate := None)
  }

  /** The page's copy is the hook's copy, given the id the database hands out. */
  lemma DuplicateDraftIsDuplicate(e: Entry, id: Id, today: CalDate)
    ensures FromDraft(DuplicateDraft(e, today), id, Weekday(today)) == Duplicate(e, id, today)
  {
  }

  // ---------------------------------------------------------------------------
  // The page state
  // ---------------------------------------------------------------------------

  class IncomePage {
    var entries: seq<Entry>
    var selectedEntry: Option<Entry>
    var isDrawerOpen: bool
    var activeFilter: FilterType
    var searchQuery: string
    var sortDirection: SortDirection
    var selectedMonth: int
    var selectedYear: int
    var initialClients: seq<string>
    var aggregates: S.Aggregates

    /** The page as first rendered: the month's rows as entries, nothing selected, every filter off, newest first. */
    constructor(rows: seq<S.StoredRow>, year: int, month: int, aggregates: S.Aggregates, clients: seq<string>)
      ensures entries == MapSeq(rows, ToUIEntry)
      ensures selectedEntry == None && !isDrawerOpen
      ensures activeFilter == All && searchQuery == "" && sortDirection == Desc
      ensures selectedMonth == month && selectedYear == year
      ensures initialClients == clients && this.aggregates == aggregates
    {
      entries := MapSeq(rows, ToUIEntry);
      selectedEntry := None;
      isDrawerOpen := false;
      activeFilter := All;
      searchQuery := "";
      sortDirection := Desc;
      selectedMonth := month;
      selectedYear := year;
      initialClients := clients;
      this.aggregates := aggregates;
    }

    /** The settings no list action changes. */
    function Settings(): (FilterType, string, SortDirection, int, int, seq<string>, S.Aggregates)
      reads this
    {
      (activeFilter, searchQuery, sortDirection, selectedMonth, selectedYear, initialClients, aggregates)
    }

    /** New rows from the server replace the entries. */
    method Reload(rows: seq<S.StoredRow>)
      modifies this
      ensures entries == MapSeq(rows, ToUIEntry)
      ensures selectedEntry == old(selectedEntry) && isDrawerOpen == old(isDrawerOpen)
      ensures Settings() == old(Settings())
    {
      entries := MapSeq(rows, ToUIEntry);
    }

    /** `clients`: the server's client names and the entries' clients, each once, ascending. */
    function Clients(): (r: seq<string>)
      reads this
      ensures Text.StrictlySorted(r)
      ensures forall c :: c in r <==> c in initialClients || exists i :: 0 <= i < |entries| && entries[i].client == c
    {
      var shown := MapSeq(entries, ClientOf);
      assert forall i :: 0 <= i < |entries| ==> shown[i] == entries[i].client;
      Text.SortedUnique(initialClients + shown)
    }

    /** `filteredEntries`: the status filter, search and date sort, over all entries (no month filter). */
    function FilteredEntries(now: Now): (r: seq<Entry>)
      reads this
      ensures forall i :: 0 <= i < |r| ==> r[i] in entries && Selected(r[i], activeFilter, searchQuery, now)
      ensures forall i :: 0 <= i < |entries| && Selected(entries[i], activeFilter, searchQuery, now) ==> entries[i] in r
      ensures forall i, j :: 0 <= i < j < |r| ==>
                if sortDirection == Desc then OnOrBefore(r[j].date, r[i].date) else OnOrBefore(r[i].date, r[j].date)
    {
      ViewSpec(entries, activeFilter, searchQuery, sortDirection, now, 0);
      View(entries, activeFilter, searchQuery, sortDirection, now)
    }

    /** `kpis`: the server's all-time figures and trend, this month's totals from the entries as edited here. */
    function Kpis(now: Now): (k: KPIData)
      reads this
      ensures var local := CalculateKPIs(entries, selectedMonth, selectedYear, aggregates.previousMonthPaid, now);
              && k.thisMonth == local.thisMonth && k.thisMonthCount == local.thisMonthCount
              && k.totalPaid == local.totalPaid
      ensures k.outstanding == aggregates.outstanding && k.readyToInvoice == aggregates.readyToInvoice
      ensures k.readyToInvoiceCount == aggregates.readyToInvoiceCount && k.trend == aggregates.trend
      ensures k.overdueCount == aggregates.overdueCount && k.invoicedCount == aggregates.invoicedCount
      ensures k.thisMonthCount <= |entries| && TwoDecimals(k.thisMonth) && TwoDecimals(k.totalPaid)
    {
      var local := CalculateKPIs(entries, selectedMonth, selectedYear, aggregates.previousMonthPaid, now);
      KPIData(
        outstanding := aggregates.outstanding,
        readyToInvoice := aggregates.readyToInvoice,
        readyToInvoiceCount := aggregates.readyToInvoiceCount,
        thisMonth := local.thisMonth,
        thisMonthCount := local.thisMonthCount,
        trend := aggregates.trend,
        totalPaid := local.totalPaid,
        overdueCount := aggregates.overdueCount,
        invoicedCount := aggregates.invoicedCount)
    }

    /** `addEntry`: sends the form; the row the server created, if any, is prepended as an entry. */
    method AddEntry(d: Draft, created: Option<S.StoredRow>) returns (form: EntryForm)
      modifies this
      ensures form == AddForm(d)
      ensures entries == if created.Some? then [ToUIEntry(created.value)] + old(entries) else old(entries)
      ensures selectedEntry == old(selectedEntry) && isDrawerOpen == old(isDrawerOpen)
      ensures Settings() == old(Settings())
    {
      form := AddForm(d);
      if created.Some? {
        entries := [ToUIEntry(created.value)] + entries;
      }
    }

    /** `updateEntry`: replaces the entries and the selection with that id, then sends the form. */
    method UpdateEntry(updated: Entry) returns (form: EntryForm)
      modifies this
      ensures form == UpdateForm(updated)
      ensures entries == ReplaceById(old(entries), updated)
      ensures selectedEntry == if old(selectedEntry).Some? && old(selectedEntry).value.id == updated.id
                               then Some(updated) else old(selectedEntry)
      ensures isDrawerOpen == old(isDrawerOpen) && Settings() == old(Settings())
    {
      form := UpdateForm(updated);
      entries := ReplaceById(entries, updated);
      if selectedEntry.Some? && selectedEntry.value.id == updated.id {
        selectedEntry := Some(updated);
      }
    }

    /** `deleteEntry`: removes the entries with that id; a selection with that id is cleared and the drawer closed. */
    method DeleteEntry(id: Id)
      modifies this
      ensures entries == RemoveById(old(entries), id)
      ensures old(selectedEntry).Some? && old(selectedEntry).value.id == id ==> selectedEntry == None && !isDrawerOpen
      ensures !(old(selectedEntry).Some? && old(selectedEntry).value.id == id) ==>
                selectedEntry == old(selectedEntry) && isDrawerOpen == old(isDrawerOpen)
      ensures Settings() == old(Settings())
    {
      var matched := selectedEntry.Some? && selectedEntry.value.id == id;
      entries := RemoveById(entries, id);
      if matched {
        selectedEntry := None;
        isDrawerOpen := false;
      }
    }

    /** `updateStatus`: the same list change as the hook's; the server is told only of sent or paid. */
    method UpdateStatus(id: Id, status: Status, today: CalDate) returns (notifyServer: bool)
      modifies this
      ensures entries == SetStatusById(old(entries), id, status, today)
      ensures notifyServer <==> status == Sent || status == Paid
      ensures selectedEntry == old(selectedEntry) && isDrawerOpen == old(isDrawerOpen)
      ensures Settings() == old(Settings())
    {
      entries := SetStatusById(entries, id, status, today);
      notifyServer := status == Sent || status == Paid;
    }

    /** `markAsPaid`. */
    method MarkAsPaid(id: Id, today: CalDate)
      modifies this
      ensures entries == MarkPaidById(old(entries), id, today)
      ensures entries == SetStatusById(old(entries), id, Paid, today)
      ensures selectedEntry == old(selectedEntry) && isDrawerOpen == old(isDrawerOpen)
      ensures Settings() == old(Settings())
    {
      MarkPaidIsUpdateStatus(entries, id, today);
      entries := MarkPaidById(entries, id, today);
    }

    /** `markInvoiceSent`: every entry with the id gets status sent and today's sending date. */
    method MarkInvoiceSent(id: Id, today: CalDate)
      modifies this
      ensures entries == MarkSentById(old(entries), id, today)
      ensures forall i :: 0 <= i < |entries| && entries[i].id == id ==>
                entries[i].status == Sent && entries[i].invoiceSentDate == Some(today)
      ensures selectedEntry == old(selectedEntry) && isDrawerOpen == old(isDrawerOpen)
      ensures Settings() == old(Settings())
    {
      entries := MarkSentById(entries, id, today);
    }

    /** `duplicateEntry`: adds the entry's copy dated today. */
    method DuplicateEntry(e: Entry, today: CalDate, created: Option<S.StoredRow>) returns (form: EntryForm)
      modifies this
      ensures form == AddForm(DuplicateDraft(e, today))
      ensures entries == if created.Some? then [ToUIEntry(created.value)] + old(entries) else old(entries)
      ensures selectedEntry == old(selectedEntry) && isDrawerOpen == old(isDrawerOpen)
      ensures Settings() == old(Settings())
    {
      form := AddEntry(DuplicateDraft(e, today), created);
    }

    /** `openDrawer`. */
    method OpenDrawer(e: Entry)
      modifies this
      ensures selectedEntry == Some(e) && isDrawerOpen
      ensures entries == old(entries) && Settings() == old(Settings())
    {
      selectedEntry := Some(e);
      isDrawerOpen := true;
    }

    /** `closeDrawer`. */
    method CloseDrawer()
      modifies this
      ensures selectedEntry == None && !isDrawerOpen
      ensures entries == old(entries) && Settings() == old(Settings())
    {
      isDrawerOpen := false;
      selectedEntry := None;
    }
  }
}
