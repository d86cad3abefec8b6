/**
 * The income table as the server sees it: rows keyed by id, with the amounts held as
 * the decimal text the database returns, and the helpers that create, update, settle,
 * mark and delete rows. The month aggregates the dashboard reads are functions of a
 * listing of the table taken on one calendar day.
 */
module IncomeStore {
  import opened Wrappers
  import opened Seqs
  import opened Dates
  import opened Currency
  import opened Tally
  import Text
  import IncomeUtils

  /** The `invoiceStatus` column: "draft", "sent", "paid" or "cancelled". */
  datatype InvoiceStatus = Draft | InvoiceSent | InvoicePaid | Cancelled

  /** The `paymentStatus` column: "unpaid", "partial" or "paid". */
  datatype PaymentStatus = Unpaid | Partial | PaidInFull

  /** One row of the table. Amounts and the VAT rate are decimal text; dates are calendar days. */
  datatype Row = Row(
    id: string,
    date: CalDate,
    description: string,
    clientName: string,
    amountGross: string,
    amountPaid: string,
    vatRate: string,
    includesVat: bool,
    invoiceStatus: InvoiceStatus,
    paymentStatus: PaymentStatus,
    category: Option<string>,
    notes: Option<string>,
    invoiceSentDate: Option<CalDate>,
    paidDate: Option<CalDate>,
    createdAt: int,
    updatedAt: int)

  /** Every numeric column holds a number that `parseFloat` reads. */
  predicate WellFormed(r: Row) {
    ParseFloat(r.amountGross).Some? && ParseFloat(r.amountPaid).Some? && ParseFloat(r.vatRate).Some?
  }

  type StoredRow = r: Row | WellFormed(r)
    witness Row("", Date(1970, 1, 1), "", "", "0", "0", "0", true, Draft, Unpaid, None, None, None, None, 0, 0)

  /** The number a numeric column holds (every stored row has one). */
  function Amount(s: string): real {
    ParseFloat(s).GetOr(0.0)
  }

  // ---------------------------------------------------------------------------
  // Creating a row
  // ---------------------------------------------------------------------------

  /** `CreateIncomeEntryInput`; `None` is an omitted optional field. */
  datatype CreateInput = CreateInput(
    date: CalDate,
    description: string,
    clientName: string,
    amountGross: real,
    amountPaid: Option<real>,
    vatRate: Option<real>,
    includesVat: Option<bool>,
    invoiceStatus: Option<InvoiceStatus>,
    paymentStatus: Option<PaymentStatus>,
    category: Option<string>,
    notes: Option<string>,
    invoiceSentDate: Option<CalDate>,
    paidDate: Option<CalDate>)

  const DefaultVatRate: real := 17.0

  /**
   * The row `createIncomeEntry` inserts: amounts written with `toFixed(2)`, omitted
   * fields taking their defaults, and both time stamps set to the insertion time.
   */
  function NewRow(input: CreateInput, id: string, stamp: int): (r: StoredRow)
    ensures FromString(r.amountGross) == Some(Round2(input.amountGross))
    ensures FromString(r.amountPaid) == Some(Round2(input.amountPaid.GetOr(0.0)))
    ensures FromString(r.vatRate) == Some(Round2(input.vatRate.GetOr(DefaultVatRate)))
  {
    var gross, paid, rate := input.amountGross, input.amountPaid.GetOr(0.0), input.vatRate.GetOr(DefaultVatRate);
    ParseToFixed(gross);
    ParseToFixed(paid);
    ParseToFixed(rate);
    ToFixedRoundTrip(gross);
    ToFixedRoundTrip(paid);
    ToFixedRoundTrip(rate);
    Row(id, input.date, input.description, input.clientName,
        ToFixed2(gross), ToFixed2(paid), ToFixed2(rate),
        input.includesVat.GetOr(true),
        input.invoiceStatus.GetOr(Draft), input.paymentStatus.GetOr(Unpaid),
        input.category, input.notes, input.invoiceSentDate, input.paidDate,
        stamp, stamp)
  }

  /** An input that gives only the required fields. */
  function MinimalInput(date: CalDate, description: string, clientName: string, amountGross: real): CreateInput {
    CreateInput(date, description, clientName, amountGross, None, None, None, None, None, None, None, None, None)
  }

  /** The defaults: nothing paid, VAT 17% included in the amount, a draft invoice, unpaid, no dates. */
  lemma CreateDefaults(date: CalDate, description: string, clientName: string, amountGross: real, id: string, stamp: int)
    ensures var r := NewRow(MinimalInput(date, description, clientName, amountGross), id, stamp);
            && Amount(r.amountPaid) == 0.0
            && Amount(r.vatRate) == 17.0
            && r.includesVat
            && r.invoiceStatus == Draft && r.paymentStatus == Unpaid
            && r.invoiceSentDate == None && r.paidDate == None
            && r.id == id && r.date == date && r.clientName == clientName
  {
    ParseToFixed(0.0);
    ParseToFixed(17.0);
    Round2Exact(0.0);
    TwoDecimalsOfInt(17);
    Round2Exact(17.0);
  }

  // ---------------------------------------------------------------------------
  // Updating a row
  // ---------------------------------------------------------------------------

  /**
   * `UpdateIncomeEntryInput`: `None` is an omitted field. The two date fields may also
   * be given as null, `Some(None)`.
   */
  datatype UpdateInput = UpdateInput(
    id: string,
    date: Option<CalDate>,
    description: Option<string>,
    clientName: Option<string>,
    amountGross: Option<real>,
    amountPaid: Option<real>,
    vatRate: Option<real>,
    includesVat: Option<bool>,
    invoiceStatus: Option<InvoiceStatus>,
    paymentStatus: Option<PaymentStatus>,
    category: Option<string>,
    notes: Option<string>,
    invoiceSentDate: Option<Option<CalDate>>,
    paidDate: Option<Option<CalDate>>)

  /** An update that supplies no field. */
  function NoChanges(id: string): UpdateInput {
    UpdateInput(id, None, None, None, None, None, None, None, None, None, None, None, None, None)
  }

  /**
   * A supplied date writes the column. A null date becomes `undefined`, and the
   * update skips undefined values, so null never clears a date.
   */
  predicate WritesDate(d: Option<Option<CalDate>>) { d.Some? && d.value.Some? }

  function DateAfter(current: Option<CalDate>, d: Option<Option<CalDate>>): Option<CalDate> {
    if WritesDate(d) then d.value else current
  }

  /** A supplied amount is written with `toFixed(2)`; a stored text stays. */
  function TextAfter(current: string, x: Option<real>): (s: string)
    ensures x.Some? ==> FromString(s) == Some(Round2(x.value))
    ensures ParseFloat(current).Some? ==> ParseFloat(s).Some?
  {
    if x.Some? then
      ParseToFixed(x.value);
      ToFixedRoundTrip(x.value);
      ToFixed2(x.value)
    else current
  }

  /** The descriptive fields `updateIncomeEntry` writes when supplied. */
  function WithText(r: Row, u: UpdateInput): Row {
    r.(date := u.date.GetOr(r.date),
       description := u.description.GetOr(r.description),
       clientName := u.clientName.GetOr(r.clientName),
       category := if u.category.Some? then u.category else r.category,
       notes := if u.notes.Some? then u.notes else r.notes)
  }

  /** The amounts and the VAT flags `updateIncomeEntry` writes when supplied. */
  function WithAmounts(r: Row, u: UpdateInput): (r': Row)
    ensures WellFormed(r) ==> WellFormed(r')
  {
    r.(amountGross := TextAfter(r.amountGross, u.amountGross),
       amountPaid := TextAfter(r.amountPaid, u.amountPaid),
       vatRate := TextAfter(r.vatRate, u.vatRate),
       includesVat := u.includesVat.GetOr(r.includesVat))
  }

  /** The statuses and dates `updateIncomeEntry` writes when supplied. */
  function WithStatuses(r: Row, u: UpdateInput): Row {
    r.(invoiceStatus := u.invoiceStatus.GetOr(r.invoiceStatus),
       paymentStatus := u.paymentStatus.GetOr(r.paymentStatus),
       invoiceSentDate := DateAfter(r.invoiceSentDate, u.invoiceSentDate),
       paidDate := DateAfter(r.paidDate, u.paidDate))
  }

  /** The row after `updateIncomeEntry` writes the supplied fields and the update time. */
  function Updated(r: StoredRow, u: UpdateInput, stamp: int): (r': StoredRow)
    ensures r'.id == r.id && r'.createdAt == r.createdAt && r'.updatedAt == stamp
  {
    WithStatuses(WithAmounts(WithText(r, u), u), u).(updatedAt := stamp)
  }

  /** An update leaves each status as supplied, or as it was when left out. */
  lemma UpdatedStatuses(r: StoredRow, u: UpdateInput, stamp: int)
    ensures Updated(r, u, stamp).invoiceStatus == u.invoiceStatus.GetOr(r.invoiceStatus)
    ensures Updated(r, u, stamp).paymentStatus == u.paymentStatus.GetOr(r.paymentStatus)
  {
  }

  method WriteText(r: Row, u: UpdateInput) returns (row: Row)
    ensures row == WithText(r, u)
  {
    row := r;
    if u.date.Some? { row := row.(date := u.date.value); }
    if u.description.Some? { row := row.(description := u.description.value); }
    if u.clientName.Some? { row := row.(clientName := u.clientName.value); }
    if u.category.Some? { row := row.(category := u.category); }
    if u.notes.Some? { row := row.(notes := u.notes); }
  }

  method WriteAmounts(r: Row, u: UpdateInput) returns (row: Row)
    ensures row == WithAmounts(r, u)
  {
    row := r;
    if u.amountGross.Some? { row := row.(amountGross := ToFixed2(u.amountGross.value)); }
    if u.amountPaid.Some? { row := row.(amountPaid := ToFixed2(u.amountPaid.value)); }
    if u.vatRate.Some? { row := row.(vatRate := ToFixed2(u.vatRate.value)); }
    if u.includesVat.Some? { row := row.(includesVat := u.includesVat.value); }
  }

  method WriteStatuses(r: Row, u: UpdateInput) returns (row: Row)
    ensures row == WithStatuses(r, u)
  {
    row := r;
    if u.invoiceStatus.Some? { row := row.(invoiceStatus := u.invoiceStatus.value); }
    if u.paymentStatus.Some? { row := row.(paymentStatus := u.paymentStatus.value); }
    if WritesDate(u.invoiceSentDate) { row := row.(invoiceSentDate := u.invoiceSentDate.value); }
    if WritesDate(u.paidDate) { row := row.(paidDate := u.paidDate.value); }
  }

  /**
   * `updateIncomeEntry` building `updateData`: each supplied field written in turn,
   * then the update time.
   */
  method WriteSupplied(r: StoredRow, u: UpdateInput, stamp: int) returns (row: StoredRow)
    ensures row == Updated(r, u, stamp)
  {
    var written := WriteText(r, u);
    written := WriteAmounts(written, u);
    written := WriteStatuses(written, u);
    row := written.(updatedAt := stamp);
  }

  /** A supplied amount reads back as that amount rounded to cents. */
  lemma UpdateWritesAmounts(r: StoredRow, u: UpdateInput, stamp: int)
    ensures u.amountGross.Some? ==> FromString(Updated(r, u, stamp).amountGross) == Some(Round2(u.amountGross.value))
    ensures u.amountPaid.Some? ==> FromString(Updated(r, u, stamp).amountPaid) == Some(Round2(u.amountPaid.value))
    ensures u.vatRate.Some? ==> FromString(Updated(r, u, stamp).vatRate) == Some(Round2(u.vatRate.value))
  {
  }

  /** Supplying nothing touches only the update time. */
  lemma UpdateNothing(r: StoredRow, stamp: int)
    ensures Updated(r, NoChanges(r.id), stamp) == r.(updatedAt := stamp)
  {
  }

  /** Giving a date as null keeps the date the row had. */
  lemma NullKeepsDates(r: StoredRow, u: UpdateInput, stamp: int)
    requires u.invoiceSentDate == Some(None) && u.paidDate == Some(None)
    ensures Updated(r, u, stamp).invoiceSentDate == r.invoiceSentDate
    ensures Updated(r, u, stamp).paidDate == r.paidDate
  {
  }

  function Later<T>(first: Option<T>, second: Option<T>): Option<T> {
    if second.Some? then second else first
  }

  function LaterDate(first: Option<Option<CalDate>>, second: Option<Option<CalDate>>): Option<Option<CalDate>> {
    if WritesDate(second) then second else first
  }

  /** One update with the fields of both, the second one's winning where both supply a field. */
  function Merge(u1: UpdateInput, u2: UpdateInput): UpdateInput {
    UpdateInput(u2.id,
      Later(u1.date, u2.date), Later(u1.description, u2.description), Later(u1.clientName, u2.clientName),
      Later(u1.amountGross, u2.amountGross), Later(u1.amountPaid, u2.amountPaid), Later(u1.vatRate, u2.vatRate),
      Later(u1.includesVat, u2.includesVat), Later(u1.invoiceStatus, u2.invoiceStatus),
      Later(u1.paymentStatus, u2.paymentStatus), Later(u1.category, u2.category), Later(u1.notes, u2.notes),
      LaterDate(u1.invoiceSentDate, u2.invoiceSentDate), LaterDate(u1.paidDate, u2.paidDate))
  }

  /** Two updates in a row are the merged update: a field keeps the last value supplied for it. */
  lemma UpdatesCompose(r: StoredRow, u1: UpdateInput, u2: UpdateInput, s1: int, s2: int)
    ensures Updated(Updated(r, u1, s1), u2, s2) == Updated(r, Merge(u1, u2), s2)
  {
    LaterWins(u1.date, u2.date, r.date);
    LaterWins(u1.description, u2.description, r.description);
    LaterWins(u1.clientName, u2.clientName, r.clientName);
    LaterWins(u1.includesVat, u2.includesVat, r.includesVat);
    LaterWins(u1.invoiceStatus, u2.invoiceStatus, r.invoiceStatus);
    LaterWins(u1.paymentStatus, u2.paymentStatus, r.paymentStatus);
    LaterTextWins(r.amountGross, u1.amountGross, u2.amountGross);
    LaterTextWins(r.amountPaid, u1.amountPaid, u2.amountPaid);
    LaterTextWins(r.vatRate, u1.vatRate, u2.vatRate);
    LaterDateWins(r.invoiceSentDate, u1.invoiceSentDate, u2.invoiceSentDate);
    LaterDateWins(r.paidDate, u1.paidDate, u2.paidDate);
  }

  lemma LaterWins<T>(a: Option<T>, b: Option<T>, c: T)
    ensures b.GetOr(a.GetOr(c)) == Later(a, b).GetOr(c)
  {
  }

  lemma LaterTextWins(c: string, a: Option<real>, b: Option<real>)
    ensures TextAfter(TextAfter(c, a), b) == TextAfter(c, Later(a, b))
  {
  }

  lemma LaterDateWins(c: Option<CalDate>, a: Option<Option<CalDate>>, b: Option<Option<CalDate>>)
    ensures DateAfter(DateAfter(c, a), b) == DateAfter(c, LaterDate(a, b))
  {
  }

  /** Repeating an update changes nothing more than the update time. */
  lemma UpdateIdempotent(r: StoredRow, u: UpdateInput, s1: int, s2: int)
    ensures Updated(Updated(r, u, s1), u, s2) == Updated(r, u, s2)
  {
    UpdatesCompose(r, u, u, s1, s2);
    assert Merge(u, u) == u;
  }

  // ---------------------------------------------------------------------------
  // Settling and marking
  // ---------------------------------------------------------------------------

  /** The row after `markIncomeEntryAsPaid`: both statuses paid, the gross amount paid, paid today. */
  function SettledRow(r: StoredRow, today: CalDate, stamp: int): (s: StoredRow)
    ensures s.paymentStatus == PaidInFull && s.invoiceStatus == InvoicePaid && s.paidDate == Some(today)
    ensures Amount(s.amountPaid) == Amount(r.amountGross) && s.updatedAt == stamp
    ensures s.(paymentStatus := r.paymentStatus, invoiceStatus := r.invoiceStatus, amountPaid := r.amountPaid,
               paidDate := r.paidDate, updatedAt := r.updatedAt) == r
  {
    r.(paymentStatus := PaidInFull, invoiceStatus := InvoicePaid, amountPaid := r.amountGross,
       paidDate := Some(today), updatedAt := stamp)
  }

  /** The row after `markInvoiceSent`: status sent and today as the sending date, whatever it was. */
  function SentRow(r: StoredRow, today: CalDate, stamp: int): (s: StoredRow)
    ensures s.invoiceStatus == InvoiceSent && s.invoiceSentDate == Some(today) && s.updatedAt == stamp
    ensures s.(invoiceStatus := r.invoiceStatus, invoiceSentDate := r.invoiceSentDate, updatedAt := r.updatedAt) == r
  {
    r.(invoiceStatus := InvoiceSent, invoiceSentDate := Some(today), updatedAt := stamp)
  }

  // ---------------------------------------------------------------------------
  // The table
  // ---------------------------------------------------------------------------

  /** Every row sits under its own id. */
  ghost predicate KeyedById(m: map<string, StoredRow>) {
    forall id :: id in m ==> m[id].id == id
  }

  /** Storing a row under its own id keeps the table keyed by id. */
  lemma StoreUnderId(m: map<string, StoredRow>, r: StoredRow)
    requires KeyedById(m)
    ensures KeyedById(m[r.id := r])
  {
  }

  /** The `income_entries` table, keyed by id. */
  class Store {
    var rows: map<string, StoredRow>

    ghost predicate Valid()
      reads this
    {
      KeyedById(rows)
    }

    constructor()
      ensures Valid() && rows == map[]
    {
      rows := map[];
    }

    /** `createIncomeEntry`; the database chooses an id no row has. */
    method Create(input: CreateInput, id: string, stamp: int) returns (row: StoredRow)
      requires Valid() && id !in rows
      modifies this
      ensures Valid()
      ensures row == NewRow(input, id, stamp)
      ensures rows == old(rows)[id := row]
    {
      row := NewRow(input, id, stamp);
      StoreUnderId(rows, row);
      rows := rows[id := row];
    }

    /** `updateIncomeEntry`: the supplied fields one by one, then the update time; null for an unknown id. */
    method Update(u: UpdateInput, stamp: int) returns (result: Option<StoredRow>)
      requires Valid()
      modifies this
      ensures Valid()
      ensures u.id !in old(rows) ==> result == None && rows == old(rows)
      ensures u.id in old(rows) ==>
                result == Some(Updated(old(rows)[u.id], u, stamp)) && rows == old(rows)[u.id := result.value]
    {
      if u.id !in rows {
        return None;
      }
      var updated := WriteSupplied(rows[u.id], u, stamp);
      StoreUnderId(rows, updated);
      rows := rows[u.id := updated];
      result := Some(updated);
    }

    /** `markIncomeEntryAsPaid`: null and no change for an unknown id. */
    method MarkPaid(id: string, today: CalDate, stamp: int) returns (result: Option<StoredRow>)
      requires Valid()
      modifies this
      ensures Valid()
      ensures id !in old(rows) ==> result == None && rows == old(rows)
      ensures id in old(rows) ==>
                result == Some(SettledRow(old(rows)[id], today, stamp)) && rows == old(rows)[id := result.value]
    {
      if id !in rows {
        return None;
      }
      var settled := SettledRow(rows[id], today, stamp);
      StoreUnderId(rows, settled);
      rows := rows[id := settled];
      result := Some(settled);
    }

    /** `markInvoiceSent`: the update matches no row for an unknown id and returns null. */
    method MarkInvoiceSent(id: string, today: CalDate, stamp: int) returns (result: Option<StoredRow>)
      requires Valid()
      modifies this
      ensures Valid()
      ensures id !in old(rows) ==> result == None && rows == old(rows)
      ensures id in old(rows) ==>
                result == Some(SentRow(old(rows)[id], today, stamp)) && rows == old(rows)[id := result.value]
    {
      if id !in rows {
        return None;
      }
      var sent := SentRow(rows[id], today, stamp);
      StoreUnderId(rows, sent);
      rows := rows[id := sent];
      result := Some(sent);
    }

    /** `deleteIncomeEntry`: true exactly when a row was removed. */
    method Delete(id: string) returns (deleted: bool)
      requires Valid()
      modifies this
      ensures Valid()
      ensures deleted <==> id in old(rows)
      ensures rows == old(rows) - {id}
    {
      deleted := id in rows;
      rows := rows - {id};
    }
  }

  // ---------------------------------------------------------------------------
  // Month bounds
  // ---------------------------------------------------------------------------

  /** `getMonthBounds`: the first and the last day of the month, as calendar days. */
  function MonthBounds(year: nat, month: nat): (b: (CalDate, CalDate))
    requires 1 <= month <= 12
    ensures b.0.year == year && b.0.month == month && b.1.year == year && b.1.month == month
    ensures b.0.day == 1 && OnOrBefore(b.0, b.1)
  {
    (Date(year, month, 1), Date(year, month, DaysInMonth(year, month)))
  }

  predicate InRange(d: Date, b: (CalDate, CalDate)) {
    OnOrBefore(b.0, d) && OnOrBefore(d, b.1)
  }

  /** The inclusive range between the bounds is exactly the days of the month. */
  lemma MonthBoundsSpan(year: nat, month: nat, d: CalDate)
    requires 1 <= month <= 12
    ensures InRange(d, MonthBounds(year, month)) <==> d.year == year && d.month == month
  {
  }

  /** The month after (`year`, `month`). */
  function NextMonth(year: nat, month: nat): (n: (nat, nat))
    requires 1 <= month <= 12
    ensures 1 <= n.1 <= 12
    ensures n.0 * 12 + n.1 == year * 12 + month + 1
  {
    if month == 12 then (year + 1, 1) else (year, month + 1)
  }

  /** The last day is day 0 of the next month: the day just before the next month's first day. */
  lemma MonthEndIsDayZeroOfNext(year: nat, month: nat)
    requires 1 <= month <= 12
    ensures var n := NextMonth(year, month);
            DayNumber(MonthBounds(year, month).1) + 1 == DayNumber(MonthBounds(n.0, n.1).0)
  {
    DaysBeforeNextMonth(year, month);
    if month == 12 {
      DaysBeforeNextYear(year);
    }
  }

  /** The previous month: December of the year before for January, else the month before. */
  function PrevMonth(year: int, month: int): (p: (int, int))
    requires 1 <= month <= 12
    ensures 1 <= p.1 <= 12
    ensures p.0 * 12 + p.1 == year * 12 + month - 1
  {
    if month == 1 then (year - 1, 12) else (year, month - 1)
  }

  /** The previous month ends on the day before this month begins. */
  lemma PrevMonthAdjacent(year: nat, month: nat)
    requires 1 <= month <= 12 && (month > 1 || year >= 1)
    ensures var p := PrevMonth(year, month);
            p.0 >= 0 &&
            DayNumber(MonthBounds(p.0 as nat, p.1 as nat).1) + 1 == DayNumber(MonthBounds(year, month).0)
  {
    var p := PrevMonth(year, month);
    MonthEndIsDayZeroOfNext(p.0 as nat, p.1 as nat);
    assert NextMonth(p.0 as nat, p.1 as nat) == (year, month);
  }

  // ---------------------------------------------------------------------------
  // VAT
  // ---------------------------------------------------------------------------

  /**
   * The VAT on `amount` at `percent` with the money helpers: `amount·rate/(1+rate)` when
   * the amount includes VAT, else `amount·rate`, with `rate = percent/100`. `None` where
   * JavaScript would divide by zero.
   */
  function VatAmount(amount: real, percent: real, includesVat: bool): (v: Option<real>)
    ensures v.Some? ==> TwoDecimals(v.value)
  {
    var rate := Divide(percent, 100.0);
    if !includesVat then Some(Multiply(amount, rate))
    else if Add(1.0, rate) == 0.0 then None
    else Some(Divide(Multiply(amount, rate), Add(1.0, rate)))
  }

  /** One row's VAT; `None` also where a column does not read as a number (NaN). */
  function RowVat(r: Row): (v: Option<real>)
    ensures v.Some? ==> TwoDecimals(v.value)
  {
    match (FromString(r.amountGross), FromString(r.vatRate))
    case (Some(amount), Some(percent)) => VatAmount(amount, percent, r.includesVat)
    case _ => None
  }

  /** A rate that is not negative always gives a VAT amount. */
  lemma VatAmountDefined(amount: real, percent: real, includesVat: bool)
    requires percent >= -0.005
    ensures VatAmount(amount, percent, includesVat).Some?
  {
    var rate := Divide(percent, 100.0);
    assert rate >= -0.005 - 0.00005;
  }

  /** A stored row with a rate that is not negative always has a VAT amount. */
  lemma RowVatDefined(r: StoredRow)
    requires Amount(r.vatRate) >= 0.0
    ensures RowVat(r).Some?
  {
    VatAmountDefined(FromString(r.amountGross).value, FromString(r.vatRate).value, r.includesVat);
  }

  lemma ProductSign(a: real, b: real)
    requires b >= 0.0
    ensures a >= 0.0 ==> a * b >= 0.0
    ensures a <= 0.0 ==> a * b <= 0.0
  {
  }

  lemma QuotientBound(x: real, y: real, d: real)
    requires d >= 1.0 && -0.005 <= x - y <= 0.005
    ensures -0.005 <= x / d - y / d <= 0.005
  {
    var e := x - y;
    var q := e / d;
    assert x / d - y / d == q;
    assert q * d == e;
    assert e - q == q * (d - 1.0);
    ProductSign(q, d);
    ProductSign(q, d - 1.0);
  }

  /** VAT on top of the amount is the exact VAT to within half a cent, for a rate in whole hundredths. */
  lemma ExclusiveVatNear(amount: real, percent: real)
    requires TwoDecimals(percent / 100.0)
    ensures VatAmount(amount, percent, false).Some?
    ensures -0.005 <= VatAmount(amount, percent, false).value - amount * (percent / 100.0) <= 0.005
  {
    Round2Exact(percent / 100.0);
  }

  /** The VAT share of an amount that includes VAT at `rate`. */
  function InclusiveShare(amount: real, rate: real): real
    requires rate > -1.0
  {
    amount * rate / (1.0 + rate)
  }

  /** VAT taken out of a VAT-inclusive amount is the exact share to within a cent, for a rate that is not negative. */
  lemma InclusiveVatNear(amount: real, percent: real)
    requires percent >= 0.0 && TwoDecimals(percent / 100.0)
    ensures VatAmount(amount, percent, true).Some?
    ensures -0.01 <= VatAmount(amount, percent, true).value - InclusiveShare(amount, percent / 100.0) <= 0.01
  {
    var rate := percent / 100.0;
    var d := 1.0 + rate;
    InclusiveVatShape(amount, percent);
    var m := Multiply(amount, rate);
    var exact := amount * rate;
    QuotientBound(m, exact, d);
    var v := Divide(m, d);
    BoundsAdd(v, m / d, exact / d);
    assert InclusiveShare(amount, rate) == exact / d;
  }

  /** For a rate in whole hundredths that is not negative, the VAT-inclusive formula rounds only the product and the quotient. */
  lemma InclusiveVatShape(amount: real, percent: real)
    requires percent >= 0.0 && TwoDecimals(percent / 100.0)
    ensures VatAmount(amount, percent, true) == Some(Divide(Multiply(amount, percent / 100.0), 1.0 + percent / 100.0))
  {
    var rate := percent / 100.0;
    Round2Exact(rate);
    assert Divide(percent, 100.0) == rate;
    TwoDecimalsOfInt(1);
    AddSubtractExact(1.0, rate);
  }

  lemma BoundsAdd(x: real, y: real, z: real)
    requires -0.005 <= x - y <= 0.005 && -0.005 <= y - z <= 0.005
    ensures -0.01 <= x - z <= 0.01
  {
  }

  /** The running rounded sum of per-row amounts, starting at 0; one undefined amount spoils it. */
  function RunningSum(vs: seq<Option<real>>): (t: Option<real>)
    ensures t.Some? ==> TwoDecimals(t.value)
    ensures t.Some? <==> forall i :: 0 <= i < |vs| ==> vs[i].Some?
    ensures vs == [] ==> t == Some(0.0)
  {
    if vs == [] then
      TwoDecimalsOfInt(0);
      Some(0.0)
    else
      var init := vs[..|vs| - 1];
      var acc := RunningSum(init);
      var v := vs[|vs| - 1];
      assert forall i :: 0 <= i < |init| ==> init[i] == vs[i];
      if acc.Some? && v.Some? then Some(Add(acc.value, v.value)) else None
  }

  function ValueOr0(v: Option<real>): real { v.GetOr(0.0) }

  /** On amounts in whole cents the running rounded sum is the exact sum. */
  lemma {:induction false} RunningSumExact(vs: seq<Option<real>>)
    requires forall i :: 0 <= i < |vs| ==> vs[i].Some? && TwoDecimals(vs[i].value)
    ensures RunningSum(vs) == Some(ExactSum(MapSeq(vs, ValueOr0)))
  {
    if vs != [] {
      var init, last := vs[..|vs| - 1], vs[|vs| - 1];
      assert vs == init + [last];
      assert forall i :: 0 <= i < |init| ==> init[i] == vs[i];
      RunningSumExact(init);
      RunningSumSnoc(init, last, ExactSum(MapSeq(init, ValueOr0)), last.value);
      MapSnoc(init, last, ValueOr0);
      ExactSumSnoc(MapSeq(init, ValueOr0), last.value);
    }
  }

  /** One more amount in whole cents adds exactly to a running sum in whole cents. */
  lemma RunningSumSnoc(init: seq<Option<real>>, last: Option<real>, a: real, b: real)
    requires RunningSum(init) == Some(a) && last == Some(b) && TwoDecimals(a) && TwoDecimals(b)
    ensures RunningSum(init + [last]) == Some(a + b)
  {
    assert (init + [last])[..|init|] == init;
    AddSubtractExact(a, b);
  }

  /** `vatTotal` over the month's rows. */
  function VatTotal(rows: seq<Row>): (t: Option<real>)
    ensures t.Some? ==> TwoDecimals(t.value)
    ensures t.Some? <==> forall i :: 0 <= i < |rows| ==> RowVat(rows[i]).Some?
    ensures rows == [] ==> t == Some(0.0)
  {
    var vs := MapSeq(rows, RowVat);
    assert forall i :: 0 <= i < |rows| ==> vs[i] == RowVat(rows[i]);
    RunningSum(vs)
  }

  /** When every row has a VAT amount, `vatTotal` is the exact sum of the rows' VAT. */
  lemma VatTotalIsExactSum(rows: seq<Row>)
    requires forall i :: 0 <= i < |rows| ==> RowVat(rows[i]).Some?
    ensures VatTotal(rows) == Some(ExactSum(MapSeq(MapSeq(rows, RowVat), ValueOr0)))
  {
    var vs := MapSeq(rows, RowVat);
    forall i | 0 <= i < |vs| ensures vs[i].Some? && TwoDecimals(vs[i].value) {
      assert vs[i] == RowVat(rows[i]);
    }
    RunningSumExact(vs);
  }

  // ---------------------------------------------------------------------------
  // Month aggregates
  // ---------------------------------------------------------------------------

  /** The outstanding query: invoice sent and payment not complete. */
  predicate OutstandingRow(r: Row) {
    r.invoiceStatus == InvoiceSent && r.paymentStatus != PaidInFull
  }

  /** The ready-to-invoice query: a draft invoice for a day before today. */
  predicate ReadyRow(r: Row, today: CalDate)
    ensures ReadyRow(r, today) ==> !OutstandingRow(r)
  {
    r.invoiceStatus == Draft && Before(r.date, today)
  }

  /** The overdue query: outstanding, sent more than 30 days before today. */
  predicate OverdueRow(r: Row, today: CalDate)
    ensures OverdueRow(r, today) ==> OutstandingRow(r)
  {
    OutstandingRow(r) && r.invoiceSentDate.Some? &&
    DayNumber(r.invoiceSentDate.value) < DayNumber(today) - IncomeUtils.OverdueDays
  }

  /** The previous-month query: in the previous month's range and fully paid. */
  predicate PaidInRange(r: Row, b: (CalDate, CalDate))
    ensures PaidInRange(r, b) ==> !OutstandingRow(r)
  {
    InRange(r.date, b) && r.paymentStatus == PaidInFull
  }

  function GrossOf(r: Row): real { Amount(r.amountGross) }

  function PaidOf(r: Row): real { Amount(r.amountPaid) }

  /** `IncomeAggregates`; `vatTotal` is `None` where JavaScript gets NaN or an infinity. */
  datatype Aggregates = Aggregates(
    totalGross: real,
    totalPaid: real,
    totalUnpaid: real,
    vatTotal: Option<real>,
    jobsCount: nat,
    outstanding: real,
    readyToInvoice: real,
    readyToInvoiceCount: nat,
    invoicedCount: nat,
    overdueCount: nat,
    previousMonthPaid: real,
    trend: real)

  /**
   * `getIncomeAggregatesForMonth` over a listing of the table: the database sums the
   * decimal columns exactly and an empty sum reads as 0.
   */
  function AggregatesForMonth(listing: seq<Row>, year: nat, month: nat, today: CalDate): (a: Aggregates)
    requires 1 <= month <= 12 && (month > 1 || year >= 1)
    ensures a.overdueCount <= a.invoicedCount <= |listing|
    ensures a.jobsCount <= |listing| && a.readyToInvoiceCount <= |listing|
    ensures TwoDecimals(a.totalUnpaid) && TwoDecimals(a.outstanding)
    ensures a.previousMonthPaid <= 0.0 ==> a.trend == 0.0
    ensures listing == [] ==> a.vatTotal == Some(0.0) && a.jobsCount == 0 && a.totalGross == 0.0
  {
    var b := MonthBounds(year, month);
    var p := PrevMonth(year, month);
    var pb := MonthBounds(p.0 as nat, p.1 as nat);
    var inMonth := (r: Row) => InRange(r.date, b);
    var outstanding := (r: Row) => OutstandingRow(r);
    var overdue := (r: Row) => OverdueRow(r, today);
    CountIsFilterLength(listing, outstanding);
    CountIsFilterLength(listing, overdue);
    FilterCountMonotone(listing, overdue, outstanding);
    var totalGross := SumWhere(listing, inMonth, GrossOf);
    var totalPaid := SumWhere(listing, inMonth, PaidOf);
    var previousMonthPaid := SumWhere(listing, (r: Row) => PaidInRange(r, pb), PaidOf);
    Aggregates(
      totalGross,
      totalPaid,
      Subtract(totalGross, totalPaid),
      VatTotal(Filter(listing, inMonth)),
      CountWhere(listing, inMonth),
      Subtract(SumWhere(listing, outstanding, GrossOf), SumWhere(listing, outstanding, PaidOf)),
      SumWhere(listing, (r: Row) => ReadyRow(r, today), GrossOf),
      CountWhere(listing, (r: Row) => ReadyRow(r, today)),
      CountWhere(listing, outstanding),
      CountWhere(listing, overdue),
      previousMonthPaid,
      IncomeUtils.Trend(totalPaid, previousMonthPaid))
  }

  /** The three counts of the month aggregates count the ready, outstanding and overdue rows of the whole listing. */
  lemma AggregateCounts(listing: seq<Row>, year: nat, month: nat, today: CalDate)
    requires 1 <= month <= 12 && (month > 1 || year >= 1)
    ensures var a := AggregatesForMonth(listing, year, month, today);
            && a.readyToInvoiceCount == |Filter(listing, (r: Row) => ReadyRow(r, today))|
            && a.invoicedCount == |Filter(listing, (r: Row) => OutstandingRow(r))|
            && a.overdueCount == |Filter(listing, (r: Row) => OverdueRow(r, today))|
  {
    CountIsFilterLength(listing, (r: Row) => ReadyRow(r, today));
    CountIsFilterLength(listing, (r: Row) => OutstandingRow(r));
    CountIsFilterLength(listing, (r: Row) => OverdueRow(r, today));
  }

  /** A settled row leaves the outstanding, overdue and ready queues, and owes nothing. */
  lemma SettledLeavesQueues(r: StoredRow, today: CalDate, stamp: int)
    ensures var s := SettledRow(r, today, stamp);
            && !OutstandingRow(s) && !OverdueRow(s, today) && !ReadyRow(s, today)
            && PaidOf(s) == GrossOf(s) && GrossOf(s) == GrossOf(r)
            && s.paidDate == Some(today)
  {
  }

  /** A row marked sent joins the outstanding queue unless it is already paid in full, and carries today's date even if it was sent before. */
  lemma SentJoinsOutstanding(r: StoredRow, today: CalDate, stamp: int)
    ensures OutstandingRow(SentRow(r, today, stamp)) <==> r.paymentStatus != PaidInFull
    ensures SentRow(r, today, stamp).invoiceSentDate == Some(today)
    ensures !OverdueRow(SentRow(r, today, stamp), today)
  {
  }

  // ---------------------------------------------------------------------------
  // Client names
  // ---------------------------------------------------------------------------

  function ClientNameOf(r: Row): string { r.clientName }

  /** `getUniqueClients`: each client name once, in ascending order. */
  function UniqueClientNames(listing: seq<Row>): (names: seq<string>)
    ensures Text.StrictlySorted(names)
    ensures forall c :: c in names <==> exists i :: 0 <= i < |listing| && listing[i].clientName == c
  {
    var all := MapSeq(listing, ClientNameOf);
    assert forall i :: 0 <= i < |listing| ==> all[i] == listing[i].clientName;
    Text.SortedUnique(all)
  }
}
