/**
 * The records of the income tracker's user interface: an income entry with its
 * stored status and VAT kind, the dashboard figures, and the list filters.
 */
module IncomeTypes {
  import opened Wrappers
  import Dates

  /** The stored lifecycle of an entry: work done, invoice sent, paid. */
  datatype Status = Done | Sent | Paid

  /** The Hebrew label the app stores and shows for a status. */
  function StatusLabel(s: Status): (text: string)
    ensures |text| >= 4
  {
    match s
    case Done => "בוצע"
    case Sent => "נשלחה"
    case Paid => "שולם"
  }

  /** How VAT applies to an entry: added on top, not charged, or already inside the amount. */
  datatype VatType = Taxable | Exempt | Inclusive

  function VatLabel(v: VatType): (text: string)
    ensures |text| >= 8
  {
    match v
    case Taxable => "חייב מע״מ"
    case Exempt => "ללא מע״מ"
    case Inclusive => "כולל מע״מ"
  }

  /** Distinct statuses and distinct VAT kinds carry distinct labels. */
  lemma LabelsDistinct(a: Status, b: Status, v: VatType, w: VatType)
    ensures StatusLabel(a) == StatusLabel(b) <==> a == b
    ensures VatLabel(v) == VatLabel(w) <==> v == w
  {
    if a != b {
      assert StatusLabel(a)[1] != StatusLabel(b)[1] || StatusLabel(a)[0] != StatusLabel(b)[0];
    }
    if v != w {
      assert VatLabel(v)[0] != VatLabel(w)[0];
    }
  }

  /** An entry id: numeric in the local mock data, a UUID string from the database; `===` compares both. */
  datatype Id = NumId(n: int) | StrId(s: string)

  /** `IncomeEntry`; the optional fields are `None` where the record leaves them undefined. */
  datatype Entry = Entry(
    id: Id,
    date: Dates.CalDate,
    weekday: string,
    description: string,
    amountGross: real,
    amountPaid: real,
    client: string,
    status: Status,
    vatType: VatType,
    notes: Option<string>,
    invoiceSentDate: Option<Dates.CalDate>,
    paidDate: Option<Dates.CalDate>,
    category: Option<string>)

  /** `Omit<IncomeEntry, "id" | "weekday">`: what the add-entry form hands over. */
  datatype Draft = Draft(
    date: Dates.CalDate,
    description: string,
    amountGross: real,
    amountPaid: real,
    client: string,
    status: Status,
    vatType: VatType,
    notes: Option<string>,
    invoiceSentDate: Option<Dates.CalDate>,
    paidDate: Option<Dates.CalDate>,
    category: Option<string>)

  /** `{ ...draft, id, weekday }`. */
  function FromDraft(d: Draft, id: Id, weekday: string): (e: Entry)
    ensures ToDraft(e) == d && e.id == id && e.weekday == weekday
  {
    Entry(id, d.date, weekday, d.description, d.amountGross, d.amountPaid, d.client,
          d.status, d.vatType, d.notes, d.invoiceSentDate, d.paidDate, d.category)
  }

  /** The draft part of an entry (all but id and weekday). */
  function ToDraft(e: Entry): Draft {
    Draft(e.date, e.description, e.amountGross, e.amountPaid, e.client,
          e.status, e.vatType, e.notes, e.invoiceSentDate, e.paidDate, e.category)
  }

  /** The status filter chips above the table. */
  datatype FilterType = All | ReadyToInvoice | Invoiced | PaidOnly | OverdueOnly

  datatype SortDirection = Asc | Desc

  /** `KPIData`, the dashboard cards. */
  datatype KPIData = KPIData(
    outstanding: real,
    readyToInvoice: real,
    readyToInvoiceCount: nat,
    thisMonth: real,
    thisMonthCount: nat,
    trend: real,
    totalPaid: real,
    overdueCount: nat,
    invoicedCount: nat)
}
