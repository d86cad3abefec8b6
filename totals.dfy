/**
 * The totals row under the income table: one pass over the visible entries that adds
 * every gross amount and sorts each entry into exactly one of three buckets by the
 * status it shows (paid, waiting for payment, still to invoice).
 */
module TableTotals {
  import opened Wrappers
  import opened Seqs
  import opened Currency
  import opened IncomeTypes
  import opened IncomeUtils
  import opened Tally
  import Dates

  /** The reduce accumulator. */
  datatype Totals = Totals(
    totalGross: real,
    paidSum: real,
    waitingSum: real,
    toInvoiceSum: real,
    paidCount: nat,
    waitingCount: nat,
    toInvoiceCount: nat)

  predicate ShowsPaid(e: Entry, now: Dates.Now) { DisplayStatus(e, now) == Some(Paid) }

  predicate ShowsSent(e: Entry, now: Dates.Now) { DisplayStatus(e, now) == Some(Sent) }

  /** The third bucket: everything that shows neither paid nor sent. */
  predicate ToInvoice(e: Entry, now: Dates.Now) { !ShowsPaid(e, now) && !ShowsSent(e, now) }

  /** The to-invoice bucket holds exactly the entries showing done and the future ones showing no status. */
  lemma ToInvoiceBucket(e: Entry, now: Dates.Now)
    ensures ToInvoice(e, now) <==> DisplayStatus(e, now) == Some(Done) || DisplayStatus(e, now) == None
    ensures ToInvoice(e, now) <==> e.status == Done
  {
    var d := DisplayStatus(e, now);
    if d.Some? {
      assert d.value == Done || d.value == Sent || d.value == Paid;
    }
  }

  /** The accumulator the fold reaches, stated bucket by bucket as filter, map and rounded sum. */
  function TotalsOf(entries: seq<Entry>, now: Dates.Now): Totals {
    var paid := Filter(entries, e => ShowsPaid(e, now));
    var waiting := Filter(entries, e => ShowsSent(e, now));
    var toInvoice := Filter(entries, e => ToInvoice(e, now));
    Totals(
      MoneySum(MapSeq(entries, Gross)),
      MoneySum(MapSeq(paid, PaidAmount)),
      MoneySum(MapSeq(waiting, Owed)),
      MoneySum(MapSeq(toInvoice, Gross)),
      |paid|, |waiting|, |toInvoice|)
  }

  /** The reduce callback: add the gross amount, then credit the entry's one bucket. */
  function Accumulate(t: Totals, e: Entry, now: Dates.Now): (t': Totals)
    ensures t'.totalGross == Add(t.totalGross, e.amountGross)
    ensures t'.paidCount + t'.waitingCount + t'.toInvoiceCount == t.paidCount + t.waitingCount + t.toInvoiceCount + 1
    ensures t'.paidCount == t.paidCount + (if ShowsPaid(e, now) then 1 else 0)
    ensures t'.waitingCount == t.waitingCount + (if ShowsSent(e, now) then 1 else 0)
    ensures t'.paidCount == t.paidCount ==> t'.paidSum == t.paidSum
    ensures t'.waitingCount == t.waitingCount ==> t'.waitingSum == t.waitingSum
    ensures t'.toInvoiceCount == t.toInvoiceCount ==> t'.toInvoiceSum == t.toInvoiceSum
  {
    var status := DisplayStatus(e, now);
    var t1 := t.(totalGross := Add(t.totalGross, e.amountGross));
    if status == Some(Paid) then
      t1.(paidSum := Add(t1.paidSum, e.amountPaid), paidCount := t1.paidCount + 1)
    else if status == Some(Sent) then
      t1.(waitingSum := Add(t1.waitingSum, Subtract(e.amountGross, e.amountPaid)), waitingCount := t1.waitingCount + 1)
    else
      t1.(toInvoiceSum := Add(t1.toInvoiceSum, e.amountGross), toInvoiceCount := t1.toInvoiceCount + 1)
  }

  /** The bucket-by-bucket totals of a list extended by one entry are the callback applied to those of the list. */
  lemma TotalsOfSnoc(s: seq<Entry>, e: Entry, now: Dates.Now)
    ensures TotalsOf(s + [e], now) == Accumulate(TotalsOf(s, now), e, now)
  {
    MapSnoc(s, e, Gross);
    MoneySumSnoc(MapSeq(s, Gross), e.amountGross);
    FilteredMoneySumSnoc(s, e, x => ShowsPaid(x, now), PaidAmount);
    FilteredMoneySumSnoc(s, e, x => ShowsSent(x, now), Owed);
    FilteredMoneySumSnoc(s, e, x => ToInvoice(x, now), Gross);
    ToInvoiceBucket(e, now);
  }

  /** `entries.reduce(callback, zero)`. */
  function Fold(entries: seq<Entry>, now: Dates.Now): Totals {
    if entries == [] then Totals(0.0, 0.0, 0.0, 0.0, 0, 0, 0)
    else Accumulate(Fold(entries[..|entries| - 1], now), entries[|entries| - 1], now)
  }

  lemma TotalsOfEmpty(now: Dates.Now)
    ensures TotalsOf([], now) == Totals(0.0, 0.0, 0.0, 0.0, 0, 0, 0)
  {
    var none: seq<Entry> := [];
    assert Filter(none, e => ShowsPaid(e, now)) == [];
    assert Filter(none, e => ShowsSent(e, now)) == [];
    assert Filter(none, e => ToInvoice(e, now)) == [];
    assert MapSeq(none, Gross) == [];
    assert MapSeq([], PaidAmount) == [];
    assert MapSeq([], Owed) == [];
  }

  /** The fold reaches the bucket-by-bucket totals. */
  lemma {:induction false} FoldIsTotalsOf(entries: seq<Entry>, now: Dates.Now)
    ensures Fold(entries, now) == TotalsOf(entries, now)
  {
    if entries == [] {
      TotalsOfEmpty(now);
    } else {
      var init, last := entries[..|entries| - 1], entries[|entries| - 1];
      assert entries == init + [last];
      calc {
        Fold(entries, now);
        Accumulate(Fold(init, now), last, now);
        { FoldIsTotalsOf(init, now); }
        Accumulate(TotalsOf(init, now), last, now);
        { TotalsOfSnoc(init, last, now); }
        TotalsOf(init + [last], now);
      }
    }
  }

  /** The `totals` reduce: the accumulator's fields are updated in place, entry by entry. */
  method ComputeTotals(entries: seq<Entry>, now: Dates.Now) returns (t: Totals)
    ensures t == TotalsOf(entries, now)
  {
    t := Totals(0.0, 0.0, 0.0, 0.0, 0, 0, 0);
    var i := 0;
    while i < |entries|
      invariant 0 <= i <= |entries|
      invariant t == Fold(entries[..i], now)
    {
      var e := entries[i];
      assert entries[..i + 1][..i] == entries[..i];
      var status := DisplayStatus(e, now);
      t := t.(totalGross := Add(t.totalGross, e.amountGross));
      if status == Some(Paid) {
        t := t.(paidSum := Add(t.paidSum, e.amountPaid), paidCount := t.paidCount + 1);
      } else if status == Some(Sent) {
        var outstanding := Subtract(e.amountGross, e.amountPaid);
        t := t.(waitingSum := Add(t.waitingSum, outstanding), waitingCount := t.waitingCount + 1);
      } else {
        t := t.(toInvoiceSum := Add(t.toInvoiceSum, e.amountGross), toInvoiceCount := t.toInvoiceCount + 1);
      }
      i := i + 1;
    }
    assert entries[..i] == entries;
    FoldIsTotalsOf(entries, now);
  }

  /** Every entry falls into exactly one bucket. */
  lemma BucketCounts(entries: seq<Entry>, now: Dates.Now)
    ensures var t := TotalsOf(entries, now);
            t.paidCount + t.waitingCount + t.toInvoiceCount == |entries|
  {
    var pp := (x: Entry) => ShowsPaid(x, now);
    var ps := (x: Entry) => ShowsSent(x, now);
    var pt := (x: Entry) => ToInvoice(x, now);
    CountIsFilterLength(entries, pp);
    CountIsFilterLength(entries, ps);
    CountIsFilterLength(entries, pt);
    CountThreeWay(entries, pp, ps, pt);
  }

  predicate Anything(e: Entry) { true }

  /** For amounts in whole cents, each bucket's sum is the exact sum of what the bucket describes. */
  lemma BucketSums(entries: seq<Entry>, now: Dates.Now)
    requires CentAmounts(entries)
    ensures var t := TotalsOf(entries, now);
            && t.totalGross == SumWhere(entries, Anything, Gross)
            && t.paidSum == SumWhere(entries, e => ShowsPaid(e, now), PaidAmount)
            && t.waitingSum == SumWhere(entries, e => ShowsSent(e, now), Outstanding)
            && t.toInvoiceSum == SumWhere(entries, e => ToInvoice(e, now), Gross)
  {
    FilterAll(entries, Anything);
    RoundedFilteredSum(entries, Anything, Gross);
    RoundedFilteredSum(entries, e => ShowsPaid(e, now), PaidAmount);
    forall i | 0 <= i < |entries| ensures Owed(entries[i]) == Outstanding(entries[i]) {
      AddSubtractExact(entries[i].amountGross, entries[i].amountPaid);
    }
    RoundedFilteredSum(entries, e => ShowsSent(e, now), Owed);
    SumSameQuantity(entries, e => ShowsSent(e, now), Owed, Outstanding);
    RoundedFilteredSum(entries, e => ToInvoice(e, now), Gross);
  }

  /**
   * The buckets account for the whole gross total: when every paid entry is paid in full,
   * the total is the paid sum, plus what is still owed and already paid on sent invoices,
   * plus the to-invoice sum.
   */
  lemma TotalsBalance(entries: seq<Entry>, now: Dates.Now)
    requires CentAmounts(entries)
    requires forall i :: 0 <= i < |entries| && ShowsPaid(entries[i], now) ==> entries[i].amountPaid == entries[i].amountGross
    ensures var t := TotalsOf(entries, now);
            t.totalGross == t.paidSum + t.waitingSum + SumWhere(entries, e => ShowsSent(e, now), PaidAmount) + t.toInvoiceSum
  {
    BucketSums(entries, now);
    var pp := (x: Entry) => ShowsPaid(x, now);
    var ps := (x: Entry) => ShowsSent(x, now);
    var pt := (x: Entry) => ToInvoice(x, now);
    var notPaid := (x: Entry) => ps(x) || pt(x);
    SumSplit(entries, pp, notPaid, Anything, Gross);
    SumSplit(entries, ps, pt, notPaid, Gross);
    SumSameQuantity(entries, pp, Gross, PaidAmount);
    SumAdd(entries, ps, Outstanding, PaidAmount, Gross);
  }

  /** What the totals row renders. */
  datatype TotalsRow = TotalsRow(jobs: nat, totalGross: real, pending: Option<real>, paid: real, waiting: real, toInvoice: real)

  /** Nothing for an empty list; otherwise the row, where the pending figure appears only when it is positive. */
  function RenderTotals(entries: seq<Entry>, t: Totals): (r: Option<TotalsRow>)
    ensures r.None? <==> |entries| == 0
    ensures r.Some? ==> r.value.jobs == |entries| && r.value.totalGross == t.totalGross
    ensures r.Some? ==> (r.value.pending.Some? <==> t.waitingSum + t.toInvoiceSum > 0.0)
    ensures r.Some? && r.value.pending.Some? ==> r.value.pending.value == t.waitingSum + t.toInvoiceSum
  {
    if |entries| == 0 then None
    else
      var pending := t.waitingSum + t.toInvoiceSum;
      Some(TotalsRow(|entries|, t.totalGross, if pending > 0.0 then Some(pending) else None,
                     t.paidSum, t.waitingSum, t.toInvoiceSum))
  }

  /** Amounts that make sense: non-negative whole cents, never more paid than billed. */
  predicate SaneAmounts(entries: seq<Entry>) {
    && CentAmounts(entries)
    && forall i :: 0 <= i < |entries| ==> 0.0 <= entries[i].amountPaid <= entries[i].amountGross
  }

  /** With sane amounts, the pending figure is shown exactly when some sent invoice is still owed or some unbilled work has a price. */
  lemma PendingShownWhenWorkUnpaid(entries: seq<Entry>, now: Dates.Now)
    requires SaneAmounts(entries)
    ensures var t := TotalsOf(entries, now);
            t.waitingSum + t.toInvoiceSum > 0.0 <==>
              exists i :: 0 <= i < |entries| &&
                ((ShowsSent(entries[i], now) && entries[i].amountGross > entries[i].amountPaid)
                 || (ToInvoice(entries[i], now) && entries[i].amountGross > 0.0))
  {
    BucketSums(entries, now);
    var ps := (x: Entry) => ShowsSent(x, now);
    var pt := (x: Entry) => ToInvoice(x, now);
    SumPositive(entries, ps, Outstanding);
    SumPositive(entries, pt, Gross);
    SumNonNegative(entries, ps, Outstanding);
    SumNonNegative(entries, pt, Gross);
  }
}
