/**
 The billing ledger: the tables `line_items` and `invoices`, and what one
 event or request does to them.  Row ids are row numbers, so a fresh uuid is
 the next row number.
 */
module Billing {
  import opened Wrappers
  import opened Numbers
  import opened Tables

  const QUALITY_THRESHOLD := 40
  const INVOICE_BATCH_SIZE := 3

  datatype ItemStatus = PendingAi | PendingReview | NonBillable | ReadyToBill | Invoiced

  datatype LineItem = LineItem(
    timeLogId: string,
    tenantId: string,
    userId: string,
    projectId: string,
    hours: real,
    hourlyRate: Option<real>,
    total: real,
    description: string,
    logDate: string,
    category: Option<string>,
    qualityScore: Option<int>,
    billable: bool,
    status: ItemStatus,
    invoiceId: Option<nat>)

  datatype InvoiceStatus = Draft | Unpaid | Paid

  datatype Invoice = Invoice(tenantId: string, total: real, lineItemCount: nat, status: InvoiceStatus)

  datatype Ledger = Ledger(items: seq<LineItem>, invoices: seq<Invoice>)

  /** A TimeLogCreated or TimerStopped event; absent keys are `None`. */
  datatype TimeLogEvent = TimeLogEvent(
    timeLogId: string,
    tenantId: Option<string>,
    userId: Option<string>,
    projectId: Option<string>,
    hours: Option<real>,
    hourlyRate: Option<real>,
    billable: Option<bool>,
    description: Option<string>,
    logDate: Option<string>)

  datatype Insight = Insight(timeLogId: string, qualityScore: Option<int>, category: Option<string>)

  /** `stripeOk` says whether a checkout session could be created. */
  datatype Step =
    | Upsert(event: TimeLogEvent)
    | ApplyInsight(insight: Insight, stripeOk: bool)
    | Approve(itemId: nat, stripeOk: bool)
    | Pay(invoiceId: nat)

  const EMPTY := Ledger([], [])

  // ---------------------------------------------------------------- pricing

  function CalculateTotal(hours: real, hourlyRate: Option<real>): real {
    if hourlyRate.None? || hourlyRate.value <= 0.0 then 0.0 else Amount(hours, hourlyRate.value)
  }

  lemma CalculateTotalIsCents(hours: real, hourlyRate: Option<real>)
    ensures IsCents(CalculateTotal(hours, hourlyRate))
  {
    ZeroIsCents();
    if hourlyRate.Some? {
      AmountIsCents(hours, hourlyRate.value);
    }
  }

  // ---------------------------------------------------------------- queries

  /** Row of a time log, if it has one. */
  function Find(items: seq<LineItem>, timeLogId: string): (i: Option<nat>)
    ensures i.Some? ==> i.value < |items| && items[i.value].timeLogId == timeLogId
    ensures i.None? ==> forall j :: 0 <= j < |items| ==> items[j].timeLogId != timeLogId
  {
    if items == [] then None
    else
      var n := |items| - 1;
      if items[n].timeLogId == timeLogId then Some(n) else Find(items[..n], timeLogId)
  }

  function ReadyFor(tenantId: string): LineItem -> bool {
    (it: LineItem) => it.tenantId == tenantId && it.status == ReadyToBill
  }

  function ReadyTotalOf(tenantId: string): LineItem -> real {
    (it: LineItem) => if it.tenantId == tenantId && it.status == ReadyToBill then it.total else 0.0
  }

  function PointsTo(invoiceId: nat): LineItem -> bool {
    (it: LineItem) => it.invoiceId == Some(invoiceId)
  }

  function CarriedBy(invoiceId: nat): LineItem -> bool {
    (it: LineItem) => it.status == Invoiced && it.invoiceId == Some(invoiceId)
  }

  function CarriedTotal(invoiceId: nat): LineItem -> real {
    (it: LineItem) => if it.status == Invoiced && it.invoiceId == Some(invoiceId) then it.total else 0.0
  }

  // ------------------------------------------------------------------ steps

  function NewItem(e: TimeLogEvent): LineItem {
    var hours := e.hours.GetOr(0.0);
    LineItem(e.timeLogId, e.tenantId.GetOr("unknown"), e.userId.GetOr("unknown"), e.projectId.GetOr("unknown"),
             hours, e.hourlyRate, CalculateTotal(hours, e.hourlyRate), e.description.GetOr(""), e.logDate.GetOr(""),
             None, None, e.billable.GetOr(true), PendingAi, None)
  }

  /** The UPDATE of an upsert leaves tenant, user, project, status and invoice alone. */
  function Repriced(it: LineItem, e: TimeLogEvent): LineItem {
    var hours := e.hours.GetOr(0.0);
    it.(hours := hours, hourlyRate := e.hourlyRate, total := CalculateTotal(hours, e.hourlyRate),
        description := e.description.GetOr(""), billable := e.billable.GetOr(true), logDate := e.logDate.GetOr(""))
  }

  function AfterUpsert(l: Ledger, e: TimeLogEvent): Ledger {
    if e.timeLogId == "" then l
    else match Find(l.items, e.timeLogId)
      case Some(i) => l.(items := l.items[i := Repriced(l.items[i], e)])
      case None => l.(items := l.items + [NewItem(e)])
  }

  function InsightStatus(billable: bool, qualityScore: Option<int>): ItemStatus {
    if !billable then NonBillable
    else if qualityScore.Some? && qualityScore.value < QUALITY_THRESHOLD then PendingReview
    else ReadyToBill
  }

  function Rated(it: LineItem, d: Insight): LineItem {
    it.(category := d.category, qualityScore := d.qualityScore, status := InsightStatus(it.billable, d.qualityScore))
  }

  function AfterInsight(l: Ledger, d: Insight, stripeOk: bool): Ledger {
    if d.timeLogId == "" then l
    else match Find(l.items, d.timeLogId)
      case None => l
      case Some(i) =>
        var rated := l.(items := l.items[i := Rated(l.items[i], d)]);
        if rated.items[i].status == ReadyToBill then AfterGenerate(rated, l.items[i].tenantId, stripeOk) else rated
  }

  /** What invoicing does to one row. */
  function Billed(it: LineItem, tenantId: string, invoiceId: nat): LineItem {
    if ReadyFor(tenantId)(it) then it.(status := Invoiced, invoiceId := Some(invoiceId)) else it
  }

  function BilledRows(items: seq<LineItem>, tenantId: string, invoiceId: nat): seq<LineItem> {
    seq(|items|, i requires 0 <= i < |items| => Billed(items[i], tenantId, invoiceId))
  }

  function InvoiceFor(items: seq<LineItem>, tenantId: string, stripeOk: bool): Invoice {
    Invoice(tenantId, Round2(Sum(items, ReadyTotalOf(tenantId))), Count(items, ReadyFor(tenantId)),
            if stripeOk then Unpaid else Draft)
  }

  /** Bundle all ready rows of the tenant once there are enough of them. */
  function AfterGenerate(l: Ledger, tenantId: string, stripeOk: bool): Ledger {
    if Count(l.items, ReadyFor(tenantId)) < INVOICE_BATCH_SIZE then l
    else Ledger(BilledRows(l.items, tenantId, |l.invoices|),
                l.invoices + [InvoiceFor(l.items, tenantId, stripeOk)])
  }

  /** An unknown item or one not under review is an HTTP error and changes nothing. */
  function AfterApprove(l: Ledger, itemId: nat, stripeOk: bool): Ledger {
    if itemId >= |l.items| || l.items[itemId].status != PendingReview then l
    else
      var ready := l.(items := l.items[itemId := l.items[itemId].(status := ReadyToBill)]);
      AfterGenerate(ready, l.items[itemId].tenantId, stripeOk)
  }

  function AfterPay(l: Ledger, invoiceId: nat): Ledger {
    if invoiceId >= |l.invoices| then l
    else l.(invoices := l.invoices[invoiceId := l.invoices[invoiceId].(status := Paid)])
  }

  function After(l: Ledger, s: Step): Ledger {
    match s
    case Upsert(e) => AfterUpsert(l, e)
    case ApplyInsight(d, stripeOk) => AfterInsight(l, d, stripeOk)
    case Approve(itemId, stripeOk) => AfterApprove(l, itemId, stripeOk)
    case Pay(invoiceId) => AfterPay(l, invoiceId)
  }

  /** The ledger after a stream of steps, starting from empty tables. */
  function Run(steps: seq<Step>): Ledger {
    if steps == [] then EMPTY else After(Run(steps[..|steps| - 1]), steps[|steps| - 1])
  }
}
