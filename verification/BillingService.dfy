/** The billing service: handlers that INSERT into and UPDATE its two tables in place. */
module BillingService {
  import opened Wrappers
  import opened Numbers
  import opened Tables
  import opened Billing

  datatype Published =
    | InvoiceGenerated(invoiceId: nat, tenantId: string, total: real, lineItemIds: seq<nat>)
    | InvoicePaid(invoiceId: nat, tenantId: string, total: real)

  datatype ApprovalError = NotFound | NotUnderReview(status: ItemStatus)

  datatype Message =
    | TimeLogCreated(event: TimeLogEvent)
    | TimerStopped(event: TimeLogEvent)
    | AIInsightGenerated(insight: Insight)
    | Other

  /** Ids of exactly the tenant's ready rows, in insertion order. */
  ghost predicate AreReadyIds(ids: seq<nat>, items: seq<LineItem>, tenantId: string) {
    && (forall i: nat :: i in ids <==> i < |items| && ReadyFor(tenantId)(items[i]))
    && (forall j, k :: 0 <= j < k < |ids| ==> ids[j] < ids[k])
  }

  lemma ReadyIdsGrow(ids: seq<nat>, items: seq<LineItem>, row: LineItem, tenantId: string)
    requires AreReadyIds(ids, items, tenantId)
    ensures AreReadyIds(if ReadyFor(tenantId)(row) then ids + [|items|] else ids, items + [row], tenantId)
  {
    hide ReadyFor;
    assert forall j :: 0 <= j < |ids| ==> ids[j] in ids;
    assert forall i: nat :: i in ids + [|items|] <==> i in ids || i == |items|;
  }

  /** The ids of the tenant's ready rows, in insertion order. */
  function ReadyIds(items: seq<LineItem>, tenantId: string): seq<nat> {
    if items == [] then []
    else
      var n := |items| - 1;
      ReadyIds(items[..n], tenantId) + if ReadyFor(tenantId)(items[n]) then [n] else []
  }

  lemma {:induction false} ReadyIdsAreReady(items: seq<LineItem>, tenantId: string)
    ensures AreReadyIds(ReadyIds(items, tenantId), items, tenantId)
    ensures |ReadyIds(items, tenantId)| == Count(items, ReadyFor(tenantId))
  {
    hide AreReadyIds;
    if items == [] {
      NothingReady(tenantId);
    } else {
      var n := |items| - 1;
      ReadyIdsAreReady(items[..n], tenantId);
      ReadyIdsGrow(ReadyIds(items[..n], tenantId), items[..n], items[n], tenantId);
      assert items[..n] + [items[n]] == items;
      assert ReadyIds(items[..n], tenantId) + [] == ReadyIds(items[..n], tenantId);
    }
  }

  lemma NothingReady(tenantId: string)
    ensures AreReadyIds([], [], tenantId)
  {
  }

  // --------------------------------------------------------- what is published

  predicate MakesInvoice(l: Ledger, tenantId: string) {
    Count(l.items, ReadyFor(tenantId)) >= INVOICE_BATCH_SIZE
  }

  /** An invoice made is announced once, with its total and its items, unless the publish fails. */
  function InvoiceEvents(l: Ledger, tenantId: string, publishOk: bool): seq<Published> {
    if MakesInvoice(l, tenantId) && publishOk
    then [InvoiceGenerated(|l.invoices|, tenantId, Round2(Sum(l.items, ReadyTotalOf(tenantId))), ReadyIds(l.items, tenantId))]
    else []
  }

  datatype BatchCheck = BatchCheck(ledger: Ledger, tenantId: string)

  /** Where in a step the batch check runs: after an item became ready. */
  function CheckOf(l: Ledger, s: Step): Option<BatchCheck> {
    match s
    case ApplyInsight(d, _) =>
      if d.timeLogId == "" then None
      else (
        match Find(l.items, d.timeLogId)
        case None => None
        case Some(i) =>
          if InsightStatus(l.items[i].billable, d.qualityScore) == ReadyToBill
          then Some(BatchCheck(l.(items := l.items[i := Rated(l.items[i], d)]), l.items[i].tenantId)) else None)
    case Approve(i, _) =>
      if i < |l.items| && l.items[i].status == PendingReview
      then Some(BatchCheck(l.(items := l.items[i := l.items[i].(status := ReadyToBill)]), l.items[i].tenantId)) else None
    case _ => None
  }

  function EventsOf(l: Ledger, s: Step, publishOk: bool): seq<Published> {
    match CheckOf(l, s)
    case None => []
    case Some(c) => InvoiceEvents(c.ledger, c.tenantId, publishOk)
  }

  /** The publish after the commit fails and is not caught. */
  predicate Raises(l: Ledger, s: Step, publishOk: bool) {
    CheckOf(l, s).Some? && MakesInvoice(CheckOf(l, s).value.ledger, CheckOf(l, s).value.tenantId) && !publishOk
  }

  class Service {
    var items: seq<LineItem>
    var invoices: seq<Invoice>
    var published: seq<Published>

    function Books(): Ledger
      reads this
    {
      Ledger(items, invoices)
    }

    constructor ()
      ensures Books() == EMPTY && published == []
    {
      items, invoices, published := [], [], [];
    }

    /** Answers the row's id, or None when the event names no time log. */
    method UpsertLineItem(e: TimeLogEvent) returns (itemId: Option<nat>)
      modifies this`items
      ensures Books() == AfterUpsert(old(Books()), e)
      ensures itemId.None? <==> e.timeLogId == ""
      ensures itemId.Some? ==> itemId.value < |items| && items[itemId.value].timeLogId == e.timeLogId
    {
      if e.timeLogId == "" {
        return None;
      }
      var hours := e.hours.GetOr(0.0);
      var total := CalculateTotal(hours, e.hourlyRate);
      var existing := Find(items, e.timeLogId);
      if existing.Some? {
        items := items[existing.value := items[existing.value].(
          hours := hours, hourlyRate := e.hourlyRate, total := total, description := e.description.GetOr(""),
          billable := e.billable.GetOr(true), logDate := e.logDate.GetOr(""))];
        return existing;
      }
      items := items + [LineItem(e.timeLogId, e.tenantId.GetOr("unknown"), e.userId.GetOr("unknown"),
                                 e.projectId.GetOr("unknown"), hours, e.hourlyRate, total, e.description.GetOr(""),
                                 e.logDate.GetOr(""), None, None, e.billable.GetOr(true), PendingAi, None)];
      return Some(|items| - 1);
    }

    /** SELECT the tenant's ready rows: their ids in order, and the running sum of their totals. */
    method SelectReady(tenantId: string) returns (ids: seq<nat>, sum: real)
      ensures ids == ReadyIds(items, tenantId)
      ensures sum == Sum(items, ReadyTotalOf(tenantId))
    {
      ids, sum := [], 0.0;
      for i := 0 to |items|
        invariant ids == ReadyIds(items[..i], tenantId)
        invariant sum == Sum(items[..i], ReadyTotalOf(tenantId))
      {
        assert items[..i + 1][..i] == items[..i];
        if items[i].tenantId == tenantId && items[i].status == ReadyToBill {
          ids, sum := ids + [i], sum + items[i].total;
        }
      }
      assert items[..|items|] == items;
    }

    /** UPDATE line_items ... WHERE id IN (ids). */
    method MarkInvoiced(ids: seq<nat>, tenantId: string, invoiceId: nat)
      requires AreReadyIds(ids, items, tenantId)
      modifies this`items
      ensures items == BilledRows(old(items), tenantId, invoiceId)
    {
      for j := 0 to |ids|
        invariant |items| == |old(items)|
        invariant forall i :: 0 <= i < |items| ==>
          items[i] == if i in ids[..j] then Billed(old(items)[i], tenantId, invoiceId) else old(items)[i]
      {
        var id := ids[j];
        assert id in ids;
        assert ids[..j + 1] == ids[..j] + [id];
        items := items[id := items[id].(status := Invoiced, invoiceId := Some(invoiceId))];
      }
      assert ids[..|ids|] == ids;
      assert items == BilledRows(old(items), tenantId, invoiceId);
    }

    /** `raised` when the publish after the commit fails; the tables keep the invoice either way. */
    method TryGenerateInvoice(tenantId: string, stripeOk: bool, publishOk: bool) returns (raised: bool)
      modifies this
      ensures Books() == AfterGenerate(old(Books()), tenantId, stripeOk)
      ensures raised <==> MakesInvoice(old(Books()), tenantId) && !publishOk
      ensures published == old(published) + InvoiceEvents(old(Books()), tenantId, publishOk)
    {
      hide Sum, Count, AreReadyIds, ReadyFor, BilledRows;
      var ids, sum := SelectReady(tenantId);
      ReadyIdsAreReady(items, tenantId);
      if |ids| < INVOICE_BATCH_SIZE {
        return false;
      }
      var invoiceId, total := |invoices|, Round2(sum);
      invoices := invoices + [Invoice(tenantId, total, |ids|, if stripeOk then Unpaid else Draft)];
      MarkInvoiced(ids, tenantId, invoiceId);
      raised := !publishOk;
      if publishOk {
        published := published + [InvoiceGenerated(invoiceId, tenantId, total, ids)];
      }
    }

    method ApplyAiGuardrail(d: Insight, stripeOk: bool, publishOk: bool) returns (raised: bool)
      modifies this
      ensures Books() == AfterInsight(old(Books()), d, stripeOk)
      ensures raised <==> Raises(old(Books()), ApplyInsight(d, stripeOk), publishOk)
      ensures published == old(published) + EventsOf(old(Books()), ApplyInsight(d, stripeOk), publishOk)
    {
      hide AfterGenerate, InvoiceEvents, MakesInvoice;
      if d.timeLogId == "" {
        return false;
      }
      var row := Find(items, d.timeLogId);
      if row.None? {
        return false;
      }
      var i := row.value;
      var status :=
        if !items[i].billable then NonBillable
        else if d.qualityScore.Some? && d.qualityScore.value < QUALITY_THRESHOLD then PendingReview
        else ReadyToBill;
      items := items[i := items[i].(category := d.category, qualityScore := d.qualityScore)];
      items := items[i := items[i].(status := status)];
      assert items == old(items)[i := Rated(old(items)[i], d)];
      raised := false;
      if status == ReadyToBill {
        raised := TryGenerateInvoice(items[i].tenantId, stripeOk, publishOk);
      }
    }

    /** A failing publish is swallowed here, after the tables were committed. */
    method ApproveLineItem(itemId: nat, stripeOk: bool, publishOk: bool) returns (r: Result<LineItem, ApprovalError>)
      modifies this
      ensures Books() == AfterApprove(old(Books()), itemId, stripeOk)
      ensures published == old(published) + EventsOf(old(Books()), Approve(itemId, stripeOk), publishOk)
      ensures r.Success? <==> itemId < |old(items)| && old(items)[itemId].status == PendingReview
      ensures r.Success? ==> itemId < |items| && r.value == items[itemId] && r.value.status in {ReadyToBill, Invoiced}
      ensures r.Failure? ==>
        r.error == (if itemId >= |old(items)| then NotFound else NotUnderReview(old(items)[itemId].status))
    {
      if itemId >= |items| {
        return Failure(NotFound);
      }
      if items[itemId].status != PendingReview {
        return Failure(NotUnderReview(items[itemId].status));
      }
      items := items[itemId := items[itemId].(status := ReadyToBill)];
      var _ := TryGenerateInvoice(items[itemId].tenantId, stripeOk, publishOk);
      return Success(items[itemId]);
    }

    /** False only for an unknown invoice; paying twice is a no-op that publishes nothing. */
    method MarkInvoicePaid(invoiceId: nat, publishOk: bool) returns (found: bool)
      modifies this`invoices, this`published
      ensures Books() == AfterPay(old(Books()), invoiceId)
      ensures found <==> invoiceId < |invoices|
      ensures found ==> invoices[invoiceId].status == Paid
      ensures published == old(published) +
        if invoiceId < |old(invoices)| && old(invoices)[invoiceId].status != Paid && publishOk
        then [InvoicePaid(invoiceId, old(invoices)[invoiceId].tenantId, old(invoices)[invoiceId].total)]
        else []
    {
      if invoiceId >= |invoices| {
        return false;
      }
      var row := invoices[invoiceId];
      if row.status == Paid {
        assert invoices[invoiceId := row] == invoices;
        return true;
      }
      invoices := invoices[invoiceId := row.(status := Paid)];
      if publishOk {
        published := published + [InvoicePaid(invoiceId, row.tenantId, row.total)];
      }
      return true;
    }

    method HandleEvent(m: Message, stripeOk: bool, publishOk: bool) returns (raised: bool)
      modifies this
      ensures m.TimeLogCreated? || m.TimerStopped? ==> Books() == After(old(Books()), Upsert(m.event))
      ensures m.AIInsightGenerated? ==> Books() == After(old(Books()), ApplyInsight(m.insight, stripeOk))
      ensures m.Other? ==> Books() == old(Books())
      ensures published == old(published)
        + if m.AIInsightGenerated? then EventsOf(old(Books()), ApplyInsight(m.insight, stripeOk), publishOk) else []
      ensures raised <==> m.AIInsightGenerated? && Raises(old(Books()), ApplyInsight(m.insight, stripeOk), publishOk)
    {
      raised := false;
      match m
      case TimeLogCreated(e) => var _ := UpsertLineItem(e);
      case TimerStopped(e) => var _ := UpsertLineItem(e);
      case AIInsightGenerated(d) => raised := ApplyAiGuardrail(d, stripeOk, publishOk);
      case Other =>
    }
  }
}
