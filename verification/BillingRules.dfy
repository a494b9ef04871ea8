/**
 What an event or a request does to the rows it concerns, field by field and in
 its own terms, and how the status of every item follows from the stream.
 */
module BillingRules {
  import opened Wrappers
  import opened Numbers
  import opened Tables
  import opened Billing
  import opened BillingInvariants
  import opened BillingService
  import Books = BillingConservation
  import Pricing

  predicate IsRowOf(l: Ledger, i: nat, timeLogId: string) {
    i < |l.items| && l.items[i].timeLogId == timeLogId && timeLogId != ""
  }

  lemma FoundRow(items: seq<LineItem>, i: nat)
    requires UniqueTimeLogs(items) && i < |items|
    ensures Find(items, items[i].timeLogId) == Some(i)
  {
  }

  /** Same invoices, and the same items but for one. */
  ghost predicate OnlyItemChanges(before: Ledger, after: Ledger, i: nat) {
    && after.invoices == before.invoices && |after.items| == |before.items|
    && forall k :: 0 <= k < |before.items| && k != i ==> after.items[k] == before.items[k]
  }

  /** The item's total is the price of its hours at its rate. */
  ghost predicate IsPriced(it: LineItem) {
    if it.hourlyRate.Some? && it.hourlyRate.value > 0.0 then IsPrice(it.total, it.hours, it.hourlyRate.value) else it.total == 0.0
  }

  // ----------------------------------------------------------------- upserts

  /** Hours, rate, text, date and billability are the event's, absent ones at their defaults. */
  ghost predicate TellsOf(it: LineItem, e: TimeLogEvent) {
    && it.timeLogId == e.timeLogId
    && it.hours == (if e.hours.Some? then e.hours.value else 0.0)
    && it.hourlyRate == e.hourlyRate
    && it.description == (if e.description.Some? then e.description.value else "")
    && it.logDate == (if e.logDate.Some? then e.logDate.value else "")
    && it.billable == (if e.billable.Some? then e.billable.value else true)
  }

  /** A repeated event rewrites what it tells and reprices the item; whose it is and how far it got stay. */
  lemma RepeatedEvent(l: Ledger, e: TimeLogEvent, i: nat)
    requires Sound(l) && IsRowOf(l, i, e.timeLogId)
    ensures
      var l' := After(l, Upsert(e));
      && OnlyItemChanges(l, l', i)
      && var it, it' := l.items[i], l'.items[i];
      && TellsOf(it', e) && IsPriced(it')
      && it'.tenantId == it.tenantId && it'.userId == it.userId && it'.projectId == it.projectId
      && it'.category == it.category && it'.qualityScore == it.qualityScore
      && it'.status == it.status && it'.invoiceId == it.invoiceId
  {
    FoundRow(l.items, i);
    hide CalculateTotal, IsPrice;
    Pricing.BillingPrices(e.hours.GetOr(0.0), e.hourlyRate);
  }

  /** A first event adds one item, owned as the event says, waiting for its insight. */
  lemma FirstEvent(l: Ledger, e: TimeLogEvent)
    requires e.timeLogId != "" && forall i :: 0 <= i < |l.items| ==> l.items[i].timeLogId != e.timeLogId
    ensures
      var l' := After(l, Upsert(e));
      && l'.invoices == l.invoices && |l'.items| == |l.items| + 1 && l'.items[..|l.items|] == l.items
      && var it := l'.items[|l.items|];
      && TellsOf(it, e) && IsPriced(it)
      && it.tenantId == (if e.tenantId.Some? then e.tenantId.value else "unknown")
      && it.userId == (if e.userId.Some? then e.userId.value else "unknown")
      && it.projectId == (if e.projectId.Some? then e.projectId.value else "unknown")
      && it.category.None? && it.qualityScore.None? && it.status == PendingAi && it.invoiceId.None?
  {
    assert Find(l.items, e.timeLogId).None?;
    hide CalculateTotal, IsPrice, Find;
    Pricing.BillingPrices(e.hours.GetOr(0.0), e.hourlyRate);
  }

  /** Events and insights that name no time log, and insights for an unknown one, change nothing. */
  lemma NothingToDo(l: Ledger, e: TimeLogEvent, d: Insight, stripeOk: bool)
    ensures e.timeLogId == "" ==> After(l, Upsert(e)) == l
    ensures d.timeLogId == "" || (forall i :: 0 <= i < |l.items| ==> l.items[i].timeLogId != d.timeLogId) ==>
      After(l, ApplyInsight(d, stripeOk)) == l
  {
  }

  // --------------------------------------------------------------- the batch

  /** The rows of the tenant that are ready to bill. */
  function ReadyOf(l: Ledger, tenantId: string): set<nat> {
    set i: nat | i < |l.items| && l.items[i].tenantId == tenantId && l.items[i].status == ReadyToBill
  }

  function WorthIfReady(tenantId: string): LineItem -> real {
    (it: LineItem) => if it.tenantId == tenantId && it.status == ReadyToBill then it.total else 0.0
  }

  lemma ReadyAreCounted(l: Ledger, tenantId: string)
    ensures |ReadyOf(l, tenantId)| == Count(l.items, ReadyFor(tenantId))
  {
    CountIsNumber(l.items, ReadyFor(tenantId));
    assert ReadyOf(l, tenantId) == Positions(l.items, ReadyFor(tenantId));
  }

  /** Fewer than three ready rows are left alone; three or more all go on one new invoice, and nothing else changes. */
  ghost predicate IsBatchChecked(before: Ledger, tenantId: string, stripeOk: bool, after: Ledger) {
    var ready := ReadyOf(before, tenantId);
    if |ready| < 3 then after == before
    else
      && after.invoices ==
        before.invoices + [Invoice(tenantId, Sum(before.items, WorthIfReady(tenantId)), |ready|, if stripeOk then Unpaid else Draft)]
      && |after.items| == |before.items|
      && forall i: nat :: i < |before.items| ==>
           after.items[i] == if i in ready then before.items[i].(status := Invoiced, invoiceId := Some(|before.invoices|))
                             else before.items[i]
  }

  lemma BatchIsChecked(l: Ledger, tenantId: string, stripeOk: bool)
    requires forall i :: 0 <= i < |l.items| ==> Priced(l.items[i])
    ensures IsBatchChecked(l, tenantId, stripeOk, AfterGenerate(l, tenantId, stripeOk))
  {
    ReadyAreCounted(l, tenantId);
    ReadyTotalIsCents(l.items, tenantId);
    CentsAreFixed(Sum(l.items, ReadyTotalOf(tenantId)));
    SumSame(l.items, l.items, ReadyTotalOf(tenantId), WorthIfReady(tenantId));
    hide Sum, Count, Priced, IsCents, Round2;
  }

  // ---------------------------------------------------------------- insights

  /** The guardrail rates the item as the insight says and decides; a ready item starts the batch check. */
  ghost predicate IsRated(l: Ledger, d: Insight, i: nat, rated: Ledger)
    requires i < |l.items|
  {
    && OnlyItemChanges(l, rated, i)
    && var it, it' := l.items[i], rated.items[i];
    && it' == it.(category := d.category, qualityScore := d.qualityScore, status := it'.status)
    && (it'.status == NonBillable <==> !it.billable)
    && (it'.status == PendingReview <==> it.billable && d.qualityScore.Some? && d.qualityScore.value < 40)
    && (it'.status == ReadyToBill <==> it.billable && (d.qualityScore.None? || d.qualityScore.value >= 40))
  }

  lemma RatedRow(l: Ledger, d: Insight, i: nat)
    requires i < |l.items|
    ensures IsRated(l, d, i, l.(items := l.items[i := Rated(l.items[i], d)]))
    ensures Priced(l.items[i]) ==> Priced(Rated(l.items[i], d))
  {
  }

  /** An insight for a known item rates it, and only a billable one without a low score goes on to the batch check. */
  lemma GuardrailDecides(l: Ledger, d: Insight, stripeOk: bool, i: nat) returns (rated: Ledger)
    requires Sound(l) && IsRowOf(l, i, d.timeLogId)
    ensures IsRated(l, d, i, rated)
    ensures
      if rated.items[i].status == ReadyToBill
      then IsBatchChecked(rated, l.items[i].tenantId, stripeOk, After(l, ApplyInsight(d, stripeOk)))
      else After(l, ApplyInsight(d, stripeOk)) == rated
  {
    rated := l.(items := l.items[i := Rated(l.items[i], d)]);
    FoundRow(l.items, i);
    assert Priced(l.items[i]);
    RatedRow(l, d, i);
    BatchIsChecked(rated, l.items[i].tenantId, stripeOk);
    hide AfterGenerate, IsBatchChecked, Priced, Find;
  }

  /** Only an item under review can be approved; approval makes it ready and starts the batch check. */
  lemma ApprovalReadies(l: Ledger, i: nat, stripeOk: bool)
    requires Sound(l)
    ensures
      if i < |l.items| && l.items[i].status == PendingReview
      then IsBatchChecked(l.(items := l.items[i := l.items[i].(status := ReadyToBill)]), l.items[i].tenantId, stripeOk,
                          After(l, Approve(i, stripeOk)))
      else After(l, Approve(i, stripeOk)) == l
  {
    if i < |l.items| {
      var ready := l.(items := l.items[i := l.items[i].(status := ReadyToBill)]);
      forall k | 0 <= k < |ready.items| ensures Priced(ready.items[k]) {
        assert Priced(l.items[k]);
      }
      BatchIsChecked(ready, l.items[i].tenantId, stripeOk);
      hide AfterGenerate, IsBatchChecked;
    }
  }

  /** A payment marks its invoice paid and changes nothing else. */
  lemma PaymentMarks(l: Ledger, k: nat)
    ensures
      var l' := After(l, Pay(k));
      && l'.items == l.items && |l'.invoices| == |l.invoices|
      && (forall j :: 0 <= j < |l.invoices| && j != k ==> l'.invoices[j] == l.invoices[j])
      && (k < |l.invoices| ==>
            && l'.invoices[k].status == Paid && l'.invoices[k].tenantId == l.invoices[k].tenantId
            && l'.invoices[k].total == l.invoices[k].total && l'.invoices[k].lineItemCount == l.invoices[k].lineItemCount)
  {
  }

  // ----------------------------------------------------- status over streams

  /** Step `j` is an insight for item `i`, which was there already. */
  predicate RatesAt(steps: seq<Step>, j: nat, i: nat)
    requires j < |steps|
  {
    steps[j].ApplyInsight? && IsRowOf(Run(steps[..j]), i, steps[j].insight.timeLogId)
  }

  ghost predicate NeverRated(steps: seq<Step>, i: nat) {
    forall j :: 0 <= j < |steps| ==> !RatesAt(steps, j, i)
  }

  ghost predicate LastRatedAt(steps: seq<Step>, j: nat, i: nat) {
    j < |steps| && RatesAt(steps, j, i) && forall k :: j < k < |steps| ==> !RatesAt(steps, k, i)
  }

  ghost predicate ApprovedSince(steps: seq<Step>, j: nat, i: nat) {
    exists k :: j < k < |steps| && ApprovesAt(steps, k, i)
  }

  predicate ApprovesAt(steps: seq<Step>, k: nat, i: nat)
    requires k < |steps|
  {
    steps[k].Approve? && steps[k].itemId == i
  }

  predicate LowScore(d: Insight) {
    d.qualityScore.Some? && d.qualityScore.value < 40
  }

  /** What a status says about the item's last insight, its billability then, and approvals since. */
  predicate Follows(status: ItemStatus, billable: bool, low: bool, approved: bool) {
    && (status == NonBillable <==> !billable)
    && (status == PendingReview <==> billable && low && !approved)
    && (status == ReadyToBill || status == Invoiced <==> billable && (low ==> approved))
  }

  lemma BatchStatus(before: Ledger, tenantId: string, stripeOk: bool, after: Ledger, i: nat)
    requires IsBatchChecked(before, tenantId, stripeOk, after) && i < |before.items|
    ensures |after.items| == |before.items| && after.items[i].timeLogId == before.items[i].timeLogId
    ensures after.items[i].status == before.items[i].status || (before.items[i].status == ReadyToBill && after.items[i].status == Invoiced)
  {
    hide Sum;
  }

  /** What one step does to the status of a row that is there. */
  lemma StatusStep(l: Ledger, s: Step, i: nat)
    requires Sound(l) && i < |l.items|
    ensures i < |After(l, s).items| && After(l, s).items[i].timeLogId == l.items[i].timeLogId
    ensures
      var was, became := l.items[i].status, After(l, s).items[i].status;
      if s.ApplyInsight? && IsRowOf(l, i, s.insight.timeLogId) then Follows(became, l.items[i].billable, LowScore(s.insight), false)
      else if s.Approve? && s.itemId == i && was == PendingReview then became == ReadyToBill || became == Invoiced
      else became == was || (was == ReadyToBill && became == Invoiced)
  {
    match s
    case Upsert(e) => UpsertStatus(l, e, i);
    case ApplyInsight(d, stripeOk) => InsightStatusStep(l, d, stripeOk, i);
    case Approve(k, stripeOk) => ApprovalStatusStep(l, k, stripeOk, i);
    case Pay(_) =>
  }

  lemma UpsertStatus(l: Ledger, e: TimeLogEvent, i: nat)
    requires Sound(l) && i < |l.items|
    ensures
      var l' := After(l, Upsert(e));
      i < |l'.items| && l'.items[i].timeLogId == l.items[i].timeLogId && l'.items[i].status == l.items[i].status
  {
    hide CalculateTotal;
  }

  lemma InsightStatusStep(l: Ledger, d: Insight, stripeOk: bool, i: nat)
    requires Sound(l) && i < |l.items|
    ensures
      var l' := After(l, ApplyInsight(d, stripeOk));
      && i < |l'.items| && l'.items[i].timeLogId == l.items[i].timeLogId
      && var was, became := l.items[i].status, l'.items[i].status;
      if IsRowOf(l, i, d.timeLogId) then Follows(became, l.items[i].billable, LowScore(d), false)
      else became == was || (was == ReadyToBill && became == Invoiced)
  {
    var l' := After(l, ApplyInsight(d, stripeOk));
    if d.timeLogId == "" || Find(l.items, d.timeLogId).None? {
      assert l' == l;
    } else {
      var r := Find(l.items, d.timeLogId).value;
      hide After, IsBatchChecked, Find;
      var rated := GuardrailDecides(l, d, stripeOk, r);
      if rated.items[r].status == ReadyToBill {
        BatchStatus(rated, l.items[r].tenantId, stripeOk, l', i);
      }
    }
  }

  lemma ApprovalStatusStep(l: Ledger, k: nat, stripeOk: bool, i: nat)
    requires Sound(l) && i < |l.items|
    ensures
      var l' := After(l, Approve(k, stripeOk));
      && i < |l'.items| && l'.items[i].timeLogId == l.items[i].timeLogId
      && var was, became := l.items[i].status, l'.items[i].status;
      if k == i && was == PendingReview then became == ReadyToBill || became == Invoiced
      else became == was || (was == ReadyToBill && became == Invoiced)
  {
    hide After, IsBatchChecked, Sound;
    ApprovalReadies(l, k, stripeOk);
    if k < |l.items| && l.items[k].status == PendingReview {
      var ready := l.(items := l.items[k := l.items[k].(status := ReadyToBill)]);
      BatchStatus(ready, l.items[k].tenantId, stripeOk, After(l, Approve(k, stripeOk)), i);
    }
  }

  lemma NewRowWaits(l: Ledger, s: Step, i: nat)
    requires |l.items| <= i < |After(l, s).items|
    ensures After(l, s).items[i].status == PendingAi
  {
  }

  lemma PrefixRates(steps: seq<Step>, n: nat, i: nat)
    requires n <= |steps|
    ensures forall j :: 0 <= j < n ==> RatesAt(steps[..n], j, i) == RatesAt(steps, j, i)
    ensures forall j :: 0 <= j < n ==> ApprovesAt(steps[..n], j, i) == ApprovesAt(steps, j, i)
  {
    hide Run;
    assert forall j :: 0 <= j < n ==> steps[..n][..j] == steps[..j];
  }

  /** An item waits for its first insight. */
  lemma {:induction false} UnratedWaits(steps: seq<Step>, i: nat)
    requires i < |Run(steps).items| && NeverRated(steps, i)
    ensures Run(steps).items[i].status == PendingAi
  {
    var n := |steps| - 1;
    var l := Run(steps[..n]);
    PrefixRates(steps, n, i);
    EveryRunIsSound(steps[..n]);
    assert Run(steps) == After(l, steps[n]);
    hide Run, After, Sound;
    if i < |l.items| {
      UnratedWaits(steps[..n], i);
      assert !RatesAt(steps, n, i);
      StatusStep(l, steps[n], i);
    } else {
      NewRowWaits(l, steps[n], i);
    }
  }

  /**
   The status of every item after every stream: it follows from whether the item
   was billable at its last insight, from that insight's score, and from approvals
   since.  In particular nothing is billed that was neither cleared nor approved.
   */
  lemma {:induction false} StatusFollowsInsight(steps: seq<Step>, j: nat, i: nat)
    requires LastRatedAt(steps, j, i)
    ensures i < |Run(steps).items| && i < |Run(steps[..j]).items|
    ensures Follows(Run(steps).items[i].status, Run(steps[..j]).items[i].billable, LowScore(steps[j].insight), ApprovedSince(steps, j, i))
  {
    var n := |steps| - 1;
    var l := Run(steps[..n]);
    assert Run(steps) == After(l, steps[n]);
    EveryRunIsSound(steps[..n]);
    hide Run, After, Sound, Follows;
    if j == n {
      StatusStep(l, steps[n], i);
      assert !ApprovedSince(steps, j, i);
    } else {
      PrefixRates(steps, n, i);
      assert steps[..n][..j] == steps[..j];
      StatusFollowsInsight(steps[..n], j, i);
      assert !RatesAt(steps, n, i);
      StatusStep(l, steps[n], i);
      SinceStep(steps, j, i);
      StillFollows(l.items[i].status, Run(steps).items[i].status, Run(steps[..j]).items[i].billable,
                   LowScore(steps[j].insight), ApprovedSince(steps[..n], j, i), ApprovesAt(steps, n, i));
    }
  }

  lemma SinceStep(steps: seq<Step>, j: nat, i: nat)
    requires j < |steps| - 1
    ensures ApprovedSince(steps, j, i) <==> ApprovedSince(steps[..|steps| - 1], j, i) || ApprovesAt(steps, |steps| - 1, i)
  {
    var n := |steps| - 1;
    if ApprovedSince(steps[..n], j, i) {
      var k :| j < k < n && ApprovesAt(steps[..n], k, i);
      assert ApprovesAt(steps, k, i);
    }
    if ApprovedSince(steps, j, i) && !ApprovesAt(steps, n, i) {
      var k :| j < k < |steps| && ApprovesAt(steps, k, i);
      assert ApprovesAt(steps[..n], k, i);
    }
  }

  lemma StillFollows(was: ItemStatus, became: ItemStatus, billable: bool, low: bool, approved: bool, approving: bool)
    requires Follows(was, billable, low, approved)
    requires if approving && was == PendingReview then became == ReadyToBill || became == Invoiced
             else became == was || (was == ReadyToBill && became == Invoiced)
    ensures Follows(became, billable, low, approved || approving)
  {
  }

  /** After every stream every item's total is the price of its hours at its rate. */
  lemma EveryItemIsPriced(steps: seq<Step>, i: nat)
    requires i < |Run(steps).items|
    ensures IsPriced(Run(steps).items[i])
  {
    EveryRunIsSound(steps);
    var it := Run(steps).items[i];
    assert Priced(it);
    hide CalculateTotal, IsPrice, Run;
    Pricing.BillingPrices(it.hours, it.hourlyRate);
  }

  // ------------------------------------------------------------ announcements

  /** Ids of exactly the rows that point to the invoice, in order. */
  ghost predicate AreRowsOf(ids: seq<nat>, l: Ledger, invoiceId: nat) {
    && (forall i: nat :: i in ids <==> i < |l.items| && l.items[i].invoiceId == Some(invoiceId))
    && forall j, k :: 0 <= j < k < |ids| ==> ids[j] < ids[k]
  }

  ghost predicate AllLinked(items: seq<LineItem>, invoices: seq<Invoice>) {
    forall i :: 0 <= i < |items| ==> Linked(items[i], invoices)
  }

  /** No invoice and no announcement, or one of each that tell the same. */
  ghost predicate Announced(l: Ledger, l': Ledger, made: bool, events: seq<Published>) {
    var k := |l.invoices|;
    if !made then |l'.invoices| == k && events == []
    else
      && |l'.invoices| == k + 1 && |events| == 1
      && var event := events[0];
      && event.InvoiceGenerated? && event.invoiceId == k
      && event.tenantId == l'.invoices[k].tenantId && event.total == l'.invoices[k].total
      && AreRowsOf(event.lineItemIds, l', k)
  }

  lemma BatchAnnounced(l: Ledger, tenantId: string, stripeOk: bool)
    requires AllLinked(l.items, l.invoices)
    ensures Announced(l, AfterGenerate(l, tenantId, stripeOk), MakesInvoice(l, tenantId), InvoiceEvents(l, tenantId, true))
  {
    hide Sum, Count, Round2;
    ReadyIdsAreReady(l.items, tenantId);
    hide ReadyIds;
    forall i | 0 <= i < |l.items| ensures l.items[i].invoiceId != Some(|l.invoices|) {
      assert Linked(l.items[i], l.invoices);
    }
  }

  lemma CheckedAnnounced(l: Ledger, s: Step)
    requires Sound(l)
    ensures
      match CheckOf(l, s)
      case None => |After(l, s).invoices| == |l.invoices|
      case Some(c) =>
        && AllLinked(c.ledger.items, c.ledger.invoices) && c.ledger.invoices == l.invoices
        && exists stripeOk :: After(l, s) == AfterGenerate(c.ledger, c.tenantId, stripeOk)
  {
    hide AfterGenerate, Find, CalculateTotal;
    if CheckOf(l, s).Some? {
      match s
      case ApplyInsight(d, stripeOk) =>
        var i := Find(l.items, d.timeLogId).value;
        ReplacedLinked(l, i, Rated(l.items[i], d));
        assert After(l, s) == AfterGenerate(CheckOf(l, s).value.ledger, CheckOf(l, s).value.tenantId, stripeOk);
      case Approve(i, stripeOk) =>
        ReplacedLinked(l, i, l.items[i].(status := ReadyToBill));
        assert After(l, s) == AfterGenerate(CheckOf(l, s).value.ledger, CheckOf(l, s).value.tenantId, stripeOk);
    }
  }

  /** An invoice is announced exactly when one is added, with its own tenant and total and the rows it bundles. */
  lemma AnnouncementsMatchInvoices(l: Ledger, s: Step)
    requires Sound(l)
    ensures Announced(l, After(l, s), |After(l, s).invoices| > |l.invoices|, EventsOf(l, s, true))
    ensures Raises(l, s, false) <==> |After(l, s).invoices| > |l.invoices|
    ensures EventsOf(l, s, false) == [] && !Raises(l, s, true)
  {
    hide After, AfterGenerate, CheckOf, MakesInvoice, InvoiceEvents, AreRowsOf, AllLinked;
    CheckedAnnounced(l, s);
    if CheckOf(l, s).Some? {
      var c := CheckOf(l, s).value;
      var stripeOk :| After(l, s) == AfterGenerate(c.ledger, c.tenantId, stripeOk);
      BatchAnnounced(c.ledger, c.tenantId, stripeOk);
      NoEventsIfFailing(c.ledger, c.tenantId);
    }
  }

  lemma NoEventsIfFailing(l: Ledger, tenantId: string)
    ensures InvoiceEvents(l, tenantId, false) == []
  {
  }

  lemma ReplacedLinked(l: Ledger, i: nat, it: LineItem)
    requires Sound(l) && i < |l.items|
    requires it.tenantId == l.items[i].tenantId && it.invoiceId == l.items[i].invoiceId && it.status != Invoiced
    ensures AllLinked(l.items[i := it], l.invoices)
  {
    var items := l.items[i := it];
    forall k | 0 <= k < |items| ensures Linked(items[k], l.invoices) {
      assert Linked(l.items[k], l.invoices);
    }
  }

  // --------------------------------------------------------------- dashboard

  /** Items of a tenant, or of all when none is named, in a status. */
  function ItemsIn(l: Ledger, scope: string, status: ItemStatus): set<nat> {
    set i: nat | i < |l.items| && (scope == "" || l.items[i].tenantId == scope) && l.items[i].status == status
  }

  function WorthIn(scope: string, status: ItemStatus): LineItem -> real {
    (it: LineItem) => if (scope == "" || it.tenantId == scope) && it.status == status then it.total else 0.0
  }

  function InvoicesOf(l: Ledger, scope: string): set<nat> {
    set k: nat | k < |l.invoices| && (scope == "" || l.invoices[k].tenantId == scope)
  }

  function PaidOf(l: Ledger, scope: string): set<nat> {
    set k: nat | k < |l.invoices| && (scope == "" || l.invoices[k].tenantId == scope) && l.invoices[k].status == Paid
  }

  function TotalIn(scope: string): Invoice -> real {
    (inv: Invoice) => if scope == "" || inv.tenantId == scope then inv.total else 0.0
  }

  function PaidTotalIn(scope: string): Invoice -> real {
    (inv: Invoice) => if (scope == "" || inv.tenantId == scope) && inv.status == Paid then inv.total else 0.0
  }

  ghost predicate CentInvoices(invoices: seq<Invoice>) {
    forall k :: 0 <= k < |invoices| ==> IsCents(invoices[k].total)
  }

  lemma StepKeepsCentInvoices(l: Ledger, s: Step)
    requires CentInvoices(l.invoices)
    ensures CentInvoices(After(l, s).invoices)
  {
    hide IsCents, Round2, Sum, Count, Find, CalculateTotal;
    forall x { Round2IsCents(x); }
  }

  lemma {:induction false} EveryInvoiceIsCents(steps: seq<Step>)
    ensures CentInvoices(Run(steps).invoices)
  {
    if steps == [] {
    } else {
      EveryInvoiceIsCents(steps[..|steps| - 1]);
      StepKeepsCentInvoices(Run(steps[..|steps| - 1]), steps[|steps| - 1]);
    }
  }

  lemma CentsSumExactly<T>(rows: seq<T>, f: T -> real)
    requires forall i :: 0 <= i < |rows| ==> IsCents(f(rows[i]))
    ensures Round2(Sum(rows, f)) == Sum(rows, f)
  {
    SumIsCents(rows, f);
    CentsAreFixed(Sum(rows, f));
  }

  lemma WorthIsExact(l: Ledger, scope: string, status: ItemStatus)
    requires Sound(l)
    ensures Round2(Sum(l.items, WorthIn(scope, status))) == Sum(l.items, WorthIn(scope, status))
  {
    hide IsCents, Round2;
    forall i | 0 <= i < |l.items| ensures IsCents(WorthIn(scope, status)(l.items[i])) {
      assert Priced(l.items[i]);
      PricedIsCents(l.items[i]);
    }
    CentsSumExactly(l.items, WorthIn(scope, status));
  }

  lemma InvoiceTotalsAreExact(invoices: seq<Invoice>, scope: string)
    requires CentInvoices(invoices)
    ensures Round2(Sum(invoices, TotalIn(scope))) == Sum(invoices, TotalIn(scope))
    ensures Round2(Sum(invoices, PaidTotalIn(scope))) == Sum(invoices, PaidTotalIn(scope))
  {
    hide IsCents, Round2;
    ZeroIsCents();
    CentsSumExactly(invoices, TotalIn(scope));
    CentsSumExactly(invoices, PaidTotalIn(scope));
  }

  /** After every stream each figure of the dashboard is the number, or the exact sum, of the rows it is named after. */
  lemma DashboardShows(steps: seq<Step>, scope: string)
    ensures
      var l := Run(steps);
      var s := Books.GetStats(l, scope);
      && s.awaitingCount == |ItemsIn(l, scope, PendingReview)| && s.awaitingAmount == Sum(l.items, WorthIn(scope, PendingReview))
      && s.readyCount == |ItemsIn(l, scope, ReadyToBill)| && s.readyAmount == Sum(l.items, WorthIn(scope, ReadyToBill))
      && s.invoiceCount == |InvoicesOf(l, scope)| && s.totalInvoiced == Sum(l.invoices, TotalIn(scope))
      && s.paidCount == |PaidOf(l, scope)| && s.totalPaid == Sum(l.invoices, PaidTotalIn(scope))
  {
    var l := Run(steps);
    EveryRunIsSound(steps);
    EveryInvoiceIsCents(steps);
    InvoiceTotalsAreExact(l.invoices, scope);
    hide Run, Round2, Sound;
    forall status: ItemStatus
      ensures Count(l.items, Books.CountIn(scope, status)) == |ItemsIn(l, scope, status)|
      ensures Round2(Sum(l.items, Books.StatusTotalIn(scope, status))) == Sum(l.items, WorthIn(scope, status))
    {
      CountIsNumber(l.items, Books.CountIn(scope, status));
      assert Positions(l.items, Books.CountIn(scope, status)) == ItemsIn(l, scope, status);
      SumSame(l.items, l.items, Books.StatusTotalIn(scope, status), WorthIn(scope, status));
      WorthIsExact(l, scope, status);
    }
    InvoiceFigures(l, scope);
  }

  lemma InvoiceFigures(l: Ledger, scope: string)
    ensures Sum(l.invoices, Books.InvoicedIn(scope)) == Sum(l.invoices, TotalIn(scope))
    ensures Sum(l.invoices, Books.PaidIn(scope)) == Sum(l.invoices, PaidTotalIn(scope))
    ensures Books.GetStats(l, scope).invoiceCount == |InvoicesOf(l, scope)| && Books.GetStats(l, scope).paidCount == |PaidOf(l, scope)|
  {
    SumSame(l.invoices, l.invoices, Books.InvoicedIn(scope), TotalIn(scope));
    SumSame(l.invoices, l.invoices, Books.PaidIn(scope), PaidTotalIn(scope));
    CountIsNumber(l.invoices, Books.IsInvoice(scope));
    assert Positions(l.invoices, Books.IsInvoice(scope)) == InvoicesOf(l, scope);
    CountIsNumber(l.invoices, Books.IsPaid(scope));
    assert Positions(l.invoices, Books.IsPaid(scope)) == PaidOf(l, scope);
    hide Sum, Count;
  }
}
