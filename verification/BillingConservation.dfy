/**
 When invoices partition the billed items.  Nothing in the ledger guards an
 item that is already invoiced against a late insight or a late reprice; these
 are exactly the steps that break the books.
 */
module BillingConservation {
  import opened Wrappers
  import opened Numbers
  import opened Tables
  import opened Billing
  import opened BillingInvariants

  /** Every billed item is carried by its invoice, and a linked item is billed. */
  ghost predicate Settled(it: LineItem) {
    it.invoiceId.Some? <==> it.status == Invoiced
  }

  ghost predicate Balanced(l: Ledger, k: nat)
    requires k < |l.invoices|
  {
    && l.invoices[k].lineItemCount == Count(l.items, CarriedBy(k))
    && l.invoices[k].total == Sum(l.items, CarriedTotal(k))
  }

  /** The invoices partition the billed items. */
  ghost predicate Partitioned(l: Ledger) {
    && (forall i :: 0 <= i < |l.items| ==> Settled(l.items[i]))
    && (forall k: nat :: k < |l.invoices| ==> Balanced(l, k))
  }

  /** The step changes what an invoiced item is or costs: the exact reason for books that do not balance. */
  predicate BreaksBooks(l: Ledger, s: Step) {
    match s
    case Upsert(e) =>
      e.timeLogId != "" && Find(l.items, e.timeLogId).Some? &&
      var it := l.items[Find(l.items, e.timeLogId).value];
      it.status == Invoiced && Repriced(it, e).total != it.total
    case ApplyInsight(d, _) =>
      d.timeLogId != "" && Find(l.items, d.timeLogId).Some? &&
      l.items[Find(l.items, d.timeLogId).value].status == Invoiced
    case Approve(_, _) => false
    case Pay(_) => false
  }

  // ------------------------------------------------------------ one step

  lemma ReplaceUnbilled(l: Ledger, i: nat, it: LineItem)
    requires Partitioned(l) && i < |l.items|
    requires l.items[i].status != Invoiced && it.status != Invoiced && it.invoiceId == l.items[i].invoiceId
    ensures Partitioned(l.(items := l.items[i := it]))
  {
    var l' := l.(items := l.items[i := it]);
    assert Settled(l.items[i]);
    forall k: nat | k < |l'.invoices| ensures Balanced(l', k) {
      assert Balanced(l, k);
      CountUpdate(l.items, i, it, CarriedBy(k));
      SumUpdate(l.items, i, it, CarriedTotal(k));
    }
  }

  lemma GenerateKeepsPartition(l: Ledger, tenantId: string, stripeOk: bool)
    requires Sound(l) && Partitioned(l)
    ensures Partitioned(AfterGenerate(l, tenantId, stripeOk))
  {
    var l' := AfterGenerate(l, tenantId, stripeOk);
    if l' != l {
      var n := |l.invoices|;
      forall i | 0 <= i < |l'.items| ensures Settled(l'.items[i]) {
        assert Settled(l.items[i]);
      }
      forall i | 0 <= i < |l.items|
        ensures CarriedBy(n)(l'.items[i]) == ReadyFor(tenantId)(l.items[i])
        ensures CarriedTotal(n)(l'.items[i]) == ReadyTotalOf(tenantId)(l.items[i])
        ensures forall k: nat {:trigger CarriedBy(k)} :: k < n ==> CarriedBy(k)(l'.items[i]) == CarriedBy(k)(l.items[i])
        ensures forall k: nat {:trigger CarriedTotal(k)} :: k < n ==> CarriedTotal(k)(l'.items[i]) == CarriedTotal(k)(l.items[i])
      {
        assert Linked(l.items[i], l.invoices);
      }
      forall k: nat | k < |l'.invoices| ensures Balanced(l', k) {
        if k < n {
          assert Balanced(l, k);
          CountSame(l'.items, l.items, CarriedBy(k), CarriedBy(k));
          SumSame(l'.items, l.items, CarriedTotal(k), CarriedTotal(k));
        } else {
          CountSame(l'.items, l.items, CarriedBy(n), ReadyFor(tenantId));
          SumSame(l'.items, l.items, CarriedTotal(n), ReadyTotalOf(tenantId));
          ReadyTotalIsCents(l.items, tenantId);
          CentsAreFixed(Sum(l.items, ReadyTotalOf(tenantId)));
        }
      }
    }
  }

  lemma UpsertKeepsPartition(l: Ledger, e: TimeLogEvent)
    requires Sound(l) && Partitioned(l) && !BreaksBooks(l, Upsert(e))
    ensures Partitioned(AfterUpsert(l, e))
  {
    var l' := AfterUpsert(l, e);
    if e.timeLogId != "" {
      forall k: nat | k < |l'.invoices| ensures Balanced(l', k) {
        assert Balanced(l, k);
        match Find(l.items, e.timeLogId)
        case Some(i) =>
          CountUpdate(l.items, i, Repriced(l.items[i], e), CarriedBy(k));
          SumUpdate(l.items, i, Repriced(l.items[i], e), CarriedTotal(k));
        case None =>
          CountAppend(l.items, NewItem(e), CarriedBy(k));
          SumAppend(l.items, NewItem(e), CarriedTotal(k));
      }
    }
  }

  lemma HarmlessStepKeepsPartition(l: Ledger, s: Step)
    requires Sound(l) && Partitioned(l) && !BreaksBooks(l, s)
    ensures Partitioned(After(l, s))
  {
    match s
    case Upsert(e) => UpsertKeepsPartition(l, e);
    case ApplyInsight(d, stripeOk) =>
      if d.timeLogId != "" && Find(l.items, d.timeLogId).Some? {
        var i := Find(l.items, d.timeLogId).value;
        var rated := Rated(l.items[i], d);
        ReplaceUnbilled(l, i, rated);
        assert Priced(l.items[i]);
        ReplaceKeepsSound(l, i, rated);
        GenerateKeepsPartition(l.(items := l.items[i := rated]), l.items[i].tenantId, stripeOk);
      }
    case Approve(i, stripeOk) =>
      if i < |l.items| && l.items[i].status == PendingReview {
        var ready := l.items[i].(status := ReadyToBill);
        ReplaceUnbilled(l, i, ready);
        assert Priced(l.items[i]);
        ReplaceKeepsSound(l, i, ready);
        GenerateKeepsPartition(l.(items := l.items[i := ready]), l.items[i].tenantId, stripeOk);
      }
    case Pay(_) =>
      var l' := After(l, s);
      forall k: nat | k < |l'.invoices| ensures Balanced(l', k) {
        assert Balanced(l, k);
      }
  }

  lemma LateRepriceBreaks(l: Ledger, e: TimeLogEvent)
    requires Sound(l) && Partitioned(l) && BreaksBooks(l, Upsert(e))
    ensures !Partitioned(AfterUpsert(l, e))
  {
    var i := Find(l.items, e.timeLogId).value;
    assert Settled(l.items[i]) && Linked(l.items[i], l.invoices);
    var k := l.items[i].invoiceId.value;
    SumUpdate(l.items, i, Repriced(l.items[i], e), CarriedTotal(k));
    assert Balanced(l, k);
    assert !Balanced(AfterUpsert(l, e), k);
  }

  /** A late insight takes the item away from its invoice, whether it is billed again or not. */
  lemma LateInsightBreaks(l: Ledger, d: Insight, stripeOk: bool)
    requires Sound(l) && Partitioned(l) && BreaksBooks(l, ApplyInsight(d, stripeOk))
    ensures !Partitioned(AfterInsight(l, d, stripeOk))
  {
    hide Count, Sum, Find, UniqueTimeLogs, Priced;
    var i := Find(l.items, d.timeLogId).value;
    assert Settled(l.items[i]) && Linked(l.items[i], l.invoices);
    var k := l.items[i].invoiceId.value;
    var rated := l.(items := l.items[i := Rated(l.items[i], d)]);
    var l' := AfterInsight(l, d, stripeOk);
    CountUpdate(l.items, i, Rated(l.items[i], d), CarriedBy(k));
    CountMonotone(l'.items, rated.items, CarriedBy(k), CarriedBy(k));
    assert Balanced(l, k);
    assert !Balanced(l', k);
  }

  /** From balanced books, one step leaves them balanced if and only if it does not touch a billed item's price or status. */
  lemma StepKeepsPartitionIff(l: Ledger, s: Step)
    requires Sound(l) && Partitioned(l)
    ensures Partitioned(After(l, s)) <==> !BreaksBooks(l, s)
  {
    if BreaksBooks(l, s) {
      match s
      case Upsert(e) => LateRepriceBreaks(l, e);
      case ApplyInsight(d, stripeOk) => LateInsightBreaks(l, d, stripeOk);
      case Approve(_, _) =>
      case Pay(_) =>
    } else {
      HarmlessStepKeepsPartition(l, s);
    }
  }

  // ---------------------------------------------------------- whole streams

  ghost predicate NeverBreaksBooks(steps: seq<Step>) {
    steps != [] ==>
      var init := steps[..|steps| - 1];
      NeverBreaksBooks(init) && !BreaksBooks(Run(init), steps[|steps| - 1])
  }

  /** After every prefix of the stream. */
  ghost predicate AlwaysPartitioned(steps: seq<Step>) {
    Partitioned(Run(steps)) && (steps != [] ==> AlwaysPartitioned(steps[..|steps| - 1]))
  }

  /** The books balance all along a stream if and only if no step of it touches a billed item's price or status. */
  lemma {:induction false} RunPartitionedIff(steps: seq<Step>)
    ensures AlwaysPartitioned(steps) <==> NeverBreaksBooks(steps)
  {
    hide After, BreaksBooks, Sound;
    if steps == [] {
    } else {
      var init := steps[..|steps| - 1];
      RunPartitionedIff(init);
      EveryRunIsSound(init);
      if AlwaysPartitioned(init) {
        StepKeepsPartitionIff(Run(init), steps[|steps| - 1]);
      }
    }
  }

  // ------------------------------------------------------------ conservation

  /** Dashboard scope: one tenant, or every tenant when none is named. */
  predicate InScope(scope: string, tenantId: string) {
    scope == "" || tenantId == scope
  }

  function ItemTotalIn(scope: string): LineItem -> real {
    (it: LineItem) => if InScope(scope, it.tenantId) then it.total else 0.0
  }

  function OpenTotalIn(scope: string): LineItem -> real {
    (it: LineItem) => if InScope(scope, it.tenantId) && it.status != Invoiced then it.total else 0.0
  }

  function StatusTotalIn(scope: string, status: ItemStatus): LineItem -> real {
    (it: LineItem) => if InScope(scope, it.tenantId) && it.status == status then it.total else 0.0
  }

  /** Items carried by one of the first `n` invoices. */
  function CarriedBelow(scope: string, n: nat): LineItem -> real {
    (it: LineItem) =>
      if InScope(scope, it.tenantId) && it.status == Invoiced && it.invoiceId.Some? && it.invoiceId.value < n then it.total
      else 0.0
  }

  function InvoicedIn(scope: string): Invoice -> real {
    (inv: Invoice) => if InScope(scope, inv.tenantId) then inv.total else 0.0
  }

  lemma {:induction false} InvoiceTotalsAreCarriedTotals(l: Ledger, scope: string, n: nat)
    requires Sound(l) && Partitioned(l) && n <= |l.invoices|
    ensures Sum(l.invoices[..n], InvoicedIn(scope)) == Sum(l.items, CarriedBelow(scope, n))
  {
    if n == 0 {
      SumZero(l.items, CarriedBelow(scope, 0));
    } else {
      InvoiceTotalsAreCarriedTotals(l, scope, n - 1);
      assert l.invoices[..n][..n - 1] == l.invoices[..n - 1];
      assert Balanced(l, n - 1);
      var inScope := InScope(scope, l.invoices[n - 1].tenantId);
      forall i | 0 <= i < |l.items|
        ensures inScope ==>
          CarriedBelow(scope, n)(l.items[i]) == CarriedBelow(scope, n - 1)(l.items[i]) + CarriedTotal(n - 1)(l.items[i])
        ensures !inScope ==> CarriedBelow(scope, n)(l.items[i]) == CarriedBelow(scope, n - 1)(l.items[i])
      {
        assert Linked(l.items[i], l.invoices);
      }
      if inScope {
        SumSplit(l.items, CarriedBelow(scope, n), CarriedBelow(scope, n - 1), CarriedTotal(n - 1));
      } else {
        SumSame(l.items, l.items, CarriedBelow(scope, n), CarriedBelow(scope, n - 1));
      }
    }
  }

  /** Items are worth what is invoiced plus what is still open. */
  predicate MoneyLaw(l: Ledger, scope: string) {
    Sum(l.items, ItemTotalIn(scope)) == Sum(l.invoices, InvoicedIn(scope)) + Sum(l.items, OpenTotalIn(scope))
  }

  /** No money appears or disappears: items are worth what is invoiced plus what is still open. */
  lemma MoneyIsConserved(l: Ledger, scope: string)
    requires Sound(l) && Partitioned(l)
    ensures MoneyLaw(l, scope)
  {
    var n := |l.invoices|;
    InvoiceTotalsAreCarriedTotals(l, scope, n);
    assert l.invoices[..n] == l.invoices;
    forall i | 0 <= i < |l.items|
      ensures ItemTotalIn(scope)(l.items[i]) == CarriedBelow(scope, n)(l.items[i]) + OpenTotalIn(scope)(l.items[i])
    {
      assert Linked(l.items[i], l.invoices);
    }
    SumSplit(l.items, ItemTotalIn(scope), CarriedBelow(scope, n), OpenTotalIn(scope));
  }

  /** The conservation law along every stream that never touches a billed item's price or status. */
  lemma RunConservesMoney(steps: seq<Step>, scope: string)
    requires NeverBreaksBooks(steps)
    ensures MoneyLaw(Run(steps), scope)
  {
    RunPartitionedIff(steps);
    EveryRunIsSound(steps);
    MoneyIsConserved(Run(steps), scope);
  }

  // ------------------------------------------------------ how far books drift

  /** What invoices claim beyond the items that are invoiced now. */
  function Gap(l: Ledger, scope: string): real {
    Sum(l.invoices, InvoicedIn(scope)) - Sum(l.items, StatusTotalIn(scope, Invoiced))
  }

  lemma MoneyLawIffNoGap(l: Ledger, scope: string)
    ensures MoneyLaw(l, scope) <==> Gap(l, scope) == 0.0
  {
    SumSplit(l.items, ItemTotalIn(scope), OpenTotalIn(scope), StatusTotalIn(scope, Invoiced));
  }

  /** The invoiced item of the scope that the event is late for. */
  function LateFor(l: Ledger, timeLogId: string, scope: string): (it: Option<LineItem>)
    ensures it.Some? ==> it.value.status == Invoiced
  {
    if timeLogId == "" then None
    else match Find(l.items, timeLogId)
      case None => None
      case Some(i) => if l.items[i].status == Invoiced && InScope(scope, l.items[i].tenantId) then Some(l.items[i]) else None
  }

  /** What a step adds to the gap: a late reprice its loss of price, a late insight the whole price. */
  function Drift(l: Ledger, s: Step, scope: string): real {
    match s
    case Upsert(e) =>
      (match LateFor(l, e.timeLogId, scope)
       case Some(it) => it.total - Repriced(it, e).total
       case None => 0.0)
    case ApplyInsight(d, _) =>
      (match LateFor(l, d.timeLogId, scope)
       case Some(it) => it.total
       case None => 0.0)
    case Approve(_, _) => 0.0
    case Pay(_) => 0.0
  }

  lemma GenerateKeepsGap(l: Ledger, tenantId: string, stripeOk: bool, scope: string)
    requires forall i :: 0 <= i < |l.items| ==> Priced(l.items[i])
    ensures Gap(AfterGenerate(l, tenantId, stripeOk), scope) == Gap(l, scope)
  {
    var l' := AfterGenerate(l, tenantId, stripeOk);
    if l' != l {
      var billed := StatusTotalIn(scope, Invoiced);
      ReadyTotalIsCents(l.items, tenantId);
      CentsAreFixed(Sum(l.items, ReadyTotalOf(tenantId)));
      SumAppend(l.invoices, InvoiceFor(l.items, tenantId, stripeOk), InvoicedIn(scope));
      hide Round2, IsCents, Sum, Count;
      var after := (it: LineItem) => billed(Billed(it, tenantId, |l.invoices|));
      SumSame(l'.items, l.items, billed, after);
      if InScope(scope, tenantId) {
        SumSplit(l.items, after, billed, ReadyTotalOf(tenantId));
      } else {
        SumSame(l.items, l.items, after, billed);
      }
    }
  }

  lemma ReplacedGap(l: Ledger, i: nat, it: LineItem, scope: string)
    requires i < |l.items|
    ensures
      var billed := StatusTotalIn(scope, Invoiced);
      Gap(l.(items := l.items[i := it]), scope) == Gap(l, scope) + billed(l.items[i]) - billed(it)
  {
    SumUpdate(l.items, i, it, StatusTotalIn(scope, Invoiced));
  }

  /** From any sound ledger, balanced or not, a step widens the gap by exactly its drift. */
  lemma StepDrifts(l: Ledger, s: Step, scope: string)
    requires Sound(l)
    ensures Gap(After(l, s), scope) == Gap(l, scope) + Drift(l, s, scope)
  {
    hide Gap, Sum, Count;
    match s
    case Upsert(e) =>
      if e.timeLogId != "" {
        match Find(l.items, e.timeLogId)
        case Some(i) => ReplacedGap(l, i, Repriced(l.items[i], e), scope);
        case None => InsertKeepsGap(l, e, scope);
      }
    case ApplyInsight(d, stripeOk) =>
      if d.timeLogId != "" && Find(l.items, d.timeLogId).Some? {
        var i := Find(l.items, d.timeLogId).value;
        var rated := Rated(l.items[i], d);
        assert Priced(l.items[i]);
        ReplacedGap(l, i, rated, scope);
        GenerateKeepsGap(l.(items := l.items[i := rated]), l.items[i].tenantId, stripeOk, scope);
      }
    case Approve(i, stripeOk) =>
      if i < |l.items| && l.items[i].status == PendingReview {
        var ready := l.items[i].(status := ReadyToBill);
        assert Priced(l.items[i]);
        ReplacedGap(l, i, ready, scope);
        GenerateKeepsGap(l.(items := l.items[i := ready]), l.items[i].tenantId, stripeOk, scope);
      }
    case Pay(k) => PayKeepsGap(l, k, scope);
  }

  lemma InsertKeepsGap(l: Ledger, e: TimeLogEvent, scope: string)
    ensures Gap(l.(items := l.items + [NewItem(e)]), scope) == Gap(l, scope)
  {
    SumAppend(l.items, NewItem(e), StatusTotalIn(scope, Invoiced));
  }

  lemma PayKeepsGap(l: Ledger, k: nat, scope: string)
    ensures Gap(AfterPay(l, k), scope) == Gap(l, scope)
  {
    if k < |l.invoices| {
      SumUpdate(l.invoices, k, l.invoices[k].(status := Paid), InvoicedIn(scope));
    }
  }

  function TotalDrift(steps: seq<Step>, scope: string): real {
    if steps == [] then 0.0
    else TotalDrift(steps[..|steps| - 1], scope) + Drift(Run(steps[..|steps| - 1]), steps[|steps| - 1], scope)
  }

  /** After every stream, late and duplicate events included, the books are off by exactly the drifts along it. */
  lemma {:induction false} RunDrifts(steps: seq<Step>, scope: string)
    ensures Gap(Run(steps), scope) == TotalDrift(steps, scope)
    ensures MoneyLaw(Run(steps), scope) <==> TotalDrift(steps, scope) == 0.0
  {
    if steps == [] {
    } else {
      var init := steps[..|steps| - 1];
      RunDrifts(init, scope);
      EveryRunIsSound(init);
      StepDrifts(Run(init), steps[|steps| - 1], scope);
    }
    hide Run, Gap, TotalDrift;
    MoneyLawIffNoGap(Run(steps), scope);
  }

  /** A late reprice that changes an invoiced item's total, or a late insight for an invoiced item that costs something. */
  predicate LosesMoney(l: Ledger, s: Step, scope: string) {
    match s
    case Upsert(e) =>
      var late := LateFor(l, e.timeLogId, scope);
      late.Some? && Repriced(late.value, e).total != late.value.total
    case ApplyInsight(d, _) =>
      var late := LateFor(l, d.timeLogId, scope);
      late.Some? && late.value.total != 0.0
    case Approve(_, _) => false
    case Pay(_) => false
  }

  /** Where the money law holds, one step keeps it if and only if it is no such late event. */
  lemma StepConservesMoneyIff(l: Ledger, s: Step, scope: string)
    requires Sound(l) && MoneyLaw(l, scope)
    ensures MoneyLaw(After(l, s), scope) <==> !LosesMoney(l, s, scope)
  {
    StepDrifts(l, s, scope);
    MoneyLawIffNoGap(l, scope);
    MoneyLawIffNoGap(After(l, s), scope);
    hide After, Gap, MoneyLaw, Sound;
  }

  // --------------------------------------------------------------- dashboard

  datatype Stats = Stats(
    totalInvoiced: real, invoiceCount: nat, totalPaid: real, paidCount: nat,
    awaitingCount: nat, awaitingAmount: real, readyCount: nat, readyAmount: real)

  function PaidIn(scope: string): Invoice -> real {
    (inv: Invoice) => if InScope(scope, inv.tenantId) && inv.status == Paid then inv.total else 0.0
  }

  function IsInvoice(scope: string): Invoice -> bool {
    (inv: Invoice) => InScope(scope, inv.tenantId)
  }

  function IsPaid(scope: string): Invoice -> bool {
    (inv: Invoice) => InScope(scope, inv.tenantId) && inv.status == Paid
  }

  function CountIn(scope: string, status: ItemStatus): LineItem -> bool {
    (it: LineItem) => InScope(scope, it.tenantId) && it.status == status
  }

  function GetStats(l: Ledger, scope: string): Stats {
    Stats(
      Round2(Sum(l.invoices, InvoicedIn(scope))),
      Count(l.invoices, IsInvoice(scope)),
      Round2(Sum(l.invoices, PaidIn(scope))),
      Count(l.invoices, IsPaid(scope)),
      Count(l.items, CountIn(scope, PendingReview)),
      Round2(Sum(l.items, StatusTotalIn(scope, PendingReview))),
      Count(l.items, CountIn(scope, ReadyToBill)),
      Round2(Sum(l.items, StatusTotalIn(scope, ReadyToBill))))
  }

  lemma StatusTotalsAreExact(l: Ledger, scope: string, status: ItemStatus)
    requires Sound(l)
    ensures Round2(Sum(l.items, StatusTotalIn(scope, status))) == Sum(l.items, StatusTotalIn(scope, status))
  {
    forall i | 0 <= i < |l.items| ensures IsCents(StatusTotalIn(scope, status)(l.items[i])) {
      assert Priced(l.items[i]);
      PricedIsCents(l.items[i]);
    }
    SumIsCents(l.items, StatusTotalIn(scope, status));
    CentsAreFixed(Sum(l.items, StatusTotalIn(scope, status)));
  }

  lemma {:induction false} OpenTotalByStatus(items: seq<LineItem>, scope: string)
    ensures Sum(items, OpenTotalIn(scope))
         == Sum(items, StatusTotalIn(scope, PendingAi)) + Sum(items, StatusTotalIn(scope, PendingReview))
          + Sum(items, StatusTotalIn(scope, NonBillable)) + Sum(items, StatusTotalIn(scope, ReadyToBill))
  {
    if items == [] {
    } else {
      OpenTotalByStatus(items[..|items| - 1], scope);
    }
  }

  /** With balanced books the dashboard accounts for every item: the rounded KPIs add up to the cent. */
  lemma DashboardAddsUp(l: Ledger, scope: string)
    requires Sound(l) && Partitioned(l)
    ensures
      var s := GetStats(l, scope);
      Sum(l.items, ItemTotalIn(scope))
        == s.totalInvoiced + s.awaitingAmount + s.readyAmount
         + Sum(l.items, StatusTotalIn(scope, PendingAi)) + Sum(l.items, StatusTotalIn(scope, NonBillable))
  {
    MoneyIsConserved(l, scope);
    OpenTotalByStatus(l.items, scope);
    StatusTotalsAreExact(l, scope, PendingReview);
    StatusTotalsAreExact(l, scope, ReadyToBill);
    forall k | 0 <= k < |l.invoices| ensures IsCents(InvoicedIn(scope)(l.invoices[k])) {
      assert Balanced(l, k);
      assert CentsOf(0) == 0.0;
      CarriedTotalIsCents(l, k);
    }
    SumIsCents(l.invoices, InvoicedIn(scope));
    CentsAreFixed(Sum(l.invoices, InvoicedIn(scope)));
  }

  lemma CarriedTotalIsCents(l: Ledger, k: nat)
    requires Sound(l)
    ensures IsCents(Sum(l.items, CarriedTotal(k)))
  {
    forall i | 0 <= i < |l.items| ensures IsCents(CarriedTotal(k)(l.items[i])) {
      assert Priced(l.items[i]);
      PricedIsCents(l.items[i]);
    }
    SumIsCents(l.items, CarriedTotal(k));
  }

  // ------------------------------------------------- the gap, as one run

  function Logged(id: string): Step {
    Upsert(TimeLogEvent(id, Some("t"), None, None, Some(1.0), Some(10.0), None, None, None))
  }

  function Scored(id: string): Step {
    ApplyInsight(Insight(id, Some(90), None), true)
  }

  const LOGS: seq<Step> := [Logged("a"), Logged("b"), Logged("c")]
  const SCORES: seq<Step> := [Scored("a"), Scored("b"), Scored("c")]

  function Hour(id: string, score: Option<int>, status: ItemStatus, invoiceId: Option<nat>): LineItem {
    LineItem(id, "t", "unknown", "unknown", 1.0, Some(10.0), 10.0, "", "", None, score, true, status, invoiceId)
  }

  function Hours3(score: Option<int>, status: ItemStatus, invoiceId: Option<nat>): seq<LineItem> {
    [Hour("a", score, status, invoiceId), Hour("b", score, status, invoiceId), Hour("c", score, status, invoiceId)]
  }

  lemma RunSnoc(steps: seq<Step>, s: Step)
    ensures Run(steps + [s]) == After(Run(steps), s)
  {
    assert (steps + [s])[..|steps|] == steps;
  }

  lemma Find3(items: seq<LineItem>)
    requires |items| == 3 && items[0].timeLogId == "a" && items[1].timeLogId == "b" && items[2].timeLogId == "c"
    ensures Find(items, "a") == Some(0) && Find(items, "b") == Some(1) && Find(items, "c") == Some(2)
  {
  }

  lemma Ready3(items: seq<LineItem>)
    requires |items| == 3 && forall i :: 0 <= i < 3 ==> items[i].total == 10.0
    ensures
      var n := (if ReadyFor("t")(items[0]) then 1 else 0) + (if ReadyFor("t")(items[1]) then 1 else 0)
             + (if ReadyFor("t")(items[2]) then 1 else 0);
      Count(items, ReadyFor("t")) == n && Sum(items, ReadyTotalOf("t")) == 10.0 * n as real
  {
    var none: seq<LineItem> := [];
    assert items == none + [items[0]] + [items[1]] + [items[2]];
    CountAppend(none, items[0], ReadyFor("t"));
    CountAppend(none + [items[0]], items[1], ReadyFor("t"));
    CountAppend(none + [items[0]] + [items[1]], items[2], ReadyFor("t"));
    SumAppend(none, items[0], ReadyTotalOf("t"));
    SumAppend(none + [items[0]], items[1], ReadyTotalOf("t"));
    SumAppend(none + [items[0]] + [items[1]], items[2], ReadyTotalOf("t"));
  }

  /** The first two insights leave the tenant under the batch size. */
  lemma ScoringTwo(l: Ledger, score: Option<int>, status: ItemStatus, invoiceId: Option<nat>)
    requires l.items == Hours3(score, status, invoiceId) && status != ReadyToBill
    ensures
      var ready := Hours3(Some(90), ReadyToBill, invoiceId);
      After(After(l, Scored("a")), Scored("b")) == l.(items := l.items[0 := ready[0]][1 := ready[1]])
  {
    hide Sum, Count;
    var ready := Hours3(Some(90), ReadyToBill, invoiceId);
    var one := l.items[0 := ready[0]];
    Find3(l.items);
    Ready3(one);
    assert After(l, Scored("a")) == l.(items := one);
    Find3(one);
    Ready3(one[1 := ready[1]]);
  }

  lemma Bundle3(l: Ledger, invoiceId: Option<nat>)
    requires l.items == Hours3(Some(90), ReadyToBill, invoiceId)
    ensures AfterGenerate(l, "t", true)
         == Ledger(Hours3(Some(90), Invoiced, Some(|l.invoices|)), l.invoices + [Invoice("t", 30.0, 3, Unpaid)])
  {
    hide Sum, Count, Round2;
    Ready3(l.items);
    ThirtyIsCents();
    assert BilledRows(l.items, "t", |l.invoices|) == Hours3(Some(90), Invoiced, Some(|l.invoices|));
  }

  /** Scoring three hours bills all three, whether or not an invoice already carries them. */
  lemma ScoringBills(l: Ledger, score: Option<int>, status: ItemStatus, invoiceId: Option<nat>)
    requires l.items == Hours3(score, status, invoiceId) && status != ReadyToBill
    ensures After(After(After(l, Scored("a")), Scored("b")), Scored("c"))
         == Ledger(Hours3(Some(90), Invoiced, Some(|l.invoices|)), l.invoices + [Invoice("t", 30.0, 3, Unpaid)])
  {
    hide AfterGenerate, Find;
    var ready := Hours3(Some(90), ReadyToBill, invoiceId);
    var two := l.items[0 := ready[0]][1 := ready[1]];
    ScoringTwo(l, score, status, invoiceId);
    Find3(two);
    assert two[2 := ready[2]] == ready;
    Bundle3(l.(items := ready), invoiceId);
  }

  lemma ThirtyIsCents()
    ensures Round2(30.0) == 30.0 && Round2(10.0) == 10.0
  {
    assert CentsOf(3000) == 30.0 && CentsOf(1000) == 10.0;
    CentsAreFixed(30.0);
    CentsAreFixed(10.0);
  }

  lemma LogsOne(l: Ledger, id: string)
    requires id != "" && Find(l.items, id).None?
    ensures After(l, Logged(id)) == l.(items := l.items + [Hour(id, None, PendingAi, None)])
  {
    hide Find, Round2, CentsOf;
    ThirtyIsCents();
  }

  lemma NotFound(items: seq<LineItem>, id: string)
    requires forall i :: 0 <= i < |items| ==> items[i].timeLogId != id
    ensures Find(items, id).None?
  {
  }

  lemma LoggingThree()
    ensures Run(LOGS) == Ledger(Hours3(None, PendingAi, None), [])
  {
    hide After, Run, Find, Logged;
    var a, b := Logged("a"), Logged("b");
    var one, two := [Hour("a", None, PendingAi, None)], [Hour("a", None, PendingAi, None), Hour("b", None, PendingAi, None)];
    RunSnoc([], a);
    RunSnoc([a], b);
    RunSnoc([a, b], Logged("c"));
    assert [] + [a] == [a] && [a] + [b] == [a, b] && [a, b] + [Logged("c")] == LOGS;
    RunOfNone();
    NotFound([], "a");
    LogsOne(EMPTY, "a");
    assert [] + one == one;
    NotFound(one, "b");
    LogsOne(Ledger(one, []), "b");
    assert one + [two[1]] == two;
    NotFound(two, "c");
    LogsOne(Ledger(two, []), "c");
    assert two + [Hour("c", None, PendingAi, None)] == Hours3(None, PendingAi, None);
  }

  lemma RunOfNone()
    ensures Run([]) == EMPTY
  {
  }

  lemma Scoring(steps: seq<Step>)
    ensures Run(steps + SCORES) == After(After(After(Run(steps), Scored("a")), Scored("b")), Scored("c"))
  {
    assert steps + SCORES == steps + [Scored("a")] + [Scored("b")] + [Scored("c")];
    RunSnoc(steps, Scored("a"));
    RunSnoc(steps + [Scored("a")], Scored("b"));
    RunSnoc(steps + [Scored("a")] + [Scored("b")], Scored("c"));
  }

  lemma BilledTwice(inv: Invoice)
    requires inv == Invoice("t", 30.0, 3, Unpaid)
    ensures
      var l := Ledger(Hours3(Some(90), Invoiced, Some(1)), [inv, inv]);
      && Sum(l.items, ItemTotalIn("t")) == 30.0
      && Sum(l.invoices, InvoicedIn("t")) == 60.0
      && !Partitioned(l)
  {
    hide Sum, Count;
    var l := Ledger(Hours3(Some(90), Invoiced, Some(1)), [inv, inv]);
    var none: seq<Invoice>, empty: seq<LineItem> := [], [];
    assert l.invoices == none + [inv] + [inv];
    SumAppend(none, inv, InvoicedIn("t"));
    SumAppend(none + [inv], inv, InvoicedIn("t"));
    SumZero(none, InvoicedIn("t"));
    SumZero(empty, ItemTotalIn("t"));
    SumAppend(empty, l.items[0], ItemTotalIn("t"));
    assert empty + [l.items[0]] == [l.items[0]];
    assert l.items == [l.items[0]] + [l.items[1]] + [l.items[2]];
    SumAppend([l.items[0]], l.items[1], ItemTotalIn("t"));
    SumAppend([l.items[0]] + [l.items[1]], l.items[2], ItemTotalIn("t"));
    CountNone(l.items, CarriedBy(0));
    assert !Balanced(l, 0);
  }

  /** The gap: when each insight is delivered twice, three items worth 30 are invoiced for 60. */
  lemma DuplicateInsightsBillTwice()
    ensures
      var l := Run(LOGS + SCORES + SCORES);
      && Sum(l.items, ItemTotalIn("t")) == 30.0
      && Sum(l.invoices, InvoicedIn("t")) == 60.0
      && !Partitioned(l)
  {
    var inv := Invoice("t", 30.0, 3, Unpaid);
    assert Run(LOGS + SCORES) == Ledger(Hours3(Some(90), Invoiced, Some(0)), [inv]) by {
      LoggingThree();
      Scoring(LOGS);
      ScoringBills(Run(LOGS), None, PendingAi, None);
    }
    assert Run(LOGS + SCORES + SCORES) == Ledger(Hours3(Some(90), Invoiced, Some(1)), [inv, inv]) by {
      Scoring(LOGS + SCORES);
      ScoringBills(Run(LOGS + SCORES), Some(90), Invoiced, Some(0));
    }
    BilledTwice(inv);
  }
}
