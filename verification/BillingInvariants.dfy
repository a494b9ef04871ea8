/** What holds of the billing ledger after every stream of events, late and duplicate ones included. */
module BillingInvariants {
  import opened Numbers
  import opened Tables
  import opened Billing

  ghost predicate UniqueTimeLogs(items: seq<LineItem>) {
    forall i, j :: 0 <= i < j < |items| ==> items[i].timeLogId != items[j].timeLogId
  }

  /** Each total prices the item's own hours and rate. */
  ghost predicate Priced(it: LineItem) {
    it.total == CalculateTotal(it.hours, it.hourlyRate)
  }

  /** A billed item has an invoice, and every invoice link leads to an invoice of the item's tenant. */
  ghost predicate Linked(it: LineItem, invoices: seq<Invoice>) {
    && (it.status == Invoiced ==> it.invoiceId.Some?)
    && (it.invoiceId.Some? ==>
          it.invoiceId.value < |invoices| && invoices[it.invoiceId.value].tenantId == it.tenantId)
  }

  /** An invoice bundled at least a batch of items, and no more than it bundled still point to it. */
  ghost predicate Bundled(l: Ledger, k: nat)
    requires k < |l.invoices|
  {
    INVOICE_BATCH_SIZE <= l.invoices[k].lineItemCount && Count(l.items, PointsTo(k)) <= l.invoices[k].lineItemCount
  }

  /** Fewer ready items than a batch wait for any tenant. */
  ghost predicate NoBacklog(l: Ledger) {
    forall t: string {:trigger ReadyFor(t)} :: Count(l.items, ReadyFor(t)) < INVOICE_BATCH_SIZE
  }

  ghost predicate Sound(l: Ledger) {
    && UniqueTimeLogs(l.items)
    && (forall i :: 0 <= i < |l.items| ==> Priced(l.items[i]) && Linked(l.items[i], l.invoices))
    && (forall k: nat :: k < |l.invoices| ==> Bundled(l, k))
  }

  // --------------------------------------------------------- one row changes

  lemma ReplaceKeepsSound(l: Ledger, i: nat, it: LineItem)
    requires Sound(l) && i < |l.items|
    requires it.timeLogId == l.items[i].timeLogId && it.tenantId == l.items[i].tenantId
    requires it.invoiceId == l.items[i].invoiceId
    requires it.status == Invoiced ==> l.items[i].status == Invoiced
    requires Priced(it)
    ensures Sound(l.(items := l.items[i := it]))
  {
    var l' := l.(items := l.items[i := it]);
    forall k: nat | k < |l'.invoices| ensures Bundled(l', k) {
      CountUpdate(l.items, i, it, PointsTo(k));
      assert Bundled(l, k);
    }
  }

  lemma AppendKeepsSound(l: Ledger, e: TimeLogEvent)
    requires Sound(l) && Find(l.items, e.timeLogId).None?
    ensures Sound(l.(items := l.items + [NewItem(e)]))
  {
    var l' := l.(items := l.items + [NewItem(e)]);
    forall k: nat | k < |l'.invoices| ensures Bundled(l', k) {
      CountAppend(l.items, NewItem(e), PointsTo(k));
      assert Bundled(l, k);
    }
  }

  lemma GenerateKeepsSound(l: Ledger, tenantId: string, stripeOk: bool)
    requires Sound(l)
    ensures Sound(AfterGenerate(l, tenantId, stripeOk))
  {
    var l' := AfterGenerate(l, tenantId, stripeOk);
    if l' != l {
      forall k: nat | k < |l'.invoices| ensures Bundled(l', k) {
        if k < |l.invoices| {
          assert Bundled(l, k);
          CountMonotone(l'.items, l.items, PointsTo(k), PointsTo(k));
        } else {
          // nothing pointed to the new invoice before
          forall i | 0 <= i < |l.items| ensures PointsTo(k)(l'.items[i]) == ReadyFor(tenantId)(l.items[i]) {
            assert Linked(l.items[i], l.invoices);
          }
          CountSame(l'.items, l.items, PointsTo(k), ReadyFor(tenantId));
        }
      }
      forall i | 0 <= i < |l'.items| ensures Priced(l'.items[i]) && Linked(l'.items[i], l'.invoices) {
        assert Priced(l.items[i]) && Linked(l.items[i], l.invoices);
      }
    }
  }

  lemma StepKeepsSound(l: Ledger, s: Step)
    requires Sound(l)
    ensures Sound(After(l, s))
  {
    match s
    case Upsert(e) =>
      if e.timeLogId != "" {
        match Find(l.items, e.timeLogId)
        case Some(i) => ReplaceKeepsSound(l, i, Repriced(l.items[i], e));
        case None => AppendKeepsSound(l, e);
      }
    case ApplyInsight(d, stripeOk) =>
      if d.timeLogId != "" && Find(l.items, d.timeLogId).Some? {
        var i := Find(l.items, d.timeLogId).value;
        assert Priced(l.items[i]);
        ReplaceKeepsSound(l, i, Rated(l.items[i], d));
        GenerateKeepsSound(l.(items := l.items[i := Rated(l.items[i], d)]), l.items[i].tenantId, stripeOk);
      }
    case Approve(itemId, stripeOk) =>
      if itemId < |l.items| && l.items[itemId].status == PendingReview {
        var ready := l.items[itemId].(status := ReadyToBill);
        assert Priced(l.items[itemId]);
        ReplaceKeepsSound(l, itemId, ready);
        GenerateKeepsSound(l.(items := l.items[itemId := ready]), l.items[itemId].tenantId, stripeOk);
      }
    case Pay(invoiceId) =>
      var l' := After(l, s);
      forall k: nat | k < |l'.invoices| ensures Bundled(l', k) {
        assert Bundled(l, k);
      }
      forall i | 0 <= i < |l'.items| ensures Priced(l'.items[i]) && Linked(l'.items[i], l'.invoices) {
        assert Priced(l.items[i]) && Linked(l.items[i], l.invoices);
      }
  }

  /** Every stream keeps the ledger sound. */
  lemma {:induction false} EveryRunIsSound(steps: seq<Step>)
    ensures Sound(Run(steps))
  {
    if steps == [] {
    } else {
      EveryRunIsSound(steps[..|steps| - 1]);
      StepKeepsSound(Run(steps[..|steps| - 1]), steps[|steps| - 1]);
    }
  }

  // --------------------------------------------------------------- backlog

  /** Once the batch check has run for a tenant, that tenant has no batch waiting, and nobody else gained an item. */
  lemma GenerateClears(l: Ledger, tenantId: string, stripeOk: bool)
    ensures Count(AfterGenerate(l, tenantId, stripeOk).items, ReadyFor(tenantId)) < INVOICE_BATCH_SIZE
    ensures forall t: string {:trigger ReadyFor(t)} :: t != tenantId ==>
      Count(AfterGenerate(l, tenantId, stripeOk).items, ReadyFor(t)) == Count(l.items, ReadyFor(t))
  {
    var l' := AfterGenerate(l, tenantId, stripeOk);
    if l' != l {
      CountNone(l'.items, ReadyFor(tenantId));
      forall t: string {:trigger ReadyFor(t)} | t != tenantId
        ensures Count(l'.items, ReadyFor(t)) == Count(l.items, ReadyFor(t))
      {
        CountSame(l'.items, l.items, ReadyFor(t), ReadyFor(t));
      }
    }
  }

  lemma ReadyingKeepsNoBacklog(l: Ledger, i: nat, it: LineItem, stripeOk: bool)
    requires NoBacklog(l) && i < |l.items| && it.tenantId == l.items[i].tenantId
    ensures NoBacklog(AfterGenerate(l.(items := l.items[i := it]), it.tenantId, stripeOk))
    ensures it.status != ReadyToBill ==> NoBacklog(l.(items := l.items[i := it]))
  {
    GenerateClears(l.(items := l.items[i := it]), it.tenantId, stripeOk);
    forall t: string {:trigger ReadyFor(t)}
      ensures t != it.tenantId || it.status != ReadyToBill ==>
        Count(l.items[i := it], ReadyFor(t)) < INVOICE_BATCH_SIZE
    {
      CountUpdate(l.items, i, it, ReadyFor(t));
    }
  }

  lemma StepKeepsNoBacklog(l: Ledger, s: Step)
    requires NoBacklog(l)
    ensures NoBacklog(After(l, s))
  {
    match s
    case Upsert(e) =>
      forall t: string {:trigger ReadyFor(t)}
        ensures Count(After(l, s).items, ReadyFor(t)) == Count(l.items, ReadyFor(t))
      {
        if e.timeLogId != "" {
          match Find(l.items, e.timeLogId)
          case Some(i) => CountUpdate(l.items, i, Repriced(l.items[i], e), ReadyFor(t));
          case None => CountAppend(l.items, NewItem(e), ReadyFor(t));
        }
      }
    case ApplyInsight(d, stripeOk) =>
      if d.timeLogId != "" && Find(l.items, d.timeLogId).Some? {
        var i := Find(l.items, d.timeLogId).value;
        ReadyingKeepsNoBacklog(l, i, Rated(l.items[i], d), stripeOk);
      }
    case Approve(itemId, stripeOk) =>
      if itemId < |l.items| && l.items[itemId].status == PendingReview {
        ReadyingKeepsNoBacklog(l, itemId, l.items[itemId].(status := ReadyToBill), stripeOk);
      }
    case Pay(_) =>
  }

  /** After every step of every stream at most two ready items wait for any tenant. */
  lemma {:induction false} EveryRunHasNoBacklog(steps: seq<Step>)
    ensures NoBacklog(Run(steps))
  {
    if steps == [] {
    } else {
      EveryRunHasNoBacklog(steps[..|steps| - 1]);
      StepKeepsNoBacklog(Run(steps[..|steps| - 1]), steps[|steps| - 1]);
    }
  }

  // -------------------------------------------------------- invoice history

  /** Same invoice, except that it may have been paid meanwhile. */
  ghost predicate SameTerms(a: Invoice, b: Invoice) {
    a.tenantId == b.tenantId && a.total == b.total && a.lineItemCount == b.lineItemCount && (a.status == Paid ==> b.status == Paid)
  }

  lemma StepKeepsInvoices(l: Ledger, s: Step)
    ensures |l.invoices| <= |After(l, s).invoices| <= |l.invoices| + 1
    ensures forall k :: 0 <= k < |l.invoices| ==> SameTerms(l.invoices[k], After(l, s).invoices[k])
  {
  }

  /** The rows an invoicing step finds ready: the item the step touched is already updated. */
  function RowsAtInvoicing(l: Ledger, s: Step): seq<LineItem> {
    match s
    case ApplyInsight(d, _) =>
      (match Find(l.items, d.timeLogId)
       case Some(i) => l.items[i := Rated(l.items[i], d)]
       case None => l.items)
    case Approve(i, _) => if i < |l.items| then l.items[i := l.items[i].(status := ReadyToBill)] else l.items
    case _ => l.items
  }

  /** The invoice is the snapshot of its tenant's ready rows at step `j` of the stream. */
  ghost predicate IsSnapshot(inv: Invoice, steps: seq<Step>, j: nat)
    requires j < |steps|
  {
    var rows := RowsAtInvoicing(Run(steps[..j]), steps[j]);
    && inv.total == Sum(rows, ReadyTotalOf(inv.tenantId))
    && inv.lineItemCount == Count(rows, ReadyFor(inv.tenantId))
  }

  lemma PricedIsCents(it: LineItem)
    requires Priced(it)
    ensures IsCents(it.total) && IsCents(0.0)
  {
    assert CentsOf(0) == 0.0;
    CalculateTotalIsCents(it.hours, it.hourlyRate);
  }

  lemma ReadyTotalIsCents(items: seq<LineItem>, tenantId: string)
    requires forall i :: 0 <= i < |items| ==> Priced(items[i])
    ensures IsCents(Sum(items, ReadyTotalOf(tenantId)))
  {
    forall i | 0 <= i < |items| ensures IsCents(ReadyTotalOf(tenantId)(items[i])) {
      PricedIsCents(items[i]);
    }
    SumIsCents(items, ReadyTotalOf(tenantId));
  }

  /** The invoice a step adds sums exactly the rows it bundles: rounding changes nothing. */
  lemma NewInvoiceIsSnapshot(l: Ledger, s: Step)
    requires Sound(l) && |After(l, s).invoices| == |l.invoices| + 1
    ensures
      var inv := After(l, s).invoices[|l.invoices|];
      var rows := RowsAtInvoicing(l, s);
      && inv.total == Sum(rows, ReadyTotalOf(inv.tenantId))
      && inv.lineItemCount == Count(rows, ReadyFor(inv.tenantId))
  {
    var rows := RowsAtInvoicing(l, s);
    var inv := After(l, s).invoices[|l.invoices|];
    forall i | 0 <= i < |rows| ensures Priced(rows[i]) {
      assert Priced(l.items[i]);
    }
    ReadyTotalIsCents(rows, inv.tenantId);
    CentsAreFixed(Sum(rows, ReadyTotalOf(inv.tenantId)));
  }

  lemma SnapshotKept(inv: Invoice, inv': Invoice, steps: seq<Step>, n: nat, j: nat)
    requires j < n <= |steps| && IsSnapshot(inv, steps[..n], j) && SameTerms(inv, inv')
    ensures IsSnapshot(inv', steps, j)
  {
    hide Run, RowsAtInvoicing, Sum, Count;
    assert steps[..n][..j] == steps[..j];
  }

  lemma SnapshotMade(inv: Invoice, steps: seq<Step>)
    requires steps != []
    requires
      var rows := RowsAtInvoicing(Run(steps[..|steps| - 1]), steps[|steps| - 1]);
      inv.total == Sum(rows, ReadyTotalOf(inv.tenantId)) && inv.lineItemCount == Count(rows, ReadyFor(inv.tenantId))
    ensures IsSnapshot(inv, steps, |steps| - 1)
  {
  }

  lemma RunUnfolds(steps: seq<Step>)
    ensures if steps == [] then Run(steps).invoices == [] else Run(steps) == After(Run(steps[..|steps| - 1]), steps[|steps| - 1])
  {
  }

  /** The step that made an invoice. */
  lemma {:induction false} MadeAt(steps: seq<Step>, k: nat) returns (j: nat)
    requires k < |Run(steps).invoices|
    ensures j < |steps| && |Run(steps[..j]).invoices| == k && IsSnapshot(Run(steps).invoices[k], steps, j)
  {
    hide Run, After, RowsAtInvoicing, SameTerms, Sound, IsSnapshot, Sum, Count;
    RunUnfolds(steps);
    var n := |steps| - 1;
    var l := Run(steps[..n]);
    StepKeepsInvoices(l, steps[n]);
    if k < |l.invoices| {
      j := MadeAt(steps[..n], k);
      assert steps[..n][..j] == steps[..j];
      SnapshotKept(l.invoices[k], Run(steps).invoices[k], steps, n, j);
    } else {
      j := n;
      EveryRunIsSound(steps[..n]);
      NewInvoiceIsSnapshot(l, steps[n]);
      SnapshotMade(Run(steps).invoices[k], steps);
    }
  }

  /** Every invoice of every run still shows the total and the count of the rows bundled when it was made. */
  lemma InvoicesAreSnapshots(steps: seq<Step>, k: nat)
    requires k < |Run(steps).invoices|
    ensures exists j: nat :: j < |steps| && |Run(steps[..j]).invoices| == k && IsSnapshot(Run(steps).invoices[k], steps, j)
  {
    hide Run, IsSnapshot;
    var _ := MadeAt(steps, k);
  }
}
