/**
 The reporting fact table: one row per time log, maintained event by event,
 and the closed form of its rows over the whole event history.
 */
module Facts {
  import opened Wrappers
  import opened Numbers
  import LogDates

  datatype Fact = Fact(
    tenantId: string, userId: string, projectId: string, hours: real, hourlyRate: Option<real>, cost: real,
    description: string, logDate: string, logWeek: string, billable: bool,
    category: Option<string>, qualityScore: Option<int>, invoicePaid: bool, paidAmount: real)

  /** Absent keys are `None`; an absent date is the empty text. */
  datatype Event =
    | Approved(timeLogId: string, tenantId: Option<string>, userId: Option<string>, projectId: Option<string>,
               hours: Option<real>, hourlyRate: Option<real>, billable: Option<bool>, description: Option<string>,
               logDate: string)
    | Insight(timeLogId: string, category: Option<string>, qualityScore: Option<int>)
    | Paid(payer: Option<string>)
    | Ignored

  type Table = map<string, Fact>

  // ---------------------------------------------------------------- handlers

  function Tenant(e: Event): string
    requires e.Approved?
  {
    e.tenantId.GetOr("unknown")
  }

  function Billable(e: Event): bool
    requires e.Approved?
  {
    e.billable.GetOr(true)
  }

  function Charge(hours: real, hourlyRate: Option<real>): real {
    Amount(hours, hourlyRate.GetOr(0.0))
  }

  function Cost(e: Event): real
    requires e.Approved?
  {
    Charge(e.hours.GetOr(0.0), e.hourlyRate)
  }

  /** The row an approval writes, given what it keeps of an existing one. */
  function Row(e: Event, tenantId: string, category: Option<string>, score: Option<int>, paid: bool, paidAmount: real): Fact
    requires e.Approved?
  {
    Fact(tenantId, e.userId.GetOr("unknown"), e.projectId.GetOr("unknown"), e.hours.GetOr(0.0), e.hourlyRate, Cost(e),
         e.description.GetOr(""), e.logDate, LogDates.WeekLabel(e.logDate), Billable(e), category, score, paid, paidAmount)
  }

  /** The UPDATE of a repeated approval leaves tenant, category, score and payment alone. */
  function AfterApproved(t: Table, e: Event): Table
    requires e.Approved?
  {
    if e.timeLogId == "" then t
    else if e.timeLogId in t then
      var f := t[e.timeLogId];
      t[e.timeLogId := Row(e, f.tenantId, f.category, f.qualityScore, f.invoicePaid, f.paidAmount)]
    else t[e.timeLogId := Row(e, Tenant(e), None, None, false, 0.0)]
  }

  function AfterInsight(t: Table, e: Event): Table
    requires e.Insight?
  {
    if e.timeLogId == "" || e.timeLogId !in t then t
    else t[e.timeLogId := t[e.timeLogId].(category := e.category, qualityScore := e.qualityScore)]
  }

  /** InvoicePaid carries no item list: every unpaid billable row of the tenant is marked. */
  function Settled(f: Fact, tenantId: string): Fact {
    if f.tenantId == tenantId && !f.invoicePaid && f.billable then f.(invoicePaid := true, paidAmount := f.cost) else f
  }

  function AfterPaid(t: Table, e: Event): Table
    requires e.Paid?
  {
    if e.payer.GetOr("") == "" then t else map id | id in t :: Settled(t[id], e.payer.value)
  }

  function After(t: Table, e: Event): Table {
    match e
    case Approved(_, _, _, _, _, _, _, _, _) => AfterApproved(t, e)
    case Insight(_, _, _) => AfterInsight(t, e)
    case Paid(_) => AfterPaid(t, e)
    case Ignored => t
  }

  function Fold(history: seq<Event>): Table {
    if history == [] then map[] else After(Fold(history[..|history| - 1]), history[|history| - 1])
  }

  /** The handlers, updating the table in place. */
  class FactTable {
    var rows: Table

    constructor ()
      ensures rows == Fold([])
    {
      rows := map[];
    }

    method HandleTimeLogApproved(e: Event)
      requires e.Approved?
      modifies this
      ensures rows == AfterApproved(old(rows), e)
    {
      if e.timeLogId == "" {
        return;
      }
      var hours := e.hours.GetOr(0.0);
      var logWeek := LogDates.WeekLabel(e.logDate);
      var cost := Charge(hours, e.hourlyRate);
      if e.timeLogId in rows {
        rows := rows[e.timeLogId := rows[e.timeLogId].(
          hours := hours, hourlyRate := e.hourlyRate, cost := cost, description := e.description.GetOr(""),
          billable := e.billable.GetOr(true), logDate := e.logDate, logWeek := logWeek,
          projectId := e.projectId.GetOr("unknown"), userId := e.userId.GetOr("unknown"))];
      } else {
        rows := rows[e.timeLogId := Fact(
          e.tenantId.GetOr("unknown"), e.userId.GetOr("unknown"), e.projectId.GetOr("unknown"), hours, e.hourlyRate, cost,
          e.description.GetOr(""), e.logDate, logWeek, e.billable.GetOr(true), None, None, false, 0.0)];
      }
    }

    method HandleAiInsight(e: Event) returns (enriched: bool)
      requires e.Insight?
      modifies this
      ensures rows == AfterInsight(old(rows), e)
      ensures enriched <==> e.timeLogId != "" && e.timeLogId in old(rows)
    {
      enriched := e.timeLogId != "" && e.timeLogId in rows;
      if enriched {
        rows := rows[e.timeLogId := rows[e.timeLogId].(category := e.category, qualityScore := e.qualityScore)];
      }
    }

    method HandleInvoicePaid(e: Event)
      requires e.Paid?
      modifies this
      ensures rows == AfterPaid(old(rows), e)
    {
      if e.payer.None? || e.payer.value == "" {
        return;
      }
      var tenantId := e.payer.value;
      rows := map id | id in rows ::
        if rows[id].tenantId == tenantId && !rows[id].invoicePaid && rows[id].billable
        then rows[id].(invoicePaid := true, paidAmount := rows[id].cost) else rows[id];
    }

    method Handle(e: Event)
      modifies this
      ensures rows == After(old(rows), e)
    {
      match e
      case Approved(_, _, _, _, _, _, _, _, _) => HandleTimeLogApproved(e);
      case Insight(_, _, _) => var _ := HandleAiInsight(e);
      case Paid(_) => HandleInvoicePaid(e);
      case Ignored =>
    }

    /** The subscriber's loop over a new table. */
    method Listen(messages: seq<Event>)
      requires rows == Fold([])
      modifies this
      ensures rows == Fold(messages)
    {
      for n := 0 to |messages|
        invariant rows == Fold(messages[..n])
      {
        assert messages[..n + 1][..n] == messages[..n];
        Handle(messages[n]);
      }
      assert messages[..|messages|] == messages;
    }
  }

  // ------------------------------------------------------------- closed form

  function ApprovalOf(id: string): Event -> bool {
    (e: Event) => e.Approved? && e.timeLogId == id
  }

  function InsightOf(id: string): Event -> bool {
    (e: Event) => e.Insight? && e.timeLogId == id
  }

  /** Position of the first event that satisfies `p`. */
  function First(h: seq<Event>, p: Event -> bool): (i: Option<nat>)
    ensures i.Some? ==> i.value < |h| && p(h[i.value]) && forall j :: 0 <= j < i.value ==> !p(h[j])
    ensures i.None? ==> forall j :: 0 <= j < |h| ==> !p(h[j])
  {
    if h == [] then None
    else
      var n := |h| - 1;
      var before := First(h[..n], p);
      if before.Some? then before
      else if p(h[n]) then Some(n) else assert forall j :: 0 <= j < n ==> h[..n][j] == h[j]; None
  }

  /** Position of the last event that satisfies `p`. */
  function Last(h: seq<Event>, p: Event -> bool): (i: Option<nat>)
    ensures i.Some? ==> i.value < |h| && p(h[i.value]) && forall j :: i.value < j < |h| ==> !p(h[j])
    ensures i.None? ==> forall j :: 0 <= j < |h| ==> !p(h[j])
  {
    if h == [] then None
    else
      var n := |h| - 1;
      assert forall j :: 0 <= j < n ==> h[..n][j] == h[j];
      if p(h[n]) then Some(n) else Last(h[..n], p)
  }

  /** Event `k` pays for the log: its tenant is the log's, and the log was billable when it came. */
  predicate PaysAt(h: seq<Event>, k: nat, id: string)
    requires k < |h|
  {
    var first, last := First(h[..k], ApprovalOf(id)), Last(h[..k], ApprovalOf(id));
    && h[k].Paid? && h[k].payer.GetOr("") != ""
    && first.Some? && last.Some?
    && Tenant(h[first.value]) == h[k].payer.value
    && Billable(h[last.value])
  }

  lemma PaysAtPrefix(h: seq<Event>, n: nat, id: string)
    requires n <= |h|
    ensures forall j :: 0 <= j < n ==> PaysAt(h[..n], j, id) == PaysAt(h, j, id)
  {
    hide First, Last;
    assert forall j :: 0 <= j < n ==> h[..n][..j] == h[..j] && h[..n][j] == h[j];
  }

  function FirstPayment(h: seq<Event>, id: string): (k: Option<nat>)
    ensures k.Some? ==> k.value < |h| && PaysAt(h, k.value, id) && forall j :: 0 <= j < k.value ==> !PaysAt(h, j, id)
    ensures k.None? ==> forall j :: 0 <= j < |h| ==> !PaysAt(h, j, id)
  {
    if h == [] then None
    else
      var n := |h| - 1;
      var before := FirstPayment(h[..n], id);
      PaysAtPrefix(h, n, id);
      if before.Some? then before else if PaysAt(h, n, id) then Some(n) else None
  }

  /** What the whole history says about a log's row. */
  function ClosedForm(h: seq<Event>, id: string): Option<Fact> {
    var first, last := First(h, ApprovalOf(id)), Last(h, ApprovalOf(id));
    if id == "" || first.None? || last.None? then None
    else
      var insight := Last(h, InsightOf(id));
      var rated := insight.Some? && insight.value > first.value;
      var payment := FirstPayment(h, id);
      var frozen := if payment.Some? then Last(h[..payment.value], ApprovalOf(id)) else None;
      Some(Row(h[last.value], Tenant(h[first.value]),
               if rated then h[insight.value].category else None,
               if rated then h[insight.value].qualityScore else None,
               payment.Some?, if frozen.Some? then Cost(h[frozen.value]) else 0.0))
  }

  function Lookup(t: Table, id: string): Option<Fact> {
    if id in t then Some(t[id]) else None
  }

  lemma FirstSnoc(h: seq<Event>, e: Event, p: Event -> bool)
    ensures First(h + [e], p) == if First(h, p).Some? then First(h, p) else if p(e) then Some(|h|) else None
  {
    assert (h + [e])[..|h|] == h;
  }

  lemma LastSnoc(h: seq<Event>, e: Event, p: Event -> bool)
    ensures Last(h + [e], p) == if p(e) then Some(|h|) else Last(h, p)
  {
    assert (h + [e])[..|h|] == h;
  }

  lemma PaymentSnoc(h: seq<Event>, e: Event, id: string)
    ensures FirstPayment(h + [e], id) ==
      if FirstPayment(h, id).Some? then FirstPayment(h, id) else if PaysAt(h + [e], |h|, id) then Some(|h|) else None
  {
    assert (h + [e])[..|h|] == h;
  }

  /** Approvals that pay for nothing leave payment and freezing point where they were. */
  lemma ClosedFormApproved(h: seq<Event>, e: Event, id: string)
    requires id != "" && e.Approved? && Lookup(Fold(h), id) == ClosedForm(h, id)
    ensures Lookup(AfterApproved(Fold(h), e), id) == ClosedForm(h + [e], id)
  {
    var h' := h + [e];
    FirstSnoc(h, e, ApprovalOf(id));
    LastSnoc(h, e, ApprovalOf(id));
    LastSnoc(h, e, InsightOf(id));
    PaymentSnoc(h, e, id);
    NoPaymentBeforeApproval(h, id);
    hide First, Last, FirstPayment, Fold;
    if FirstPayment(h, id).Some? {
      assert h'[..FirstPayment(h, id).value] == h[..FirstPayment(h, id).value];
    }
  }

  lemma NoPaymentBeforeApproval(h: seq<Event>, id: string)
    ensures First(h, ApprovalOf(id)).None? ==> FirstPayment(h, id).None?
  {
    if FirstPayment(h, id).Some? {
      var k := FirstPayment(h, id).value;
      assert PaysAt(h, k, id);
      var i := First(h[..k], ApprovalOf(id)).value;
      assert ApprovalOf(id)(h[i]);
    }
  }

  lemma ClosedFormInsight(h: seq<Event>, e: Event, id: string)
    requires id != "" && e.Insight? && Lookup(Fold(h), id) == ClosedForm(h, id)
    ensures Lookup(AfterInsight(Fold(h), e), id) == ClosedForm(h + [e], id)
  {
    var h' := h + [e];
    FirstSnoc(h, e, ApprovalOf(id));
    LastSnoc(h, e, ApprovalOf(id));
    LastSnoc(h, e, InsightOf(id));
    PaymentSnoc(h, e, id);
    hide First, Last, FirstPayment, Fold;
    if FirstPayment(h, id).Some? {
      assert h'[..FirstPayment(h, id).value] == h[..FirstPayment(h, id).value];
    }
  }

  lemma ClosedFormPaid(h: seq<Event>, e: Event, id: string)
    requires id != "" && (e.Paid? || e.Ignored?) && Lookup(Fold(h), id) == ClosedForm(h, id)
    ensures Lookup(After(Fold(h), e), id) == ClosedForm(h + [e], id)
  {
    var h' := h + [e];
    FirstSnoc(h, e, ApprovalOf(id));
    LastSnoc(h, e, ApprovalOf(id));
    LastSnoc(h, e, InsightOf(id));
    PaymentSnoc(h, e, id);
    hide First, Last, FirstPayment, Fold;
    assert h'[..|h|] == h && h'[|h|] == e;
    if FirstPayment(h, id).Some? {
      assert h'[..FirstPayment(h, id).value] == h[..FirstPayment(h, id).value];
    }
  }

  /** One event changes the closed form as it changes the table. */
  lemma ClosedFormStep(h: seq<Event>, e: Event, id: string)
    requires id != "" && Lookup(Fold(h), id) == ClosedForm(h, id)
    ensures Lookup(After(Fold(h), e), id) == ClosedForm(h + [e], id)
  {
    hide ClosedForm, Fold;
    match e
    case Approved(_, _, _, _, _, _, _, _, _) => ClosedFormApproved(h, e, id);
    case Insight(_, _, _) => ClosedFormInsight(h, e, id);
    case Paid(_) => ClosedFormPaid(h, e, id);
    case Ignored => ClosedFormPaid(h, e, id);
  }

  /** The incremental table agrees with the closed form after every history, for every log. */
  lemma {:induction false} TableIsClosedForm(h: seq<Event>, id: string)
    ensures Lookup(Fold(h), id) == ClosedForm(h, id)
  {
    if h == [] {
    } else {
      var n := |h| - 1;
      assert h[..n] + [h[n]] == h;
      TableIsClosedForm(h[..n], id);
      if id != "" {
        ClosedFormStep(h[..n], h[n], id);
      } else {
        NoNamelessRow(h);
      }
    }
  }

  lemma {:induction false} NoNamelessRow(h: seq<Event>)
    ensures "" !in Fold(h)
  {
    if h == [] {
    } else {
      NoNamelessRow(h[..|h| - 1]);
    }
  }

  /**
   What a row of any table shows: the last approval of its log as it was sent, the
   tenant of the first, and the price of its hours at its rate.
   */
  lemma RowShowsApproval(h: seq<Event>, id: string)
    requires id in Fold(h)
    ensures First(h, ApprovalOf(id)).Some? && Last(h, ApprovalOf(id)).Some?
    ensures
      var f, first, e := Fold(h)[id], h[First(h, ApprovalOf(id)).value], h[Last(h, ApprovalOf(id)).value];
      && f.tenantId == (if first.tenantId.Some? then first.tenantId.value else "unknown")
      && f.userId == (if e.userId.Some? then e.userId.value else "unknown")
      && f.projectId == (if e.projectId.Some? then e.projectId.value else "unknown")
      && f.hours == (if e.hours.Some? then e.hours.value else 0.0)
      && f.hourlyRate == e.hourlyRate
      && f.description == (if e.description.Some? then e.description.value else "")
      && f.logDate == e.logDate
      && f.billable == (if e.billable.Some? then e.billable.value else true)
      && (if f.hourlyRate.Some? then IsPrice(f.cost, f.hours, f.hourlyRate.value) else f.cost == 0.0)
  {
    TableIsClosedForm(h, id);
    var e := h[Last(h, ApprovalOf(id)).value];
    hide Fold, FirstPayment, First, Last, Amount, IsPrice;
    var hours := e.hours.GetOr(0.0);
    AmountIsPrice(hours, e.hourlyRate.GetOr(0.0));
    AmountIsCents(hours, 0.0);
  }

  /** Event `j` is the last approval of the log before event `k`. */
  predicate LastApprovedBefore(h: seq<Event>, j: nat, k: nat, id: string)
    requires k <= |h|
  {
    j < k && ApprovalOf(id)(h[j]) && forall m :: j < m < k ==> !ApprovalOf(id)(h[m])
  }

  /**
   A paid row was paid by an event of its own tenant, at the price of the approval
   that held then, which was billable; an unpaid row shows no payment.
   */
  lemma PaidAmountIsPrice(h: seq<Event>, id: string) returns (k: nat, j: nat)
    requires id in Fold(h)
    ensures !Fold(h)[id].invoicePaid ==> Fold(h)[id].paidAmount == 0.0
    ensures Fold(h)[id].invoicePaid ==>
      var f := Fold(h)[id];
      && k < |h| && h[k].Paid? && h[k].payer == Some(f.tenantId) && f.tenantId != ""
      && LastApprovedBefore(h, j, k, id)
      && (h[j].billable.Some? ==> h[j].billable.value)
      && (if h[j].hourlyRate.Some? then IsPrice(f.paidAmount, if h[j].hours.Some? then h[j].hours.value else 0.0, h[j].hourlyRate.value)
          else f.paidAmount == 0.0)
  {
    hide Fold, FirstPayment, First, Last, Amount, IsPrice, PaysAt;
    TableIsClosedForm(h, id);
    k, j := 0, 0;
    if FirstPayment(h, id).Some? {
      k := FirstPayment(h, id).value;
      j := PaidFrom(h, k, id);
      var hours := h[j].hours.GetOr(0.0);
      AmountIsPrice(hours, h[j].hourlyRate.GetOr(0.0));
      AmountIsCents(hours, 0.0);
    }
  }

  /** The approvals a payment looks at: the first names the tenant, the last before it the amount. */
  lemma PaidFrom(h: seq<Event>, k: nat, id: string) returns (j: nat)
    requires k < |h| && PaysAt(h, k, id)
    ensures LastApprovedBefore(h, j, k, id) && Last(h[..k], ApprovalOf(id)) == Some(j) && Billable(h[j])
    ensures First(h, ApprovalOf(id)).Some? && h[k].Paid? && h[k].payer == Some(Tenant(h[First(h, ApprovalOf(id)).value]))
    ensures h[k].payer != Some("")
  {
    hide First, Last;
    j := Last(h[..k], ApprovalOf(id)).value;
    FirstOfPrefix(h, k, ApprovalOf(id));
    assert h[..k][j] == h[j] && forall m :: j < m < k ==> h[..k][m] == h[m];
  }

  /** An event that is the first of a prefix is the first of all. */
  lemma FirstOfPrefix(h: seq<Event>, k: nat, p: Event -> bool)
    requires k <= |h| && First(h[..k], p).Some?
    ensures First(h, p) == First(h[..k], p)
  {
    hide First;
    var i := First(h[..k], p).value;
    assert forall m :: 0 <= m < k ==> h[..k][m] == h[m];
    assert p(h[i]);
  }

  /** In every table the week of a row is the label of its date, through insights, payments and repeated approvals. */
  lemma {:induction false} WeeksFollowDates(h: seq<Event>, id: string)
    requires id in Fold(h)
    ensures Fold(h)[id].logWeek == LogDates.WeekLabel(Fold(h)[id].logDate)
  {
    hide LogDates.WeekLabel, Charge;
    var n := |h| - 1;
    if id in Fold(h[..n]) {
      WeeksFollowDates(h[..n], id);
    }
  }

  /** Once paid, a row stays paid at the same amount, whatever is approved, rated or paid later. */
  lemma {:induction false} PaymentsAreFrozen(h: seq<Event>, later: seq<Event>, id: string)
    requires id in Fold(h) && Fold(h)[id].invoicePaid
    ensures id in Fold(h + later) && Fold(h + later)[id].invoicePaid
    ensures Fold(h + later)[id].paidAmount == Fold(h)[id].paidAmount && Fold(h + later)[id].tenantId == Fold(h)[id].tenantId
  {
    if later == [] {
      assert h + later == h;
    } else {
      var n := |later| - 1;
      PaymentsAreFrozen(h, later[..n], id);
      assert (h + later)[..|h + later| - 1] == h + later[..n];
    }
  }
}
