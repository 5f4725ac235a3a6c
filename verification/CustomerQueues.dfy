/** First in, first out: which sales are paid after a run, and how payments combine. */
module CustomerQueues {
  import opened Wrappers
  import opened Sums
  import opened Receivables
  import opened SettlementPass
  import opened CustomerRuns
  import opened CustomerTheorems
  import Staff

  // ---- runs that keep the books clean ----------------------------------------------

  /** The calls that can break the match of charges and sales, or the cover of the paid sales, are these. */
  ghost predicate KeepsClean(b: Book, op: Op) {
    match op
    case OpAddSale(price, cost) => price >= 0
    case OpReprice(i, price) => price >= 0 || i >= |b.sales| || IsPosted(b.sales[i])
    case OpDeletePayment(id) => CoveredWithout(b, id)
    case OpDeleteEntry(k) => k < |b.ledger| ==> LeavesChargesAlone(b, k)
    case OpDeleteStaffRow(k) =>
      k < |b.office.rows| && MirrorsOurs(b, b.office.rows[k]) ==> CoveredWithout(b, b.office.rows[k].payment.value)
    case _ => RecipientKept(b, op)
  }

  predicate IsPosted(s: Sale) {
    s.status.Pending? || s.status.Paid?
  }

  /** The row mirrors a payment of this customer. */
  predicate MirrorsOurs(b: Book, r: Staff.Row) {
    r.kind.CustomerPayment? && r.payment.Some? && FindPayment(b.payments, r.payment.value).Some?
  }

  /** Row `k` belongs to no sale, or it is for nothing and not the only charge of a posted sale. */
  ghost predicate LeavesChargesAlone(b: Book, k: nat)
    requires k < |b.ledger|
  {
    var r := b.ledger[k];
    r.sale.Some? ==>
      && r.amount == 0
      && (r.sale.value < |b.sales| && IsPosted(b.sales[r.sale.value]) ==>
            exists j :: 0 <= j < |b.ledger| && j != k && ChargesSale(r.sale.value, b.ledger[j]))
  }

  /** The sales a payment did not settle are covered by the other payments. */
  ghost predicate CoveredWithout(b: Book, id: PaymentId) {
    FindPayment(b.payments, id).Some? ==>
      PaidTotal(b) - Sum(b.sales, SettledBy(id)) <= PaymentsTotal(b) - FindPayment(b.payments, id).value.amount
  }

  lemma DeletePaymentKeepsClean(b: Book, id: PaymentId)
    requires Clean(b) && CoveredWithout(b, id)
    ensures Clean(DeletePayment(b, id).Or(b))
  {
    if DeletePayment(b, id).Success? {
      var p := FindPayment(b.payments, id).value;
      var w := Withdrawn(b, p, GivenBack(b.office, p).value);
      GivenBackKeepsSound(b, p);
      WithdrawnTotals(b, p, w.office);
      WithdrawnKeepsCharges(b, p, w);
      PassKeepsClean(w, None);
    }
  }

  lemma WithdrawnKeepsCharges(b: Book, p: Payment, w: Book)
    requires Clean(b) && w == Withdrawn(b, p, w.office)
    ensures ChargesMatch(w) && PricesNonNegative(w)
  {
    FilterMembers(b.ledger, Not(MirrorsPayment(p.id)));
    forall i | 0 <= i < |w.sales|
      ensures ChargeHolds(w.sales[i], w.ledger, i)
    {
      WithdrawnKeepsCharge(b, p.id, w.ledger, i);
    }
    forall s | s in w.sales
      ensures s.price >= 0
    {
      var i :| 0 <= i < |w.sales| && w.sales[i] == s;
      assert b.sales[i] in b.sales;
    }
  }

  lemma WithdrawnKeepsCharge(b: Book, id: PaymentId, rest: seq<Entry>, i: nat)
    requires ChargesMatch(b) && LedgerSound(b) && i < |b.sales| && rest == Filter(b.ledger, Not(MirrorsPayment(id)))
    ensures ChargeHolds(b.sales[i], rest, i)
  {
    assert ChargeHolds(b.sales[i], b.ledger, i);
    FilterMembers(b.ledger, MirrorsPayment(id));
    FilterMembers(b.ledger, Not(MirrorsPayment(id)));
    SumSplit(b.ledger, MirrorsPayment(id), NetOfSale(i));
    SumZero(Filter(b.ledger, MirrorsPayment(id)), NetOfSale(i));
  }

  /** The ledger without row `k` still has every other row. */
  lemma WithoutRow(ledger: seq<Entry>, k: nat)
    requires k < |ledger|
    ensures var rest := ledger[..k] + ledger[k + 1..];
            && (forall r :: r in rest ==> r in ledger)
            && (forall j :: 0 <= j < |ledger| && j != k ==> ledger[j] in rest)
            && (forall r :: r in ledger && r != ledger[k] ==> r in rest)
  {
    var rest := ledger[..k] + ledger[k + 1..];
    forall j | 0 <= j < |ledger| && j != k ensures ledger[j] in rest {
      assert ledger[j] == rest[if j < k then j else j - 1];
    }
  }

  lemma DeletedRowKeepsCharge(b: Book, k: nat, rest: seq<Entry>, i: nat)
    requires ChargesMatch(b) && k < |b.ledger| && rest == b.ledger[..k] + b.ledger[k + 1..] && i < |b.sales|
    requires LeavesChargesAlone(b, k)
    ensures ChargeHolds(b.sales[i], rest, i)
  {
    assert ChargeHolds(b.sales[i], b.ledger, i);
    SumRemove(b.ledger, k, NetOfSale(i));
    WithoutRow(b.ledger, k);
    assert b.ledger[k] in b.ledger;
  }

  lemma OnlyIdleRowsGo(b: Book, k: nat, rest: seq<Entry>)
    requires ChargesMatch(b) && k < |b.ledger| && rest == b.ledger[..k] + b.ledger[k + 1..] && ChargesHold(b.sales, rest)
    ensures LeavesChargesAlone(b, k)
  {
    var r := b.ledger[k];
    assert r in b.ledger;
    if r.sale.Some? {
      var i := r.sale.value;
      assert ChargeHolds(b.sales[i], b.ledger, i) && ChargeHolds(b.sales[i], rest, i);
      SumRemove(b.ledger, k, NetOfSale(i));
      if IsPosted(b.sales[i]) {
        var n :| 0 <= n < |rest| && ChargesSale(i, rest[n]);
        assert ChargesSale(i, b.ledger[if n < k then n else n + 1]);
      }
    }
  }

  /** Deleting a row that is not a live mirror keeps the charges matched exactly when it leaves them alone. */
  lemma DeletionKeepsChargesIff(b: Book, k: nat)
    requires ChargesMatch(b) && k < |b.ledger|
    ensures ChargesHold(b.sales, b.ledger[..k] + b.ledger[k + 1..]) <==> LeavesChargesAlone(b, k)
  {
    var r, rest := b.ledger[k], b.ledger[..k] + b.ledger[k + 1..];
    WithoutRow(b.ledger, k);
    assert r in b.ledger;
    if LeavesChargesAlone(b, k) {
      forall i | 0 <= i < |b.sales| ensures ChargeHolds(b.sales[i], rest, i) {
        DeletedRowKeepsCharge(b, k, rest, i);
      }
    }
    if ChargesHold(b.sales, rest) {
      OnlyIdleRowsGo(b, k, rest);
    }
  }

  lemma DeleteEntryKeepsCleanIff(b: Book, k: nat)
    requires Clean(b) && k < |b.ledger|
    ensures Clean(DeleteEntry(b, k).Or(b)) <==> LeavesChargesAlone(b, k)
  {
    DeleteEntryKeepsSound(b, k);
    DeletionKeepsChargesIff(b, k);
    assert b.ledger[k] in b.ledger;
  }

  lemma AddSaleKeepsClean(b: Book, price: Cents, cost: Cents)
    requires Clean(b) && price >= 0
    ensures Clean(AddSale(b, price, cost))
  {
    var b' := AddSale(b, price, cost);
    StepKeepsSound(b, OpAddSale(price, cost));
    SumAppend(b.sales, b'.sales[|b.sales|], PaidPrice());
    forall i | 0 <= i < |b'.sales|
      ensures ChargeHolds(b'.sales[i], b'.ledger, i)
    {
      if i < |b.sales| {
        assert ChargeHolds(b.sales[i], b.ledger, i);
        SameRowsSameCharge(b, b', i);
      }
    }
  }

  lemma CleanStep(b: Book, op: Op)
    requires Clean(b) && KeepsClean(b, op)
    ensures Clean(Apply(b, op))
  {
    if OnSales(op) {
      CleanSaleStep(b, op);
    } else if OnPayments(op) {
      CleanPaymentStep(b, op);
    } else if InTheOffice(op) {
      CleanOfficeStep(b, op);
    } else {
      CleanCorrectionStep(b, op);
    }
  }

  lemma CleanSaleStep(b: Book, op: Op)
    requires Clean(b) && KeepsClean(b, op) && OnSales(op)
    ensures Clean(Apply(b, op))
  {
    match op
    case OpAddSale(price, cost) => AddSaleKeepsClean(b, price, cost);
    case OpPost(i) => PostKeepsClean(b, i);
    case OpReprice(i, price) => if price >= 0 { RepriceKeepsClean(b, i, price); } else { NegativePriceIsRefused(b, i, price); }
  }

  lemma CleanPaymentStep(b: Book, op: Op)
    requires Clean(b) && OnPayments(op)
    ensures Clean(Apply(b, op))
  {
    match op
    case OpPay(amount, rail, via, recipient) => PayKeepsClean(b, amount, rail, via, recipient);
    case OpSubmit(amount, rail, via, recipient) => SubmitKeepsClean(b, amount, rail, via, recipient);
    case OpApprove(k) => ApproveKeepsClean(b, k);
    case OpReject(k) => RejectKeepsClean(b, k);
  }

  lemma SubmitKeepsClean(b: Book, amount: Cents, rail: Option<MethodId>, via: bool, recipient: Option<Staff.EmployeeId>)
    requires Clean(b)
    ensures Clean(Submit(b, amount, rail, via, recipient).Or(b))
  {
    SubmitKeepsSound(b, amount, rail, via, recipient);
    SameAccountSameClean(b, Submit(b, amount, rail, via, recipient).Or(b));
  }

  lemma RejectKeepsClean(b: Book, k: nat)
    requires Clean(b)
    ensures Clean(Reject(b, k).Or(b))
  {
    RejectKeepsSound(b, k);
    SameAccountSameClean(b, Reject(b, k).Or(b));
  }

  lemma NegativePriceIsRefused(b: Book, i: nat, price: Cents)
    requires ChargesMatch(b) && price < 0 && (i < |b.sales| ==> IsPosted(b.sales[i]))
    ensures Reprice(b, i, price).Failure?
  {
    if i < |b.sales| {
      ChargedOncePosted(b, i);
    }
  }

  lemma CleanCorrectionStep(b: Book, op: Op)
    requires Clean(b) && KeepsClean(b, op) && Corrects(op)
    ensures Clean(Apply(b, op))
  {
    match op
    case OpAdjust(amount) => AdjustKeepsClean(b, amount);
    case OpWriteOff => WriteOffKeepsClean(b);
    case OpDeletePayment(id) => DeletePaymentKeepsClean(b, id);
    case OpDeleteEntry(k) => if k < |b.ledger| { DeleteEntryKeepsCleanIff(b, k); }
  }

  lemma CleanOfficeStep(b: Book, op: Op)
    requires Clean(b) && KeepsClean(b, op) && InTheOffice(op)
    ensures Clean(Apply(b, op))
  {
    if op.OpDeleteStaffRow? && op.k < |b.office.rows| && MirrorsOurs(b, b.office.rows[op.k]) {
      DeletePaymentKeepsClean(b, b.office.rows[op.k].payment.value);
    } else {
      OfficeOpKeepsSound(b, op);
      OfficeLeavesTheAccount(b, op);
      SameAccountSameClean(b, Apply(b, op));
    }
  }

  /** The office has its own books, but for the mirrors of this customer's payments. */
  lemma OfficeLeavesTheAccount(b: Book, op: Op)
    requires InTheOffice(op)
    requires op.OpDeleteStaffRow? && op.k < |b.office.rows| ==> !MirrorsOurs(b, b.office.rows[op.k])
    ensures var b' := Apply(b, op); b'.sales == b.sales && b'.payments == b.payments && b'.ledger == b.ledger
  {
  }

  // ---- and no others do ----------------------------------------------------------------

  lemma DeletePaymentKeepsCleanIff(b: Book, id: PaymentId)
    requires Clean(b)
    ensures Clean(DeletePayment(b, id).Or(b)) <==> CoveredWithout(b, id)
  {
    if CoveredWithout(b, id) {
      DeletePaymentKeepsClean(b, id);
    } else {
      assert GivenBack(b.office, FindPayment(b.payments, id).value).Success?;
      DeletionKeepsPaidCoveredIff(b, id);
    }
  }

  lemma NegativePriceStays(b: Book, i: nat, price: Cents)
    requires i < |b.sales| && price < 0 && !IsPosted(b.sales[i])
    ensures !PricesNonNegative(Reprice(b, i, price).Or(b))
  {
    var edited := b.(sales := b.sales[i := b.sales[i].(price := price)]);
    assert edited.sales[i] in edited.sales;
  }

  lemma MisplacedCredit(b: Book, sale: nat, e: Staff.EmployeeId)
    requires Staff.Balanced(b.office) && !RecipientKept(b, OpUndoSalePayment(sale, e))
    ensures !Staff.Balanced(Apply(b, OpUndoSalePayment(sale, e)).office)
  {
    Staff.ReverseBalancedExactly(b.office, Staff.OfSale(sale), e);
  }

  /** The conditions are exact: from clean books, a call keeps them clean exactly when it is one of these. */
  lemma CleanStepIff(b: Book, op: Op)
    requires Clean(b)
    ensures Clean(Apply(b, op)) <==> KeepsClean(b, op)
  {
    if KeepsClean(b, op) {
      CleanStep(b, op);
    } else {
      match op
      case OpAddSale(price, cost) => assert AddSale(b, price, cost).sales[|b.sales|] in AddSale(b, price, cost).sales;
      case OpReprice(i, price) => NegativePriceStays(b, i, price);
      case OpDeletePayment(id) => DeletePaymentKeepsCleanIff(b, id);
      case OpDeleteEntry(k) => DeleteEntryKeepsCleanIff(b, k);
      case OpDeleteStaffRow(k) => DeletePaymentKeepsCleanIff(b, b.office.rows[k].payment.value);
      case OpUndoSalePayment(sale, e) => MisplacedCredit(b, sale, e);
    }
  }

  ghost predicate AllKeepClean(b: Book, ops: seq<Op>) {
    forall n :: 0 <= n < |ops| ==> KeepsClean(Run(b, ops[..n]), ops[n])
  }

  lemma AllKeepCleanBefore(b: Book, ops: seq<Op>)
    requires AllKeepClean(b, ops) && |ops| > 0
    ensures AllKeepClean(b, ops[..|ops| - 1]) && KeepsClean(Run(b, ops[..|ops| - 1]), ops[|ops| - 1])
  {
    var before := ops[..|ops| - 1];
    forall n | 0 <= n < |before| ensures KeepsClean(Run(b, before[..n]), before[n]) {
      assert before[..n] == ops[..n];
    }
  }

  /**
   * In every run that avoids the others, at every moment, every posted sale is charged its price,
   * the paid sales are covered by the payments, and the reserve of the pass is the net adjustments.
   */
  lemma {:induction false} CleanRuns(office: Staff.Office, last: PaymentId, ops: seq<Op>)
    requires ShopInUse(office, last)
    requires AllKeepClean(NewCustomer(office, last), ops)
    ensures var b := Run(NewCustomer(office, last), ops);
            Clean(b) && Reserve(b) == Max(0, Adjustments(b))
  {
    var start := NewCustomer(office, last);
    if |ops| > 0 {
      AllKeepCleanBefore(start, ops);
      CleanRuns(office, last, ops[..|ops| - 1]);
      CleanStep(Run(start, ops[..|ops| - 1]), ops[|ops| - 1]);
    }
    ReserveCollapses(Run(start, ops));
  }

  // ---- instalments -----------------------------------------------------------------

  /** What the pass sees right after a payment is booked on clean books. */
  lemma HeadroomAfterBooking(b: Book, p: Payment) returns (booked: Book)
    requires Clean(b) && p.id == b.lastPayment + 1 && p.amount > 0 && HeldBy(b.office, p).Success?
    ensures booked == Booked(b, p).(office := HeldBy(b.office, p).value)
    ensures Clean(booked)
    ensures Headroom(booked) == PaymentsTotal(b) + p.amount - PaidTotal(b) - Max(0, Adjustments(b))
  {
    booked := BookedIsClean(b, p);
    SumAppend(b.payments, p, PaymentAmount());
    SumAppend(b.ledger, Entry(PaymentEntry, p.amount, None, Some(p.id)), AdjustmentAmount());
    ReserveCollapses(booked);
  }

  /** What the payments leave for sales that are not paid yet, on clean books. */
  function Spare(b: Book): Cents {
    PaymentsTotal(b) - PaidTotal(b) - Max(0, Adjustments(b))
  }

  /** The sales after the pass, when `spare` is what may be spent, and what it spends. */
  function Spend(sales: seq<Sale>, spare: Cents, p: Payment): seq<Sale> {
    if spare > 0 then Settle(sales, spare, p) else sales
  }

  function Spent(sales: seq<Sale>, spare: Cents): Cents {
    if spare > 0 then Taken(sales, spare) else 0
  }

  /** How a payment is handed over: directly, or to an employee who keeps the money. */
  datatype Channel = Channel(rail: Option<MethodId>, viaEmployee: bool, recipient: Option<Staff.EmployeeId>)

  /** `after` is the book that paying `x` leads to. */
  ghost predicate PaidInto(b: Book, x: Cents, c: Channel, after: Book) {
    Pay(b, x, c.rail, c.viaEmployee, c.recipient) == Success(after)
  }

  /** A payment on clean books: the spare money grows by the amount and the pass spends from it. */
  lemma PaymentSpends(b: Book, x: Cents, c: Channel, after: Book) returns (p: Payment)
    requires Clean(b) && PaidInto(b, x, c, after)
    ensures x > 0 && Clean(after)
    ensures SpentFrom(b.sales, Spare(b) + x, p, after.sales, Spare(after))
  {
    p := NewPayment(b, x, c.rail, c.viaEmployee, c.recipient);
    BookingSpends(b, p);
  }

  lemma BookingSpends(b: Book, p: Payment)
    requires Clean(b) && p.id == b.lastPayment + 1 && p.amount > 0 && HeldBy(b.office, p).Success?
    ensures var after := Reapply(Booked(b, p).(office := HeldBy(b.office, p).value), Some(p));
            Clean(after) && SpentFrom(b.sales, Spare(b) + p.amount, p, after.sales, Spare(after))
  {
    var booked := HeadroomAfterBooking(b, p);
    PassKeepsClean(booked, Some(p));
    PassSpends(b, booked, p);
  }

  lemma PassSpends(b: Book, booked: Book, p: Payment)
    requires booked.sales == b.sales && booked.payments == b.payments + [p]
    requires booked.ledger == b.ledger + [Entry(PaymentEntry, p.amount, None, Some(p.id))]
    requires Headroom(booked) == Spare(b) + p.amount
    ensures SpentFrom(b.sales, Spare(b) + p.amount, p, Reapply(booked, Some(p)).sales, Spare(Reapply(booked, Some(p))))
  {
    PassOnlySettles(booked, Some(p));
    SumAppend(b.payments, p, PaymentAmount());
    SumAppend(b.ledger, Entry(PaymentEntry, p.amount, None, Some(p.id)), AdjustmentAmount());
    SettleTotals(b.sales, Spare(b) + p.amount, p);
  }

  /** What is known of a book after one payment, without saying how it was reached. */
  ghost predicate SpentFrom(sales: seq<Sale>, spare: Cents, p: Payment, after: seq<Sale>, left: Cents) {
    after == Spend(sales, spare, p) && left == spare - Spent(sales, spare)
  }

  /** The same sales are settled, at the same prices, by whatever payments. */
  ghost predicate SettledAlike(sales: seq<Sale>, others: seq<Sale>) {
    && |sales| == |others|
    && (forall i :: 0 <= i < |sales| ==> sales[i].status == others[i].status && sales[i].price == others[i].price)
  }

  lemma {:induction false} SettleAlike(sales: seq<Sale>, others: seq<Sale>, amount: Cents, p: Payment, q: Payment)
    requires SettledAlike(sales, others)
    ensures SettledAlike(Settle(sales, amount, p), Settle(others, amount, q))
    ensures Taken(sales, amount) == Taken(others, amount)
  {
    if |sales| > 0 {
      var s, t := sales[0], others[0];
      var left := amount - PendingPrice()(s);
      SettleAlike(sales[1..], others[1..], left, p, q);
      if !s.status.Pending? {
        AlikeCons(s, t, Settle(sales[1..], left, p), Settle(others[1..], left, q));
      } else if s.price <= amount {
        AlikeCons(Stamped(s, p), Stamped(t, q), Settle(sales[1..], left, p), Settle(others[1..], left, q));
      }
    }
  }

  lemma AlikeCons(s: Sale, t: Sale, sales: seq<Sale>, others: seq<Sale>)
    requires s.status == t.status && s.price == t.price && SettledAlike(sales, others)
    ensures SettledAlike([s] + sales, [t] + others)
  {
  }

  ghost predicate SamePrices(sales: seq<Sale>, others: seq<Sale>) {
    |sales| == |others| && forall i :: 0 <= i < |sales| ==> sales[i].price == others[i].price
  }

  lemma PricesStay(sales: seq<Sale>, spare: Cents, p: Payment)
    ensures SamePrices(sales, Spend(sales, spare, p))
  {
    SettlesTheFittingPrefix(sales, spare, p);
  }

  lemma PricesStayTwice(sales: seq<Sale>, spare: Cents, p: Payment, more: Cents, q: Payment)
    ensures SamePrices(sales, Spend(Spend(sales, spare, p), more, q))
  {
    PricesStay(sales, spare, p);
    PricesStay(Spend(sales, spare, p), more, q);
  }

  lemma AlikeFrom(sales: seq<Sale>, second: seq<Sale>, whole: seq<Sale>)
    requires SamePrices(sales, second) && SamePrices(sales, whole) && Statuses(second) == Statuses(whole)
    ensures SettledAlike(second, whole)
  {
    forall i | 0 <= i < |second| ensures second[i].status == whole[i].status {
      assert Statuses(second)[i] == Statuses(whole)[i];
    }
  }

  /** Spending `spare` and then the rest and `extra` settles what spending it all at once settles. */
  lemma SpendInTwoSteps(sales: seq<Sale>, spare: Cents, extra: Cents, p: Payment, q: Payment)
    requires extra > 0
    ensures SettledAlike(Spend(Spend(sales, spare, p), spare - Spent(sales, spare) + extra, q), Spend(sales, spare + extra, q))
  {
    var first, left := Spend(sales, spare, p), spare - Spent(sales, spare);
    var second, whole := Spend(first, left + extra, q), Spend(sales, spare + extra, q);
    if spare > 0 {
      SettleTotals(sales, spare, p);
      SettleInTwoSteps(sales, spare, extra, p, q, q);
    }
    PricesStayTwice(sales, spare, p, left + extra, q);
    PricesStay(sales, spare + extra, q);
    AlikeFrom(sales, second, whole);
  }

  /** The same step from sales that only look settled alike, with what remains of the money. */
  lemma SpendOn(sales: seq<Sale>, spare: Cents, extra: Cents, total: Cents, p: Payment, q: Payment, first: seq<Sale>, second: seq<Sale>)
    requires extra > 0 && total == spare + extra && SettledAlike(first, Spend(sales, spare, p))
    requires second == Spend(first, spare - Spent(sales, spare) + extra, q)
    ensures SettledAlike(second, Spend(sales, total, q))
    ensures Spent(sales, spare) + Spent(first, spare - Spent(sales, spare) + extra) == Spent(sales, total)
  {
    var once, left := Spend(sales, spare, p), spare - Spent(sales, spare);
    SettleAlike(first, once, left + extra, q, q);
    SpendInTwoSteps(sales, spare, extra, p, q);
    SpentIsPaid(sales, spare, p);
    SpentIsPaid(first, left + extra, q);
    SpentIsPaid(sales, spare + extra, q);
    SumSame(first, once, PaidPrice(), PaidPrice());
    SumSame(second, Spend(sales, spare + extra, q), PaidPrice(), PaidPrice());
  }

  lemma SpentIsPaid(sales: seq<Sale>, spare: Cents, p: Payment)
    ensures Sum(Spend(sales, spare, p), PaidPrice()) == Sum(sales, PaidPrice()) + Spent(sales, spare)
  {
    SettleTotals(sales, spare, p);
  }

  datatype Instalment = Instalment(amount: Cents, channel: Channel)

  function AmountOf(): Instalment -> int {
    (i: Instalment) => i.amount
  }

  /** The books along a list of payments, the first before any of them. */
  ghost predicate History(books: seq<Book>, paid: seq<Instalment>) {
    |books| == |paid| + 1 && forall n :: 0 <= n < |paid| ==> PaidAt(books, paid, n)
  }

  ghost predicate PaidAt(books: seq<Book>, paid: seq<Instalment>, n: nat)
    requires n < |paid| < |books|
  {
    PaidInto(books[n], paid[n].amount, paid[n].channel, books[n + 1])
  }

  /** A history without its last payment `i`, made on the books `b`. */
  lemma HistoryBefore(books: seq<Book>, paid: seq<Instalment>) returns (before: seq<Book>, b: Book, i: Instalment)
    requires History(books, paid) && |paid| > 0
    ensures History(before, paid[..|paid| - 1]) && before == books[..|paid|]
    ensures b == books[|paid| - 1] && i == paid[|paid| - 1] && PaidInto(b, i.amount, i.channel, books[|paid|])
  {
    before, b, i := books[..|paid|], books[|paid| - 1], paid[|paid| - 1];
    assert PaidAt(books, paid, |paid| - 1);
    var earlier := paid[..|paid| - 1];
    forall n | 0 <= n < |earlier| ensures PaidAt(before, earlier, n) {
      assert PaidAt(books, paid, n);
    }
  }

  lemma LastAmount(paid: seq<Instalment>)
    requires |paid| > 0
    ensures Sum(paid, AmountOf()) == Sum(paid[..|paid| - 1], AmountOf()) + paid[|paid| - 1].amount
  {
    assert paid == paid[..|paid| - 1] + [paid[|paid| - 1]];
    SumAppend(paid[..|paid| - 1], paid[|paid| - 1], AmountOf());
  }

  /** `last` is settled as if `spare` had been spent at once on `sales`, and keeps the rest. */
  ghost predicate SpentInAll(sales: seq<Sale>, spare: Cents, p: Payment, last: Book) {
    Clean(last) && Spare(last) == spare - Spent(sales, spare) && SettledAlike(last.sales, Spend(sales, spare, p))
  }

  lemma FirstPaymentSpends(b: Book, total: Cents, x: Cents, c: Channel, after: Book) returns (p: Payment)
    requires Clean(b) && PaidInto(b, x, c, after) && total == Spare(b) + x
    ensures SpentInAll(b.sales, total, p, after)
  {
    p := PaymentSpends(b, x, c, after);
  }

  lemma NextPaymentSpends(sales: seq<Sale>, spare: Cents, total: Cents, earlier: Payment, b: Book, x: Cents, c: Channel, after: Book) returns (p: Payment)
    requires SpentInAll(sales, spare, earlier, b) && PaidInto(b, x, c, after) && total == spare + x
    ensures SpentInAll(sales, total, p, after)
  {
    p := PaymentSpends(b, x, c, after);
    SpendOn(sales, spare, x, total, earlier, p, b.sales, after.sales);
  }

  lemma {:induction false} SpendsAlong(books: seq<Book>, paid: seq<Instalment>, first: Book, last: Book, total: Cents) returns (p: Payment)
    requires History(books, paid) && |paid| > 0 && first == books[0] && last == books[|paid|]
    requires Clean(first) && total == Spare(first) + Sum(paid, AmountOf())
    ensures SpentInAll(first.sales, total, p, last)
    decreases |paid|
  {
    var before, b, i := HistoryBefore(books, paid);
    LastAmount(paid);
    if |paid| == 1 {
      p := FirstPaymentSpends(first, total, i.amount, i.channel, last);
    } else {
      var spare := total - i.amount;
      var earlier := SpendsAlong(before, paid[..|paid| - 1], first, b, spare);
      p := NextPaymentSpends(first.sales, spare, total, earlier, b, i.amount, i.channel, last);
    }
  }

  /** After any payments, the sales are settled as if their total had been paid at once. */
  lemma HistorySpends(books: seq<Book>, paid: seq<Instalment>) returns (p: Payment)
    requires History(books, paid) && |paid| > 0 && Clean(books[0])
    ensures SpentInAll(books[0].sales, Spare(books[0]) + Sum(paid, AmountOf()), p, books[|paid|])
  {
    p := SpendsAlong(books, paid, books[0], books[|paid|], Spare(books[0]) + Sum(paid, AmountOf()));
  }

  /** However a total is split into payments, and by whatever channels, the same sales are settled. */
  lemma InstalmentsSettleTheSame(books: seq<Book>, paid: seq<Instalment>, others: seq<Book>, otherwise: seq<Instalment>)
    requires History(books, paid) && History(others, otherwise) && |paid| > 0 && |otherwise| > 0
    requires Clean(books[0]) && others[0] == books[0] && Sum(paid, AmountOf()) == Sum(otherwise, AmountOf())
    ensures SettledAlike(books[|paid|].sales, others[|otherwise|].sales)
  {
    var p := HistorySpends(books, paid);
    var q := HistorySpends(others, otherwise);
    SettleAlike(books[0].sales, books[0].sales, Spare(books[0]) + Sum(paid, AmountOf()), p, q);
  }

  /** A larger total, however paid, settles every sale a smaller one settles. */
  lemma LargerPaymentSettlesMore(books: seq<Book>, paid: seq<Instalment>, others: seq<Book>, otherwise: seq<Instalment>)
    requires History(books, paid) && History(others, otherwise) && |paid| > 0 && |otherwise| > 0
    requires Clean(books[0]) && others[0] == books[0] && Sum(paid, AmountOf()) <= Sum(otherwise, AmountOf())
    ensures |books[|paid|].sales| == |others[|otherwise|].sales|
    ensures forall i :: 0 <= i < |books[|paid|].sales| && books[|paid|].sales[i].status.Paid? ==> others[|otherwise|].sales[i].status.Paid?
  {
    var sales, spare := books[0].sales, Spare(books[0]) + Sum(paid, AmountOf());
    var extra := Sum(otherwise, AmountOf()) - Sum(paid, AmountOf());
    var p := HistorySpends(books, paid);
    var q := HistorySpends(others, otherwise);
    MoreSpendsMore(sales, spare, extra, p, q, books[|paid|].sales, others[|otherwise|].sales);
  }

  lemma MoreSpendsMore(sales: seq<Sale>, spare: Cents, extra: Cents, p: Payment, q: Payment, small: seq<Sale>, large: seq<Sale>)
    requires extra >= 0 && SettledAlike(small, Spend(sales, spare, p)) && SettledAlike(large, Spend(sales, spare + extra, q))
    ensures |small| == |large|
    ensures forall i :: 0 <= i < |small| && small[i].status.Paid? ==> large[i].status.Paid?
  {
    MoreSettlesMore(sales, spare, extra, p, q);
    SettlesTheFittingPrefix(sales, spare + extra, q);
  }

  // ---- the paid sales are the longest covered prefix -----------------------------------

  function Price(): Sale -> int {
    (s: Sale) => s.price
  }

  function CumulativePrice(b: Book, i: nat): Cents
    requires i < |b.sales|
  {
    Sum(b.sales[..i + 1], Price())
  }

  /** Postings in created order, payments direct or through submissions, and anything in the office. */
  ghost predicate InOrder(b: Book, op: Op) {
    match op
    case OpAddSale(price, cost) => price >= 0
    case OpPost(i) =>
      i < |b.sales| && b.sales[i].status.Awaiting? && forall j :: 0 <= j < i ==> !b.sales[j].status.Awaiting?
    case OpPay(_, _, _, _) => true
    case OpSubmit(_, _, _, _) => true
    case OpApprove(_) => true
    case OpReject(_) => true
    case OpDeleteStaffRow(k) => k < |b.office.rows| ==> !MirrorsOurs(b, b.office.rows[k])
    case _ => InTheOffice(op) && RecipientKept(b, op)
  }

  /** Paid sales first, then pending ones, then those still waiting for approval. */
  ghost predicate Queue(sales: seq<Sale>) {
    && (forall i :: 0 <= i < |sales| ==> sales[i].price >= 0 && sales[i].status in {Awaiting, Pending, Paid})
    && (forall i, j :: 0 <= i < j < |sales| && sales[i].status.Awaiting? ==> sales[j].status.Awaiting?)
    && (forall i, j :: 0 <= i < j < |sales| && sales[i].status.Pending? ==> !sales[j].status.Paid?)
  }

  /** The queue up to a sale is more than what is left, or both are nothing. */
  predicate Beyond(queue: Cents, left: Cents) {
    queue > left || (queue == 0 && left == 0)
  }

  /** Nothing pending still fits what is left of the payments; when nothing is left, free sales wait too. */
  ghost predicate Exhausted(sales: seq<Sale>, left: Cents) {
    forall i :: 0 <= i < |sales| && sales[i].status.Pending? ==> Beyond(QueueUpTo(sales, i), left)
  }

  ghost predicate QueueHolds(sales: seq<Sale>, payments: seq<Payment>, ledger: seq<Entry>) {
    && Sum(ledger, AdjustmentAmount()) == 0 && Queue(sales)
    && Exhausted(sales, Sum(payments, PaymentAmount()) - Sum(sales, PaidPrice()))
  }

  ghost predicate InQueue(b: Book) {
    Clean(b) && QueueHolds(b.sales, b.payments, b.ledger)
  }

  lemma PassKeepsQueue(sales: seq<Sale>, available: Cents, payer: Payment)
    requires Queue(sales)
    ensures Queue(Settle(sales, available, payer))
  {
    SettlesTheFittingPrefix(sales, available, payer);
  }

  /** A pass that has run leaves nothing pending that would fit. */
  lemma PassExhausts(b: Book, trigger: Option<Payment>)
    requires Clean(b) && Adjustments(b) == 0 && Queue(b.sales)
    requires trigger.Some? ==> trigger.value.id <= b.lastPayment
    ensures InQueue(Reapply(b, trigger))
  {
    var b' := Reapply(b, trigger);
    PassKeepsClean(b, trigger);
    PassOnlySettles(b, trigger);
    if b' != b {
      PassKeepsQueue(b.sales, Headroom(b), SettlingPayment(b, trigger).value);
    }
    PassIsAFixpoint(b, trigger);
    StoppedPassExhausts(b');
  }

  lemma StoppedPassExhausts(b: Book)
    requires Clean(b) && Adjustments(b) == 0 && Queue(b.sales) && Reapply(b, None) == b
    ensures InQueue(b)
  {
    ReserveCollapses(b);
    forall i | 0 <= i < |b.sales| && b.sales[i].status.Pending?
      ensures Beyond(QueueUpTo(b.sales, i), PaymentsTotal(b) - PaidTotal(b))
    {
      StillPendingDoesNotFit(b, i);
    }
  }

  lemma StillPendingDoesNotFit(b: Book, i: nat)
    requires Clean(b) && Reapply(b, None) == b && Queue(b.sales) && Reserve(b) == 0
    requires i < |b.sales| && b.sales[i].status.Pending?
    ensures Beyond(QueueUpTo(b.sales, i), Headroom(b))
  {
    QueueGrows(b.sales, i, i);
    SumNonNegative(b.sales, PaidPrice());
    if Headroom(b) > 0 {
      assert |b.payments| > 0;
      SettlesTheFittingPrefix(b.sales, Headroom(b), SettlingPayment(b, None).value);
      assert !Fits(b.sales, Headroom(b), i);
      var j: nat :| j <= i && b.sales[j].status.Pending? && QueueUpTo(b.sales, j) > Headroom(b);
      QueueGrows(b.sales, j, i);
    }
  }

  lemma QueueGrows(sales: seq<Sale>, j: nat, i: nat)
    requires Queue(sales) && j <= i < |sales|
    ensures QueueUpTo(sales, j) <= QueueUpTo(sales, i)
    ensures sales[i].status.Pending? ==> QueueUpTo(sales, i) >= sales[i].price
  {
    assert sales[..i + 1] == sales[..j + 1] + sales[j + 1..i + 1];
    SumConcat(sales[..j + 1], sales[j + 1..i + 1], PendingPrice());
    SumNonNegative(sales[j + 1..i + 1], PendingPrice());
    assert sales[..i + 1] == sales[..i] + [sales[i]];
    SumAppend(sales[..i], sales[i], PendingPrice());
    SumNonNegative(sales[..i], PendingPrice());
  }

  lemma InOrderStep(b: Book, op: Op)
    requires InQueue(b) && InOrder(b, op)
    ensures InQueue(Apply(b, op))
  {
    match op
    case OpAddSale(price, cost) => AddSaleKeepsQueue(b, price, cost);
    case OpPost(i) => PostKeepsQueue(b, i);
    case OpPay(amount, rail, via, recipient) => PayKeepsQueue(b, amount, rail, via, recipient);
    case OpApprove(k) => ApproveKeepsQueue(b, k);
    case _ => OtherStepKeepsQueue(b, op);
  }

  lemma OtherStepKeepsQueue(b: Book, op: Op)
    requires InQueue(b) && InOrder(b, op) && (op.OpSubmit? || op.OpReject? || InTheOffice(op))
    ensures InQueue(Apply(b, op))
  {
    if InTheOffice(op) {
      OfficeStepKeepsQueue(b, op);
    } else {
      CleanStep(b, op);
    }
  }

  lemma OfficeStepKeepsQueue(b: Book, op: Op)
    requires InQueue(b) && InTheOffice(op) && InOrder(b, op)
    ensures InQueue(Apply(b, op))
  {
    CleanStep(b, op);
    OfficeLeavesTheAccount(b, op);
  }

  lemma PostKeepsQueue(b: Book, i: nat)
    requires InQueue(b) && InOrder(b, OpPost(i))
    ensures InQueue(Post(b, i).Or(b))
  {
    var charged := PostedStateIsClean(b, i);
    NextIsPosted(b.sales, i);
    PassExhausts(charged, None);
  }

  lemma NextIsPosted(sales: seq<Sale>, i: nat)
    requires Queue(sales) && i < |sales| && sales[i].status.Awaiting? && forall j :: 0 <= j < i ==> !sales[j].status.Awaiting?
    ensures Queue(sales[i := sales[i].(status := Pending)])
  {
  }

  lemma ApproveKeepsQueue(b: Book, k: nat)
    requires InQueue(b)
    ensures InQueue(Approve(b, k).Or(b))
  {
    if Approve(b, k).Success? {
      var s := b.submissions[k];
      ApproveIsPay(b, k);
      PayKeepsQueue(b, s.amount, s.rail, s.recipient.Some?, s.recipient);
      ApproveKeepsClean(b, k);
    }
  }

  lemma AddSaleKeepsQueue(b: Book, price: Cents, cost: Cents)
    requires InQueue(b) && price >= 0
    ensures InQueue(AddSale(b, price, cost))
  {
    AddSaleKeepsClean(b, price, cost);
    SumAppend(b.sales, Sale(Awaiting, price, cost, 0, None, None), PaidPrice());
    LongerQueue(b.sales, Sale(Awaiting, price, cost, 0, None, None), PaymentsTotal(b) - PaidTotal(b));
  }

  lemma LongerQueue(sales: seq<Sale>, s: Sale, left: Cents)
    requires Queue(sales) && Exhausted(sales, left) && s.status.Awaiting? && s.price >= 0
    ensures Queue(sales + [s]) && Exhausted(sales + [s], left)
  {
    var longer := sales + [s];
    forall i | 0 <= i < |longer| && longer[i].status.Pending?
      ensures Beyond(QueueUpTo(longer, i), left)
    {
      assert longer[..i + 1] == sales[..i + 1];
      assert Beyond(QueueUpTo(sales, i), left);
    }
  }

  lemma PayKeepsQueue(b: Book, amount: Cents, rail: Option<MethodId>, via: bool, recipient: Option<Staff.EmployeeId>)
    requires InQueue(b)
    ensures InQueue(Pay(b, amount, rail, via, recipient).Or(b))
  {
    if Pay(b, amount, rail, via, recipient).Success? {
      var p := NewPayment(b, amount, rail, via, recipient);
      var booked := BookedIsClean(b, p);
      SumAppend(b.ledger, Entry(PaymentEntry, amount, None, Some(p.id)), AdjustmentAmount());
      PassExhausts(booked, Some(p));
    }
  }

  /** In a queue, the price of everything up to a posted sale is what is paid plus what is pending before it. */
  lemma CumulativeInQueue(b: Book, i: nat)
    requires Queue(b.sales) && i < |b.sales| && !b.sales[i].status.Awaiting?
    ensures b.sales[i].status.Paid? ==> CumulativePrice(b, i) <= PaidTotal(b)
    ensures b.sales[i].status.Pending? ==> CumulativePrice(b, i) == PaidTotal(b) + QueueUpTo(b.sales, i)
  {
    var upto := b.sales[..i + 1];
    var rest := b.sales[i + 1..];
    assert b.sales == upto + rest;
    SumConcat(upto, rest, PaidPrice());
    SumNonNegative(rest, PaidPrice());
    if b.sales[i].status.Paid? {
      SumAgree(upto, Price(), PaidPrice());
    } else {
      SumCombine(upto, PaidPrice(), PendingPrice(), Price());
      SumZero(rest, PaidPrice());
    }
  }

  ghost predicate AllInOrder(b: Book, ops: seq<Op>) {
    forall n :: 0 <= n < |ops| ==> InOrder(Run(b, ops[..n]), ops[n])
  }

  lemma InOrderBefore(b: Book, ops: seq<Op>)
    requires AllInOrder(b, ops) && |ops| > 0
    ensures AllInOrder(b, ops[..|ops| - 1]) && InOrder(Run(b, ops[..|ops| - 1]), ops[|ops| - 1])
  {
    var before := ops[..|ops| - 1];
    forall n | 0 <= n < |before| ensures InOrder(Run(b, before[..n]), before[n]) {
      assert before[..n] == ops[..n];
    }
  }

  lemma {:induction false} InOrderRuns(office: Staff.Office, last: PaymentId, ops: seq<Op>)
    requires ShopInUse(office, last) && AllInOrder(NewCustomer(office, last), ops)
    ensures InQueue(Run(NewCustomer(office, last), ops))
  {
    var start := NewCustomer(office, last);
    if |ops| > 0 {
      InOrderBefore(start, ops);
      InOrderRuns(office, last, ops[..|ops| - 1]);
      InOrderStep(Run(start, ops[..|ops| - 1]), ops[|ops| - 1]);
    }
  }

  /** The payments cover the sales up to and including `i`. */
  predicate Covered(b: Book, i: nat)
    requires i < |b.sales|
  {
    CumulativePrice(b, i) <= PaymentsTotal(b)
  }

  /** A free sale that waits although the payments cover it, to the cent. */
  predicate FreeAtTheEdge(b: Book, i: nat)
    requires i < |b.sales|
  {
    b.sales[i].status.Pending? && b.sales[i].price == 0 && CumulativePrice(b, i) == PaymentsTotal(b)
  }

  /**
   * From a new customer, after any interleaving of postings in created order and payments, while
   * the office does what it likes, the paid sales are exactly the posted ones whose cumulative
   * price the payments cover, but for free sales that wait at the very edge. The customer owes
   * nothing exactly when nothing with a price is pending.
   */
  lemma PaidSalesAreTheCoveredPrefix(office: Staff.Office, last: PaymentId, ops: seq<Op>)
    requires ShopInUse(office, last) && AllInOrder(NewCustomer(office, last), ops)
    ensures var b := Run(NewCustomer(office, last), ops);
            && (forall i :: 0 <= i < |b.sales| && !b.sales[i].status.Awaiting? ==>
                  ((b.sales[i].status.Paid? <==> Covered(b, i)) <==> !FreeAtTheEdge(b, i)))
            && (b.balance <= 0 <==> forall i :: 0 <= i < |b.sales| && b.sales[i].status.Pending? ==> b.sales[i].price == 0)
  {
    InOrderRuns(office, last, ops);
    QueueIsTheCoveredPrefix(Run(NewCustomer(office, last), ops));
  }

  lemma QueueIsTheCoveredPrefix(b: Book)
    requires InQueue(b)
    ensures forall i :: 0 <= i < |b.sales| && !b.sales[i].status.Awaiting? ==>
              ((b.sales[i].status.Paid? <==> Covered(b, i)) <==> !FreeAtTheEdge(b, i))
    ensures b.balance <= 0 <==> forall i :: 0 <= i < |b.sales| && b.sales[i].status.Pending? ==> b.sales[i].price == 0
  {
    BalanceOfMatchingCharges(b);
    forall i | 0 <= i < |b.sales| && !b.sales[i].status.Awaiting?
      ensures (b.sales[i].status.Paid? <==> Covered(b, i)) <==> !FreeAtTheEdge(b, i)
    {
      CumulativeInQueue(b, i);
      QueueGrows(b.sales, i, i);
    }
    if i :| 0 <= i < |b.sales| && b.sales[i].status.Pending? && b.sales[i].price != 0 {
      QueueGrows(b.sales, i, i);
      assert b.sales == b.sales[..i + 1] + b.sales[i + 1..];
      SumConcat(b.sales[..i + 1], b.sales[i + 1..], PendingPrice());
      SumNonNegative(b.sales[i + 1..], PendingPrice());
    } else {
      SumZero(b.sales, PendingPrice());
    }
  }
}
