/** Which payment settles a sale, and that over every run each paid sale names a payment on file. */
module CustomerStamps {
  import opened Wrappers
  import opened Receivables
  import opened SettlementPass
  import opened CustomerRuns
  import opened CustomerTheorems
  import opened Sums
  import Staff

  // ---- which payment a sale is settled by ------------------------------------------------------

  predicate NewlyPaid(b: Book, b': Book, i: nat) {
    i < |b.sales| && i < |b'.sales| && b.sales[i].status.Pending? && b'.sales[i].status.Paid?
  }

  /** The sale carries the id of the payment, and its rail. */
  predicate Names(s: Sale, p: Payment) {
    s.stamp == Some(p.id) && s.rail == p.rail
  }

  /** A pass that no payment triggered stamps the newest payment on file, the one with the largest id. */
  lemma SettledByTheNewest(b: Book, i: nat) returns (p: Payment)
    requires PaymentsSound(b) && NewlyPaid(b, Reapply(b, None), i)
    ensures p in b.payments && (forall q :: q in b.payments ==> q.id <= p.id)
    ensures Reapply(b, None).sales[i].stamp == Some(p.id) && Reapply(b, None).sales[i].rail == p.rail
  {
    PassSettlesIff(b, None, i);
    p := b.payments[|b.payments| - 1];
    forall q | q in b.payments ensures q.id <= p.id {
      var k :| 0 <= k < |b.payments| && b.payments[k] == q;
    }
  }

  /** A pass that a payment triggered stamps that payment. */
  lemma SettledByItsTrigger(b: Book, p: Payment, i: nat)
    requires NewlyPaid(b, Reapply(b, Some(p)), i)
    ensures Reapply(b, Some(p)).sales[i].stamp == Some(p.id) && Reapply(b, Some(p)).sales[i].rail == p.rail
  {
    PassSettlesIff(b, Some(p), i);
  }

  // ---- every paid sale names a payment on file ---------------------------------------------------

  /** A stamp and a rail belong to paid sales, and are those of one payment. */
  ghost predicate SaleNamed(s: Sale, payments: seq<Payment>) {
    if s.status.Paid? then exists p :: p in payments && Names(s, p) else s.stamp.None? && s.rail.None?
  }

  ghost predicate StampsHold(sales: seq<Sale>, payments: seq<Payment>) {
    forall i :: 0 <= i < |sales| ==> SaleNamed(sales[i], payments)
  }

  lemma PassKeepsStamps(b: Book, trigger: Option<Payment>)
    requires StampsHold(b.sales, b.payments) && (trigger.Some? ==> trigger.value in b.payments)
    ensures StampsHold(Reapply(b, trigger).sales, Reapply(b, trigger).payments)
  {
    PassOnlySettles(b, trigger);
    if Reapply(b, trigger) != b {
      SettlesTheFittingPrefix(b.sales, Headroom(b), SettlingPayment(b, trigger).value);
      forall i | 0 <= i < |b.sales| ensures SaleNamed(Reapply(b, trigger).sales[i], b.payments) {
        assert SaleNamed(b.sales[i], b.payments);
        assert SettlingPayment(b, trigger).value in b.payments;
      }
    }
  }

  lemma OneSaleKeepsStamps(sales: seq<Sale>, i: nat, s: Sale, payments: seq<Payment>)
    requires StampsHold(sales, payments) && i < |sales| && SaleNamed(s, payments)
    ensures StampsHold(sales[i := s], payments)
  {
  }

  lemma MorePaymentsKeepStamps(sales: seq<Sale>, payments: seq<Payment>, p: Payment)
    requires StampsHold(sales, payments)
    ensures StampsHold(sales, payments + [p])
  {
    forall i | 0 <= i < |sales| ensures SaleNamed(sales[i], payments + [p]) {
      assert SaleNamed(sales[i], payments);
    }
  }

  lemma PostKeepsStamps(b: Book, i: nat)
    requires StampsHold(b.sales, b.payments)
    ensures StampsHold(Post(b, i).Or(b).sales, Post(b, i).Or(b).payments)
  {
    if Post(b, i).Success? {
      var charged := ChargedOnPosting(b, i);
      assert SaleNamed(b.sales[i], b.payments);
      OneSaleKeepsStamps(b.sales, i, b.sales[i].(status := Pending), b.payments);
      PassKeepsStamps(charged, None);
    }
  }

  /** What a posting charges, before its pass: one row of the price, unless the sale has a CHARGE row. */
  lemma ChargedOnPosting(b: Book, i: nat) returns (charged: Book)
    requires Post(b, i).Success?
    ensures Post(b, i) == Success(Reapply(charged, None)) && i < |b.sales|
    ensures charged == b.(sales := b.sales[i := b.sales[i].(status := Pending)], ledger := charged.ledger, balance := charged.balance)
    ensures if exists r :: r in b.ledger && r.kind.ChargeEntry? && r.sale == Some(i)
            then charged.ledger == b.ledger && charged.balance == b.balance
            else charged.ledger == b.ledger + [Entry(ChargeEntry, b.sales[i].price, Some(i), None)]
                 && charged.balance == b.balance + b.sales[i].price
  {
    FilterMembers(b.ledger, IsChargeOf(i));
    if Filter(b.ledger, IsChargeOf(i)) != [] {
      assert Filter(b.ledger, IsChargeOf(i))[0] in Filter(b.ledger, IsChargeOf(i));
      charged := b.(sales := b.sales[i := b.sales[i].(status := Pending)]);
    } else {
      charged := b.(sales := b.sales[i := b.sales[i].(status := Pending)],
                    ledger := b.ledger + [Entry(ChargeEntry, b.sales[i].price, Some(i), None)],
                    balance := b.balance + b.sales[i].price);
    }
  }

  lemma SyncKeepsStamps(b: Book, i: nat)
    requires StampsHold(b.sales, b.payments)
    ensures StampsHold(Sync(b, i).Or(b).sales, Sync(b, i).Or(b).payments)
  {
    if Sync(b, i).Success? && Sync(b, i).value != b {
      var s := b.sales[i];
      assert SaleNamed(s, b.payments);
      var synced := SyncedState(b, i, s.price);
      OneSaleKeepsStamps(b.sales, i, if s.status.Paid? then Reopened(s) else s, b.payments);
      PassKeepsStamps(synced, None);
    }
  }

  lemma RepriceKeepsStamps(b: Book, i: nat, price: Cents)
    requires StampsHold(b.sales, b.payments)
    ensures StampsHold(Reprice(b, i, price).Or(b).sales, Reprice(b, i, price).Or(b).payments)
  {
    if i < |b.sales| {
      assert SaleNamed(b.sales[i], b.payments);
      OneSaleKeepsStamps(b.sales, i, b.sales[i].(price := price), b.payments);
      SyncKeepsStamps(b.(sales := b.sales[i := b.sales[i].(price := price)]), i);
    }
  }

  lemma PayKeepsStamps(b: Book, amount: Cents, rail: Option<MethodId>, via: bool, recipient: Option<Staff.EmployeeId>)
    requires StampsHold(b.sales, b.payments)
    ensures StampsHold(Pay(b, amount, rail, via, recipient).Or(b).sales, Pay(b, amount, rail, via, recipient).Or(b).payments)
  {
    if Pay(b, amount, rail, via, recipient).Success? {
      var p := NewPayment(b, amount, rail, via, recipient);
      MorePaymentsKeepStamps(b.sales, b.payments, p);
      PassKeepsStamps(Booked(b, p).(office := HeldBy(b.office, p).value), Some(p));
    }
  }

  lemma WithdrawnKeepsStamps(sales: seq<Sale>, payments: seq<Payment>, id: PaymentId)
    requires StampsHold(sales, payments)
    ensures StampsHold(UnsettleAll(sales, id), Filter(payments, Not(HasId(id))))
  {
    FilterMembers(payments, Not(HasId(id)));
    forall i | 0 <= i < |sales| ensures SaleNamed(UnsettleAll(sales, id)[i], Filter(payments, Not(HasId(id)))) {
      assert SaleNamed(sales[i], payments);
    }
  }

  lemma DeletePaymentKeepsStamps(b: Book, id: PaymentId)
    requires StampsHold(b.sales, b.payments)
    ensures StampsHold(DeletePayment(b, id).Or(b).sales, DeletePayment(b, id).Or(b).payments)
  {
    if DeletePayment(b, id).Success? {
      var p := FindPayment(b.payments, id).value;
      WithdrawnKeepsStamps(b.sales, b.payments, p.id);
      PassKeepsStamps(Withdrawn(b, p, GivenBack(b.office, p).value), None);
    }
  }

  lemma WriteOffKeepsStamps(b: Book)
    requires StampsHold(b.sales, b.payments)
    ensures StampsHold(WriteOff(b).sales, WriteOff(b).payments)
  {
    forall i | 0 <= i < |b.sales| ensures SaleNamed(WriteOff(b).sales[i], b.payments) {
      assert SaleNamed(b.sales[i], b.payments);
    }
  }

  lemma AdjustKeepsStamps(b: Book, amount: Cents)
    requires StampsHold(b.sales, b.payments)
    ensures StampsHold(Adjust(b, amount).Or(b).sales, Adjust(b, amount).Or(b).payments)
  {
    if amount != 0 {
      PassKeepsStamps(b.(ledger := b.ledger + [Entry(AdjustmentEntry, amount, None, None)], balance := b.balance + amount), None);
    }
  }

  lemma ApproveKeepsStamps(b: Book, k: nat)
    requires StampsHold(b.sales, b.payments)
    ensures StampsHold(Approve(b, k).Or(b).sales, Approve(b, k).Or(b).payments)
  {
    if Approve(b, k).Success? {
      var s := b.submissions[k];
      ApproveIsPay(b, k);
      PayKeepsStamps(b, s.amount, s.rail, s.recipient.Some?, s.recipient);
    }
  }

  lemma SaleOpKeepsStamps(b: Book, op: Op)
    requires StampsHold(b.sales, b.payments) && OnSales(op)
    ensures StampsHold(Apply(b, op).sales, Apply(b, op).payments)
  {
    match op
    case OpAddSale(price, cost) => assert SaleNamed(Sale(Awaiting, price, cost, 0, None, None), b.payments);
    case OpPost(i) => PostKeepsStamps(b, i);
    case OpReprice(i, price) => RepriceKeepsStamps(b, i, price);
  }

  lemma PaymentOpKeepsStamps(b: Book, op: Op)
    requires StampsHold(b.sales, b.payments) && OnPayments(op)
    ensures StampsHold(Apply(b, op).sales, Apply(b, op).payments)
  {
    match op
    case OpPay(amount, rail, via, recipient) => PayKeepsStamps(b, amount, rail, via, recipient);
    case OpApprove(k) => ApproveKeepsStamps(b, k);
    case OpSubmit(_, _, _, _) =>
    case OpReject(_) =>
  }

  lemma CorrectionKeepsStamps(b: Book, op: Op)
    requires StampsHold(b.sales, b.payments) && Corrects(op)
    ensures StampsHold(Apply(b, op).sales, Apply(b, op).payments)
  {
    match op
    case OpAdjust(amount) => AdjustKeepsStamps(b, amount);
    case OpWriteOff => WriteOffKeepsStamps(b);
    case OpDeletePayment(id) => DeletePaymentKeepsStamps(b, id);
    case OpDeleteEntry(_) =>
  }

  lemma OfficeOpKeepsStamps(b: Book, op: Op)
    requires StampsHold(b.sales, b.payments) && InTheOffice(op)
    ensures StampsHold(Apply(b, op).sales, Apply(b, op).payments)
  {
    if op.OpDeleteStaffRow? && op.k < |b.office.rows| && b.office.rows[op.k].payment.Some? {
      DeletePaymentKeepsStamps(b, b.office.rows[op.k].payment.value);
    }
  }

  lemma StepKeepsStamps(b: Book, op: Op)
    requires StampsHold(b.sales, b.payments)
    ensures StampsHold(Apply(b, op).sales, Apply(b, op).payments)
  {
    if OnSales(op) {
      SaleOpKeepsStamps(b, op);
    } else if OnPayments(op) {
      PaymentOpKeepsStamps(b, op);
    } else if InTheOffice(op) {
      OfficeOpKeepsStamps(b, op);
    } else {
      CorrectionKeepsStamps(b, op);
    }
  }

  lemma {:induction false} RunKeepsStamps(b: Book, ops: seq<Op>)
    requires StampsHold(b.sales, b.payments)
    ensures StampsHold(Run(b, ops).sales, Run(b, ops).payments)
  {
    if |ops| > 0 {
      RunKeepsStamps(b, ops[..|ops| - 1]);
      StepKeepsStamps(Run(b, ops[..|ops| - 1]), ops[|ops| - 1]);
    }
  }

  /**
   * After every run of the services, whatever was deleted, repriced or written off: a paid sale
   * names one payment on file and its rail, and no other sale names any.
   */
  lemma PaidSalesNameAPaymentOnFile(office: Staff.Office, last: PaymentId, ops: seq<Op>, i: nat)
    requires i < |Run(NewCustomer(office, last), ops).sales|
    ensures var b := Run(NewCustomer(office, last), ops); var s := b.sales[i];
            if s.status.Paid? then exists p :: p in b.payments && s.stamp == Some(p.id) && s.rail == p.rail
            else s.stamp.None? && s.rail.None?
  {
    RunKeepsStamps(NewCustomer(office, last), ops);
    var b := Run(NewCustomer(office, last), ops);
    assert SaleNamed(b.sales[i], b.payments);
    if b.sales[i].status.Paid? {
      var p :| p in b.payments && Names(b.sales[i], p);
    }
  }
}
