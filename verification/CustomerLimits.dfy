/** Claims the account services do not meet, each with a run from a new customer, and calls that act once. */
module CustomerLimits {
  import opened Wrappers
  import opened Sums
  import opened Receivables
  import opened SettlementPass
  import opened CustomerRuns
  import opened CustomerQueues
  import Staff

  const NO_STAFF: Staff.Office := Staff.Office([], map[])
  const NEW_CUSTOMER: Book := EmptyBook(NO_STAFF)

  lemma RunAppend(b: Book, ops: seq<Op>, op: Op)
    ensures Run(b, ops + [op]) == Apply(Run(b, ops), op)
  {
    assert (ops + [op])[..|ops|] == ops;
  }

  lemma SumOne<T>(x: T, f: T -> int)
    ensures Sum([x], f) == f(x)
  {
    assert [x] == [x] + [];
    SumCons(x, [], f);
  }

  lemma SumTwo<T>(x: T, y: T, f: T -> int)
    ensures Sum([x, y], f) == f(x) + f(y)
  {
    assert [x, y] == [x] + [y];
    SumCons(x, [y], f);
    SumOne(y, f);
  }

  // ---- deleting a payment can leave the paid sales uncovered ------------------------

  /** A new customer's first sale, once posted: nothing has been paid, so the pass does nothing. */
  function OneSalePosted(price: Cents): Book {
    NEW_CUSTOMER.(sales := [Sale(Pending, price, 0, 0, None, None)],
                  ledger := [Entry(ChargeEntry, price, Some(0), None)],
                  balance := price)
  }

  lemma FirstSale(price: Cents)
    ensures Run(NEW_CUSTOMER, [OpAddSale(price, 0)] + [OpPost(0)]) == OneSalePosted(price)
  {
    assert Apply(NEW_CUSTOMER, OpAddSale(price, 0)) == OneSaleWaiting(price);
    Reaches([], NEW_CUSTOMER, OpAddSale(price, 0), OneSaleWaiting(price));
    assert [] + [OpAddSale(price, 0)] == [OpAddSale(price, 0)];
    PostTheFirst(price);
    Reaches([OpAddSale(price, 0)], OneSaleWaiting(price), OpPost(0), OneSalePosted(price));
  }

  function OneSaleWaiting(price: Cents): Book {
    NEW_CUSTOMER.(sales := [Sale(Awaiting, price, 0, 0, None, None)])
  }

  lemma PostTheFirst(price: Cents)
    ensures Apply(OneSaleWaiting(price), OpPost(0)) == OneSalePosted(price)
  {
    var waiting := OneSaleWaiting(price);
    assert waiting.sales[0 := waiting.sales[0].(status := Pending)] == OneSalePosted(price).sales;
    var posted := OneSalePosted(price);
    SumOne(posted.sales[0], PaidPrice());
    assert PaymentsTotal(posted) == 0 && PaidTotal(posted) == 0;
    assert Reapply(posted, None) == posted;
  }

  lemma Reaches(ops: seq<Op>, b: Book, op: Op, b': Book)
    requires Run(NEW_CUSTOMER, ops) == b && Apply(b, op) == b'
    ensures Run(NEW_CUSTOMER, ops + [op]) == b'
  {
    RunAppend(NEW_CUSTOMER, ops, op);
  }

  /** Two payments of 100: the first is too small for the sale of 150, the second settles it. */
  lemma TwicePaid(p: Payment, q: Payment, due: Sale) returns (ops: seq<Op>, twice: Book)
    requires p == Payment(1, 100, Some(0), None) && q == Payment(2, 100, Some(0), None)
    requires due == Sale(Pending, 150, 0, 0, None, None)
    ensures Run(NEW_CUSTOMER, ops) == twice
    ensures twice.sales == [Stamped(due, q)] && twice.payments == [p, q]
  {
    var pay := OpPay(100, Some(0), false, None);
    var once := Booked(OneSalePosted(150), p);
    twice := Booked(once, q).(sales := [Stamped(due, q)]);
    ops := [OpAddSale(150, 0)] + [OpPost(0)];
    FirstSale(150);
    FirstPaymentIsTooSmall(OneSalePosted(150), once, p, due);
    Reaches(ops, OneSalePosted(150), pay, once);
    SecondPaymentSettles(once, twice, q, due);
    Reaches(ops + [pay], once, pay, twice);
    ops := ops + [pay] + [pay];
  }

  /**
   * A sale of 150 is settled by the second of two payments of 100 and carries its stamp; deleting
   * the first payment reopens nothing, and 150 stays paid against 100 received.
   */
  lemma DeletionCanUncoverPaidSales() returns (ops: seq<Op>)
    ensures PaidTotal(Run(NEW_CUSTOMER, ops)) > PaymentsTotal(Run(NEW_CUSTOMER, ops))
  {
    var p, q := Payment(1, 100, Some(0), None), Payment(2, 100, Some(0), None);
    var due := Sale(Pending, 150, 0, 0, None, None);
    var twice;
    ops, twice := TwicePaid(p, q, due);
    UncoveredAfterDeletion(twice, p, q, due);
    Reaches(ops, twice, OpDeletePayment(1), Apply(twice, OpDeletePayment(1)));
    ops := ops + [OpDeletePayment(1)];
  }

  lemma FirstPaymentIsTooSmall(posted: Book, once: Book, p: Payment, due: Sale)
    requires p == Payment(1, 100, Some(0), None) && due == Sale(Pending, 150, 0, 0, None, None)
    requires posted == NEW_CUSTOMER.(sales := [due], ledger := [Entry(ChargeEntry, 150, Some(0), None)], balance := 150)
    requires once == Booked(posted, p)
    ensures Apply(posted, OpPay(100, Some(0), false, None)) == once
  {
    assert once.payments == [p];
    assert Headroom(once) <= 100 by {
      SumOne(p, PaymentAmount());
      SumOne(due, PaidPrice());
    }
    assert Settle([due], Headroom(once), p) == [due];
  }

  lemma SecondPaymentSettles(once: Book, twice: Book, q: Payment, due: Sale)
    requires q == Payment(2, 100, Some(0), None) && due == Sale(Pending, 150, 0, 0, None, None)
    requires once.sales == [due] && once.payments == [Payment(1, 100, Some(0), None)] && once.lastPayment == 1
    requires once.ledger == [Entry(ChargeEntry, 150, Some(0), None), Entry(PaymentEntry, 100, None, Some(1))]
    requires once.balance == 50
    requires twice == Booked(once, q).(sales := [Stamped(due, q)])
    ensures Apply(once, OpPay(100, Some(0), false, None)) == twice
  {
    var booked := Booked(once, q);
    SumTwo(Payment(1, 100, Some(0), None), q, PaymentAmount());
    SumOne(due, PaidPrice());
    SumOne(due, PendingPrice());
    SumTwo(once.ledger[0], once.ledger[1], AdjustmentAmount());
    SumAppend(once.ledger, Entry(PaymentEntry, 100, None, Some(2)), AdjustmentAmount());
    assert Headroom(booked) == 200;
    assert Settle([due], 200, q) == [Stamped(due, q)] + Settle([], 50, q);
  }

  lemma UncoveredAfterDeletion(twice: Book, p: Payment, q: Payment, due: Sale)
    requires p == Payment(1, 100, Some(0), None) && q == Payment(2, 100, Some(0), None)
    requires due == Sale(Pending, 150, 0, 0, None, None)
    requires twice.sales == [Stamped(due, q)] && twice.payments == [p, q]
    ensures var b := Apply(twice, OpDeletePayment(1)); PaidTotal(b) > PaymentsTotal(b)
  {
    assert FindPayment([p, q], 1) == Some(p);
    var w := Withdrawn(twice, p, twice.office);
    assert w.sales == [Stamped(due, q)];
    assert w.payments == [q] by {
      assert [p, q][1..] == [q];
      assert Filter([q], Not(HasId(1))) == [q] + Filter([], Not(HasId(1)));
    }
    SumOne(Stamped(due, q), PaidPrice());
    SumOne(q, PaymentAmount());
    assert Headroom(w) <= 0;
  }

  // ---- a free sale is not settled by an exhausted account ---------------------------------

  /** The exception to the covered prefix does happen: a free sale, alone on the account, stays pending. */
  lemma FreeSaleStaysPending()
    ensures var b := Run(NEW_CUSTOMER, [OpAddSale(0, 0)] + [OpPost(0)]);
            |b.sales| == 1 && Covered(b, 0) && FreeAtTheEdge(b, 0)
  {
    FirstSale(0);
    var due := Sale(Pending, 0, 0, 0, None, None);
    assert OneSalePosted(0).sales[..1] == [due];
    SumOne(due, Price());
  }

  // ---- with a negative price, a second pass can settle more -----------------------------------

  lemma SumThree<T>(x: T, y: T, z: T, f: T -> int)
    ensures Sum([x, y, z], f) == f(x) + f(y) + f(z)
  {
    assert [x, y, z] == [x] + [y, z];
    SumCons(x, [y, z], f);
    SumTwo(y, z, f);
  }

  const CLOSED := Sale(WrittenOff, 30, 0, 0, None, None)
  const REFUND := Sale(Awaiting, -5, 0, 0, None, None)
  const DEAR := Sale(Awaiting, 18, 0, 0, None, None)
  const TWENTY := Payment(1, 20, Some(0), None)
  const PAID_ROW := Entry(PaymentEntry, 20, None, Some(1))

  function Charge(amount: Cents, i: nat): Entry {
    Entry(ChargeEntry, amount, Some(i), None)
  }

  /** Books of a customer who was written off. */
  function Closed(sales: seq<Sale>, payments: seq<Payment>, ledger: seq<Entry>, balance: Cents): Book {
    Book(sales, payments, ledger, balance, false, [], |payments|, NO_STAFF)
  }

  lemma WriteOffTheFirst()
    ensures Apply(OneSalePosted(30), OpWriteOff) == Closed([CLOSED], [], [Charge(30, 0), Entry(ReversalEntry, 30, Some(0), None)], 0)
  {
    var b := OneSalePosted(30);
    SumOne(b.sales[0], PendingPrice());
    assert WriteOffAll(b.sales) == [CLOSED];
    assert Reversals(b.sales, 1) == [Entry(ReversalEntry, 30, Some(0), None)];
  }

  lemma PayTwenty()
    ensures Apply(Closed([CLOSED], [], [Charge(30, 0)], 30), OpPay(20, Some(0), false, None))
         == Closed([CLOSED], [TWENTY], [Charge(30, 0), PAID_ROW], 10)
  {
    var booked := Closed([CLOSED], [TWENTY], [Charge(30, 0), PAID_ROW], 10);
    assert Settle([CLOSED], Headroom(booked), TWENTY) == [CLOSED];
    assert [Charge(30, 0)] + [PAID_ROW] == booked.ledger && [] + [TWENTY] == booked.payments;
  }

  lemma DeleteTheReversal()
    ensures Apply(Closed([CLOSED], [], [Charge(30, 0), Entry(ReversalEntry, 30, Some(0), None)], 0), OpDeleteEntry(1))
         == Closed([CLOSED], [], [Charge(30, 0)], 30)
  {
    var rows := [Charge(30, 0), Entry(ReversalEntry, 30, Some(0), None)];
    assert rows[..1] + rows[2..] == [Charge(30, 0)];
  }

  lemma WrittenOffBooks() returns (ops: seq<Op>)
    ensures Run(NEW_CUSTOMER, ops) == Closed([CLOSED], [], [Charge(30, 0), Entry(ReversalEntry, 30, Some(0), None)], 0)
  {
    ops := [OpAddSale(30, 0)] + [OpPost(0)];
    FirstSale(30);
    WriteOffTheFirst();
    Reaches(ops, OneSalePosted(30), OpWriteOff, Closed([CLOSED], [], [Charge(30, 0), Entry(ReversalEntry, 30, Some(0), None)], 0));
    ops := ops + [OpWriteOff];
  }

  /** A written-off sale whose reversal was deleted leaves thirty of debt that no sale accounts for. */
  lemma DebtWithoutASale() returns (ops: seq<Op>)
    ensures Run(NEW_CUSTOMER, ops) == Closed([CLOSED], [TWENTY], [Charge(30, 0), PAID_ROW], 10)
  {
    var rows := [Charge(30, 0), Entry(ReversalEntry, 30, Some(0), None)];
    ops := WrittenOffBooks();
    DeleteTheReversal();
    Reaches(ops, Closed([CLOSED], [], rows, 0), OpDeleteEntry(1), Closed([CLOSED], [], [Charge(30, 0)], 30));
    ops := ops + [OpDeleteEntry(1)];
    PayTwenty();
    Reaches(ops, Closed([CLOSED], [], [Charge(30, 0)], 30), OpPay(20, Some(0), false, None), Closed([CLOSED], [TWENTY], [Charge(30, 0), PAID_ROW], 10));
    ops := ops + [OpPay(20, Some(0), false, None)];
  }

  lemma TwoMoreSales() returns (ops: seq<Op>)
    ensures Run(NEW_CUSTOMER, ops) == Closed([CLOSED, REFUND, DEAR], [TWENTY], [Charge(30, 0), PAID_ROW], 10)
  {
    var rows := [Charge(30, 0), PAID_ROW];
    ops := DebtWithoutASale();
    assert [CLOSED] + [REFUND] == [CLOSED, REFUND] && [CLOSED, REFUND] + [DEAR] == [CLOSED, REFUND, DEAR];
    Reaches(ops, Closed([CLOSED], [TWENTY], rows, 10), OpAddSale(-5, 0), Closed([CLOSED, REFUND], [TWENTY], rows, 10));
    ops := ops + [OpAddSale(-5, 0)];
    Reaches(ops, Closed([CLOSED, REFUND], [TWENTY], rows, 10), OpAddSale(18, 0), Closed([CLOSED, REFUND, DEAR], [TWENTY], rows, 10));
    ops := ops + [OpAddSale(18, 0)];
  }

  /** The books while the two sales are being posted and settled. */
  function Tight(refund: Sale, dear: Sale, charges: seq<Entry>, balance: Cents): Book {
    Closed([CLOSED, refund, dear], [TWENTY], [Charge(30, 0), PAID_ROW] + charges, balance)
  }

  lemma TightHeadroom(refund: Sale, dear: Sale, charges: seq<Entry>, balance: Cents)
    requires forall r :: r in charges ==> r.kind.ChargeEntry?
    ensures var b := Tight(refund, dear, charges, balance);
            && PaymentsTotal(b) == 20 && PaidTotal(b) == PaidPrice()(refund) + PaidPrice()(dear)
            && PendingTotal(b) == PendingPrice()(refund) + PendingPrice()(dear) && Adjustments(b) == 0
  {
    SumOne(TWENTY, PaymentAmount());
    SumThree(CLOSED, refund, dear, PaidPrice());
    SumThree(CLOSED, refund, dear, PendingPrice());
    SumZero([Charge(30, 0), PAID_ROW] + charges, AdjustmentAmount());
  }

  lemma PostDear()
    ensures Apply(Tight(REFUND, DEAR, [], 10), OpPost(2)) == Tight(REFUND, DEAR.(status := Pending), [Charge(18, 2)], 28)
  {
    var dear := DEAR.(status := Pending);
    var charged := Tight(REFUND, dear, [Charge(18, 2)], 28);
    FilterNone(Tight(REFUND, DEAR, [], 10).ledger, IsChargeOf(2));
    assert [CLOSED, REFUND, DEAR][2 := dear] == charged.sales;
    assert ([Charge(30, 0), PAID_ROW] + []) + [Charge(18, 2)] == charged.ledger;
    DearDoesNotFit(charged);
  }

  lemma DearDoesNotFit(charged: Book)
    requires charged == Tight(REFUND, DEAR.(status := Pending), [Charge(18, 2)], 28)
    ensures Reapply(charged, None) == charged
  {
    var dear := charged.sales[2];
    TightHeadroom(REFUND, dear, [Charge(18, 2)], 28);
    assert Headroom(charged) == 10;
    SettlesTheFittingPrefix(charged.sales, 10, TWENTY);
    SumThree(CLOSED, REFUND, dear, PendingPrice());
    assert charged.sales[..3] == charged.sales;
    assert Settle(charged.sales, 10, TWENTY) == charged.sales;
  }

  lemma PostRefund()
    ensures Apply(Tight(REFUND, DEAR.(status := Pending), [Charge(18, 2)], 28), OpPost(1))
         == Tight(Stamped(REFUND, TWENTY), DEAR.(status := Pending), [Charge(18, 2), Charge(-5, 1)], 23)
  {
    var refund, dear := REFUND.(status := Pending), DEAR.(status := Pending);
    var charged := Tight(refund, dear, [Charge(18, 2), Charge(-5, 1)], 23);
    FilterNone(Tight(REFUND, dear, [Charge(18, 2)], 28).ledger, IsChargeOf(1));
    assert [CLOSED, REFUND, dear][1 := refund] == charged.sales;
    assert ([Charge(30, 0), PAID_ROW] + [Charge(18, 2)]) + [Charge(-5, 1)] == charged.ledger;
    RefundIsSettled(charged);
    assert Stamped(refund, TWENTY) == Stamped(REFUND, TWENTY);
  }

  lemma RefundIsSettled(charged: Book)
    requires charged == Tight(REFUND.(status := Pending), DEAR.(status := Pending), [Charge(18, 2), Charge(-5, 1)], 23)
    ensures Reapply(charged, None) == charged.(sales := [CLOSED, Stamped(charged.sales[1], TWENTY), charged.sales[2]])
  {
    var refund, dear := charged.sales[1], charged.sales[2];
    TightHeadroom(refund, dear, [Charge(18, 2), Charge(-5, 1)], 23);
    assert Headroom(charged) == 10;
    SettlesTheFittingPrefix(charged.sales, 10, TWENTY);
    SumTwo(CLOSED, refund, PendingPrice());
    SumThree(CLOSED, refund, dear, PendingPrice());
    assert charged.sales[..2] == [CLOSED, refund] && charged.sales[..3] == charged.sales;
    assert Settle(charged.sales, 10, TWENTY) == [CLOSED, Stamped(refund, TWENTY), dear];
  }

  /**
   * With a negative price the pass is no fixpoint: it settles a sale of minus five, the debt without
   * a sale then reserves less, and running the pass again settles a sale of eighteen.
   */
  lemma NegativePriceMovesTheFixpoint() returns (ops: seq<Op>, b: Book)
    ensures Run(NEW_CUSTOMER, ops) == b && |ops| > 0 && ops[|ops| - 1].OpPost?
    ensures Reapply(b, None) != b
  {
    var dear := DEAR.(status := Pending);
    ops := TwoMoreSales();
    assert [Charge(30, 0), PAID_ROW] + [] == [Charge(30, 0), PAID_ROW];
    PostDear();
    Reaches(ops, Tight(REFUND, DEAR, [], 10), OpPost(2), Tight(REFUND, dear, [Charge(18, 2)], 28));
    ops := ops + [OpPost(2)];
    PostRefund();
    b := Tight(Stamped(REFUND, TWENTY), dear, [Charge(18, 2), Charge(-5, 1)], 23);
    Reaches(ops, Tight(REFUND, dear, [Charge(18, 2)], 28), OpPost(1), b);
    ops := ops + [OpPost(1)];
    SecondPassSettles(b);
  }

  lemma SecondPassSettles(b: Book)
    requires b == Tight(Stamped(REFUND, TWENTY), DEAR.(status := Pending), [Charge(18, 2), Charge(-5, 1)], 23)
    ensures Reapply(b, None) != b
  {
    TightHeadroom(b.sales[1], b.sales[2], [Charge(18, 2), Charge(-5, 1)], 23);
    SumThree(CLOSED, b.sales[1], b.sales[2], PendingPrice());
    assert b.sales[..3] == b.sales;
    PassSettlesIff(b, None, 2);
  }

  // ---- a submission is applied at most once ------------------------------------------------

  /** How many calls of a run applied submission `k`. */
  function TimesApplied(b: Book, ops: seq<Op>, k: nat): nat {
    if |ops| == 0 then 0
    else
      var before := ops[..|ops| - 1];
      var op := ops[|ops| - 1];
      TimesApplied(b, before, k)
      + (if op == OpApprove(k) && Outcome(Run(b, before), op).Success? then 1 else 0)
  }

  function SubmissionOf(b: Book, k: nat): SubmissionStatus {
    if k < |b.submissions| then b.submissions[k].status else Submitted
  }

  /** Only approving or rejecting it moves a submission, and only once. */
  lemma SubmissionMoves(b: Book, op: Op, k: nat)
    ensures |Apply(b, op).submissions| >= |b.submissions|
    ensures SubmissionOf(Apply(b, op), k)
         == if op == OpApprove(k) && Outcome(b, op).Success? then Approved
            else if op == OpReject(k) && Outcome(b, op).Success? then Rejected
            else SubmissionOf(b, k)
    ensures (op == OpApprove(k) || op == OpReject(k)) && Outcome(b, op).Success? ==> SubmissionOf(b, k).Submitted?
  {
    if !op.OpApprove? && !op.OpReject? {
      OthersLeaveSubmissions(b, op, k);
    }
  }

  lemma OthersLeaveSubmissions(b: Book, op: Op, k: nat)
    requires !op.OpApprove? && !op.OpReject?
    ensures |Apply(b, op).submissions| >= |b.submissions| && SubmissionOf(Apply(b, op), k) == SubmissionOf(b, k)
  {
    if !op.OpAddSale? && !op.OpPost? && !op.OpReprice? && !op.OpPay? && !op.OpSubmit? {
      CorrectionsLeaveSubmissions(b, op, k);
    }
  }

  lemma CorrectionsLeaveSubmissions(b: Book, op: Op, k: nat)
    requires !op.OpApprove? && !op.OpReject? && !op.OpAddSale? && !op.OpPost? && !op.OpReprice? && !op.OpPay? && !op.OpSubmit?
    ensures |Apply(b, op).submissions| >= |b.submissions| && SubmissionOf(Apply(b, op), k) == SubmissionOf(b, k)
  {
    if op.OpDeletePayment? || op.OpDeleteStaffRow? {
      DeletionsLeaveSubmissions(b, op, k);
    }
  }

  lemma DeletionsLeaveSubmissions(b: Book, op: Op, k: nat)
    requires op.OpDeletePayment? || op.OpDeleteStaffRow?
    ensures |Apply(b, op).submissions| >= |b.submissions| && SubmissionOf(Apply(b, op), k) == SubmissionOf(b, k)
  {
  }

  /**
   * Over any run, a submission turns into a payment at most once, and did so exactly when it ends
   * up approved; a rejected one never does.
   */
  lemma {:induction false} SubmissionIsAppliedAtMostOnce(b: Book, ops: seq<Op>, k: nat)
    requires k >= |b.submissions|
    ensures TimesApplied(b, ops, k) == if SubmissionOf(Run(b, ops), k).Approved? then 1 else 0
  {
    if |ops| > 0 {
      var before := ops[..|ops| - 1];
      SubmissionIsAppliedAtMostOnce(b, before, k);
      SubmissionMoves(Run(b, before), ops[|ops| - 1], k);
    }
  }

  // ---- closing an account ----------------------------------------------------------------

  /**
   * Writing a customer off leaves nothing pending and no debt. The balance lands at zero exactly
   * when it was at least the pending sales; a customer in credit beyond that keeps the credit.
   */
  lemma WriteOffClearsTheDebt(b: Book)
    ensures var b' := WriteOff(b);
            && !b'.active
            && (forall i :: 0 <= i < |b'.sales| ==> !b'.sales[i].status.Pending?)
            && (forall i :: 0 <= i < |b.sales| && b.sales[i].status.Pending? ==>
                  b'.sales[i].status.WrittenOff? && b'.sales[i].loss == b.sales[i].cost)
            && b'.balance <= 0
            && ((b'.balance == 0) <==> (b.balance >= PendingTotal(b)))
            && PendingTotal(b') == 0 && PaidTotal(b') == PaidTotal(b)
  {
    var b' := WriteOff(b);
    SumZero(b'.sales, PendingPrice());
    SumSame(b.sales, b'.sales, PaidPrice(), PaidPrice());
  }
}
