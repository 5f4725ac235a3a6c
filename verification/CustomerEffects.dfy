/**
 * What each account service accepts and what it writes, said of its arguments and of the books
 * before it.
 */
module CustomerEffects {
  import opened Wrappers
  import opened Sums
  import opened Receivables
  import opened SettlementPass
  import opened CustomerRuns
  import opened CustomerTheorems
  import opened CustomerStamps
  import Staff

  // ---- sales: what is accepted, and what is charged ---------------------------------------------

  lemma PostIff(b: Book, i: nat)
    ensures Post(b, i).Success? <==> i < |b.sales| && (b.sales[i].status.Awaiting? || b.sales[i].status.Pending?)
    ensures Post(b, i) == Failure(NotOnAccount) <==> i >= |b.sales|
  {
  }

  /** A new sale waits at the end of the list, with nothing charged. */
  lemma NewSaleWaits(b: Book, price: Cents, cost: Cents)
    ensures AddSale(b, price, cost) == b.(sales := b.sales + [Sale(Awaiting, price, cost, 0, None, None)])
  {
  }

  /** The total of the CHARGE rows of a sale. */
  function Charged(i: nat): Entry -> int {
    (r: Entry) => if r.kind.ChargeEntry? && r.sale == Some(i) then r.amount else 0
  }

  ghost predicate HasCharge(ledger: seq<Entry>, i: nat) {
    exists r :: r in ledger && r.kind.ChargeEntry? && r.sale == Some(i)
  }

  lemma ChargesFiltered(ledger: seq<Entry>, i: nat)
    ensures Filter(ledger, IsChargeOf(i)) != [] <==> HasCharge(ledger, i)
    ensures Sum(Filter(ledger, IsChargeOf(i)), EntryAmount()) == Sum(ledger, Charged(i))
  {
    FilterMembers(ledger, IsChargeOf(i));
    if Filter(ledger, IsChargeOf(i)) != [] {
      assert Filter(ledger, IsChargeOf(i))[0] in Filter(ledger, IsChargeOf(i));
    }
    ChargeOnIsFilter(ledger, i);
    SumAgree(ledger, ChargeOn(i), Charged(i));
  }

  /** A posted sale's charge is kept in line with its price. */
  predicate KeptInLine(s: Sale) {
    s.status.Pending? || s.status.Paid?
  }

  /** A price edit is refused exactly when a posted sale that was charged would get a negative price. */
  lemma RepriceIff(b: Book, i: nat, price: Cents)
    ensures Reprice(b, i, price).Success? <==>
              i < |b.sales| && !(price < 0 && KeptInLine(b.sales[i]) && HasCharge(b.ledger, i))
  {
    if i < |b.sales| {
      ChargesFiltered(b.ledger, i);
    }
  }

  /** The edited sale gets the price and keeps its cost; no other sale's price or cost changes. */
  lemma RepriceSetsThePrice(b: Book, i: nat, price: Cents, b': Book)
    requires Reprice(b, i, price) == Success(b')
    ensures i < |b.sales| == |b'.sales|
    ensures forall j :: 0 <= j < |b.sales| ==>
              b'.sales[j].price == (if j == i then price else b.sales[j].price) && b'.sales[j].cost == b.sales[j].cost
    ensures b'.payments == b.payments && b'.submissions == b.submissions && b'.office == b.office && b'.active == b.active
  {
    var edited := b.(sales := b.sales[i := b.sales[i].(price := price)]);
    if b' != edited {
      PassKeepsPrices(SyncedState(edited, i, price), None);
    }
  }

  lemma PassKeepsPrices(b: Book, trigger: Option<Payment>)
    ensures |Reapply(b, trigger).sales| == |b.sales|
    ensures forall j :: 0 <= j < |b.sales| ==>
              Reapply(b, trigger).sales[j].price == b.sales[j].price && Reapply(b, trigger).sales[j].cost == b.sales[j].cost
    ensures Reapply(b, trigger) == b.(sales := Reapply(b, trigger).sales)
  {
    PassOnlySettles(b, trigger);
    if SettlingPayment(b, trigger).Some? {
      SettlesTheFittingPrefix(b.sales, Headroom(b), SettlingPayment(b, trigger).value);
    }
  }

  /**
   * The balance moves by what the new price differs from what was charged, when the sale is posted
   * and was charged. A paid sale whose charge changed is opened again, to be settled anew or wait.
   */
  lemma RepriceMovesTheBalance(b: Book, i: nat, price: Cents, b': Book)
    requires Reprice(b, i, price) == Success(b')
    ensures b'.balance == b.balance + if KeptInLine(b.sales[i]) && HasCharge(b.ledger, i) then price - Sum(b.ledger, Charged(i)) else 0
    ensures b'.balance == b.balance ==> b' == b.(sales := b.sales[i := b.sales[i].(price := price)])
  {
    ChargesFiltered(b.ledger, i);
    var edited := b.(sales := b.sales[i := b.sales[i].(price := price)]);
    if b' != edited {
      PassKeepsPrices(SyncedState(edited, i, price), None);
    }
  }

  // ---- payments --------------------------------------------------------------------------------------

  /** The payment that a call is to record. */
  function Wanted(b: Book, amount: Cents, rail: Option<MethodId>, via: bool, recipient: Option<Staff.EmployeeId>): Payment {
    if via then Payment(b.lastPayment + 1, amount, None, recipient) else Payment(b.lastPayment + 1, amount, rail, None)
  }

  /** A payment is taken exactly when it is positive and names its rail, or the employee who holds the money. */
  lemma PaymentIsTakenIff(b: Book, amount: Cents, rail: Option<MethodId>, via: bool, recipient: Option<Staff.EmployeeId>)
    requires Sound(b)
    ensures Pay(b, amount, rail, via, recipient).Success? <==>
              amount > 0 && if via then recipient.Some? && recipient.value in b.office.employees else rail.Some?
  {
    NoMirrorYet(b, b.lastPayment + 1);
  }

  /**
   * It then files that payment and its ledger row, lowers the balance by the amount, and debits the
   * employee who holds the money, and nobody else, by as much.
   */
  lemma PaymentIsRecorded(b: Book, amount: Cents, rail: Option<MethodId>, via: bool, recipient: Option<Staff.EmployeeId>, paid: Book)
    requires Sound(b) && Pay(b, amount, rail, via, recipient) == Success(paid)
    ensures paid == b.(sales := paid.sales, office := paid.office, balance := b.balance - amount, lastPayment := b.lastPayment + 1,
                       payments := b.payments + [Wanted(b, amount, rail, via, recipient)],
                       ledger := b.ledger + [Entry(PaymentEntry, amount, None, Some(b.lastPayment + 1))])
    ensures !via ==> paid.office == b.office
    ensures via ==> recipient.Some? && recipient.value in b.office.employees
                    && HeldByEmployee(b.office, paid.office, recipient.value, amount, b.lastPayment + 1)
  {
    NoMirrorYet(b, b.lastPayment + 1);
    var p := NewPayment(b, amount, rail, via, recipient);
    PassOnlySettles(Booked(b, p).(office := HeldBy(b.office, p).value), Some(p));
  }

  /** One row of a debit more, and the employee owes the shop as much more. */
  predicate HeldByEmployee(o: Staff.Office, o': Staff.Office, e: Staff.EmployeeId, amount: Cents, id: PaymentId)
    requires e in o.employees
  {
    && o'.rows == o.rows + [Staff.Row(e, Staff.CustomerPayment, -amount, None, None, Some(id))]
    && o'.employees == o.employees[e := o.employees[e].(balance := o.employees[e].balance - amount)]
  }

  /** On sound books a payment is deleted exactly when it is on file. */
  lemma DeletePaymentIff(b: Book, id: PaymentId)
    requires Sound(b)
    ensures DeletePayment(b, id).Success? <==> exists p :: p in b.payments && p.id == id
  {
  }

  /**
   * Its rows and it are gone, and nothing refers to it any more: no sale, no ledger row, no
   * submission and no employee row; all else on file stays, and the balance rises by its amount.
   */
  lemma DeletedPaymentIsForgotten(b: Book, p: Payment, b': Book)
    requires Sound(b) && StampsHold(b.sales, b.payments) && p in b.payments && DeletePayment(b, p.id) == Success(b')
    ensures forall q :: q in b'.payments <==> q in b.payments && q.id != p.id
    ensures forall r :: r in b'.ledger <==> r in b.ledger && r.payment != Some(p.id)
    ensures forall i :: 0 <= i < |b'.sales| ==> b'.sales[i].stamp != Some(p.id)
    ensures |b'.submissions| == |b.submissions|
    ensures forall k :: 0 <= k < |b.submissions| ==>
              b'.submissions[k] == if b.submissions[k].result == Some(p.id) then b.submissions[k].(result := None) else b.submissions[k]
    ensures forall r :: r in b'.office.rows ==> r in b.office.rows
    ensures p.recipient.Some? ==> forall r :: r in b'.office.rows ==> r.payment != Some(p.id)
    ensures b'.balance == b.balance + p.amount && b'.active == b.active && b'.lastPayment == b.lastPayment
  {
    TheOneWithTheId(b.payments, p);
    var w := Withdrawn(b, p, GivenBack(b.office, p).value);
    PassOnlySettles(w, None);
    FilterMembers(b.payments, Not(HasId(p.id)));
    FilterMembers(b.ledger, Not(MirrorsPayment(p.id)));
    OfficeForgets(b, p, w.office);
    DeletePaymentKeepsStamps(b, p.id);
    forall i | 0 <= i < |b'.sales| ensures b'.sales[i].stamp != Some(p.id) {
      assert SaleNamed(b'.sales[i], b'.payments);
    }
  }

  lemma OfficeForgets(b: Book, p: Payment, office: Staff.Office)
    requires OfficeSound(b) && GivenBack(b.office, p) == Success(office)
    ensures forall r :: r in office.rows ==> r in b.office.rows
    ensures p.recipient.Some? ==> forall r :: r in office.rows ==> r.payment != Some(p.id)
  {
    FilterMembers(b.office.rows, Not(Staff.OfCustomerPayment(p.id)));
    FilterMembers(b.office.rows, Staff.OfCustomerPayment(p.id));
    if p.recipient.Some? && Filter(b.office.rows, Staff.OfCustomerPayment(p.id)) == [] {
      forall r | r in b.office.rows ensures r.payment != Some(p.id) {
        assert Staff.OfCustomerPayment(p.id)(r) ==> r in Filter(b.office.rows, Staff.OfCustomerPayment(p.id));
      }
    }
  }

  lemma TheOneWithTheId(payments: seq<Payment>, p: Payment)
    requires Increasing(payments) && p in payments
    ensures FindPayment(payments, p.id) == Some(p)
  {
    var q := FindPayment(payments, p.id).value;
    var i :| 0 <= i < |payments| && payments[i] == p;
    var j :| 0 <= j < |payments| && payments[j] == q;
  }

  // ---- submissions -----------------------------------------------------------------------------------

  /** A submission is filed exactly when the customer is active and the payment would name its rail or recipient. */
  lemma SubmitIff(b: Book, amount: Cents, rail: Option<MethodId>, via: bool, recipient: Option<Staff.EmployeeId>)
    ensures Submit(b, amount, rail, via, recipient).Success? <==> b.active && amount > 0 && if via then recipient.Some? else rail.Some?
  {
  }

  /**
   * Submitting and then approving is paying: approval goes through exactly when the direct payment
   * would, and ends in the same books, plus the submission approved with that payment.
   */
  lemma SubmitThenApproveIsPay(b: Book, amount: Cents, rail: Option<MethodId>, via: bool, recipient: Option<Staff.EmployeeId>, filed: Book)
    requires Submit(b, amount, rail, via, recipient) == Success(filed)
    ensures var k := |b.submissions|;
            && |filed.submissions| == k + 1 && filed == b.(submissions := filed.submissions) && filed.submissions[..k] == b.submissions
            && filed.submissions[k] == (if via then Submission(Submitted, amount, None, recipient, None) else Submission(Submitted, amount, rail, None, None))
            && (Approve(filed, k).Success? <==> Pay(b, amount, rail, via, recipient).Success?)
            && (Approve(filed, k).Success? ==>
                  && |Approve(filed, k).value.submissions| == k + 1
                  && Approve(filed, k).value.submissions[k] == filed.submissions[k].(status := Approved, result := Some(b.lastPayment + 1))
                  && Approve(filed, k).value.(submissions := b.submissions) == Pay(b, amount, rail, via, recipient).value)
  {
    var k := |b.submissions|;
    var s := filed.submissions[k];
    PayIgnoresSubmissions(b, filed.submissions, s.amount, s.rail, s.recipient.Some?, s.recipient);
    assert NewPayment(b, s.amount, s.rail, s.recipient.Some?, s.recipient) == NewPayment(b, amount, rail, via, recipient);
    if Approve(filed, k).Success? {
      ApproveIsPay(filed, k);
    }
  }

  lemma PayIgnoresSubmissions(b: Book, submissions: seq<Submission>, amount: Cents, rail: Option<MethodId>, via: bool,
                              recipient: Option<Staff.EmployeeId>)
    ensures var there, here := Pay(b.(submissions := submissions), amount, rail, via, recipient), Pay(b, amount, rail, via, recipient);
            && (there.Success? <==> here.Success?) && (here.Success? ==> there.value == here.value.(submissions := submissions))
  {
    var p := NewPayment(b, amount, rail, via, recipient);
    PayOutcome(b, amount, rail, via, recipient);
    PayOutcome(b.(submissions := submissions), amount, rail, via, recipient);
    if HeldBy(b.office, p).Success? {
      PassIgnoresSubmissions(Booked(b, p).(office := HeldBy(b.office, p).value), submissions, p);
    }
  }

  lemma PayOutcome(b: Book, amount: Cents, rail: Option<MethodId>, via: bool, recipient: Option<Staff.EmployeeId>)
    ensures var pay, p := Pay(b, amount, rail, via, recipient), NewPayment(b, amount, rail, via, recipient);
            && (pay.Success? <==> CheckPayment(amount, rail, via, recipient).None? && HeldBy(b.office, p).Success?)
            && (pay.Success? ==> pay.value == Reapply(Booked(b, p).(office := HeldBy(b.office, p).value), Some(p)))
  {
  }

  lemma PassIgnoresSubmissions(b: Book, submissions: seq<Submission>, p: Payment)
    ensures Reapply(b.(submissions := submissions), Some(p)) == Reapply(b, Some(p)).(submissions := submissions)
  {
  }

  /** Only a submission still waiting can be approved or rejected; rejecting marks it and does nothing else. */
  lemma RejectionOnlyMarks(b: Book, k: nat)
    ensures Reject(b, k).Success? <==> k < |b.submissions| && b.submissions[k].status.Submitted?
    ensures Reject(b, k).Success? ==>
              Reject(b, k).value == b.(submissions := b.submissions[k := b.submissions[k].(status := Rejected)])
  {
  }

  // ---- corrections -----------------------------------------------------------------------------------

  /** An adjustment of anything but zero moves the balance by its signed amount. */
  lemma AdjustmentMovesTheBalance(b: Book, amount: Cents)
    ensures Adjust(b, amount).Success? <==> amount != 0
    ensures amount != 0 ==>
              var b' := Adjust(b, amount).value;
              b' == b.(sales := b'.sales, ledger := b.ledger + [Entry(AdjustmentEntry, amount, None, None)], balance := b.balance + amount)
  {
    if amount != 0 {
      PassOnlySettles(b.(ledger := b.ledger + [Entry(AdjustmentEntry, amount, None, None)], balance := b.balance + amount), None);
    }
  }

  /** A write-off touches pending sales only, and ends at zero or at the credit beyond them. */
  lemma WriteOffLeavesTheRest(b: Book)
    ensures var b' := WriteOff(b);
            && |b'.sales| == |b.sales| && b' == b.(sales := b'.sales, ledger := b'.ledger, balance := b'.balance, active := false)
            && (forall i :: 0 <= i < |b.sales| ==>
                  b'.sales[i] == if b.sales[i].status.Pending? then b.sales[i].(status := WrittenOff, loss := b.sales[i].cost) else b.sales[i])
            && b'.balance == (if b.balance - PendingTotal(b) < 0 then b.balance - PendingTotal(b) else 0)
            && |b.ledger| <= |b'.ledger| && b'.ledger[..|b.ledger|] == b.ledger
  {
    var b' := WriteOff(b);
    assert (b.ledger + Reversals(b.sales, |b.sales|))[..|b.ledger|] == b.ledger;
  }

  /** Any row but the mirror of a payment can go; the balance loses what the row was worth. */
  lemma DeletedEntryIsUndone(b: Book, k: nat)
    ensures DeleteEntry(b, k).Success? <==> k < |b.ledger| && !(b.ledger[k].kind.PaymentEntry? && b.ledger[k].payment.Some?)
    ensures DeleteEntry(b, k).Success? ==>
              var r := b.ledger[k];
              DeleteEntry(b, k).value == b.(ledger := b.ledger[..k] + b.ledger[k + 1..],
                balance := if r.kind.ChargeEntry? || r.kind.AdjustmentEntry? then b.balance - r.amount else b.balance + r.amount)
  {
  }
}
