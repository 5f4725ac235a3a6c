/**
 * The account services on the shared rows, updated in place. Each method does what the function of
 * the same name in `Receivables` says, and a call that raises leaves every row as it was.
 */
module CustomerAccount {
  import opened Wrappers
  import opened Sums
  import opened Receivables
  import opened SettlementPass
  import Staff

  function PaidOne(): Sale -> int {
    (s: Sale) => if s.status.Paid? then 1 else 0
  }

  /** One turn of the settling loop: what is left to settle after sale `i` was looked at. */
  lemma SettleUnfolds(sales: seq<Sale>, i: nat, available: Cents, payer: Payment)
    requires i < |sales|
    ensures var s, all := sales[i], sales[..i] + Settle(sales[i..], available, payer);
            var next := sales[i := Stamped(s, payer)];
            if !s.status.Pending? then all == sales[..i + 1] + Settle(sales[i + 1..], available, payer)
            else if s.price > available then all == sales
            else all == next[..i + 1] + Settle(next[i + 1..], available - s.price, payer)
  {
    var s, done, rest := sales[i], sales[..i], sales[i + 1..];
    assert sales[i..] == [s] + rest && sales == done + sales[i..];
    var settled := if s.status.Pending? then sales[i := Stamped(s, payer)] else sales;
    assert settled[..i + 1] == done + [settled[i]] && settled[i + 1..] == rest;
  }

  /** Paid, with the id and the rail of that payment. */
  predicate StampedWith(s: Sale, p: Payment) {
    s.status.Paid? && s.stamp == Some(p.id) && s.rail == p.rail
  }

  class Account {
    var sales: seq<Sale>
    var payments: seq<Payment>
    var ledger: seq<Entry>
    var balance: Cents
    var active: bool
    var submissions: seq<Submission>
    var lastPayment: PaymentId
    const staff: Staff.OfficeTables

    function View(): Book
      reads this, staff
    {
      Book(sales, payments, ledger, balance, active, submissions, lastPayment, staff.View())
    }

    constructor (staff: Staff.OfficeTables, last: PaymentId)
      ensures this.staff == staff && View() == NewCustomer(staff.View(), last)
    {
      this.sales, this.payments, this.ledger, this.submissions := [], [], [], [];
      this.balance, this.active, this.lastPayment := 0, true, last;
      this.staff := staff;
    }

    method ApplyBalanceDelta(delta: Cents)
      modifies this`balance
      ensures balance == old(balance) + delta
    {
      balance := balance + delta;
    }

    /** Settle pending sales oldest first; returns how many were settled. */
    method ReapplySettlements(trigger: Option<Payment>) returns (settled: nat)
      modifies this`sales
      ensures View() == Reapply(old(View()), trigger)
      ensures settled == Sum(sales, PaidOne()) - Sum(old(sales), PaidOne())
      ensures |sales| == |old(sales)|
      ensures forall i :: 0 <= i < |sales| && sales[i] != old(sales)[i] ==>
                if trigger.Some? then StampedWith(sales[i], trigger.value)
                else |payments| > 0 && StampedWith(sales[i], payments[|payments| - 1])
    {
      settled := 0;
      var legacy := Max(0, Sum(ledger, AdjustmentAmount()));
      var slack := balance - Sum(sales, PendingPrice());
      if slack < 0 {
        slack := 0;
      }
      var available := Sum(payments, PaymentAmount()) - Sum(sales, PaidPrice()) - Max(legacy, slack);
      if available <= 0 {
        return;
      }
      var chosen := trigger;
      if chosen.None? && |payments| > 0 {
        chosen := Some(payments[|payments| - 1]);
      }
      if chosen.None? {
        return;
      }
      settled := SettleOldestFirst(available, chosen.value);
      SettlesTheFittingPrefix(old(sales), available, chosen.value);
    }

    method SettleOldestFirst(headroom: Cents, payer: Payment) returns (settled: nat)
      modifies this`sales
      ensures sales == Settle(old(sales), headroom, payer)
      ensures settled == Sum(sales, PaidOne()) - Sum(old(sales), PaidOne())
    {
      settled := 0;
      var available := headroom;
      var i := 0;
      while i < |sales|
        invariant 0 <= i <= |sales| == |old(sales)|
        invariant Settle(old(sales), headroom, payer) == sales[..i] + Settle(sales[i..], available, payer)
        invariant settled == Sum(sales, PaidOne()) - Sum(old(sales), PaidOne())
      {
        var sale := sales[i];
        SettleUnfolds(sales, i, available, payer);
        if sale.status.Pending? {
          if sale.price > available {
            break;
          }
          SumUpdate(sales, i, Stamped(sale, payer), PaidOne());
          sales := sales[i := Stamped(sale, payer)];
          available := available - sale.price;
          settled := settled + 1;
        }
        i := i + 1;
      }
      assert i == |sales| ==> sales[..i] + Settle(sales[i..], available, payer) == sales;
    }

    method PostOnAccountSale(i: nat) returns (raised: Option<Fault>)
      modifies this
      ensures Commits(Post(old(View()), i), old(View()), View(), raised)
    {
      if i >= |sales| {
        return Some(NotOnAccount);
      }
      if sales[i].status.Awaiting? {
        sales := sales[i := sales[i].(status := Pending)];
      } else if !sales[i].status.Pending? {
        return Some(NotPostable);
      }
      assert sales == old(sales)[i := old(sales)[i].(status := Pending)];
      ChargeOnce(i, sales[i].price);
      var settled := ReapplySettlements(None);
      return None;
    }

    /** The CHARGE row of a sale, unless it has one. */
    method ChargeOnce(i: nat, price: Cents)
      modifies this`ledger, this`balance
      ensures if Filter(old(ledger), IsChargeOf(i)) != [] then ledger == old(ledger) && balance == old(balance)
              else ledger == old(ledger) + [Entry(ChargeEntry, price, Some(i), None)] && balance == old(balance) + price
    {
      if Filter(ledger, IsChargeOf(i)) == [] {
        ledger := ledger + [Entry(ChargeEntry, price, Some(i), None)];
        ApplyBalanceDelta(price);
      }
    }

    /** `update_sale_fields` stores the new price, then the CHARGE rows are brought in line. */
    method RepriceSale(i: nat, price: Cents) returns (raised: Option<Fault>)
      modifies this
      ensures Commits(Reprice(old(View()), i, price), old(View()), View(), raised)
    {
      if i >= |sales| {
        return Some(NotOnAccount);
      }
      var before := sales;
      sales := sales[i := sales[i].(price := price)];
      raised := SyncCharge(i);
      if raised.Some? {
        sales := before;  // the transaction rolls back
      }
    }

    method SyncCharge(i: nat) returns (raised: Option<Fault>)
      modifies this
      ensures Commits(Sync(old(View()), i), old(View()), View(), raised)
    {
      raised := None;
      if i >= |sales| || sales[i].status in {Awaiting, Cancelled, WrittenOff} {
        return;
      }
      var charges := Filter(ledger, IsChargeOf(i));
      if charges == [] {
        return;
      }
      var amount := sales[i].price;
      if amount < 0 {
        return Some(NegativeAmount);
      }
      var delta := amount - Sum(charges, EntryAmount());
      if delta == 0 {
        return;
      }
      ledger := Collapse(ledger, i, amount);
      ApplyBalanceDelta(delta);
      if sales[i].status.Paid? {
        sales := sales[i := Reopened(sales[i])];
      } else {
        assert sales == sales[i := sales[i]];
      }
      var settled := ReapplySettlements(None);
    }

    method RecordPayment(amount: Cents, rail: Option<MethodId>, viaEmployee: bool, recipient: Option<Staff.EmployeeId>)
      returns (raised: Option<Fault>)
      modifies this, staff
      ensures Commits(Pay(old(View()), amount, rail, viaEmployee, recipient), old(View()), View(), raised)
    {
      raised := CheckPayment(amount, rail, viaEmployee, recipient);
      if raised.Some? {
        return;
      }
      var p := NewPayment(View(), amount, rail, viaEmployee, recipient);
      raised := DebitHolder(p);
      if raised.Some? {
        return;
      }
      BookPayment(p);
      var settled := ReapplySettlements(Some(p));
    }

    /** The employee who holds the money, if any, is debited. */
    method DebitHolder(p: Payment) returns (raised: Option<Fault>)
      modifies staff
      ensures match HeldBy(old(View()).office, p)
              case Success(office) => raised == None && View() == old(View()).(office := office)
              case Failure(e) => raised == Some(StaffFault(e)) && View() == old(View())
    {
      if p.recipient.Some? {
        var fault := staff.RecordCustomerPaymentReceived(p.id, p.amount, p.recipient.value);
        if fault.Some? {
          return Some(StaffFault(fault.value));
        }
      }
      return None;
    }

    /** Payment row, ledger row and balance. */
    method BookPayment(p: Payment)
      modifies this
      ensures View() == Booked(old(View()), p)
    {
      payments := payments + [p];
      lastPayment := p.id;
      ledger := ledger + [Entry(PaymentEntry, p.amount, None, Some(p.id))];
      ApplyBalanceDelta(-p.amount);
    }

    method DeleteRecordedPayment(id: PaymentId) returns (raised: Option<Fault>)
      modifies this, staff
      ensures Commits(DeletePayment(old(View()), id), old(View()), View(), raised)
    {
      var found := FindPayment(payments, id);
      if found.None? {
        return Some(NoSuchRow);
      }
      var p := found.value;
      if p.recipient.Some? {
        var fault := staff.ReverseCustomerPaymentReceived(p.id, p.recipient);
        if fault.Some? {
          return Some(StaffFault(fault.value));
        }
      }
      assert GivenBack(old(View()).office, p) == Success(staff.View());
      RemovePaymentRows(p);
      var settled := ReapplySettlements(None);
      return None;
    }

    /** Deleting an employee's ledger row; the mirror of a payment takes the whole payment with it. */
    method DeleteEmployeeEntry(k: nat) returns (raised: Option<Fault>)
      modifies this, staff
      ensures Commits(DeleteStaffRow(old(View()), k), old(View()), View(), raised)
    {
      if k >= |staff.rows| {
        return Some(NoSuchRow);
      }
      var row := staff.rows[k];
      if row.kind.CustomerPayment? && row.payment.Some? && FindPayment(payments, row.payment.value).Some? {
        raised := DeleteRecordedPayment(row.payment.value);
        return;
      }
      var fault;
      if row.kind.CustomerPayment? && row.payment.Some? {
        fault := staff.ReverseCustomerPaymentReceived(row.payment.value, Some(row.employee));
      } else {
        fault := staff.DeleteLedgerEntry(k);
      }
      if fault.Some? {
        return Some(StaffFault(fault.value));
      }
      return None;
    }

    method RemovePaymentRows(p: Payment)
      modifies this
      ensures View() == Withdrawn(old(View()), p, staff.View())
    {
      UnsettleSales(p.id);
      ledger := Filter(ledger, Not(MirrorsPayment(p.id)));
      ApplyBalanceDelta(p.amount);
      payments := Filter(payments, Not(HasId(p.id)));
      submissions := Unlinked(submissions, p.id);
    }

    method UnsettleSales(id: PaymentId)
      modifies this`sales
      ensures sales == UnsettleAll(old(sales), id)
    {
      for i := 0 to |sales|
        invariant |sales| == |old(sales)|
        invariant forall j :: 0 <= j < i ==> sales[j] == Unsettled(old(sales)[j], id)
        invariant forall j :: i <= j < |sales| ==> sales[j] == old(sales)[j]
      {
        sales := sales[i := Unsettled(sales[i], id)];
      }
    }

    method RecordAdjustment(amount: Cents) returns (raised: Option<Fault>)
      modifies this
      ensures Commits(Adjust(old(View()), amount), old(View()), View(), raised)
    {
      if amount == 0 {
        return Some(ZeroAmount);
      }
      ledger := ledger + [Entry(AdjustmentEntry, amount, None, None)];
      ApplyBalanceDelta(amount);
      var settled := ReapplySettlements(None);
      return None;
    }

    /** Close the account: one reversal per pending sale, then an adjustment for what is left. */
    method WriteOffBalance() returns (debtCleared: Cents)
      modifies this
      ensures View() == WriteOff(old(View()))
      ensures debtCleared == old(balance) - balance
    {
      debtCleared := WriteOffPendingSales();
      if balance > 0 {
        debtCleared := debtCleared + balance;
        ledger := ledger + [Entry(AdjustmentEntry, -balance, None, None)];
        ApplyBalanceDelta(-balance);
      }
      active := false;
    }

    /** Newest sale first, as the rows are listed. */
    method WriteOffPendingSales() returns (debtCleared: Cents)
      modifies this`sales, this`ledger, this`balance
      ensures sales == WriteOffAll(old(sales))
      ensures ledger == old(ledger) + Reversals(old(sales), |old(sales)|)
      ensures balance == old(balance) - Sum(old(sales), PendingPrice())
      ensures debtCleared == old(balance) - balance
    {
      debtCleared := 0;
      var n := |sales|;
      assert sales[..n] == sales;
      while n > 0
        invariant 0 <= n <= |sales| == |old(sales)|
        invariant forall j :: n <= j < |sales| ==> sales[j] == WrittenOffSale(old(sales)[j])
        invariant forall j :: 0 <= j < n ==> sales[j] == old(sales)[j]
        invariant ledger + Reversals(old(sales), n) == old(ledger) + Reversals(old(sales), |old(sales)|)
        invariant balance == old(balance) - Sum(old(sales), PendingPrice()) + Sum(old(sales)[..n], PendingPrice())
        invariant debtCleared == old(balance) - balance
      {
        n := n - 1;
        var sale := sales[n];
        ghost var rows := Reversals(old(sales), n);
        assert old(sales)[..n + 1] == old(sales)[..n] + [sale];
        SumAppend(old(sales)[..n], sale, PendingPrice());
        if sale.status.Pending? {
          var row := Entry(ReversalEntry, sale.price, Some(n), None);
          assert (ledger + [row]) + rows == ledger + ([row] + rows);
          sales := sales[n := sale.(status := WrittenOff, loss := sale.cost)];
          ledger := ledger + [row];
          ApplyBalanceDelta(-sale.price);
          debtCleared := debtCleared + sale.price;
        } else {
          assert [] + rows == rows;
        }
      }
    }

    method DeleteLedgerEntry(k: nat) returns (raised: Option<Fault>)
      modifies this
      ensures Commits(DeleteEntry(old(View()), k), old(View()), View(), raised)
    {
      if k >= |ledger| {
        return Some(NoSuchRow);
      }
      var row := ledger[k];
      if row.kind.PaymentEntry? && row.payment.Some? {
        return Some(MirrorRow);
      }
      var delta := if row.kind.ChargeEntry? || row.kind.AdjustmentEntry? then -row.amount else row.amount;
      ledger := ledger[..k] + ledger[k + 1..];
      if delta != 0 {
        ApplyBalanceDelta(delta);
      }
      return None;
    }

    method SubmitPayment(amount: Cents, rail: Option<MethodId>, viaEmployee: bool, recipient: Option<Staff.EmployeeId>)
      returns (raised: Option<Fault>)
      modifies this
      ensures Commits(Submit(old(View()), amount, rail, viaEmployee, recipient), old(View()), View(), raised)
    {
      if !active {
        return Some(CustomerInactive);
      }
      var fault := CheckPayment(amount, rail, viaEmployee, recipient);
      if fault.Some? {
        return fault;
      }
      submissions := submissions + [
        Submission(Submitted, amount, if viaEmployee then None else rail, if viaEmployee then recipient else None, None)];
      return None;
    }

    method ApproveSubmission(k: nat) returns (raised: Option<Fault>)
      modifies this, staff
      ensures Commits(Approve(old(View()), k), old(View()), View(), raised)
    {
      if k >= |submissions| {
        return Some(NoSuchRow);
      }
      var sub := submissions[k];
      if !sub.status.Submitted? {
        return Some(NotAwaiting);
      }
      raised := RecordPayment(sub.amount, sub.rail, sub.recipient.Some?, sub.recipient);
      if raised.None? {
        submissions := submissions[k := sub.(status := Approved, result := Some(lastPayment))];
      }
    }

    method RejectSubmission(k: nat) returns (raised: Option<Fault>)
      modifies this
      ensures Commits(Reject(old(View()), k), old(View()), View(), raised)
    {
      if k >= |submissions| {
        return Some(NoSuchRow);
      }
      if !submissions[k].status.Submitted? {
        return Some(NotAwaiting);
      }
      submissions := submissions[k := submissions[k].(status := Rejected)];
      return None;
    }
  }
}
