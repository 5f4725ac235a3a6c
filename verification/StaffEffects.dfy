/** What each employee-book service accepts and what it writes. */
module StaffEffects {
  import opened Wrappers
  import opened Sums
  import opened Staff

  /** The sale's price is owed by the employee who took it, from the first call on and only once. */
  lemma SalePaymentIsOwedOnce(o: Office, sale: nat, price: Cents, recipient: Option<EmployeeId>)
    ensures var already := exists r :: r in o.rows && r.kind.SalePayment? && r.sale == Some(sale);
            && (RecordSalePayment(o, sale, price, recipient).Success? <==>
                  recipient.Some? && (already || recipient.value in o.employees))
            && (recipient.Some? && already ==> RecordSalePayment(o, sale, price, recipient) == Success(o))
            && (recipient.Some? && !already && recipient.value in o.employees ==>
                  RecordSalePayment(o, sale, price, recipient)
                    == Success(Office(o.rows + [Row(recipient.value, SalePayment, -price, None, Some(sale), None)],
                         o.employees[recipient.value := o.employees[recipient.value].(balance := o.employees[recipient.value].balance - price)])))
  {
    FilterMembers(o.rows, OfSale(sale));
    if Filter(o.rows, OfSale(sale)) != [] {
      assert Filter(o.rows, OfSale(sale))[0] in Filter(o.rows, OfSale(sale));
    }
  }

  /** Recording the payment of a sale and undoing it with the same recipient puts the employee books back. */
  lemma UndoneSalePaymentIsForgotten(o: Office, sale: nat, price: Cents, e: EmployeeId)
    requires e in o.employees && forall r :: r in o.rows ==> !(r.kind.SalePayment? && r.sale == Some(sale))
    ensures RecordSalePayment(o, sale, price, Some(e)).Success?
    ensures ReverseSalePayment(RecordSalePayment(o, sale, price, Some(e)).value, sale, e) == Success(o)
  {
    FilterNone(o.rows, OfSale(sale));
    ReverseUndoesAddRow(o, Row(e, SalePayment, -price, None, Some(sale), None), OfSale(sale));
  }

  /** Giving back what nobody owes changes nothing; otherwise the credited employee must exist. */
  lemma ReversalIff(o: Office, sale: nat, payment: nat, e: EmployeeId)
    ensures var owed := exists r :: r in o.rows && r.kind.SalePayment? && r.sale == Some(sale);
            && (ReverseSalePayment(o, sale, e).Success? <==> !owed || e in o.employees)
            && (!owed ==> ReverseSalePayment(o, sale, e) == Success(o))
    ensures var owed := exists r :: r in o.rows && r.kind.CustomerPayment? && r.payment == Some(payment);
            && (ReverseCustomerPayment(o, payment, Some(e)).Success? <==> !owed || e in o.employees)
            && (!owed ==> ReverseCustomerPayment(o, payment, Some(e)) == Success(o))
  {
    FilterMembers(o.rows, OfSale(sale));
    FilterMembers(o.rows, OfCustomerPayment(payment));
    if Filter(o.rows, OfSale(sale)) != [] {
      assert Filter(o.rows, OfSale(sale))[0] in Filter(o.rows, OfSale(sale));
    }
    if Filter(o.rows, OfCustomerPayment(payment)) != [] {
      assert Filter(o.rows, OfCustomerPayment(payment))[0] in Filter(o.rows, OfCustomerPayment(payment));
    }
  }

  /** A month's salary is booked for an active employee who has one; forcing replaces what was booked by the salary of today. */
  lemma SalaryIsBooked(o: Office, e: EmployeeId, m: Month, force: bool)
    ensures AccrueSalary(o, e, m, force).Success? <==> e in o.employees
    ensures e in o.employees && (o.employees[e].salary <= 0 || !o.employees[e].active) ==> AccrueSalary(o, e, m, force) == Success(o)
    ensures e in o.employees && o.employees[e].salary > 0 && o.employees[e].active ==>
              var salary, found := o.employees[e].salary, FindAccrual(o.rows, e, m);
              AccrueSalary(o, e, m, force) == Success(
                if found.None? then
                  Office(o.rows + [Row(e, SalaryAccrual, salary, Some(m), None, None)],
                               o.employees[e := o.employees[e].(balance := o.employees[e].balance + salary)])
                else if !force then o
                else Office(o.rows[found.value := o.rows[found.value].(amount := salary)],
                                  o.employees[e := o.employees[e].(balance := o.employees[e].balance + salary - o.rows[found.value].amount)]))
  {
    if e in o.employees && FindAccrual(o.rows, e, m).Some? {
      var k := FindAccrual(o.rows, e, m).value;
      if o.rows[k].amount == o.employees[e].salary {
        assert o.rows[k := o.rows[k]] == o.rows;
        assert o.employees[e := o.employees[e]] == o.employees;
      }
    }
  }

  /** A manual adjustment, and deleting a row, move one employee's balance by the row's amount. */
  lemma StaffRowsMoveTheBalance(o: Office, e: EmployeeId, amount: Cents, k: nat)
    ensures Adjust(o, e, amount).Success? <==> amount != 0 && e in o.employees
    ensures amount != 0 && e in o.employees ==>
              Adjust(o, e, amount) == Success(Office(o.rows + [Row(e, Adjustment, amount, None, None, None)],
                o.employees[e := o.employees[e].(balance := o.employees[e].balance + amount)]))
    ensures DeleteRow(o, k).Success? <==> k < |o.rows| && o.rows[k].employee in o.employees
    ensures DeleteRow(o, k).Success? ==>
              var r := o.rows[k];
              DeleteRow(o, k) == Success(Office(o.rows[..k] + o.rows[k + 1..],
                o.employees[r.employee := o.employees[r.employee].(balance := o.employees[r.employee].balance - r.amount)]))
  {
  }
}
