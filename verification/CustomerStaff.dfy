/** What the account services do to the employee books, over whole runs. */
module CustomerStaff {
  import opened Wrappers
  import opened Sums
  import opened Receivables
  import opened CustomerRuns
  import Staff

  lemma HeldByKeepsAccruals(office: Staff.Office, p: Payment)
    requires Staff.OneAccrualPerMonth(office.rows) && HeldBy(office, p).Success?
    ensures Staff.OneAccrualPerMonth(HeldBy(office, p).value.rows)
  {
    if p.recipient.Some? {
      Staff.AppendKeepsAccruals(office.rows, Staff.Row(p.recipient.value, Staff.CustomerPayment, -p.amount, None, None, Some(p.id)));
    }
  }

  lemma GivenBackKeepsAccruals(office: Staff.Office, id: PaymentId, holder: Option<Staff.EmployeeId>)
    requires Staff.OneAccrualPerMonth(office.rows) && Staff.ReverseCustomerPayment(office, id, holder).Success?
    ensures Staff.OneAccrualPerMonth(Staff.ReverseCustomerPayment(office, id, holder).value.rows)
  {
    Staff.FilterKeepsAccruals(office.rows, Not(Staff.OfCustomerPayment(id)));
  }

  lemma PaymentKeepsAccruals(b: Book, op: Op)
    requires Staff.OneAccrualPerMonth(b.office.rows) && (op.OpPay? || op.OpApprove? || op.OpPayElsewhere?)
    ensures Staff.OneAccrualPerMonth(Apply(b, op).office.rows)
  {
    if Outcome(b, op).Success? {
      match op
      case OpPay(amount, rail, via, recipient) => PayKeepsAccruals(b, amount, rail, via, recipient);
      case OpApprove(k) => ApproveKeepsAccruals(b, k);
      case OpPayElsewhere(amount, recipient) => HeldByKeepsAccruals(b.office, Payment(b.lastPayment + 1, amount, None, recipient));
    }
  }

  lemma PayKeepsAccruals(b: Book, amount: Cents, rail: Option<MethodId>, via: bool, recipient: Option<Staff.EmployeeId>)
    requires Staff.OneAccrualPerMonth(b.office.rows) && Pay(b, amount, rail, via, recipient).Success?
    ensures Staff.OneAccrualPerMonth(Pay(b, amount, rail, via, recipient).value.office.rows)
  {
    HeldByKeepsAccruals(b.office, NewPayment(b, amount, rail, via, recipient));
  }

  lemma ApproveKeepsAccruals(b: Book, k: nat)
    requires Staff.OneAccrualPerMonth(b.office.rows) && Approve(b, k).Success?
    ensures Staff.OneAccrualPerMonth(Approve(b, k).value.office.rows)
  {
    var s := b.submissions[k];
    PayKeepsAccruals(b, s.amount, s.rail, s.recipient.Some?, s.recipient);
  }

  lemma DeletePaymentKeepsAccruals(b: Book, id: PaymentId)
    requires Staff.OneAccrualPerMonth(b.office.rows)
    ensures Staff.OneAccrualPerMonth(DeletePayment(b, id).Or(b).office.rows)
  {
    if DeletePayment(b, id).Success? {
      var p := FindPayment(b.payments, id).value;
      if p.recipient.Some? {
        GivenBackKeepsAccruals(b.office, p.id, p.recipient);
      }
    }
  }

  lemma DeletionKeepsAccruals(b: Book, op: Op)
    requires Staff.OneAccrualPerMonth(b.office.rows) && (op.OpDeletePayment? || op.OpDeleteStaffRow?)
    ensures Staff.OneAccrualPerMonth(Apply(b, op).office.rows)
  {
    if Outcome(b, op).Success? {
      if op.OpDeletePayment? {
        DeletePaymentKeepsAccruals(b, op.id);
      } else {
        var r := b.office.rows[op.k];
        if r.kind.CustomerPayment? && r.payment.Some? {
          DeletePaymentKeepsAccruals(b, r.payment.value);
          if FindPayment(b.payments, r.payment.value).None? {
            GivenBackKeepsAccruals(b.office, r.payment.value, Some(r.employee));
          }
        } else {
          Staff.RemoveKeepsAccruals(b.office.rows, op.k);
        }
      }
    }
  }

  lemma SalePaymentKeepsAccruals(office: Staff.Office, sale: nat, price: Cents, e: Option<Staff.EmployeeId>)
    requires Staff.OneAccrualPerMonth(office.rows) && Staff.RecordSalePayment(office, sale, price, e).Success?
    ensures Staff.OneAccrualPerMonth(Staff.RecordSalePayment(office, sale, price, e).value.rows)
  {
    if e.Some? {
      Staff.AppendKeepsAccruals(office.rows, Staff.Row(e.value, Staff.SalePayment, -price, None, Some(sale), None));
    }
  }

  lemma AdjustKeepsAccruals(office: Staff.Office, e: Staff.EmployeeId, amount: Cents)
    requires Staff.OneAccrualPerMonth(office.rows) && Staff.Adjust(office, e, amount).Success?
    ensures Staff.OneAccrualPerMonth(Staff.Adjust(office, e, amount).value.rows)
  {
    Staff.AppendKeepsAccruals(office.rows, Staff.Row(e, Staff.Adjustment, amount, None, None, None));
  }

  lemma OfficeKeepsAccruals(b: Book, op: Op)
    requires Staff.OneAccrualPerMonth(b.office.rows)
    requires op.OpSalePayment? || op.OpUndoSalePayment? || op.OpAccrue? || op.OpAdjustStaff?
    ensures Staff.OneAccrualPerMonth(Apply(b, op).office.rows)
  {
    if Outcome(b, op).Success? {
      match op
      case OpSalePayment(sale, price, e) => SalePaymentKeepsAccruals(b.office, sale, price, e);
      case OpUndoSalePayment(sale, e) => Staff.FilterKeepsAccruals(b.office.rows, Not(Staff.OfSale(sale)));
      case OpAccrue(e, m, force) => Staff.AccrueKeepsOnePerMonth(b.office, e, m, force);
      case OpAdjustStaff(e, amount) => AdjustKeepsAccruals(b.office, e, amount);
    }
  }

  lemma StepKeepsAccruals(b: Book, op: Op)
    requires Staff.OneAccrualPerMonth(b.office.rows)
    ensures Staff.OneAccrualPerMonth(Apply(b, op).office.rows)
  {
    if op.OpPay? || op.OpApprove? || op.OpPayElsewhere? {
      PaymentKeepsAccruals(b, op);
    } else if op.OpDeletePayment? || op.OpDeleteStaffRow? {
      DeletionKeepsAccruals(b, op);
    } else if op.OpSalePayment? || op.OpUndoSalePayment? || op.OpAccrue? || op.OpAdjustStaff? {
      OfficeKeepsAccruals(b, op);
    } else {
      AccountKeepsOffice(b, op);
    }
  }

  lemma AccountKeepsOffice(b: Book, op: Op)
    requires OnSales(op) || OnPayments(op) || op.OpAdjust? || op.OpWriteOff? || op.OpDeleteEntry?
    requires !op.OpPay? && !op.OpApprove?
    ensures Apply(b, op).office == b.office
  {
  }

  /** Over any run of all the services, forced accruals included, no employee has two accrual rows for one month. */
  lemma {:induction false} OneAccrualPerMonthInEveryRun(b: Book, ops: seq<Op>)
    requires Staff.OneAccrualPerMonth(b.office.rows)
    ensures Staff.OneAccrualPerMonth(Run(b, ops).office.rows)
  {
    if |ops| > 0 {
      OneAccrualPerMonthInEveryRun(b, ops[..|ops| - 1]);
      StepKeepsAccruals(Run(b, ops[..|ops| - 1]), ops[|ops| - 1]);
    }
  }
}
