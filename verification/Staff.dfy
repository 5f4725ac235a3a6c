/** The employee books (`employees/services.py`): a signed ledger and a cached balance per employee. */
module Staff {
  import opened Wrappers
  import opened Sums

  type Cents = int
  type EmployeeId = nat
  type Month = nat  // months are already truncated to their first day

  datatype Kind = SalaryAccrual | SalePayment | CustomerPayment | Adjustment | Reversal

  datatype Row = Row(
    employee: EmployeeId,
    kind: Kind,
    amount: Cents,
    month: Option<Month>,
    sale: Option<nat>,
    payment: Option<nat>)

  datatype Employee = Employee(balance: Cents, salary: Cents, active: bool)

  datatype Office = Office(rows: seq<Row>, employees: map<EmployeeId, Employee>)

  datatype Fault = NoSuchEmployee | ZeroAmount | NoSuchRow | NotEmployeeSale

  // ---- what the rows say -------------------------------------------------

  function Amount(): Row -> int {
    (r: Row) => r.amount
  }

  function AmountFor(e: EmployeeId): Row -> int {
    (r: Row) => if r.employee == e then r.amount else 0
  }

  /** `compute_balance_from_ledger`: the balance the ledger rows account for. */
  function LedgerBalance(o: Office, e: EmployeeId): Cents {
    Sum(o.rows, AmountFor(e))
  }

  /** Every cached balance is the one the ledger accounts for. */
  ghost predicate Balanced(o: Office) {
    && (forall e :: e in o.employees ==> o.employees[e].balance == LedgerBalance(o, e))
    && (forall r :: r in o.rows ==> r.employee in o.employees)
  }

  function OfSale(sale: nat): Row -> bool {
    (r: Row) => r.kind.SalePayment? && r.sale == Some(sale)
  }

  function OfCustomerPayment(payment: nat): Row -> bool {
    (r: Row) => r.kind.CustomerPayment? && r.payment == Some(payment)
  }

  /** All rows of one customer payment sit with one employee. */
  ghost predicate OneHolder(rows: seq<Row>) {
    forall r, q :: r in rows && q in rows && r.payment.Some? && r.payment == q.payment ==> r.employee == q.employee
  }

  predicate IsAccrual(e: EmployeeId, m: Month, r: Row) {
    r.kind.SalaryAccrual? && r.employee == e && r.month == Some(m)
  }

  // ---- operations --------------------------------------------------------

  function Credit(o: Office, e: EmployeeId, delta: Cents): Office
    requires e in o.employees
  {
    o.(employees := o.employees[e := o.employees[e].(balance := o.employees[e].balance + delta)])
  }

  /** Create one ledger row and move the balance by its amount. */
  function AddRow(o: Office, r: Row): Office
    requires r.employee in o.employees
  {
    Credit(o.(rows := o.rows + [r]), r.employee, r.amount)
  }

  /** Delete the rows that match and give their total back to `creditTo`. */
  function Reverse(o: Office, matches: Row -> bool, creditTo: EmployeeId): Office
    requires creditTo in o.employees
  {
    Credit(o.(rows := Filter(o.rows, Not(matches))), creditTo, -Sum(Filter(o.rows, matches), Amount()))
  }

  function RecordSalePayment(o: Office, sale: nat, price: Cents, recipient: Option<EmployeeId>): Result<Office, Fault> {
    if recipient.None? then Failure(NotEmployeeSale)
    else if Filter(o.rows, OfSale(sale)) != [] then Success(o)
    else if recipient.value !in o.employees then Failure(NoSuchEmployee)
    else Success(AddRow(o, Row(recipient.value, SalePayment, -price, None, Some(sale), None)))
  }

  /** The reversal credits whoever is the sale's recipient now. */
  function ReverseSalePayment(o: Office, sale: nat, recipientNow: EmployeeId): Result<Office, Fault> {
    if Filter(o.rows, OfSale(sale)) == [] then Success(o)
    else if recipientNow !in o.employees then Failure(NoSuchEmployee)
    else Success(Reverse(o, OfSale(sale), recipientNow))
  }

  function RecordCustomerPayment(o: Office, payment: nat, amount: Cents, recipient: EmployeeId): Result<Office, Fault> {
    if Filter(o.rows, OfCustomerPayment(payment)) != [] then Success(o)
    else if recipient !in o.employees then Failure(NoSuchEmployee)
    else Success(AddRow(o, Row(recipient, CustomerPayment, -amount, None, None, Some(payment))))
  }

  function ReverseCustomerPayment(o: Office, payment: nat, recipient: Option<EmployeeId>): Result<Office, Fault> {
    var rows := Filter(o.rows, OfCustomerPayment(payment));
    if rows == [] then Success(o)
    else
      var e := if recipient.Some? then recipient.value else rows[0].employee;
      if e !in o.employees then Failure(NoSuchEmployee)
      else Success(Reverse(o, OfCustomerPayment(payment), e))
  }

  function FindAccrual(rows: seq<Row>, e: EmployeeId, m: Month): (k: Option<nat>)
    ensures k.Some? ==> k.value < |rows| && IsAccrual(e, m, rows[k.value])
    ensures k.None? ==> forall r :: r in rows ==> !IsAccrual(e, m, r)
  {
    if |rows| == 0 then None
    else if IsAccrual(e, m, rows[0]) then Some(0)
    else
      var rest := FindAccrual(rows[1..], e, m);
      if rest.Some? then Some(rest.value + 1) else None
  }

  function AccrueSalary(o: Office, e: EmployeeId, m: Month, force: bool): Result<Office, Fault> {
    if e !in o.employees then Failure(NoSuchEmployee)
    else
      var emp := o.employees[e];
      if emp.salary <= 0 || !emp.active then Success(o)
      else
        var existing := FindAccrual(o.rows, e, m);
        if existing.None? then
          Success(AddRow(o, Row(e, SalaryAccrual, emp.salary, Some(m), None, None)))
        else if !force || emp.salary == o.rows[existing.value].amount then Success(o)
        else
          var row := o.rows[existing.value];
          Success(Credit(o.(rows := o.rows[existing.value := row.(amount := emp.salary)]), e, emp.salary - row.amount))
  }

  function Adjust(o: Office, e: EmployeeId, amount: Cents): Result<Office, Fault> {
    if amount == 0 then Failure(ZeroAmount)
    else if e !in o.employees then Failure(NoSuchEmployee)
    else Success(AddRow(o, Row(e, Adjustment, amount, None, None, None)))
  }

  /** `delete_ledger_entry` for a row that is not a mirror of a customer payment. */
  function DeleteRow(o: Office, k: nat): Result<Office, Fault> {
    if k >= |o.rows| then Failure(NoSuchRow)
    else if o.rows[k].employee !in o.employees then Failure(NoSuchEmployee)
    else Success(Credit(o.(rows := o.rows[..k] + o.rows[k + 1..]), o.rows[k].employee, -o.rows[k].amount))
  }

  // ---- every operation keeps cached balance and ledger together -----------

  lemma AddRowKeepsBalanced(o: Office, r: Row)
    requires Balanced(o) && r.employee in o.employees
    ensures Balanced(AddRow(o, r))
  {
    forall e | e in o.employees {
      SumAppend(o.rows, r, AmountFor(e));
    }
  }

  lemma DeleteRowKeepsBalanced(o: Office, k: nat)
    requires Balanced(o) && k < |o.rows|
    ensures DeleteRow(o, k).Success? && Balanced(DeleteRow(o, k).value)
  {
    var o' := DeleteRow(o, k).value;
    forall e | e in o.employees
      ensures LedgerBalance(o', e) == LedgerBalance(o, e) - AmountFor(e)(o.rows[k])
    {
      SumRemove(o.rows, k, AmountFor(e));
    }
  }

  lemma ReverseLedger(o: Office, matches: Row -> bool, creditTo: EmployeeId, e: EmployeeId)
    requires creditTo in o.employees
    ensures LedgerBalance(Reverse(o, matches, creditTo), e) == LedgerBalance(o, e) - Sum(Filter(o.rows, matches), AmountFor(e))
  {
    SumSplit(o.rows, matches, AmountFor(e));
  }

  lemma ReverseKeepsRows(o: Office, matches: Row -> bool, creditTo: EmployeeId)
    requires creditTo in o.employees
    ensures forall r :: r in Reverse(o, matches, creditTo).rows ==> r in o.rows
  {
    FilterMembers(o.rows, Not(matches));
  }

  /** What each employee's rows total among those that match is what the employee gets back. */
  ghost predicate CreditsTheOwners(o: Office, matches: Row -> bool, creditTo: EmployeeId) {
    forall e :: e in o.employees ==>
      Sum(Filter(o.rows, matches), AmountFor(e)) == if e == creditTo then Sum(Filter(o.rows, matches), Amount()) else 0
  }

  /** Reversing rows keeps the books balanced exactly when it credits every employee what the rows took. */
  lemma ReverseBalancedExactly(o: Office, matches: Row -> bool, creditTo: EmployeeId)
    requires Balanced(o) && creditTo in o.employees
    ensures Balanced(Reverse(o, matches, creditTo)) <==> CreditsTheOwners(o, matches, creditTo)
  {
    var o' := Reverse(o, matches, creditTo);
    ReverseKeepsRows(o, matches, creditTo);
    forall e | e in o.employees
      ensures (o'.employees[e].balance == LedgerBalance(o', e))
         <==> (Sum(Filter(o.rows, matches), AmountFor(e)) == if e == creditTo then Sum(Filter(o.rows, matches), Amount()) else 0)
    {
      ReverseLedger(o, matches, creditTo, e);
    }
  }

  lemma RowsOfOneOwner(gone: seq<Row>, owner: EmployeeId, e: EmployeeId)
    requires forall r :: r in gone ==> r.employee == owner
    ensures Sum(gone, AmountFor(e)) == if e == owner then Sum(gone, Amount()) else 0
  {
    if e == owner {
      SumAgree(gone, AmountFor(e), Amount());
    } else {
      SumZero(gone, AmountFor(e));
    }
  }

  /** For rows of one employee, that is exactly when that employee is credited, or there is nothing to credit. */
  lemma ReverseBalancedIff(o: Office, matches: Row -> bool, owner: EmployeeId, creditTo: EmployeeId)
    requires Balanced(o) && owner in o.employees && creditTo in o.employees
    requires forall r :: r in o.rows && matches(r) ==> r.employee == owner
    ensures Balanced(Reverse(o, matches, creditTo))
       <==> creditTo == owner || Sum(Filter(o.rows, matches), Amount()) == 0
  {
    ReverseBalancedExactly(o, matches, creditTo);
    FilterMembers(o.rows, matches);
    forall e: EmployeeId
      ensures Sum(Filter(o.rows, matches), AmountFor(e)) == if e == owner then Sum(Filter(o.rows, matches), Amount()) else 0
    {
      RowsOfOneOwner(Filter(o.rows, matches), owner, e);
    }
  }

  lemma CreditUndone(o: Office, e: EmployeeId, delta: Cents)
    requires e in o.employees
    ensures Credit(Credit(o, e, delta), e, -delta) == o
  {
    assert Credit(Credit(o, e, delta), e, -delta).employees == o.employees;
  }

  lemma FilterOutLast(rows: seq<Row>, r: Row, matches: Row -> bool)
    requires matches(r) && (forall q :: q in rows ==> !matches(q))
    ensures Filter(rows + [r], matches) == [r] && Filter(rows + [r], Not(matches)) == rows
  {
    FilterAppend(rows, r, matches);
    FilterNone(rows, matches);
    FilterAppend(rows, r, Not(matches));
    FilterAll(rows, Not(matches));
  }

  /** Reversing the one row that was just added puts the books back. */
  lemma ReverseUndoesAddRow(o: Office, r: Row, matches: Row -> bool)
    requires r.employee in o.employees && matches(r)
    requires forall q :: q in o.rows ==> !matches(q)
    ensures Filter(AddRow(o, r).rows, matches) == [r]
    ensures Reverse(AddRow(o, r), matches, r.employee) == o
  {
    FilterOutLast(o.rows, r, matches);
    assert Sum([r], Amount()) == r.amount by {
      assert [r] == [r] + [];
      SumCons(r, [], Amount());
    }
    CreditUndone(o, r.employee, r.amount);
  }

  lemma AccrueKeepsBalanced(o: Office, e: EmployeeId, m: Month, force: bool)
    requires Balanced(o)
    ensures Balanced(AccrueSalary(o, e, m, force).Or(o))
  {
    var spec := AccrueSalary(o, e, m, force);
    if spec.Success? && spec.value != o {
      var k := FindAccrual(o.rows, e, m);
      var salary := o.employees[e].salary;
      if k.None? {
        AddRowKeepsBalanced(o, Row(e, SalaryAccrual, salary, Some(m), None, None));
      } else {
        forall x | x in o.employees {
          SumUpdate(o.rows, k.value, o.rows[k.value].(amount := salary), AmountFor(x));
        }
      }
    }
  }

  // ---- salary accrual is once a month --------------------------------------

  /** Counts the accrual rows of one employee and month. */
  function Accruals(e: EmployeeId, m: Month): Row -> int {
    (r: Row) => if IsAccrual(e, m, r) then 1 else 0
  }

  ghost predicate OneAccrualPerMonth(rows: seq<Row>) {
    forall e: EmployeeId, m: Month :: Sum(rows, Accruals(e, m)) <= 1
  }

  /** Deleting rows, however chosen, makes no month accrue twice. */
  lemma FilterKeepsAccruals(rows: seq<Row>, keep: Row -> bool)
    requires OneAccrualPerMonth(rows)
    ensures OneAccrualPerMonth(Filter(rows, keep))
  {
    forall e: EmployeeId, m: Month ensures Sum(Filter(rows, keep), Accruals(e, m)) <= 1 {
      SumSplit(rows, keep, Accruals(e, m));
      SumNonNegative(Filter(rows, Not(keep)), Accruals(e, m));
    }
  }

  lemma RemoveKeepsAccruals(rows: seq<Row>, k: nat)
    requires OneAccrualPerMonth(rows) && k < |rows|
    ensures OneAccrualPerMonth(rows[..k] + rows[k + 1..])
  {
    forall e: EmployeeId, m: Month ensures Sum(rows[..k] + rows[k + 1..], Accruals(e, m)) <= 1 {
      SumRemove(rows, k, Accruals(e, m));
    }
  }

  lemma AppendKeepsAccruals(rows: seq<Row>, r: Row)
    requires OneAccrualPerMonth(rows)
    requires r.kind.SalaryAccrual? ==> forall m: Month :: r.month == Some(m) ==> Sum(rows, Accruals(r.employee, m)) == 0
    ensures OneAccrualPerMonth(rows + [r])
  {
    forall e: EmployeeId, m: Month ensures Sum(rows + [r], Accruals(e, m)) <= 1 {
      SumAppend(rows, r, Accruals(e, m));
      assert Sum(rows, Accruals(e, m)) <= 1;
    }
  }

  lemma AccrueKeepsOnePerMonth(o: Office, e: EmployeeId, m: Month, force: bool)
    requires OneAccrualPerMonth(o.rows)
    ensures OneAccrualPerMonth(AccrueSalary(o, e, m, force).Or(o).rows)
  {
    var spec := AccrueSalary(o, e, m, force);
    if spec.Success? && spec.value != o {
      var k := FindAccrual(o.rows, e, m);
      var salary := o.employees[e].salary;
      if k.None? {
        SumZero(o.rows, Accruals(e, m));
        AppendKeepsAccruals(o.rows, Row(e, SalaryAccrual, salary, Some(m), None, None));
      } else {
        forall x: EmployeeId, n: Month ensures Sum(spec.value.rows, Accruals(x, n)) <= 1 {
          SumUpdate(o.rows, k.value, o.rows[k.value].(amount := salary), Accruals(x, n));
          assert Sum(o.rows, Accruals(x, n)) <= 1;
        }
      }
    }
  }

  /**
   * Accruing again never pays twice: a second unforced call changes nothing, and a forced call
   * leaves exactly the current salary booked.
   */
  lemma AccrualIsOncePerMonth(o: Office, e: EmployeeId, m: Month, force: bool, again: bool)
    requires AccrueSalary(o, e, m, force).Success?
    ensures var o1 := AccrueSalary(o, e, m, force).value;
            && AccrueSalary(o1, e, m, false) == Success(o1)
            && (force ==> AccrueSalary(o1, e, m, again) == Success(o1))
            && (o.employees[e].salary > 0 && o.employees[e].active ==>
                  exists k :: 0 <= k < |o1.rows| && IsAccrual(e, m, o1.rows[k])
                              && (force || o1.rows != o.rows ==> o1.rows[k].amount == o.employees[e].salary))
  {
    var o1 := AccrueSalary(o, e, m, force).value;
    var k := FindAccrual(o.rows, e, m);
    var k1 := FindAccrual(o1.rows, e, m);
    if o.employees[e].salary > 0 && o.employees[e].active {
      if k.None? {
        assert IsAccrual(e, m, o1.rows[|o.rows|]);
        assert forall i :: 0 <= i < |o.rows| ==> o1.rows[i] in o.rows;
        assert k1.value == |o.rows|;
      } else {
        FirstAccrualStays(o.rows, e, m, o.rows[k.value].(amount := o.employees[e].salary));
      }
    }
  }

  lemma FirstAccrualStays(rows: seq<Row>, e: EmployeeId, m: Month, r: Row)
    requires FindAccrual(rows, e, m).Some? && IsAccrual(e, m, r)
    ensures FindAccrual(rows[FindAccrual(rows, e, m).value := r], e, m) == FindAccrual(rows, e, m)
  {
    var k := FindAccrual(rows, e, m).value;
    if !IsAccrual(e, m, rows[0]) {
      assert rows[k := r][1..] == rows[1..][k - 1 := r];
      FirstAccrualStays(rows[1..], e, m, r);
    }
  }

  // ---- the same operations on the shared tables ----------------------------

  class OfficeTables {
    var rows: seq<Row>
    var employees: map<EmployeeId, Employee>

    function View(): Office
      reads this
    {
      Office(rows, employees)
    }

    constructor (employees: map<EmployeeId, Employee>)
      ensures View() == Office([], employees)
    {
      this.rows, this.employees := [], employees;
    }

    method ApplyBalanceDelta(e: EmployeeId, delta: Cents)
      requires e in employees
      modifies this`employees
      ensures View() == Credit(old(View()), e, delta)
    {
      employees := employees[e := employees[e].(balance := employees[e].balance + delta)];
    }

    method CreateRow(r: Row)
      requires r.employee in employees
      modifies this
      ensures View() == AddRow(old(View()), r)
    {
      rows := rows + [r];
      ApplyBalanceDelta(r.employee, r.amount);
    }

    method AccrueSalaryForMonth(e: EmployeeId, m: Month, force: bool) returns (raised: Option<Fault>)
      modifies this
      ensures Commits(AccrueSalary(old(View()), e, m, force), old(View()), View(), raised)
    {
      raised := None;
      if e !in employees {
        return Some(NoSuchEmployee);
      }
      var salary := employees[e].salary;
      if salary <= 0 || !employees[e].active {
        return;
      }
      var existing := FindAccrual(rows, e, m);
      if existing.None? {
        CreateRow(Row(e, SalaryAccrual, salary, Some(m), None, None));
      } else if force {
        var delta := salary - rows[existing.value].amount;
        if delta != 0 {
          rows := rows[existing.value := rows[existing.value].(amount := salary)];
          ApplyBalanceDelta(e, delta);
        }
      }
    }

    /** The loop over the matching rows adds up what has to be given back. */
    method ReverseRows(matches: Row -> bool, creditTo: EmployeeId)
      requires creditTo in employees
      modifies this
      ensures View() == Reverse(old(View()), matches, creditTo)
    {
      var gone := Filter(rows, matches);
      var delta := 0;
      for i := 0 to |gone|
        invariant delta == -Sum(gone[..i], Amount()) && View() == old(View())
      {
        assert gone[..i + 1] == gone[..i] + [gone[i]];
        SumAppend(gone[..i], gone[i], Amount());
        delta := delta - gone[i].amount;
      }
      assert gone[..|gone|] == gone;
      rows := Filter(rows, Not(matches));
      if delta != 0 {
        ApplyBalanceDelta(creditTo, delta);
      } else {
        assert employees == Credit(View(), creditTo, 0).employees;
      }
    }

    method RecordSalesPaymentReceived(sale: nat, price: Cents, recipient: Option<EmployeeId>) returns (raised: Option<Fault>)
      modifies this
      ensures Commits(RecordSalePayment(old(View()), sale, price, recipient), old(View()), View(), raised)
    {
      raised := None;
      if recipient.None? {
        return Some(NotEmployeeSale);
      }
      if Filter(rows, OfSale(sale)) != [] {
        return;
      }
      if recipient.value !in employees {
        return Some(NoSuchEmployee);
      }
      CreateRow(Row(recipient.value, SalePayment, -price, None, Some(sale), None));
    }

    method ReverseSalesPaymentForSale(sale: nat, recipientNow: EmployeeId) returns (raised: Option<Fault>)
      modifies this
      ensures Commits(ReverseSalePayment(old(View()), sale, recipientNow), old(View()), View(), raised)
    {
      raised := None;
      if Filter(rows, OfSale(sale)) == [] {
        return;
      }
      if recipientNow !in employees {
        return Some(NoSuchEmployee);
      }
      ReverseRows(OfSale(sale), recipientNow);
    }

    /** One row that is no mirror of a customer payment, and its effect on the balance. */
    method DeleteLedgerEntry(k: nat) returns (raised: Option<Fault>)
      modifies this
      ensures Commits(DeleteRow(old(View()), k), old(View()), View(), raised)
    {
      if k >= |rows| {
        return Some(NoSuchRow);
      }
      var row := rows[k];
      if row.employee !in employees {
        return Some(NoSuchEmployee);
      }
      rows := rows[..k] + rows[k + 1..];
      ApplyBalanceDelta(row.employee, -row.amount);
      return None;
    }

    method RecordCustomerPaymentReceived(payment: nat, amount: Cents, recipient: EmployeeId) returns (raised: Option<Fault>)
      modifies this
      ensures Commits(RecordCustomerPayment(old(View()), payment, amount, recipient), old(View()), View(), raised)
    {
      raised := None;
      if Filter(rows, OfCustomerPayment(payment)) != [] {
        return;
      }
      if recipient !in employees {
        return Some(NoSuchEmployee);
      }
      CreateRow(Row(recipient, CustomerPayment, -amount, None, None, Some(payment)));
    }

    method ReverseCustomerPaymentReceived(payment: nat, recipient: Option<EmployeeId>) returns (raised: Option<Fault>)
      modifies this
      ensures Commits(ReverseCustomerPayment(old(View()), payment, recipient), old(View()), View(), raised)
    {
      raised := None;
      var gone := Filter(rows, OfCustomerPayment(payment));
      if gone == [] {
        return;
      }
      var e := if recipient.Some? then recipient.value else gone[0].employee;
      if e !in employees {
        return Some(NoSuchEmployee);
      }
      ReverseRows(OfCustomerPayment(payment), e);
    }
  }
}
