/**
 * Every run of the account services: the books stay sound whatever is called in whatever order.
 */
module CustomerRuns {
  import opened Wrappers
  import opened Sums
  import opened Receivables
  import opened SettlementPass
  import Staff

  // ---- runs ------------------------------------------------------------------

  datatype Op =
    | OpAddSale(price: Cents, cost: Cents)
    | OpPost(i: nat)
    | OpReprice(i: nat, price: Cents)
    | OpPay(amount: Cents, rail: Option<MethodId>, viaEmployee: bool, recipient: Option<Staff.EmployeeId>)
    | OpSubmit(amount: Cents, rail: Option<MethodId>, viaEmployee: bool, recipient: Option<Staff.EmployeeId>)
    | OpApprove(k: nat)
    | OpReject(k: nat)
    | OpAdjust(amount: Cents)
    | OpWriteOff
    | OpDeletePayment(id: PaymentId)
    | OpDeleteEntry(k: nat)
    | OpDeleteStaffRow(k: nat)
    | OpSalePayment(sale: nat, price: Cents, recipient: Option<Staff.EmployeeId>)
    | OpUndoSalePayment(sale: nat, recipientNow: Staff.EmployeeId)
    | OpAccrue(employee: Staff.EmployeeId, month: Staff.Month, force: bool)
    | OpAdjustStaff(employee: Staff.EmployeeId, amount: Cents)
    | OpPayElsewhere(amount: Cents, recipient: Option<Staff.EmployeeId>)

  function InOffice(b: Book, r: Result<Staff.Office, Staff.Fault>): Result<Book, Fault> {
    match r
    case Success(office) => Success(b.(office := office))
    case Failure(e) => Failure(StaffFault(e))
  }

  function Outcome(b: Book, op: Op): Result<Book, Fault> {
    match op
    case OpAddSale(price, cost) => Success(AddSale(b, price, cost))
    case OpPost(i) => Post(b, i)
    case OpReprice(i, price) => Reprice(b, i, price)
    case OpPay(amount, rail, via, recipient) => Pay(b, amount, rail, via, recipient)
    case OpSubmit(amount, rail, via, recipient) => Submit(b, amount, rail, via, recipient)
    case OpApprove(k) => Approve(b, k)
    case OpReject(k) => Reject(b, k)
    case OpAdjust(amount) => Adjust(b, amount)
    case OpWriteOff => Success(WriteOff(b))
    case OpDeletePayment(id) => DeletePayment(b, id)
    case OpDeleteEntry(k) => DeleteEntry(b, k)
    case OpDeleteStaffRow(k) => DeleteStaffRow(b, k)
    case OpSalePayment(sale, price, r) => InOffice(b, Staff.RecordSalePayment(b.office, sale, price, r))
    case OpUndoSalePayment(sale, r) => InOffice(b, Staff.ReverseSalePayment(b.office, sale, r))
    case OpAccrue(e, m, force) => InOffice(b, Staff.AccrueSalary(b.office, e, m, force))
    case OpAdjustStaff(e, amount) => InOffice(b, Staff.Adjust(b.office, e, amount))
    case OpPayElsewhere(amount, r) => PayElsewhere(b, amount, r)
  }

  /** A call that raises is rolled back. */
  function Apply(b: Book, op: Op): Book {
    Outcome(b, op).Or(b)
  }

  function Run(b: Book, ops: seq<Op>): Book {
    if |ops| == 0 then b else Apply(Run(b, ops[..|ops| - 1]), ops[|ops| - 1])
  }

  /**
   * Undoing a sale payment credits whoever was debited: the sale's recipient was not edited in
   * between, or there is nothing to give back.
   */
  ghost predicate RecipientKept(b: Book, op: Op) {
    op.OpUndoSalePayment? && op.recipientNow in b.office.employees ==>
      Staff.CreditsTheOwners(b.office, Staff.OfSale(op.sale), op.recipientNow)
  }

  ghost predicate RecipientsKept(b: Book, ops: seq<Op>) {
    forall n :: 0 <= n < |ops| ==> RecipientKept(Run(b, ops[..n]), ops[n])
  }

  // ---- what sound books are -----------------------------------------------------

  function ChargeAmount(): Entry -> int {
    (r: Entry) => if r.kind.ChargeEntry? then r.amount else 0
  }

  function ReversalAmount(): Entry -> int {
    (r: Entry) => if r.kind.ReversalEntry? then r.amount else 0
  }

  function PaymentRowAmount(): Entry -> int {
    (r: Entry) => if r.kind.PaymentEntry? then r.amount else 0
  }

  /** The signed amount of the rows that mirror one payment. */
  function MirrorAmount(id: PaymentId): Entry -> int {
    (r: Entry) => if r.payment == Some(id) then SignedAmount(r) else 0
  }

  ghost predicate LedgerHolds(ledger: seq<Entry>, balance: Cents, payments: seq<Payment>, last: PaymentId) {
    && balance == Sum(ledger, Signed())
    && Sum(ledger, PaymentRowAmount()) == Sum(payments, PaymentAmount())
    && (forall r :: r in ledger ==> (r.kind.PaymentEntry? <==> r.payment.Some?))
    && (forall r :: r in ledger && r.payment.Some? ==> r.payment.value <= last)
    && (forall p :: p in payments ==> Sum(ledger, MirrorAmount(p.id)) == -p.amount)
  }

  ghost predicate LedgerSound(b: Book) {
    LedgerHolds(b.ledger, b.balance, b.payments, b.lastPayment)
  }

  ghost predicate Increasing(payments: seq<Payment>) {
    forall i, j :: 0 <= i < j < |payments| ==> payments[i].id < payments[j].id
  }

  ghost predicate PaymentsHold(payments: seq<Payment>, last: PaymentId, employees: set<Staff.EmployeeId>) {
    && Increasing(payments)
    && (forall p :: p in payments ==> 0 < p.id <= last && p.amount > 0)
    && (forall p :: p in payments && p.recipient.Some? ==> p.recipient.value in employees)
  }

  ghost predicate PaymentsSound(b: Book) {
    PaymentsHold(b.payments, b.lastPayment, b.office.employees.Keys)
  }

  /** Stamps point at issued payments; a sale that is not settled carries none. */
  ghost predicate SalesHold(sales: seq<Sale>, last: PaymentId) {
    forall s :: s in sales ==>
      && (s.stamp.Some? ==> s.stamp.value <= last)
      && (s.status.Awaiting? || s.status.Pending? ==> s.stamp.None? && s.rail.None?)
  }

  ghost predicate SalesSound(b: Book) {
    SalesHold(b.sales, b.lastPayment)
  }

  /** An employee row that mirrors a customer payment sits with the employee who holds it. */
  ghost predicate MirrorsHold(rows: seq<Staff.Row>, payments: seq<Payment>, last: PaymentId) {
    && Staff.OneHolder(rows)
    && (forall r :: r in rows && r.payment.Some? ==> r.kind.CustomerPayment? && r.payment.value <= last)
    && (forall r, p :: r in rows && p in payments && r.payment == Some(p.id) ==> p.recipient == Some(r.employee))
  }

  ghost predicate OfficeSound(b: Book) {
    Staff.Balanced(b.office) && MirrorsHold(b.office.rows, b.payments, b.lastPayment)
  }

  ghost predicate SubmissionsHold(submissions: seq<Submission>, last: PaymentId) {
    forall s :: s in submissions ==> (s.result.Some? ==> s.result.value <= last && s.status.Approved?)
  }

  ghost predicate SubmissionsSound(b: Book) {
    SubmissionsHold(b.submissions, b.lastPayment)
  }

  ghost predicate Sound(b: Book) {
    LedgerSound(b) && PaymentsSound(b) && SalesSound(b) && OfficeSound(b) && SubmissionsSound(b)
  }

  // ---- the pass touches nothing but sales ------------------------------------------

  lemma PassKeepsSound(b: Book, trigger: Option<Payment>)
    requires Sound(b)
    requires trigger.Some? ==> trigger.value.id <= b.lastPayment
    ensures Sound(Reapply(b, trigger))
    ensures Reapply(b, trigger) == b.(sales := Reapply(b, trigger).sales)
  {
    var payer := SettlingPayment(b, trigger);
    if Headroom(b) > 0 && payer.Some? {
      SettlesTheFittingPrefix(b.sales, Headroom(b), payer.value);
      forall s | s in Reapply(b, trigger).sales
        ensures s.stamp.Some? ==> s.stamp.value <= b.lastPayment
        ensures s.status.Awaiting? || s.status.Pending? ==> s.stamp.None? && s.rail.None?
      {
        var i :| 0 <= i < |b.sales| && Reapply(b, trigger).sales[i] == s;
        assert b.sales[i] in b.sales;
      }
    }
  }

  // ---- each operation ------------------------------------------------------------

  /** A row without a payment moves the balance by its signed amount and nothing else. */
  lemma AppendEntryKeepsLedger(b: Book, r: Entry, b': Book)
    requires LedgerSound(b) && !r.kind.PaymentEntry? && r.payment.None?
    requires b'.ledger == b.ledger + [r] && b'.balance == b.balance + SignedAmount(r)
    requires b'.payments == b.payments && b'.lastPayment == b.lastPayment
    ensures LedgerSound(b')
  {
    SumAppend(b.ledger, r, Signed());
    SumAppend(b.ledger, r, PaymentRowAmount());
    forall p | p in b.payments {
      SumAppend(b.ledger, r, MirrorAmount(p.id));
    }
  }

  lemma PostKeepsSound(b: Book, i: nat)
    requires Sound(b)
    ensures Sound(Post(b, i).Or(b))
  {
    if Post(b, i).Success? {
      var posted := b.(sales := b.sales[i := b.sales[i].(status := Pending)]);
      if Filter(b.ledger, IsChargeOf(i)) != [] {
        assert Sound(posted);
        PassKeepsSound(posted, None);
      } else {
        var r := Entry(ChargeEntry, b.sales[i].price, Some(i), None);
        var charged := posted.(ledger := b.ledger + [r], balance := b.balance + b.sales[i].price);
        AppendEntryKeepsLedger(b, r, charged);
        PassKeepsSound(charged, None);
      }
    }
  }

  /** The CHARGE row of sale `i` that survives a collapse. */
  function FirstCharge(ledger: seq<Entry>, i: nat): (r: Entry)
    requires Filter(ledger, IsChargeOf(i)) != []
    ensures r in ledger && ChargesSale(i, r)
  {
    FilterMembers(ledger, IsChargeOf(i));
    Filter(ledger, IsChargeOf(i))[0]
  }

  lemma {:induction false} CollapseContents(ledger: seq<Entry>, i: nat, amount: Cents)
    requires Filter(ledger, IsChargeOf(i)) != []
    ensures forall r :: r in Collapse(ledger, i, amount) <==>
              r == FirstCharge(ledger, i).(amount := amount) || (r in ledger && !ChargesSale(i, r))
  {
    if !ChargesSale(i, ledger[0]) {
      CollapseContents(ledger[1..], i, amount);
    } else {
      FilterMembers(ledger[1..], Not(IsChargeOf(i)));
    }
  }

  lemma {:induction false} CollapseKeepsOthers(ledger: seq<Entry>, i: nat, amount: Cents, f: Entry -> int)
    requires Filter(ledger, IsChargeOf(i)) != []
    ensures Sum(Collapse(ledger, i, amount), f)
         == Sum(Filter(ledger, Not(IsChargeOf(i))), f) + f(FirstCharge(ledger, i).(amount := amount))
  {
    var rest := ledger[1..];
    if ChargesSale(i, ledger[0]) {
      SumCons(ledger[0].(amount := amount), Filter(rest, Not(IsChargeOf(i))), f);
      assert Filter(ledger, Not(IsChargeOf(i))) == Filter(rest, Not(IsChargeOf(i)));
    } else {
      CollapseKeepsOthers(rest, i, amount, f);
      SumCons(ledger[0], Collapse(rest, i, amount), f);
      SumCons(ledger[0], Filter(rest, Not(IsChargeOf(i))), f);
    }
  }

  /** Collapsing the CHARGE rows of a sale: every total loses those rows and gains the new one. */
  lemma CollapseSum(ledger: seq<Entry>, i: nat, amount: Cents, f: Entry -> int)
    requires Filter(ledger, IsChargeOf(i)) != []
    ensures Sum(Collapse(ledger, i, amount), f)
         == Sum(ledger, f) - Sum(Filter(ledger, IsChargeOf(i)), f) + f(FirstCharge(ledger, i).(amount := amount))
  {
    CollapseKeepsOthers(ledger, i, amount, f);
    SumSplit(ledger, IsChargeOf(i), f);
  }

  lemma CollapseKeepsLedger(b: Book, i: nat, amount: Cents, b': Book)
    requires LedgerSound(b) && Filter(b.ledger, IsChargeOf(i)) != []
    requires b'.ledger == Collapse(b.ledger, i, amount)
    requires b'.balance == b.balance + amount - Sum(Filter(b.ledger, IsChargeOf(i)), EntryAmount())
    requires b'.payments == b.payments && b'.lastPayment == b.lastPayment
    ensures LedgerSound(b')
  {
    var charges := Filter(b.ledger, IsChargeOf(i));
    CollapseContents(b.ledger, i, amount);
    CollapseSum(b.ledger, i, amount, Signed());
    FilterMembers(b.ledger, IsChargeOf(i));
    SumAgree(charges, Signed(), EntryAmount());
    CollapseSum(b.ledger, i, amount, PaymentRowAmount());
    SumZero(charges, PaymentRowAmount());
    forall p | p in b.payments
      ensures Sum(b'.ledger, MirrorAmount(p.id)) == -p.amount
    {
      CollapseSum(b.ledger, i, amount, MirrorAmount(p.id));
      SumZero(charges, MirrorAmount(p.id));
    }
  }

  lemma RepriceKeepsSound(b: Book, i: nat, price: Cents)
    requires Sound(b)
    ensures Sound(Reprice(b, i, price).Or(b))
  {
    if i < |b.sales| {
      var edited := b.(sales := b.sales[i := b.sales[i].(price := price)]);
      PriceEditKeepsSound(b, i, price);
      SyncKeepsSound(edited, i);
    }
  }

  lemma PriceEditKeepsSound(b: Book, i: nat, price: Cents)
    requires Sound(b) && i < |b.sales|
    ensures Sound(b.(sales := b.sales[i := b.sales[i].(price := price)]))
  {
    assert b.sales[i] in b.sales;
  }

  /** The state a price edit runs the pass on. */
  function SyncedState(b: Book, i: nat, price: Cents): Book
    requires i < |b.sales|
  {
    var s := b.sales[i].(price := price);
    b.(ledger := Collapse(b.ledger, i, price),
       balance := b.balance + (price - Sum(Filter(b.ledger, IsChargeOf(i)), EntryAmount())),
       sales := b.sales[i := if s.status.Paid? then Reopened(s) else s])
  }

  lemma SyncedKeepsSound(b: Book, i: nat, price: Cents)
    requires Sound(b) && i < |b.sales| && Filter(b.ledger, IsChargeOf(i)) != []
    ensures Sound(SyncedState(b, i, price))
  {
    assert b.sales[i] in b.sales;
    CollapseKeepsLedger(b, i, price, SyncedState(b, i, price));
  }

  lemma SyncKeepsSound(b: Book, i: nat)
    requires Sound(b)
    ensures Sound(Sync(b, i).Or(b))
  {
    if Sync(b, i).Success? && Sync(b, i).value != b {
      SyncedKeepsSound(b, i, b.sales[i].price);
      PassKeepsSound(SyncedState(b, i, b.sales[i].price), None);
    }
  }

  lemma BookedKeepsLedger(b: Book, p: Payment)
    requires Sound(b) && p.id == b.lastPayment + 1 && p.amount > 0
    ensures LedgerSound(Booked(b, p))
    ensures Increasing(Booked(b, p).payments)
  {
    var b' := Booked(b, p);
    var r := Entry(PaymentEntry, p.amount, None, Some(p.id));
    SumAppend(b.ledger, r, Signed());
    SumAppend(b.ledger, r, PaymentRowAmount());
    SumAppend(b.payments, p, PaymentAmount());
    forall q | q in b'.payments
      ensures Sum(b'.ledger, MirrorAmount(q.id)) == -q.amount
    {
      SumAppend(b.ledger, r, MirrorAmount(q.id));
      if q !in b.payments {
        SumZero(b.ledger, MirrorAmount(p.id));
      }
    }
    forall i, j | 0 <= i < j < |b'.payments|
      ensures b'.payments[i].id < b'.payments[j].id
    {
      assert b'.payments[i] in b.payments;
    }
  }

  lemma NoMirrorYet(b: Book, id: PaymentId)
    requires OfficeSound(b) && id > b.lastPayment
    ensures Filter(b.office.rows, Staff.OfCustomerPayment(id)) == []
  {
    FilterNone(b.office.rows, Staff.OfCustomerPayment(id));
  }

  lemma BookedKeepsSound(b: Book, p: Payment, office: Staff.Office)
    requires Sound(b) && p.id == b.lastPayment + 1 && p.amount > 0
    requires Staff.Balanced(office) && office.employees.Keys == b.office.employees.Keys
    requires p.recipient.Some? ==> p.recipient.value in office.employees
    requires forall r :: r in office.rows && r !in b.office.rows ==>
               r.kind.CustomerPayment? && r.payment == Some(p.id) && p.recipient == Some(r.employee)
    ensures Sound(Booked(b, p).(office := office))
  {
    BookedKeepsLedger(b, p);
  }

  lemma HeldByKeepsSound(b: Book, p: Payment)
    requires Sound(b) && p.id == b.lastPayment + 1 && p.amount > 0 && HeldBy(b.office, p).Success?
    ensures Sound(Booked(b, p).(office := HeldBy(b.office, p).value))
  {
    if p.recipient.Some? {
      NoMirrorYet(b, p.id);
      var row := Staff.Row(p.recipient.value, Staff.CustomerPayment, -p.amount, None, None, Some(p.id));
      Staff.AddRowKeepsBalanced(b.office, row);
    }
    BookedKeepsSound(b, p, HeldBy(b.office, p).value);
  }

  lemma PayKeepsSound(b: Book, amount: Cents, rail: Option<MethodId>, via: bool, recipient: Option<Staff.EmployeeId>)
    requires Sound(b)
    ensures Sound(Pay(b, amount, rail, via, recipient).Or(b))
  {
    if Pay(b, amount, rail, via, recipient).Success? {
      var p := NewPayment(b, amount, rail, via, recipient);
      HeldByKeepsSound(b, p);
      PassKeepsSound(Booked(b, p).(office := HeldBy(b.office, p).value), Some(p));
    }
  }

  lemma FilterKeepsIncreasing(payments: seq<Payment>, keep: Payment -> bool)
    requires Increasing(payments)
    ensures Increasing(Filter(payments, keep))
  {
    if |payments| > 0 {
      assert forall q :: q in payments[1..] ==> payments[0].id < q.id;
      FilterKeepsIncreasing(payments[1..], keep);
      var rest := Filter(payments[1..], keep);
      forall j | 0 <= j < |rest| ensures payments[0].id < rest[j].id {
        FilterMembers(payments[1..], keep);
        assert rest[j] in rest;
      }
    }
  }

  /** With distinct ids, deleting by id deletes that payment and its amount. */
  lemma RemovePaymentTotal(payments: seq<Payment>, p: Payment)
    requires Increasing(payments) && p in payments
    ensures Sum(Filter(payments, Not(HasId(p.id))), PaymentAmount()) == Sum(payments, PaymentAmount()) - p.amount
  {
    if payments[0] == p {
      FilterAll(payments[1..], Not(HasId(p.id)));
      assert Filter(payments, Not(HasId(p.id))) == payments[1..];
    } else {
      RemovePaymentTotal(payments[1..], p);
      SumCons(payments[0], Filter(payments[1..], Not(HasId(p.id))), PaymentAmount());
      var k :| 0 <= k < |payments| && payments[k] == p;
      assert payments[0].id < payments[k].id;
    }
  }

  lemma WithdrawnKeepsLedger(b: Book, p: Payment, office: Staff.Office)
    requires Sound(b) && p in b.payments
    ensures LedgerSound(Withdrawn(b, p, office))
  {
    var b' := Withdrawn(b, p, office);
    var gone := Filter(b.ledger, MirrorsPayment(p.id));
    FilterMembers(b.ledger, MirrorsPayment(p.id));
    FilterMembers(b.ledger, Not(MirrorsPayment(p.id)));
    FilterMembers(b.payments, Not(HasId(p.id)));
    SumSplit(b.ledger, MirrorsPayment(p.id), MirrorAmount(p.id));
    SumZero(b'.ledger, MirrorAmount(p.id));
    SumSplit(b.ledger, MirrorsPayment(p.id), Signed());
    SumAgree(gone, Signed(), MirrorAmount(p.id));
    SumSplit(b.ledger, MirrorsPayment(p.id), PaymentRowAmount());
    SumCombine(gone, Signed(), PaymentRowAmount(), Zero());
    SumZero(gone, Zero());
    RemovePaymentTotal(b.payments, p);
    forall q | q in b'.payments
      ensures Sum(b'.ledger, MirrorAmount(q.id)) == -q.amount
    {
      SumSplit(b.ledger, MirrorsPayment(p.id), MirrorAmount(q.id));
      SumZero(gone, MirrorAmount(q.id));
    }
  }

  function Zero(): Entry -> int {
    (r: Entry) => 0
  }

  lemma WithdrawnKeepsSound(b: Book, p: Payment, office: Staff.Office)
    requires Sound(b) && p in b.payments
    requires Staff.Balanced(office) && office.employees.Keys == b.office.employees.Keys
    requires forall r :: r in office.rows ==> r in b.office.rows
    ensures Sound(Withdrawn(b, p, office))
  {
    var b' := Withdrawn(b, p, office);
    WithdrawnKeepsLedger(b, p, office);
    FilterMembers(b.payments, Not(HasId(p.id)));
    FilterKeepsIncreasing(b.payments, Not(HasId(p.id)));
    forall s | s in b'.sales
      ensures s.stamp.Some? ==> s.stamp.value <= b.lastPayment
      ensures s.status.Awaiting? || s.status.Pending? ==> s.stamp.None? && s.rail.None?
    {
      var i :| 0 <= i < |b'.sales| && b'.sales[i] == s;
      assert b.sales[i] in b.sales;
    }
    forall s | s in b'.submissions
      ensures s.result.Some? ==> s.result.value <= b.lastPayment && s.status.Approved?
    {
      var i :| 0 <= i < |b'.submissions| && b'.submissions[i] == s;
      assert b.submissions[i] in b.submissions;
    }
  }

  lemma GivenBackKeepsSound(b: Book, p: Payment)
    requires Sound(b) && p in b.payments && GivenBack(b.office, p).Success?
    ensures Sound(Withdrawn(b, p, GivenBack(b.office, p).value))
  {
    if p.recipient.Some? && Filter(b.office.rows, Staff.OfCustomerPayment(p.id)) != [] {
      Staff.ReverseBalancedIff(b.office, Staff.OfCustomerPayment(p.id), p.recipient.value, p.recipient.value);
      Staff.ReverseKeepsRows(b.office, Staff.OfCustomerPayment(p.id), p.recipient.value);
    }
    WithdrawnKeepsSound(b, p, GivenBack(b.office, p).value);
  }

  lemma DeletePaymentKeepsSound(b: Book, id: PaymentId)
    requires Sound(b)
    ensures Sound(DeletePayment(b, id).Or(b))
  {
    if DeletePayment(b, id).Success? {
      var p := FindPayment(b.payments, id).value;
      GivenBackKeepsSound(b, p);
      PassKeepsSound(Withdrawn(b, p, GivenBack(b.office, p).value), None);
    }
  }

  lemma ApproveKeepsSound(b: Book, k: nat)
    requires Sound(b)
    ensures Sound(Approve(b, k).Or(b))
  {
    if Approve(b, k).Success? {
      var s := b.submissions[k];
      ApproveIsPay(b, k);
      PayKeepsSound(b, s.amount, s.rail, s.recipient.Some?, s.recipient);
      MarkedApprovedIsSound(Pay(b, s.amount, s.rail, s.recipient.Some?, s.recipient).value, b.submissions, k, s, b.lastPayment + 1);
    }
  }

  lemma MarkedApprovedIsSound(b: Book, submissions: seq<Submission>, k: nat, s: Submission, id: PaymentId)
    requires Sound(b) && b.submissions == submissions && k < |submissions| && id <= b.lastPayment
    ensures Sound(b.(submissions := submissions[k := s.(status := Approved, result := Some(id))]))
  {
  }

  lemma ApproveIsPay(b: Book, k: nat)
    requires Approve(b, k).Success?
    ensures var s := b.submissions[k]; var paid := Pay(b, s.amount, s.rail, s.recipient.Some?, s.recipient);
            && paid.Success? && paid.value.lastPayment == b.lastPayment + 1 && paid.value.submissions == b.submissions
            && Approve(b, k).value == paid.value.(
                 submissions := b.submissions[k := s.(status := Approved, result := Some(b.lastPayment + 1))])
  {
  }

  lemma AdjustKeepsSound(b: Book, amount: Cents)
    requires Sound(b)
    ensures Sound(Adjust(b, amount).Or(b))
  {
    if amount != 0 {
      var r := Entry(AdjustmentEntry, amount, None, None);
      var b' := b.(ledger := b.ledger + [r], balance := b.balance + amount);
      AppendEntryKeepsLedger(b, r, b');
      PassKeepsSound(b', None);
    }
  }

  lemma {:induction false} ReversalsSum(sales: seq<Sale>, n: nat)
    requires n <= |sales|
    ensures Sum(Reversals(sales, n), Signed()) == -Sum(sales[..n], PendingPrice())
    ensures forall r :: r in Reversals(sales, n) ==>
      r.kind.ReversalEntry? && r.payment.None? && r.sale.Some? && r.sale.value < n
      && sales[r.sale.value].status.Pending? && r.amount == sales[r.sale.value].price
  {
    if n > 0 {
      ReversalsSum(sales, n - 1);
      assert sales[..n] == sales[..n - 1] + [sales[n - 1]];
      SumAppend(sales[..n - 1], sales[n - 1], PendingPrice());
      SumCons(Entry(ReversalEntry, sales[n - 1].price, Some(n - 1), None), Reversals(sales, n - 1), Signed());
    }
  }

  lemma WriteOffKeepsSound(b: Book)
    requires Sound(b)
    ensures Sound(WriteOff(b))
  {
    var rows := Reversals(b.sales, |b.sales|);
    var reversed := b.(sales := WriteOffAll(b.sales), ledger := b.ledger + rows, balance := b.balance - PendingTotal(b));
    assert LedgerSound(reversed) by {
      ReversalsSum(b.sales, |b.sales|);
      assert b.sales[..|b.sales|] == b.sales;
      SumConcat(b.ledger, rows, Signed());
      SumConcat(b.ledger, rows, PaymentRowAmount());
      SumZero(rows, PaymentRowAmount());
      forall p | p in b.payments
        ensures Sum(reversed.ledger, MirrorAmount(p.id)) == -p.amount
      {
        SumConcat(b.ledger, rows, MirrorAmount(p.id));
        SumZero(rows, MirrorAmount(p.id));
      }
    }
    if reversed.balance > 0 {
      AppendEntryKeepsLedger(reversed, Entry(AdjustmentEntry, -reversed.balance, None, None), WriteOff(b));
    }
    forall s | s in WriteOff(b).sales
      ensures s.stamp.Some? ==> s.stamp.value <= b.lastPayment
      ensures s.status.Awaiting? || s.status.Pending? ==> s.stamp.None? && s.rail.None?
    {
      var i :| 0 <= i < |b.sales| && WriteOffAll(b.sales)[i] == s;
      assert b.sales[i] in b.sales;
    }
  }

  lemma DeleteEntryKeepsSound(b: Book, k: nat)
    requires Sound(b)
    ensures Sound(DeleteEntry(b, k).Or(b))
  {
    if DeleteEntry(b, k).Success? {
      assert b.ledger[k] in b.ledger;
      SumRemove(b.ledger, k, Signed());
      SumRemove(b.ledger, k, PaymentRowAmount());
      forall p | p in b.payments {
        SumRemove(b.ledger, k, MirrorAmount(p.id));
      }
    }
  }

  lemma StaffKeepsSound(b: Book, office: Staff.Office)
    requires Sound(b) && Staff.Balanced(office) && office.employees.Keys == b.office.employees.Keys
    requires forall r :: r in office.rows ==> r in b.office.rows || r.payment.None?
    ensures Sound(b.(office := office))
  {
  }

  lemma StepKeepsSound(b: Book, op: Op)
    requires Sound(b) && RecipientKept(b, op)
    ensures Sound(Apply(b, op))
  {
    if OnSales(op) {
      SaleOpKeepsSound(b, op);
    } else if OnPayments(op) {
      PaymentOpKeepsSound(b, op);
    } else if InTheOffice(op) {
      OfficeOpKeepsSound(b, op);
    } else {
      CorrectionKeepsSound(b, op);
    }
  }

  lemma AddSaleKeepsSound(b: Book, price: Cents, cost: Cents)
    requires Sound(b)
    ensures Sound(AddSale(b, price, cost))
  {
  }

  lemma SaleOpKeepsSound(b: Book, op: Op)
    requires Sound(b) && OnSales(op)
    ensures Sound(Apply(b, op))
  {
    match op
    case OpAddSale(price, cost) => AddSaleKeepsSound(b, price, cost);
    case OpPost(i) => PostKeepsSound(b, i);
    case OpReprice(i, price) => RepriceKeepsSound(b, i, price);
  }

  lemma SubmitKeepsSound(b: Book, amount: Cents, rail: Option<MethodId>, via: bool, recipient: Option<Staff.EmployeeId>)
    requires Sound(b)
    ensures Sound(Submit(b, amount, rail, via, recipient).Or(b))
  {
  }

  lemma RejectKeepsSound(b: Book, k: nat)
    requires Sound(b)
    ensures Sound(Reject(b, k).Or(b))
  {
    if Reject(b, k).Success? {
      assert b.submissions[k] in b.submissions;
    }
  }

  lemma PaymentOpKeepsSound(b: Book, op: Op)
    requires Sound(b) && OnPayments(op)
    ensures Sound(Apply(b, op))
  {
    match op
    case OpPay(amount, rail, via, recipient) => PayKeepsSound(b, amount, rail, via, recipient);
    case OpSubmit(amount, rail, via, recipient) => SubmitKeepsSound(b, amount, rail, via, recipient);
    case OpApprove(k) => ApproveKeepsSound(b, k);
    case OpReject(k) => RejectKeepsSound(b, k);
  }

  predicate OnSales(op: Op) {
    op.OpAddSale? || op.OpPost? || op.OpReprice?
  }

  predicate OnPayments(op: Op) {
    op.OpPay? || op.OpSubmit? || op.OpApprove? || op.OpReject?
  }

  predicate Corrects(op: Op) {
    op.OpAdjust? || op.OpWriteOff? || op.OpDeletePayment? || op.OpDeleteEntry?
  }

  lemma CorrectionKeepsSound(b: Book, op: Op)
    requires Sound(b) && Corrects(op)
    ensures Sound(Apply(b, op))
  {
    match op
    case OpAdjust(amount) => AdjustKeepsSound(b, amount);
    case OpWriteOff => WriteOffKeepsSound(b);
    case OpDeletePayment(id) => DeletePaymentKeepsSound(b, id);
    case OpDeleteEntry(k) => DeleteEntryKeepsSound(b, k);
  }

  lemma OfficeOpKeepsSound(b: Book, op: Op)
    requires Sound(b) && RecipientKept(b, op)
    requires InTheOffice(op)
    ensures Sound(Apply(b, op))
  {
    match op
    case OpDeleteStaffRow(k) => DeleteStaffRowKeepsSound(b, k);
    case OpPayElsewhere(amount, e) => PayElsewhereKeepsSound(b, amount, e);
    case OpSalePayment(sale, price, e) => SalePaymentKeepsSound(b, sale, price, e);
    case OpUndoSalePayment(sale, e) => UndoSalePaymentKeepsSound(b, sale, e);
    case OpAccrue(e, m, force) => AccrueKeepsSound(b, e, m, force);
    case OpAdjustStaff(e, amount) => AdjustStaffKeepsSound(b, e, amount);
  }

  /** The calls that change the employee books, or other customers' accounts. */
  predicate InTheOffice(op: Op) {
    op.OpDeleteStaffRow? || op.OpSalePayment? || op.OpUndoSalePayment? || op.OpAccrue? || op.OpAdjustStaff? || op.OpPayElsewhere?
  }

  lemma DeleteStaffRowKeepsSound(b: Book, k: nat)
    requires Sound(b)
    ensures Sound(DeleteStaffRow(b, k).Or(b))
  {
    if k < |b.office.rows| {
      var r := b.office.rows[k];
      if r.kind.CustomerPayment? && r.payment.Some? {
        if FindPayment(b.payments, r.payment.value).Some? {
          DeletePaymentKeepsSound(b, r.payment.value);
        } else {
          DeleteElsewhereKeepsSound(b, r);
        }
      } else {
        Staff.DeleteRowKeepsBalanced(b.office, k);
        StaffKeepsSound(b, Staff.DeleteRow(b.office, k).value);
      }
    }
  }

  lemma DeleteElsewhereKeepsSound(b: Book, r: Staff.Row)
    requires Sound(b) && r in b.office.rows && r.payment.Some?
    ensures var reversed := Staff.ReverseCustomerPayment(b.office, r.payment.value, Some(r.employee));
            reversed.Success? ==> Sound(b.(office := reversed.value))
  {
    var matches := Staff.OfCustomerPayment(r.payment.value);
    Staff.ReverseBalancedIff(b.office, matches, r.employee, r.employee);
    Staff.ReverseKeepsRows(b.office, matches, r.employee);
    StaffKeepsSound(b, Staff.Reverse(b.office, matches, r.employee));
  }

  lemma PayElsewhereKeepsSound(b: Book, amount: Cents, e: Option<Staff.EmployeeId>)
    requires Sound(b)
    ensures Sound(PayElsewhere(b, amount, e).Or(b))
  {
    var id := b.lastPayment + 1;
    if e.None? {
      LaterIsSound(b);
    } else if e.value in b.office.employees {
      PaidElsewhere(b, amount, e.value);
      var row := Staff.Row(e.value, Staff.CustomerPayment, -amount, None, None, Some(id));
      Staff.AddRowKeepsBalanced(b.office, row);
      MirrorElsewhereKeepsSound(b, row);
    }
  }

  lemma PaidElsewhere(b: Book, amount: Cents, e: Staff.EmployeeId)
    requires OfficeSound(b) && e in b.office.employees
    ensures var row := Staff.Row(e, Staff.CustomerPayment, -amount, None, None, Some(b.lastPayment + 1));
            PayElsewhere(b, amount, Some(e)).Or(b) ==
              if amount <= 0 then b else b.(office := Staff.AddRow(b.office, row), lastPayment := b.lastPayment + 1)
  {
    NoMirrorYet(b, b.lastPayment + 1);
  }

  lemma LaterIsSound(b: Book)
    requires Sound(b)
    ensures Sound(b.(lastPayment := b.lastPayment + 1))
  {
  }

  /** A mirror row of a payment just issued to another customer. */
  lemma MirrorElsewhereKeepsSound(b: Book, row: Staff.Row)
    requires Sound(b) && row.kind.CustomerPayment? && row.payment == Some(b.lastPayment + 1)
    requires row.employee in b.office.employees && Staff.Balanced(Staff.AddRow(b.office, row))
    ensures Sound(b.(office := Staff.AddRow(b.office, row), lastPayment := b.lastPayment + 1))
  {
    LaterIsSound(b);
  }

  lemma UndoSalePaymentKeepsSound(b: Book, sale: nat, e: Staff.EmployeeId)
    requires Sound(b) && RecipientKept(b, OpUndoSalePayment(sale, e))
    ensures Sound(Apply(b, OpUndoSalePayment(sale, e)))
  {
    if e in b.office.employees {
      Staff.ReverseBalancedExactly(b.office, Staff.OfSale(sale), e);
      Staff.ReverseKeepsRows(b.office, Staff.OfSale(sale), e);
      StaffKeepsSound(b, Staff.Reverse(b.office, Staff.OfSale(sale), e));
    }
  }

  lemma NewStaffRowKeepsSound(b: Book, r: Staff.Row)
    requires Sound(b) && r.employee in b.office.employees && r.payment.None?
    ensures Sound(b.(office := Staff.AddRow(b.office, r)))
  {
    Staff.AddRowKeepsBalanced(b.office, r);
    StaffKeepsSound(b, Staff.AddRow(b.office, r));
  }

  lemma SalePaymentKeepsSound(b: Book, sale: nat, price: Cents, e: Option<Staff.EmployeeId>)
    requires Sound(b)
    ensures Sound(Apply(b, OpSalePayment(sale, price, e)))
  {
    if e.Some? && e.value in b.office.employees {
      NewStaffRowKeepsSound(b, Staff.Row(e.value, Staff.SalePayment, -price, None, Some(sale), None));
    }
  }

  lemma AccrueKeepsSound(b: Book, e: Staff.EmployeeId, m: Staff.Month, force: bool)
    requires Sound(b)
    ensures Sound(Apply(b, OpAccrue(e, m, force)))
  {
    var office := Staff.AccrueSalary(b.office, e, m, force).Or(b.office);
    Staff.AccrueKeepsBalanced(b.office, e, m, force);
    AccrualIsNoMirror(b.office, e, m, force);
    StaffKeepsSound(b, office);
  }

  lemma AccrualIsNoMirror(o: Staff.Office, e: Staff.EmployeeId, m: Staff.Month, force: bool)
    requires forall r :: r in o.rows && r.payment.Some? ==> r.kind.CustomerPayment?
    ensures var after := Staff.AccrueSalary(o, e, m, force).Or(o);
            after.employees.Keys == o.employees.Keys && forall r :: r in after.rows ==> r in o.rows || r.payment.None?
  {
    var after := Staff.AccrueSalary(o, e, m, force).Or(o);
    forall r | r in after.rows ensures r in o.rows || r.payment.None? {
      var k :| 0 <= k < |after.rows| && after.rows[k] == r;
      assert k < |o.rows| ==> o.rows[k] in o.rows;
    }
  }

  lemma AdjustStaffKeepsSound(b: Book, e: Staff.EmployeeId, amount: Cents)
    requires Sound(b)
    ensures Sound(Apply(b, OpAdjustStaff(e, amount)))
  {
    if e in b.office.employees {
      NewStaffRowKeepsSound(b, Staff.Row(e, Staff.Adjustment, amount, None, None, None));
    }
  }

  /**
   * Employee books that balance; their mirror rows belong to payments already issued, and those
   * of one payment sit with one employee.
   */
  ghost predicate ShopInUse(office: Staff.Office, last: PaymentId) {
    && Staff.Balanced(office) && Staff.OneHolder(office.rows)
    && (forall r :: r in office.rows && r.payment.Some? ==> r.kind.CustomerPayment? && r.payment.value <= last)
  }

  // ---- conservation over whole runs ----------------------------------------------

  lemma {:induction false} RunKeepsSound(b: Book, ops: seq<Op>)
    requires Sound(b) && RecipientsKept(b, ops)
    ensures Sound(Run(b, ops))
  {
    if |ops| > 0 {
      var before := ops[..|ops| - 1];
      forall n | 0 <= n < |before| ensures RecipientKept(Run(b, before[..n]), before[n]) {
        assert before[..n] == ops[..n];
      }
      RunKeepsSound(b, before);
      StepKeepsSound(Run(b, before), ops[|ops| - 1]);
    }
  }

  /**
   * Conservation. After any run of the services on a new customer of a shop in use, the cached
   * balance is the charges plus the adjustments minus the payments on record minus the reversals,
   * and every employee's cached balance is the sum of that employee's rows.
   */
  lemma BalanceIsConserved(office: Staff.Office, last: PaymentId, ops: seq<Op>)
    requires ShopInUse(office, last)
    requires RecipientsKept(NewCustomer(office, last), ops)
    ensures var b := Run(NewCustomer(office, last), ops);
            && b.balance == Sum(b.ledger, ChargeAmount()) + Adjustments(b) - PaymentsTotal(b) - Sum(b.ledger, ReversalAmount())
            && Staff.Balanced(b.office)
  {
    RunKeepsSound(NewCustomer(office, last), ops);
    SoundBooksBalance(Run(NewCustomer(office, last), ops));
  }

  /** In sound books the cached balance splits by kind of row, payments counted from the payment table. */
  lemma SoundBooksBalance(b: Book)
    requires LedgerSound(b)
    ensures b.balance == Sum(b.ledger, ChargeAmount()) + Adjustments(b) - PaymentsTotal(b) - Sum(b.ledger, ReversalAmount())
  {
    SignedSplits(b.ledger);
  }

  lemma {:induction false} SignedSplits(ledger: seq<Entry>)
    ensures Sum(ledger, Signed()) == Sum(ledger, ChargeAmount()) + Sum(ledger, AdjustmentAmount())
                                     - Sum(ledger, PaymentRowAmount()) - Sum(ledger, ReversalAmount())
  {
    if |ledger| > 0 {
      SignedSplits(ledger[1..]);
    }
  }
}
