/**
 * One customer's account (`customers/services.py`): on-account sales, payments, a signed ledger,
 * a cached balance, and the pass that settles pending sales oldest first.
 *
 * Every function here is the effect of one service call, which runs in one transaction.
 */
module Receivables {
  import opened Wrappers
  import opened Sums
  import Staff

  type Cents = int
  type PaymentId = nat
  type MethodId = nat

  datatype SaleStatus = Awaiting | Pending | Paid | Cancelled | WrittenOff

  /** An on-account sale of this customer; the list of sales is in `created_at, id` order. */
  datatype Sale = Sale(
    status: SaleStatus,
    price: Cents,
    cost: Cents,
    loss: Cents,
    stamp: Option<PaymentId>,
    rail: Option<MethodId>)

  /** `recipient` is set exactly when the payment was handed to an employee. */
  datatype Payment = Payment(
    id: PaymentId,
    amount: Cents,
    rail: Option<MethodId>,
    recipient: Option<Staff.EmployeeId>)

  datatype EntryType = ChargeEntry | PaymentEntry | AdjustmentEntry | ReversalEntry

  datatype Entry = Entry(kind: EntryType, amount: Cents, sale: Option<nat>, payment: Option<PaymentId>)

  datatype SubmissionStatus = Submitted | Approved | Rejected

  datatype Submission = Submission(
    status: SubmissionStatus,
    amount: Cents,
    rail: Option<MethodId>,
    recipient: Option<Staff.EmployeeId>,
    result: Option<PaymentId>)

  /** `lastPayment` is the id sequence of the payment table; payments are in creation order. */
  datatype Book = Book(
    sales: seq<Sale>,
    payments: seq<Payment>,
    ledger: seq<Entry>,
    balance: Cents,
    active: bool,
    submissions: seq<Submission>,
    lastPayment: PaymentId,
    office: Staff.Office)

  datatype Fault =
    | NotOnAccount
    | NotPostable
    | NegativeAmount
    | AmountNotPositive
    | ZeroAmount
    | MethodRequired
    | RecipientRequired
    | CustomerInactive
    | NotAwaiting
    | NoSuchRow
    | MirrorRow
    | StaffFault(fault: Staff.Fault)

  function EmptyBook(office: Staff.Office): Book {
    Book([], [], [], 0, true, [], 0, office)
  }

  /** A new customer of a shop that has issued `last` payments, to this and other customers. */
  function NewCustomer(office: Staff.Office, last: PaymentId): Book {
    EmptyBook(office).(lastPayment := last)
  }

  // ---- totals --------------------------------------------------------------

  function PaidPrice(): Sale -> int {
    (s: Sale) => if s.status.Paid? then s.price else 0
  }

  function PendingPrice(): Sale -> int {
    (s: Sale) => if s.status.Pending? then s.price else 0
  }

  function PaymentAmount(): Payment -> int {
    (p: Payment) => p.amount
  }

  function EntryAmount(): Entry -> int {
    (r: Entry) => r.amount
  }

  function AdjustmentAmount(): Entry -> int {
    (r: Entry) => if r.kind.AdjustmentEntry? then r.amount else 0
  }

  /** Charges and adjustments raise the balance, payments and reversals lower it. */
  function SignedAmount(r: Entry): Cents {
    if r.kind.ChargeEntry? || r.kind.AdjustmentEntry? then r.amount else -r.amount
  }

  function Signed(): Entry -> int {
    (r: Entry) => SignedAmount(r)
  }

  function PaidTotal(b: Book): Cents {
    Sum(b.sales, PaidPrice())
  }

  function PendingTotal(b: Book): Cents {
    Sum(b.sales, PendingPrice())
  }

  function PaymentsTotal(b: Book): Cents {
    Sum(b.payments, PaymentAmount())
  }

  function Adjustments(b: Book): Cents {
    Sum(b.ledger, AdjustmentAmount())
  }

  predicate ChargesSale(i: nat, r: Entry) {
    r.kind.ChargeEntry? && r.sale == Some(i)
  }

  function IsChargeOf(i: nat): Entry -> bool {
    (r: Entry) => ChargesSale(i, r)
  }

  function MirrorsPayment(id: PaymentId): Entry -> bool {
    (r: Entry) => r.payment == Some(id)
  }

  function HasId(id: PaymentId): Payment -> bool {
    (p: Payment) => p.id == id
  }

  // ---- the settlement pass ---------------------------------------------------

  /** Debt that payments must cover before any sale: net adjustments, or slack in the balance. */
  function Reserve(b: Book): Cents {
    Max(Max(0, Adjustments(b)), Max(0, b.balance - PendingTotal(b)))
  }

  function Headroom(b: Book): Cents {
    PaymentsTotal(b) - PaidTotal(b) - Reserve(b)
  }

  function Stamped(s: Sale, payer: Payment): Sale {
    s.(status := Paid, stamp := Some(payer.id), rail := payer.rail)
  }

  /** Oldest first, stop at the first pending sale that does not fit. */
  function Settle(sales: seq<Sale>, available: Cents, payer: Payment): seq<Sale> {
    if |sales| == 0 then []
    else if !sales[0].status.Pending? then [sales[0]] + Settle(sales[1..], available, payer)
    else if sales[0].price > available then sales
    else [Stamped(sales[0], payer)] + Settle(sales[1..], available - sales[0].price, payer)
  }

  /** The payment to stamp: the triggering one, else the newest. */
  function SettlingPayment(b: Book, trigger: Option<Payment>): Option<Payment> {
    if trigger.Some? then trigger
    else if |b.payments| > 0 then Some(b.payments[|b.payments| - 1])
    else None
  }

  function Reapply(b: Book, trigger: Option<Payment>): Book {
    var payer := SettlingPayment(b, trigger);
    if Headroom(b) <= 0 || payer.None? then b
    else b.(sales := Settle(b.sales, Headroom(b), payer.value))
  }

  // ---- sales -------------------------------------------------------------------

  /** A new on-account sale waits for approval; nothing is charged yet. */
  function AddSale(b: Book, price: Cents, cost: Cents): Book {
    b.(sales := b.sales + [Sale(Awaiting, price, cost, 0, None, None)])
  }

  function Post(b: Book, i: nat): Result<Book, Fault> {
    if i >= |b.sales| then Failure(NotOnAccount)
    else if !b.sales[i].status.Awaiting? && !b.sales[i].status.Pending? then Failure(NotPostable)
    else
      var posted := b.(sales := b.sales[i := b.sales[i].(status := Pending)]);
      var charged :=
        if Filter(b.ledger, IsChargeOf(i)) != [] then posted
        else posted.(ledger := b.ledger + [Entry(ChargeEntry, b.sales[i].price, Some(i), None)],
                     balance := b.balance + b.sales[i].price);
      Success(Reapply(charged, None))
  }

  /** Put the whole amount on the first CHARGE row of sale `i` and delete its duplicates. */
  function Collapse(ledger: seq<Entry>, i: nat, amount: Cents): seq<Entry> {
    if |ledger| == 0 then []
    else if ChargesSale(i, ledger[0]) then
      [ledger[0].(amount := amount)] + Filter(ledger[1..], Not(IsChargeOf(i)))
    else [ledger[0]] + Collapse(ledger[1..], i, amount)
  }

  function Reopened(s: Sale): Sale {
    s.(status := Pending, stamp := None, rail := None)
  }

  /** `sync_on_account_charge_for_sale`, run after the price of sale `i` was edited. */
  function Sync(b: Book, i: nat): Result<Book, Fault> {
    if i >= |b.sales| || b.sales[i].status in {Awaiting, Cancelled, WrittenOff} then Success(b)
    else
      var charges := Filter(b.ledger, IsChargeOf(i));
      if charges == [] then Success(b)
      else if b.sales[i].price < 0 then Failure(NegativeAmount)
      else
        var delta := b.sales[i].price - Sum(charges, EntryAmount());
        if delta == 0 then Success(b)
        else
          var s := b.sales[i];
          Success(Reapply(b.(ledger := Collapse(b.ledger, i, s.price),
                             balance := b.balance + delta,
                             sales := b.sales[i := if s.status.Paid? then Reopened(s) else s]), None))
  }

  function Reprice(b: Book, i: nat, price: Cents): Result<Book, Fault> {
    if i >= |b.sales| then Failure(NotOnAccount)
    else Sync(b.(sales := b.sales[i := b.sales[i].(price := price)]), i)
  }

  // ---- payments ------------------------------------------------------------------

  function CheckPayment(amount: Cents, rail: Option<MethodId>, viaEmployee: bool, recipient: Option<Staff.EmployeeId>)
    : Option<Fault>
  {
    if amount <= 0 then Some(AmountNotPositive)
    else if viaEmployee && recipient.None? then Some(RecipientRequired)
    else if !viaEmployee && rail.None? then Some(MethodRequired)
    else None
  }

  /** The payment row a call would create: an employee-held payment has no rail of its own. */
  function NewPayment(b: Book, amount: Cents, rail: Option<MethodId>, viaEmployee: bool, recipient: Option<Staff.EmployeeId>)
    : Payment
  {
    Payment(b.lastPayment + 1, amount, if viaEmployee then None else rail, if viaEmployee then recipient else None)
  }

  /** Payment row, ledger row and balance, before the employee book and the settlement. */
  function Booked(b: Book, p: Payment): Book {
    b.(payments := b.payments + [p],
       lastPayment := p.id,
       ledger := b.ledger + [Entry(PaymentEntry, p.amount, None, Some(p.id))],
       balance := b.balance - p.amount)
  }

  /** The employee who holds the money is debited. */
  function HeldBy(office: Staff.Office, p: Payment): Result<Staff.Office, Staff.Fault> {
    if p.recipient.None? then Success(office)
    else Staff.RecordCustomerPayment(office, p.id, p.amount, p.recipient.value)
  }

  function GivenBack(office: Staff.Office, p: Payment): Result<Staff.Office, Staff.Fault> {
    if p.recipient.None? then Success(office)
    else Staff.ReverseCustomerPayment(office, p.id, p.recipient)
  }

  function Pay(b: Book, amount: Cents, rail: Option<MethodId>, viaEmployee: bool, recipient: Option<Staff.EmployeeId>)
    : Result<Book, Fault>
  {
    var fault := CheckPayment(amount, rail, viaEmployee, recipient);
    if fault.Some? then Failure(fault.value)
    else
      var p := NewPayment(b, amount, rail, viaEmployee, recipient);
      match HeldBy(b.office, p)
      case Failure(e) => Failure(StaffFault(e))
      case Success(office) => Success(Reapply(Booked(b, p).(office := office), Some(p)))
  }

  /** Another customer pays: the id sequence moves on, and an employee may hold the money. */
  function PayElsewhere(b: Book, amount: Cents, recipient: Option<Staff.EmployeeId>): Result<Book, Fault> {
    var p := Payment(b.lastPayment + 1, amount, None, recipient);
    if amount <= 0 then Failure(AmountNotPositive)
    else
      match HeldBy(b.office, p)
      case Failure(e) => Failure(StaffFault(e))
      case Success(office) => Success(b.(office := office, lastPayment := p.id))
  }

  function FindPayment(payments: seq<Payment>, id: PaymentId): (p: Option<Payment>)
    ensures p.Some? ==> p.value in payments && p.value.id == id
    ensures p.None? ==> forall q :: q in payments ==> q.id != id
  {
    if |payments| == 0 then None
    else if payments[0].id == id then Some(payments[0])
    else FindPayment(payments[1..], id)
  }

  /** A deleted payment reopens the sales it settled; other references to it become null. */
  function Unsettled(s: Sale, id: PaymentId): Sale {
    if s.stamp != Some(id) then s
    else if s.status.Paid? then Reopened(s)
    else s.(stamp := None)
  }

  function UnsettleAll(sales: seq<Sale>, id: PaymentId): seq<Sale> {
    seq(|sales|, i requires 0 <= i < |sales| => Unsettled(sales[i], id))
  }

  function Unlinked(subs: seq<Submission>, id: PaymentId): seq<Submission> {
    seq(|subs|, i requires 0 <= i < |subs| =>
      if subs[i].result == Some(id) then subs[i].(result := None) else subs[i])
  }

  /** Everything `delete_customer_payment` removes, before the pass runs again. */
  function Withdrawn(b: Book, p: Payment, office: Staff.Office): Book {
    b.(sales := UnsettleAll(b.sales, p.id),
       ledger := Filter(b.ledger, Not(MirrorsPayment(p.id))),
       office := office,
       balance := b.balance + p.amount,
       payments := Filter(b.payments, Not(HasId(p.id))),
       submissions := Unlinked(b.submissions, p.id))
  }

  function DeletePayment(b: Book, id: PaymentId): Result<Book, Fault> {
    match FindPayment(b.payments, id)
    case None => Failure(NoSuchRow)
    case Some(p) =>
      match GivenBack(b.office, p)
      case Failure(e) => Failure(StaffFault(e))
      case Success(office) => Success(Reapply(Withdrawn(b, p, office), None))
  }

  // ---- payment submissions ---------------------------------------------------------

  function Submit(b: Book, amount: Cents, rail: Option<MethodId>, viaEmployee: bool, recipient: Option<Staff.EmployeeId>)
    : Result<Book, Fault>
  {
    var fault := CheckPayment(amount, rail, viaEmployee, recipient);
    if !b.active then Failure(CustomerInactive)
    else if fault.Some? then Failure(fault.value)
    else
      Success(b.(submissions := b.submissions + [
        Submission(Submitted, amount, if viaEmployee then None else rail, if viaEmployee then recipient else None, None)]))
  }

  function Approve(b: Book, k: nat): Result<Book, Fault> {
    if k >= |b.submissions| then Failure(NoSuchRow)
    else if !b.submissions[k].status.Submitted? then Failure(NotAwaiting)
    else
      var s := b.submissions[k];
      match Pay(b, s.amount, s.rail, s.recipient.Some?, s.recipient)
      case Failure(e) => Failure(e)
      case Success(paid) =>
        Success(paid.(submissions := paid.submissions[k := s.(status := Approved, result := Some(b.lastPayment + 1))]))
  }

  function Reject(b: Book, k: nat): Result<Book, Fault> {
    if k >= |b.submissions| then Failure(NoSuchRow)
    else if !b.submissions[k].status.Submitted? then Failure(NotAwaiting)
    else Success(b.(submissions := b.submissions[k := b.submissions[k].(status := Rejected)]))
  }

  // ---- corrections -----------------------------------------------------------------

  function Adjust(b: Book, amount: Cents): Result<Book, Fault> {
    if amount == 0 then Failure(ZeroAmount)
    else Success(Reapply(b.(ledger := b.ledger + [Entry(AdjustmentEntry, amount, None, None)],
                            balance := b.balance + amount), None))
  }

  function WrittenOffSale(s: Sale): Sale {
    if s.status.Pending? then s.(status := WrittenOff, loss := s.cost) else s
  }

  function WriteOffAll(sales: seq<Sale>): seq<Sale> {
    seq(|sales|, i requires 0 <= i < |sales| => WrittenOffSale(sales[i]))
  }

  /** One REVERSAL row per pending sale among the first `n`, newest sale first. */
  function Reversals(sales: seq<Sale>, n: nat): seq<Entry>
    requires n <= |sales|
  {
    if n == 0 then []
    else
      (if sales[n - 1].status.Pending? then [Entry(ReversalEntry, sales[n - 1].price, Some(n - 1), None)] else [])
      + Reversals(sales, n - 1)
  }

  function WriteOff(b: Book): Book {
    var reversed := b.(sales := WriteOffAll(b.sales),
                       ledger := b.ledger + Reversals(b.sales, |b.sales|),
                       balance := b.balance - PendingTotal(b));
    var leftover := reversed.balance;
    var cleared :=
      if leftover > 0 then
        reversed.(ledger := reversed.ledger + [Entry(AdjustmentEntry, -leftover, None, None)], balance := 0)
      else reversed;
    cleared.(active := false)
  }

  /** Remove one ledger row; the mirror row of a live payment is refused. No pass runs. */
  function DeleteEntry(b: Book, k: nat): Result<Book, Fault> {
    if k >= |b.ledger| then Failure(NoSuchRow)
    else if b.ledger[k].kind.PaymentEntry? && b.ledger[k].payment.Some? then Failure(MirrorRow)
    else Success(b.(ledger := b.ledger[..k] + b.ledger[k + 1..], balance := b.balance - SignedAmount(b.ledger[k])))
  }

  /** `employees.services.delete_ledger_entry`: a mirror row takes the whole customer payment with it. */
  function DeleteStaffRow(b: Book, k: nat): Result<Book, Fault> {
    if k >= |b.office.rows| then Failure(NoSuchRow)
    else if b.office.rows[k].kind.CustomerPayment? && b.office.rows[k].payment.Some? then
      var id := b.office.rows[k].payment.value;
      if FindPayment(b.payments, id).Some? then DeletePayment(b, id)
      else
        // The payment is on another customer's account, and here only the office changes.
        match Staff.ReverseCustomerPayment(b.office, id, Some(b.office.rows[k].employee))
        case Failure(e) => Failure(StaffFault(e))
        case Success(office) => Success(b.(office := office))
    else
      match Staff.DeleteRow(b.office, k)
      case Failure(e) => Failure(StaffFault(e))
      case Success(office) => Success(b.(office := office))
  }
}
