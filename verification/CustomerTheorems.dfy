/** What the account services promise, over whole runs and between calls. */
module CustomerTheorems {
  import opened Wrappers
  import opened Sums
  import opened Receivables
  import opened SettlementPass
  import opened CustomerRuns
  import Staff

  // ---- deleting a payment undoes recording it ---------------------------------

  lemma OfficeRestored(office: Staff.Office, p: Payment)
    requires HeldBy(office, p).Success?
    requires forall r :: r in office.rows ==> r.payment != Some(p.id)
    ensures GivenBack(HeldBy(office, p).value, p) == Success(office)
  {
    if p.recipient.Some? {
      FilterNone(office.rows, Staff.OfCustomerPayment(p.id));
      var row := Staff.Row(p.recipient.value, Staff.CustomerPayment, -p.amount, None, None, Some(p.id));
      assert HeldBy(office, p) == Success(Staff.AddRow(office, row));
      Staff.ReverseUndoesAddRow(office, row, Staff.OfCustomerPayment(p.id));
    }
  }

  lemma SalesRestored(b: Book, paid: Book, p: Payment)
    requires SalesSound(b) && p.id == b.lastPayment + 1 && paid.sales == b.sales
    ensures UnsettleAll(Reapply(paid, Some(p)).sales, p.id) == b.sales
  {
    SettlesTheFittingPrefix(b.sales, Headroom(paid), p);
    forall i | 0 <= i < |b.sales|
      ensures Unsettled(Reapply(paid, Some(p)).sales[i], p.id) == b.sales[i]
    {
      assert b.sales[i] in b.sales;
    }
  }

  lemma RowsRestored(b: Book, p: Payment)
    requires Sound(b) && p.id == b.lastPayment + 1
    ensures Filter(Booked(b, p).payments, Not(HasId(p.id))) == b.payments
    ensures Filter(Booked(b, p).ledger, Not(MirrorsPayment(p.id))) == b.ledger
    ensures FindPayment(Booked(b, p).payments, p.id) == Some(p)
  {
    FilterAppend(b.payments, p, Not(HasId(p.id)));
    FilterAll(b.payments, Not(HasId(p.id)));
    FilterAppend(b.ledger, Entry(PaymentEntry, p.amount, None, Some(p.id)), Not(MirrorsPayment(p.id)));
    FilterAll(b.ledger, Not(MirrorsPayment(p.id)));
    FindAppended(b.payments, p);
  }

  lemma SubmissionsRestored(b: Book, id: PaymentId)
    requires SubmissionsSound(b) && id > b.lastPayment
    ensures Unlinked(b.submissions, id) == b.submissions
  {
    forall k | 0 <= k < |b.submissions|
      ensures Unlinked(b.submissions, id)[k] == b.submissions[k]
    {
      assert b.submissions[k] in b.submissions;
    }
  }

  lemma PassOnlySettles(b: Book, trigger: Option<Payment>)
    ensures Reapply(b, trigger) == b.(sales := Reapply(b, trigger).sales)
  {
  }

  lemma WithdrawnRestores(b: Book, p: Payment, booked: Book)
    requires Sound(b) && p.id == b.lastPayment + 1 && HeldBy(b.office, p).Success?
    requires booked == Booked(b, p).(office := HeldBy(b.office, p).value)
    ensures Withdrawn(Reapply(booked, Some(p)), p, b.office) == b.(lastPayment := p.id)
  {
    RowsRestored(b, p);
    SubmissionsRestored(b, p.id);
    SalesRestored(b, booked, p);
    PassOnlySettles(booked, Some(p));
  }

  lemma PassIgnoresTheIdSequence(b: Book, id: PaymentId)
    requires Reapply(b, None) == b
    ensures Reapply(b.(lastPayment := id), None) == b.(lastPayment := id)
  {
  }

  /**
   * On books where the pass has nothing to do, recording a payment and deleting it again puts
   * back the sales with their stamps, the ledger, the balance, the submissions and the employee
   * books, whichever sales the payment had settled. Only the id sequence has moved on.
   */
  lemma DeletionUndoesPayment(b: Book, amount: Cents, rail: Option<MethodId>, via: bool, recipient: Option<Staff.EmployeeId>, paid: Book)
    requires Sound(b) && Reapply(b, None) == b
    requires Pay(b, amount, rail, via, recipient) == Success(paid)
    ensures DeletePayment(paid, b.lastPayment + 1) == Success(b.(lastPayment := b.lastPayment + 1))
  {
    var p := NewPayment(b, amount, rail, via, recipient);
    PaidIsBooked(b, amount, rail, via, recipient, paid);
    DeletionUndoesBooking(b, p, Booked(b, p).(office := HeldBy(b.office, p).value), paid);
  }

  lemma PaidIsBooked(b: Book, amount: Cents, rail: Option<MethodId>, via: bool, recipient: Option<Staff.EmployeeId>, paid: Book)
    requires Pay(b, amount, rail, via, recipient) == Success(paid)
    ensures var p := NewPayment(b, amount, rail, via, recipient);
            && HeldBy(b.office, p).Success?
            && paid == Reapply(Booked(b, p).(office := HeldBy(b.office, p).value), Some(p))
  {
  }

  lemma DeletionUndoesBooking(b: Book, p: Payment, booked: Book, paid: Book)
    requires Sound(b) && Reapply(b, None) == b && p.id == b.lastPayment + 1 && HeldBy(b.office, p).Success?
    requires booked == Booked(b, p).(office := HeldBy(b.office, p).value) && paid == Reapply(booked, Some(p))
    ensures DeletePayment(paid, b.lastPayment + 1) == Success(b.(lastPayment := b.lastPayment + 1))
  {
    PaymentIsGivenBack(b, p, booked);
    WithdrawnRestores(b, p, booked);
    PassIgnoresTheIdSequence(b, p.id);
  }

  /** Deleting the payment finds it, and the employee gives the money back. */
  lemma PaymentIsGivenBack(b: Book, p: Payment, booked: Book)
    requires Sound(b) && p.id == b.lastPayment + 1 && HeldBy(b.office, p).Success?
    requires booked == Booked(b, p).(office := HeldBy(b.office, p).value)
    ensures var paid := Reapply(booked, Some(p));
            DeletePayment(paid, p.id) == Success(Reapply(Withdrawn(paid, p, b.office), None))
  {
    OfficeRestored(b.office, p);
    RowsRestored(b, p);
    PassOnlySettles(booked, Some(p));
  }

  lemma FindAppended(payments: seq<Payment>, p: Payment)
    requires forall q :: q in payments ==> q.id != p.id
    ensures FindPayment(payments + [p], p.id) == Some(p)
  {
    if |payments| > 0 {
      assert (payments + [p])[1..] == payments[1..] + [p];
      FindAppended(payments[1..], p);
    }
  }

  // ---- charges that match the sales ----------------------------------------------

  /** The signed amount of the rows that name sale `i`. */
  function NetOfSale(i: nat): Entry -> int {
    (r: Entry) => if r.sale == Some(i) then SignedAmount(r) else 0
  }

  function FaceDue(): Sale -> int {
    (s: Sale) => if s.status.Pending? || s.status.Paid? then s.price else 0
  }

  /** A posted sale is charged its price; a sale never posted, or closed, nets to nothing. */
  ghost predicate ChargeHolds(sale: Sale, ledger: seq<Entry>, i: nat) {
    match sale.status
    case Awaiting => forall r :: r in ledger ==> r.sale != Some(i)
    case Pending => PostedRowsHold(sale, ledger, i)
    case Paid => PostedRowsHold(sale, ledger, i)
    case _ => Sum(ledger, NetOfSale(i)) == 0
  }

  ghost predicate PostedRowsHold(sale: Sale, ledger: seq<Entry>, i: nat) {
    && Sum(ledger, NetOfSale(i)) == sale.price
    && (exists r :: r in ledger && ChargesSale(i, r))
    && (forall r :: r in ledger && r.sale == Some(i) ==> r.kind.ChargeEntry?)
  }

  /** Charges and reversals name a sale of this customer (no orphans); other rows name none. */
  ghost predicate NoOrphans(ledger: seq<Entry>, n: nat) {
    forall r :: r in ledger ==>
      if r.kind.ChargeEntry? || r.kind.ReversalEntry? then r.sale.Some? && r.sale.value < n else r.sale.None?
  }

  ghost predicate ChargesHold(sales: seq<Sale>, ledger: seq<Entry>) {
    && NoOrphans(ledger, |sales|)
    && (forall i :: 0 <= i < |sales| ==> ChargeHolds(sales[i], ledger, i))
  }

  ghost predicate ChargesMatch(b: Book) {
    ChargesHold(b.sales, b.ledger)
  }

  ghost predicate PricesHold(sales: seq<Sale>) {
    forall s :: s in sales ==> s.price >= 0
  }

  ghost predicate PricesNonNegative(b: Book) {
    PricesHold(b.sales)
  }

  ghost predicate Clean(b: Book) {
    Sound(b) && ChargesMatch(b) && PricesNonNegative(b) && PaidTotal(b) <= PaymentsTotal(b)
  }

  // ---- the reserve of clean books -------------------------------------------------

  function NetOfFirst(n: nat): Entry -> int {
    (r: Entry) => if r.sale.Some? && r.sale.value < n then SignedAmount(r) else 0
  }

  lemma SaleNet(b: Book, i: nat)
    requires ChargesMatch(b) && i < |b.sales|
    ensures Sum(b.ledger, NetOfSale(i)) == FaceDue()(b.sales[i])
  {
    assert ChargeHolds(b.sales[i], b.ledger, i);
    if b.sales[i].status.Awaiting? {
      SumZero(b.ledger, NetOfSale(i));
    }
  }

  /** Counting the ledger sale by sale gives what the posted sales are worth. */
  lemma {:induction false} LedgerBySale(b: Book, n: nat)
    requires ChargesMatch(b) && n <= |b.sales|
    ensures Sum(b.ledger, NetOfFirst(n)) == Sum(b.sales[..n], FaceDue())
  {
    if n == 0 {
      SumZero(b.ledger, NetOfFirst(0));
    } else {
      LedgerBySale(b, n - 1);
      SaleNet(b, n - 1);
      SumCombine(b.ledger, NetOfFirst(n - 1), NetOfSale(n - 1), NetOfFirst(n));
      assert b.sales[..n] == b.sales[..n - 1] + [b.sales[n - 1]];
      SumAppend(b.sales[..n - 1], b.sales[n - 1], FaceDue());
    }
  }

  lemma {:induction false} SignedBySource(b: Book, ledger: seq<Entry>)
    requires forall r :: r in ledger ==>
      if r.kind.ChargeEntry? || r.kind.ReversalEntry? then r.sale.Some? && r.sale.value < |b.sales| else r.sale.None?
    ensures Sum(ledger, Signed())
         == Sum(ledger, NetOfFirst(|b.sales|)) + Sum(ledger, AdjustmentAmount()) - Sum(ledger, PaymentRowAmount())
  {
    if |ledger| > 0 {
      SignedBySource(b, ledger[1..]);
    }
  }

  /** With every posted sale charged its price, the balance is what is posted and adjusted less what was paid. */
  lemma BalanceOfMatchingCharges(b: Book)
    requires Sound(b) && ChargesMatch(b)
    ensures b.balance == PaidTotal(b) + PendingTotal(b) + Adjustments(b) - PaymentsTotal(b)
  {
    SignedBySource(b, b.ledger);
    LedgerBySale(b, |b.sales|);
    assert b.sales[..|b.sales|] == b.sales;
    SumCombine(b.sales, PaidPrice(), PendingPrice(), FaceDue());
  }

  /** The two-way maximum of the reserve then collapses to the net adjustments alone. */
  lemma ReserveCollapses(b: Book)
    requires Sound(b) && ChargesMatch(b) && PaidTotal(b) <= PaymentsTotal(b)
    ensures Reserve(b) == Max(0, Adjustments(b))
  {
    BalanceOfMatchingCharges(b);
  }

  // ---- operations keep the books clean ----------------------------------------------

  lemma PassKeepsClean(b: Book, trigger: Option<Payment>)
    requires Sound(b) && ChargesMatch(b) && PricesNonNegative(b) && PaidTotal(b) <= PaymentsTotal(b)
    requires trigger.Some? ==> trigger.value.id <= b.lastPayment
    ensures Clean(Reapply(b, trigger))
  {
    PassKeepsSound(b, trigger);
    if Reapply(b, trigger) != b {
      SettlingRespectsTheAdjustmentReserve(b, trigger);
      SettlingKeepsCharges(b.sales, b.ledger, Headroom(b), SettlingPayment(b, trigger).value);
      SettlingKeepsPrices(b.sales, Headroom(b), SettlingPayment(b, trigger).value);
    }
  }

  lemma SettlingKeepsCharges(sales: seq<Sale>, ledger: seq<Entry>, available: Cents, payer: Payment)
    requires ChargesHold(sales, ledger)
    ensures ChargesHold(Settle(sales, available, payer), ledger)
  {
    SettlesTheFittingPrefix(sales, available, payer);
    forall i | 0 <= i < |sales| ensures ChargeHolds(Settle(sales, available, payer)[i], ledger, i) {
      assert ChargeHolds(sales[i], ledger, i);
    }
  }

  lemma SettlingKeepsPrices(sales: seq<Sale>, available: Cents, payer: Payment)
    requires PricesHold(sales)
    ensures PricesHold(Settle(sales, available, payer))
  {
    SettlesTheFittingPrefix(sales, available, payer);
    forall s | s in Settle(sales, available, payer) ensures s.price >= 0 {
      var i :| 0 <= i < |sales| && Settle(sales, available, payer)[i] == s;
      assert sales[i] in sales;
    }
  }

  /** A sale whose own rows, status class and price are as before is charged as before. */
  lemma SameRowsSameCharge(b: Book, b': Book, j: nat)
    requires j < |b.sales| && j < |b'.sales| && ChargeHolds(b.sales[j], b.ledger, j)
    requires b'.sales[j].status == b.sales[j].status && b'.sales[j].price == b.sales[j].price
    requires Sum(b'.ledger, NetOfSale(j)) == Sum(b.ledger, NetOfSale(j))
    requires forall r: Entry :: r.sale == Some(j) ==> (r in b'.ledger <==> r in b.ledger)
    ensures ChargeHolds(b'.sales[j], b'.ledger, j)
  {
  }

  /** A new row that names no sale leaves every sale's rows alone. */
  lemma OtherRowKeepsCharges(b: Book, r: Entry, b': Book)
    requires ChargesMatch(b) && b'.sales == b.sales && b'.ledger == b.ledger + [r]
    requires r.sale.None? && !r.kind.ChargeEntry? && !r.kind.ReversalEntry?
    ensures ChargesMatch(b')
  {
    forall i | 0 <= i < |b'.sales|
      ensures ChargeHolds(b'.sales[i], b'.ledger, i)
    {
      assert ChargeHolds(b.sales[i], b.ledger, i);
      SumAppend(b.ledger, r, NetOfSale(i));
      SameRowsSameCharge(b, b', i);
    }
  }

  lemma AdjustKeepsClean(b: Book, amount: Cents)
    requires Clean(b)
    ensures Clean(Adjust(b, amount).Or(b))
  {
    if amount != 0 {
      var r := Entry(AdjustmentEntry, amount, None, None);
      var b' := b.(ledger := b.ledger + [r], balance := b.balance + amount);
      AppendEntryKeepsLedger(b, r, b');
      OtherRowKeepsCharges(b, r, b');
      PassKeepsClean(b', None);
    }
  }

  lemma PayKeepsClean(b: Book, amount: Cents, rail: Option<MethodId>, via: bool, recipient: Option<Staff.EmployeeId>)
    requires Clean(b)
    ensures Clean(Pay(b, amount, rail, via, recipient).Or(b))
  {
    if Pay(b, amount, rail, via, recipient).Success? {
      var p := NewPayment(b, amount, rail, via, recipient);
      var booked := BookedIsClean(b, p);
      PassKeepsClean(booked, Some(p));
    }
  }

  /** The state a payment runs the pass on. */
  lemma BookedIsClean(b: Book, p: Payment) returns (booked: Book)
    requires Clean(b) && p.id == b.lastPayment + 1 && p.amount > 0 && HeldBy(b.office, p).Success?
    ensures booked == Booked(b, p).(office := HeldBy(b.office, p).value)
    ensures Clean(booked)
  {
    booked := Booked(b, p).(office := HeldBy(b.office, p).value);
    HeldByKeepsSound(b, p);
    OtherRowKeepsCharges(b, Entry(PaymentEntry, p.amount, None, Some(p.id)), booked);
    SumAppend(b.payments, p, PaymentAmount());
  }

  /** Books with the same customer side are as clean. */
  lemma SameAccountSameClean(b: Book, b': Book)
    requires Clean(b) && Sound(b')
    requires b'.sales == b.sales && b'.ledger == b.ledger && b'.payments == b.payments
    ensures Clean(b')
  {
    forall i | 0 <= i < |b'.sales| ensures ChargeHolds(b'.sales[i], b'.ledger, i) {
      assert ChargeHolds(b.sales[i], b.ledger, i);
      SameRowsSameCharge(b, b', i);
    }
  }

  lemma ApproveKeepsClean(b: Book, k: nat)
    requires Clean(b)
    ensures Clean(Approve(b, k).Or(b))
  {
    if Approve(b, k).Success? {
      var s := b.submissions[k];
      ApproveIsPay(b, k);
      PayKeepsClean(b, s.amount, s.rail, s.recipient.Some?, s.recipient);
      ApproveKeepsSound(b, k);
      SameAccountSameClean(Pay(b, s.amount, s.rail, s.recipient.Some?, s.recipient).value, Approve(b, k).value);
    }
  }

  /** A first posting adds the charge of that sale and nothing else. */
  lemma FirstPostingKeepsCharges(b: Book, i: nat, charged: Book)
    requires ChargesMatch(b) && i < |b.sales| && b.sales[i].status.Awaiting?
    requires charged.sales == b.sales[i := b.sales[i].(status := Pending)]
    requires charged.ledger == b.ledger + [Entry(ChargeEntry, b.sales[i].price, Some(i), None)]
    ensures ChargesMatch(charged)
  {
    var r := Entry(ChargeEntry, b.sales[i].price, Some(i), None);
    forall j | 0 <= j < |b.sales|
      ensures ChargeHolds(charged.sales[j], charged.ledger, j)
    {
      assert ChargeHolds(b.sales[j], b.ledger, j);
      SumAppend(b.ledger, r, NetOfSale(j));
      if j == i {
        SumZero(b.ledger, NetOfSale(i));
        assert r in charged.ledger && ChargesSale(i, r);
        assert PostedRowsHold(charged.sales[i], charged.ledger, i);
      } else {
        SameRowsSameCharge(b, charged, j);
      }
    }
  }

  lemma FirstPostingKeepsSound(b: Book, i: nat, charged: Book)
    requires Sound(b) && i < |b.sales| && b.sales[i].status.Awaiting?
    requires charged == b.(sales := b.sales[i := b.sales[i].(status := Pending)],
                           ledger := b.ledger + [Entry(ChargeEntry, b.sales[i].price, Some(i), None)],
                           balance := b.balance + b.sales[i].price)
    ensures Sound(charged) && Adjustments(charged) == Adjustments(b)
  {
    var r := Entry(ChargeEntry, b.sales[i].price, Some(i), None);
    assert b.sales[i] in b.sales;
    AppendEntryKeepsLedger(b, r, charged);
    SumAppend(b.ledger, r, AdjustmentAmount());
  }

  /** On clean books a sale has CHARGE rows exactly once it is posted. */
  lemma ChargedOncePosted(b: Book, i: nat)
    requires ChargesMatch(b) && i < |b.sales|
    ensures b.sales[i].status.Awaiting? ==> Filter(b.ledger, IsChargeOf(i)) == []
    ensures b.sales[i].status.Pending? || b.sales[i].status.Paid? ==> Filter(b.ledger, IsChargeOf(i)) != []
  {
    assert ChargeHolds(b.sales[i], b.ledger, i);
    if b.sales[i].status.Awaiting? {
      FilterNone(b.ledger, IsChargeOf(i));
    } else if b.sales[i].status.Pending? || b.sales[i].status.Paid? {
      FilterMembers(b.ledger, IsChargeOf(i));
      var r :| r in b.ledger && ChargesSale(i, r);
      assert r in Filter(b.ledger, IsChargeOf(i));
    }
  }

  /** The state `Post` runs the pass on; posting a pending sale again charges nothing more. */
  lemma PostedStateIsClean(b: Book, i: nat) returns (charged: Book)
    requires Clean(b) && Post(b, i).Success?
    ensures Post(b, i) == Success(Reapply(charged, None))
    ensures Clean(charged) && Adjustments(charged) == Adjustments(b)
    ensures charged.payments == b.payments && charged.sales == b.sales[i := b.sales[i].(status := Pending)]
  {
    ChargedOncePosted(b, i);
    if b.sales[i].status.Pending? {
      charged := b;
      assert b.sales[i := b.sales[i].(status := Pending)] == b.sales;
    } else {
      charged := ChargedState(b, i);
      ChargedStateIsClean(b, i);
    }
  }

  function ChargedState(b: Book, i: nat): Book
    requires i < |b.sales|
  {
    b.(sales := b.sales[i := b.sales[i].(status := Pending)],
       ledger := b.ledger + [Entry(ChargeEntry, b.sales[i].price, Some(i), None)],
       balance := b.balance + b.sales[i].price)
  }

  lemma ChargedStateIsClean(b: Book, i: nat)
    requires Clean(b) && i < |b.sales| && b.sales[i].status.Awaiting?
    ensures Clean(ChargedState(b, i)) && Adjustments(ChargedState(b, i)) == Adjustments(b)
  {
    var charged := ChargedState(b, i);
    FirstPostingKeepsSound(b, i, charged);
    FirstPostingKeepsCharges(b, i, charged);
    assert b.sales[i] in b.sales;
    SumUpdate(b.sales, i, b.sales[i].(status := Pending), PaidPrice());
  }

  lemma PostKeepsClean(b: Book, i: nat)
    requires Clean(b)
    ensures Clean(Post(b, i).Or(b))
  {
    if Post(b, i).Success? {
      var charged := PostedStateIsClean(b, i);
      PassKeepsClean(charged, None);
    }
  }

  /**
   * Syncing an edited sale restores the match from any state: whatever CHARGE rows the sale had,
   * duplicates included, they end up totalling its price.
   */
  lemma SyncRestoresTheCharge(b: Book, i: nat)
    requires i < |b.sales| && (b.sales[i].status.Pending? || b.sales[i].status.Paid?)
    requires Filter(b.ledger, IsChargeOf(i)) != [] && b.sales[i].price >= 0
    ensures Sync(b, i).Success?
    ensures Sum(Filter(Sync(b, i).value.ledger, IsChargeOf(i)), EntryAmount()) == b.sales[i].price
  {
    var charges := Filter(b.ledger, IsChargeOf(i));
    var price := b.sales[i].price;
    if Sum(charges, EntryAmount()) != price {
      var ledger' := Collapse(b.ledger, i, price);
      assert Sync(b, i).value.ledger == ledger';
      CollapseSum(b.ledger, i, price, ChargeOn(i));
      FilterMembers(b.ledger, IsChargeOf(i));
      SumAgree(charges, ChargeOn(i), EntryAmount());
      ChargeOnIsFilter(b.ledger, i);
      ChargeOnIsFilter(ledger', i);
    }
  }

  function ChargeOn(i: nat): Entry -> int {
    (r: Entry) => if ChargesSale(i, r) then r.amount else 0
  }

  lemma ChargeOnIsFilter(ledger: seq<Entry>, i: nat)
    ensures Sum(ledger, ChargeOn(i)) == Sum(Filter(ledger, IsChargeOf(i)), EntryAmount())
  {
    if |ledger| > 0 {
      ChargeOnIsFilter(ledger[1..], i);
      SumCons(ledger[0], Filter(ledger[1..], IsChargeOf(i)), EntryAmount());
    }
  }

  lemma RepriceKeepsClean(b: Book, i: nat, price: Cents)
    requires Clean(b) && price >= 0
    ensures Clean(Reprice(b, i, price).Or(b))
  {
    if i < |b.sales| {
      if b.sales[i].status.Pending? || b.sales[i].status.Paid? {
        PostedSaleRepriced(b, i, price);
      } else {
        ClosedSaleRepriced(b, i, price);
      }
    }
  }

  lemma ClosedSaleRepriced(b: Book, i: nat, price: Cents)
    requires Clean(b) && price >= 0 && i < |b.sales|
    requires !b.sales[i].status.Pending? && !b.sales[i].status.Paid?
    ensures Clean(Reprice(b, i, price).Or(b))
  {
    var s := b.sales[i].(price := price);
    var edited := b.(sales := b.sales[i := s]);
    assert Reprice(b, i, price) == Success(edited);
    RepriceKeepsSound(b, i, price);
    SumUpdate(b.sales, i, s, PaidPrice());
    assert ChargesMatch(edited) by {
      forall j | 0 <= j < |b.sales| ensures ChargeHolds(edited.sales[j], edited.ledger, j) {
        assert ChargeHolds(b.sales[j], b.ledger, j);
        if j != i {
          SameRowsSameCharge(b, edited, j);
        }
      }
    }
  }

  lemma CollapseKeepsCharges(b: Book, i: nat, price: Cents, synced: Book)
    requires ChargesMatch(b) && i < |b.sales| && Filter(b.ledger, IsChargeOf(i)) != []
    requires b.sales[i].status.Pending? || b.sales[i].status.Paid?
    requires |synced.sales| == |b.sales| && synced.sales[i].status.Pending? && synced.sales[i].price == price
    requires forall j :: 0 <= j < |b.sales| && j != i ==> synced.sales[j] == b.sales[j]
    requires synced.ledger == Collapse(b.ledger, i, price)
    ensures ChargesMatch(synced)
  {
    var charges := Filter(b.ledger, IsChargeOf(i));
    CollapseContents(b.ledger, i, price);
    FilterMembers(b.ledger, IsChargeOf(i));
    forall j | 0 <= j < |b.sales|
      ensures ChargeHolds(synced.sales[j], synced.ledger, j)
    {
      assert ChargeHolds(b.sales[j], b.ledger, j);
      CollapseSum(b.ledger, i, price, NetOfSale(j));
      if j == i {
        SumAgree(charges, NetOfSale(i), EntryAmount());
        SumAgree(b.ledger, NetOfSale(i), ChargeOn(i));
        ChargeOnIsFilter(b.ledger, i);
        assert FirstCharge(b.ledger, i).(amount := price) in synced.ledger;
        assert PostedRowsHold(synced.sales[i], synced.ledger, i);
      } else {
        SumZero(charges, NetOfSale(j));
        SameRowsSameCharge(b, synced, j);
      }
    }
  }

  lemma ChargedItsPrice(b: Book, i: nat)
    requires ChargesMatch(b) && i < |b.sales| && (b.sales[i].status.Pending? || b.sales[i].status.Paid?)
    ensures Sum(Filter(b.ledger, IsChargeOf(i)), EntryAmount()) == b.sales[i].price
  {
    assert ChargeHolds(b.sales[i], b.ledger, i);
    SumAgree(b.ledger, NetOfSale(i), ChargeOn(i));
    ChargeOnIsFilter(b.ledger, i);
  }

  lemma PostedSaleRepriced(b: Book, i: nat, price: Cents)
    requires Clean(b) && price >= 0 && i < |b.sales|
    requires b.sales[i].status.Pending? || b.sales[i].status.Paid?
    ensures Clean(Reprice(b, i, price).Or(b))
  {
    ChargedOncePosted(b, i);
    ChargedItsPrice(b, i);
    if price == b.sales[i].price {
      assert b.sales[i := b.sales[i].(price := price)] == b.sales;
    } else {
      RepriceIsSynced(b, i, price);
      SyncedIsClean(b, i, price);
      PassKeepsClean(SyncedState(b, i, price), None);
    }
  }

  lemma SyncedIsClean(b: Book, i: nat, price: Cents)
    requires Clean(b) && price >= 0 && i < |b.sales| && Filter(b.ledger, IsChargeOf(i)) != []
    requires b.sales[i].status.Pending? || b.sales[i].status.Paid?
    ensures Clean(SyncedState(b, i, price))
  {
    SyncedKeepsSound(b, i, price);
    CollapseKeepsCharges(b, i, price, SyncedState(b, i, price));
    SyncedKeepsCover(b, i, price);
  }

  lemma RepriceIsSynced(b: Book, i: nat, price: Cents)
    requires i < |b.sales| && price >= 0
    requires b.sales[i].status.Pending? || b.sales[i].status.Paid?
    requires Filter(b.ledger, IsChargeOf(i)) != [] && Sum(Filter(b.ledger, IsChargeOf(i)), EntryAmount()) != price
    ensures Reprice(b, i, price) == Success(Reapply(SyncedState(b, i, price), None))
  {
    var s := b.sales[i].(price := price);
    var s' := if s.status.Paid? then Reopened(s) else s;
    assert b.sales[i := s][i := s'] == b.sales[i := s'];
  }

  lemma SyncedKeepsCover(b: Book, i: nat, price: Cents)
    requires PricesNonNegative(b) && price >= 0 && i < |b.sales| && PaidTotal(b) <= PaymentsTotal(b)
    requires b.sales[i].status.Pending? || b.sales[i].status.Paid?
    ensures var synced := SyncedState(b, i, price);
            PricesNonNegative(synced) && PaidTotal(synced) <= PaymentsTotal(synced)
  {
    assert b.sales[i] in b.sales;
    SumUpdate(b.sales, i, SyncedState(b, i, price).sales[i], PaidPrice());
  }

  lemma {:induction false} ReversalsOfSale(sales: seq<Sale>, n: nat, i: nat)
    requires n <= |sales|
    ensures Sum(Reversals(sales, n), NetOfSale(i)) == if i < n && sales[i].status.Pending? then -sales[i].price else 0
  {
    if n > 0 {
      var r := Entry(ReversalEntry, sales[n - 1].price, Some(n - 1), None);
      ReversalsOfSale(sales, n - 1, i);
      SumCons(r, Reversals(sales, n - 1), NetOfSale(i));
      assert NetOfSale(i)(r) == if i == n - 1 then -sales[i].price else 0;
    }
  }

  lemma WriteOffKeepsCharges(b: Book, reversed: Book)
    requires ChargesMatch(b)
    requires reversed.sales == WriteOffAll(b.sales) && reversed.ledger == b.ledger + Reversals(b.sales, |b.sales|)
    ensures ChargesMatch(reversed)
  {
    var rows := Reversals(b.sales, |b.sales|);
    ReversalsSum(b.sales, |b.sales|);
    forall i | 0 <= i < |b.sales|
      ensures ChargeHolds(reversed.sales[i], reversed.ledger, i)
    {
      assert ChargeHolds(b.sales[i], b.ledger, i);
      SumConcat(b.ledger, rows, NetOfSale(i));
      ReversalsOfSale(b.sales, |b.sales|, i);
      if !b.sales[i].status.Pending? {
        SameRowsSameCharge(b, reversed, i);
      }
    }
  }

  lemma WriteOffKeepsClean(b: Book)
    requires Clean(b)
    ensures Clean(WriteOff(b))
  {
    WriteOffKeepsSound(b);
    WrittenOffCharges(b);
    WriteOffKeepsPrices(b.sales);
    SumSame(b.sales, WriteOffAll(b.sales), PaidPrice(), PaidPrice());
  }

  lemma WrittenOffCharges(b: Book)
    requires ChargesMatch(b)
    ensures ChargesMatch(WriteOff(b))
  {
    var reversed := b.(sales := WriteOffAll(b.sales),
                       ledger := b.ledger + Reversals(b.sales, |b.sales|),
                       balance := b.balance - PendingTotal(b));
    WriteOffKeepsCharges(b, reversed);
    if reversed.balance > 0 {
      OtherRowKeepsCharges(reversed, Entry(AdjustmentEntry, -reversed.balance, None, None), WriteOff(b));
    }
  }

  lemma WriteOffKeepsPrices(sales: seq<Sale>)
    requires PricesHold(sales)
    ensures PricesHold(WriteOffAll(sales))
  {
    forall s | s in WriteOffAll(sales) ensures s.price >= 0 {
      var i :| 0 <= i < |sales| && WriteOffAll(sales)[i] == s;
      assert sales[i] in sales;
    }
  }

  // ---- deleting a payment and the paid total ---------------------------------------

  /** The price of the sales that one payment settled. */
  function SettledBy(id: PaymentId): Sale -> int {
    (s: Sale) => if s.status.Paid? && s.stamp == Some(id) then s.price else 0
  }

  lemma WithdrawnTotals(b: Book, p: Payment, office: Staff.Office)
    requires Sound(b) && p in b.payments
    ensures PaidTotal(Withdrawn(b, p, office)) == PaidTotal(b) - Sum(b.sales, SettledBy(p.id))
    ensures PaymentsTotal(Withdrawn(b, p, office)) == PaymentsTotal(b) - p.amount
  {
    RemovePaymentTotal(b.payments, p);
    UnsettleTotals(b.sales, p.id);
  }

  lemma {:induction false} UnsettleTotals(sales: seq<Sale>, id: PaymentId)
    ensures Sum(UnsettleAll(sales, id), PaidPrice()) == Sum(sales, PaidPrice()) - Sum(sales, SettledBy(id))
  {
    if |sales| > 0 {
      UnsettleTotals(sales[1..], id);
      assert UnsettleAll(sales, id)[1..] == UnsettleAll(sales[1..], id);
    }
  }

  /**
   * Deleting a payment leaves the paid sales covered by the remaining payments exactly when the
   * sales it did not settle were already covered without it.
   */
  lemma DeletionKeepsPaidCoveredIff(b: Book, id: PaymentId)
    requires Sound(b) && DeletePayment(b, id).Success?
    ensures FindPayment(b.payments, id).Some?
    ensures var b' := DeletePayment(b, id).value;
            var others := PaidTotal(b) - Sum(b.sales, SettledBy(id));
            var remaining := PaymentsTotal(b) - FindPayment(b.payments, id).value.amount;
            (PaidTotal(b') <= PaymentsTotal(b')) <==> (others <= remaining)
  {
    var p := FindPayment(b.payments, id).value;
    var w := Withdrawn(b, p, GivenBack(b.office, p).value);
    WithdrawnTotals(b, p, GivenBack(b.office, p).value);
    if Reapply(w, None) != w {
      SettlingRespectsTheAdjustmentReserve(w, None);
    }
  }
}
