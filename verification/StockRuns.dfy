/**
 * Every run of the stock services: the movement log explains every quantity, and the sale-linked
 * movements and cards agree with the sales.
 */
module StockRuns {
  import opened Wrappers
  import opened Sums
  import opened ProductLines
  import opened SimStock

  // ---- runs -----------------------------------------------------------------------

  /** The last three are edits made elsewhere: of product lines, of customers, and of a sale. */
  datatype Op =
    | OpReceive(line: LineId, quantity: int, serials: seq<string>)
    | OpAllocate(customer: CustomerId, line: LineId, quantity: int, serials: seq<string>)
    | OpReturn(customer: CustomerId, line: LineId, quantity: int, serials: seq<string>)
    | OpSetQuantity(pool: Pool, quantity: int, reason: string, requireReason: bool)
    | OpClear(pool: Pool, reason: string)
    | OpAdjust(pool: Pool, delta: int, reason: string)
    | OpDamaged(pool: Pool, quantity: int)
    | OpSellManually(pool: Pool, quantity: int)
    | OpDeleteRow(pool: Pool)
    | OpDeleteMovement(id: MovementId)
    | OpConsume(x: SaleId)
    | OpReverse(x: SaleId)
    | OpEditLines(lines: Lines)
    | OpEditCustomers(customers: seq<Customer>)
    | OpEditSale(x: SaleId, isNewSim: bool, line: LineId, payer: string, serial: string)

  /** A new sale, or an edit of one; neither touches what the stock services wrote. */
  function EditSale(s: Stock, x: SaleId, isNewSim: bool, line: LineId, payer: string, serial: string): Stock {
    var sale := if x in s.sales then s.sales[x] else Sale(isNewSim, line, payer, serial, false, Nowhere, None);
    s.(sales := s.sales[x := sale.(isNewSim := isNewSim, line := line, payer := payer, serial := serial)])
  }

  function Outcome(s: Stock, op: Op): Result<Stock, Fault> {
    match op
    case OpReceive(line, quantity, serials) => Receive(s, line, quantity, serials)
    case OpAllocate(customer, line, quantity, serials) => Allocate(s, customer, line, quantity, serials)
    case OpReturn(customer, line, quantity, serials) => Return(s, customer, line, quantity, serials)
    case OpSetQuantity(pool, quantity, reason, requireReason) => SetQuantity(s, pool, quantity, reason, requireReason)
    case OpClear(pool, reason) => Clear(s, pool, reason)
    case OpAdjust(pool, delta, reason) => Adjust(s, pool, delta, reason)
    case OpDamaged(pool, quantity) => MarkDamaged(s, pool, quantity)
    case OpSellManually(pool, quantity) => SellManually(s, pool, quantity)
    case OpDeleteRow(pool) => DeleteRow(s, pool)
    case OpDeleteMovement(id) => DeleteMovement(s, id)
    case OpConsume(x) => Consume(s, x)
    case OpReverse(x) => Reverse(s, x)
    case OpEditLines(lines) => Success(s.(lines := lines))
    case OpEditCustomers(customers) => Success(s.(customers := customers))
    case OpEditSale(x, isNewSim, line, payer, serial) => Success(EditSale(s, x, isNewSim, line, payer, serial))
  }

  function Apply(s: Stock, op: Op): Stock {
    Outcome(s, op).Or(s)
  }

  function Run(s: Stock, ops: seq<Op>): Stock {
    if |ops| == 0 then s else Apply(Run(s, ops[..|ops| - 1]), ops[|ops| - 1])
  }

  predicate Extends(s: Stock, s': Stock) {
    |s.log| <= |s'.log| <= |s.log| + 1 && s'.log[..|s.log|] == s.log && s.last <= s'.last
  }

  lemma TransferExtends(s: Stock, op: Op)
    requires op.OpReceive? || op.OpAllocate? || op.OpReturn?
    ensures Extends(s, Apply(s, op))
  {
  }

  lemma ConsumeExtends(s: Stock, x: SaleId)
    ensures Extends(s, Apply(s, OpConsume(x)))
  {
  }

  lemma ReverseExtends(s: Stock, x: SaleId)
    ensures Extends(s, Apply(s, OpReverse(x)))
  {
  }

  /** Only deletions change what is already in the log. */
  lemma OpExtendsLog(s: Stock, op: Op)
    requires !op.OpDeleteRow? && !op.OpDeleteMovement?
    ensures Extends(s, Apply(s, op))
  {
    match op {
      case OpReceive(_, _, _) => TransferExtends(s, op);
      case OpAllocate(_, _, _, _) => TransferExtends(s, op);
      case OpReturn(_, _, _, _) => TransferExtends(s, op);
      case OpConsume(x) => ConsumeExtends(s, x);
      case OpReverse(x) => ReverseExtends(s, x);
      case _ =>
    }
  }

  function EmptyStock(): Stock {
    Stock([], [], map[], [], map[], map[], 0)
  }

  // ---- what sound tables are ----------------------------------------------------------

  /** What a movement adds to a pool. */
  function Net(m: Movement, pool: Pool): int {
    (if m.target == Some(pool) then m.quantity else 0) - (if m.source == Some(pool) then m.quantity else 0)
  }

  function Effect(pool: Pool): Movement -> int {
    (m: Movement) => Net(m, pool)
  }

  ghost predicate Tallied(rows: map<Pool, int>, log: seq<Movement>) {
    forall p: Pool :: Qty(rows, p) == Sum(log, Effect(p))
  }

  ghost predicate NonNegative(rows: map<Pool, int>) {
    forall p: Pool :: Qty(rows, p) >= 0
  }

  ghost predicate MovementSound(rows: map<Pool, int>, m: Movement) {
    && m.quantity > 0
    && (m.source.Some? ==> m.source.value in rows)
    && (m.target.Some? ==> m.target.value in rows && m.source != m.target)
    && (m.sale.Some? <==> IsSaleLinked(m))
  }

  ghost predicate InOrder(log: seq<Movement>, last: MovementId) {
    && (forall i, j :: 0 <= i < j < |log| ==> log[i].id < log[j].id)
    && (forall i :: 0 <= i < |log| ==> log[i].id <= last)
  }

  ghost predicate LogSound(rows: map<Pool, int>, log: seq<Movement>) {
    forall i :: 0 <= i < |log| ==> MovementSound(rows, log[i])
  }

  ghost predicate StockSound(s: Stock) {
    Tallied(s.rows, s.log) && NonNegative(s.rows) && LogSound(s.rows, s.log) && InOrder(s.log, s.last)
  }

  function Count(x: SaleId): Movement -> int {
    (m: Movement) => if m.sale != Some(x) then 0 else if m.kind.SaleConsume? then 1 else -1
  }

  predicate IsConsumed(sales: map<SaleId, Sale>, x: SaleId) {
    x in sales && sales[x].consumed
  }

  ghost predicate CountsMatch(sales: map<SaleId, Sale>, log: seq<Movement>) {
    forall x: SaleId :: Sum(log, Count(x)) == if IsConsumed(sales, x) then 1 else 0
  }

  /** The row a consuming movement took its SIM from, whatever happened to the row since. */
  function DebitedPool(sale: Sale, m: Movement): Pool {
    if sale.deductedFrom.CustomerStock? && m.customer.Some? then Held(m.customer.value, m.line) else Main(m.line)
  }

  /** `m` is the movement that consumed the SIM of sale `x`. */
  ghost predicate ConsumedBy(sale: Sale, x: SaleId, m: Movement) {
    && sale.movement == Some(m.id) && m.kind.SaleConsume? && m.sale == Some(x) && m.quantity == 1
    && (m.source == Some(DebitedPool(sale, m)) || m.source == None)
    && (sale.deductedFrom.CustomerStock? ==> m.customer.Some?)
  }

  ghost predicate SaleSound(x: SaleId, sale: Sale, log: seq<Movement>) {
    if sale.consumed then !sale.deductedFrom.Nowhere? && exists m: Movement :: m in log && ConsumedBy(sale, x, m)
    else sale.deductedFrom.Nowhere? && sale.movement.None?
  }

  ghost predicate SalesMatch(sales: map<SaleId, Sale>, log: seq<Movement>) {
    && CountsMatch(sales, log)
    && (forall x :: x in sales ==> SaleSound(x, sales[x], log))
  }

  ghost predicate SalesSound(s: Stock) {
    SalesMatch(s.sales, s.log) && CardsSound(s.cards, s.sales, s.last)
  }

  ghost predicate CardSound(card: Card, sales: map<SaleId, Sale>, last: MovementId) {
    && (card.movement.Some? ==> card.movement.value <= last)
    && (card.status.InMain? ==> card.customer.None?)
    && (card.status.Consumed? <==> card.sale.Some?)
    && (card.sale.Some? ==> IsConsumed(sales, card.sale.value) && card.movement == sales[card.sale.value].movement)
  }

  /** A sold card belongs to one consumed sale, and a sale holds at most one card. */
  ghost predicate CardsSound(cards: Cards, sales: map<SaleId, Sale>, last: MovementId) {
    && (forall k: string :: k in cards ==> CardSound(cards[k], sales, last))
    && (forall k: string, k': string :: k in cards && k' in cards && cards[k].sale.Some? && cards[k].sale == cards[k'].sale ==> k == k')
  }

  ghost predicate Sound(s: Stock) {
    StockSound(s) && SalesSound(s)
  }

  // ---- one movement more -----------------------------------------------------------------

  lemma PutQty(rows: map<Pool, int>, pool: Option<Pool>, delta: int, p: Pool)
    ensures Qty(Put(rows, pool, delta), p) == Qty(rows, p) + if pool == Some(p) then delta else 0
  {
  }

  function Moved(rows: map<Pool, int>, m: Movement): map<Pool, int> {
    Put(Put(rows, m.source, -m.quantity), m.target, m.quantity)
  }

  lemma MovedQty(rows: map<Pool, int>, m: Movement, p: Pool)
    ensures Qty(Moved(rows, m), p) == Qty(rows, p) + Net(m, p)
  {
    PutQty(rows, m.source, -m.quantity, p);
    PutQty(Put(rows, m.source, -m.quantity), m.target, m.quantity, p);
  }

  lemma MovedTallied(rows: map<Pool, int>, log: seq<Movement>, m: Movement)
    requires Tallied(rows, log) && NonNegative(rows) && m.quantity > 0
    requires m.source.Some? ==> m.quantity <= Qty(rows, m.source.value)
    ensures Tallied(Moved(rows, m), log + [m]) && NonNegative(Moved(rows, m))
  {
    forall p: Pool ensures Qty(Moved(rows, m), p) == Sum(log + [m], Effect(p)) && Qty(Moved(rows, m), p) >= 0 {
      MovedQty(rows, m, p);
      SumAppend(log, m, Effect(p));
      assert Qty(rows, p) == Sum(log, Effect(p)) && Qty(rows, p) >= 0;
    }
  }

  lemma MovedLogSound(rows: map<Pool, int>, log: seq<Movement>, m: Movement)
    requires LogSound(rows, log) && m.quantity > 0 && (m.sale.Some? <==> IsSaleLinked(m))
    requires m.target.Some? ==> m.source != m.target
    ensures LogSound(Moved(rows, m), log + [m])
  {
    var all := log + [m];
    forall i | 0 <= i < |all| ensures MovementSound(Moved(rows, m), all[i]) {
      assert i < |log| ==> all[i] == log[i] && MovementSound(rows, log[i]);
    }
  }

  /** Rows keep the log's tally, and do not go below zero, when a movement is logged as it is made. */
  lemma RecordKeepsStock(s: Stock, kind: Kind, line: LineId, quantity: int, source: Option<Pool>, target: Option<Pool>,
                         customer: Option<CustomerId>, sale: Option<SaleId>)
    requires StockSound(s) && quantity > 0
    requires target.Some? ==> source != target
    requires source.Some? ==> quantity <= Qty(s.rows, source.value)
    requires sale.Some? <==> kind.SaleConsume? || kind.SaleReversal?
    ensures StockSound(Recorded(s, kind, line, quantity, source, target, customer, sale))
  {
    var m := Movement(s.last + 1, kind, StockLine(s.lines, line), quantity, source, target, customer, sale);
    MovedTallied(s.rows, s.log, m);
    MovedLogSound(s.rows, s.log, m);
    assert Recorded(s, kind, line, quantity, source, target, customer, sale).rows == Moved(s.rows, m);
  }

  lemma TouchKeepsStock(s: Stock, pool: Pool)
    requires StockSound(s)
    ensures StockSound(s.(rows := Touch(s.rows, pool)))
    ensures forall p: Pool :: Qty(Touch(s.rows, pool), p) == Qty(s.rows, p)
  {
    var s' := s.(rows := Touch(s.rows, pool));
    assert forall p: Pool :: Qty(s'.rows, p) == Qty(s.rows, p);
    forall i | 0 <= i < |s'.log| ensures MovementSound(s'.rows, s'.log[i]) {
      assert MovementSound(s.rows, s.log[i]);
    }
  }

  lemma SameRowsSameStock(s: Stock, t: Stock)
    requires StockSound(s) && t.rows == s.rows && t.log == s.log && t.last == s.last
    ensures StockSound(t)
  {
  }

  // ---- stock through every operation --------------------------------------------------------

  lemma CorrectKeepsStock(s: Stock, pool: Pool, delta: int)
    requires StockSound(s) && delta != 0 && Qty(s.rows, pool) + delta >= 0
    ensures StockSound(Corrected(s, pool, delta))
  {
    if delta < 0 {
      RecordKeepsStock(s, Adjustment, pool.line, -delta, Some(pool), None, Owner(pool), None);
    } else {
      RecordKeepsStock(s, Adjustment, pool.line, delta, None, Some(pool), Owner(pool), None);
    }
  }

  lemma DeleteRowKeepsStock(s: Stock, pool: Pool)
    requires StockSound(s) && DeleteRow(s, pool).Success?
    ensures StockSound(DeleteRow(s, pool).value)
  {
    var s' := DeleteRow(s, pool).value;
    forall p: Pool ensures Qty(s'.rows, p) == Sum(s'.log, Effect(p)) && Qty(s'.rows, p) >= 0 {
      assert Qty(s.rows, p) == Sum(s.log, Effect(p)) && Qty(s.rows, p) >= 0;
      if p == pool {
        SumZero(s'.log, Effect(p));
      } else {
        SumSame(s.log, s'.log, Effect(p), Effect(p));
      }
    }
    forall i | 0 <= i < |s'.log| ensures MovementSound(s'.rows, s'.log[i]) {
      assert MovementSound(s.rows, s.log[i]);
    }
  }

  lemma MovedBackTallied(rows: map<Pool, int>, log: seq<Movement>, k: nat)
    requires Tallied(rows, log) && NonNegative(rows) && k < |log| && log[k].quantity > 0
    requires log[k].target.Some? ==> log[k].quantity <= Qty(rows, log[k].target.value)
    ensures var back := Put(Put(rows, log[k].source, log[k].quantity), log[k].target, -log[k].quantity);
            Tallied(back, log[..k] + log[k + 1..]) && NonNegative(back)
  {
    var m := log[k];
    var back := Put(Put(rows, m.source, m.quantity), m.target, -m.quantity);
    forall p: Pool ensures Qty(back, p) == Sum(log[..k] + log[k + 1..], Effect(p)) && Qty(back, p) >= 0 {
      PutQty(rows, m.source, m.quantity, p);
      PutQty(Put(rows, m.source, m.quantity), m.target, -m.quantity, p);
      SumRemove(log, k, Effect(p));
      assert Qty(rows, p) == Sum(log, Effect(p)) && Qty(rows, p) >= 0;
    }
  }

  lemma ShorterLogSound(rows: map<Pool, int>, rows': map<Pool, int>, log: seq<Movement>, k: nat, last: MovementId)
    requires LogSound(rows, log) && InOrder(log, last) && k < |log| && forall p :: p in rows ==> p in rows'
    ensures LogSound(rows', log[..k] + log[k + 1..]) && InOrder(log[..k] + log[k + 1..], last)
  {
    var log' := log[..k] + log[k + 1..];
    forall i | 0 <= i < |log'| ensures log'[i] == log[if i < k then i else i + 1] && MovementSound(rows', log'[i]) {
      assert MovementSound(rows, log[if i < k then i else i + 1]);
    }
  }

  lemma DeleteMovementKeepsStock(s: Stock, id: MovementId)
    requires StockSound(s) && DeleteMovement(s, id).Success?
    ensures StockSound(DeleteMovement(s, id).value)
  {
    var s', k := DeleteMovement(s, id).value, IndexOf(s.log, id);
    assert MovementSound(s.rows, s.log[k]);
    MovedBackTallied(s.rows, s.log, k);
    ShorterLogSound(s.rows, s'.rows, s.log, k, s.last);
  }

  lemma ReceiveKeepsStock(s: Stock, line: LineId, quantity: int, serials: seq<string>)
    requires StockSound(s) && Receive(s, line, quantity, serials).Success?
    ensures StockSound(Receive(s, line, quantity, serials).value)
  {
    var l := StockLine(s.lines, line);
    var main := MainPool(s.lines, l);
    RecordKeepsStock(s, MainReceive, l, quantity, None, Some(main), None, None);
    SameRowsSameStock(Recorded(s, MainReceive, l, quantity, None, Some(main), None, None), Receive(s, line, quantity, serials).value);
  }

  lemma AllocateKeepsStock(s: Stock, customer: CustomerId, line: LineId, quantity: int, serials: seq<string>)
    requires StockSound(s) && Allocate(s, customer, line, quantity, serials).Success?
    ensures StockSound(Allocate(s, customer, line, quantity, serials).value)
  {
    var l := StockLine(s.lines, line);
    var main, held := MainPool(s.lines, l), HeldPool(s.lines, customer, l);
    RecordKeepsStock(s, AllocateToCustomer, l, quantity, Some(main), Some(held), Some(customer), None);
    SameRowsSameStock(Recorded(s, AllocateToCustomer, l, quantity, Some(main), Some(held), Some(customer), None),
                      Allocate(s, customer, line, quantity, serials).value);
  }

  lemma ReturnKeepsStock(s: Stock, customer: CustomerId, line: LineId, quantity: int, serials: seq<string>)
    requires StockSound(s) && Return(s, customer, line, quantity, serials).Success?
    ensures StockSound(Return(s, customer, line, quantity, serials).value)
  {
    var l := StockLine(s.lines, line);
    var main, held := MainPool(s.lines, l), HeldPool(s.lines, customer, l);
    RecordKeepsStock(s, ReturnFromCustomer, l, quantity, Some(held), Some(main), Some(customer), None);
    SameRowsSameStock(Recorded(s, ReturnFromCustomer, l, quantity, Some(held), Some(main), Some(customer), None),
                      Return(s, customer, line, quantity, serials).value);
  }

  lemma ConsumeFromKeepsStock(s: Stock, x: SaleId, line: LineId, pool: Pool, from: DeductedFrom, customer: Option<CustomerId>)
    requires StockSound(s) && x in s.sales
    ensures ConsumeFrom(s, x, line, pool, from, customer).Success? ==> StockSound(ConsumeFrom(s, x, line, pool, from, customer).value)
  {
    if ConsumeFrom(s, x, line, pool, from, customer).Success? {
      RecordKeepsStock(s, SaleConsume, line, 1, Some(pool), None, customer, Some(x));
      SameRowsSameStock(Recorded(s, SaleConsume, line, 1, Some(pool), None, customer, Some(x)),
                        ConsumeFrom(s, x, line, pool, from, customer).value);
    }
  }

  lemma ConsumeKeepsStock(s: Stock, x: SaleId)
    requires StockSound(s) && Consume(s, x).Success?
    ensures StockSound(Consume(s, x).value)
  {
    var line := StockLine(s.lines, s.sales[x].line);
    var main := MainPool(s.lines, line);
    match Resolve(s.customers, s.sales[x].payer) {
      case Known(customer) =>
        var held := HeldPool(s.lines, customer, line);
        TouchKeepsStock(s, held);
        var s1 := s.(rows := Touch(s.rows, held));
        ConsumeFromKeepsStock(s1, x, line, held, CustomerStock, Some(customer));
        ConsumeFromKeepsStock(s1, x, line, main, MainStock, Some(customer));
      case _ =>
        ConsumeFromKeepsStock(s, x, line, main, MainStock, None);
    }
  }

  lemma ReverseToKeepsStock(s: Stock, x: SaleId, pool: Pool, customer: Option<CustomerId>)
    requires StockSound(s) && x in s.sales
    ensures StockSound(ReverseTo(s, x, pool, customer))
  {
    var line := StockLine(s.lines, s.sales[x].line);
    RecordKeepsStock(s, SaleReversal, line, 1, None, Some(pool), customer, Some(x));
    SameRowsSameStock(Recorded(s, SaleReversal, line, 1, None, Some(pool), customer, Some(x)), ReverseTo(s, x, pool, customer));
  }

  lemma ReverseKeepsStock(s: Stock, x: SaleId)
    requires StockSound(s) && Reverse(s, x).Success?
    ensures StockSound(Reverse(s, x).value)
  {
    var sale := s.sales[x];
    var line := StockLine(s.lines, sale.line);
    match sale.deductedFrom {
      case Nowhere =>
      case MainStock => ReverseToKeepsStock(s, x, MainPool(s.lines, line), None);
      case CustomerStock =>
        var customer := CreditedCustomer(s, sale);
        if customer.Some? {
          ReverseToKeepsStock(s, x, HeldPool(s.lines, customer.value, line), customer);
        }
    }
  }

  lemma OpKeepsStock(s: Stock, op: Op)
    requires StockSound(s)
    ensures StockSound(Apply(s, op))
  {
    if Outcome(s, op).Success? {
      match op {
        case OpReceive(line, quantity, serials) => ReceiveKeepsStock(s, line, quantity, serials);
        case OpAllocate(customer, line, quantity, serials) => AllocateKeepsStock(s, customer, line, quantity, serials);
        case OpReturn(customer, line, quantity, serials) => ReturnKeepsStock(s, customer, line, quantity, serials);
        case OpSetQuantity(pool, quantity, _, _) =>
          if quantity != s.rows[pool] { CorrectKeepsStock(s, pool, quantity - s.rows[pool]); }
        case OpClear(pool, _) =>
          if s.rows[pool] != 0 { CorrectKeepsStock(s, pool, -s.rows[pool]); }
        case OpAdjust(pool, delta, _) => CorrectKeepsStock(s, pool, delta);
        case OpDamaged(pool, quantity) =>
          RecordKeepsStock(s, DamagedStock, pool.line, quantity, Some(pool), None, Owner(pool), None);
        case OpSellManually(pool, quantity) =>
          RecordKeepsStock(s, ManualSale, pool.line, quantity, Some(pool), None, Owner(pool), None);
        case OpDeleteRow(pool) => DeleteRowKeepsStock(s, pool);
        case OpDeleteMovement(id) => DeleteMovementKeepsStock(s, id);
        case OpConsume(x) => ConsumeKeepsStock(s, x);
        case OpReverse(x) => ReverseKeepsStock(s, x);
        case _ => SameRowsSameStock(s, Apply(s, op));
      }
    }
  }

  lemma {:induction false} RunKeepsStock(s: Stock, ops: seq<Op>)
    requires StockSound(s)
    ensures StockSound(Run(s, ops))
  {
    if |ops| > 0 {
      RunKeepsStock(s, ops[..|ops| - 1]);
      OpKeepsStock(Run(s, ops[..|ops| - 1]), ops[|ops| - 1]);
    }
  }

  /** After any run, every pool holds what the log says came in minus what went out, and never less than nothing. */
  lemma QuantityIsInMinusOut(ops: seq<Op>, p: Pool)
    ensures Qty(Run(EmptyStock(), ops).rows, p) == Sum(Run(EmptyStock(), ops).log, Effect(p))
    ensures Qty(Run(EmptyStock(), ops).rows, p) >= 0
  {
    RunKeepsStock(EmptyStock(), ops);
  }
}
