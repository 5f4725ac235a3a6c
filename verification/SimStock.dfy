/**
 * SIM stock (`inventory/services.py`): pools, an editable movement log, tracked cards, and the
 * stock side of a sale. Each service call is a function from the tables before to the tables
 * after, or to the error it raises.
 */
module SimStock {
  import opened Wrappers
  import opened Sums
  import opened ProductLines

  type CustomerId = nat
  type SaleId = nat
  type MovementId = nat

  /** One balance row per location, line and customer. */
  datatype Pool = Main(line: LineId) | Held(customer: CustomerId, line: LineId)

  function Owner(pool: Pool): Option<CustomerId> {
    if pool.Held? then Some(pool.customer) else None
  }

  datatype Kind = MainReceive | AllocateToCustomer | ReturnFromCustomer | Adjustment | DamagedStock | ManualSale | SaleConsume | SaleReversal

  datatype Movement = Movement(
    id: MovementId,
    kind: Kind,
    line: LineId,
    quantity: int,
    source: Option<Pool>,
    target: Option<Pool>,
    customer: Option<CustomerId>,
    sale: Option<SaleId>)

  datatype CardStatus = InMain | WithCustomer | Consumed

  datatype Card = Card(
    line: LineId,
    status: CardStatus,
    customer: Option<CustomerId>,
    sale: Option<SaleId>,
    movement: Option<MovementId>)

  /** Cards by serial; the key is the serial in upper case, as every lookup ignores case. */
  type Cards = map<string, Card>

  datatype DeductedFrom = Nowhere | CustomerStock | MainStock

  /** The fields of a sale that stock reads or writes. */
  datatype Sale = Sale(
    isNewSim: bool,
    line: LineId,
    payer: string,
    serial: string,
    consumed: bool,
    deductedFrom: DeductedFrom,
    movement: Option<MovementId>)

  datatype Customer = Customer(pk: CustomerId, name: string, active: bool)

  datatype Stock = Stock(
    lines: Lines,
    customers: seq<Customer>,
    rows: map<Pool, int>,
    log: seq<Movement>,
    cards: Cards,
    sales: map<SaleId, Sale>,
    last: MovementId)

  datatype Fault =
    | QuantityBelowOne
    | WrongSerialCount
    | DuplicateSerials
    | SerialTaken
    | SerialNotThere
    | InsufficientStock
    | ReasonRequired
    | NegativeQuantity
    | ZeroAdjustment
    | RowNotEmpty
    | NoSuchRow
    | NoSuchMovement
    | NoSuchSale
    | SaleLinked
    | BelowZero
    | AmbiguousPayer
    | SourceUnknown

  // ---- payers -------------------------------------------------------------------

  datatype Payer = NoCustomer | Ambiguous | Known(customer: CustomerId)

  function Called(name: string): Customer -> bool {
    (c: Customer) => c.active && SameName(c.name, name)
  }

  function Resolve(customers: seq<Customer>, payer: string): Payer {
    var name := Strip(payer);
    if name == "" then NoCustomer
    else
      var found := Filter(customers, Called(name));
      if |found| == 0 then NoCustomer else if |found| > 1 then Ambiguous else Known(found[0].pk)
  }

  // ---- rows and the log -----------------------------------------------------------

  function Qty(rows: map<Pool, int>, pool: Pool): int {
    if pool in rows then rows[pool] else 0
  }

  /** `get_or_create` with quantity zero. */
  function Touch(rows: map<Pool, int>, pool: Pool): map<Pool, int> {
    rows[pool := Qty(rows, pool)]
  }

  function Put(rows: map<Pool, int>, pool: Option<Pool>, delta: int): map<Pool, int> {
    if pool.Some? then rows[pool.value := Qty(rows, pool.value) + delta] else rows
  }

  function MainPool(lines: Lines, line: LineId): Pool {
    Main(StockLine(lines, line))
  }

  function HeldPool(lines: Lines, customer: CustomerId, line: LineId): Pool {
    Held(customer, StockLine(lines, line))
  }

  /** Move stock from one row to another and log it. */
  function Recorded(s: Stock, kind: Kind, line: LineId, quantity: int, source: Option<Pool>, target: Option<Pool>,
                    customer: Option<CustomerId>, sale: Option<SaleId>): Stock
  {
    var m := Movement(s.last + 1, kind, StockLine(s.lines, line), quantity, source, target, customer, sale);
    s.(rows := Put(Put(s.rows, source, -quantity), target, quantity), log := s.log + [m], last := s.last + 1)
  }

  /** The position of a movement in the log, or the length of the log. */
  function IndexOf(log: seq<Movement>, id: MovementId): (k: nat)
    ensures k <= |log|
    ensures k < |log| ==> log[k].id == id
    ensures forall i :: 0 <= i < k ==> log[i].id != id
  {
    if |log| == 0 || log[0].id == id then 0 else 1 + IndexOf(log[1..], id)
  }

  // ---- cards ----------------------------------------------------------------------

  ghost predicate NoTwoAlike(serials: seq<string>) {
    forall i, j :: 0 <= i < j < |serials| ==> Upper(serials[i]) != Upper(serials[j])
  }

  function Alike(serials: seq<string>): (duplicates: bool)
    ensures duplicates <==> !NoTwoAlike(serials)
  {
    if |serials| == 0 then false
    else
      assert forall i, j :: 0 < i < j < |serials| ==> serials[i] == serials[1..][i - 1] && serials[j] == serials[1..][j - 1];
      (exists k :: 0 < k < |serials| && Upper(serials[k]) == Upper(serials[0])) || Alike(serials[1..])
  }

  /** `validate_serial_count` */
  function SerialProblem(serials: seq<string>, quantity: int): Option<Fault> {
    if |serials| == 0 then None
    else if |serials| != quantity then Some(WrongSerialCount)
    else if Alike(serials) then Some(DuplicateSerials)
    else None
  }

  function Register(cards: Cards, serials: seq<string>, card: Card): Result<Cards, Fault>
    decreases |serials|
  {
    if |serials| == 0 then Success(cards)
    else if Upper(serials[0]) in cards then Failure(SerialTaken)
    else Register(cards[Upper(serials[0]) := card], serials[1..], card)
  }

  predicate At(cards: Cards, serial: string, line: LineId, status: CardStatus) {
    Upper(serial) in cards && cards[Upper(serial)].line == line && cards[Upper(serial)].status == status
  }

  function MoveCards(cards: Cards, serials: seq<string>, line: LineId, wanted: CardStatus,
                     status: CardStatus, customer: Option<CustomerId>, movement: MovementId): Result<Cards, Fault>
  {
    if |serials| == 0 then Success(cards)
    else if !At(cards, serials[0], line, wanted) then Failure(SerialNotThere)
    else
      var key := Upper(serials[0]);
      var card := cards[key].(status := status, customer := customer, movement := Some(movement));
      MoveCards(cards[key := card], serials[1..], line, wanted, status, customer, movement)
  }

  function WithCards(s: Stock, cards: Result<Cards, Fault>): Result<Stock, Fault> {
    match cards
    case Success(c) => Success(s.(cards := c))
    case Failure(e) => Failure(e)
  }

  // ---- stock operations --------------------------------------------------------------

  function Receive(s: Stock, line: LineId, quantity: int, serials: seq<string>): Result<Stock, Fault> {
    if quantity < 1 then Failure(QuantityBelowOne)
    else if SerialProblem(serials, quantity).Some? then Failure(SerialProblem(serials, quantity).value)
    else
      var l := StockLine(s.lines, line);
      var s1 := Recorded(s, MainReceive, l, quantity, None, Some(MainPool(s.lines, l)), None, None);
      WithCards(s1, Register(s.cards, serials, Card(l, InMain, None, None, Some(s1.last))))
  }

  function Allocate(s: Stock, customer: CustomerId, line: LineId, quantity: int, serials: seq<string>): Result<Stock, Fault> {
    if quantity < 1 then Failure(QuantityBelowOne)
    else if SerialProblem(serials, quantity).Some? then Failure(SerialProblem(serials, quantity).value)
    else
      var l := StockLine(s.lines, line);
      var main, held := MainPool(s.lines, l), HeldPool(s.lines, customer, l);
      if Qty(s.rows, main) < quantity then Failure(InsufficientStock)
      else
        var s1 := Recorded(s, AllocateToCustomer, l, quantity, Some(main), Some(held), Some(customer), None);
        WithCards(s1, MoveCards(s.cards, serials, l, InMain, WithCustomer, Some(customer), s1.last))
  }

  function Return(s: Stock, customer: CustomerId, line: LineId, quantity: int, serials: seq<string>): Result<Stock, Fault> {
    if quantity < 1 then Failure(QuantityBelowOne)
    else if SerialProblem(serials, quantity).Some? then Failure(SerialProblem(serials, quantity).value)
    else
      var l := StockLine(s.lines, line);
      var main, held := MainPool(s.lines, l), HeldPool(s.lines, customer, l);
      if Qty(s.rows, held) < quantity then Failure(InsufficientStock)
      else
        var s1 := Recorded(s, ReturnFromCustomer, l, quantity, Some(held), Some(main), Some(customer), None);
        // The cards are looked up by serial, line and status, not by who holds them.
        WithCards(s1, MoveCards(s.cards, serials, l, WithCustomer, InMain, None, s1.last))
  }

  /** Log a correction of one row by a signed amount. */
  function Corrected(s: Stock, pool: Pool, delta: int): Stock {
    if delta < 0 then Recorded(s, Adjustment, pool.line, -delta, Some(pool), None, Owner(pool), None)
    else Recorded(s, Adjustment, pool.line, delta, None, Some(pool), Owner(pool), None)
  }

  function SetQuantity(s: Stock, pool: Pool, quantity: int, reason: string, requireReason: bool): Result<Stock, Fault> {
    if requireReason && Strip(reason) == "" then Failure(ReasonRequired)
    else if quantity < 0 then Failure(NegativeQuantity)
    else if pool !in s.rows then Failure(NoSuchRow)
    else if quantity == s.rows[pool] then Success(s)
    else Success(Corrected(s, pool, quantity - s.rows[pool]))
  }

  function Clear(s: Stock, pool: Pool, reason: string): Result<Stock, Fault> {
    SetQuantity(s, pool, 0, if reason == "" then "Cleared for testing" else reason, true)
  }

  function Adjust(s: Stock, pool: Pool, delta: int, reason: string): Result<Stock, Fault> {
    if Strip(reason) == "" then Failure(ReasonRequired)
    else if delta == 0 then Failure(ZeroAdjustment)
    else if pool !in s.rows then Failure(NoSuchRow)
    else if s.rows[pool] + delta < 0 then Failure(NegativeQuantity)
    else Success(Corrected(s, pool, delta))
  }

  /** Damaged and manually sold stock leave a row for good. */
  function Withdraw(s: Stock, kind: Kind, pool: Pool, quantity: int): Result<Stock, Fault> {
    if quantity < 1 then Failure(QuantityBelowOne)
    else if pool !in s.rows then Failure(NoSuchRow)
    else if s.rows[pool] < quantity then Failure(InsufficientStock)
    else Success(Recorded(s, kind, pool.line, quantity, Some(pool), None, Owner(pool), None))
  }

  function MarkDamaged(s: Stock, pool: Pool, quantity: int): Result<Stock, Fault> {
    Withdraw(s, DamagedStock, pool, quantity)
  }

  function SellManually(s: Stock, pool: Pool, quantity: int): Result<Stock, Fault> {
    Withdraw(s, ManualSale, pool, quantity)
  }

  function Unlinked(m: Movement, pool: Pool): Movement {
    m.(source := if m.source == Some(pool) then None else m.source,
       target := if m.target == Some(pool) then None else m.target)
  }

  function UnlinkAll(log: seq<Movement>, pool: Pool): (r: seq<Movement>)
    ensures |r| == |log|
    ensures forall i :: 0 <= i < |log| ==> r[i] == Unlinked(log[i], pool)
  {
    if |log| == 0 then [] else [Unlinked(log[0], pool)] + UnlinkAll(log[1..], pool)
  }

  function DeleteRow(s: Stock, pool: Pool): Result<Stock, Fault> {
    if pool !in s.rows then Failure(NoSuchRow)
    else if s.rows[pool] != 0 then Failure(RowNotEmpty)
    else Success(s.(rows := s.rows - {pool}, log := UnlinkAll(s.log, pool)))
  }

  predicate IsSaleLinked(m: Movement) {
    m.kind.SaleConsume? || m.kind.SaleReversal?
  }

  function UndoCard(card: Card, m: Movement): Card {
    if m.kind.AllocateToCustomer? then card.(status := InMain, customer := None, movement := None)
    else if m.kind.ReturnFromCustomer? then card.(status := WithCustomer, customer := m.customer, movement := None)
    else card.(movement := None)
  }

  function UndoCards(cards: Cards, m: Movement): Cards {
    map key | key in cards && !(m.kind.MainReceive? && cards[key].movement == Some(m.id)) ::
      if cards[key].movement == Some(m.id) then UndoCard(cards[key], m) else cards[key]
  }

  /** Move the stock of the `k`-th movement back and drop it from the log. */
  function DeleteAt(s: Stock, k: nat): Result<Stock, Fault>
    requires k < |s.log|
  {
    var m := s.log[k];
    if IsSaleLinked(m) then Failure(SaleLinked)
    else if m.target.Some? && Qty(s.rows, m.target.value) < m.quantity then Failure(BelowZero)
    else Success(s.(rows := Put(Put(s.rows, m.source, m.quantity), m.target, -m.quantity),
                    log := s.log[..k] + s.log[k + 1..],
                    cards := UndoCards(s.cards, m)))
  }

  function DeleteMovement(s: Stock, id: MovementId): Result<Stock, Fault> {
    if IndexOf(s.log, id) == |s.log| then Failure(NoSuchMovement) else DeleteAt(s, IndexOf(s.log, id))
  }

  // ---- the stock side of a sale -----------------------------------------------------

  /** The card a sale names, in the location the stock came from. */
  predicate CardAtHand(cards: Cards, serial: string, line: LineId, from: DeductedFrom, customer: Option<CustomerId>) {
    if from.CustomerStock? then At(cards, serial, line, WithCustomer) && cards[Upper(serial)].customer == customer
    else At(cards, serial, line, InMain)
  }

  function TakeCard(cards: Cards, serial: string, line: LineId, from: DeductedFrom, customer: Option<CustomerId>,
                    sale: SaleId, movement: MovementId): Result<Cards, Fault>
  {
    if serial == "" then Success(cards)
    else if !CardAtHand(cards, serial, line, from, customer) then Failure(SerialNotThere)
    else Success(cards[Upper(serial) := Card(line, Consumed, customer, Some(sale), Some(movement))])
  }

  function ConsumeFrom(s: Stock, x: SaleId, line: LineId, pool: Pool, from: DeductedFrom, customer: Option<CustomerId>): Result<Stock, Fault>
    requires x in s.sales
  {
    if Qty(s.rows, pool) < 1 then Failure(InsufficientStock)
    else
      var s1 := Recorded(s, SaleConsume, line, 1, Some(pool), None, customer, Some(x));
      var sale := s.sales[x].(consumed := true, deductedFrom := from, movement := Some(s1.last));
      WithCards(s1.(sales := s.sales[x := sale]), TakeCard(s.cards, Strip(sale.serial), line, from, customer, x, s1.last))
  }

  function Consume(s: Stock, x: SaleId): Result<Stock, Fault> {
    if x !in s.sales then Failure(NoSuchSale)
    else if !s.sales[x].isNewSim || s.sales[x].consumed then Success(s)
    else
      var line := StockLine(s.lines, s.sales[x].line);
      var main := MainPool(s.lines, line);
      match Resolve(s.customers, s.sales[x].payer)
      case Ambiguous => Failure(AmbiguousPayer)
      case NoCustomer => ConsumeFrom(s, x, line, main, MainStock, None)
      case Known(customer) =>
        var held := HeldPool(s.lines, customer, line);
        var s1 := s.(rows := Touch(s.rows, held));
        if Qty(s1.rows, held) >= 1 then ConsumeFrom(s1, x, line, held, CustomerStock, Some(customer))
        else ConsumeFrom(s1, x, line, main, MainStock, Some(customer))
  }

  function ReturnCard(card: Card, x: SaleId, from: DeductedFrom, movement: MovementId): Card {
    if card.sale != Some(x) then card
    else if from.CustomerStock? then card.(status := WithCustomer, sale := None, movement := Some(movement))
    else card.(status := InMain, customer := None, sale := None, movement := Some(movement))
  }

  function ReturnCards(cards: Cards, x: SaleId, from: DeductedFrom, movement: MovementId): Cards {
    map key | key in cards :: ReturnCard(cards[key], x, from, movement)
  }

  /** The customer a reversal credits: the one on the consuming movement, else the payer of today. */
  function CreditedCustomer(s: Stock, sale: Sale): Option<CustomerId> {
    var k := if sale.movement.Some? then IndexOf(s.log, sale.movement.value) else |s.log|;
    if k < |s.log| && s.log[k].customer.Some? then s.log[k].customer
    else
      match Resolve(s.customers, sale.payer)
      case Known(customer) => Some(customer)
      case _ => None
  }

  function ReverseTo(s: Stock, x: SaleId, pool: Pool, customer: Option<CustomerId>): Stock
    requires x in s.sales
  {
    var s1 := Recorded(s, SaleReversal, StockLine(s.lines, s.sales[x].line), 1, None, Some(pool), customer, Some(x));
    s1.(cards := ReturnCards(s.cards, x, s.sales[x].deductedFrom, s1.last),
        sales := s.sales[x := s.sales[x].(consumed := false, deductedFrom := Nowhere, movement := None)])
  }

  function Reverse(s: Stock, x: SaleId): Result<Stock, Fault> {
    if x !in s.sales then Failure(NoSuchSale)
    else if !s.sales[x].consumed then Success(s)
    else
      var sale := s.sales[x];
      var line := StockLine(s.lines, sale.line);
      match sale.deductedFrom
      case Nowhere => Success(s)
      case MainStock => Success(ReverseTo(s, x, MainPool(s.lines, line), None))
      case CustomerStock =>
        var customer := CreditedCustomer(s, sale);
        if customer.None? then Failure(SourceUnknown)
        else Success(ReverseTo(s, x, HeldPool(s.lines, customer.value, line), customer))
  }

  // ---- the preview ---------------------------------------------------------------------

  datatype Preview = AmbiguousName | FromPool(pool: Pool, available: int)

  function Available(p: Preview): int {
    if p.FromPool? then p.available else 0
  }

  function PreviewDeduction(s: Stock, payer: string, line: LineId): Preview {
    var l := StockLine(s.lines, line);
    var main := FromPool(MainPool(s.lines, l), Qty(s.rows, MainPool(s.lines, l)));
    match Resolve(s.customers, payer)
    case Ambiguous => AmbiguousName
    case NoCustomer => main
    case Known(customer) =>
      var held := HeldPool(s.lines, customer, l);
      if Qty(s.rows, held) >= 1 then FromPool(held, Qty(s.rows, held)) else main
  }
}
