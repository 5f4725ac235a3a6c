/**
 * The stock services on shared tables, updated in place. Each method does what the function of the
 * same name in `SimStock` says, and a call that raises leaves every table as it was.
 */
module StockRoom {
  import opened Wrappers
  import opened ProductLines
  import opened SimStock

  /** Creating a row before adding to it makes no difference. */
  lemma PutAfterTouch(rows: map<Pool, int>, pool: Pool, delta: int)
    ensures Put(Touch(rows, pool), Some(pool), delta) == Put(rows, Some(pool), delta)
  {
    assert Put(Touch(rows, pool), Some(pool), delta) == Put(rows, Some(pool), delta);
  }

  class Shelves {
    var lines: Lines
    var customers: seq<Customer>
    var rows: map<Pool, int>
    var log: seq<Movement>
    var cards: Cards
    var sales: map<SaleId, Sale>
    var last: MovementId

    function View(): Stock
      reads this
    {
      Stock(lines, customers, rows, log, cards, sales, last)
    }

    constructor ()
      ensures View() == Stock([], [], map[], [], map[], map[], 0)
    {
      lines, customers, rows, log, cards, sales, last := [], [], map[], [], map[], map[], 0;
    }

    /** Leave the transaction: every table goes back to the savepoint. */
    method Rollback(savepoint: Stock)
      modifies this
      ensures View() == savepoint
    {
      lines, customers, rows := savepoint.lines, savepoint.customers, savepoint.rows;
      log, cards, sales, last := savepoint.log, savepoint.cards, savepoint.sales, savepoint.last;
    }

    // ---- helpers ------------------------------------------------------------------

    method GetBalance(pool: Pool) returns (quantity: int)
      modifies this`rows
      ensures rows == Touch(old(rows), pool) && quantity == Qty(old(rows), pool) == rows[pool]
    {
      if pool !in rows {
        rows := rows[pool := 0];
      }
      quantity := rows[pool];
      assert rows == Touch(old(rows), pool);
    }

    method AddToBalance(pool: Pool, quantity: int)
      requires pool in rows
      modifies this`rows
      ensures rows == Put(old(rows), Some(pool), quantity)
    {
      rows := rows[pool := rows[pool] + quantity];
    }

    method RecordMovement(kind: Kind, line: LineId, quantity: int, source: Option<Pool>, target: Option<Pool>,
                          customer: Option<CustomerId>, sale: Option<SaleId>) returns (id: MovementId)
      modifies this`log, this`last
      ensures id == last == old(last) + 1
      ensures log == old(log) + [Movement(id, kind, StockLine(lines, line), quantity, source, target, customer, sale)]
    {
      last := last + 1;
      id := last;
      log := log + [Movement(id, kind, StockLine(lines, line), quantity, source, target, customer, sale)];
    }

    method RegisterCards(serials: seq<string>, card: Card) returns (raised: Option<Fault>)
      modifies this`cards
      ensures match Register(old(cards), serials, card)
              case Success(c) => raised == None && cards == c
              case Failure(e) => raised == Some(e)
    {
      var i := 0;
      while i < |serials|
        invariant 0 <= i <= |serials|
        invariant Register(old(cards), serials, card) == Register(cards, serials[i..], card)
      {
        if Upper(serials[i]) in cards {
          return Some(SerialTaken);
        }
        cards := cards[Upper(serials[i]) := card];
        assert serials[i..][1..] == serials[i + 1..];
        i := i + 1;
      }
      return None;
    }

    method MoveListedCards(serials: seq<string>, line: LineId, wanted: CardStatus, status: CardStatus,
                           customer: Option<CustomerId>, movement: MovementId) returns (raised: Option<Fault>)
      modifies this`cards
      ensures match MoveCards(old(cards), serials, line, wanted, status, customer, movement)
              case Success(c) => raised == None && cards == c
              case Failure(e) => raised == Some(e)
    {
      var i := 0;
      while i < |serials|
        invariant 0 <= i <= |serials|
        invariant MoveCards(old(cards), serials, line, wanted, status, customer, movement) ==
                  MoveCards(cards, serials[i..], line, wanted, status, customer, movement)
      {
        if !At(cards, serials[i], line, wanted) {
          return Some(SerialNotThere);
        }
        var key := Upper(serials[i]);
        cards := cards[key := cards[key].(status := status, customer := customer, movement := Some(movement))];
        assert serials[i..][1..] == serials[i + 1..];
        i := i + 1;
      }
      return None;
    }

    /** Move stock between two rows and log it. */
    method Transfer(kind: Kind, line: LineId, quantity: int, source: Pool, target: Pool, customer: CustomerId) returns (id: MovementId)
      requires source in rows && source != target
      modifies this`rows, this`log, this`last
      ensures id == last == old(last) + 1
      ensures rows == Put(Put(old(rows), Some(source), -quantity), Some(target), quantity)
      ensures log == old(log) + [Movement(id, kind, StockLine(lines, line), quantity, Some(source), Some(target), Some(customer), None)]
    {
      ghost var before := rows;
      var had := GetBalance(target);
      AddToBalance(source, -quantity);
      AddToBalance(target, quantity);
      assert rows == Put(Put(before, Some(source), -quantity), Some(target), quantity);
      id := RecordMovement(kind, line, quantity, Some(source), Some(target), Some(customer), None);
    }

    // ---- stock operations ------------------------------------------------------------

    method Receive(line: LineId, quantity: int, serials: seq<string>) returns (raised: Option<Fault>)
      modifies this
      ensures Commits(SimStock.Receive(old(View()), line, quantity, serials), old(View()), View(), raised)
    {
      if quantity < 1 {
        return Some(QuantityBelowOne);
      }
      raised := SerialProblem(serials, quantity);
      if raised.Some? {
        return;
      }
      var savepoint := View();
      var l := StockLine(lines, line);
      var main := MainPool(lines, l);
      var had := GetBalance(main);
      PutAfterTouch(savepoint.rows, main, quantity);
      AddToBalance(main, quantity);
      var id := RecordMovement(MainReceive, l, quantity, None, Some(main), None, None);
      raised := RegisterCards(serials, Card(l, InMain, None, None, Some(id)));
      if raised.Some? {
        Rollback(savepoint);
      }
    }

    method Allocate(customer: CustomerId, line: LineId, quantity: int, serials: seq<string>) returns (raised: Option<Fault>)
      modifies this
      ensures Commits(SimStock.Allocate(old(View()), customer, line, quantity, serials), old(View()), View(), raised)
    {
      if quantity < 1 {
        return Some(QuantityBelowOne);
      }
      raised := SerialProblem(serials, quantity);
      if raised.Some? {
        return;
      }
      var savepoint := View();
      var l := StockLine(lines, line);
      var main, held := MainPool(lines, l), HeldPool(lines, customer, l);
      var stock := GetBalance(main);
      if stock < quantity {
        Rollback(savepoint);
        return Some(InsufficientStock);
      }
      PutAfterTouch(savepoint.rows, main, -quantity);
      var id := Transfer(AllocateToCustomer, l, quantity, main, held, customer);
      raised := MoveListedCards(serials, l, InMain, WithCustomer, Some(customer), id);
      if raised.Some? {
        Rollback(savepoint);
      }
    }

    method Return(customer: CustomerId, line: LineId, quantity: int, serials: seq<string>) returns (raised: Option<Fault>)
      modifies this
      ensures Commits(SimStock.Return(old(View()), customer, line, quantity, serials), old(View()), View(), raised)
    {
      if quantity < 1 {
        return Some(QuantityBelowOne);
      }
      raised := SerialProblem(serials, quantity);
      if raised.Some? {
        return;
      }
      var savepoint := View();
      var l := StockLine(lines, line);
      var main, held := MainPool(lines, l), HeldPool(lines, customer, l);
      var stock := GetBalance(held);
      if stock < quantity {
        Rollback(savepoint);
        return Some(InsufficientStock);
      }
      PutAfterTouch(savepoint.rows, held, -quantity);
      var id := Transfer(ReturnFromCustomer, l, quantity, held, main, customer);
      raised := MoveListedCards(serials, l, WithCustomer, InMain, None, id);
      if raised.Some? {
        Rollback(savepoint);
      }
    }

    method SetQuantity(pool: Pool, quantity: int, reason: string, requireReason: bool) returns (raised: Option<Fault>)
      modifies this
      ensures Commits(SimStock.SetQuantity(old(View()), pool, quantity, reason, requireReason), old(View()), View(), raised)
    {
      if requireReason && Strip(reason) == "" {
        return Some(ReasonRequired);
      }
      if quantity < 0 {
        return Some(NegativeQuantity);
      }
      if pool !in rows {
        return Some(NoSuchRow);
      }
      var delta := quantity - rows[pool];
      if delta == 0 {
        return None;
      }
      rows := rows[pool := quantity];
      var id := RecordCorrection(pool, delta);
      return None;
    }

    method RecordCorrection(pool: Pool, delta: int) returns (id: MovementId)
      modifies this`log, this`last
      ensures old(View()).(rows := Put(old(rows), Some(pool), delta), log := log, last := last) == Corrected(old(View()), pool, delta)
    {
      if delta < 0 {
        id := RecordMovement(Adjustment, pool.line, -delta, Some(pool), None, Owner(pool), None);
      } else {
        id := RecordMovement(Adjustment, pool.line, delta, None, Some(pool), Owner(pool), None);
      }
    }

    method Clear(pool: Pool, reason: string) returns (raised: Option<Fault>)
      modifies this
      ensures Commits(SimStock.Clear(old(View()), pool, reason), old(View()), View(), raised)
    {
      raised := SetQuantity(pool, 0, if reason == "" then "Cleared for testing" else reason, true);
    }

    method Adjust(pool: Pool, delta: int, reason: string) returns (raised: Option<Fault>)
      modifies this
      ensures Commits(SimStock.Adjust(old(View()), pool, delta, reason), old(View()), View(), raised)
    {
      if Strip(reason) == "" {
        return Some(ReasonRequired);
      }
      if delta == 0 {
        return Some(ZeroAdjustment);
      }
      if pool !in rows {
        return Some(NoSuchRow);
      }
      if rows[pool] + delta < 0 {
        return Some(NegativeQuantity);
      }
      rows := rows[pool := rows[pool] + delta];
      var id := RecordCorrection(pool, delta);
      return None;
    }

    method Withdraw(kind: Kind, pool: Pool, quantity: int) returns (raised: Option<Fault>)
      modifies this
      ensures Commits(SimStock.Withdraw(old(View()), kind, pool, quantity), old(View()), View(), raised)
    {
      if quantity < 1 {
        return Some(QuantityBelowOne);
      }
      if pool !in rows {
        return Some(NoSuchRow);
      }
      if rows[pool] < quantity {
        return Some(InsufficientStock);
      }
      rows := rows[pool := rows[pool] - quantity];
      var id := RecordMovement(kind, pool.line, quantity, Some(pool), None, Owner(pool), None);
      return None;
    }

    method DeleteRow(pool: Pool) returns (raised: Option<Fault>)
      modifies this
      ensures Commits(SimStock.DeleteRow(old(View()), pool), old(View()), View(), raised)
    {
      if pool !in rows {
        return Some(NoSuchRow);
      }
      if rows[pool] != 0 {
        return Some(RowNotEmpty);
      }
      log := UnlinkAll(log, pool);
      rows := rows - {pool};
      return None;
    }

    method UndoMovedCards(m: Movement)
      modifies this`cards
      ensures cards == UndoCards(old(cards), m)
    {
      var todo := set key | key in cards && cards[key].movement == Some(m.id);
      ghost var all := todo;
      while todo != {}
        invariant todo <= all
        invariant forall key: string :: key in cards <==> key in old(cards) && !(m.kind.MainReceive? && key in all - todo)
        invariant forall key: string :: key in cards ==> cards[key] == if key in all - todo then UndoCard(old(cards)[key], m) else old(cards)[key]
        decreases todo
      {
        var key :| key in todo;
        if m.kind.MainReceive? {
          cards := cards - {key};
        } else {
          cards := cards[key := UndoCard(cards[key], m)];
        }
        todo := todo - {key};
      }
    }

    method DeleteMovement(id: MovementId) returns (raised: Option<Fault>)
      modifies this
      ensures Commits(SimStock.DeleteMovement(old(View()), id), old(View()), View(), raised)
    {
      var k := IndexOf(log, id);
      if k == |log| {
        return Some(NoSuchMovement);
      }
      var m := log[k];
      if IsSaleLinked(m) {
        return Some(SaleLinked);
      }
      if m.target.Some? && Qty(rows, m.target.value) < m.quantity {
        return Some(BelowZero);
      }
      rows := Put(rows, m.source, m.quantity);
      rows := Put(rows, m.target, -m.quantity);
      UndoMovedCards(m);
      log := log[..k] + log[k + 1..];
      return None;
    }

    // ---- the stock side of a sale ---------------------------------------------------

    method Consume(x: SaleId) returns (raised: Option<Fault>)
      modifies this
      ensures Commits(SimStock.Consume(old(View()), x), old(View()), View(), raised)
    {
      if x !in sales {
        return Some(NoSuchSale);
      }
      if !sales[x].isNewSim || sales[x].consumed {
        return None;
      }
      var savepoint := View();
      var line := StockLine(lines, sales[x].line);
      var payer := Resolve(customers, sales[x].payer);
      match payer {
        case Ambiguous =>
          return Some(AmbiguousPayer);
        case NoCustomer =>
          raised := Deduct(x, line, MainPool(lines, line), MainStock, None);
        case Known(customer) =>
          var held := HeldPool(lines, customer, line);
          var stock := GetBalance(held);
          if stock >= 1 {
            raised := Deduct(x, line, held, CustomerStock, Some(customer));
          } else {
            raised := Deduct(x, line, MainPool(lines, line), MainStock, Some(customer));
          }
      }
      if raised.Some? {
        Rollback(savepoint);
      }
    }

    method Deduct(x: SaleId, line: LineId, pool: Pool, from: DeductedFrom, customer: Option<CustomerId>) returns (raised: Option<Fault>)
      requires x in sales
      modifies this
      ensures Commits(ConsumeFrom(old(View()), x, line, pool, from, customer), old(View()), View(), raised)
    {
      var savepoint := View();
      var stock := GetBalance(pool);
      if stock < 1 {
        Rollback(savepoint);
        return Some(InsufficientStock);
      }
      PutAfterTouch(savepoint.rows, pool, -1);
      var id := Debit(x, line, pool, customer);
      raised := TakeSaleCard(Strip(sales[x].serial), line, from, customer, x, id);
      if raised.Some? {
        Rollback(savepoint);
        return;
      }
      sales := sales[x := sales[x].(consumed := true, deductedFrom := from, movement := Some(id))];
    }

    /** Take one SIM off a row for a sale and log it. */
    method Debit(x: SaleId, line: LineId, pool: Pool, customer: Option<CustomerId>) returns (id: MovementId)
      requires pool in rows
      modifies this`rows, this`log, this`last
      ensures id == last == old(last) + 1 && rows == Put(old(rows), Some(pool), -1)
      ensures log == old(log) + [Movement(id, SaleConsume, StockLine(lines, line), 1, Some(pool), None, customer, Some(x))]
    {
      AddToBalance(pool, -1);
      id := RecordMovement(SaleConsume, line, 1, Some(pool), None, customer, Some(x));
    }

    method TakeSaleCard(serial: string, line: LineId, from: DeductedFrom, customer: Option<CustomerId>, x: SaleId, id: MovementId)
      returns (raised: Option<Fault>)
      modifies this`cards
      ensures match TakeCard(old(cards), serial, line, from, customer, x, id)
              case Success(c) => raised == None && cards == c
              case Failure(e) => raised == Some(e)
    {
      if serial != "" {
        if !CardAtHand(cards, serial, line, from, customer) {
          return Some(SerialNotThere);
        }
        cards := cards[Upper(serial) := Card(line, Consumed, customer, Some(x), Some(id))];
      }
      return None;
    }

    method ReturnSaleCards(x: SaleId, from: DeductedFrom, movement: MovementId)
      modifies this`cards
      ensures cards == ReturnCards(old(cards), x, from, movement)
    {
      var todo := set key | key in cards && cards[key].sale == Some(x);
      ghost var all := todo;
      while todo != {}
        invariant todo <= all && cards.Keys == old(cards).Keys
        invariant forall key: string :: key in cards ==>
                    cards[key] == if key in all - todo then ReturnCard(old(cards)[key], x, from, movement) else old(cards)[key]
        decreases todo
      {
        var key :| key in todo;
        cards := cards[key := ReturnCard(cards[key], x, from, movement)];
        todo := todo - {key};
      }
    }

    method Reverse(x: SaleId) returns (raised: Option<Fault>)
      modifies this
      ensures Commits(SimStock.Reverse(old(View()), x), old(View()), View(), raised)
    {
      if x !in sales {
        return Some(NoSuchSale);
      }
      if !sales[x].consumed {
        return None;
      }
      var line := StockLine(lines, sales[x].line);
      match sales[x].deductedFrom {
        case Nowhere =>
          return None;
        case MainStock =>
          Restore(x, line, MainPool(lines, line), None);
        case CustomerStock =>
          var customer := CreditedCustomer(View(), sales[x]);
          if customer.None? {
            return Some(SourceUnknown);
          }
          Restore(x, line, HeldPool(lines, customer.value, line), customer);
      }
      return None;
    }

    method Restore(x: SaleId, line: LineId, pool: Pool, customer: Option<CustomerId>)
      requires x in sales && line == StockLine(lines, sales[x].line)
      modifies this
      ensures View() == ReverseTo(old(View()), x, pool, customer)
    {
      PutAfterTouch(rows, pool, 1);
      var had := GetBalance(pool);
      AddToBalance(pool, 1);
      var id := RecordMovement(SaleReversal, line, 1, None, Some(pool), customer, Some(x));
      ReturnSaleCards(x, sales[x].deductedFrom, id);
      sales := sales[x := sales[x].(consumed := false, deductedFrom := Nowhere, movement := None)];
    }
  }
}
